/** What a client that gathers the encoder's frames gets: the answer of the run. */
module AnthropicClient {
  import opened Text
  import opened Envelope
  import opened Machines
  import opened Aggregate
  import opened Anthropic

  // ---------- The client ----------

  /** A block of the message, with the text or the JSON gathered for it. */
  datatype Block = Block(kind: BlockKind, id: string, name: string, text: string)

  datatype Client = Client(model: string, blocks: seq<Block>, stopReason: string, counts: RawUsage)

  const NEW_CLIENT := Client("", [], "", RawUsage(0, 0, 0, 0))

  function Append(blocks: seq<Block>, i: int, kind: BlockKind, text: string): seq<Block> {
    if 0 <= i < |blocks| && blocks[i].kind == kind then blocks[i := blocks[i].(text := blocks[i].text + text)] else blocks
  }

  function Gather(c: Client, f: Frame): Client {
    match f
    case MsgStart(model, input, cacheRead, cacheCreate) => c.(model := model, counts := RawUsage(input, cacheRead, cacheCreate, 0))
    case BlockStart(_, kind, id, name) => c.(blocks := c.blocks + [Block(kind, id, name, "")])
    case ThinkingDelta(i, text) => c.(blocks := Append(c.blocks, i, Thinking, text))
    case TextDelta(i, text) => c.(blocks := Append(c.blocks, i, TextBlock, text))
    case InputJsonDelta(i, json) => c.(blocks := Append(c.blocks, i, ToolUse, json))
    case MsgDelta(reason, input, output, cacheRead, cacheCreate) =>
      c.(stopReason := reason, counts := RawUsage(input, cacheRead, cacheCreate, output))
    case BlockStop(_) => c
    case MsgStop => c
  }

  function GatherAll(c: Client, frames: seq<Frame>): Client
    decreases |frames|
  {
    if frames == [] then c else GatherAll(Gather(c, frames[0]), frames[1..])
  }

  lemma {:induction false} GatherConcat(c: Client, a: seq<Frame>, b: seq<Frame>)
    ensures GatherAll(c, a + b) == GatherAll(GatherAll(c, a), b)
    decreases |a|
  {
    if a == [] {
      assert a + b == b;
    } else {
      GatherConcat(Gather(c, a[0]), a[1..], b);
      assert (a + b)[1..] == a[1..] + b;
    }
  }

  lemma GatherOne(c: Client, f: Frame)
    ensures GatherAll(c, [f]) == Gather(c, f)
  {
    assert GatherAll(Gather(c, f), [f][1..]) == Gather(c, f);
  }

  /** The texts of the blocks of a kind, joined. */
  function Joined(blocks: seq<Block>, kind: BlockKind): string {
    if blocks == [] then ""
    else
      var last := |blocks| - 1;
      Joined(blocks[..last], kind) + if blocks[last].kind == kind then blocks[last].text else ""
  }

  /** The calls, in order. */
  function Calls(blocks: seq<Block>): seq<Tool> {
    if blocks == [] then []
    else
      var last := |blocks| - 1;
      var b := blocks[last];
      Calls(blocks[..last]) + if b.kind == ToolUse then [Tool(b.id, b.name, b.text)] else []
  }

  function Ids(blocks: seq<Block>): seq<string> {
    if blocks == [] then []
    else
      var last := |blocks| - 1;
      Ids(blocks[..last]) + if blocks[last].kind == ToolUse then [blocks[last].id] else []
  }

  lemma Started(blocks: seq<Block>, b: Block, kind: BlockKind)
    requires b.text == ""
    ensures Joined(blocks + [b], kind) == Joined(blocks, kind)
    ensures Ids(blocks + [b]) == Ids(blocks) + if b.kind == ToolUse then [b.id] else []
  {
    var more := blocks + [b];
    assert more[..|more| - 1] == blocks && more[|more| - 1] == b;
    assert Joined(blocks, kind) + "" == Joined(blocks, kind);
  }

  /** No block of the kind comes after this one. */
  predicate Latest(blocks: seq<Block>, i: int, kind: BlockKind) {
    0 <= i < |blocks| && blocks[i].kind == kind && forall j | i < j < |blocks| :: blocks[j].kind != kind
  }

  lemma {:induction false} Appended(blocks: seq<Block>, i: nat, text: string, kind: BlockKind)
    requires i < |blocks|
    ensures var b := blocks[i];
            var after := blocks[i := b.(text := b.text + text)];
            && Ids(after) == Ids(blocks)
            && (b.kind != kind ==> Joined(after, kind) == Joined(blocks, kind))
            && (Latest(blocks, i, kind) ==> Joined(after, kind) == Joined(blocks, kind) + text)
    decreases |blocks|
  {
    var b, last := blocks[i], |blocks| - 1;
    var after := blocks[i := b.(text := b.text + text)];
    if i == last {
      assert after[..last] == blocks[..last];
      Regroup(Joined(blocks[..last], kind), b.text, text);
    } else {
      Appended(blocks[..last], i, text, kind);
      assert after[..last] == blocks[..last][i := b.(text := b.text + text)];
      var before := Joined(blocks[..last], kind);
      assert Latest(blocks, i, kind) ==> Latest(blocks[..last], i, kind) && before + "" == before && before + text + "" == before + text;
    }
  }

  // ---------- Encoder, client and fold ----------

  ghost predicate Faithful(blocks: seq<Block>, tools: map<string, Tool>) {
    && (forall i | 0 <= i < |blocks| && blocks[i].kind == ToolUse ::
          blocks[i].id in tools && tools[blocks[i].id] == Tool(blocks[i].id, blocks[i].name, blocks[i].text))
    && (forall i, j | 0 <= i < j < |blocks| && blocks[i].kind == ToolUse && blocks[j].kind == ToolUse :: blocks[i].id != blocks[j].id)
  }

  /** The client's blocks hold what the fold has gathered, and the encoder knows which are open. */
  ghost predicate Gathered(s: Enc, blocks: seq<Block>, a: Agg) {
    && |blocks| == s.next && s.tools == a.track
    && (s.think >= 0 ==> Latest(blocks, s.think, Thinking))
    && (s.text >= 0 ==> Latest(blocks, s.text, TextBlock))
    && (forall id :: id in s.toolBlocks <==> id in a.tools)
    && (forall id <- s.toolBlocks :: var i := s.toolBlocks[id]; 0 <= i < |blocks| && blocks[i].kind == ToolUse && blocks[i].id == id)
    && Faithful(blocks, a.tools) && Ids(blocks) == a.order
    && Joined(blocks, Thinking) == a.reasoning && Joined(blocks, TextBlock) == a.text
  }

  /** The frames of a step change nothing but the client's blocks. */
  ghost predicate StepGathers(s: Enc, c: Client, a: Agg, ev: Event) {
    var (s1, out) := Encode(s, ev);
    var c1 := GatherAll(c, out);
    Gathered(s1, c1.blocks, Absorb(a, ev)) && c1 == c.(blocks := c1.blocks)
  }

  lemma ThinkingOpens(s: Enc, blocks: seq<Block>, a: Agg)
    requires Gathered(s, blocks, a) && s.think < 0
    ensures Gathered(OpenThinking(s).0, blocks + [Block(Thinking, "", "", "")], a)
  {
    hide Joined, Ids;
    Started(blocks, Block(Thinking, "", "", ""), Thinking);
    Started(blocks, Block(Thinking, "", "", ""), TextBlock);
  }

  lemma ThinkingGrows(s: Enc, blocks: seq<Block>, a: Agg, text: string)
    requires Gathered(s, blocks, a) && s.think >= 0
    ensures Gathered(s, Append(blocks, s.think, Thinking, text), a.(reasoning := a.reasoning + text))
  {
    hide Joined, Ids;
    Appended(blocks, s.think, text, Thinking);
    Appended(blocks, s.think, text, TextBlock);
  }

  lemma ThinkingStep(s: Enc, c: Client, a: Agg, text: string)
    requires Gathered(s, c.blocks, a)
    ensures StepGathers(s, c, a, ContentDelta(text, true))
  {
    hide Gathered, GatherAll;
    var (s1, open) := OpenThinking(s);
    var c1 := if s.think < 0 then c.(blocks := c.blocks + [Block(Thinking, "", "", "")]) else c;
    if s.think < 0 {
      SizesMatch(s, c.blocks, a);
      GatherOne(c, BlockStart(s.next, Thinking, "", ""));
      ThinkingOpens(s, c.blocks, a);
    } else {
      GatherNone(c);
    }
    GatherConcat(c, open, [ThinkingDelta(s1.think, text)]);
    GatherOne(c1, ThinkingDelta(s1.think, text));
    ThinkingGrows(s1, c1.blocks, a, text);
  }

  lemma SizesMatch(s: Enc, blocks: seq<Block>, a: Agg)
    requires Gathered(s, blocks, a)
    ensures s.next == |blocks|
  {
  }

  lemma GatherNone(c: Client)
    ensures GatherAll(c, []) == c
  {
  }

  lemma TextOpens(s: Enc, blocks: seq<Block>, a: Agg)
    requires Gathered(s, blocks, a) && s.text < 0
    ensures Gathered(OpenText(s).0, blocks + [Block(TextBlock, "", "", "")], a)
  {
    hide Joined, Ids;
    Started(blocks, Block(TextBlock, "", "", ""), Thinking);
    Started(blocks, Block(TextBlock, "", "", ""), TextBlock);
  }

  lemma TextGrows(s: Enc, blocks: seq<Block>, a: Agg, text: string)
    requires Gathered(s, blocks, a) && s.text >= 0
    ensures Gathered(s, Append(blocks, s.text, TextBlock, text), a.(text := a.text + text))
  {
    hide Joined, Ids;
    Appended(blocks, s.text, text, Thinking);
    Appended(blocks, s.text, text, TextBlock);
  }

  lemma ThinkingCloses(s: Enc, blocks: seq<Block>, a: Agg)
    requires Gathered(s, blocks, a)
    ensures Gathered(CloseThinking(s), blocks, a)
  {
    hide Joined, Ids, Faithful;
  }

  lemma TextStep(s: Enc, c: Client, a: Agg, text: string)
    requires Gathered(s, c.blocks, a)
    ensures StepGathers(s, c, a, ContentDelta(text, false))
  {
    hide Gathered, GatherAll;
    var s0, close := CloseThinking(s), StopIfOpen(s.think);
    ThinkingCloses(s, c.blocks, a);
    GatherNone(c);
    GatherOne(c, BlockStop(s.think));
    var (s1, open) := OpenText(s0);
    var c1 := if s.text < 0 then c.(blocks := c.blocks + [Block(TextBlock, "", "", "")]) else c;
    if s.text < 0 {
      SizesMatch(s0, c.blocks, a);
      GatherOne(c, BlockStart(s.next, TextBlock, "", ""));
      TextOpens(s0, c.blocks, a);
    }
    GatherConcat(c, close, open);
    GatherConcat(c, close + open, [TextDelta(s1.text, text)]);
    GatherOne(c1, TextDelta(s1.text, text));
    TextGrows(s1, c1.blocks, a, text);
  }

  lemma ToolStarts(s: Enc, blocks: seq<Block>, a: Agg)
    requires Gathered(s, blocks, a) && s.tools.lastId !in s.toolBlocks
    ensures Gathered(OpenTool(s).0, blocks + [Block(ToolUse, s.tools.lastId, s.tools.lastName, "")],
                     AddArgs(a, s.tools.lastId, s.tools.lastName, ""))
  {
    hide Joined, Ids;
    Started(blocks, Block(ToolUse, s.tools.lastId, s.tools.lastName, ""), Thinking);
    Started(blocks, Block(ToolUse, s.tools.lastId, s.tools.lastName, ""), TextBlock);
  }

  lemma KnownCall(s: Enc, blocks: seq<Block>, a: Agg, id: string, name: string)
    requires Gathered(s, blocks, a)
    ensures id in s.toolBlocks ==> AddArgs(a, id, name, "") == a
  {
    hide Joined, Ids, Faithful;
    if id in s.toolBlocks {
      assert id in a.tools;
      var t := a.tools[id];
      assert t.input + "" == t.input;
      assert a.tools[id := t] == a.tools;
    }
  }

  /** The call's block is started when the fold meets the call. */
  lemma ToolOpens(s: Enc, c: Client, a: Agg)
    requires Gathered(s, c.blocks, a)
    ensures var (s1, open) := OpenTool(s);
            var c1 := GatherAll(c, open);
            Gathered(s1, c1.blocks, AddArgs(a, s.tools.lastId, s.tools.lastName, "")) && c1 == c.(blocks := c1.blocks)
            && s.tools.lastId in s1.toolBlocks && s1.tools == s.tools
  {
    hide Gathered, GatherAll, AddArgs;
    var call, name := s.tools.lastId, s.tools.lastName;
    KnownCall(s, c.blocks, a, call, name);
    GatherNone(c);
    SizesMatch(s, c.blocks, a);
    if call !in s.toolBlocks {
      GatherOne(c, BlockStart(s.next, ToolUse, call, name));
      ToolStarts(s, c.blocks, a);
    }
  }

  lemma ToolGrows(s: Enc, c: Client, a: Agg, args: string)
    requires Gathered(s, c.blocks, a) && s.tools.lastId in s.toolBlocks
    ensures var call := s.tools.lastId;
            var c1 := Gather(c, InputJsonDelta(s.toolBlocks[call], args));
            Gathered(s, c1.blocks, AddArgs(a, call, s.tools.lastName, args)) && c1 == c.(blocks := c1.blocks)
  {
    hide Joined, Ids;
    var i := s.toolBlocks[s.tools.lastId];
    Appended(c.blocks, i, args, Thinking);
    Appended(c.blocks, i, args, TextBlock);
  }

  lemma Resolved(s: Enc, blocks: seq<Block>, a: Agg, t: Tracker)
    requires Gathered(s, blocks, a)
    ensures Gathered(s.(tools := t), blocks, a.(track := t)) && s.tools == a.track
  {
    hide Joined, Ids, Faithful;
  }

  lemma ToolStep(s: Enc, c: Client, a: Agg, id: string, name: string, args: string)
    requires Gathered(s, c.blocks, a)
    ensures StepGathers(s, c, a, ToolCallDelta(id, name, args))
  {
    hide Gathered, Gather, GatherAll, AddArgs, OpenTool;
    var t := s.tools.Resolve(id, name);
    var s0, a0 := s.(tools := t), a.(track := t);
    Resolved(s, c.blocks, a, t);
    ToolOpens(s0, c, a0);
    var (s1, open) := OpenTool(s0);
    var c1, a1 := GatherAll(c, open), AddArgs(a0, t.lastId, t.lastName, "");
    if args == "" {
      assert open + [] == open;
    } else {
      var f := InputJsonDelta(s1.toolBlocks[t.lastId], args);
      GatherConcat(c, open, [f]);
      GatherOne(c1, f);
      ToolGrows(s1, c1, a1, args);
      AddTwice(a0, t.lastId, t.lastName, args);
    }
  }

  lemma AddTwice(a: Agg, id: string, name: string, args: string)
    ensures AddArgs(AddArgs(a, id, name, ""), id, name, args) == AddArgs(a, id, name, args)
  {
    assert "" + args == args;
    if id in a.tools {
      assert a.tools[id].input + "" == a.tools[id].input;
    }
  }

  lemma {:induction false} DeltasGathered(s: Enc, c: Client, a: Agg, deltas: seq<Event>)
    requires Gathered(s, c.blocks, a) && OnlyDeltas(deltas)
    ensures var (s1, out) := Run(Encode, s, deltas);
            var c1 := GatherAll(c, out);
            Gathered(s1, c1.blocks, AbsorbAll(a, deltas)) && c1 == c.(blocks := c1.blocks)
    decreases |deltas|
  {
    hide Encode, Absorb, Gathered, Gather;
    if deltas != [] {
      var ev := deltas[0];
      assert IsDelta(ev);
      DeltaGathered(s, c, a, ev);
      var (s1, out) := Encode(s, ev);
      DeltasGathered(s1, GatherAll(c, out), Absorb(a, ev), deltas[1..]);
      GatherConcat(c, out, Run(Encode, s1, deltas[1..]).1);
    }
  }

  lemma DeltaGathered(s: Enc, c: Client, a: Agg, ev: Event)
    requires Gathered(s, c.blocks, a) && IsDelta(ev)
    ensures StepGathers(s, c, a, ev)
  {
    hide StepGathers, Gathered;
    match ev
    case ContentDelta(text, reasoning) =>
      if reasoning {
        ThinkingStep(s, c, a, text);
      } else {
        TextStep(s, c, a, text);
      }
    case ToolCallDelta(id, name, args) =>
      ToolStep(s, c, a, id, name, args);
    case _ =>
  }

  // ---------- The whole answer ----------

  lemma {:induction false} StopsGatherNothing(c: Client, frames: seq<Frame>)
    requires forall f <- frames :: f.BlockStop?
    ensures GatherAll(c, frames) == c
    decreases |frames|
  {
    if frames != [] {
      assert frames[0].BlockStop?;
      StopsGatherNothing(c, frames[1..]);
    }
  }

  lemma FinishGathered(s: Enc, c: Client, reason: string, usage: Option<Usage>)
    ensures var d := FinishDelta(s, reason, usage);
            GatherAll(c, Encode(s, MessageFinish(reason, usage)).1) == Gather(c, d)
  {
    hide SortedBlocks, FinishDelta;
    var stops := StopIfOpen(s.think) + StopIfOpen(s.text) + Stops(SortedBlocks(s));
    var d := FinishDelta(s, reason, usage);
    StopsGatherNothing(c, stops);
    assert stops + [d, MsgStop] == stops + [d] + [MsgStop];
    GatherConcat(c, stops + [d], [MsgStop]);
    GatherConcat(c, stops, [d]);
    GatherOne(c, d);
    GatherOne(Gather(c, d), MsgStop);
  }

  lemma {:induction false} CallsOfIds(blocks: seq<Block>, tools: map<string, Tool>)
    requires Faithful(blocks, tools)
    ensures |Calls(blocks)| == |Ids(blocks)|
    ensures forall i | 0 <= i < |Ids(blocks)| :: Ids(blocks)[i] in tools && Calls(blocks)[i] == tools[Ids(blocks)[i]]
    decreases |blocks|
  {
    if blocks != [] {
      CallsOfIds(blocks[..|blocks| - 1], tools);
    }
  }

  /** What the client ends up with for any deltas between a start and a finish. */
  lemma RunGathered(model: string, s: Session, spare: string)
    requires OnlyDeltas(s.deltas)
    ensures var (e, mid) := Run(Encode, NewEnc(model, spare).(model := s.model), s.deltas);
            var c1 := GatherAll(NEW_CLIENT.(model := s.model), mid);
            && c1.model == s.model && e.inputTokens == 0
            && Gathered(e, c1.blocks, AbsorbAll(NewAgg(model, spare).(model := s.model), s.deltas))
            && GatherAll(NEW_CLIENT, Run(Encode, NewEnc(model, spare), s.Events()).1) == Gather(c1, FinishDelta(e, s.reason, s.usage))
  {
    hide Encode, Gathered, FinishDelta;
    var e0, fin := NewEnc(model, spare).(model := s.model), MessageFinish(s.reason, s.usage);
    var c0 := NEW_CLIENT.(model := s.model);
    StartGathers(model, s.model, spare);
    DeltasGathered(e0, c0, NewAgg(model, spare).(model := s.model), s.deltas);
    var (e, mid) := Run(Encode, e0, s.deltas);
    InputKept(e0, s.deltas);
    var first, last := [MsgStart(s.model, 0, 0, 0)], Encode(e, fin).1;
    RunConcat(Encode, e0, s.deltas, [fin]);
    RunOne(Encode, e, fin);
    assert s.Events()[0] == MessageStart(s.model) && s.Events()[1..] == s.deltas + [fin];
    assert Run(Encode, NewEnc(model, spare), s.Events()).1 == first + (mid + last);
    GatherConcat(NEW_CLIENT, first, mid + last);
    GatherConcat(c0, mid, last);
    FinishGathered(e, GatherAll(c0, mid), s.reason, s.usage);
  }

  lemma StartGathers(model: string, name: string, spare: string)
    ensures Encode(NewEnc(model, spare), MessageStart(name)) == (NewEnc(model, spare).(model := name), [MsgStart(name, 0, 0, 0)])
    ensures GatherAll(NEW_CLIENT, [MsgStart(name, 0, 0, 0)]) == NEW_CLIENT.(model := name)
    ensures Gathered(NewEnc(model, spare).(model := name), [], NewAgg(model, spare).(model := name))
  {
    GatherOne(NEW_CLIENT, MsgStart(name, 0, 0, 0));
  }

  lemma {:induction false} InputKept(s: Enc, evs: seq<Event>)
    ensures Run(Encode, s, evs).0.inputTokens == s.inputTokens
    decreases |evs|
  {
    if evs != [] {
      InputKept(Encode(s, evs[0]).0, evs[1..]);
      hide Encode;
    }
  }

  lemma GatheredAnswer(s: Enc, blocks: seq<Block>, a: Agg)
    requires Gathered(s, blocks, a)
    ensures Joined(blocks, Thinking) == a.reasoning && Joined(blocks, TextBlock) == a.text
    ensures |Calls(blocks)| == |a.order|
    ensures forall i | 0 <= i < |a.order| :: a.order[i] in a.tools && Calls(blocks)[i] == a.tools[a.order[i]]
  {
    hide Joined, Calls, Ids, Faithful;
    CallsOfIds(blocks, a.tools);
  }

  lemma FinishTable(e: Enc, c: Client, reason: string, usage: Option<Usage>)
    requires e.inputTokens == 0
    ensures var c1 := Gather(c, FinishDelta(e, reason, usage));
            && c1.model == c.model && c1.blocks == c.blocks
            && c1.stopReason == MapStopReason(reason)
            && (usage.None? ==> c1.counts == RawUsage(0, 0, 0, 0))
            && (usage.Some? ==>
                  var u := usage.value;
                  && c1.counts.output == u.output
                  && c1.counts.input == (if u.input > u.cached + u.write then u.input - u.cached - u.write else 0)
                  && c1.counts.cacheRead == (if u.cached > 0 then u.cached else 0)
                  && c1.counts.cacheCreate == (if u.write > 0 then u.write else 0)
                  && (LegalUsage(u) ==> c1.counts.Envelope() == u.(credit := 0.0)))
  {
    hide MapStopReason;
  }

  /** For every run a client gets its model, its reasoning and its text, in order, and its calls, each with
      its id, its name and all its arguments, in order of first appearance. */
  lemma ClientGetsAnswer(model: string, s: Session, spare: string)
    requires OnlyDeltas(s.deltas)
    ensures var c := GatherAll(NEW_CLIENT, Run(Encode, NewEnc(model, spare), s.Events()).1);
            var a := AbsorbAll(NewAgg(model, spare), s.Events());
            && c.model == s.model
            && Joined(c.blocks, Thinking) == a.reasoning && Joined(c.blocks, TextBlock) == a.text
            && |Calls(c.blocks)| == |a.order|
            && forall i | 0 <= i < |a.order| :: a.order[i] in a.tools && Calls(c.blocks)[i] == a.tools[a.order[i]]
  {
    hide Encode, FinishDelta, Joined, Calls, AbsorbAll, GatherAll, Gathered, Gather;
    RunGathered(model, s, spare);
    AbsorbSession(NewAgg(model, spare), s);
    var e := Run(Encode, NewEnc(model, spare).(model := s.model), s.deltas).0;
    var c1 := GatherAll(NEW_CLIENT.(model := s.model), Run(Encode, NewEnc(model, spare).(model := s.model), s.deltas).1);
    GatheredAnswer(e, c1.blocks, AbsorbAll(NewAgg(model, spare).(model := s.model), s.deltas));
    FinishTable(e, c1, s.reason, s.usage);
  }

  /** The three reasons with a name of their own, end_turn for all others, and the counts with the cache
      apart from the input. */
  lemma ClientGetsCounts(model: string, s: Session, spare: string)
    requires OnlyDeltas(s.deltas)
    ensures var c := GatherAll(NEW_CLIENT, Run(Encode, NewEnc(model, spare), s.Events()).1);
            && (c.stopReason == "tool_use" <==> s.reason == "tool_calls")
            && (c.stopReason == "max_tokens" <==> s.reason == "length")
            && (c.stopReason == "refusal" <==> s.reason == "content_filter")
            && c.stopReason in ["tool_use", "max_tokens", "refusal", "end_turn"]
            && (s.usage.None? ==> c.counts == RawUsage(0, 0, 0, 0))
            && (s.usage.Some? ==>
                  var u := s.usage.value;
                  && c.counts.output == u.output
                  && c.counts.input == (if u.input > u.cached + u.write then u.input - u.cached - u.write else 0)
                  && c.counts.cacheRead == (if u.cached > 0 then u.cached else 0)
                  && c.counts.cacheCreate == (if u.write > 0 then u.write else 0)
                  && (LegalUsage(u) ==> c.counts.Envelope() == u.(credit := 0.0)))
  {
    hide Encode, FinishDelta, AbsorbAll, GatherAll, Gathered, Gather;
    RunGathered(model, s, spare);
    var e := Run(Encode, NewEnc(model, spare).(model := s.model), s.deltas).0;
    var c1 := GatherAll(NEW_CLIENT.(model := s.model), Run(Encode, NewEnc(model, spare).(model := s.model), s.deltas).1);
    FinishTable(e, c1, s.reason, s.usage);
  }
}
