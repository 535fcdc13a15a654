/** The Anthropic encoder keeps its blocks in order, and the parser recovers the answer. */
module AnthropicRoundTrip {
  import opened Text
  import opened Envelope
  import opened Machines
  import opened Aggregate
  import opened Anthropic

  // ---------- Block discipline ----------

  /** A client that watches the frames: the kind of every block started, the blocks stopped,
      and whether every frame so far was allowed. */
  datatype Watch = Watch(kinds: seq<BlockKind>, stopped: set<int>, ended: bool, ok: bool)
  {
    predicate Live(i: int, kind: BlockKind) {
      0 <= i < |kinds| && kinds[i] == kind && i !in stopped
    }

    predicate AllStopped() {
      forall i | 0 <= i < |kinds| :: i in stopped
    }
  }

  const START_WATCH := Watch([], {}, false, true)

  /** Starts carry the next index; deltas go to a live block of their kind; a block is stopped
      once; the message ends when every block has been stopped, and nothing follows. */
  function See(w: Watch, f: Frame): Watch {
    var calm := w.ok && !w.ended;
    match f
    case BlockStart(i, kind, _, _) => w.(ok := calm && i == |w.kinds|, kinds := w.kinds + [kind])
    case ThinkingDelta(i, _) => w.(ok := calm && w.Live(i, Thinking))
    case TextDelta(i, _) => w.(ok := calm && w.Live(i, TextBlock))
    case InputJsonDelta(i, _) => w.(ok := calm && w.Live(i, ToolUse))
    case BlockStop(i) => w.(ok := calm && 0 <= i < |w.kinds| && i !in w.stopped, stopped := w.stopped + {i})
    case MsgStop => w.(ok := calm && w.AllStopped(), ended := true)
    case MsgStart(_, _, _, _) => w.(ok := calm)
    case MsgDelta(_, _, _, _, _) => w.(ok := calm)
  }

  function SeeAll(w: Watch, frames: seq<Frame>): Watch
    decreases |frames|
  {
    if frames == [] then w else SeeAll(See(w, frames[0]), frames[1..])
  }

  lemma {:induction false} SeeAllConcat(w: Watch, a: seq<Frame>, b: seq<Frame>)
    ensures SeeAll(w, a + b) == SeeAll(SeeAll(w, a), b)
    decreases |a|
  {
    if a == [] {
      assert a + b == b;
    } else {
      SeeAllConcat(See(w, a[0]), a[1..], b);
      assert (a + b)[1..] == a[1..] + b;
    }
  }

  lemma SeeOne(w: Watch, f: Frame)
    ensures SeeAll(w, [f]) == See(w, f)
  {
    assert SeeAll(See(w, f), [f][1..]) == See(w, f);
  }

  /** The encoder's fields account for exactly the live blocks. */
  ghost predicate Accounts(s: Enc, w: Watch) {
    && w.ok && !w.ended && |w.kinds| == s.next
    && (forall i <- w.stopped :: i < s.next)
    && (s.think >= 0 ==> w.Live(s.think, Thinking))
    && (s.text >= 0 ==> w.Live(s.text, TextBlock))
    && (forall id <- s.toolBlocks :: w.Live(s.toolBlocks[id], ToolUse))
    && (forall i | 0 <= i < s.next :: i in w.stopped || i == s.think || i == s.text || i in s.toolBlocks.Values)
  }

  lemma StopOne(s: Enc, w: Watch)
    requires Accounts(s, w)
    ensures Accounts(CloseThinking(s), SeeAll(w, StopIfOpen(s.think)))
  {
    if s.think >= 0 {
      SeeOne(w, BlockStop(s.think));
    }
  }

  lemma StartOne(s: Enc, w: Watch, kind: BlockKind, id: string, name: string)
    requires Accounts(s, w)
    ensures var w1 := SeeAll(w, [BlockStart(s.next, kind, id, name)]);
            && w1 == w.(kinds := w.kinds + [kind])
            && forall i, k | w.Live(i, k) :: w1.Live(i, k)
  {
    SeeOne(w, BlockStart(s.next, kind, id, name));
  }

  lemma ThinkingStep(s: Enc, w: Watch, text: string)
    requires Accounts(s, w)
    ensures var (s1, out) := Encode(s, ContentDelta(text, true)); Accounts(s1, SeeAll(w, out))
  {
    var (s1, open) := OpenThinking(s);
    if s.think < 0 {
      StartOne(s, w, Thinking, "", "");
    }
    var w1 := SeeAll(w, open);
    SeeAllConcat(w, open, [ThinkingDelta(s1.think, text)]);
    SeeOne(w1, ThinkingDelta(s1.think, text));
  }

  lemma TextStep(s: Enc, w: Watch, text: string)
    requires Accounts(s, w)
    ensures var (s1, out) := Encode(s, ContentDelta(text, false)); Accounts(s1, SeeAll(w, out))
  {
    StopOne(s, w);
    var s0, close := CloseThinking(s), StopIfOpen(s.think);
    var w0 := SeeAll(w, close);
    var (s1, open) := OpenText(s0);
    if s0.text < 0 {
      StartOne(s0, w0, TextBlock, "", "");
    }
    var w1 := SeeAll(w0, open);
    SeeAllConcat(w, close, open);
    SeeAllConcat(w, close + open, [TextDelta(s1.text, text)]);
    SeeOne(w1, TextDelta(s1.text, text));
  }

  lemma ToolOpens(s: Enc, w: Watch)
    requires Accounts(s, w)
    ensures var (s1, open) := OpenTool(s); Accounts(s1, SeeAll(w, open)) && s.tools.lastId in s1.toolBlocks
  {
    var call := s.tools.lastId;
    if call !in s.toolBlocks {
      StartOne(s, w, ToolUse, call, s.tools.lastName);
      var s1 := OpenTool(s).0;
      hide SeeAll;
      forall i | i in s.toolBlocks.Values
        ensures i in s1.toolBlocks.Values
      {
        var k :| k in s.toolBlocks && s.toolBlocks[k] == i;
        assert k in s1.toolBlocks && s1.toolBlocks[k] == i;
      }
      assert call in s1.toolBlocks && s1.toolBlocks[call] == s.next;
    }
  }

  lemma ToolArgs(s: Enc, w: Watch, call: string, args: string)
    requires Accounts(s, w) && call in s.toolBlocks
    ensures SeeAll(w, [InputJsonDelta(s.toolBlocks[call], args)]) == w
  {
    SeeOne(w, InputJsonDelta(s.toolBlocks[call], args));
  }

  lemma ToolStep(s: Enc, w: Watch, id: string, name: string, args: string)
    requires Accounts(s, w)
    ensures var (s1, out) := Encode(s, ToolCallDelta(id, name, args)); Accounts(s1, SeeAll(w, out))
  {
    var s0 := s.(tools := s.tools.Resolve(id, name));
    assert Accounts(s0, w);
    hide Accounts, SeeAll;
    ToolOpens(s0, w);
    var s1, open := OpenTool(s0).0, OpenTool(s0).1;
    hide OpenTool;
    if args != "" {
      ToolArgs(s1, SeeAll(w, open), s0.tools.lastId, args);
      SeeAllConcat(w, open, [InputJsonDelta(s1.toolBlocks[s1.tools.lastId], args)]);
    } else {
      assert open + [] == open;
    }
  }

  /** Stopping live blocks in ascending order stops exactly these. */
  lemma {:induction false} StopsStep(w: Watch, vals: set<int>, lo: int, hi: int)
    requires w.ok && !w.ended
    requires forall i | i in vals && lo <= i < hi :: 0 <= i < |w.kinds| && i !in w.stopped
    ensures SeeAll(w, Stops(Ascending(vals, lo, hi))) ==
            w.(stopped := w.stopped + set i | i in vals && lo <= i < hi)
    decreases hi - lo
  {
    if lo < hi {
      var rest := Ascending(vals, lo + 1, hi);
      if lo in vals {
        var w1 := See(w, BlockStop(lo));
        assert Ascending(vals, lo, hi) == [lo] + rest;
        assert Stops([lo] + rest)[0] == BlockStop(lo) && Stops([lo] + rest)[1..] == Stops(rest);
        StopsStep(w1, vals, lo + 1, hi);
        assert (set i | i in vals && lo <= i < hi) == {lo} + set i | i in vals && lo + 1 <= i < hi;
        assert w.stopped + {lo} + (set i | i in vals && lo + 1 <= i < hi)
            == w.stopped + set i | i in vals && lo <= i < hi;
      } else {
        assert Ascending(vals, lo, hi) == rest;
        StopsStep(w, vals, lo + 1, hi);
        assert (set i | i in vals && lo <= i < hi) == set i | i in vals && lo + 1 <= i < hi;
      }
    } else {
      assert (set i | i in vals && lo <= i < hi) == {};
      assert w.stopped + {} == w.stopped;
    }
  }

  /** Thinking, text and tool blocks together are all that was live. */
  lemma StopEverything(s: Enc, w: Watch)
    requires Accounts(s, w)
    ensures var w1 := SeeAll(w, StopIfOpen(s.think) + StopIfOpen(s.text) + Stops(SortedBlocks(s)));
            w1.ok && !w1.ended && w1.AllStopped()
  {
    StopOne(s, w);
    var think, text, tools := StopIfOpen(s.think), StopIfOpen(s.text), Stops(SortedBlocks(s));
    var w1 := SeeAll(w, think);
    if s.text >= 0 {
      SeeOne(w1, BlockStop(s.text));
    }
    var w2 := SeeAll(w1, text);
    StopsStep(w2, s.toolBlocks.Values, 0, s.next);
    SeeAllConcat(w, think, text);
    SeeAllConcat(w, think + text, tools);
  }

  lemma FinishStep(s: Enc, w: Watch, reason: string, usage: Option<Usage>)
    requires Accounts(s, w)
    ensures var end := SeeAll(w, Encode(s, MessageFinish(reason, usage)).1); end.ok && end.ended && end.AllStopped()
  {
    StopEverything(s, w);
    var stops := StopIfOpen(s.think) + StopIfOpen(s.text) + Stops(SortedBlocks(s));
    var delta := FinishDelta(s, reason, usage);
    assert delta.MsgDelta?;
    hide FinishDelta, SeeAll, Stops, SortedBlocks, StopIfOpen;
    var w1 := SeeAll(w, stops);
    SeeAllConcat(w, stops, [delta, MsgStop]);
    assert [delta, MsgStop] == [delta] + [MsgStop];
    SeeAllConcat(w1, [delta], [MsgStop]);
    SeeOne(w1, delta);
    SeeOne(See(w1, delta), MsgStop);
  }

  lemma {:induction false} DeltaSteps(s: Enc, w: Watch, deltas: seq<Event>)
    requires Accounts(s, w) && OnlyDeltas(deltas)
    ensures var (s1, out) := Run(Encode, s, deltas); Accounts(s1, SeeAll(w, out))
    decreases |deltas|
  {
    if deltas != [] {
      match deltas[0] {
        case ContentDelta(text, true) => ThinkingStep(s, w, text);
        case ContentDelta(text, false) => TextStep(s, w, text);
        case ToolCallDelta(id, name, args) => ToolStep(s, w, id, name, args);
      }
      var (s1, out) := Encode(s, deltas[0]);
      DeltaSteps(s1, SeeAll(w, out), deltas[1..]);
      SeeAllConcat(w, out, Run(Encode, s1, deltas[1..]).1);
    }
  }

  lemma EncodeSession(s: Session, model: string, spare: string) returns (e0: Enc, e1: Enc, mid: seq<Frame>)
    ensures e0 == NewEnc(model, spare).(model := s.model)
    ensures (e1, mid) == Run(Encode, e0, s.deltas)
    ensures Run(Encode, NewEnc(model, spare), s.Events()).1
         == [MsgStart(s.model, 0, 0, 0)] + (mid + Encode(e1, MessageFinish(s.reason, s.usage)).1)
  {
    e0 := NewEnc(model, spare).(model := s.model);
    var r := Run(Encode, e0, s.deltas);
    e1, mid := r.0, r.1;
    var fin := MessageFinish(s.reason, s.usage);
    assert s.Events()[0] == MessageStart(s.model) && s.Events()[1..] == s.deltas + [fin];
    RunConcat(Encode, e0, s.deltas, [fin]);
    RunOne(Encode, e1, fin);
  }

  /** Over every run the client sees starts 0, 1, 2, ..., deltas only to live blocks of their
      kind, and every started block stopped exactly once before message_stop. */
  lemma BlockDiscipline(s: Session, model: string, spare: string)
    requires OnlyDeltas(s.deltas)
    ensures var end := SeeAll(START_WATCH, Run(Encode, NewEnc(model, spare), s.Events()).1);
            end.ok && end.ended && end.AllStopped()
  {
    var e0, e1, mid := EncodeSession(s, model, spare);
    var first := MsgStart(s.model, 0, 0, 0);
    var last := Encode(e1, MessageFinish(s.reason, s.usage)).1;
    SeeAllConcat(START_WATCH, [first], mid + last);
    SeeOne(START_WATCH, first);
    SeeAllConcat(START_WATCH, mid, last);
    DeltaSteps(e0, START_WATCH, s.deltas);
    FinishStep(e1, SeeAll(START_WATCH, mid), s.reason, s.usage);
  }

  // ---------- Round trip ----------

  /** The calls that received at least one character of arguments. */
  function WithArguments(tools: map<string, Tool>): map<string, Tool> {
    map id | id in tools && tools[id].input != "" :: tools[id]
  }

  /** The parser knows the block of every call under its id and name. */
  ghost predicate WireLinked(e: Enc, p: Par, tools: map<string, Tool>) {
    && e.tools.spare != "" && e.inputTokens == 0
    && p.pending == RawUsage(0, 0, 0, 0) && !p.sentFinish
    && e.toolBlocks.Keys == tools.Keys
    && (forall id <- e.toolBlocks :: e.toolBlocks[id] < e.next && e.toolBlocks[id] in p.blocks
          && p.blocks[e.toolBlocks[id]] == BlockInfo(Some(ToolUse), id, tools[id].name))
  }

  ghost predicate WellNamed(tools: map<string, Tool>) {
    forall id <- tools :: tools[id].id == id && id != "" && tools[id].name != ""
  }

  ghost predicate AnswerLinked(a: Agg, b: Agg) {
    && a.model == b.model && a.text == b.text && b.reasoning == ""
    && a.usage == b.usage == NO_USAGE
    && WellNamed(a.tools) && b.tools == WithArguments(a.tools)
  }

  /** a folds the run itself; b folds what the parser p makes of the encoder e's frames. */
  ghost predicate Linked(e: Enc, p: Par, a: Agg, b: Agg) {
    e.tools == a.track && WireLinked(e, p, a.tools) && AnswerLinked(a, b)
  }

  ghost predicate Named(e: Enc, rest: seq<Event>) {
    e.tools.lastName != "" || FirstToolNamed(rest)
  }

  lemma TextLink(e: Enc, p: Par, a: Agg, b: Agg, text: string, reasoning: bool)
    requires Linked(e, p, a, b)
    ensures var ev := ContentDelta(text, reasoning);
            var (e1, frames) := Encode(e, ev);
            var (p1, out) := Run(FeedFrame, p, frames);
            Linked(e1, p1, Absorb(a, ev), AbsorbAll(b, out))
  {
    var (e1, frames) := Encode(e, ContentDelta(text, reasoning));
    if reasoning {
      var open := OpenThinking(e).1;
      assert frames == open + [ThinkingDelta(e1.think, text)];
      Silent(p, open, e.next);
      RunConcat(FeedFrame, p, open, [ThinkingDelta(e1.think, text)]);
      RunOne(FeedFrame, Run(FeedFrame, p, open).0, ThinkingDelta(e1.think, text));
    } else {
      var close, open := StopIfOpen(e.think), OpenText(CloseThinking(e)).1;
      var last := TextDelta(e1.text, text);
      Silent(p, close + open, e.next);
      RunConcat(FeedFrame, p, close + open, [last]);
      RunOne(FeedFrame, Run(FeedFrame, p, close + open).0, last);
      assert [] + [ContentDelta(text, false)] == [ContentDelta(text, false)];
      AbsorbOne(b, ContentDelta(text, false));
    }
  }

  /** Starts at or above an index and stops say nothing and leave the blocks below it alone. */
  lemma {:induction false} Silent(p: Par, frames: seq<Frame>, from: int)
    requires forall i | 0 <= i < |frames| :: frames[i].BlockStop? || (frames[i].BlockStart? && frames[i].index >= from)
    ensures var (p1, out) := Run(FeedFrame, p, frames);
            && out == [] && p1.pending == p.pending && p1.sentFinish == p.sentFinish
            && (forall i | i < from :: i in p.blocks ==> i in p1.blocks && p1.blocks[i] == p.blocks[i])
    decreases |frames|
  {
    if frames != [] {
      Silent(FeedFrame(p, frames[0]).0, frames[1..], from);
    }
  }

  /** A fragment of a call adds to it in both folds; an empty fragment adds to neither. */
  lemma ToolFold(a: Agg, b: Agg, id: string, name: string, args: string)
    requires b.tools == WithArguments(a.tools)
    requires id in a.tools ==> a.tools[id].id == id && a.tools[id].name == name
    ensures WithArguments(AddArgs(a, id, name, args).tools)
         == if args == "" then b.tools else AddArgs(b, id, name, args).tools
  {
    var a1 := AddArgs(a, id, name, args);
    if id in a.tools && a.tools[id].input == "" {
      assert "" + args == args;
    }
    if args == "" && id in a.tools {
      assert a.tools[id].input + args == a.tools[id].input;
    }
  }

  function NameOf(e: Enc, tools: map<string, Tool>): string {
    if e.tools.lastId in tools then tools[e.tools.lastId].name else e.tools.lastName
  }

  /** Opening a call's block tells the parser its id and name. */
  lemma OpenLink(e: Enc, p: Par, tools: map<string, Tool>, input: string)
    requires WireLinked(e, p, tools)
    ensures var call := e.tools.lastId;
            var (e1, open) := OpenTool(e);
            var (p1, out) := Run(FeedFrame, p, open);
            out == [] && WireLinked(e1, p1, tools[call := Tool(call, NameOf(e, tools), input)])
  {
    var call := e.tools.lastId;
    assert call in e.toolBlocks.Keys <==> call in tools.Keys;
    if call !in e.toolBlocks {
      RunOne(FeedFrame, p, OpenTool(e).1[0]);
    }
  }

  /** What the parser makes of one tool delta: nothing, or the fragment with id and name. */
  lemma FragmentLink(e: Enc, p: Par, tools: map<string, Tool>, input: string, ev: Event)
    requires WireLinked(e, p, tools) && ev.ToolCallDelta?
    ensures var e0 := e.(tools := e.tools.Resolve(ev.id, ev.name));
            var call := e0.tools.lastId;
            var (e1, frames) := Encode(e, ev);
            var (p1, out) := Run(FeedFrame, p, frames);
            && out == (if ev.args == "" then [] else [ToolCallDelta(call, NameOf(e0, tools), ev.args)])
            && WireLinked(e1, p1, tools[call := Tool(call, NameOf(e0, tools), input)])
  {
    var e0 := e.(tools := e.tools.Resolve(ev.id, ev.name));
    OpenLink(e0, p, tools, input);
    var (e1, open) := OpenTool(e0);
    var frames := Encode(e, ev).1;
    if ev.args == "" {
      assert frames == open;
    } else {
      var delta := InputJsonDelta(e1.toolBlocks[e0.tools.lastId], ev.args);
      assert frames == open + [delta];
      RunConcat(FeedFrame, p, open, [delta]);
      RunOne(FeedFrame, Run(FeedFrame, p, open).0, delta);
      var out := [ToolCallDelta(e0.tools.lastId, NameOf(e0, tools), ev.args)];
      assert [] + out == out;
    }
  }

  lemma AnswerLink(a: Agg, b: Agg, call: string, name: string, args: string)
    requires AnswerLinked(a, b) && call != "" && name != ""
    requires call in a.tools ==> a.tools[call].name == name
    ensures var b1 := if args == "" then b else AddArgs(b, call, name, args);
            AnswerLinked(AddArgs(a, call, name, args), b1)
  {
    ToolFold(a, b, call, name, args);
  }

  lemma ToolLink(e: Enc, p: Par, a: Agg, b: Agg, ev: Event)
    requires Linked(e, p, a, b) && ev.ToolCallDelta? && (e.tools.lastName != "" || ev.name != "")
    ensures var (e1, frames) := Encode(e, ev);
            var (p1, out) := Run(FeedFrame, p, frames);
            Linked(e1, p1, Absorb(a, ev), AbsorbAll(b, out)) && e1.tools.lastName != ""
  {
    var e0 := e.(tools := e.tools.Resolve(ev.id, ev.name));
    var call, name := e0.tools.lastId, NameOf(e0, a.tools);
    var a1 := Absorb(a, ev);
    assert a1 == AddArgs(a.(track := e0.tools), call, name, ev.args);
    FragmentLink(e, p, a.tools, a1.tools[call].input, ev);
    assert a1.tools == a.tools[call := Tool(call, name, a1.tools[call].input)];
    AnswerLink(a.(track := e0.tools), b, call, name, ev.args);
    if ev.args != "" {
      var t := b.track.Resolve(call, name);
      AbsorbOne(b, ToolCallDelta(call, name, ev.args));
      AnswerLink(a.(track := e0.tools), b.(track := t), call, name, ev.args);
    }
  }

  lemma {:induction false} DeltaLinks(e: Enc, p: Par, a: Agg, b: Agg, deltas: seq<Event>)
    requires Linked(e, p, a, b) && OnlyDeltas(deltas) && Named(e, deltas)
    ensures var (e1, frames) := Run(Encode, e, deltas);
            var (p1, out) := Run(FeedFrame, p, frames);
            Linked(e1, p1, AbsorbAll(a, deltas), AbsorbAll(b, out))
    decreases |deltas|
  {
    if deltas != [] {
      match deltas[0] {
        case ContentDelta(text, reasoning) => TextLink(e, p, a, b, text, reasoning);
        case ToolCallDelta(_, _, _) => ToolLink(e, p, a, b, deltas[0]);
      }
      var (e1, f1) := Encode(e, deltas[0]);
      var (p1, out1) := Run(FeedFrame, p, f1);
      var b1 := AbsorbAll(b, out1);
      DeltaLinks(e1, p1, Absorb(a, deltas[0]), b1, deltas[1..]);
      var f2 := Run(Encode, e1, deltas[1..]).1;
      RunConcat(FeedFrame, p, f1, f2);
      AbsorbAllConcat(b, out1, Run(FeedFrame, p1, f2).1);
    }
  }

  function Restop(reason: string): string {
    MapStop(MapStopReason(reason))
  }

  /** Only these three stop reasons survive the two mappings. */
  lemma StopReasonSurvives(reason: string)
    ensures Restop(reason) == reason <==> reason in {"stop", "length", "tool_calls"}
  {
  }

  /** The encoder takes the cache counts out of input; merging and summing puts them back. */
  lemma CountsSurvive(u: Usage)
    requires LegalUsage(u)
    ensures RawUsage(0, 0, 0, 0).Merge(RawUsage(InputTokens(u), Positive(u.cached), Positive(u.write), u.output)).Envelope()
         == u.(credit := 0.0)
  {
  }

  lemma StopNames(reason: string)
    ensures MapStopReason(reason) != "" && MapStop(reason) != "tool_use"
  {
  }

  lemma ClosingDelta(p: Par, e: Enc, reason: string, usage: Option<Usage>)
    requires p.pending == RawUsage(0, 0, 0, 0) && !p.sentFinish && e.inputTokens == 0
    requires usage.Some? ==> LegalUsage(usage.value)
    ensures var (p1, out) := FeedFrame(p, FinishDelta(e, reason, usage));
            var u := if usage.Some? then usage.value.(credit := 0.0) else NO_USAGE;
            p1.sentFinish && out == [MessageFinish(Restop(reason), Some(u))]
  {
    StopNames(reason);
    StopNames(MapStopReason(reason));
    if usage.Some? {
      CountsSurvive(usage.value);
    }
    hide MapStop, MapStopReason, InputTokens, Positive;
  }

  lemma StopAfterFinish(p: Par)
    requires p.sentFinish
    ensures FeedFrame(p, MsgStop) == (p, [])
  {
  }

  lemma ClosingFrames(p: Par, e: Enc, reason: string, usage: Option<Usage>)
    requires p.pending == RawUsage(0, 0, 0, 0) && !p.sentFinish && e.inputTokens == 0
    requires usage.Some? ==> LegalUsage(usage.value)
    ensures var (p1, out) := Run(FeedFrame, p, [FinishDelta(e, reason, usage), MsgStop]);
            var u := if usage.Some? then usage.value.(credit := 0.0) else NO_USAGE;
            p1.sentFinish && out == [MessageFinish(Restop(reason), Some(u))]
  {
    ClosingDelta(p, e, reason, usage);
    hide FinishDelta, Restop;
    var delta := FinishDelta(e, reason, usage);
    var p1, out := FeedFrame(p, delta).0, FeedFrame(p, delta).1;
    StopAfterFinish(p1);
    hide FeedFrame;
    RunTwo(FeedFrame, p, delta, MsgStop);
    assert out + [] == out;
  }

  lemma FinishLink(e: Enc, p: Par, reason: string, usage: Option<Usage>)
    requires p.pending == RawUsage(0, 0, 0, 0) && !p.sentFinish && e.inputTokens == 0
    requires usage.Some? ==> LegalUsage(usage.value)
    ensures var (p1, out) := Run(FeedFrame, p, Encode(e, MessageFinish(reason, usage)).1);
            var u := if usage.Some? then usage.value.(credit := 0.0) else NO_USAGE;
            p1.sentFinish && out == [MessageFinish(Restop(reason), Some(u))]
  {
    var stops := StopIfOpen(e.think) + StopIfOpen(e.text) + Stops(SortedBlocks(e));
    var tail := [FinishDelta(e, reason, usage), MsgStop];
    Silent(p, stops, 0);
    hide FinishDelta, Stops, StopIfOpen, SortedBlocks, Run, FeedFrame;
    var p0 := Run(FeedFrame, p, stops).0;
    RunConcat(FeedFrame, p, stops, tail);
    ClosingFrames(p0, e, reason, usage);
    var out := Run(FeedFrame, p0, tail).1;
    assert [] + out == out;
  }

  lemma StartLinked(s: Session, model: string, spare: string, spare2: string)
    requires s.Legal() && spare != ""
    ensures var e0 := NewEnc(model, spare).(model := s.model);
            && Linked(e0, NEW_PARSER, NewAgg(model, spare).(model := s.model), NewAgg(model, spare2).(model := s.model))
            && Named(e0, s.deltas)
  {
  }

  lemma AnswersOf(e: Enc, p: Par, a: Agg, b: Agg)
    requires Linked(e, p, a, b)
    ensures AnswerLinked(a, b)
    ensures p.pending == RawUsage(0, 0, 0, 0) && !p.sentFinish && e.inputTokens == 0
  {
  }

  /** What the parser makes of the frames of a run is a run again, whose deltas fold to a linked answer. */
  lemma ParsedRun(s: Session, model: string, spare: string, spare2: string) returns (back: Session)
    requires s.Legal() && spare != ""
    ensures var (p, out) := Run(FeedFrame, NEW_PARSER, Run(Encode, NewEnc(model, spare), s.Events()).1);
            out + EndOfStream(p) == back.Events()
    ensures back.model == s.model && back.reason == Restop(s.reason)
    ensures back.usage == Some(if s.usage.Some? then s.usage.value.(credit := 0.0) else NO_USAGE)
    ensures AnswerLinked(AbsorbAll(NewAgg(model, spare).(model := s.model), s.deltas),
                         AbsorbAll(NewAgg(model, spare2).(model := s.model), back.deltas))
  {
    hide Encode, Restop, Linked, Named, AnswerLinked, NewEnc, AbsorbAll;
    var e0, e1, mid := EncodeSession(s, model, spare);
    var fin := MessageFinish(s.reason, s.usage);
    var first := MsgStart(s.model, 0, 0, 0);
    var last := Encode(e1, fin).1;
    RunConcat(FeedFrame, NEW_PARSER, [first], mid + last);
    RunOne(FeedFrame, NEW_PARSER, first);
    RunConcat(FeedFrame, NEW_PARSER, mid, last);
    var p1, out1 := Run(FeedFrame, NEW_PARSER, mid).0, Run(FeedFrame, NEW_PARSER, mid).1;
    var a0, b0 := NewAgg(model, spare).(model := s.model), NewAgg(model, spare2).(model := s.model);
    StartLinked(s, model, spare, spare2);
    DeltaLinks(e0, NEW_PARSER, a0, b0, s.deltas);
    AnswersOf(e1, p1, AbsorbAll(a0, s.deltas), AbsorbAll(b0, out1));
    FinishLink(e1, p1, s.reason, s.usage);
    hide Run, FeedFrame;
    var p2, out2 := Run(FeedFrame, p1, last).0, Run(FeedFrame, p1, last).1;
    back := Session(s.model, out1, out2[0].reason, out2[0].usage);
    assert [MessageStart(s.model)] + (out1 + out2) + EndOfStream(p2) == back.Events();
  }

  /** Encoding a run and parsing the frames keeps the model, the text, every call that got
      arguments with its name and full arguments, the stop reason as far as Anthropic can
      express it, and all four token counts. */
  lemma RoundTrip(s: Session, model: string, spare: string, spare2: string)
    requires s.Legal() && spare != ""
    ensures var (p, out) := Run(FeedFrame, NEW_PARSER, Run(Encode, NewEnc(model, spare), s.Events()).1);
            var direct := AbsorbAll(NewAgg(model, spare), s.Events());
            var parsed := AbsorbAll(NewAgg(model, spare2), out + EndOfStream(p));
            && parsed.model == direct.model && parsed.text == direct.text && parsed.reasoning == ""
            && parsed.tools == WithArguments(direct.tools)
            && parsed.finish == Restop(direct.finish)
            && parsed.usage == direct.usage.(credit := 0.0)
  {
    hide Run, AbsorbAll, WithArguments, Restop, WellNamed;
    var back := ParsedRun(s, model, spare, spare2);
    AbsorbSession(NewAgg(model, spare), s);
    AbsorbSession(NewAgg(model, spare2), back);
  }

  /** No call is lost exactly when every call received some arguments. */
  lemma NoCallLost(tools: map<string, Tool>)
    ensures WithArguments(tools) == tools <==> forall id <- tools :: tools[id].input != ""
  {
    var kept := WithArguments(tools);
    if forall id <- tools :: tools[id].input != "" {
      assert kept.Keys == tools.Keys;
    } else {
      var id :| id in tools && tools[id].input == "";
      assert id !in kept;
    }
  }
}
