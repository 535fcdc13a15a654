/** What a client that gathers the encoder's chunks gets: the answer of the run. */
module OpenAIClient {
  import opened Text
  import opened Envelope
  import opened Machines
  import opened Aggregate
  import opened OpenAI

  // ---------- The client ----------

  /** Calls are kept by index. */
  datatype Client = Client(content: string, reasoning: string, calls: seq<Tool>, finish: string, usage: Option<WireUsage>)

  const NEW_CLIENT := Client("", "", [], "", None)

  /** A fragment with the next index starts a call, one with an earlier index goes on with that call. */
  function GatherPiece(calls: seq<Tool>, tc: ToolPiece): seq<Tool> {
    if tc.index == |calls| then calls + [Tool(tc.id, tc.name, tc.args)]
    else if 0 <= tc.index < |calls| then calls[tc.index := calls[tc.index].(input := calls[tc.index].input + tc.args)]
    else calls
  }

  function GatherPieces(calls: seq<Tool>, tcs: seq<ToolPiece>): seq<Tool>
    decreases |tcs|
  {
    if tcs == [] then calls else GatherPieces(GatherPiece(calls, tcs[0]), tcs[1..])
  }

  function GatherChoice(c: Client, ch: Choice): Client {
    Client(c.content + ch.content, c.reasoning + ch.reasoningContent, GatherPieces(c.calls, ch.toolCalls),
           if ch.finish != "" then ch.finish else c.finish, c.usage)
  }

  function GatherChoices(c: Client, cs: seq<Choice>): Client
    decreases |cs|
  {
    if cs == [] then c else GatherChoices(GatherChoice(c, cs[0]), cs[1..])
  }

  function Gather(c: Client, chunk: Chunk): Client {
    var c1 := GatherChoices(c, chunk.choices);
    if chunk.usage.Some? then c1.(usage := chunk.usage) else c1
  }

  function GatherAll(c: Client, chunks: seq<Chunk>): Client
    decreases |chunks|
  {
    if chunks == [] then c else GatherAll(Gather(c, chunks[0]), chunks[1..])
  }

  lemma {:induction false} GatherConcat(c: Client, a: seq<Chunk>, b: seq<Chunk>)
    ensures GatherAll(c, a + b) == GatherAll(GatherAll(c, a), b)
    decreases |a|
  {
    if a == [] {
      assert a + b == b;
    } else {
      GatherConcat(Gather(c, a[0]), a[1..], b);
      assert (a + b)[1..] == a[1..] + b;
    }
  }

  lemma GatherOne(c: Client, chunk: Chunk)
    ensures GatherAll(c, [chunk]) == Gather(c, chunk)
  {
    assert GatherAll(Gather(c, chunk), [chunk][1..]) == Gather(c, chunk);
  }

  lemma GatherChoiceOnly(c: Client, model: string, ch: Choice)
    ensures GatherAll(c, [Chunk(model, [ch], None)]) == GatherChoice(c, ch)
  {
    GatherOne(c, Chunk(model, [ch], None));
    assert GatherChoices(GatherChoice(c, ch), [ch][1..]) == GatherChoice(c, ch);
  }

  lemma TextChoice(c: Client, text: string)
    ensures GatherChoice(c, EMPTY_CHOICE.(content := text)) == c.(content := c.content + text)
    ensures GatherChoice(c, EMPTY_CHOICE.(reasoningContent := text)) == c.(reasoning := c.reasoning + text)
  {
    assert c.content + "" == c.content && c.reasoning + "" == c.reasoning;
  }

  lemma PieceChoice(c: Client, tc: ToolPiece)
    ensures GatherChoice(c, EMPTY_CHOICE.(toolCalls := [tc])) == c.(calls := GatherPiece(c.calls, tc))
  {
    assert c.content + "" == c.content && c.reasoning + "" == c.reasoning;
    assert GatherPieces(GatherPiece(c.calls, tc), [tc][1..]) == GatherPiece(c.calls, tc);
  }

  // ---------- Encoder, client and fold ----------

  /** The client's calls are those of the fold, in its order, and the encoder knows their places. */
  ghost predicate Gathered(s: Enc, c: Client, a: Agg) {
    && c.content == a.text && c.reasoning == a.reasoning && c.finish == "" && c.usage == None
    && s.tools == a.track && s.nextIdx == |c.calls| == |a.order|
    && (forall i | 0 <= i < |a.order| :: a.order[i] in a.tools && c.calls[i] == a.tools[a.order[i]])
    && (forall id :: id in s.toolIdx <==> id in a.tools)
    && (forall id <- s.toolIdx :: 0 <= s.toolIdx[id] < |a.order| && a.order[s.toolIdx[id]] == id)
    && (forall i | 0 <= i < |a.order| :: s.toolIdx[a.order[i]] == i)
  }

  lemma ToolStep(s: Enc, c: Client, a: Agg, ev: Event)
    requires Gathered(s, c, a) && ev.ToolCallDelta?
    ensures var (s1, out) := Encode(s, ev); Gathered(s1, GatherAll(c, out), Absorb(a, ev))
  {
    var t := s.tools.Resolve(ev.id, ev.name);
    var known := t.lastId in s.toolIdx;
    var piece := if known then ToolPiece(s.toolIdx[t.lastId], "", "", ev.args) else ToolPiece(s.nextIdx, t.lastId, t.lastName, ev.args);
    GatherChoiceOnly(c, s.model, EMPTY_CHOICE.(toolCalls := [piece]));
    PieceChoice(c, piece);
    hide GatherAll, GatherChoice;
  }

  lemma DeltaGathered(s: Enc, c: Client, a: Agg, ev: Event)
    requires Gathered(s, c, a) && IsDelta(ev)
    ensures var (s1, out) := Encode(s, ev);
            Gathered(s1, GatherAll(c, out), Absorb(a, ev)) && s1.model == s.model && forall chunk <- out :: chunk.model == s.model
  {
    if ev.ToolCallDelta? {
      ToolStep(s, c, a, ev);
      hide Gathered;
    } else {
      hide GatherAll, GatherChoice;
      TextChoice(c, ev.text);
      GatherChoiceOnly(c, s.model, if ev.reasoning then EMPTY_CHOICE.(reasoningContent := ev.text) else EMPTY_CHOICE.(content := ev.text));
    }
  }

  lemma {:induction false} DeltasGathered(s: Enc, c: Client, a: Agg, deltas: seq<Event>)
    requires Gathered(s, c, a) && OnlyDeltas(deltas)
    ensures var (s1, out) := Run(Encode, s, deltas);
            && Gathered(s1, GatherAll(c, out), AbsorbAll(a, deltas))
            && s1.model == s.model && forall chunk <- out :: chunk.model == s.model
    decreases |deltas|
  {
    hide Encode, Absorb, Gathered, Gather;
    if deltas != [] {
      var ev := deltas[0];
      assert IsDelta(ev);
      DeltaGathered(s, c, a, ev);
      var (s1, out) := Encode(s, ev);
      DeltasGathered(s1, GatherAll(c, out), Absorb(a, ev), deltas[1..]);
      GatherConcat(c, out, Run(Encode, s1, deltas[1..]).1);
    }
  }

  lemma FinishGathered(s: Enc, c: Client, reason: string, usage: Option<Usage>)
    requires c.usage == None
    ensures var out := Encode(s, MessageFinish(reason, usage)).1;
            && GatherAll(c, out) == c.(finish := if reason != "" then reason else c.finish,
                                       usage := if usage.Some? then Some(UsagePayload(usage.value)) else None)
            && forall chunk <- out :: chunk.model == s.model
  {
    hide UsagePayload;
    var ch := EMPTY_CHOICE.(finish := reason);
    GatherChoiceOnly(c, s.model, ch);
    assert c.content + "" == c.content && c.reasoning + "" == c.reasoning;
    var first := [Chunk(s.model, [ch], None)];
    if usage.Some? {
      var counts := Chunk(s.model, [], Some(UsagePayload(usage.value)));
      GatherConcat(c, first, [counts]);
      GatherOne(GatherAll(c, first), counts);
    } else {
      assert first + [] == first;
    }
  }

  // ---------- The whole answer ----------

  /** The counts a client reads: the cached tokens are part of the prompt's. */
  predicate CountsOf(w: WireUsage, u: Usage) {
    && w.prompt == u.input && w.completion == u.output
    && (w.promptDetails.Some? <==> u.cached > 0 || u.write > 0)
    && (w.promptDetails.Some? ==> w.promptDetails.value.cached == u.cached)
    && (u.write > 0 ==> w.promptDetails.value.cacheWrite == u.write)
  }

  /** For every run a client gets its reasoning, its text and its calls, each with its id, its name and all
      its arguments, at the index at which it first appeared; its reason and its counts; and every chunk
      carries the model that the run named. */
  lemma ClientGetsAnswer(s: Session, model: string, spare: string)
    requires OnlyDeltas(s.deltas)
    ensures var chunks := Run(Encode, NewEnc(spare), s.Events()).1;
            var c := GatherAll(NEW_CLIENT, chunks);
            var a := AbsorbAll(NewAgg(model, spare), s.Events());
            && (forall chunk <- chunks :: chunk.model == s.model)
            && c.content == a.text && c.reasoning == a.reasoning
            && |c.calls| == |a.order|
            && (forall i | 0 <= i < |a.order| :: a.order[i] in a.tools && c.calls[i] == a.tools[a.order[i]])
            && c.finish == s.reason
            && c.usage.Some? == s.usage.Some? && (s.usage.Some? ==> CountsOf(c.usage.value, s.usage.value))
  {
    hide Encode, AbsorbAll, GatherAll, Gather, Gathered;
    var e0, fin := NewEnc(spare).(model := s.model), MessageFinish(s.reason, s.usage);
    var a0 := NewAgg(model, spare).(model := s.model);
    AbsorbSession(NewAgg(model, spare), s);
    Begins(s.model, model, spare);
    DeltasGathered(e0, NEW_CLIENT, a0, s.deltas);
    var (e, mid) := Run(Encode, e0, s.deltas);
    var last := Encode(e, fin).1;
    RunConcat(Encode, e0, s.deltas, [fin]);
    RunOne(Encode, e, fin);
    assert s.Events()[0] == MessageStart(s.model) && s.Events()[1..] == s.deltas + [fin];
    assert Run(Encode, NewEnc(spare), s.Events()).1 == [] + (mid + last) == mid + last;
    GatherConcat(NEW_CLIENT, mid, last);
    var c1 := GatherAll(NEW_CLIENT, mid);
    GatheredAnswer(e, c1, AbsorbAll(a0, s.deltas));
    FinishGathered(e, c1, s.reason, s.usage);
  }

  lemma Begins(name: string, model: string, spare: string)
    ensures Encode(NewEnc(spare), MessageStart(name)) == (NewEnc(spare).(model := name), [])
    ensures Gathered(NewEnc(spare).(model := name), NEW_CLIENT, NewAgg(model, spare).(model := name))
  {
  }

  lemma GatheredAnswer(s: Enc, c: Client, a: Agg)
    requires Gathered(s, c, a)
    ensures c.content == a.text && c.reasoning == a.reasoning && c.finish == "" && c.usage == None && |c.calls| == |a.order|
    ensures forall i | 0 <= i < |a.order| :: a.order[i] in a.tools && c.calls[i] == a.tools[a.order[i]]
  {
  }
}
