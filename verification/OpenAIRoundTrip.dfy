/** Parsing what the OpenAI encoder prints gives the same run back. */
module OpenAIRoundTrip {
  import opened Text
  import opened Envelope
  import opened Machines
  import opened Aggregate
  import opened OpenAI

  /** The run as a client should see it: empty text dropped, and every tool delta carrying
      the id it belongs to and the name that call was opened under. */
  function Refill(t: Tracker, names: map<string, string>, deltas: seq<Event>): seq<Event>
    decreases |deltas|
  {
    if deltas == [] then []
    else
      var (t1, names1, evs) := RefillOne(t, names, deltas[0]);
      evs + Refill(t1, names1, deltas[1..])
  }

  function RefillOne(t: Tracker, names: map<string, string>, ev: Event): (Tracker, map<string, string>, seq<Event>) {
    match ev
    case ToolCallDelta(id, name, args) =>
      var t1 := t.Resolve(id, name);
      var names1 := if t1.lastId in names then names else names[t1.lastId := t1.lastName];
      (t1, names1, [ToolCallDelta(t1.lastId, names1[t1.lastId], args)])
    case ContentDelta(text, reasoning) => (t, names, if text == "" then [] else [ev])
    case _ => (t, names, [])
  }

  /** Encoder and parser agree on which index stands for which call. */
  ghost predicate Linked(e: Enc, p: Par, names: map<string, string>) {
    && e.tools.spare != ""
    && e.toolIdx.Keys == names.Keys
    && "" !in names
    && e.nextIdx >= 0
    && (forall id <- names :: 0 <= e.toolIdx[id] < e.nextIdx)
    && (forall id, id2 | id in names && id2 in names && id != id2 :: e.toolIdx[id] != e.toolIdx[id2])
    && (forall id <- names :: Lookup(p.toolIDs, e.toolIdx[id]) == id && Lookup(p.toolNames, e.toolIdx[id]) == names[id])
    && (forall i | i >= e.nextIdx :: i !in p.toolNames)
    && p.pendingStop == "" && !p.sentFinish
  }

  lemma OneChoice(p: Par, model: string, c: Choice)
    ensures Run(FeedChunk, p, [Chunk(model, [c], None)]) == FeedChoice(p, c, None)
  {
    var (p1, evs) := FeedChoice(p, c, None);
    assert FeedChoices(p1, [c][1..], None) == (p1, []);
    assert evs + [] == evs;
    assert FeedChoices(p, [c], None) == (p1, evs);
    RunOne(FeedChunk, p, Chunk(model, [c], None));
  }

  lemma OnePiece(p: Par, tc: ToolPiece)
    ensures var (p1, ev) := FeedPiece(p, tc);
            FeedChoice(p, EMPTY_CHOICE.(toolCalls := [tc]), None) == (p1, [ev])
  {
    var (p1, ev) := FeedPiece(p, tc);
    assert FeedPieces(p1, [tc][1..]) == (p1, []);
    assert [ev] + [] == [ev] && [] + [ev] == [ev];
    assert FeedPieces(p, [tc]) == (p1, [ev]);
    assert TextEvents(EMPTY_CHOICE.(toolCalls := [tc])) == [];
  }

  lemma StepText(e: Enc, p: Par, names: map<string, string>, ev: Event)
    requires ev.ContentDelta?
    ensures var (e1, chunks) := Encode(e, ev);
            var (t1, names1, evs) := RefillOne(e.tools, names, ev);
            e1 == e && t1 == e.tools && names1 == names && Run(FeedChunk, p, chunks) == (p, evs)
  {
    var c := if ev.reasoning then EMPTY_CHOICE.(reasoningContent := ev.text) else EMPTY_CHOICE.(content := ev.text);
    OneChoice(p, e.model, c);
    var evs := RefillOne(e.tools, names, ev).2;
    assert FeedPieces(p, c.toolCalls) == (p, []);
    assert TextEvents(c) == evs && evs + [] == evs;
  }

  function PieceOf(e: Enc, t: Tracker, args: string): ToolPiece {
    if t.lastId in e.toolIdx then ToolPiece(e.toolIdx[t.lastId], "", "", args)
    else ToolPiece(e.nextIdx, t.lastId, t.lastName, args)
  }

  lemma EncodeTool(e: Enc, id: string, name: string, args: string)
    ensures var t := e.tools.Resolve(id, name);
            var (e1, chunks) := Encode(e, ToolCallDelta(id, name, args));
            chunks == [Chunk(e.model, [EMPTY_CHOICE.(toolCalls := [PieceOf(e, t, args)])], None)]
            && e1.tools == t
            && e1 == (if t.lastId in e.toolIdx then e.(tools := t)
                      else Enc(e.model, e.toolIdx[t.lastId := e.nextIdx], e.nextIdx + 1, t))
  {
  }

  /** A further fragment of a known call travels without id and name; the parser adds them. */
  lemma KnownPiece(e: Enc, p: Par, names: map<string, string>, t: Tracker, args: string)
    requires Linked(e, p, names) && t.lastId in names && t.spare != ""
    ensures FeedPiece(p, PieceOf(e, t, args)) == (p, ToolCallDelta(t.lastId, names[t.lastId], args))
    ensures Linked(e.(tools := t), p, names)
  {
    assert t.lastId in e.toolIdx.Keys;
  }

  lemma NewPiece(e: Enc, p: Par, names: map<string, string>, t: Tracker, args: string)
    requires Linked(e, p, names) && t.lastId !in names && t.spare != "" && t.lastId != ""
    ensures var (p1, ev) := FeedPiece(p, PieceOf(e, t, args));
            && ev == ToolCallDelta(t.lastId, t.lastName, args)
            && Linked(Enc(e.model, e.toolIdx[t.lastId := e.nextIdx], e.nextIdx + 1, t), p1, names[t.lastId := t.lastName])
  {
    assert t.lastId !in e.toolIdx.Keys;
    var p1 := FeedPiece(p, PieceOf(e, t, args)).0;
    forall id | id in names
      ensures Lookup(p1.toolIDs, e.toolIdx[id]) == id && Lookup(p1.toolNames, e.toolIdx[id]) == names[id]
    {
      assert e.toolIdx[id] != e.nextIdx;
    }
  }

  lemma StepTool(e: Enc, p: Par, names: map<string, string>, ev: Event)
    requires Linked(e, p, names) && ev.ToolCallDelta?
    ensures var (e1, chunks) := Encode(e, ev);
            var (t1, names1, evs) := RefillOne(e.tools, names, ev);
            var (p1, out) := Run(FeedChunk, p, chunks);
            t1 == e1.tools && Linked(e1, p1, names1) && out == evs
  {
    EncodeTool(e, ev.id, ev.name, ev.args);
    var t := e.tools.Resolve(ev.id, ev.name);
    var piece := PieceOf(e, t, ev.args);
    OneChoice(p, e.model, EMPTY_CHOICE.(toolCalls := [piece]));
    OnePiece(p, piece);
    assert t.lastId in e.toolIdx <==> t.lastId in names;
    if t.lastId in names {
      KnownPiece(e, p, names, t, ev.args);
    } else {
      NewPiece(e, p, names, t, ev.args);
    }
  }

  lemma {:induction false} RunDeltas(e: Enc, p: Par, names: map<string, string>, deltas: seq<Event>)
    requires Linked(e, p, names) && OnlyDeltas(deltas)
    ensures var (e1, chunks) := Run(Encode, e, deltas);
            var (p1, out) := Run(FeedChunk, p, chunks);
            out == Refill(e.tools, names, deltas) && p1.pendingStop == "" && !p1.sentFinish
    decreases |deltas|
  {
    if deltas != [] {
      var ev := deltas[0];
      if ev.ContentDelta? { StepText(e, p, names, ev); } else { StepTool(e, p, names, ev); }
      var (e1, c1) := Encode(e, ev);
      var (t1, names1, evs) := RefillOne(e.tools, names, ev);
      var (p1, o1) := Run(FeedChunk, p, c1);
      RunDeltas(e1, p1, names1, deltas[1..]);
      RunConcat(FeedChunk, p, c1, Run(Encode, e1, deltas[1..]).1);
    }
  }

  function WithoutCredit(u: Option<Usage>): Option<Usage> {
    if u.Some? then Some(u.value.(credit := 0.0)) else None
  }

  lemma UsageSurvives(u: Usage)
    requires LegalUsage(u)
    ensures UsageOf(UsagePayload(u)) == u.(credit := 0.0)
  {
    var w := UsagePayload(u);
    assert Largest([w.cacheWrite, w.cachedWrite, w.cacheCreate]) == 0;
    if w.promptDetails.Some? {
      var d := w.promptDetails.value;
      var cs := [w.cached, d.cached, d.cacheRead];
      var ws := [0, d.cacheWrite, d.cachedWrite, d.cacheCreate];
      assert cs[1] == d.cached && Largest(cs) == d.cached;
      assert ws[1] == d.cacheWrite && Largest(ws) == d.cacheWrite;
    }
  }

  lemma RunFinish(e: Enc, p: Par, reason: string, usage: Option<Usage>)
    requires p.pendingStop == "" && !p.sentFinish
    requires usage.Some? ==> LegalUsage(usage.value)
    ensures var chunks := Encode(e, MessageFinish(reason, usage)).1;
            var (p1, out) := Run(FeedChunk, p, chunks);
            out + EndOfStream(p1) == [MessageFinish(OrDefault(reason, "stop"), WithoutCredit(usage))]
  {
    var c := EMPTY_CHOICE.(finish := reason);
    var stop := Chunk(e.model, [c], None);
    var p1 := p.(pendingStop := reason);
    OneChoice(p, e.model, c);
    assert TextEvents(c) == [] && FeedPieces(p, []) == (p, []);
    assert Run(FeedChunk, p, [stop]) == (p1, []);
    var chunks := Encode(e, MessageFinish(reason, usage)).1;
    if usage.Some? {
      UsageSurvives(usage.value);
      var last := Chunk(e.model, [], Some(UsagePayload(usage.value)));
      RunOne(FeedChunk, p1, last);
      RunConcat(FeedChunk, p, [stop], [last]);
    } else {
      assert chunks == [stop];
    }
  }

  /** Every run comes back delta for delta, followed by exactly one finish with the same
      reason ("stop" if it had none) and the same token counts. */
  lemma RoundTrip(s: Session, spare: string)
    requires s.WellFormed() && spare != ""
    ensures var (e, chunks) := Run(Encode, NewEnc(spare), s.Events());
            var (p, out) := Run(FeedChunk, NEW_PARSER, chunks);
            out + EndOfStream(p) == Refill(NewTracker(spare), map[], s.deltas)
              + [MessageFinish(OrDefault(s.reason, "stop"), WithoutCredit(s.usage))]
  {
    hide Refill, RefillOne, WithoutCredit, OrDefault, FeedChunk;
    var e0 := NewEnc(spare).(model := s.model);
    var fin := MessageFinish(s.reason, s.usage);
    assert s.Events()[0] == MessageStart(s.model) && s.Events()[1..] == s.deltas + [fin];
    var (e1, c1) := Run(Encode, e0, s.deltas);
    var c2 := Encode(e1, fin).1;
    RunConcat(Encode, e0, s.deltas, [fin]);
    RunOne(Encode, e1, fin);
    assert [] + (c1 + c2) == c1 + c2;
    assert Run(Encode, NewEnc(spare), s.Events()).1 == c1 + c2;
    RunDeltas(e0, NEW_PARSER, map[], s.deltas);
    var (p1, o1) := Run(FeedChunk, NEW_PARSER, c1);
    RunConcat(FeedChunk, NEW_PARSER, c1, c2);
    RunFinish(e1, p1, s.reason, s.usage);
    var (p2, o2) := Run(FeedChunk, p1, c2);
    assert (o1 + o2) + EndOfStream(p2) == o1 + (o2 + EndOfStream(p2));
  }

  /** a has folded the original deltas, b the refilled ones. */
  ghost predicate Alike(a: Agg, b: Agg, names: map<string, string>) {
    && SameAnswer(a, b)
    && a.tools.Keys == names.Keys
    && (forall id <- names :: a.tools[id].name == names[id])
    && (a.track.lastName == "" ==> b.track.lastName == "" && forall id <- names :: names[id] == "")
    && a.track.spare != ""
  }

  lemma RefillStep(a: Agg, b: Agg, names: map<string, string>, ev: Event)
    requires Alike(a, b, names) && IsDelta(ev)
    ensures var (t1, names1, evs) := RefillOne(a.track, names, ev);
            var a1, b1 := Absorb(a, ev), AbsorbAll(b, evs);
            Alike(a1, b1, names1) && a1.track == t1 && a1.usage == a.usage && b1.usage == b.usage
  {
    var evs := RefillOne(a.track, names, ev).2;
    if evs == [] {
      assert a.text + "" == a.text && a.reasoning + "" == a.reasoning;
    } else {
      AbsorbOne(b, evs[0]);
    }
  }

  lemma {:induction false} RefillFoldsAlike(a: Agg, b: Agg, names: map<string, string>, deltas: seq<Event>)
    requires Alike(a, b, names) && OnlyDeltas(deltas)
    ensures SameAnswer(AbsorbAll(a, deltas), AbsorbAll(b, Refill(a.track, names, deltas)))
    ensures AbsorbAll(a, deltas).usage == a.usage
    ensures AbsorbAll(b, Refill(a.track, names, deltas)).usage == b.usage
    decreases |deltas|
  {
    if deltas != [] {
      RefillStep(a, b, names, deltas[0]);
      hide RefillOne, Absorb, Alike;
      var (t1, names1, evs) := RefillOne(a.track, names, deltas[0]);
      RefillFoldsAlike(Absorb(a, deltas[0]), AbsorbAll(b, evs), names1, deltas[1..]);
      AbsorbAllConcat(b, evs, Refill(t1, names1, deltas[1..]));
    }
  }

  /** A non-streaming client behind the parser gets the answer that folding the run gives. */
  lemma RoundTripAnswer(s: Session, model: string, spare: string, spare2: string)
    requires s.WellFormed() && spare != ""
    ensures var (p, out) := Run(FeedChunk, NEW_PARSER, Run(Encode, NewEnc(spare), s.Events()).1);
            var direct := AbsorbAll(NewAgg(model, spare), s.Events());
            var parsed := AbsorbAll(NewAgg(model, spare2), out + EndOfStream(p));
            && SameAnswer(direct, parsed)
            && parsed.finish == OrDefault(direct.finish, "stop")
            && parsed.usage == direct.usage.(credit := 0.0)
  {
    RoundTrip(s, spare);
    var a := NewAgg(model, spare).(model := s.model);
    var b := NewAgg(model, spare2);
    AbsorbSession(NewAgg(model, spare), s);
    var filled := Refill(NewTracker(spare), map[], s.deltas);
    var fin' := MessageFinish(OrDefault(s.reason, "stop"), WithoutCredit(s.usage));
    AbsorbAllConcat(b, filled, [fin']);
    AbsorbOne(AbsorbAll(b, filled), fin');
    RefillFoldsAlike(a, b, map[], s.deltas);
  }
}
