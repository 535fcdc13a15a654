/** What a run folds to, read off its deltas alone. */
module AggregateAnswer {
  import opened Text
  import opened Envelope
  import opened Aggregate

  /** The content texts, or the reasoning texts, joined. */
  function Said(deltas: seq<Event>, reasoning: bool): string {
    if deltas == [] then ""
    else
      (if deltas[0].ContentDelta? && deltas[0].reasoning == reasoning then deltas[0].text else "") + Said(deltas[1..], reasoning)
  }

  /** The arguments of the deltas that belong to a call, joined. */
  function ArgsOf(t: Tracker, deltas: seq<Event>, id: string): string
    decreases |deltas|
  {
    if deltas == [] then ""
    else if !deltas[0].ToolCallDelta? then ArgsOf(t, deltas[1..], id)
    else
      var t1 := t.Resolve(deltas[0].id, deltas[0].name);
      (if t1.lastId == id then deltas[0].args else "") + ArgsOf(t1, deltas[1..], id)
  }

  /** The calls that are not known yet, with the name in force at their first delta. */
  function NewCalls(t: Tracker, deltas: seq<Event>, known: seq<string>): seq<(string, string)>
    decreases |deltas|
  {
    if deltas == [] then []
    else if !deltas[0].ToolCallDelta? then NewCalls(t, deltas[1..], known)
    else
      var t1 := t.Resolve(deltas[0].id, deltas[0].name);
      if t1.lastId in known then NewCalls(t1, deltas[1..], known)
      else [(t1.lastId, t1.lastName)] + NewCalls(t1, deltas[1..], known + [t1.lastId])
  }

  lemma {:induction false} FoldSays(a: Agg, deltas: seq<Event>)
    requires OnlyDeltas(deltas)
    ensures var f := AbsorbAll(a, deltas);
            && f.text == a.text + Said(deltas, false) && f.reasoning == a.reasoning + Said(deltas, true)
            && f.model == a.model && f.finish == a.finish && f.usage == a.usage
    decreases |deltas|
  {
    if deltas == [] {
      assert a.text + "" == a.text && a.reasoning + "" == a.reasoning;
    } else {
      var ev := deltas[0];
      assert IsDelta(ev);
      FoldSays(Absorb(a, ev), deltas[1..]);
      SaysFirst(a, ev);
      Regroup(a.text, if ev.ContentDelta? && !ev.reasoning then ev.text else "", Said(deltas[1..], false));
      Regroup(a.reasoning, if ev.ContentDelta? && ev.reasoning then ev.text else "", Said(deltas[1..], true));
    }
  }

  lemma SaysFirst(a: Agg, ev: Event)
    requires IsDelta(ev)
    ensures var f := Absorb(a, ev);
            && f.text == a.text + (if ev.ContentDelta? && !ev.reasoning then ev.text else "")
            && f.reasoning == a.reasoning + (if ev.ContentDelta? && ev.reasoning then ev.text else "")
            && f.model == a.model && f.finish == a.finish && f.usage == a.usage
  {
    assert a.text + "" == a.text && a.reasoning + "" == a.reasoning;
  }

  function InputOf(a: Agg, id: string): string {
    if id in a.tools then a.tools[id].input else ""
  }

  lemma {:induction false} FoldGathersArgs(a: Agg, deltas: seq<Event>, id: string)
    requires OnlyDeltas(deltas)
    ensures InputOf(AbsorbAll(a, deltas), id) == InputOf(a, id) + ArgsOf(a.track, deltas, id)
    decreases |deltas|
  {
    if deltas == [] {
      assert InputOf(a, id) + "" == InputOf(a, id);
    } else {
      var ev := deltas[0];
      assert IsDelta(ev);
      FoldGathersArgs(Absorb(a, ev), deltas[1..], id);
      if ev.ToolCallDelta? {
        var t1 := a.track.Resolve(ev.id, ev.name);
        var now := if t1.lastId == id then ev.args else "";
        ArgsFirst(a, ev, id);
        Regroup(InputOf(a, id), now, ArgsOf(t1, deltas[1..], id));
      }
    }
  }

  lemma ArgsFirst(a: Agg, ev: Event, id: string)
    requires ev.ToolCallDelta?
    ensures var t1 := a.track.Resolve(ev.id, ev.name);
            InputOf(Absorb(a, ev), id) == InputOf(a, id) + if t1.lastId == id then ev.args else ""
  {
    assert InputOf(a, id) + "" == InputOf(a, id);
    assert "" + ev.args == ev.args;
  }

  function NamedIn(a: Agg): seq<(string, string)>
    requires forall id <- a.order :: id in a.tools
  {
    seq(|a.order|, i requires 0 <= i < |a.order| => (a.order[i], a.tools[a.order[i]].name))
  }

  lemma {:induction false} FoldListsCalls(a: Agg, deltas: seq<Event>)
    requires OnlyDeltas(deltas) && a.Valid()
    ensures var f := AbsorbAll(a, deltas);
            f.Valid() && NamedIn(f) == NamedIn(a) + NewCalls(a.track, deltas, a.order)
    decreases |deltas|
  {
    hide Absorb, NamedIn;
    if deltas == [] {
      assert NamedIn(a) + [] == NamedIn(a);
    } else {
      var ev := deltas[0];
      assert IsDelta(ev);
      AbsorbKeepsValid(a, ev);
      FoldListsCalls(Absorb(a, ev), deltas[1..]);
      if ev.ToolCallDelta? {
        ListsFirst(a, ev);
        var t1 := a.track.Resolve(ev.id, ev.name);
        Regroup(NamedIn(a), [(t1.lastId, t1.lastName)], NewCalls(t1, deltas[1..], a.order + [t1.lastId]));
      } else {
        TextListsNone(a, ev);
      }
    }
  }

  lemma TextListsNone(a: Agg, ev: Event)
    requires ev.ContentDelta? && a.Valid()
    ensures var f := Absorb(a, ev); f.Valid() && f.track == a.track && f.order == a.order && NamedIn(f) == NamedIn(a)
  {
  }

  lemma ListsFirst(a: Agg, ev: Event)
    requires ev.ToolCallDelta? && a.Valid()
    ensures var f, t1 := Absorb(a, ev), a.track.Resolve(ev.id, ev.name);
            && f.Valid() && f.track == t1
            && (t1.lastId in a.order <==> t1.lastId in a.tools)
            && f.order == (if t1.lastId in a.order then a.order else a.order + [t1.lastId])
            && NamedIn(f) == (if t1.lastId in a.order then NamedIn(a) else NamedIn(a) + [(t1.lastId, t1.lastName)])
  {
    AbsorbKeepsValid(a, ev);
  }

  /** Every run folds to its content joined, its reasoning joined, its calls in order of first appearance,
      each under the name in force then and with its arguments joined, and the model, reason and counts it
      names itself. */
  lemma AnswerOfRun(s: Session, model: string, spare: string)
    requires OnlyDeltas(s.deltas)
    ensures var a := AbsorbAll(NewAgg(model, spare), s.Events());
            && a.model == s.model && a.finish == s.reason && a.usage == (if s.usage.Some? then s.usage.value else NO_USAGE)
            && a.text == Said(s.deltas, false) && a.reasoning == Said(s.deltas, true)
            && a.Valid() && NamedIn(a) == NewCalls(NewTracker(spare), s.deltas, [])
            && forall id <- a.tools :: a.tools[id].input == ArgsOf(NewTracker(spare), s.deltas, id)
  {
    AbsorbSession(NewAgg(model, spare), s);
    var a0 := NewAgg(model, spare).(model := s.model);
    FoldSays(a0, s.deltas);
    FoldListsCalls(a0, s.deltas);
    hide AbsorbAll, Said, NewCalls, ArgsOf;
    var f := AbsorbAll(a0, s.deltas);
    var a := Absorb(f, MessageFinish(s.reason, s.usage));
    assert "" + Said(s.deltas, false) == Said(s.deltas, false) && "" + Said(s.deltas, true) == Said(s.deltas, true);
    assert NamedIn(a0) == [] && [] + NewCalls(NewTracker(spare), s.deltas, []) == NewCalls(NewTracker(spare), s.deltas, []);
    assert NamedIn(a) == NamedIn(f);
    forall id <- a.tools ensures a.tools[id].input == ArgsOf(NewTracker(spare), s.deltas, id) {
      FoldGathersArgs(a0, s.deltas, id);
      assert "" + ArgsOf(NewTracker(spare), s.deltas, id) == ArgsOf(NewTracker(spare), s.deltas, id);
    }
  }
}
