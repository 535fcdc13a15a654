/** The fold of an event stream into one answer, shared by the three non-streaming outputs. */
module Aggregate {
  import opened Envelope

  datatype Tool = Tool(id: string, name: string, input: string)

  datatype Agg = Agg(model: string, text: string, reasoning: string,
                     tools: map<string, Tool>, order: seq<string>,
                     track: Tracker, usage: Usage, finish: string)
  {
    /** order lists every known call exactly once. */
    ghost predicate Valid() {
      && (forall k <- tools :: tools[k].id == k)
      && (forall k :: k in tools <==> k in order)
      && (forall i, j | 0 <= i < j < |order| :: order[i] != order[j])
    }
  }

  function NewAgg(model: string, spare: string): Agg {
    Agg(model, "", "", map[], [], NewTracker(spare), NO_USAGE, "")
  }

  function Absorb(a: Agg, ev: Event): Agg {
    match ev
    case MessageStart(model) => a.(model := model)
    case ContentDelta(text, reasoning) =>
      if reasoning then a.(reasoning := a.reasoning + text) else a.(text := a.text + text)
    case ToolCallDelta(id, name, args) =>
      var t := a.track.Resolve(id, name);
      AddArgs(a.(track := t), t.lastId, t.lastName, args)
    case MessageFinish(reason, usage) =>
      a.(finish := reason, usage := if usage.Some? then usage.value else a.usage)
    case TaskFailed(_, _) => a
  }

  /** Appends args to the call's input; a call seen for the first time is created under name. */
  function AddArgs(a: Agg, id: string, name: string, args: string): Agg {
    if id in a.tools then
      a.(tools := a.tools[id := a.tools[id].(input := a.tools[id].input + args)])
    else
      a.(tools := a.tools[id := Tool(id, name, args)], order := a.order + [id])
  }

  function AbsorbAll(a: Agg, evs: seq<Event>): Agg
    decreases |evs|
  {
    if evs == [] then a else AbsorbAll(Absorb(a, evs[0]), evs[1..])
  }

  lemma {:induction false} AbsorbAllConcat(a: Agg, x: seq<Event>, y: seq<Event>)
    ensures AbsorbAll(a, x + y) == AbsorbAll(AbsorbAll(a, x), y)
    decreases |x|
  {
    if x == [] {
      assert x + y == y;
    } else {
      AbsorbAllConcat(Absorb(a, x[0]), x[1..], y);
      assert (x + y)[1..] == x[1..] + y;
    }
  }

  lemma AbsorbOne(a: Agg, e: Event)
    ensures AbsorbAll(a, [e]) == Absorb(a, e)
  {
    assert AbsorbAll(Absorb(a, e), [e][1..]) == Absorb(a, e);
  }

  /** Folding a session is folding its deltas between the start and the finish. */
  lemma {:induction false} AbsorbSession(a: Agg, s: Session)
    ensures var mid := AbsorbAll(a.(model := s.model), s.deltas);
            AbsorbAll(a, s.Events()) == Absorb(mid, MessageFinish(s.reason, s.usage))
  {
    hide AbsorbAll;
    var start, fin := MessageStart(s.model), MessageFinish(s.reason, s.usage);
    AbsorbAllConcat(a, [start] + s.deltas, [fin]);
    AbsorbAllConcat(a, [start], s.deltas);
    AbsorbOne(a, start);
    AbsorbOne(AbsorbAll(a.(model := s.model), s.deltas), fin);
  }

  lemma AbsorbKeepsValid(a: Agg, ev: Event)
    requires a.Valid()
    ensures Absorb(a, ev).Valid()
  {
  }

  lemma {:induction false} AbsorbAllKeepsValid(a: Agg, evs: seq<Event>)
    requires a.Valid()
    ensures AbsorbAll(a, evs).Valid()
    decreases |evs|
  {
    if evs != [] {
      AbsorbKeepsValid(a, evs[0]);
      AbsorbAllKeepsValid(Absorb(a, evs[0]), evs[1..]);
    }
  }

  /** The same text, reasoning and tool calls, in the same order. */
  ghost predicate SameAnswer(a: Agg, b: Agg) {
    a.text == b.text && a.reasoning == b.reasoning && a.tools == b.tools && a.order == b.order
  }

  /** aggregateCore of gateway/aggregate.go. */
  class AggregateCore {
    var model: string
    var text: string
    var reasoning: string
    var tools: map<string, Tool>
    var order: seq<string>
    var usage: Usage
    var finish: string
    const track: ToolCallTracker

    ghost function State(): Agg
      reads this, track
    {
      Agg(model, text, reasoning, tools, order, track.State(), usage, finish)
    }

    constructor (model: string, spare: string)
      ensures State() == NewAgg(model, spare)
      ensures State().Valid()
      ensures fresh(track)
    {
      this.model := model;
      text, reasoning, tools, order, usage, finish := "", "", map[], [], NO_USAGE, "";
      track := new ToolCallTracker(spare);
    }

    method Feed(ev: Event)
      modifies this, track
      ensures State() == Absorb(old(State()), ev)
    {
      match ev
      case MessageStart(m) =>
        model := m;
      case ContentDelta(t, isReasoning) =>
        if isReasoning {
          reasoning := reasoning + t;
          return;
        }
        text := text + t;
      case ToolCallDelta(eventId, eventName, args) =>
        var id, name := track.Resolve(eventId, eventName);
        ghost var before := tools;
        if id !in tools {
          tools := tools[id := Tool(id, name, "")];
          order := order + [id];
        }
        tools := tools[id := tools[id].(input := tools[id].input + args)];
        assert "" + args == args;
        assert id !in before ==> tools == before[id := Tool(id, name, args)];
      case MessageFinish(reason, u) =>
        finish := reason;
        if u.Some? {
          usage := u.value;
        }
      case TaskFailed(_, _) =>
    }

    /** The calls in order of first appearance. */
    method ToolsInOrder() returns (out: seq<Tool>)
      requires State().Valid()
      ensures |out| == |order|
      ensures forall i | 0 <= i < |order| :: out[i] == tools[order[i]]
    {
      out := [];
      for i := 0 to |order|
        invariant |out| == i
        invariant forall k | 0 <= k < i :: out[k] == tools[order[k]]
      {
        if order[i] in tools {
          out := out + [tools[order[i]]];
        }
      }
    }
  }
}
