/** The unified event stream that every dialect is translated to and from. */
module Envelope {
  import opened Text

  /** input counts the cached (read) and written cache tokens as subsets. */
  datatype Usage = Usage(input: int, output: int, cached: int, write: int, credit: real)

  const NO_USAGE := Usage(0, 0, 0, 0, 0.0)

  datatype Event =
    | MessageStart(model: string)
    | ContentDelta(text: string, reasoning: bool)
    | ToolCallDelta(id: string, name: string, args: string)
    | MessageFinish(reason: string, usage: Option<Usage>)
    | TaskFailed(code: int, message: string)

  predicate IsDelta(e: Event) {
    e.ContentDelta? || e.ToolCallDelta?
  }

  predicate OnlyDeltas(evs: seq<Event>) {
    forall i | 0 <= i < |evs| :: IsDelta(evs[i])
  }

  /** One complete answer: a start, any interleaving of deltas, a finish. */
  datatype Session = Session(model: string, deltas: seq<Event>, reason: string, usage: Option<Usage>)
  {
    function Events(): seq<Event> {
      [MessageStart(model)] + deltas + [MessageFinish(reason, usage)]
    }

    predicate WellFormed() {
      && OnlyDeltas(deltas)
      && (usage.Some? ==> LegalUsage(usage.value))
    }

    predicate Legal() {
      WellFormed() && FirstToolNamed(deltas)
    }
  }

  predicate LegalUsage(u: Usage) {
    0 <= u.output && 0 <= u.cached && 0 <= u.write && u.cached + u.write <= u.input
  }

  /** The first tool delta, if there is one, carries the tool's name. */
  predicate FirstToolNamed(deltas: seq<Event>) {
    deltas != [] ==>
      if deltas[0].ToolCallDelta? then deltas[0].name != "" else FirstToolNamed(deltas[1..])
  }

  /** The id a parser makes up for a call whose upstream gave none: Go's "call_%d". */
  function SynthId(index: int): string {
    if index < 0 then "call_-" + Decimal(-index) else "call_" + Decimal(index)
  }

  // ---------- Grouping of tool-call deltas ----------

  /** spare is the random id the tracker makes up if the first delta of all has none. */
  datatype Tracker = Tracker(lastId: string, lastName: string, spare: string)
  {
    function Resolve(id: string, name: string): (t: Tracker)
      ensures t.spare == spare
      ensures spare != "" ==> t.lastId != ""
      ensures id != "" ==> t.lastId == id
      ensures id == "" && lastId != "" ==> t.lastId == lastId
      ensures t.lastName == "" <==> lastName == "" && name == ""
    {
      Tracker(
        if id != "" then id else if lastId == "" then spare else lastId,
        if name != "" then name else lastName,
        spare)
    }
  }

  function NewTracker(spare: string): Tracker {
    Tracker("", "", spare)
  }

  /** Assigns each tool-call delta to a call and a tool name (gateway/toolcall.go). */
  class ToolCallTracker {
    var lastID: string
    var lastName: string
    const spare: string

    ghost function State(): Tracker
      reads this
    {
      Tracker(lastID, lastName, spare)
    }

    constructor (spare: string)
      ensures State() == NewTracker(spare)
    {
      lastID, lastName := "", "";
      this.spare := spare;
    }

    method Resolve(eventId: string, eventName: string) returns (id: string, name: string)
      modifies this
      ensures State() == old(State()).Resolve(eventId, eventName)
      ensures id == State().lastId && name == State().lastName
    {
      if eventId != "" {
        lastID := eventId;
      } else if lastID == "" {
        lastID := spare;
      }
      if eventName != "" {
        lastName := eventName;
      }
      return lastID, lastName;
    }
  }
}
