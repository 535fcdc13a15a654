/** The scheduler: which rules fire in a scan, and when they fire next (task/engine.go). */
module Engine {
  import opened CronNext
  import opened Text

  // ---------- Rules ----------

  /** What the trigger type and value of a rule say; None where the value does not parse. */
  datatype Trigger =
    | Interval(duration: Option<int>)
    | Daily(time: Option<(int, int)>)
    | Cron(expr: string)
    | Once(moment: Option<int>)
    | Unknown

  datatype Rule = Rule(trigger: Trigger, enabled: bool, next: Option<int>, last: Option<int>)

  /** The local time zone: the calendar of an instant, and how far local clocks are then ahead of UTC. */
  datatype Zone = Zone(calendar: int -> Calendar, offset: int -> int)

  const HOUR := 60 * MINUTE
  const DAY := 24 * HOUR

  function Local(t: int, zone: Zone): int {
    t + zone.offset(t)
  }

  /** The offset that time.Date subtracts from a local reading: it looks up the reading as if it were
      UTC, and then the instant that this offset gives. */
  function OffsetFor(local: int, zone: Zone): int {
    var o := zone.offset(local);
    if o == 0 then 0 else zone.offset(local - o)
  }

  /** The local reading hh:mm on the day of from; hours and minutes out of range are carried over. */
  function Reading(from: int, hh: int, mm: int, zone: Zone): int {
    Local(from, zone) - Local(from, zone) % DAY + hh * HOUR + mm * MINUTE
  }

  function AtClock(from: int, hh: int, mm: int, zone: Zone): int {
    Reading(from, hh, mm, zone) - OffsetFor(Reading(from, hh, mm, zone), zone)
  }

  function DailyNext(from: int, hh: int, mm: int, zone: Zone): int {
    var next := AtClock(from, hh, mm, zone);
    if next <= from then next + DAY else next
  }

  function ComputeNext(trigger: Trigger, from: int, zone: Zone): Option<int> {
    match trigger
    case Interval(duration) => if duration.None? then None else Some(from + duration.value)
    case Daily(time) => if time.None? then None else Some(DailyNext(from, time.value.0, time.value.1, zone))
    case Cron(expr) => Next(expr, from, zone.calendar)
    case Once(moment) => moment
    case Unknown => None
  }

  // ---------- One scan ----------

  const MAX_UNSCHEDULED := 50
  const MAX_DUE := 20

  predicate Unscheduled(r: Rule) {
    r.enabled && r.next.None?
  }

  predicate Due(r: Rule, now: int) {
    r.enabled && r.next.Some? && r.next.value <= now
  }

  /** One query with a limit: some rows that qualify, each once, and all of them if they are few. */
  predicate Picks(ids: seq<int>, rules: map<int, Rule>, qualifies: Rule -> bool, limit: nat) {
    && |ids| <= limit
    && (forall i | 0 <= i < |ids| :: ids[i] in rules && qualifies(rules[ids[i]]))
    && (forall i, j | 0 <= i < j < |ids| :: ids[i] != ids[j])
    && (|ids| < limit ==> forall id <- rules :: qualifies(rules[id]) ==> id in ids)
  }

  /** A scan: its time, what its two queries return, and the clock when each rule fires. */
  datatype Scan = Scan(now: int, unscheduled: seq<int>, due: seq<int>, at: int -> int)

  function Plan(r: Rule, now: int, zone: Zone): Rule {
    var next := ComputeNext(r.trigger, now, zone);
    if next.Some? then r.(next := next) else r.(enabled := false)
  }

  function PlanAll(rules: map<int, Rule>, ids: seq<int>, now: int, zone: Zone): map<int, Rule> {
    if ids == [] then rules
    else
      var last := |ids| - 1;
      var before := PlanAll(rules, ids[..last], now, zone);
      if ids[last] in rules then before[ids[last] := Plan(rules[ids[last]], now, zone)] else before
  }

  datatype Firing = Firing(id: int, at: int)

  function Fired(r: Rule, at: int, zone: Zone): Rule {
    r.(last := Some(at), next := ComputeNext(r.trigger, at, zone), enabled := !r.trigger.Once?)
  }

  datatype State = State(rules: map<int, Rule>, log: seq<Firing>)

  function FireAll(s: State, ids: seq<int>, at: int -> int, zone: Zone): State {
    if ids == [] then s
    else
      var last := |ids| - 1;
      var before := FireAll(s, ids[..last], at, zone);
      var id := ids[last];
      if id in s.rules then
        State(before.rules[id := Fired(s.rules[id], at(id), zone)], before.log + [Firing(id, at(id))])
      else before
  }

  /** The two queries of the scan fit the rules they find. */
  predicate Fits(s: State, scan: Scan, zone: Zone) {
    && Picks(scan.unscheduled, s.rules, Unscheduled, MAX_UNSCHEDULED)
    && Picks(scan.due, PlanAll(s.rules, scan.unscheduled, scan.now, zone), (r: Rule) => Due(r, scan.now), MAX_DUE)
    && forall i | 0 <= i < |scan.due| :: scan.now <= scan.at(scan.due[i])
  }

  function Tick(s: State, scan: Scan, zone: Zone): State {
    FireAll(s.(rules := PlanAll(s.rules, scan.unscheduled, scan.now, zone)), scan.due, scan.at, zone)
  }

  class Scheduler {
    const zone: Zone
    var rules: map<int, Rule>
    var log: seq<Firing>

    ghost function St(): State
      reads this
    {
      State(rules, log)
    }

    constructor (rules: map<int, Rule>, zone: Zone)
      ensures St() == State(rules, []) && this.zone == zone
    {
      this.rules, this.zone := rules, zone;
      log := [];
    }

    method NextOf(trigger: Trigger, from: int) returns (next: Option<int>)
      ensures next == ComputeNext(trigger, from, zone)
    {
      match trigger
      case Interval(duration) =>
        if duration.None? {
          return None;
        }
        next := Some(from + duration.value);
      case Daily(time) =>
        if time.None? {
          return None;
        }
        var t := AtClock(from, time.value.0, time.value.1, zone);
        if t <= from {
          t := t + DAY;
        }
        next := Some(t);
      case Cron(expr) =>
        next := NextCron(expr, from, zone.calendar);
      case Once(moment) =>
        next := moment;
      case Unknown =>
        next := None;
    }

    /** The next run is set before the rule is executed. */
    method Fire(id: int, at: int)
      requires id in rules
      modifies this
      ensures St() == State(old(rules)[id := Fired(old(rules)[id], at, zone)], old(log) + [Firing(id, at)])
    {
      hide ComputeNext;
      var r := rules[id];
      var next := NextOf(r.trigger, at);
      rules := rules[id := r.(last := Some(at), next := next, enabled := !r.trigger.Once?)];
      log := log + [Firing(id, at)];
    }

    method DoTick(scan: Scan)
      requires Fits(St(), scan, zone)
      modifies this
      ensures St() == Tick(old(St()), scan, zone)
    {
      hide ComputeNext, Fired;
      for i := 0 to |scan.unscheduled|
        invariant rules == PlanAll(old(rules), scan.unscheduled[..i], scan.now, zone) && log == old(log)
      {
        var id := scan.unscheduled[i];
        assert scan.unscheduled[..i + 1][..i] == scan.unscheduled[..i];
        Untouched(old(rules), scan.unscheduled[..i], scan.now, zone, id);
        var r := rules[id];
        var next := NextOf(r.trigger, scan.now);
        if next.Some? {
          rules := rules[id := r.(next := next)];
        } else {
          rules := rules[id := r.(enabled := false)];
        }
      }
      assert scan.unscheduled[..|scan.unscheduled|] == scan.unscheduled;
      ghost var planned := St();
      for i := 0 to |scan.due|
        invariant St() == FireAll(planned, scan.due[..i], scan.at, zone)
      {
        var id := scan.due[i];
        assert scan.due[..i + 1][..i] == scan.due[..i];
        UnfiredYet(planned, scan.due[..i], scan.at, zone, id);
        Fire(id, scan.at(id));
      }
      assert scan.due[..|scan.due|] == scan.due;
    }
  }

  lemma {:induction false} Untouched(rules: map<int, Rule>, ids: seq<int>, now: int, zone: Zone, id: int)
    ensures id in PlanAll(rules, ids, now, zone) <==> id in rules
    ensures id in rules && id !in ids ==> PlanAll(rules, ids, now, zone)[id] == rules[id]
    ensures id in rules && id in ids ==> PlanAll(rules, ids, now, zone)[id] == Plan(rules[id], now, zone)
    decreases |ids|
  {
    hide Plan;
    if ids != [] {
      var last := |ids| - 1;
      Untouched(rules, ids[..last], now, zone, id);
      assert ids == ids[..last] + [ids[last]];
    }
  }

  lemma {:induction false} UnfiredYet(s: State, ids: seq<int>, at: int -> int, zone: Zone, id: int)
    ensures id in FireAll(s, ids, at, zone).rules <==> id in s.rules
    ensures id in s.rules && id !in ids ==> FireAll(s, ids, at, zone).rules[id] == s.rules[id]
    ensures id in s.rules && id in ids ==> FireAll(s, ids, at, zone).rules[id] == Fired(s.rules[id], at(id), zone)
    decreases |ids|
  {
    hide Fired;
    if ids != [] {
      var last := |ids| - 1;
      UnfiredYet(s, ids[..last], at, zone, id);
      assert ids == ids[..last] + [ids[last]];
    }
  }
}
