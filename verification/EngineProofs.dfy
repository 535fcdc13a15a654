/** What every run of the scheduler keeps. */
module EngineProofs {
  import opened CronNext
  import opened Engine
  import opened Text

  // ---------- The next run of a rule ----------

  /** A time of day that exists. */
  predicate ValidClock(hh: int, mm: int) {
    0 <= hh < 24 && 0 <= mm < 60
  }

  /** An instant at hh:mm of some day. */
  predicate AtTime(t: int, hh: int, mm: int, zone: Zone) {
    Local(t, zone) % DAY == hh * HOUR + mm * MINUTE
  }

  /** Clocks are not changed within two days of an instant. */
  ghost predicate Calm(from: int, zone: Zone) {
    && -DAY < zone.offset(from) < DAY
    && forall t | from - 2 * DAY <= t <= from + 2 * DAY :: zone.offset(t) == zone.offset(from)
  }

  lemma CalmClock(from: int, hh: int, mm: int, zone: Zone)
    requires ValidClock(hh, mm) && Calm(from, zone)
    ensures AtClock(from, hh, mm, zone) == Reading(from, hh, mm, zone) - zone.offset(from)
    ensures from - DAY < AtClock(from, hh, mm, zone) < from + DAY
  {
    var local := Reading(from, hh, mm, zone);
    assert from - 2 * DAY <= local <= from + 2 * DAY;
    assert from - 2 * DAY <= local - zone.offset(from) <= from + 2 * DAY;
  }

  /** Away from clock changes, a daily rule with a valid time next runs at the first instant after from
      that is at its time of day. */
  lemma DailyIsFirst(from: int, hh: int, mm: int, zone: Zone)
    requires ValidClock(hh, mm) && Calm(from, zone)
    ensures var next := DailyNext(from, hh, mm, zone);
            && from < next <= from + DAY && AtTime(next, hh, mm, zone)
            && forall t | from < t < next :: !AtTime(t, hh, mm, zone)
  {
    hide OffsetFor;
    CalmClock(from, hh, mm, zone);
    var next, o, clock := DailyNext(from, hh, mm, zone), zone.offset(from), hh * HOUR + mm * MINUTE;
    assert zone.offset(next) == o;
    var passed := Local(from, zone) % DAY;
    assert Local(next, zone) == Local(from, zone) - passed + clock + if clock <= passed then DAY else 0;
    NextReading(Local(from, zone), clock, Local(next, zone));
    forall t | from < t < next ensures !AtTime(t, hh, mm, zone) {
      assert zone.offset(t) == o;
      NoReadingBetween(Local(from, zone), clock, Local(next, zone), Local(t, zone));
    }
  }

  lemma NextReading(local: int, clock: int, next: int)
    requires 0 <= clock < DAY
    requires next == local - local % DAY + clock + if clock <= local % DAY then DAY else 0
    ensures local < next <= local + DAY && next % DAY == clock
  {
  }

  lemma NoReadingBetween(local: int, clock: int, next: int, t: int)
    requires 0 <= clock < DAY && local < t < next
    requires next == local - local % DAY + clock + if clock <= local % DAY then DAY else 0
    ensures t % DAY != clock
  {
  }

  /** Less than a day and hh:mm has passed since midnight, counting what clocks have been set back since
      hh:mm. */
  predicate DailyMovesOn(from: int, hh: int, mm: int, zone: Zone) {
    Local(from, zone) % DAY + OffsetFor(Reading(from, hh, mm, zone), zone) - zone.offset(from) < DAY + hh * HOUR + mm * MINUTE
  }

  /** In any zone and for any two numbers this is exactly when the next run is later than from. */
  lemma DailyIsLater(from: int, hh: int, mm: int, zone: Zone)
    ensures DailyNext(from, hh, mm, zone) > from <==> DailyMovesOn(from, hh, mm, zone)
    ensures ValidClock(hh, mm) && Calm(from, zone) ==> DailyMovesOn(from, hh, mm, zone)
  {
    hide OffsetFor;
    if ValidClock(hh, mm) && Calm(from, zone) {
      CalmClock(from, hh, mm, zone);
    }
  }

  /** Clocks are set back from two hours ahead of UTC to one. */
  const AUTUMN := Zone((t: int) => Calendar(0, 0, 1, 1, 0), (t: int) => if t < HOUR then 2 * HOUR else HOUR)

  /** On a day of 25 hours a rule for half past midnight that fires a quarter to the next midnight is
      due again at once. */
  lemma LongDayRepeats(r: Rule)
    requires r.trigger == Daily(Some((0, 30))) && r.enabled
    ensures var from := 22 * HOUR + 45 * MINUTE;
            && Local(from, AUTUMN) % DAY == 23 * HOUR + 45 * MINUTE
            && ComputeNext(r.trigger, from, AUTUMN) == Some(22 * HOUR + 30 * MINUTE)
            && Due(Fired(r, from, AUTUMN), from)
  {
  }

  /** When the next run computed at an instant lies strictly after it. */
  predicate MovesOn(trigger: Trigger, from: int, zone: Zone) {
    match trigger
    case Interval(duration) => duration.Some? ==> duration.value > 0
    case Daily(time) => time.Some? ==> DailyMovesOn(from, time.value.0, time.value.1, zone)
    case Cron(_) => true
    case Once(moment) => moment.Some? ==> moment.value > from
    case Unknown => true
  }

  lemma NextIsLater(trigger: Trigger, from: int, zone: Zone)
    ensures ComputeNext(trigger, from, zone).Some? ==>
              (ComputeNext(trigger, from, zone).value > from <==> MovesOn(trigger, from, zone))
  {
    hide DailyMovesOn, DailyNext;
    match trigger
    case Daily(time) =>
      if time.Some? {
        DailyIsLater(from, time.value.0, time.value.1, zone);
      }
    case Cron(expr) =>
      hide Next, ReadExpr;
      var next := Next(expr, from, zone.calendar);
      if next.Some? {
        NextIsLeast(expr, from, zone.calendar, next.value);
      }
    case _ =>
  }

  // ---------- Runs ----------

  function LastFiring(log: seq<Firing>, id: int): Option<int> {
    if log == [] then None
    else
      var f := log[|log| - 1];
      if f.id == id then Some(f.at) else LastFiring(log[..|log| - 1], id)
  }

  /** Each firing respects the one before it of the same rule: a once rule has none, and others do
      not come before the next run computed then. */
  ghost predicate Spaced(log: seq<Firing>, triggers: map<int, Trigger>, zone: Zone) {
    forall i | 0 <= i < |log| && log[i].id in triggers :: FollowsRule(log, i, triggers[log[i].id], zone)
  }

  predicate FollowsRule(log: seq<Firing>, i: nat, trigger: Trigger, zone: Zone)
    requires i < |log|
  {
    var before := LastFiring(log[..i], log[i].id);
    before.Some? ==>
      && !trigger.Once?
      && (ComputeNext(trigger, before.value, zone).Some? ==> ComputeNext(trigger, before.value, zone).value <= log[i].at)
  }

  /** No rule is added, removed or given another trigger. */
  predicate Unedited(rules: map<int, Rule>, triggers: map<int, Trigger>) {
    (forall id <- rules :: id in triggers) && (forall id <- triggers :: id in rules && rules[id].trigger == triggers[id])
  }

  /** What the rule of a last firing looks like until it fires again. */
  predicate Waiting(r: Rule, last: Option<int>, zone: Zone) {
    last.Some? ==>
      && (r.trigger.Once? ==> !r.enabled)
      && (ComputeNext(r.trigger, last.value, zone).Some? && r.enabled ==> r.next == ComputeNext(r.trigger, last.value, zone))
  }

  ghost predicate Kept(s: State, triggers: map<int, Trigger>, zone: Zone) {
    && Unedited(s.rules, triggers) && Spaced(s.log, triggers, zone)
    && forall id <- s.rules :: Waiting(s.rules[id], LastFiring(s.log, id), zone)
  }

  lemma PlanKeeps(s: State, ids: seq<int>, now: int, zone: Zone, triggers: map<int, Trigger>)
    requires Kept(s, triggers, zone) && Picks(ids, s.rules, Unscheduled, MAX_UNSCHEDULED)
    ensures Kept(s.(rules := PlanAll(s.rules, ids, now, zone)), triggers, zone)
  {
    hide PlanAll, LastFiring, Spaced, ComputeNext;
    var after := PlanAll(s.rules, ids, now, zone);
    forall id ensures id in after <==> id in s.rules {
      Untouched(s.rules, ids, now, zone, id);
    }
    forall id <- after
      ensures after[id].trigger == s.rules[id].trigger && Waiting(after[id], LastFiring(s.log, id), zone)
    {
      Untouched(s.rules, ids, now, zone, id);
      if id in ids {
        assert Unscheduled(s.rules[id]);
      }
    }
  }

  /** One firing of a due rule. */
  lemma FiringKeeps(s: State, id: int, at: int, now: int, zone: Zone, triggers: map<int, Trigger>)
    requires Kept(s, triggers, zone) && id in s.rules && Due(s.rules[id], now) && now <= at
    ensures Kept(State(s.rules[id := Fired(s.rules[id], at, zone)], s.log + [Firing(id, at)]), triggers, zone)
  {
    hide ComputeNext;
    var log := s.log + [Firing(id, at)];
    assert log[..|s.log|] == s.log;
    forall i | 0 <= i < |log| && log[i].id in triggers ensures FollowsRule(log, i, triggers[log[i].id], zone) {
      if i < |s.log| {
        assert log[..i] == s.log[..i];
        assert FollowsRule(s.log, i, triggers[s.log[i].id], zone);
      } else {
        assert Waiting(s.rules[id], LastFiring(s.log, id), zone);
      }
    }
  }

  lemma {:induction false} FireAllKeeps(s: State, ids: seq<int>, at: int -> int, now: int, zone: Zone, triggers: map<int, Trigger>)
    requires Kept(s, triggers, zone)
    requires forall i | 0 <= i < |ids| :: ids[i] in s.rules && Due(s.rules[ids[i]], now) && now <= at(ids[i])
    requires forall i, j | 0 <= i < j < |ids| :: ids[i] != ids[j]
    ensures Kept(FireAll(s, ids, at, zone), triggers, zone)
    decreases |ids|
  {
    hide Kept, Due, Fired;
    if ids != [] {
      var last := |ids| - 1;
      var before := FireAll(s, ids[..last], at, zone);
      FireAllKeeps(s, ids[..last], at, now, zone, triggers);
      UnfiredYet(s, ids[..last], at, zone, ids[last]);
      assert ids[last] !in ids[..last];
      assert before.rules[ids[last]] == s.rules[ids[last]];
      FiringKeeps(before, ids[last], at(ids[last]), now, zone, triggers);
    }
  }

  lemma TickKeeps(s: State, scan: Scan, zone: Zone, triggers: map<int, Trigger>)
    requires Kept(s, triggers, zone) && Fits(s, scan, zone)
    ensures Kept(Tick(s, scan, zone), triggers, zone)
  {
    hide Kept, PlanAll, FireAll;
    PlanKeeps(s, scan.unscheduled, scan.now, zone, triggers);
    var planned := s.(rules := PlanAll(s.rules, scan.unscheduled, scan.now, zone));
    FireAllKeeps(planned, scan.due, scan.at, scan.now, zone, triggers);
  }

  /** A run of scans; the queries of each fit the state it starts from. */
  predicate Scans(s: State, scans: seq<Scan>, zone: Zone)
    decreases scans
  {
    scans != [] ==> Fits(s, scans[0], zone) && Scans(Tick(s, scans[0], zone), scans[1..], zone)
  }

  function After(s: State, scans: seq<Scan>, zone: Zone): State
    decreases scans
  {
    if scans == [] then s else After(Tick(s, scans[0], zone), scans[1..], zone)
  }

  /** Whatever the clock does between scans and within them, every firing follows its rule. */
  lemma {:induction false} RunKeeps(s: State, scans: seq<Scan>, zone: Zone, triggers: map<int, Trigger>)
    requires Kept(s, triggers, zone) && Scans(s, scans, zone)
    ensures Kept(After(s, scans, zone), triggers, zone)
    decreases scans
  {
    hide Kept, Tick, Fits;
    if scans != [] {
      TickKeeps(s, scans[0], zone, triggers);
      RunKeeps(Tick(s, scans[0], zone), scans[1..], zone, triggers);
    }
  }

  function Triggers(rules: map<int, Rule>): map<int, Trigger> {
    map id | id in rules :: rules[id].trigger
  }

  /** The firings of a run of scans over some rules. */
  function Log(rules: map<int, Rule>, scans: seq<Scan>, zone: Zone): seq<Firing> {
    After(State(rules, []), scans, zone).log
  }

  lemma LogSpaced(rules: map<int, Rule>, scans: seq<Scan>, zone: Zone)
    requires Scans(State(rules, []), scans, zone)
    ensures Spaced(Log(rules, scans, zone), Triggers(rules), zone)
  {
    RunKeeps(State(rules, []), scans, zone, Triggers(rules));
  }

  lemma {:induction false} LastFiringExists(log: seq<Firing>, i: nat)
    requires i < |log|
    ensures LastFiring(log, log[i].id).Some?
    decreases |log|
  {
    if i < |log| - 1 {
      LastFiringExists(log[..|log| - 1], i);
    }
  }

  lemma {:induction false} LastFiringIndex(log: seq<Firing>, id: int) returns (k: nat)
    requires LastFiring(log, id).Some?
    ensures k < |log| && log[k] == Firing(id, LastFiring(log, id).value)
    ensures forall i | k < i < |log| :: log[i].id != id
    decreases |log|
  {
    var last := |log| - 1;
    if log[last].id == id {
      k := last;
    } else {
      k := LastFiringIndex(log[..last], id);
    }
  }

  /** Over every run a once rule fires at most once. */
  lemma OnceFiresOnce(rules: map<int, Rule>, scans: seq<Scan>, zone: Zone, i: nat, j: nat)
    requires Scans(State(rules, []), scans, zone)
    requires var log := Log(rules, scans, zone); i < j < |log| && log[i].id in rules && rules[log[i].id].trigger.Once?
    ensures Log(rules, scans, zone)[j].id != Log(rules, scans, zone)[i].id
  {
    LogSpaced(rules, scans, zone);
    hide ComputeNext, Log, LastFiring;
    var log := Log(rules, scans, zone);
    LastFiringExists(log[..j], i);
    assert log[j].id in Triggers(rules) ==> FollowsRule(log, j, Triggers(rules)[log[j].id], zone);
  }

  lemma {:induction false} SpacedInterval(log: seq<Firing>, triggers: map<int, Trigger>, zone: Zone, i: nat, j: nat, d: int)
    requires Spaced(log, triggers, zone) && i < j < |log| && log[i].id == log[j].id
    requires log[i].id in triggers && triggers[log[i].id] == Interval(Some(d)) && d > 0
    ensures log[j].at >= log[i].at + d
    decreases j
  {
    LastFiringExists(log[..j], i);
    var k := LastFiringIndex(log[..j], log[j].id);
    assert FollowsRule(log, j, triggers[log[j].id], zone);
    if k != i {
      SpacedInterval(log, triggers, zone, i, k, d);
    }
  }

  /** Over every run two firings of a rule with a positive interval d are at least d apart. */
  lemma IntervalSpacing(rules: map<int, Rule>, scans: seq<Scan>, zone: Zone, i: nat, j: nat, d: int)
    requires Scans(State(rules, []), scans, zone) && d > 0
    requires var log := Log(rules, scans, zone);
             i < j < |log| && log[i].id == log[j].id && log[i].id in rules && rules[log[i].id].trigger == Interval(Some(d))
    ensures Log(rules, scans, zone)[j].at >= Log(rules, scans, zone)[i].at + d
  {
    LogSpaced(rules, scans, zone);
    hide Log, Spaced;
    SpacedInterval(Log(rules, scans, zone), Triggers(rules), zone, i, j, d);
  }

  /** Over every run, between two firings of a rule in a row lies the next run computed at the first, if
      there was one. */
  lemma FiringsRespectNext(rules: map<int, Rule>, scans: seq<Scan>, zone: Zone, i: nat, j: nat)
    requires Scans(State(rules, []), scans, zone)
    requires var log := Log(rules, scans, zone);
             && i < j < |log| && log[i].id == log[j].id && log[i].id in rules
             && forall k | i < k < j :: log[k].id != log[i].id
    ensures var log := Log(rules, scans, zone);
            var next := ComputeNext(rules[log[i].id].trigger, log[i].at, zone);
            next.Some? ==> next.value <= log[j].at
  {
    LogSpaced(rules, scans, zone);
    hide ComputeNext, Log, LastFiring;
    var log := Log(rules, scans, zone);
    LastFiringExists(log[..j], i);
    var k := LastFiringIndex(log[..j], log[j].id);
    assert k == i;
    assert FollowsRule(log, j, Triggers(rules)[log[j].id], zone);
  }

  /** Over every run, between two firings of a cron rule in a row lies the least minute that it matches
      after the first, if there is one within 366 days. */
  lemma CronFiresOnMatches(rules: map<int, Rule>, scans: seq<Scan>, zone: Zone, i: nat, j: nat, expr: string)
    requires Scans(State(rules, []), scans, zone)
    requires var log := Log(rules, scans, zone);
             && i < j < |log| && log[i].id == log[j].id && log[i].id in rules
             && (forall k | i < k < j :: log[k].id != log[i].id)
             && rules[log[i].id].trigger == Cron(expr) && Next(expr, log[i].at, zone.calendar).Some?
    ensures var log := Log(rules, scans, zone);
            var t := Next(expr, log[i].at, zone.calendar).value;
            && log[i].at < t <= log[j].at && CronMatch(ReadExpr(expr).value, zone.calendar(t))
            && forall u | Candidate(u, log[i].at) && u < t :: !CronMatch(ReadExpr(expr).value, zone.calendar(u))
  {
    FiringsRespectNext(rules, scans, zone, i, j);
    hide Log, Next, ReadExpr, CronMatch;
    var at := Log(rules, scans, zone)[i].at;
    NextIsLeast(expr, at, zone.calendar, Next(expr, at, zone.calendar).value);
  }

  // ---------- One scan ----------

  lemma {:induction false} LogOfScan(s: State, ids: seq<int>, at: int -> int, zone: Zone)
    requires forall i | 0 <= i < |ids| :: ids[i] in s.rules
    ensures FireAll(s, ids, at, zone).log == s.log + seq(|ids|, i requires 0 <= i < |ids| => Firing(ids[i], at(ids[i])))
    decreases |ids|
  {
    hide Fired;
    if ids != [] {
      var last := |ids| - 1;
      LogOfScan(s, ids[..last], at, zone);
      UnfiredYet(s, ids[..last], at, zone, ids[last]);
    }
  }

  /** A scan fires no rule twice; a rule that moves on is not due again at the time it fired; and if
      fewer than twenty rules are due all of them fire. */
  lemma ScanFires(s: State, scan: Scan, zone: Zone)
    requires Fits(s, scan, zone)
    ensures var s1 := Tick(s, scan, zone);
            && |s1.log| == |s.log| + |scan.due| && s.log <= s1.log
            && (forall i, j | |s.log| <= i < j < |s1.log| :: s1.log[i].id != s1.log[j].id)
            && (forall i | |s.log| <= i < |s1.log| && s1.log[i].id in s1.rules
                         && MovesOn(s1.rules[s1.log[i].id].trigger, s1.log[i].at, zone) ::
                  !Due(s1.rules[s1.log[i].id], s1.log[i].at))
            && (|scan.due| < MAX_DUE ==>
                  forall id <- s1.rules :: MovesOn(s1.rules[id].trigger, scan.at(id), zone) ==> !Due(s1.rules[id], scan.now))
  {
    hide ComputeNext, PlanAll, FireAll, MovesOn;
    var planned := s.(rules := PlanAll(s.rules, scan.unscheduled, scan.now, zone));
    var s1 := Tick(s, scan, zone);
    LogOfScan(planned, scan.due, scan.at, zone);
    forall id <- s1.rules
      ensures id in scan.due && MovesOn(s1.rules[id].trigger, scan.at(id), zone) ==> !Due(s1.rules[id], scan.at(id))
      ensures id !in scan.due ==> id in planned.rules && s1.rules[id] == planned.rules[id]
    {
      UnfiredYet(planned, scan.due, scan.at, zone, id);
      if id in planned.rules {
        NextIsLater(planned.rules[id].trigger, scan.at(id), zone);
      }
    }
  }
}
