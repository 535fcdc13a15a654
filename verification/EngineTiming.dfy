/** When a rule fires, read off the rule as it was at the start, the scans and the log. */
module EngineTiming {
  import opened CronNext
  import opened Engine
  import opened EngineProofs
  import opened Text

  // ---------- Runs, one scan at the end ----------

  lemma {:induction false} AfterConcat(s: State, a: seq<Scan>, b: seq<Scan>, zone: Zone)
    ensures Scans(s, a + b, zone) <==> Scans(s, a, zone) && Scans(After(s, a, zone), b, zone)
    ensures After(s, a + b, zone) == After(After(s, a, zone), b, zone)
    decreases a
  {
    hide Tick, Fits;
    if a == [] {
      assert a + b == b;
    } else {
      assert (a + b)[1..] == a[1..] + b;
      AfterConcat(Tick(s, a[0], zone), a[1..], b, zone);
    }
  }

  lemma AfterLast(s: State, a: seq<Scan>, scan: Scan, zone: Zone)
    ensures Scans(s, a + [scan], zone) <==> Scans(s, a, zone) && Fits(After(s, a, zone), scan, zone)
    ensures After(s, a + [scan], zone) == Tick(After(s, a, zone), scan, zone)
  {
    hide Tick, Fits;
    AfterConcat(s, a, [scan], zone);
    assert [scan][1..] == [];
  }

  /** The time of the first scan that found the rule without a next run. */
  function PlannedAt(scans: seq<Scan>, id: int): Option<int> {
    if scans == [] then None
    else if id in scans[0].unscheduled then Some(scans[0].now)
    else PlannedAt(scans[1..], id)
  }

  lemma {:induction false} PlannedLast(a: seq<Scan>, scan: Scan, id: int)
    ensures PlannedAt(a + [scan], id) == Planned(PlannedAt(a, id), scan, id)
  {
    if a == [] {
      assert [scan][1..] == [] && a + [scan] == [scan];
    } else {
      assert (a + [scan])[1..] == a[1..] + [scan];
      PlannedLast(a[1..], scan, id);
    }
  }

  function Planned(before: Option<int>, scan: Scan, id: int): Option<int> {
    if before.Some? then before else if id in scan.unscheduled then Some(scan.now) else None
  }

  // ---------- What a rule waits for ----------

  /** The moment a rule that was enabled at the start waits for: computed at its last firing, unless it
      is a once rule, else the next run it had at the start, else computed when it was planned. */
  function Awaits(start: Rule, last: Option<int>, planned: Option<int>, zone: Zone): Option<int> {
    if last.Some? then if start.trigger.Once? then None else ComputeNext(start.trigger, last.value, zone)
    else if start.next.Some? then start.next
    else if planned.Some? then ComputeNext(start.trigger, planned.value, zone)
    else None
  }

  /** A rule that fires again and again has been given another moment when it fired. */
  predicate GoesOn(start: Rule, last: Option<int>, zone: Zone) {
    last.Some? && !start.trigger.Once? ==> ComputeNext(start.trigger, last.value, zone).Some?
  }

  predicate Standing(start: Rule, r: Rule, last: Option<int>, planned: Option<int>, zone: Zone) {
    && r.trigger == start.trigger && r.last == (if last.Some? then last else start.last)
    && (GoesOn(start, last, zone) ==>
          var m := Awaits(start, last, planned, zone);
          if m.Some? then r.enabled && r.next == m
          else if last.None? && planned.None? then r.enabled && r.next == None
          else !r.enabled)
  }

  lemma PlanStands(s: State, scan: Scan, zone: Zone, id: int, start: Rule, planned: Option<int>)
    requires Fits(s, scan, zone) && id in s.rules
    requires Standing(start, s.rules[id], LastFiring(s.log, id), planned, zone)
    ensures var after := PlanAll(s.rules, scan.unscheduled, scan.now, zone);
            id in after && Standing(start, after[id], LastFiring(s.log, id), Planned(planned, scan, id), zone)
  {
    hide PlanAll, LastFiring, ComputeNext;
    Untouched(s.rules, scan.unscheduled, scan.now, zone, id);
    assert id in scan.unscheduled ==> Unscheduled(s.rules[id]);
  }

  lemma {:induction false} LastAfter(s: State, ids: seq<int>, at: int -> int, zone: Zone, id: int)
    requires forall i | 0 <= i < |ids| :: ids[i] in s.rules
    ensures LastFiring(FireAll(s, ids, at, zone).log, id) == if id in ids then Some(at(id)) else LastFiring(s.log, id)
    decreases |ids|
  {
    hide Fired;
    if ids != [] {
      var last := |ids| - 1;
      LastAfter(s, ids[..last], at, zone, id);
      var before := FireAll(s, ids[..last], at, zone).log;
      assert (before + [Firing(ids[last], at(ids[last]))])[..|before|] == before;
      assert ids == ids[..last] + [ids[last]];
    }
  }

  lemma FireStands(s: State, ids: seq<int>, at: int -> int, zone: Zone, id: int, start: Rule, planned: Option<int>)
    requires id in s.rules && Standing(start, s.rules[id], LastFiring(s.log, id), planned, zone)
    requires forall i | 0 <= i < |ids| :: ids[i] in s.rules
    ensures var s1 := FireAll(s, ids, at, zone);
            id in s1.rules && Standing(start, s1.rules[id], LastFiring(s1.log, id), planned, zone)
  {
    hide FireAll, LastFiring, ComputeNext;
    UnfiredYet(s, ids, at, zone, id);
    LastAfter(s, ids, at, zone, id);
  }

  lemma {:induction false} Stands(rules: map<int, Rule>, scans: seq<Scan>, zone: Zone, id: int)
    requires Scans(State(rules, []), scans, zone) && id in rules && rules[id].enabled
    ensures var s := After(State(rules, []), scans, zone);
            id in s.rules && Standing(rules[id], s.rules[id], LastFiring(s.log, id), PlannedAt(scans, id), zone)
    decreases |scans|
  {
    hide Tick, Fits, PlanAll, FireAll, ComputeNext, Standing;
    var s0 := State(rules, []);
    if scans == [] {
      StandsAtStart(rules, zone, id);
    } else {
      var n := |scans| - 1;
      var a, scan := scans[..n], scans[n];
      assert scans == a + [scan];
      AfterLast(s0, a, scan, zone);
      Stands(rules, a, zone, id);
      PlannedLast(a, scan, id);
      TickStands(After(s0, a, zone), scan, zone, id, rules[id], PlannedAt(a, id));
    }
  }

  lemma StandsAtStart(rules: map<int, Rule>, zone: Zone, id: int)
    requires id in rules && rules[id].enabled
    ensures Standing(rules[id], rules[id], LastFiring([], id), None, zone)
  {
  }

  lemma TickStands(s: State, scan: Scan, zone: Zone, id: int, start: Rule, planned: Option<int>)
    requires Fits(s, scan, zone) && id in s.rules
    requires Standing(start, s.rules[id], LastFiring(s.log, id), planned, zone)
    ensures var s1 := Tick(s, scan, zone);
            id in s1.rules && Standing(start, s1.rules[id], LastFiring(s1.log, id), Planned(planned, scan, id), zone)
  {
    hide PlanAll, FireAll, ComputeNext, Standing, LastFiring;
    PlanStands(s, scan, zone, id, start, planned);
    var ready := s.(rules := PlanAll(s.rules, scan.unscheduled, scan.now, zone));
    FireStands(ready, scan.due, scan.at, zone, id, start, Planned(planned, scan, id));
  }

  /** A rule's row always carries its last firing. */
  lemma LastRunRecorded(rules: map<int, Rule>, scans: seq<Scan>, zone: Zone, id: int)
    requires Scans(State(rules, []), scans, zone) && id in rules && rules[id].enabled
    ensures var s := After(State(rules, []), scans, zone);
            id in s.rules && s.rules[id].last == if LastFiring(s.log, id).Some? then LastFiring(s.log, id) else rules[id].last
  {
    hide ComputeNext, LastFiring, PlannedAt, Awaits;
    Stands(rules, scans, zone, id);
  }

  // ---------- When a rule is due ----------

  /** After every run of scans, what a rule that was enabled at the start waits for. */
  function Awaited(rules: map<int, Rule>, scans: seq<Scan>, zone: Zone, id: int): Option<int>
    requires id in rules
  {
    Awaits(rules[id], LastFiring(Log(rules, scans, zone), id), PlannedAt(scans, id), zone)
  }

  /** After every run of scans: such a rule is due exactly from that moment on. */
  lemma DueExactly(rules: map<int, Rule>, scans: seq<Scan>, zone: Zone, id: int, now: int)
    requires Scans(State(rules, []), scans, zone) && id in rules && rules[id].enabled
    requires GoesOn(rules[id], LastFiring(Log(rules, scans, zone), id), zone)
    ensures var s, m := After(State(rules, []), scans, zone), Awaited(rules, scans, zone, id);
            id in s.rules && (Due(s.rules[id], now) <==> m.Some? && m.value <= now)
  {
    hide ComputeNext, LastFiring, PlannedAt, Awaits;
    Stands(rules, scans, zone, id);
  }

  /** What such a rule counts from: its last firing or, if it has not fired and had no next run at the
      start, the scan that planned it. */
  function Since(rules: map<int, Rule>, scans: seq<Scan>, zone: Zone, id: int): Option<int>
    requires id in rules
  {
    var last := LastFiring(Log(rules, scans, zone), id);
    if last.Some? then last else if rules[id].next.None? then PlannedAt(scans, id) else None
  }

  /** An interval rule is due from d after that moment on. */
  lemma IntervalDue(rules: map<int, Rule>, scans: seq<Scan>, zone: Zone, id: int, d: int, now: int)
    requires Scans(State(rules, []), scans, zone) && id in rules && rules[id].enabled
    requires rules[id].trigger == Interval(Some(d))
    ensures var s, since := After(State(rules, []), scans, zone), Since(rules, scans, zone, id);
            && id in s.rules
            && (since.Some? ==> (Due(s.rules[id], now) <==> since.value + d <= now))
  {
    hide LastFiring, PlannedAt, Due;
    DueExactly(rules, scans, zone, id, now);
  }

  /** A daily rule is due from the first instant after it at its time of day on, if clocks are not changed
      about that moment. */
  lemma DailyDue(rules: map<int, Rule>, scans: seq<Scan>, zone: Zone, id: int, hh: int, mm: int, now: int)
    requires Scans(State(rules, []), scans, zone) && id in rules && rules[id].enabled
    requires rules[id].trigger == Daily(Some((hh, mm))) && ValidClock(hh, mm)
    ensures var s, since := After(State(rules, []), scans, zone), Since(rules, scans, zone, id);
            && id in s.rules
            && (since.Some? && Calm(since.value, zone) ==>
                  (Due(s.rules[id], now) <==> exists u | since.value < u <= now :: AtTime(u, hh, mm, zone)))
  {
    hide LastFiring, PlannedAt, Due, DailyNext, AtTime, Calm;
    DueExactly(rules, scans, zone, id, now);
    var since := Since(rules, scans, zone, id);
    if since.Some? && Calm(since.value, zone) {
      DailyIsFirst(since.value, hh, mm, zone);
      var next := DailyNext(since.value, hh, mm, zone);
      assert next <= now ==> since.value < next <= now && AtTime(next, hh, mm, zone);
      assert forall u | since.value < u <= now && now < next :: !AtTime(u, hh, mm, zone);
    }
  }

  /** A cron rule is due from the first minute after it that it matches, if there is one within 366
      days. */
  lemma CronDue(rules: map<int, Rule>, scans: seq<Scan>, zone: Zone, id: int, expr: string, now: int)
    requires Scans(State(rules, []), scans, zone) && id in rules && rules[id].enabled
    requires rules[id].trigger == Cron(expr)
    ensures var s, since := After(State(rules, []), scans, zone), Since(rules, scans, zone, id);
            && id in s.rules
            && (since.Some? && Next(expr, since.value, zone.calendar).Some? ==>
                  && ReadExpr(expr).Some?
                  && (Due(s.rules[id], now) <==>
                        exists u | Candidate(u, since.value) && u <= now ::
                          CronMatch(ReadExpr(expr).value, zone.calendar(u))))
  {
    hide LastFiring, PlannedAt, Due, Next, ReadExpr, CronMatch;
    var since := Since(rules, scans, zone, id);
    if since.Some? && Next(expr, since.value, zone.calendar).Some? {
      DueExactly(rules, scans, zone, id, now);
      NextIsLeast(expr, since.value, zone.calendar, Next(expr, since.value, zone.calendar).value);
    } else {
      Stands(rules, scans, zone, id);
    }
  }

  /** A once rule is due from its moment until it fires; one without a moment never is. */
  lemma OnceDue(rules: map<int, Rule>, scans: seq<Scan>, zone: Zone, id: int, now: int)
    requires Scans(State(rules, []), scans, zone) && id in rules && rules[id].enabled
    requires rules[id].trigger.Once? && rules[id].next.None?
    ensures var s := After(State(rules, []), scans, zone);
            var moment := rules[id].trigger.moment;
            && id in s.rules
            && (Due(s.rules[id], now) <==>
                  LastFiring(s.log, id).None? && PlannedAt(scans, id).Some? && moment.Some? && moment.value <= now)
            && (s.rules[id].enabled <==> LastFiring(s.log, id).None? && (PlannedAt(scans, id).Some? ==> moment.Some?))
  {
    hide LastFiring, PlannedAt;
    DueExactly(rules, scans, zone, id, now);
    Stands(rules, scans, zone, id);
  }

  // ---------- When a rule fires ----------

  /** A scan fires such a rule only if its moment has come, and then, unless the scan is at its limit,
      it does. */
  lemma FiresExactly(rules: map<int, Rule>, scans: seq<Scan>, scan: Scan, zone: Zone, id: int)
    requires Scans(State(rules, []), scans + [scan], zone) && id in rules && rules[id].enabled
    requires GoesOn(rules[id], LastFiring(Log(rules, scans, zone), id), zone)
    ensures var m := Awaits(rules[id], LastFiring(Log(rules, scans, zone), id), PlannedAt(scans + [scan], id), zone);
            && (id in scan.due ==> m.Some? && m.value <= scan.now)
            && (m.Some? && m.value <= scan.now && |scan.due| < 20 ==> id in scan.due)
    ensures LastFiring(Log(rules, scans + [scan], zone), id)
         == if id in scan.due then Some(scan.at(id)) else LastFiring(Log(rules, scans, zone), id)
  {
    hide Tick, PlanAll, FireAll, ComputeNext, LastFiring, PlannedAt, Awaits;
    var s := After(State(rules, []), scans, zone);
    AfterLast(State(rules, []), scans, scan, zone);
    Stands(rules, scans, zone, id);
    PlanStands(s, scan, zone, id, rules[id], PlannedAt(scans, id));
    PlannedLast(scans, scan, id);
    var ready := PlanAll(s.rules, scan.unscheduled, scan.now, zone);
    assert id in scan.due ==> Due(ready[id], scan.now);
    TickLast(s, scan, zone, id);
  }

  lemma TickLast(s: State, scan: Scan, zone: Zone, id: int)
    requires Fits(s, scan, zone)
    ensures LastFiring(Tick(s, scan, zone).log, id) == if id in scan.due then Some(scan.at(id)) else LastFiring(s.log, id)
  {
    hide PlanAll, FireAll, LastFiring, Due;
    LastAfter(s.(rules := PlanAll(s.rules, scan.unscheduled, scan.now, zone)), scan.due, scan.at, zone, id);
  }

  /** The rule does not fire in any of these scans. */
  predicate Quiet(scans: seq<Scan>, id: int) {
    forall i | 0 <= i < |scans| :: id !in scans[i].due
  }

  lemma {:induction false} QuietKeepsLast(rules: map<int, Rule>, a: seq<Scan>, b: seq<Scan>, zone: Zone, id: int)
    requires Scans(State(rules, []), a + b, zone) && Quiet(b, id)
    ensures LastFiring(Log(rules, a + b, zone), id) == LastFiring(Log(rules, a, zone), id)
    decreases |b|
  {
    hide Tick, Fits, LastFiring, Scans, After;
    if b == [] {
      assert a + b == a;
    } else {
      var n := |b| - 1;
      assert a + b == (a + b[..n]) + [b[n]];
      AfterLast(State(rules, []), a + b[..n], b[n], zone);
      QuietKeepsLast(rules, a, b[..n], zone, id);
      TickLast(After(State(rules, []), a + b[..n], zone), b[n], zone, id);
    }
  }

  /** While an interval rule does not fire, every scan from d after its last firing on, or after the scan
      that planned it, is at its limit: the first that is not fires it. */
  lemma IntervalNotMissed(rules: map<int, Rule>, a: seq<Scan>, b: seq<Scan>, zone: Zone, id: int, d: int, i: nat)
    requires Scans(State(rules, []), a + b, zone) && id in rules && rules[id].enabled
    requires rules[id].trigger == Interval(Some(d)) && Since(rules, a, zone, id).Some?
    requires Quiet(b, id) && i < |b|
    ensures b[i].now < Since(rules, a, zone, id).value + d || |b[i].due| == 20
  {
    hide Tick, Scans, LastFiring, Log, PlannedAt, PlanAll;
    PrefixOfRun(rules, a, b, i, zone);
    QuietKeepsLast(rules, a, b[..i], zone, id);
    FiresExactly(rules, a + b[..i], b[i], zone, id);
    assert a + (b[..i] + [b[i]]) == a + b[..i] + [b[i]];
    if PlannedAt(a, id).Some? {
      PlannedStays(a, b[..i] + [b[i]], id);
    }
    assert id !in b[i].due;
    AfterLast(State(rules, []), a + b[..i], b[i], zone);
  }

  lemma PrefixOfRun(rules: map<int, Rule>, a: seq<Scan>, b: seq<Scan>, i: nat, zone: Zone)
    requires Scans(State(rules, []), a + b, zone) && i < |b|
    ensures Scans(State(rules, []), a + b[..i], zone) && Scans(State(rules, []), a + b[..i] + [b[i]], zone)
  {
    hide Tick, Fits, Scans, After;
    assert a + b == (a + b[..i] + [b[i]]) + b[i + 1..];
    AfterConcat(State(rules, []), a + b[..i] + [b[i]], b[i + 1..], zone);
    AfterConcat(State(rules, []), a + b[..i], [b[i]], zone);
  }

  lemma {:induction false} PlannedStays(a: seq<Scan>, b: seq<Scan>, id: int)
    requires PlannedAt(a, id).Some?
    ensures PlannedAt(a + b, id) == PlannedAt(a, id)
  {
    assert (a + b)[1..] == a[1..] + b;
    if id !in a[0].unscheduled {
      PlannedStays(a[1..], b, id);
    }
  }

  /** The first scan that is not at its limit plans every rule that is enabled and has no next run. */
  lemma {:induction false} PlannedSoon(rules: map<int, Rule>, scans: seq<Scan>, scan: Scan, zone: Zone, id: int)
    requires Scans(State(rules, []), scans + [scan], zone) && id in rules && rules[id].enabled && rules[id].next.None?
    requires |scan.unscheduled| < 50
    ensures PlannedAt(scans + [scan], id).Some?
  {
    hide Tick, PlanAll, ComputeNext, Scans, After;
    var s := After(State(rules, []), scans, zone);
    AfterLast(State(rules, []), scans, scan, zone);
    PlannedLast(scans, scan, id);
    if PlannedAt(scans, id).None? {
      NotYetFired(rules, scans, zone, id);
      Stands(rules, scans, zone, id);
      assert Unscheduled(s.rules[id]);
    }
  }

  lemma {:induction false} NotYetFired(rules: map<int, Rule>, scans: seq<Scan>, zone: Zone, id: int)
    requires Scans(State(rules, []), scans, zone) && id in rules && rules[id].enabled && rules[id].next.None?
    requires PlannedAt(scans, id).None?
    ensures LastFiring(Log(rules, scans, zone), id).None?
    decreases |scans|
  {
    hide Tick, PlanAll, FireAll, ComputeNext, Scans, Fits;
    if scans != [] {
      var n := |scans| - 1;
      var a, scan := scans[..n], scans[n];
      assert scans == a + [scan];
      AfterLast(State(rules, []), a, scan, zone);
      PlannedLast(a, scan, id);
      NotYetFired(rules, a, zone, id);
      FiresExactly(rules, a, scan, zone, id);
    }
  }
}
