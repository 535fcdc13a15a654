/** Exactly when a pause keeps an account out of the rest of its request (gateway/server.go,
    account/service.go). */
module ServePauses {
  import opened Accounts
  import opened Envelope
  import opened Router
  import opened Serve
  import opened ServeProofs
  import opened Text

  /** The account of attempt k is attempted once more. */
  ghost predicate Again(trace: seq<Action>, k: nat) {
    k < |trace| && trace[k].Chat? && trace[k].account.Some?
    && exists i :: k < i < |trace| && trace[i].Chat? && trace[i].account == trace[k].account
  }

  /** Attempt k, if it comes to it, fails with a status that pauses its account. */
  predicate PausesAt(w: World, k: nat, status: int) {
    w.hasService && Judge(w, k).Trouble? && Judge(w, k).status == status
  }

  lemma PauseHolds(w: World, e: Entry, t: Table, k: nat, status: int)
    requires w.RouterSound() && EntrySound(w, e, t)
    requires k < 2 && (status == 429 || status == 402) && PausesAt(w, k, status)
    requires Outlasts(w.pickAt, w.pauseAt(k), k, status)
    ensures !Again(Served(w, e, t), k)
  {
    hide EntrySound, FailoverPicks, Genuine, Coherent, Attempts, Judge, Silent, Outlasts;
    var f, n := EveryRequest(w, e, t);
    if Admit(w, e, t).Admitted? {
      var w1 := OnRoute(w, e);
      CoherentChats(w1, 0, 0, f, n);
      SameJudge(w, e, k);
      forall i | k < i < |f.trace| && f.trace[k].Chat? && f.trace[k].account.Some? && f.trace[i].Chat?
        ensures f.trace[i].account != f.trace[k].account
      {
        assert Penalized(w1, 0 + (k - 0), f.trace[k].account);
      }
    }
  }

  lemma SameJudge(w: World, e: Entry, k: nat)
    ensures Judge(OnRoute(w, e), k) == Judge(w, k)
  {
  }

  // ---------- A request that gets the account back ----------

  const FAILING := Route(1, RoundRobin, None, true, true, true, 1, "m")

  function Row(id: int): Account {
    Account(id, "", 0, Active, None, None, 0.0)
  }

  function Offer(t: Table, id: int, now: int): Option<Resolved> {
    if id in t && t[id].id == id && t[id].Selectable(now) then Some(Resolved(Some(t[id]), "p", 1, "m")) else None
  }

  /** Attempts 0 to j fail, each on a new account, attempt k with the given status; then the failover
      hands out the account of attempt k again, if it may. */
  function Comeback(pauseAt: nat -> int, pickAt: nat -> int, k: nat, j: nat, status: int): World {
    World(true, "m", Some(FAILING), true,
          (i: nat) => if i > j then Stream([]) else Stream([TaskFailed(if i == k then status else if i < j then 429 else 500, "")]),
          (i: nat) => Unreachable(""),
          (i: nat, name: string, t: Table) =>
            if i < j && Offer(t, i + 2, pickAt(i)).Some? then Found(Offer(t, i + 2, pickAt(i)).value) else NotRoute,
          (i: nat, t: Table) => if i == j then Offer(t, k + 1, pickAt(i)) else None,
          0, pauseAt, pickAt)
  }

  const THREE: Table := map[1 := Row(1), 2 := Row(2), 3 := Row(3)]

  const ARRIVAL := Entry(Found(Resolved(Some(Row(1)), "p", 1, "m")), None, (m: string) => None, false)

  lemma ComebackIsSound(pauseAt: nat -> int, pickAt: nat -> int, k: nat, j: nat, status: int)
    ensures Comeback(pauseAt, pickAt, k, j, status).RouterSound()
    ensures EntrySound(Comeback(pauseAt, pickAt, k, j, status), ARRIVAL, THREE)
  {
  }

  /** Before attempt i of that request: account i + 1 is at hand, those after it have not been touched,
      and that of attempt k, once it has failed, is paused. */
  ghost predicate Walking(s: Req, i: nat, k: nat, until: int) {
    Walk(s, s.trace, i, i, k, until)
  }

  ghost predicate Walk(s: Req, before: seq<Action>, i: nat, touched: nat, k: nat, until: int) {
    && Keyed(s.table) && (forall id | 1 <= id <= 3 :: id in s.table && s.table[id].status == Active)
    && (forall id | touched < id <= 3 :: s.table[id].pausedUntil == None)
    && (touched > k && k < 3 ==> s.table[k + 1].pausedUntil == Some(until))
    && IdOf(s.account) == Some(i + 1) && !s.failoverUsed
    && |before| == i && forall m | 0 <= m < i :: before[m].Chat? && before[m].account == Some(m + 1)
  }

  /** After the pause of attempt i: the accounts after it are still untouched. */
  ghost predicate Rested(s: Req, i: nat, k: nat, until: int) {
    |s.trace| == i + 1 && Walk(s, s.trace[..i], i, i + 1, k, until)
    && s.trace[i].Chat? && s.trace[i].account == Some(i + 1)
  }

  lemma PauseWalk(s: Req, w: World, i: nat, k: nat, code: int, until: int)
    requires k < 2 && i < 2 && Walking(s, i, k, until) && (i == k ==> until == w.pauseAt(i) + PauseLength(code))
    ensures Rested(Pause(s.(attempts := i + 1).Do(ChatCall(s)), w, i, code), i, k, until)
  {
    hide PauseLength;
    var s1 := Pause(s.(attempts := i + 1).Do(ChatCall(s)), w, i, code);
    assert s1.trace[..i] == s.trace;
    assert s1.table == s.table[i + 1 := s.table[i + 1].(pausedUntil := Some(w.pauseAt(i) + PauseLength(code)))];
  }

  lemma SwitchWalk(s: Req, w: World, i: nat, k: nat, until: int, a: Account)
    requires k < 2 && i < 2 && Rested(s, i, k, until) && i + 2 in s.table && s.table[i + 2] == a
    requires w.resolve(i, w.origModel, s.table) == Found(Resolved(Some(a), "p", 1, "m"))
    ensures SwitchAccount(s, w, i).1 && Walking(SwitchAccount(s, w, i).0, i + 1, k, until)
  {
    var s1 := SwitchAccount(s, w, i).0;
    assert s1.trace[..i] == s.trace[..i];
    assert forall m | 0 <= m < i :: s1.trace[m] == s.trace[..i][m];
  }

  lemma RestedOffer(s: Req, i: nat, k: nat, until: int, now: int)
    requires i < 2 && Rested(s, i, k, until)
    ensures i + 2 in s.table && Offer(s.table, i + 2, now) == Some(Resolved(Some(s.table[i + 2]), "p", 1, "m"))
  {
  }

  lemma WalkOn(s: Req, i: nat, pauseAt: nat -> int, pickAt: nat -> int, k: nat, j: nat, status: int)
    requires k < 2 && k <= j < 3 && i < j && (status == 429 || status == 402)
    requires Walking(s, i, k, pauseAt(k) + PauseLength(status))
    ensures var w := Comeback(pauseAt, pickAt, k, j, status);
            Judge(w, i).Trouble?
            && var s1 := s.(attempts := i + 1).Do(ChatCall(s));
               var (s2, retry, transient) := RecoverFrom(s1, w, i, Judge(w, i).status);
               retry && Walking(s2, i + 1, k, pauseAt(k) + PauseLength(status))
  {
    hide Walking, Rested, Pause, SwitchAccount, Comeback, Judge, Offer;
    var w := Comeback(pauseAt, pickAt, k, j, status);
    var s1 := s.(attempts := i + 1).Do(ChatCall(s));
    var code := if i == k then status else 429;
    ComebackTroubles(pauseAt, pickAt, k, j, status, i);
    WalkerIs(s, i, k, pauseAt(k) + PauseLength(status));
    var p := Pause(s1, w, i, code);
    var until := pauseAt(k) + PauseLength(status);
    PauseWalk(s, w, i, k, code, until);
    RestedOffer(p, i, k, until, pickAt(i));
    ComebackResolves(pauseAt, pickAt, k, j, status, i, Comeback(pauseAt, pickAt, k, j, status).origModel, p.table);
    SwitchWalk(p, w, i, k, until, p.table[i + 2]);
  }

  lemma ComebackTroubles(pauseAt: nat -> int, pickAt: nat -> int, k: nat, j: nat, status: int, i: nat)
    requires i <= j && status != 0
    ensures var w := Comeback(pauseAt, pickAt, k, j, status);
            && w.hasService && w.pauseAt == pauseAt && w.pickAt == pickAt
            && Judge(w, i) == Trouble(Upstream, if i == k then status else if i < j then 429 else 500, "")
  {
  }

  lemma ComebackResolves(pauseAt: nat -> int, pickAt: nat -> int, k: nat, j: nat, status: int, i: nat, name: string, t: Table)
    requires i < j && Offer(t, i + 2, pickAt(i)).Some?
    ensures Comeback(pauseAt, pickAt, k, j, status).resolve(i, name, t) == Found(Offer(t, i + 2, pickAt(i)).value)
  {
  }

  lemma WalkerIs(s: Req, i: nat, k: nat, until: int)
    requires Walking(s, i, k, until)
    ensures IdOf(s.account) == Some(i + 1)
  {
  }

  lemma WalkBack(s: Req, pauseAt: nat -> int, pickAt: nat -> int, k: nat, j: nat, status: int)
    requires k < 2 && k <= j < 3 && (status == 429 || status == 402)
    requires Walking(s, j, k, pauseAt(k) + PauseLength(status)) && pickAt(j) > pauseAt(k) + PauseLength(status)
    ensures var w := Comeback(pauseAt, pickAt, k, j, status);
            Judge(w, j).Trouble?
            && var s1 := s.(attempts := j + 1).Do(ChatCall(s));
               var (s2, retry, transient) := RecoverFrom(s1, w, j, Judge(w, j).status);
               retry && IdOf(s2.account) == Some(k + 1) && s2.trace == s1.trace
  {
    var w := Comeback(pauseAt, pickAt, k, j, status);
    var s1 := s.(attempts := j + 1).Do(ChatCall(s));
    var code := if j == k then status else 500;
    assert Judge(w, j) == Trouble(Upstream, code, "");
    if j == k {
      var p := Pause(s1, w, j, code);
      assert Offer(p.table, k + 1, pickAt(j)).Some?;
    } else {
      assert Offer(s1.table, k + 1, pickAt(j)).Some?;
    }
  }

  lemma LastWalk(s: Req, pauseAt: nat -> int, pickAt: nat -> int, k: nat, j: nat, status: int)
    requires s.trace != []
    ensures var w := Comeback(pauseAt, pickAt, k, j, status);
            s.trace + [ChatCall(s)] <= Attempts(s, w, j + 1).trace
  {
    assert Judge(Comeback(pauseAt, pickAt, k, j, status), j + 1) == Over;
  }

  lemma {:induction false} WalkFrom(s: Req, i: nat, pauseAt: nat -> int, pickAt: nat -> int, k: nat, j: nat, status: int)
    requires k < 2 && k <= j < 3 && i <= j && (status == 429 || status == 402)
    requires Walking(s, i, k, pauseAt(k) + PauseLength(status)) && pickAt(j) > pauseAt(k) + PauseLength(status)
    ensures Again(Attempts(s, Comeback(pauseAt, pickAt, k, j, status), i).trace, k)
    decreases j - i
  {
    hide RecoverFrom, Judge, Comeback, PauseLength;
    var w := Comeback(pauseAt, pickAt, k, j, status);
    var s1 := s.(attempts := i + 1).Do(ChatCall(s));
    if i < j {
      WalkOn(s, i, pauseAt, pickAt, k, j, status);
      var s2 := RecoverFrom(s1, w, i, Judge(w, i).status).0;
      hide Walking, Again;
      WalkFrom(s2, i + 1, pauseAt, pickAt, k, j, status);
    } else {
      WalkBack(s, pauseAt, pickAt, k, j, status);
      var s2 := RecoverFrom(s1, w, i, Judge(w, i).status).0;
      LastWalk(s2, pauseAt, pickAt, k, j, status);
      var trace := Attempts(s, w, i).trace;
      assert s1.trace[i] == ChatCall(s);
      assert trace == Attempts(s2, w, i + 1).trace;
      assert s2.trace + [ChatCall(s2)] <= trace;
      assert trace[j + 1] == ChatCall(s2) && trace[k] == s1.trace[k];
    }
  }

  lemma ComesBack(pauseAt: nat -> int, pickAt: nat -> int, k: nat, j: nat, status: int)
    requires k < 2 && k <= j < 3 && (status == 429 || status == 402)
    requires pickAt(j) > pauseAt(k) + PauseLength(status)
    ensures var w := Comeback(pauseAt, pickAt, k, j, status);
            w.RouterSound() && EntrySound(w, ARRIVAL, THREE) && PausesAt(w, k, status) && Again(Served(w, ARRIVAL, THREE), k)
  {
    hide Attempts, Again, EntrySound, Comeback, Walking, Admit, PauseLength, Judge;
    ComebackIsSound(pauseAt, pickAt, k, j, status);
    ComebackStarts(pauseAt, pickAt, k, j, status);
    ComebackTroubles(pauseAt, pickAt, k, j, status, k);
    WalkFrom(Admit(Comeback(pauseAt, pickAt, k, j, status), ARRIVAL, THREE).start, 0, pauseAt, pickAt, k, j, status);
  }

  lemma ComebackStarts(pauseAt: nat -> int, pickAt: nat -> int, k: nat, j: nat, status: int)
    ensures var w := Comeback(pauseAt, pickAt, k, j, status);
            && OnRoute(w, ARRIVAL) == w && Admit(w, ARRIVAL, THREE).Admitted?
            && Walking(Admit(w, ARRIVAL, THREE).start, 0, k, pauseAt(k) + PauseLength(status))
  {
  }

  /** For any times of pauses and picks: an account paused at attempt k stays out of the rest of its
      request, whatever router, plugins and tables there are, exactly if no later pick of the request
      comes after the end of that pause. */
  lemma PausesHoldExactly(pauseAt: nat -> int, pickAt: nat -> int, k: nat, status: int)
    requires k < 2 && (status == 429 || status == 402)
    ensures (forall w: World, e: Entry, t: Table | w.pauseAt == pauseAt && w.pickAt == pickAt && w.RouterSound()
                                                   && EntrySound(w, e, t) && PausesAt(w, k, status) ::
               !Again(Served(w, e, t), k))
            <==> Outlasts(pickAt, pauseAt(k), k, status)
  {
    hide EntrySound, PausesAt, Again, Served, Comeback;
    if Outlasts(pickAt, pauseAt(k), k, status) {
      forall w: World, e: Entry, t: Table | w.pauseAt == pauseAt && w.pickAt == pickAt && w.RouterSound()
                                            && EntrySound(w, e, t) && PausesAt(w, k, status)
        ensures !Again(Served(w, e, t), k)
      {
        PauseHolds(w, e, t, k, status);
      }
    } else {
      var j: nat :| k <= j < 3 && pickAt(j) > pauseAt(k) + PauseLength(status);
      ComesBack(pauseAt, pickAt, k, j, status);
      ComebackTimes(pauseAt, pickAt, k, j, status);
    }
  }

  lemma ComebackTimes(pauseAt: nat -> int, pickAt: nat -> int, k: nat, j: nat, status: int)
    ensures Comeback(pauseAt, pickAt, k, j, status).pauseAt == pauseAt
    ensures Comeback(pauseAt, pickAt, k, j, status).pickAt == pickAt
  {
  }

  // ---------- Silence ----------

  /** A plugin that breaks off with code 0. */
  const BROKEN := World(false, "m", None, true, (i: nat) => Stream([TaskFailed(0, "")]), (i: nat) => Unreachable(""),
                        (i: nat, name: string, t: Table) => NotRoute, (i: nat, t: Table) => None, 0, (i: nat) => 0, (i: nat) => 0)

  /** A non-streaming request to it ends with no answer and no log row. */
  lemma SilentRequest()
    ensures BROKEN.RouterSound() && EntrySound(BROKEN, ARRIVAL, THREE)
    ensures |Served(BROKEN, ARRIVAL, THREE)| == 1 && Served(BROKEN, ARRIVAL, THREE)[0].Chat?
    ensures Answers(Served(BROKEN, ARRIVAL, THREE)) == LogRows(Served(BROKEN, ARRIVAL, THREE)) == 0
  {
    assert Failure([TaskFailed(0, "")]) == Some(TaskFailed(0, ""));
    var trace := Served(BROKEN, ARRIVAL, THREE);
    assert trace[..0] == [];
  }
}
