/** What holds of every request, whatever plugins, refreshes and the router do. */
module ServeProofs {
  import opened Accounts
  import opened Router
  import opened Serve
  import opened Text

  // ---------- State between attempts ----------

  /** No recovery from attempt lo on can select the account: it has expired, or is paused beyond
      every pick from then on. There are no picks after the third attempt. */
  ghost predicate Out(w: World, t: Table, id: int, lo: nat) {
    id in t && (t[id].status == Expired
                || (t[id].pausedUntil.Some? && forall j: nat | lo <= j < 3 :: w.pickAt(j) <= t[id].pausedUntil.value))
  }

  predicate Matches(p: Pick, account: Option<int>, plugin: string, group: int, model: string) {
    p.account == account && p.plugin == plugin && p.group == group && p.model == model
  }

  /** The tuple to be attempted comes from the last pick; the account is active and as in the table,
      and the credential is built from it. */
  ghost predicate Ready(s: Req) {
    && Keyed(s.table)
    && s.picks != [] && Matches(s.picks[|s.picks| - 1], IdOf(s.account), s.plugin, s.group, s.model)
    && s.logAccount == IdOf(s.account) && s.logModel == s.model
    && (s.account.None? ==> s.cred.None?)
    && (s.account.Some? ==> CurrentRow(s.table, s.account.value) && s.cred == Some(BuildCred(s.account.value, s.group)))
  }

  /** The row as it is, except that the router may have marked it as used since. */
  predicate CurrentRow(t: Table, a: Account) {
    a.id in t && t[a.id].(lastUsed := a.lastUsed) == a && a.status == Active
  }

  /** Which attempt this can be, given how many retries have been spent. */
  predicate InTime(s: Req, k: nat) {
    k <= if s.failoverUsed then 3 else 2
  }

  /** Every account out of reach stays so, except possibly the one called id. */
  ghost predicate OutStays(w: World, t: Table, t1: Table, id: Option<int>) {
    forall other, lo: nat | Out(w, t, other, lo) && id != Some(other) :: Out(w, t1, other, lo)
  }

  /** The account picked at attempt k is not one that was out of reach by then. */
  ghost predicate Avoids(w: World, s: Req, k: nat) {
    forall id, lo: nat | lo <= k && Out(w, s.table, id, lo) :: IdOf(s.account) != Some(id)
  }

  function FailoverPicks(picks: seq<Pick>): nat {
    if picks == [] then 0 else FailoverPicks(picks[..|picks| - 1]) + if picks[|picks| - 1].failover then 1 else 0
  }

  /** Picks after the first are answers of the router, to a second resolution or for the failover. */
  ghost predicate Genuine(w: World, p: Pick) {
    exists k, t ::
      if p.failover then w.failover(k, t).Some? && Taken(w.failover(k, t).value, p)
      else w.resolve(k, w.origModel, t).Found? && Taken(w.resolve(k, w.origModel, t).target, p)
  }

  predicate Taken(r: Resolved, p: Pick) {
    r.account.Some? && Matches(p, IdOf(r.account), r.plugin, r.group, r.model)
  }

  /** Recovery from s to s1 added router answers to the picks, at most one failover among them. */
  ghost predicate Picked(w: World, s: Req, s1: Req) {
    && s.picks <= s1.picks
    && (forall i | |s.picks| <= i < |s1.picks| :: Genuine(w, s1.picks[i]))
    && FailoverPicks(s1.picks) + (if s.failoverUsed then 1 else 0)
       == FailoverPicks(s.picks) + (if s1.failoverUsed then 1 else 0)
    && (s.failoverUsed ==> s1.failoverUsed)
  }

  // ---------- Each recovery step ----------

  lemma NotingKeeps(w: World, s: Req, account: Option<Account>, now: int)
    ensures var s1 := Noted(s, account, now);
            && OutStays(w, s.table, s1.table, None) && (Keyed(s.table) ==> Keyed(s1.table))
            && s1 == s.(table := s1.table)
  {
  }

  lemma AdoptReady(s: Req, w: World, r: Resolved, isFailover: bool, k: nat)
    requires Keyed(s.table) && r.account.Some? && k < 3 && IsPick(s.table, r.account.value, w.pickAt(k))
    ensures var s1 := Adopt(Noted(s, r.account, w.pickAt(k)), r, isFailover); Ready(s1) && Avoids(w, s1, k)
  {
  }

  lemma SwitchReady(s: Req, w: World, k: nat)
    requires Keyed(s.table) && w.RouterSound() && k < 3
    ensures var (s1, ok) := SwitchAccount(s, w, k);
            && Keyed(s1.table) && OutStays(w, s.table, s1.table, None) && Picked(w, s, s1)
            && s1.failoverUsed == s.failoverUsed
            && (ok ==> Ready(s1) && Avoids(w, s1, k))
            && (!ok ==> s1 == s.(model := w.origModel, table := s1.table))
  {
    hide Ready, Avoids, Out, FailoverPicks, Matches;
    var res := w.resolve(k, w.origModel, s.table);
    NotingKeeps(w, s.(model := w.origModel), AccountOf(res), w.pickAt(k));
    if SwitchAccount(s, w, k).1 {
      AdoptReady(s.(model := w.origModel), w, res.target, false, k);
      AdoptPicked(w, s, SwitchAccount(s, w, k).0, res.target, false, k);
    }
  }

  /** Adopting an answer of the router adds one genuine pick. */
  lemma AdoptPicked(w: World, s: Req, s1: Req, r: Resolved, isFailover: bool, k: nat)
    requires r.account.Some? && (isFailover ==> !s.failoverUsed)
    requires if isFailover then exists t :: w.failover(k, t) == Some(r) else exists t :: w.resolve(k, w.origModel, t) == Found(r)
    requires s1.picks == s.picks + [Pick(IdOf(r.account), r.plugin, r.group, r.model, isFailover)]
    requires s1.failoverUsed == (s.failoverUsed || isFailover)
    ensures Picked(w, s, s1)
  {
    var p := Pick(IdOf(r.account), r.plugin, r.group, r.model, isFailover);
    assert (s.picks + [p])[..|s.picks|] == s.picks;
    assert Taken(r, p);
    if isFailover {
      var t :| w.failover(k, t) == Some(r);
      assert Genuine(w, p);
    } else {
      var t :| w.resolve(k, w.origModel, t) == Found(r);
      assert Genuine(w, p);
    }
  }

  lemma FailoverReady(s: Req, w: World, k: nat, status: int)
    requires Keyed(s.table) && w.RouterSound() && (k < 3 || s.failoverUsed)
    ensures var (s1, ok) := SwitchFailover(s, w, k, status);
            && OutStays(w, s.table, s1.table, None) && Picked(w, s, s1)
            && (ok ==> Ready(s1) && Avoids(w, s1, k) && s1.failoverUsed && !s.failoverUsed)
            && (!ok ==> s1 == s)
  {
    hide Ready, Avoids, Out, FailoverPicks, Matches;
    if SwitchFailover(s, w, k, status).1 {
      var r := w.failover(k, s.table).value;
      NotingKeeps(w, s, r.account, w.pickAt(k));
      AdoptReady(s, w, r, true, k);
      AdoptPicked(w, s, SwitchFailover(s, w, k, status).0, r, true, k);
    }
  }

  /** The pause of attempt k, ten minutes after 429 and a hundred years after 402, covers every pick from
      then on. */
  ghost predicate Outlasts(pickAt: nat -> int, pausedAt: int, k: nat, status: int) {
    forall j: nat | k <= j < 3 :: pickAt(j) <= pausedAt + if status == 429 then 600 else 3_153_600_000
  }

  lemma PauseOut(s: Req, w: World, k: nat, status: int)
    requires Ready(s) && s.account.Some?
    ensures var s1 := Pause(s, w, k, status);
            && Keyed(s1.table) && OutStays(w, s.table, s1.table, IdOf(s.account)) && s1 == s.(table := s1.table)
            && (Outlasts(w.pickAt, w.pauseAt(k), k, status) <==> Out(w, s1.table, s.account.value.id, k))
  {
  }

  /** Refreshing gives a current row again; a refusal with 401 puts the account out of reach. */
  lemma RefreshEffect(s: Req, w: World, k: nat)
    requires Ready(s) && s.account.Some?
    ensures var id := s.account.value.id;
            var (t, outcome) := Refresh(s.table, id, w.refresh(k), w.pauseAt(k));
            && Keyed(t) && OutStays(w, s.table, t, Some(id))
            && (outcome.Fresh? ==> outcome.account.id == id && CurrentRow(t, outcome.account))
            && (w.refresh(k).Reply? && w.refresh(k).code == 401 ==> outcome.AuthFailed? && Out(w, t, id, k))
  {
  }

  predicate Refused(w: World, k: nat) {
    w.refresh(k).Reply? && w.refresh(k).code == 401
  }

  lemma CredentialReady(s: Req, w: World, k: nat)
    requires Ready(s) && w.RouterSound() && k < 3 && s.account.Some? && w.hasService
    ensures var (s1, ok, transient) := RecoverCredential(s, w, k);
            && Keyed(s1.table) && s1.failoverUsed == s.failoverUsed
            && OutStays(w, s.table, s1.table, IdOf(s.account)) && Picked(w, s, s1)
            && (ok ==> Ready(s1) && (Avoids(w, s1, k) || (IdOf(s1.account) == IdOf(s.account) && !Refused(w, k))))
            && (!ok ==> s1.logAccount == s.logAccount && s1.logModel == s.logModel)
            && (Refused(w, k) ==> Out(w, s1.table, s.account.value.id, k))
  {
    hide Out, SwitchAccount, FailoverPicks, Avoids, Genuine, Refresh, Ready, CurrentRow;
    RefreshEffect(s, w, k);
    var id := s.account.value.id;
    var t := Refresh(s.table, id, w.refresh(k), w.pauseAt(k)).0;
    var outcome := Refresh(s.table, id, w.refresh(k), w.pauseAt(k)).1;
    if outcome.Fresh? {
      RefreshedReady(s, t, outcome.account);
    } else if outcome.AuthFailed? {
      LogsReady(s);
      SwitchReady(s.(table := t), w, k);
    }
  }

  lemma RefreshedReady(s: Req, t: Table, a: Account)
    requires Ready(s) && IdOf(s.account) == Some(a.id) && Keyed(t) && CurrentRow(t, a)
    ensures Ready(s.(table := t, account := Some(a), cred := Some(BuildCred(a, s.group)), logAccount := Some(a.id)))
  {
  }

  lemma LogsReady(s: Req)
    requires Ready(s)
    ensures s.logModel == s.model && s.logAccount == IdOf(s.account)
  {
  }

  /** What costs an attempt its account: 401 with a refresh itself refused by 401, or 429 and 402 if
      the pause covers the picks still to come. */
  ghost predicate Penalized(w: World, k: nat, account: Option<int>) {
    && account.Some? && w.hasService && k < 2 && Judge(w, k).Trouble?
    && var status := Judge(w, k).status;
       || (status == 401 && Refused(w, k))
       || ((status == 429 || status == 402) && Outlasts(w.pickAt, w.pauseAt(k), k, status))
  }

  /** The next account is neither out of reach nor, if this one was given up, the same again. */
  ghost predicate Moves(w: World, from: Option<int>, s1: Req, k: nat) {
    forall id, lo: nat | lo <= k && Out(w, s1.table, id, lo) && IdOf(s1.account) == Some(id) ::
      from == Some(id) && !Penalized(w, k, from)
  }

  /** Recovery either makes the next attempt ready, or leaves what the log row will say alone. */
  lemma RecoverReady(s: Req, w: World, k: nat, status: int)
    requires Ready(s) && InTime(s, k) && w.RouterSound()
    requires Judge(w, k).Trouble? && status == Judge(w, k).status
    ensures var (s1, retry, transient) := RecoverFrom(s, w, k, status);
            && OutStays(w, s.table, s1.table, IdOf(s.account)) && Picked(w, s, s1)
            && (if retry then Ready(s1) && InTime(s1, k + 1) && Moves(w, IdOf(s.account), s1, k)
                else s1.logAccount == s.logAccount && s1.logModel == s.logModel)
            && (Penalized(w, k, IdOf(s.account)) ==> Out(w, s1.table, s.account.value.id, k))
  {
    hide Ready, Out, Pause, SwitchAccount, SwitchFailover, RecoverCredential, FailoverPicks, Judge, Genuine, Outlasts, Refused;
    var able := s.account.Some? && w.hasService && k < 2;
    ReadyKeyed(s);
    if status == 401 && able {
      CredentialReady(s, w, k);
      FailoverReady(RecoverCredential(s, w, k).0, w, k, status);
    } else if (status == 429 || status == 402) && able {
      PauseOut(s, w, k, status);
      var s0 := Pause(s, w, k, status);
      SwitchReady(s0, w, k);
      FailoverReady(SwitchAccount(s0, w, k).0, w, k, status);
    } else {
      FailoverReady(s, w, k, status);
    }
  }

  lemma ReadyKeyed(s: Req)
    requires Ready(s)
    ensures Keyed(s.table)
  {
  }

  // ---------- Whole requests ----------

  /** The attempted tuple is one pick; the credential is of the picked account, as its row in the
      table stands at that moment, with the picked group. */
  ghost predicate Coherent(a: Action, picks: seq<Pick>) {
    && a.Chat?
    && (exists i | 0 <= i < |picks| :: Matches(picks[i], a.account, a.plugin, a.group, a.model))
    && (a.account.None? ==> a.cred.None?)
    && (a.account.Some? ==> a.account.value in a.table && a.table[a.account.value].status == Active
                            && a.cred == Some(BuildCred(a.table[a.account.value], a.group)))
  }

  /** The status a log row must carry for what was written to the client. */
  function StatusOf(body: Body): int {
    match body
    case Sse(_, failure) => if failure.None? then 200 else 502
    case Aggregated(_) => 200
    case ErrorBody(status, _, _) => status
  }

  /** After s only one answer, and the log row that records it. */
  predicate Finished(s: Req, f: Req) {
    var n := |s.trace|;
    && |f.trace| == n + 2 && s.trace <= f.trace && f.trace[n].Answer?
    && f.trace[n + 1] == LogRow(StatusOf(f.trace[n].body), s.logAccount, s.logModel, s.attempts)
  }

  /** From position base of the trace: n attempts, starting with attempt k; then one answer and
      one log row about the last attempt, or nothing if that attempt ended in silence. */
  ghost predicate Course(w: World, k: nat, base: nat, f: Req, n: nat) {
    && n >= 1 && base + n <= |f.trace|
    && (forall i | base <= i < base + n :: Coherent(f.trace[i], f.picks))
    && (if Silent(w, k + n - 1) then |f.trace| == base + n
        else
          var last := f.trace[base + n - 1];
          && |f.trace| == base + n + 2 && f.trace[base + n].Answer?
          && f.trace[base + n + 1] == LogRow(StatusOf(f.trace[base + n].body), last.account, last.model, k + n))
  }

  /** No later attempt uses an account that an earlier one paused or expired. */
  ghost predicate NoneReused(w: World, k: nat, base: nat, f: Req, n: nat)
    requires Course(w, k, base, f, n)
  {
    forall i, j | base <= i < j < base + n ::
      Penalized(w, k + (i - base), f.trace[i].account) ==> f.trace[j].account != f.trace[i].account
  }

  /** No account that was out of reach before the first of these attempts is used by one, unless it is
      the account that attempt starts with. */
  ghost predicate OutUnused(w: World, s: Req, k: nat, f: Req, n: nat)
    requires |s.trace| + n <= |f.trace| && forall i | |s.trace| <= i < |s.trace| + n :: f.trace[i].Chat?
  {
    forall i, id, lo: nat | |s.trace| <= i < |s.trace| + n && lo < k && Out(w, s.table, id, lo) && IdOf(s.account) != Some(id) ::
      f.trace[i].account != Some(id)
  }

  // ---------- The induction over attempts ----------

  lemma ChatCoherent(s: Req, w: World, f: Req)
    requires Ready(s) && s.picks <= f.picks
    ensures Coherent(ChatCall(s), f.picks)
  {
    var i := |s.picks| - 1;
    assert Matches(f.picks[i], IdOf(s.account), s.plugin, s.group, s.model);
  }

  lemma TroubleIsLoud(w: World, k: nat)
    requires Judge(w, k).Trouble?
    ensures !Silent(w, k)
  {
  }

  /** The shape of the trace when attempt k is the last one. */
  lemma LastAttempt(s: Req, s2: Req, w: World, k: nat, f: Req)
    requires Ready(s) && s.picks <= f.picks
    requires s2.trace == s.trace + [ChatCall(s)] && s2.attempts == k + 1
    requires s2.logAccount == s.logAccount && s2.logModel == s.logModel
    requires if Silent(w, k) then f.trace == s2.trace else Finished(s2, f)
    ensures s.trace <= f.trace && Course(w, k, |s.trace|, f, 1)
    ensures OutUnused(w, s, k, f, 1) && NoneReused(w, k, |s.trace|, f, 1)
  {
    ChatCoherent(s, w, f);
    assert f.trace[|s.trace|] == ChatCall(s);
    hide Coherent, Out;
  }

  lemma OverFinishes(s: Req, w: World, k: nat)
    requires Judge(w, k).Over?
    ensures Conclude(s, w, k).picks == s.picks && Conclude(s, w, k).failoverUsed == s.failoverUsed
    ensures if Silent(w, k) then Conclude(s, w, k) == s else Finished(s, Conclude(s, w, k))
  {
  }

  lemma GiveUpFinishes(s: Req, v: Verdict, transient: Option<string>)
    requires v.Trouble?
    ensures GiveUp(s, v, transient).picks == s.picks && GiveUp(s, v, transient).failoverUsed == s.failoverUsed
    ensures Finished(s, GiveUp(s, v, transient))
  {
  }

  lemma CoherentChats(w: World, k: nat, base: nat, f: Req, n: nat)
    requires Course(w, k, base, f, n)
    ensures forall i | base <= i < base + n :: f.trace[i].Chat?
  {
  }

  /** One more attempt in front of a course. */
  lemma Prepend(s: Req, s2: Req, w: World, k: nat, f: Req, n: nat)
    requires Ready(s) && s.picks <= f.picks
    requires s2.trace == s.trace + [ChatCall(s)] && s2.trace <= f.trace
    requires Course(w, k + 1, |s2.trace|, f, n) && OutUnused(w, s2, k + 1, f, n)
    requires NoneReused(w, k + 1, |s2.trace|, f, n)
    requires OutStays(w, s.table, s2.table, IdOf(s.account)) && Moves(w, IdOf(s.account), s2, k)
    requires Penalized(w, k, IdOf(s.account)) ==> Out(w, s2.table, s.account.value.id, k)
    ensures s.trace <= f.trace && Course(w, k, |s.trace|, f, n + 1)
    ensures OutUnused(w, s, k, f, n + 1)
    ensures NoneReused(w, k, |s.trace|, f, n + 1)
  {
    hide Coherent, Out, Ready, Silent, Judge, Outlasts, Refused;
    var base := |s.trace|;
    ChatCoherent(s, w, f);
    assert f.trace[base] == ChatCall(s);
    CoherentChats(w, k + 1, base + 1, f, n);
    forall i, id, lo: nat | base <= i < base + n + 1 && lo < k && Out(w, s.table, id, lo) && IdOf(s.account) != Some(id)
      ensures f.trace[i].account != Some(id)
    {
      assert Out(w, s2.table, id, lo);
    }
    forall i, j | base <= i < j < base + n + 1 && Penalized(w, k + (i - base), f.trace[i].account)
      ensures f.trace[j].account != f.trace[i].account
    {
      assert i > base ==> Penalized(w, (k + 1) + (i - (base + 1)), f.trace[i].account);
    }
  }

  lemma PickedAgain(w: World, s: Req, s1: Req, s2: Req)
    requires Picked(w, s, s1) && Picked(w, s1, s2)
    ensures Picked(w, s, s2)
  {
    hide Genuine, FailoverPicks;
    assert forall i | 0 <= i < |s1.picks| :: s2.picks[i] == s1.picks[i];
  }

  /** From any ready state on: few attempts, in the shape of Course, none on an account given up. */
  lemma {:induction false} Courses(s: Req, w: World, k: nat) returns (n: nat)
    requires Ready(s) && InTime(s, k) && w.RouterSound()
    ensures var f := Attempts(s, w, k);
            && 1 <= n <= Budget(s, k) + 1
            && s.trace <= f.trace && Picked(w, s, f)
            && Course(w, k, |s.trace|, f, n) && NoneReused(w, k, |s.trace|, f, n)
            && OutUnused(w, s, k, f, n)
    decreases Budget(s, k)
  {
    hide Ready, Out, Genuine, Course, OutUnused, NoneReused, Penalized, RecoverFrom, Conclude, GiveUp, Judge, Silent,
         FailoverPicks, Moves, OutStays;
    var f := Attempts(s, w, k);
    var s1 := s.(attempts := k + 1).Do(ChatCall(s));
    var v := Judge(w, k);
    if v.Over? {
      OverFinishes(s1, w, k);
      LastAttempt(s, s1, w, k, f);
      n := 1;
    } else {
      ReadyWithTrace(s, s1);
      RetryCosts(s1, w, k, v.status);
      RecoverReady(s1, w, k, v.status);
      var s2 := RecoverFrom(s1, w, k, v.status).0;
      if RecoverFrom(s1, w, k, v.status).1 {
        var m := Courses(s2, w, k + 1);
        Prepend(s, s2, w, k, f, m);
        PickedAgain(w, s, s2, f);
        n := m + 1;
      } else {
        TroubleIsLoud(w, k);
        GiveUpFinishes(s2, v, RecoverFrom(s1, w, k, v.status).2);
        LastAttempt(s, s2, w, k, f);
        n := 1;
      }
    }
  }

  lemma ReadyWithTrace(s: Req, s1: Req)
    requires Ready(s) && s1 == s.(attempts := s1.attempts, trace := s1.trace)
    ensures Ready(s1)
  {
  }

  // ---------- Main results ----------

  /** What the request finds on arrival: accounts stored under their own id, and a first account,
      if any, picked from them. */
  ghost predicate EntrySound(w: World, e: Entry, t: Table) {
    && Keyed(t)
    && ((e.first.Found? && e.first.target.account.Some?) ==> IsPick(t, e.first.target.account.value, w.startAt))
    && ((e.direct.Some? && e.direct.value.account.Some?) ==> IsPick(t, e.direct.value.account.value, w.startAt))
  }

  lemma StartReady(w: World, e: Entry, t: Table)
    requires EntrySound(w, e, t) && Admit(w, e, t).Admitted?
    ensures Ready(Admit(w, e, t).start) && InTime(Admit(w, e, t).start, 0)
    ensures !Admit(w, e, t).start.failoverUsed && Admit(w, e, t).start.trace == []
    ensures FailoverPicks(Admit(w, e, t).start.picks) == 0
  {
  }

  /** A rejected request is answered at once and never reaches a plugin. Any other makes one to four
      attempts, at most one of them on a failover pick; each attempt is coherent; no account that
      was given up is attempted again; nothing is answered before the last attempt, and then there
      is one answer and one log row, unless the last attempt ended in silence. */
  lemma EveryRequest(w: World, e: Entry, t: Table) returns (f: Req, n: nat)
    requires w.RouterSound() && EntrySound(w, e, t)
    ensures if Admit(w, e, t).Rejected? then
              Served(w, e, t) == [Answer(ErrorBody(Admit(w, e, t).status, Admit(w, e, t).errorType, w.origModel))]
            else
              var w1 := OnRoute(w, e);
              && Served(w, e, t) == f.trace && 1 <= n <= 4
              && Course(w1, 0, 0, f, n) && NoneReused(w1, 0, 0, f, n)
              && FailoverPicks(f.picks) <= 1 && f.picks != [] && f.picks[0] == Admit(w, e, t).start.picks[0]
              && (forall i | 1 <= i < |f.picks| :: Genuine(w1, f.picks[i]))
  {
    hide Ready, Course, NoneReused, OutUnused, Genuine, FailoverPicks;
    if Admit(w, e, t).Admitted? {
      var s := Admit(w, e, t).start;
      StartReady(w, e, t);
      f := Attempts(s, OnRoute(w, e), 0);
      n := Courses(s, OnRoute(w, e), 0);
    } else {
      f, n := Start(None, "", 0, "", t), 0;
    }
  }

  function Answers(trace: seq<Action>): nat {
    if trace == [] then 0 else Answers(trace[..|trace| - 1]) + if trace[|trace| - 1].Answer? then 1 else 0
  }

  function LogRows(trace: seq<Action>): nat {
    if trace == [] then 0 else LogRows(trace[..|trace| - 1]) + if trace[|trace| - 1].LogRow? then 1 else 0
  }

  lemma {:induction false} ChatsOnly(trace: seq<Action>)
    requires forall a <- trace :: a.Chat?
    ensures Answers(trace) == 0 && LogRows(trace) == 0
  {
    if trace != [] {
      ChatsOnly(trace[..|trace| - 1]);
      assert trace[|trace| - 1] in trace;
    }
  }

  /** An admitted request is answered and logged exactly once if its last attempt is not silent,
      and neither answered nor logged if it is. */
  lemma AnsweredOnce(w: World, f: Req, n: nat)
    requires Course(w, 0, 0, f, n)
    ensures Answers(f.trace) == LogRows(f.trace) == if Silent(w, n - 1) then 0 else 1
  {
    CoherentChats(w, 0, 0, f, n);
    hide Coherent, Silent;
    ChatsOnly(f.trace[..n]);
    if Silent(w, n - 1) {
      assert f.trace[..n] == f.trace;
    } else {
      assert f.trace[..n + 1][..n] == f.trace[..n];
      assert f.trace[..n + 2] == f.trace;
    }
  }

  /** With failure codes that are never zero no attempt is silent. */
  lemma NonZeroIsLoud(w: World, k: nat)
    requires w.chat(k).Stream? ==> forall e <- w.chat(k).events :: e.TaskFailed? ==> e.code != 0
    ensures !Silent(w, k)
  {
    if w.chat(k).Stream? {
      FailureSpec(w.chat(k).events);
    }
  }

  /** With failure codes that are never zero every request is answered exactly once, after at most
      four attempts, and logged once if it was admitted. */
  lemma ExactlyOneAnswer(w: World, e: Entry, t: Table)
    requires w.RouterSound() && EntrySound(w, e, t)
    requires forall k: nat | k < 4 && w.chat(k).Stream? :: forall ev <- w.chat(k).events :: ev.TaskFailed? ==> ev.code != 0
    ensures Answers(Served(w, e, t)) == 1
    ensures LogRows(Served(w, e, t)) == if Admit(w, e, t).Admitted? then 1 else 0
    ensures |Served(w, e, t)| <= 6
  {
    hide EntrySound, Course, NoneReused, FailoverPicks, Genuine;
    var f, n := EveryRequest(w, e, t);
    if Admit(w, e, t).Admitted? {
      AnsweredOnce(OnRoute(w, e), f, n);
      NonZeroIsLoud(OnRoute(w, e), n - 1);
      CourseLength(OnRoute(w, e), f, n);
    } else {
      assert Served(w, e, t)[..0] == [];
    }
  }

  lemma CourseLength(w: World, f: Req, n: nat)
    requires Course(w, 0, 0, f, n)
    ensures |f.trace| <= n + 2
  {
  }
}
