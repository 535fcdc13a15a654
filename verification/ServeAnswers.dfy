/** What the client of a request gets, and why each attempt is made: read off the outside world and the
    attempts themselves. */
module ServeAnswers {
  import opened Accounts
  import opened Envelope
  import opened Router
  import opened Serve
  import opened ServeProofs
  import opened Text

  // ---------- The answer ----------

  /** How many events come before the first failure. */
  function Cut(events: seq<Event>): (m: nat)
    ensures m <= |events| && (m < |events| ==> events[m].TaskFailed?)
    ensures forall i | 0 <= i < m :: !events[i].TaskFailed?
  {
    if events == [] || events[0].TaskFailed? then 0 else 1 + Cut(events[1..])
  }

  /** The status that attempt k has to recover from, if it is in trouble: a stream is past that once an
      event has been written, and a failure with code 0 is none. */
  function Troubled(w: World, k: nat): Option<int> {
    match w.chat(k)
    case ChannelError(_) => Some(502)
    case NoEvent => Some(504)
    case Stream(events) =>
      var m := Cut(events);
      if m < |events| && events[m].code != 0 && (m == 0 || !w.stream) then Some(events[m].code) else None
  }

  /** The account can be repaired or replaced: only on behalf of the first two attempts. */
  predicate Able(w: World, k: nat, account: Option<int>) {
    account.Some? && w.hasService && k < 2
  }

  /** The plugin could not be asked for a new credential. */
  predicate Unreached(w: World, k: nat, account: Option<int>) {
    Able(w, k, account) && Troubled(w, k) == Some(401) && w.refresh(k).Unreachable?
  }

  /** The one answer after attempt k on this account. */
  predicate Fitting(w: World, k: nat, account: Option<int>, body: Body) {
    match w.chat(k)
    case ChannelError(message) => body == ErrorBody(502, "upstream_error", message)
    case NoEvent => body == ErrorBody(504, "upstream_error", "upstream produced no events in time")
    case Stream(events) =>
      var m := Cut(events);
      if m == |events| then body == if w.stream then Sse(events, None) else Aggregated(events)
      else if Troubled(w, k).None? then w.stream && body == Sse(events[..m], Some(events[m].message))
      else if Unreached(w, k, account) then body == ErrorBody(502, "upstream_error", w.refresh(k).message)
      else if events[m].code == 401 then
        body == ErrorBody(503, "api_error", "no active account available (credential failed and failover exhausted)")
      else body == ErrorBody(502, "api_error", events[m].message)
  }

  /** A non-streaming answer that breaks off with a failure of code 0 is neither answered nor retried. */
  predicate Unanswered(w: World, k: nat) {
    w.chat(k).Stream? && !w.stream &&
    var events := w.chat(k).events;
    Cut(events) < |events| && events[Cut(events)].code == 0
  }

  lemma {:induction false} CutIsFailure(events: seq<Event>)
    ensures var m := Cut(events);
            && Delivered(events) == events[..m]
            && Failure(events) == if m == |events| then None else Some(events[m])
  {
    if events != [] && !events[0].TaskFailed? {
      CutIsFailure(events[1..]);
      var m := Cut(events);
      assert events[..m] == [events[0]] + events[1..][..m - 1];
    }
  }

  lemma TroubledIsTrouble(w: World, k: nat)
    ensures Judge(w, k).Trouble? <==> Troubled(w, k).Some?
    ensures Judge(w, k).Trouble? ==> Judge(w, k).status == Troubled(w, k).value
    ensures Silent(w, k) <==> Unanswered(w, k)
  {
    if w.chat(k).Stream? {
      CutIsFailure(w.chat(k).events);
    }
  }

  // ---------- The next attempt ----------

  /** What an attempt uses: an account of the router's answer, its plugin, group and model, and the
      credential of that account with that group. */
  predicate Uses(a: Action, r: Resolved) {
    && r.account.Some? && a.Chat?
    && a.account == Some(r.account.value.id) && a.plugin == r.plugin && a.group == r.group && a.model == r.model
    && a.cred == Some(Cred(r.account.value.id, r.account.value.blob, r.account.value.refreshedAt, r.group))
  }

  predicate Renewable(w: World, k: nat, account: Option<int>) {
    Able(w, k, account) && Troubled(w, k) == Some(401) && w.refresh(k).Reply? && w.refresh(k).code == 0
  }

  /** Another account is asked for: the credential is dead, or the account is paused. */
  predicate Replacing(w: World, k: nat, account: Option<int>) {
    && Able(w, k, account)
    && (Troubled(w, k) in [Some(429), Some(402)]
        || (Troubled(w, k) == Some(401) && w.refresh(k).Reply? && w.refresh(k).code != 0))
  }

  /** The row of the account that another is asked for instead of: expired if its refresh was refused with
      401, paused for ten minutes after 429 and for a hundred years after 402. */
  function Spoiled(w: World, k: nat, row: Account): Account {
    if Troubled(w, k) == Some(429) then row.(pausedUntil := Some(w.pauseAt(k) + 600))
    else if Troubled(w, k) == Some(402) then row.(pausedUntil := Some(w.pauseAt(k) + 3_153_600_000))
    else if w.refresh(k).Reply? && w.refresh(k).code == 401 then row.(status := Expired)
    else row
  }

  function TableAfter(w: World, k: nat, a: Action): Table
    requires a.Chat?
  {
    if Replacing(w, k, a.account) && a.account.value in a.table
    then a.table[a.account.value := Spoiled(w, k, a.table[a.account.value])] else a.table
  }

  /** What the router answers then under the public model name, if it is another account. */
  function Another(w: World, k: nat, a: Action): Option<Resolved>
    requires a.Chat?
  {
    var res := w.resolve(k, w.origModel, TableAfter(w, k, a));
    if Replacing(w, k, a.account) && res.Found? && res.target.account.Some? && a.account != Some(res.target.account.value.id)
    then Some(res.target) else None
  }

  /** The route allows failing over for this class of statuses. */
  predicate FailoverOpen(w: World, status: int) {
    && w.route.Some? && w.route.value.failoverEnabled
    && ((400 <= status < 500 && w.route.value.on4xx) || (status >= 500 && w.route.value.on5xx))
  }

  /** The same rows, apart from when they were last used. */
  ghost predicate SameButUse(t: Table, u: Table) {
    t.Keys == u.Keys && forall id <- t :: t[id].(lastUsed := None) == u[id].(lastUsed := None)
  }

  function UsedAt(t: Table, id: int, now: int): Table {
    if id in t then t[id := t[id].(lastUsed := Some(now))] else t
  }

  /** The attempt after a refresh: the same account, plugin, group and model, with the new blob, or the old
      one if none was sent, dated now; its row is active and has the new blob, date and amount. */
  predicate Renewed(w: World, k: nat, a: Action, b: Action)
    requires a.Chat? && w.refresh(k).Reply?
  {
    && b.Chat? && a.account.Some? && a.account.value in a.table && a.cred.Some?
    && b.account == a.account && b.plugin == a.plugin && b.group == a.group && b.model == a.model
    && var id, reply := a.account.value, w.refresh(k);
       var blob := if reply.blob == "" then a.cred.value.blob else reply.blob;
    && b.cred == Some(Cred(id, blob, w.pauseAt(k), a.group))
    && b.table == a.table[id := a.table[id].(status := Active, blob := blob, refreshedAt := w.pauseAt(k),
                                             expiring := if reply.expiring.None? then a.table[id].expiring else reply.expiring.value)]
  }

  /** Attempt b follows attempt a, which was the k-th, in trouble. */
  ghost predicate Follows(w: World, k: nat, a: Action, b: Action)
    requires a.Chat?
  {
    && Troubled(w, k).Some? && !Unreached(w, k, a.account)
    && if Renewable(w, k, a.account) then Renewed(w, k, a, b)
       else if Another(w, k, a).Some? then
         && Uses(b, Another(w, k, a).value)
         && b.table == UsedAt(TableAfter(w, k, a), b.account.value, w.pickAt(k))
       else
         && FailoverOpen(w, Troubled(w, k).value)
         && (exists t :: SameButUse(t, TableAfter(w, k, a)) && w.failover(k, t).Some? && Uses(b, w.failover(k, t).value))
         && SameButUse(b.table, TableAfter(w, k, a))
  }

  /** Nothing more can be done after attempt a, the k-th; used says whether the request has failed over. */
  ghost predicate Spent(w: World, k: nat, a: Action, used: bool)
    requires a.Chat?
  {
    Troubled(w, k).Some? ==>
      && !Renewable(w, k, a.account)
      && (Unreached(w, k, a.account)
          || (&& Another(w, k, a).None?
              && (used || !FailoverOpen(w, Troubled(w, k).value)
                  || exists t :: SameButUse(t, TableAfter(w, k, a))
                                 && (w.failover(k, t).None? || w.failover(k, t).value.account.None?))))
  }

  // ---------- One recovery ----------

  /** The state when an attempt turns out to be in trouble: a is that attempt. */
  ghost predicate Tried(s: Req, w: World, k: nat, a: Action) {
    && Ready(s) && a == ChatCall(s) && Troubled(w, k).Some?
  }

  lemma RefreshedFits(s: Req, w: World, k: nat, a: Action)
    requires Tried(s, w, k, a) && Renewable(w, k, a.account)
    ensures var (s1, ok, _) := RecoverCredential(s, w, k); ok && Renewed(w, k, a, ChatCall(s1))
  {
    hide Matches, Keyed;
  }

  /** What recovery does before it asks the router for another account. */
  function Prepared(s: Req, w: World, k: nat, status: int): Req
    requires s.account.Some?
  {
    if status == 401 then s.(table := Refresh(s.table, s.account.value.id, w.refresh(k), w.pauseAt(k)).0)
    else Pause(s, w, k, status)
  }

  lemma PreparedTable(s: Req, w: World, k: nat, a: Action)
    requires Tried(s, w, k, a) && Replacing(w, k, a.account)
    ensures Prepared(s, w, k, Troubled(w, k).value) == s.(table := TableAfter(w, k, a))
  {
    var id := s.account.value.id;
    assert s.table[id := s.table[id]] == s.table;
    hide Matches, Keyed, Troubled;
  }

  lemma SwitchFits(s: Req, w: World, k: nat, a: Action)
    requires Tried(s, w, k, a) && Replacing(w, k, a.account)
    ensures var (s1, ok) := SwitchAccount(s.(table := TableAfter(w, k, a)), w, k);
            && (ok <==> Another(w, k, a).Some?)
            && (ok ==> Uses(ChatCall(s1), Another(w, k, a).value) && s1.account.Some?
                       && s1.table == UsedAt(TableAfter(w, k, a), s1.account.value.id, w.pickAt(k)))
            && (!ok ==> SameButUse(s1.table, TableAfter(w, k, a)) && s1.failoverUsed == s.failoverUsed)
  {
    hide Ready, Troubled, TableAfter;
  }

  lemma FailoverFits(s: Req, w: World, k: nat, status: int, t: Table)
    requires SameButUse(s.table, t)
    ensures var (s1, ok) := SwitchFailover(s, w, k, status);
            && (ok ==> FailoverOpen(w, status) && !s.failoverUsed
                       && (exists u :: SameButUse(u, t) && w.failover(k, u).Some? && Uses(ChatCall(s1), w.failover(k, u).value))
                       && SameButUse(s1.table, t))
            && (!ok ==> s1.failoverUsed == s.failoverUsed
                        && (s.failoverUsed || !FailoverOpen(w, status)
                            || exists u :: SameButUse(u, t) && (w.failover(k, u).None? || w.failover(k, u).value.account.None?)))
  {
    hide SameButUse, MarkUsed;
    assert SameButUse(s.table, t);
    var (s1, ok) := SwitchFailover(s, w, k, status);
    if ok {
      MarkingKeepsRows(s.table, t, s1.account.value.id, w.pickAt(k));
    }
  }

  lemma MarkingKeepsRows(t: Table, u: Table, id: int, now: int)
    requires SameButUse(t, u)
    ensures SameButUse(MarkUsed(t, id, now), u)
  {
  }

  lemma SameRows(t: Table)
    ensures SameButUse(t, t)
  {
  }

  /** Recovery by its parts: the refresh, then another account, then the failover. */
  lemma RecoverParts(s: Req, w: World, k: nat, a: Action)
    requires Tried(s, w, k, a)
    ensures var status := Troubled(w, k).value;
            var r := RecoverFrom(s, w, k, status);
            if Renewable(w, k, a.account) then
              r == RecoverCredential(s, w, k) && RecoverCredential(s, w, k).1
            else if Unreached(w, k, a.account) then
              !r.1 && r.2 == Some(w.refresh(k).message) && r.0.failoverUsed == s.failoverUsed
            else if Replacing(w, k, a.account) then
              var (s1, ok) := SwitchAccount(Prepared(s, w, k, status), w, k);
              r == if ok then (s1, true, None)
                   else (SwitchFailover(s1, w, k, status).0, SwitchFailover(s1, w, k, status).1, None)
            else r == (SwitchFailover(s, w, k, status).0, SwitchFailover(s, w, k, status).1, None)
  {
    hide Troubled, SwitchAccount, SwitchFailover, Matches, Keyed, BuildCred;
    assert s.account.Some? ==> s.account.value.id in s.table;
  }

  /** Every recovery leads to the attempt that Follows names, or there is nothing left to try. */
  lemma RecoveryFits(s: Req, w: World, k: nat, a: Action)
    requires Tried(s, w, k, a)
    ensures var (s1, retry, transient) := RecoverFrom(s, w, k, Troubled(w, k).value);
            && (retry ==> Follows(w, k, a, ChatCall(s1)))
            && (!retry ==> Spent(w, k, a, s1.failoverUsed))
            && (!retry ==> (transient.Some? <==> Unreached(w, k, a.account))
                           && (transient.Some? ==> transient.value == w.refresh(k).message))
  {
    hide Ready, Troubled, RecoverFrom, RecoverCredential, SwitchAccount, SwitchFailover, Refresh, Pause, Renewed, Uses, SameButUse;
    RecoverParts(s, w, k, a);
    var status := Troubled(w, k).value;
    if Renewable(w, k, a.account) {
      RefreshedFits(s, w, k, a);
    } else if Unreached(w, k, a.account) {
    } else if Replacing(w, k, a.account) {
      PreparedTable(s, w, k, a);
      SwitchFits(s, w, k, a);
      var s1 := SwitchAccount(s.(table := TableAfter(w, k, a)), w, k).0;
      if Another(w, k, a).None? {
        FailoverFits(s1, w, k, status, TableAfter(w, k, a));
      }
    } else {
      SameRows(s.table);
      FailoverFits(s, w, k, status, s.table);
    }
  }

  // ---------- Whole requests ----------

  /** From position base of the trace: n attempts, each following the one before; nothing is left to try
      after the last; and its answer, if there is one, is the fitting one. */
  ghost predicate Story(w: World, k: nat, base: nat, f: Req, n: nat) {
    && n >= 1 && base + n <= |f.trace|
    && (forall i | base <= i < base + n :: f.trace[i].Chat?)
    && (forall i | base <= i < base + n - 1 :: Follows(w, k + (i - base), f.trace[i], f.trace[i + 1]))
    && var last := f.trace[base + n - 1];
    && Spent(w, k + n - 1, last, f.failoverUsed)
    && (if Unanswered(w, k + n - 1) then |f.trace| == base + n
        else |f.trace| == base + n + 2 && f.trace[base + n].Answer? && Fitting(w, k + n - 1, last.account, f.trace[base + n].body))
  }

  lemma OverFits(s: Req, w: World, k: nat)
    requires Judge(w, k).Over?
    ensures var f := Conclude(s, w, k);
            f.failoverUsed == s.failoverUsed &&
            if Unanswered(w, k) then f == s
            else |f.trace| == |s.trace| + 2 && s.trace <= f.trace && f.trace[|s.trace|].Answer?
                 && forall account :: Fitting(w, k, account, f.trace[|s.trace|].body)
  {
    CutIsFailure(w.chat(k).events);
    assert w.chat(k).events[..|w.chat(k).events|] == w.chat(k).events;
  }

  lemma GiveUpFits(s: Req, w: World, k: nat, transient: Option<string>, account: Option<int>)
    requires Judge(w, k).Trouble?
    requires transient.Some? <==> Unreached(w, k, account)
    requires transient.Some? ==> transient.value == w.refresh(k).message
    ensures var f := GiveUp(s, Judge(w, k), transient);
            && f.failoverUsed == s.failoverUsed && |f.trace| == |s.trace| + 2 && s.trace <= f.trace && f.trace[|s.trace|].Answer?
            && Fitting(w, k, account, f.trace[|s.trace|].body)
  {
    if w.chat(k).Stream? {
      CutIsFailure(w.chat(k).events);
    }
  }

  lemma LastStory(s: Req, w: World, k: nat, f: Req)
    requires s.trace + [ChatCall(s)] <= f.trace
    requires Spent(w, k, ChatCall(s), f.failoverUsed)
    requires if Unanswered(w, k) then |f.trace| == |s.trace| + 1
             else |f.trace| == |s.trace| + 3 && f.trace[|s.trace| + 1].Answer?
                  && Fitting(w, k, IdOf(s.account), f.trace[|s.trace| + 1].body)
    ensures Story(w, k, |s.trace|, f, 1) && s.trace <= f.trace && f.trace[|s.trace|] == ChatCall(s)
  {
    hide Spent, Fitting, Unanswered;
    assert f.trace[|s.trace|] == (s.trace + [ChatCall(s)])[|s.trace|];
  }

  lemma NextStory(s: Req, s2: Req, w: World, k: nat, f: Req, n: nat)
    requires s2.trace == s.trace + [ChatCall(s)] && s2.trace <= f.trace
    requires Story(w, k + 1, |s2.trace|, f, n) && f.trace[|s2.trace|] == ChatCall(s2)
    requires Follows(w, k, ChatCall(s), ChatCall(s2))
    ensures Story(w, k, |s.trace|, f, n + 1) && s.trace <= f.trace && f.trace[|s.trace|] == ChatCall(s)
  {
    hide Spent, Fitting, Unanswered, Follows;
    var base := |s.trace|;
    assert f.trace[base] == s2.trace[base] == ChatCall(s);
    forall i | base <= i < base + n ensures Follows(w, k + (i - base), f.trace[i], f.trace[i + 1]) {
      assert i > base ==> Follows(w, (k + 1) + (i - (base + 1)), f.trace[i], f.trace[i + 1]);
    }
  }

  /** From any ready state on. */
  lemma {:induction false} Stories(s: Req, w: World, k: nat) returns (n: nat)
    requires Ready(s) && InTime(s, k) && w.RouterSound()
    ensures var f := Attempts(s, w, k);
            Story(w, k, |s.trace|, f, n) && s.trace <= f.trace && f.trace[|s.trace|] == ChatCall(s)
    decreases Budget(s, k)
  {
    hide Ready, Story, RecoverFrom, Conclude, GiveUp, Judge, Troubled, Follows, Spent, Fitting, Unanswered, Unreached,
         Picked, Moves, OutStays, Penalized;
    var f := Attempts(s, w, k);
    var s1 := s.(attempts := k + 1).Do(ChatCall(s));
    ReadyWithTrace(s, s1);
    TroubledIsTrouble(w, k);
    if Judge(w, k).Over? {
      OverFits(s1, w, k);
      NotSpent(w, k, ChatCall(s), f.failoverUsed);
      LastStory(s, w, k, f);
      n := 1;
    } else {
      var status := Judge(w, k).status;
      RetryCosts(s1, w, k, status);
      RecoverReady(s1, w, k, status);
      assert ChatCall(s1) == ChatCall(s);
      RecoveryFits(s1, w, k, ChatCall(s));
      var s2, transient := RecoverFrom(s1, w, k, status).0, RecoverFrom(s1, w, k, status).2;
      if RecoverFrom(s1, w, k, status).1 {
        var m := Stories(s2, w, k + 1);
        NextStory(s, s2, w, k, f, m);
        n := m + 1;
      } else {
        TroubleIsLoud(w, k);
        GiveUpFits(s2, w, k, transient, IdOf(s.account));
        LastStory(s, w, k, f);
        n := 1;
      }
    }
  }

  lemma NotSpent(w: World, k: nat, a: Action, used: bool)
    requires a.Chat? && Troubled(w, k).None?
    ensures Spent(w, k, a, used)
  {
  }

  /** Both ways of counting the attempts give the same number. */
  lemma SameLength(w: World, f: Req, n: nat, m: nat)
    requires Course(w, 0, 0, f, n) && Story(w, 0, 0, f, m)
    ensures n == m
  {
    hide Follows, Spent, Fitting, Coherent;
    TroubledIsTrouble(w, n - 1);
    TroubledIsTrouble(w, m - 1);
    CoherentChats(w, 0, 0, f, n);
    assert n < |f.trace| ==> !f.trace[n].Chat?;
    assert m < |f.trace| ==> !f.trace[m].Chat?;
  }

  /** Where the first attempt goes. A model of a route goes to the account, group and model that the route
      gave, any other to the account that declares it, or without one to the plugin that knows it; a
      plugin that the router left open is looked up by the model. */
  predicate First(w: World, e: Entry, t: Table, a: Action) {
    && a.Chat?
    && if e.first.Found? then
         var r := e.first.target;
         Uses(a, r.(plugin := if r.plugin != "" then r.plugin else e.PluginFor(r.model)))
         && a.table == UsedAt(t, a.account.value, w.startAt)
       else if e.direct.Some? then
         var r := e.direct.value;
         && a.group == r.group && a.model == w.origModel && a.table == t
         && a.plugin == (if r.plugin != "" then r.plugin else e.PluginFor(w.origModel))
         && (if r.account.Some? then Uses(a, r.(plugin := a.plugin, model := w.origModel)) else a.account == None && a.cred == None)
       else a == Chat(None, e.PluginFor(w.origModel), 0, w.origModel, None, t)
  }

  /** Which requests never reach a plugin, and with which status they are refused. */
  function Refusal(w: World, e: Entry): Option<(int, string)> {
    if e.first == Forbidden then Some((403, "invalid_request_error"))
    else if e.first == BadGroups then Some((502, "api_error"))
    else if e.first.Found? then if e.first.target.account.None? then Some((503, "api_error")) else None
    else if e.direct.None? && e.catalog(w.origModel).None? then Some((404, "invalid_request_error"))
    else if e.bound then Some((403, "invalid_request_error"))
    else None
  }

  /** The whole of a request: refused as Refusal says; or a first attempt, further attempts each for the
      reason that Follows gives, and then, when nothing is left to try, the answer that fits the last. */
  lemma EveryStory(w: World, e: Entry, t: Table) returns (f: Req, n: nat)
    requires w.RouterSound() && EntrySound(w, e, t)
    ensures if Refusal(w, e).Some? then
              Served(w, e, t) == [Answer(ErrorBody(Refusal(w, e).value.0, Refusal(w, e).value.1, w.origModel))]
            else
              var w1 := OnRoute(w, e);
              && Served(w, e, t) == f.trace && 1 <= n <= 4
              && Course(w1, 0, 0, f, n) && NoneReused(w1, 0, 0, f, n) && Story(w1, 0, 0, f, n)
              && First(w, e, t, f.trace[0])
              && (f.failoverUsed <==> FailoverPicks(f.picks) == 1) && FailoverPicks(f.picks) <= 1
  {
    hide Ready, Course, NoneReused, OutUnused, Genuine, FailoverPicks, Story, First, EntrySound, Attempts;
    RefusedFits(w, e, t);
    if Admit(w, e, t).Admitted? {
      var s := Admit(w, e, t).start;
      StartReady(w, e, t);
      f := Attempts(s, OnRoute(w, e), 0);
      n := Courses(s, OnRoute(w, e), 0);
      var m := Stories(s, OnRoute(w, e), 0);
      SameLength(OnRoute(w, e), f, n, m);
      FirstFits(w, e, t);
    } else {
      f, n := Start(None, "", 0, "", t), 0;
    }
  }

  lemma RefusedFits(w: World, e: Entry, t: Table)
    ensures Admit(w, e, t).Rejected? <==> Refusal(w, e).Some?
    ensures Admit(w, e, t).Rejected? ==> Refusal(w, e).value == (Admit(w, e, t).status, Admit(w, e, t).errorType)
  {
  }

  lemma FirstFits(w: World, e: Entry, t: Table)
    requires Admit(w, e, t).Admitted?
    ensures First(w, e, t, ChatCall(Admit(w, e, t).start))
  {
  }

  // ---------- What follows for the client ----------

  /** Attempt k ends with a whole stream. */
  predicate Succeeds(w: World, k: nat) {
    w.chat(k).Stream? && forall e <- w.chat(k).events :: !e.TaskFailed?
  }

  /** If the last attempt ends with a whole stream the client gets all of it, in either form; if it breaks
      off after the first event of a streaming answer the client gets what came before and the message;
      and in every other case an error. */
  lemma ClientGets(w: World, f: Req, n: nat)
    requires Story(w, 0, 0, f, n) && !Unanswered(w, n - 1)
    ensures |f.trace| == n + 2 && f.trace[n].Answer?
    ensures var body := f.trace[n].body;
            && (w.chat(n - 1).Stream? && Succeeds(w, n - 1) ==>
                  body == if w.stream then Sse(w.chat(n - 1).events, None) else Aggregated(w.chat(n - 1).events))
            && ((body.Sse? && body.failure.None?) || body.Aggregated? ==> Succeeds(w, n - 1))
            && (body.Sse? && body.failure.Some? ==>
                  && w.stream && w.chat(n - 1).Stream? && body.delivered < w.chat(n - 1).events
                  && var e := w.chat(n - 1).events[|body.delivered|];
                     e.TaskFailed? && body.failure == Some(e.message) && forall d <- body.delivered :: !d.TaskFailed?)
            && (body.ErrorBody? <==> Troubled(w, n - 1).Some?)
  {
    hide Follows, Spent, Unreached;
    if w.chat(n - 1).Stream? {
      var events := w.chat(n - 1).events;
      var m := Cut(events);
      assert m < |events| ==> events[m] in events;
    }
  }
}
