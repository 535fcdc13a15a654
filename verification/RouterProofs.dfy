/** What every run of the router keeps: live answers, stable sessions, a bounded table. */
module RouterProofs {
  import opened Accounts
  import opened Text
  import opened Choice
  import opened Router

  // ---------- Runs ----------

  /** The router, its database and the clock. */
  datatype Hub = Hub(st: State, db: Db, now: int)

  datatype Op =
    | Asking(ask: Ask)
    | Failing(route: Route, draw: nat)
    | Cleaning
    | NewPolicy(ttl: int, cleanEvery: int)
    | NewStandard(strategy: Strategy)
    | Waiting(seconds: nat)
    | Editing(db: Db)

  datatype Reply = Nothing | Answered(res: Resolution) | FailedOver(target: Option<Resolved>)

  function Step(w: Hub, op: Op): (Hub, Reply) {
    match op
    case Asking(ask) =>
      var (st, db, res) := Resolve(w.st, w.db, ask, w.now);
      (Hub(st, db, w.now), Answered(res))
    case Failing(route, draw) =>
      var (st, db, res) := PickFailover(w.st, w.db, route, draw, w.now);
      (Hub(st, db, w.now), FailedOver(res))
    case Cleaning => (w.(st := w.st.(sticky := Cleanup(w.st.sticky, w.now))), Nothing)
    case NewPolicy(ttl, cleanEvery) => (w.(st := Policy(w.st, ttl, cleanEvery)), Nothing)
    case NewStandard(strategy) => (w.(st := w.st.(standard := Standard(strategy))), Nothing)
    case Waiting(seconds) => (w.(now := w.now + seconds), Nothing)
    case Editing(db) => (w.(db := db), Nothing)
  }

  function After(w: Hub, ops: seq<Op>): Hub
    decreases ops
  {
    if ops == [] then w else After(Step(w, ops[0]).0, ops[1..])
  }

  // ---------- Answers are live ----------

  /** An account handed out is the current row of a usable account of the group handed out. */
  ghost predicate LiveTarget(db: Db, r: Resolved, now: int) {
    r.account.Some? ==>
      (var a := r.account.value;
       a.id in db.accounts && db.accounts[a.id] == a && a.Selectable(now) && a.id in db.Members(r.group))
  }

  lemma ChooseFrame(st: State, db: Db, strategy: Strategy, route: int, group: int, draw: nat, now: int)
    ensures var st1 := Choose(st, db, strategy, route, group, draw, now).0;
            st1 == st.(counters := st1.counters)
  {
  }

  lemma ChooseIsLive(st: State, db: Db, strategy: Strategy, route: int, group: int, draw: nat, now: int)
    requires Keyed(db.accounts)
    ensures var (st1, acct) := Choose(st, db, strategy, route, group, draw, now);
            && (acct.Some? ==> acct.value.id in db.Members(group) && Usable(db.accounts, acct.value.id, now)
                               && db.accounts[acct.value.id] == acct.value)
            && (acct.None? <==> Available(db, db.Members(group), now) == [])
  {
    var accts := Available(db, db.Members(group), now);
    var acct := Choose(st, db, strategy, route, group, draw, now).1;
    if acct.Some? {
      assert acct.value in accts;
      AvailableSpec(db, db.Members(group), now, acct.value);
    }
  }

  /** Whatever the table holds, an answer names a group and model of the route asked for, which the
      key may use, and an account that is usable now and in that group; and the answer is empty
      only if the group has no usable account. */
  lemma AnswersAreLive(st: State, db: Db, ask: Ask, now: int)
    requires Keyed(db.accounts)
    ensures var res := Resolve(st, db, ask, now).2;
            res.Found? ==>
              && ask.key.Some? && ask.model in db.routes && Authorized(db, ask.key.value, db.routes[ask.model].id)
              && db.routes[ask.model].groups.Some?
              && Listed(db.routes[ask.model].groups.value, res.target.group, res.target.model)
              && LiveTarget(db, res.target, now) && res.target.plugin == db.Plugin(res.target.group)
              && (res.target.account.None? ==> Available(db, db.Members(res.target.group), now) == [])
  {
    hide Choose;
    if Resolve(st, db, ask, now).2.Found? {
      var route := db.routes[ask.model];
      var entries := route.groups.value;
      var e := Selected(entries, ask.groupDraw);
      var sticky := Lookup(st.sticky, db, ask.fp, entries, now).0;
      ChooseIsLive(st, db, Effective(st, route), route.id, e.group, ask.accountDraw, now);
      ChooseIsLive(st.(sticky := sticky), db, Effective(st, route), route.id, e.group, ask.accountDraw, now);
    }
  }

  lemma FailoverIsLive(st: State, db: Db, route: Route, draw: nat, now: int)
    requires Keyed(db.accounts)
    ensures var target := PickFailover(st, db, route, draw, now).2;
            && PickFailover(st, db, route, draw, now).0.sticky == st.sticky
            && (target.Some? ==> target.value.account.Some? && LiveTarget(db, target.value, now)
                                 && target.value.group == route.failoverGroup && target.value.model == route.failoverModel)
  {
    hide Choose;
    ChooseIsLive(st, db, Effective(st, route), route.id, route.failoverGroup, draw, now);
    ChooseFrame(st, db, Effective(st, route), route.id, route.failoverGroup, draw, now);
  }

  lemma SortedHas(before: (Account, Account) -> bool, s: seq<Account>, a: Account)
    requires StrictWeak(before) && a in s
    ensures a in Sorted(before, s)
  {
    var perm := SortPositions(before, s, |s|);
    SortIsStable(before, s, |s|);
    var p :| 0 <= p < |s| && s[p] == a;
    assert (p as nat) in perm;
    var i :| 0 <= i < |perm| && perm[i] == p;
    assert Sorted(before, s)[i] == a;
  }

  lemma CandidateSpec(db: Db, name: string, hint: string, now: int, a: Account)
    requires Keyed(db.accounts)
    ensures a in Candidates(db, name, hint, now) ==>
              a.id in db.rows && Usable(db.accounts, a.id, now) && db.accounts[a.id] == a
              && (db.Declares(a.id, name) || db.Owner(a.id) == hint)
    ensures a.id in db.rows && Usable(db.accounts, a.id, now) && db.accounts[a.id] == a && db.Declares(a.id, name) ==>
              a in Candidates(db, name, hint, now) && forall c <- Candidates(db, name, hint, now) :: db.Declares(c.id, name)
  {
    var usable := Available(db, db.rows, now);
    var accts := Sorted(LastUsedAsc, usable);
    var declares := (a: Account) => db.Declares(a.id, name);
    AvailableSpec(db, db.rows, now, a);
    OrdersAreStrictWeak();
    if a in usable {
      SortedHas(LastUsedAsc, usable, a);
    }
    forall c: Account ensures c in Filter(declares, accts) <==> c in accts && db.Declares(c.id, name) {
      FilterSpec(declares, accts, c);
    }
    FilterSpec((a: Account) => db.Owner(a.id) == hint, accts, a);
  }

  /** A direct answer is the current row of a usable account, under its plugin. If any usable account
      declares the model, so does the one answered, and none of those comes before it. */
  lemma DirectIsLive(db: Db, name: string, hint: string, now: int)
    requires Keyed(db.accounts)
    ensures var res := ResolveDirect(db, name, hint, now);
            (res.Some? ==>
              && res.value.account.Some? && res.value.model == name
              && var a := res.value.account.value;
                 && Usable(db.accounts, a.id, now) && db.accounts[a.id] == a && res.value.plugin == db.Owner(a.id)
                 && (db.Declares(a.id, name) || db.Owner(a.id) == hint))
    ensures forall id <- db.rows | name != "" && Usable(db.accounts, id, now) && db.Declares(id, name) ::
              var res := ResolveDirect(db, name, hint, now);
              res.Some? && db.Declares(res.value.account.value.id, name) && !Sooner(db.accounts[id], res.value.account.value)
  {
    hide Candidates, Sooner;
    var cands := Candidates(db, name, hint, now);
    if name != "" && cands != [] {
      var a := cands[Choice.Scan(Sooner, cands)];
      assert a in cands;
      CandidateSpec(db, name, hint, now, a);
      BestOf(cands);
    }
    forall id <- db.rows | name != "" && Usable(db.accounts, id, now) && db.Declares(id, name)
      ensures var res := ResolveDirect(db, name, hint, now);
              res.Some? && db.Declares(res.value.account.value.id, name) && !Sooner(db.accounts[id], res.value.account.value)
    {
      CandidateSpec(db, name, hint, now, db.accounts[id]);
      assert db.accounts[id] in cands;
    }
  }

  lemma BestOf(cands: seq<Account>)
    requires cands != []
    ensures forall c <- cands :: !Sooner(c, cands[Choice.Scan(Sooner, cands)])
  {
    OrdersAreStrictWeak();
    ScanForemost(Sooner, cands);
  }

  // ---------- The table ----------

  predicate Holds(st: State, fp: string, p: Pinned) {
    fp in st.sticky && st.sticky[fp] == p
  }

  /** Cleaning keeps exactly the entries that have not expired, unless these are too many. */
  lemma CleanupSpec(sticky: map<string, Pinned>, now: int)
    ensures var after := Cleanup(sticky, now);
            && |after| <= 4096
            && (forall fp <- after :: fp in sticky && after[fp] == sticky[fp] && now <= after[fp].expires)
            && (|Unexpired(sticky, now)| <= 4096 ==> forall fp <- sticky :: fp in after || sticky[fp].expires < now)
  {
  }

  /** No entry lives longer than longest seconds from now. */
  ghost predicate ShortLived(w: Hub, longest: int) {
    && 0 < w.st.ttl <= longest && 0 < w.st.cleanEvery
    && forall fp <- w.st.sticky :: w.st.sticky[fp].expires <= w.now + longest
  }

  predicate PolicyWithin(op: Op, longest: int) {
    op.NewPolicy? ==> op.ttl <= longest
  }

  lemma LookupTouchesOne(sticky: map<string, Pinned>, db: Db, fp: string, entries: seq<Entry>, now: int)
    ensures var (after, hit) := Lookup(sticky, db, fp, entries, now);
            && (forall k | k != fp :: (k in after <==> k in sticky) && (k in sticky ==> after[k] == sticky[k]))
            && (fp in after ==> fp in sticky && after[fp] == sticky[fp])
            && (hit.Some? ==> after == sticky && hit.value.account.Some?)
  {
  }

  lemma AnewTouchesOne(st: State, db: Db, ask: Ask, route: Route, entries: seq<Entry>, now: int)
    requires entries != []
    ensures var st1 := ChooseAnew(st, db, ask, route, entries, now).0;
            && st1 == st.(sticky := st1.sticky, counters := st1.counters)
            && (forall k | k != ask.fp :: (k in st1.sticky <==> k in st.sticky) && (k in st.sticky ==> st1.sticky[k] == st.sticky[k]))
            && (ask.fp in st1.sticky && !(ask.fp in st.sticky && st1.sticky[ask.fp] == st.sticky[ask.fp]) ==>
                  st1.sticky[ask.fp].expires == now + Ttl(st))
            && (!Effective(st, route).IsSticky() ==> st1.sticky == st.sticky)
  {
    hide Choose, Selected;
    var e := Selected(entries, ask.groupDraw);
    ChooseFrame(st, db, Effective(st, route), route.id, e.group, ask.accountDraw, now);
  }

  /** The request found no pin that it could use. */
  predicate Missed(st: State, db: Db, ask: Ask, now: int) {
    ask.model in db.routes && db.routes[ask.model].groups.Some?
    && Lookup(st.sticky, db, ask.fp, db.routes[ask.model].groups.value, now).1.None?
  }

  /** Asking changes the table only at the fingerprint asked for, and not at all on a route that is
      not sticky; a new entry is one lookup old. */
  lemma AskTouchesOne(st: State, db: Db, ask: Ask, now: int)
    ensures var st1 := Resolve(st, db, ask, now).0;
            && st1 == st.(sticky := st1.sticky, counters := st1.counters)
            && (forall k | k != ask.fp :: (k in st1.sticky <==> k in st.sticky) && (k in st.sticky ==> st1.sticky[k] == st.sticky[k]))
            && (ask.fp in st1.sticky && !(ask.fp in st.sticky && st1.sticky[ask.fp] == st.sticky[ask.fp]) ==>
                  Missed(st, db, ask, now) && st1.sticky[ask.fp].expires == now + Ttl(st))
            && (ask.model in db.routes && !Effective(st, db.routes[ask.model]).IsSticky() ==> st1.sticky == st.sticky)
  {
    hide ChooseAnew, Lookup;
    if ask.key.Some? && ask.model in db.routes && db.routes[ask.model].groups.Some? && db.routes[ask.model].groups.value != [] {
      var route := db.routes[ask.model];
      var entries := route.groups.value;
      LookupTouchesOne(st.sticky, db, ask.fp, entries, now);
      var st0 := st.(sticky := Lookup(st.sticky, db, ask.fp, entries, now).0);
      AnewTouchesOne(st0, db, ask, route, entries, now);
      AnewTouchesOne(st, db, ask, route, entries, now);
    }
  }

  lemma StepShortLived(w: Hub, op: Op, longest: int)
    requires ShortLived(w, longest) && PolicyWithin(op, longest)
    ensures ShortLived(Step(w, op).0, longest)
  {
    hide Resolve, Choose;
    if op.Asking? {
      AskTouchesOne(w.st, w.db, op.ask, w.now);
    } else if op.Failing? {
      ChooseFrame(w.st, w.db, Effective(w.st, op.route), op.route.id, op.route.failoverGroup, op.draw, w.now);
    }
  }

  /** Over any run whose policies stay within longest, no entry expires later than longest from now. */
  lemma {:induction false} RunsShortLived(w: Hub, ops: seq<Op>, longest: int)
    requires ShortLived(w, longest) && forall i | 0 <= i < |ops| :: PolicyWithin(ops[i], longest)
    ensures ShortLived(After(w, ops), longest)
    decreases ops
  {
    if ops != [] {
      StepShortLived(w, ops[0], longest);
      RunsShortLived(Step(w, ops[0]).0, ops[1..], longest);
    }
  }

  /** Operation i of the run asked for fp, missed, and saved an entry that expires one time to live later. */
  predicate SavedAt(w: Hub, ops: seq<Op>, i: nat, fp: string, p: Pinned)
    requires i < |ops|
  {
    var before := After(w, ops[..i]);
    && ops[i].Asking? && ops[i].ask.fp == fp && Missed(before.st, before.db, ops[i].ask, before.now)
    && Holds(Step(before, ops[i]).0.st, fp, p) && p.expires == before.now + Ttl(before.st)
  }

  /** A step makes an entry only where a request misses; it never alters one. */
  lemma StepSaves(w: Hub, op: Op, fp: string)
    ensures fp in Step(w, op).0.st.sticky ==>
              || Holds(w.st, fp, Step(w, op).0.st.sticky[fp])
              || SavedAt(w, [op], 0, fp, Step(w, op).0.st.sticky[fp])
  {
    hide Resolve, Choose, Missed;
    assert [op][..0] == [];
    if op.Asking? {
      AskTouchesOne(w.st, w.db, op.ask, w.now);
    } else if op.Failing? {
      ChooseFrame(w.st, w.db, Effective(w.st, op.route), op.route.id, op.route.failoverGroup, op.draw, w.now);
    }
  }

  /** Over any run an entry of the table was there from the start, or was saved by a request that
      missed and expires one time to live after that: hits never renew it. */
  lemma {:induction false} NeverRenewed(w: Hub, ops: seq<Op>, fp: string)
    requires fp in After(w, ops).st.sticky
    ensures var p := After(w, ops).st.sticky[fp];
            Holds(w.st, fp, p) || exists i :: 0 <= i < |ops| && SavedAt(w, ops, i, fp, p)
    decreases ops
  {
    hide Step, Missed;
    if ops != [] {
      var p := After(w, ops).st.sticky[fp];
      var w1 := Step(w, ops[0]).0;
      NeverRenewed(w1, ops[1..], fp);
      if Holds(w1.st, fp, p) {
        StepSaves(w, ops[0], fp);
        if !Holds(w.st, fp, p) {
          assert ops[..0] == [ops[0]][..0];
          assert SavedAt(w, ops, 0, fp, p);
        }
      } else {
        var i :| 0 <= i < |ops[1..]| && SavedAt(w1, ops[1..], i, fp, p);
        assert ops[..i + 1][0] == ops[0] && ops[..i + 1][1..] == ops[1..][..i];
        assert SavedAt(w, ops, i + 1, fp, p);
      }
    }
  }

  // ---------- Stable sessions ----------

  /** The pin p, made for a route, could be honoured now. */
  predicate Honoured(w: Hub, name: string, p: Pinned) {
    && name in w.db.routes && w.db.routes[name].groups.Some?
    && Effective(w.st, w.db.routes[name]).IsSticky()
    && Listed(w.db.routes[name].groups.value, p.group, p.model)
    && Usable(w.db.accounts, p.account, w.now) && w.db.accounts[p.account].id == p.account
    && p.account in w.db.Members(p.group)
    && w.now <= p.expires
  }

  /** No other sticky route handles the same conversation, and no cleanup wipes the whole table. */
  predicate Undisturbed(w: Hub, op: Op, name: string, fp: string) {
    match op
    case Asking(ask) =>
      ask.fp == fp && ask.model != name && ask.model in w.db.routes ==> !Effective(w.st, w.db.routes[ask.model]).IsSticky()
    case Cleaning => |Unexpired(w.st.sticky, w.now)| <= MAX_STICKY
    case _ => true
  }

  predicate Steady(w: Hub, ops: seq<Op>, name: string, fp: string, p: Pinned)
    decreases ops
  {
    && Honoured(w, name, p)
    && (ops != [] ==> Undisturbed(w, ops[0], name, fp) && Steady(Step(w, ops[0]).0, ops[1..], name, fp, p))
  }

  predicate Gives(res: Resolution, p: Pinned) {
    res.Found? && res.target.account.Some? && res.target.account.value.id == p.account
    && res.target.group == p.group && res.target.model == p.model
  }

  /** Every authorized request of the conversation on this route gets the pinned account. */
  predicate Sticks(w: Hub, ops: seq<Op>, name: string, fp: string, p: Pinned)
    decreases ops
  {
    ops != [] ==>
      && (ops[0].Asking? && ops[0].ask.fp == fp && ops[0].ask.model == name && ops[0].ask.key.Some?
          && name in w.db.routes && Authorized(w.db, ops[0].ask.key.value, w.db.routes[name].id) ==>
            Gives(Step(w, ops[0]).1.res, p))
      && Sticks(Step(w, ops[0]).0, ops[1..], name, fp, p)
  }

  lemma PinnedAsk(w: Hub, ask: Ask, name: string, p: Pinned)
    requires Holds(w.st, ask.fp, p) && Honoured(w, name, p) && ask.model == name
    requires ask.key.Some? && Authorized(w.db, ask.key.value, w.db.routes[name].id)
    ensures Gives(Resolve(w.st, w.db, ask, w.now).2, p)
    ensures Resolve(w.st, w.db, ask, w.now).0 == w.st
  {
    hide Choose, Selected;
    assert w.st.(sticky := w.st.sticky) == w.st;
  }

  /** A step that does not disturb the conversation leaves its pin, with its expiry, alone. */
  lemma StepKeepsPin(w: Hub, op: Op, name: string, fp: string, p: Pinned)
    requires Holds(w.st, fp, p) && Honoured(w, name, p) && Undisturbed(w, op, name, fp)
    ensures Holds(Step(w, op).0.st, fp, p)
  {
    hide Resolve, Choose;
    match op
    case Asking(ask) =>
      AskTouchesOne(w.st, w.db, ask, w.now);
      if ask.fp == fp {
        SameFingerprint(w, ask, name, p);
      }
    case Failing(route, draw) =>
      ChooseFrame(w.st, w.db, Effective(w.st, route), route.id, route.failoverGroup, draw, w.now);
    case Cleaning =>
      CleanupSpec(w.st.sticky, w.now);
    case NewPolicy(_, _) =>
    case NewStandard(_) =>
    case Waiting(_) =>
    case Editing(_) =>
  }

  lemma SameFingerprint(w: Hub, ask: Ask, name: string, p: Pinned)
    requires Holds(w.st, ask.fp, p) && Honoured(w, name, p) && Undisturbed(w, Asking(ask), name, ask.fp)
    ensures Holds(Resolve(w.st, w.db, ask, w.now).0, ask.fp, p)
  {
    hide Choose, Selected;
    if ask.model != name {
      AskTouchesOne(w.st, w.db, ask, w.now);
    } else if ask.key.Some? && Authorized(w.db, ask.key.value, w.db.routes[name].id) {
      PinnedAsk(w, ask, name, p);
    }
  }

  /** Answering marks at most one account as used and changes nothing else in the database. */
  predicate OnlyMarked(db: Db, db1: Db, account: Option<Account>, now: int) {
    db1 == if account.Some? then db.Marked(account.value.id, now) else db
  }

  lemma AskMarks(st: State, db: Db, ask: Ask, now: int)
    ensures var (st1, db1, res) := Resolve(st, db, ask, now);
            OnlyMarked(db, db1, if res.Found? then res.target.account else None, now)
  {
    hide Choose, Selected, Lookup, MarkUsed, Save;
    if ask.key.Some? && ask.model in db.routes && db.routes[ask.model].groups.Some? {
      HitHasAccount(st.sticky, db, ask.fp, db.routes[ask.model].groups.value, now);
    }
  }

  lemma MarkedStaysGood(w: Hub, st1: State, db1: Db, account: Option<Account>, name: string, p: Pinned)
    requires Honoured(w, name, p) && OnlyMarked(w.db, db1, account, w.now) && st1.standard == w.st.standard
    ensures Honoured(Hub(st1, db1, w.now), name, p)
  {
    hide Listed;
  }

  /** Only edits, the passing of time and a new default strategy can end what a pin needs. */
  lemma RequestsKeepPinsGood(w: Hub, op: Op, name: string, p: Pinned)
    requires Honoured(w, name, p) && !op.Editing? && !op.Waiting? && !op.NewStandard?
    ensures Honoured(Step(w, op).0, name, p)
  {
    hide Honoured, Resolve, Choose, OnlyMarked;
    match op
    case Asking(ask) =>
      AskTouchesOne(w.st, w.db, ask, w.now);
      AskMarks(w.st, w.db, ask, w.now);
      var (st, db, res) := Resolve(w.st, w.db, ask, w.now);
      MarkedStaysGood(w, st, db, if res.Found? then res.target.account else None, name, p);
    case Failing(route, draw) =>
      ChooseFrame(w.st, w.db, Effective(w.st, route), route.id, route.failoverGroup, draw, w.now);
      var (st, db, target) := PickFailover(w.st, w.db, route, draw, w.now);
      FailoverMarks(w.st, w.db, route, draw, w.now);
      MarkedStaysGood(w, st, db, if target.Some? then target.value.account else None, name, p);
    case Cleaning => KeepsGood(w, w.st.(sticky := Cleanup(w.st.sticky, w.now)), name, p);
    case NewPolicy(ttl, cleanEvery) => KeepsGood(w, Policy(w.st, ttl, cleanEvery), name, p);
  }

  lemma FailoverMarks(st: State, db: Db, route: Route, draw: nat, now: int)
    ensures var (st1, db1, target) := PickFailover(st, db, route, draw, now);
            OnlyMarked(db, db1, if target.Some? then target.value.account else None, now)
  {
    hide Choose, MarkUsed;
  }

  lemma KeepsGood(w: Hub, st1: State, name: string, p: Pinned)
    requires Honoured(w, name, p) && st1.standard == w.st.standard
    ensures Honoured(w.(st := st1), name, p)
  {
    hide Listed;
  }

  /** As long as its pin could be honoured and nothing disturbs it, a conversation sticks to one
      account, group and model, and its pin is never renewed. */
  lemma {:induction false} Sticking(w: Hub, ops: seq<Op>, name: string, fp: string, p: Pinned)
    requires Holds(w.st, fp, p) && Steady(w, ops, name, fp, p)
    ensures Sticks(w, ops, name, fp, p) && Holds(After(w, ops).st, fp, p)
    decreases ops
  {
    hide Step, Honoured, Undisturbed, Gives;
    if ops != [] {
      StepKeepsPin(w, ops[0], name, fp, p);
      Sticking(Step(w, ops[0]).0, ops[1..], name, fp, p);
      if ops[0].Asking? && ops[0].ask.fp == fp && ops[0].ask.model == name && ops[0].ask.key.Some?
         && name in w.db.routes && Authorized(w.db, ops[0].ask.key.value, w.db.routes[name].id) {
        AskStep(w, ops[0]);
        PinnedAsk(w, ops[0].ask, name, p);
      }
    }
  }

  lemma AskStep(w: Hub, op: Op)
    requires op.Asking?
    ensures Step(w, op).1 == Answered(Resolve(w.st, w.db, op.ask, w.now).2)
  {
  }

  // ---------- Sessions while nobody interferes ----------

  /** Nobody edits the database or the default strategy, no other sticky route is asked for
      this conversation, and no cleanup wipes the table. */
  predicate Quiet(w: Hub, ops: seq<Op>, name: string, fp: string)
    decreases ops
  {
    ops != [] ==>
      && !ops[0].Editing? && !ops[0].NewStandard? && Undisturbed(w, ops[0], name, fp)
      && Quiet(Step(w, ops[0]).0, ops[1..], name, fp)
  }

  lemma StepClock(w: Hub, op: Op)
    ensures w.now <= Step(w, op).0.now
  {
  }

  lemma {:induction false} RunClock(w: Hub, ops: seq<Op>)
    ensures w.now <= After(w, ops).now
    decreases ops
  {
    hide Step;
    if ops != [] {
      StepClock(w, ops[0]);
      RunClock(Step(w, ops[0]).0, ops[1..]);
    }
  }

  /** Time only ends a pin by its expiry: a usable account stays usable. */
  lemma WaitKeepsGood(w: Hub, seconds: nat, name: string, p: Pinned)
    requires Honoured(w, name, p) && w.now + seconds <= p.expires
    ensures Honoured(Step(w, Waiting(seconds)).0, name, p)
  {
    hide Listed;
  }

  lemma {:induction false} QuietIsSteady(w: Hub, ops: seq<Op>, name: string, fp: string, p: Pinned)
    requires Honoured(w, name, p) && Quiet(w, ops, name, fp) && After(w, ops).now <= p.expires
    ensures Steady(w, ops, name, fp, p)
    decreases ops
  {
    hide Honoured, Undisturbed, Step;
    if ops != [] {
      var w1 := Step(w, ops[0]).0;
      RunClock(w1, ops[1..]);
      if ops[0].Waiting? {
        WaitStep(w, ops[0]);
        WaitKeepsGood(w, ops[0].seconds, name, p);
      } else {
        RequestsKeepPinsGood(w, ops[0], name, p);
      }
      QuietIsSteady(w1, ops[1..], name, fp, p);
    }
  }

  lemma WaitStep(w: Hub, op: Op)
    requires op.Waiting?
    ensures Step(w, op).0.now == w.now + op.seconds
  {
  }

  /** A pin that can be honoured now is honoured until it expires, whoever asks for what in the
      meantime, as long as nobody interferes. */
  lemma SessionsStick(w: Hub, ops: seq<Op>, name: string, fp: string, p: Pinned)
    requires Holds(w.st, fp, p) && Honoured(w, name, p) && Quiet(w, ops, name, fp) && After(w, ops).now <= p.expires
    ensures Sticks(w, ops, name, fp, p) && Holds(After(w, ops).st, fp, p)
  {
    hide Steady, Sticks, Honoured, Quiet, After;
    QuietIsSteady(w, ops, name, fp, p);
    Sticking(w, ops, name, fp, p);
  }

  /** The entry that an answer would be saved as. */
  function PinOf(st: State, target: Resolved, now: int): Pinned
    requires target.account.Some?
  {
    Pinned(target.group, target.model, target.account.value.id, now + Ttl(st))
  }

  /** A sticky answer is pinned: it is either an old pin, or a new one that expires ttl from now. */
  lemma AnswerIsPinned(st: State, db: Db, ask: Ask, now: int)
    requires ask.model in db.routes && Effective(st, db.routes[ask.model]).IsSticky()
    requires Keyed(db.accounts)
    ensures var (st1, db1, res) := Resolve(st, db, ask, now);
            res.Found? && res.target.account.Some? ==>
              || Holds(st1, ask.fp, PinOf(st, res.target, now))
              || (ask.fp in st.sticky && Holds(st1, ask.fp, st.sticky[ask.fp]) && now <= st.sticky[ask.fp].expires
                  && Gives(res, st.sticky[ask.fp]))
  {
    hide Choose, Selected;
    if ask.key.Some? && db.routes[ask.model].groups.Some? && db.routes[ask.model].groups.value != [] {
      var route := db.routes[ask.model];
      var entries := route.groups.value;
      var e := Selected(entries, ask.groupDraw);
      var st0 := st.(sticky := Lookup(st.sticky, db, ask.fp, entries, now).0);
      ChooseFrame(st0, db, Effective(st, route), route.id, e.group, ask.accountDraw, now);
    }
  }

  /** The pin left behind by a sticky answer can be honoured at once. */
  lemma AnsweredPinIsGood(st: State, db: Db, ask: Ask, now: int)
    requires Keyed(db.accounts) && ask.model in db.routes && Effective(st, db.routes[ask.model]).IsSticky()
    requires var res := Resolve(st, db, ask, now).2; res.Found? && res.target.account.Some?
    ensures var (st1, db1, res) := Resolve(st, db, ask, now);
            ask.fp in st1.sticky && Gives(res, st1.sticky[ask.fp])
            && Honoured(Hub(st1, db1, now), ask.model, st1.sticky[ask.fp])
  {
    var (st1, db1, res) := Resolve(st, db, ask, now);
    AnswerIsPinned(st, db, ask, now);
    AnswersAreLive(st, db, ask, now);
    AskTouchesOne(st, db, ask, now);
    AskMarks(st, db, ask, now);
    hide Resolve, Listed;
  }

  /** Once a request of a conversation has been given an account on a sticky route, that account,
      group and model serve all its requests until the pin expires, as long as nobody interferes. */
  lemma OneAccountPerSession(w: Hub, ask: Ask, ops: seq<Op>)
    requires Keyed(w.db.accounts)
    requires ask.model in w.db.routes && Effective(w.st, w.db.routes[ask.model]).IsSticky()
    requires var (w1, reply) := Step(w, Asking(ask));
             && reply.res.Found? && reply.res.target.account.Some?
             && Quiet(w1, ops, ask.model, ask.fp)
             && (ask.fp in w1.st.sticky ==> After(w1, ops).now <= w1.st.sticky[ask.fp].expires)
    ensures var (w1, reply) := Step(w, Asking(ask));
            && ask.fp in w1.st.sticky
            && var p := w1.st.sticky[ask.fp];
               Gives(reply.res, p) && Sticks(w1, ops, ask.model, ask.fp, p) && Holds(After(w1, ops).st, ask.fp, p)
  {
    AnsweredPinIsGood(w.st, w.db, ask, w.now);
    hide Resolve, Quiet, Sticks, After, Honoured, Gives;
    var w1 := Step(w, Asking(ask)).0;
    SessionsStick(w1, ops, ask.model, ask.fp, w1.st.sticky[ask.fp]);
  }
}
