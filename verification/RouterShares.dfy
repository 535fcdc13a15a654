/** Which group and which account a request gets that has no pin to honour. */
module RouterShares {
  import opened Accounts
  import opened Arith
  import opened Text
  import opened Choice
  import opened Router
  import opened RouterProofs

  // ---------- Requests that are routed anew ----------

  /** The route's own strategy, or the default one. */
  function Used(st: State, route: Route): Strategy {
    if route.strategy == Follow then st.standard else route.strategy
  }

  predicate Sticks(s: Strategy) {
    s == Sticky || s == StickyExpiring
  }

  /** The conversation has an entry that is still good for this route. */
  predicate HasPin(st: State, db: Db, fp: string, entries: seq<Entry>, now: int) {
    fp in st.sticky &&
    var p := st.sticky[fp];
    && now <= p.expires && Usable(db.accounts, p.account, now) && p.account in db.Members(p.group)
    && exists i | 0 <= i < |entries| :: entries[i].group == p.group && entries[i].model == p.model
  }

  /** A request for a route that its key may use, on a route that is not sticky or without such an entry. */
  predicate Anew(st: State, db: Db, ask: Ask, now: int) {
    && ask.key.Some? && ask.model in db.routes
    && var route := db.routes[ask.model];
    && (ask.key.value in db.bindings && db.bindings[ask.key.value] != {} ==> route.id in db.bindings[ask.key.value])
    && route.groups.Some? && route.groups.value != []
    && (Sticks(Used(st, route)) ==> !HasPin(st, db, ask.fp, route.groups.value, now))
  }

  function EntriesOf(db: Db, ask: Ask): seq<Entry>
    requires ask.model in db.routes && db.routes[ask.model].groups.Some?
  {
    db.routes[ask.model].groups.value
  }

  /** The state such a request chooses in: an expired entry is dropped. */
  function Dropped(st: State, ask: Ask, now: int, sticky: bool): State {
    if sticky && ask.fp in st.sticky && st.sticky[ask.fp].expires < now then st.(sticky := st.sticky - {ask.fp}) else st
  }

  lemma AnewIsChosen(st: State, db: Db, ask: Ask, now: int)
    requires Anew(st, db, ask, now)
    ensures var route := db.routes[ask.model];
            Resolve(st, db, ask, now)
            == ChooseAnew(Dropped(st, ask, now, Sticks(Used(st, route))), db, ask, route, route.groups.value, now)
  {
    hide ChooseAnew;
    var route := db.routes[ask.model];
    assert st.(sticky := st.sticky) == st;
    assert Effective(st, route) == Used(st, route);
    HitHasAccount(st.sticky, db, ask.fp, route.groups.value, now);
  }

  /** A key that is bound to routes, none of which is this one. */
  predicate Shut(db: Db, key: int, route: int) {
    key in db.bindings && db.bindings[key] != {} && route !in db.bindings[key]
  }

  /** A key never gets a target of a route it is not bound to; whether it does depends on the key, the name
      and the route's weight table alone, and a refusal changes nothing. */
  lemma RefusedExactly(st: State, db: Db, ask: Ask, now: int)
    ensures var (st1, db1, res) := Resolve(st, db, ask, now);
            var named := ask.key.Some? && ask.model in db.routes;
            && (res == Forbidden <==> named && Shut(db, ask.key.value, db.routes[ask.model].id))
            && (res == BadGroups <==> named && !Shut(db, ask.key.value, db.routes[ask.model].id) && db.routes[ask.model].groups.None?)
            && (res.Found? <==> named && !Shut(db, ask.key.value, db.routes[ask.model].id)
                                && db.routes[ask.model].groups.Some? && db.routes[ask.model].groups.value != [])
            && (!res.Found? ==> st1 == st && db1 == db)
  {
    hide Choose, Selected, Lookup, Save;
    if ask.key.Some? && ask.model in db.routes && db.routes[ask.model].groups.Some? {
      HitHasAccount(st.sticky, db, ask.fp, db.routes[ask.model].groups.value, now);
    }
  }

  // ---------- Shares ----------

  /** A weight that is not positive counts as 1. */
  function Parts(weight: int): nat {
    if weight > 1 then weight else 1
  }

  function AllParts(entries: seq<Entry>): nat {
    if entries == [] then 0 else Parts(entries[0].weight) + AllParts(entries[1..])
  }

  /** The parts of the entries for a group and a model. */
  function PartsOf(entries: seq<Entry>, group: int, model: string): nat {
    if entries == [] then 0
    else
      (if entries[0].group == group && entries[0].model == model then Parts(entries[0].weight) else 0)
      + PartsOf(entries[1..], group, model)
  }

  lemma {:induction false} PartsSnoc(entries: seq<Entry>, group: int, model: string)
    requires entries != []
    ensures var last := |entries| - 1;
            var e := entries[last];
            && AllParts(entries) == AllParts(entries[..last]) + Parts(e.weight)
            && PartsOf(entries, group, model)
               == PartsOf(entries[..last], group, model) + if e.group == group && e.model == model then Parts(e.weight) else 0
  {
    var last := |entries| - 1;
    if last > 0 {
      PartsSnoc(entries[1..], group, model);
      assert entries[1..][..last - 1] == entries[..last][1..];
    }
  }

  lemma {:induction false} AllPartsIsTotal(entries: seq<Entry>)
    ensures Total(entries) == AllParts(entries)
  {
    if entries != [] {
      PartsSnoc(entries, 0, "");
      AllPartsIsTotal(entries[..|entries| - 1]);
    }
  }

  predicate Fits(e: Entry, group: int, model: string) {
    e.group == group && e.model == model
  }

  /** The draws that end in the interval of an entry for a group and a model. */
  ghost function Landing(entries: seq<Entry>, group: int, model: string): set<nat> {
    set n: nat | n < Total(entries) && Fits(entries[Position(entries, n)], group, model)
  }

  lemma {:induction false} LandingSize(entries: seq<Entry>, group: int, model: string)
    ensures |Landing(entries, group, model)| == PartsOf(entries, group, model)
  {
    if entries == [] {
      assert Landing(entries, group, model) == {};
    } else {
      hide Landing, Position, Total, Interval, PartsOf, AllParts;
      var last := |entries| - 1;
      LandingSize(entries[..last], group, model);
      PartsSnoc(entries, group, model);
      LandingGrows(entries, group, model);
    }
  }

  lemma LandingGrows(entries: seq<Entry>, group: int, model: string)
    requires entries != []
    ensures var last := |entries| - 1;
            |Landing(entries, group, model)|
            == |Landing(entries[..last], group, model)| + if Fits(entries[last], group, model) then Parts(entries[last].weight) else 0
  {
    hide Landing, Position, Total, Interval, Fits;
    var last := |entries| - 1;
    var front, e := entries[..last], entries[last];
    IntervalSpec(Total(front), Weight(e));
    var more: set<nat> := if Fits(e, group, model) then Interval(Total(front), Weight(e)) else {};
    forall n: nat
      ensures n in Landing(entries, group, model) <==> n in Landing(front, group, model) || n in more
      ensures n in Landing(front, group, model) ==> n !in more
    {
      LandingStep(entries, group, model, n);
    }
    assert Landing(entries, group, model) == Landing(front, group, model) + more;
    assert Landing(front, group, model) !! more;
  }

  lemma LandingStep(entries: seq<Entry>, group: int, model: string, n: nat)
    requires entries != []
    ensures var last := |entries| - 1;
            var front, e := entries[..last], entries[last];
            && (n in Landing(front, group, model) ==> n < Total(front))
            && (n in Landing(entries, group, model) <==>
                  if n < Total(front) then n in Landing(front, group, model)
                  else n < Total(front) + Weight(e) && Fits(e, group, model))
  {
    var last := |entries| - 1;
    var front := entries[..last];
    hide Fits;
    if n < Total(front) {
      var i := Position(front, n);
      assert Position(entries, n) == i && entries[i] == front[i];
    } else if n < Total(entries) {
      assert Position(entries, n) == last;
    }
  }

  predicate Lands(st: State, db: Db, ask: Ask, now: int, draw: nat, group: int, model: string) {
    var res := Resolve(st, db, ask.(groupDraw := draw), now).2;
    res.Found? && res.target.group == group && res.target.model == model
  }

  lemma LandsAtPosition(st: State, db: Db, ask: Ask, now: int, draw: nat, group: int, model: string)
    requires Anew(st, db, ask, now)
    ensures var entries := EntriesOf(db, ask);
            Total(entries) > 0 && (Lands(st, db, ask, now, draw, group, model) <==>
              Fits(entries[Position(entries, draw % Total(entries))], group, model))
  {
    hide Resolve, Choose;
    var one := ask.(groupDraw := draw);
    assert Anew(st, db, one, now);
    AnewIsChosen(st, db, one, now);
    TotalPositive(EntriesOf(db, ask));
  }

  /** The draws below a bound that end in a group and a model. */
  ghost function DrawsTo(st: State, db: Db, ask: Ask, now: int, bound: nat, group: int, model: string): set<nat> {
    set n: nat | n < bound && Lands(st, db, ask, now, n, group, model)
  }

  /** Of the draws that rand.Intn can give, exactly as many end in a group and a model as the entries for
      these have parts; so a route that is not sticky, and a conversation without a pin, get every
      group in the proportion of the weights. */
  lemma GroupShare(st: State, db: Db, ask: Ask, now: int, group: int, model: string)
    requires Anew(st, db, ask, now)
    ensures var entries := EntriesOf(db, ask);
            |DrawsTo(st, db, ask, now, AllParts(entries), group, model)| == PartsOf(entries, group, model)
  {
    var entries := EntriesOf(db, ask);
    var draws := DrawsTo(st, db, ask, now, AllParts(entries), group, model);
    hide Anew, Lands, Landing, Total, PartsOf, AllParts, Position;
    AllPartsIsTotal(entries);
    LandingSize(entries, group, model);
    forall n: nat ensures n in draws <==> n in Landing(entries, group, model) {
      LandsInside(st, db, ask, now, n, group, model);
    }
    assert draws == Landing(entries, group, model);
  }

  /** A draw that may be any number counts modulo the sum of the parts. */
  lemma AnyDraw(st: State, db: Db, ask: Ask, now: int, draw: nat, group: int, model: string)
    requires Anew(st, db, ask, now)
    ensures var all := AllParts(EntriesOf(db, ask));
            all > 0 && (Lands(st, db, ask, now, draw, group, model) <==> Lands(st, db, ask, now, draw % all, group, model))
  {
    hide Lands, Total, AllParts, Position;
    var all := Total(EntriesOf(db, ask));
    AllPartsIsTotal(EntriesOf(db, ask));
    LandsAtPosition(st, db, ask, now, draw, group, model);
    TotalPositive(EntriesOf(db, ask));
    ModTwice(draw, all);
    LandsAtPosition(st, db, ask, now, draw % all, group, model);
  }

  lemma ModTwice(draw: nat, n: nat)
    requires n > 0
    ensures draw % n % n == draw % n
  {
    Remainder(0, n, draw % n);
  }

  lemma LandsInside(st: State, db: Db, ask: Ask, now: int, n: nat, group: int, model: string)
    requires Anew(st, db, ask, now)
    ensures var entries := EntriesOf(db, ask);
            n in Landing(entries, group, model) <==> n < Total(entries) && Lands(st, db, ask, now, n, group, model)
  {
    hide Lands, Total, Fits, Position;
    LandsAtPosition(st, db, ask, now, n, group, model);
    if n < Total(EntriesOf(db, ask)) {
      assert n % Total(EntriesOf(db, ask)) == n;
    }
  }

  // ---------- Accounts ----------

  /** Never used, or used no later than the other. */
  predicate UnusedAsLong(a: Account, b: Account) {
    a.lastUsed.None? || (b.lastUsed.Some? && a.lastUsed.value <= b.lastUsed.value)
  }

  /** The longest unused account; of several the one with the smallest id. */
  predicate IsLeastUsed(a: Account, accts: seq<Account>) {
    a in accts && forall b <- accts :: UnusedAsLong(a, b) && (a.lastUsed == b.lastUsed ==> a.id <= b.id)
  }

  /** The account with the most credit about to expire; of several the longest unused, and of these the
      first. */
  predicate IsFirstToExpire(a: Account, accts: seq<Account>) {
    && (forall b <- accts :: a.expiring > b.expiring || (a.expiring == b.expiring && UnusedAsLong(a, b)))
    && exists i | 0 <= i < |accts| ::
         accts[i] == a && forall j | 0 <= j < i :: accts[j].expiring != a.expiring || accts[j].lastUsed != a.lastUsed
  }

  /** How many requests the route has had by turns. */
  function Turns(st: State, route: int): nat {
    if route in st.counters then st.counters[route] else 0
  }

  /** What each strategy gives among the accounts usable in a group, and what it does to the counters. */
  ghost predicate Picked(st: State, st1: State, s: Strategy, route: int, accts: seq<Account>, draw: nat, a: Option<Account>) {
    && (a.None? <==> accts == [])
    && (a.Some? && s == LeastUsedOnly ==> IsLeastUsed(a.value, accts))
    && (a.Some? && (s == Expiring || s == StickyExpiring) ==>
          if exists b <- accts :: b.expiring > 0.0 then IsFirstToExpire(a.value, accts) else IsLeastUsed(a.value, accts))
    && (a.Some? && s == Random ==> a.value == accts[draw % |accts|])
    && (if s in [LeastUsedOnly, Expiring, StickyExpiring, Random] || accts == [] then st1.counters == st.counters
        else st1.counters == st.counters[route := Turns(st, route) + 1] && a == Some(accts[(Turns(st, route) + 1) % |accts|]))
  }

  lemma LeastUsedPicked(accts: seq<Account>)
    ensures LeastUsed(accts).None? <==> accts == []
    ensures accts != [] ==> IsLeastUsed(LeastUsed(accts).value, accts)
  {
    if accts != [] {
      OrdersAreStrictWeak();
      ScanForemost(LeastUsedFirst, accts);
      var a := LeastUsed(accts).value;
      forall b | b in accts ensures UnusedAsLong(a, b) && (a.lastUsed == b.lastUsed ==> a.id <= b.id) {
        assert !LeastUsedFirst(b, a);
      }
    }
  }

  lemma FirstToExpirePicked(accts: seq<Account>)
    requires accts != []
    ensures var a := accts[Choice.Scan(Sooner, accts)]; IsFirstToExpire(a, accts)
  {
    OrdersAreStrictWeak();
    ScanForemost(Sooner, accts);
    var i := Choice.Scan(Sooner, accts);
    var a := accts[i];
    forall b | b in accts ensures a.expiring > b.expiring || (a.expiring == b.expiring && UnusedAsLong(a, b)) {
      assert !Sooner(b, a);
    }
    forall j | 0 <= j < i ensures accts[j].expiring != a.expiring || accts[j].lastUsed != a.lastUsed {
      assert Sooner(a, accts[j]);
    }
  }

  lemma TurnPicks(st: State, s: Strategy, route: int, accts: seq<Account>, draw: nat)
    ensures var (st1, a) := ByRoundRobin(st, route, accts);
            st1.sticky == st.sticky
            && (s !in [LeastUsedOnly, Expiring, StickyExpiring, Random] ==> Picked(st, st1, s, route, accts, draw, a))
  {
    hide IsLeastUsed, IsFirstToExpire;
  }

  lemma ChoosePicks(st: State, db: Db, s: Strategy, route: int, group: int, draw: nat, now: int)
    requires s != Follow
    ensures var (st1, a) := Choose(st, db, s, route, group, draw, now);
            Picked(st, st1, s, route, Available(db, db.Members(group), now), draw, a) && st1.sticky == st.sticky
  {
    hide LeastUsed, Available, IsLeastUsed, IsFirstToExpire, ByRoundRobin;
    TurnPicks(st, s, route, Available(db, db.Members(group), now), draw);
    var accts := Available(db, db.Members(group), now);
    LeastUsedPicked(accts);
    if accts != [] {
      FirstToExpirePicked(accts);
      assert AnyExpiring(accts) <==> exists b <- accts :: b.expiring > 0.0;
    }
  }

  /** How long a new pin lives. */
  function Lifetime(st: State): int {
    if st.ttl > 0 then st.ttl else 30 * 60
  }

  /** Such a request gets the account that the route's strategy names in the group it was given, under the
      group's plugin; on a sticky route the conversation is pinned to it for the lifetime of pins, and the
      account counts as used now. Without a usable account nothing is pinned and none is marked. */
  lemma AccountChosen(st: State, db: Db, ask: Ask, now: int)
    requires Anew(st, db, ask, now) && st.standard != Follow
    ensures var (st1, db1, res) := Resolve(st, db, ask, now);
            var s := Used(st, db.routes[ask.model]);
            && res.Found? && res.target.plugin == db.Plugin(res.target.group)
            && Picked(st, st1, s, db.routes[ask.model].id, Available(db, db.Members(res.target.group), now),
                      ask.accountDraw, res.target.account)
            && (res.target.account.None? ==> db1 == db)
            && (res.target.account.Some? ==> UsedNow(db, db1, res.target.account.value.id, now))
            && (Sticks(s) && res.target.account.Some? ==>
                  Holds(st1, ask.fp, Pinned(res.target.group, res.target.model, res.target.account.value.id, now + Lifetime(st))))
  {
    hide Resolve, Choose, Available, MarkUsed, Picked, Selected;
    AnewIsChosen(st, db, ask, now);
    var route := db.routes[ask.model];
    var s := Used(st, route);
    var st0 := Dropped(st, ask, now, Sticks(s));
    var e := Selected(route.groups.value, ask.groupDraw);
    ChoosePicks(st0, db, s, route.id, e.group, ask.accountDraw, now);
    ChooseFrame(st0, db, s, route.id, e.group, ask.accountDraw, now);
    var (st1, a) := Choose(st0, db, s, route.id, e.group, ask.accountDraw, now);
    OnlyCounters(st, st0, st1, s, route.id, Available(db, db.Members(e.group), now), ask.accountDraw, a);
    if a.Some? {
      MarkedIsUsed(db, a.value.id, now);
    }
  }

  lemma OnlyCounters(st: State, st0: State, st1: State, s: Strategy, route: int, accts: seq<Account>, draw: nat, a: Option<Account>)
    requires st0.counters == st.counters && Picked(st0, st1, s, route, accts, draw, a)
    ensures forall st2: State :: st2.counters == st1.counters ==> Picked(st, st2, s, route, accts, draw, a)
  {
  }

  /** The account's row says so, and nothing else changes. */
  ghost predicate UsedNow(db: Db, db1: Db, id: int, now: int) {
    && db1 == db.(accounts := db1.accounts)
    && (forall k :: k in db1.accounts <==> k in db.accounts)
    && forall k <- db.accounts :: db1.accounts[k] == if k == id then db.accounts[k].(lastUsed := Some(now)) else db.accounts[k]
  }

  lemma MarkedIsUsed(db: Db, id: int, now: int)
    ensures UsedNow(db, db.Marked(id, now), id, now)
  {
  }

  /** A request served from its pin marks the account as well. */
  lemma EveryAnswerMarks(st: State, db: Db, ask: Ask, now: int)
    ensures var (st1, db1, res) := Resolve(st, db, ask, now);
            if res.Found? && res.target.account.Some? then UsedNow(db, db1, res.target.account.value.id, now) else db1 == db
  {
    hide Resolve, UsedNow;
    AskMarks(st, db, ask, now);
    var res := Resolve(st, db, ask, now).2;
    if res.Found? && res.target.account.Some? {
      MarkedIsUsed(db, res.target.account.value.id, now);
    }
  }

  /** The failover target is chosen in the same way, in the group the route names for it. */
  lemma FailoverChosen(st: State, db: Db, route: Route, draw: nat, now: int)
    requires st.standard != Follow
    ensures var (st1, db1, target) := PickFailover(st, db, route, draw, now);
            var accts := Available(db, db.Members(route.failoverGroup), now);
            && (target.None? <==> route.failoverGroup == 0 || route.failoverModel == "" || accts == [])
            && (target.None? ==> st1 == st && db1 == db)
            && (target.Some? ==>
                  && target.value.group == route.failoverGroup && target.value.model == route.failoverModel
                  && target.value.plugin == db.Plugin(route.failoverGroup)
                  && target.value.account.Some? && UsedNow(db, db1, target.value.account.value.id, now)
                  && Picked(st, st1, Used(st, route), route.id, accts, draw, target.value.account))
  {
    hide Choose, Available, UsedNow;
    var s := Used(st, route);
    ChoosePicks(st, db, s, route.id, route.failoverGroup, draw, now);
    ChooseFrame(st, db, s, route.id, route.failoverGroup, draw, now);
    var a := Choose(st, db, s, route.id, route.failoverGroup, draw, now).1;
    if a.Some? {
      MarkedIsUsed(db, a.value.id, now);
    }
  }

  /** A new policy or default strategy counts from then on, and nothing else changes; values that are not
      positive leave the policy as it is, and an unknown strategy sets the built-in one. */
  lemma SettingsCount(st: State, ttl: int, cleanEvery: int, s: Strategy, route: Route)
    ensures var st1 := Policy(st, ttl, cleanEvery);
            && Lifetime(st1) == (if ttl > 0 then ttl else Lifetime(st))
            && st1.cleanEvery == (if cleanEvery > 0 then cleanEvery else st.cleanEvery)
            && st1.sticky == st.sticky && st1.counters == st.counters && st1.standard == st.standard
    ensures route.strategy == Follow ==>
              Used(st.(standard := Standard(s)), route) == if s == Follow || s == Unknown then StickyExpiring else s
    ensures INITIAL == State(map[], map[], 30 * 60, 5 * 60, StickyExpiring)
  {
  }

  // ---------- Models that are no route ----------

  /** The accounts that qualify: they declare the model or, if none does, their plugin is the one hinted at. */
  ghost predicate Qualifies(db: Db, id: int, name: string, hint: string, now: int) {
    id in db.rows && Usable(db.accounts, id, now) &&
    if exists k <- db.rows :: Usable(db.accounts, k, now) && db.Declares(k, name) then db.Declares(id, name)
    else hint != "" && db.Owner(id) == hint
  }

  predicate AsSoon(a: Account, b: Account) {
    a.expiring > b.expiring || (a.expiring == b.expiring && UnusedAsLong(a, b))
  }

  lemma SortedRows(db: Db, name: string, now: int, c: Account)
    requires Keyed(db.accounts)
    ensures var accts := Sorted(LastUsedAsc, Available(db, db.rows, now));
            && (c in accts <==> c.id in db.rows && Usable(db.accounts, c.id, now) && db.accounts[c.id] == c)
            && (c in Filter((a: Account) => db.Declares(a.id, name), accts) <==> c in accts && db.Declares(c.id, name))
  {
    hide Sorted, Available, LastUsedAsc, Usable;
    OrdersAreStrictWeak();
    var usable := Available(db, db.rows, now);
    AvailableSpec(db, db.rows, now, c);
    FilterSpec((a: Account) => db.Declares(a.id, name), Sorted(LastUsedAsc, usable), c);
    if c in usable {
      SortedHas(LastUsedAsc, usable, c);
    }
  }

  lemma CandidatesQualify(db: Db, name: string, hint: string, now: int, a: Account)
    requires Keyed(db.accounts)
    ensures a in Candidates(db, name, hint, now) <==> Qualifies(db, a.id, name, hint, now) && db.accounts[a.id] == a
  {
    hide Sorted, Available, LastUsedAsc, Filter;
    var accts := Sorted(LastUsedAsc, Available(db, db.rows, now));
    var declared := Filter((c: Account) => db.Declares(c.id, name), accts);
    SortedRows(db, name, now, a);
    FilterSpec((c: Account) => db.Owner(c.id) == hint, accts, a);
    if exists k <- db.rows :: Usable(db.accounts, k, now) && db.Declares(k, name) {
      var k :| k in db.rows && Usable(db.accounts, k, now) && db.Declares(k, name);
      SortedRows(db, name, now, db.accounts[k]);
      assert db.accounts[k] in declared;
    } else if declared != [] {
      SortedRows(db, name, now, declared[0]);
      assert false;
    }
  }

  /** A model that is no route is served by the qualifying account with the most credit about to expire, of
      several by one that is unused as long as any; and by none exactly if none qualifies. */
  lemma DirectChosen(db: Db, name: string, hint: string, now: int)
    requires Keyed(db.accounts)
    ensures var res := ResolveDirect(db, name, hint, now);
            && (res.None? <==> name == "" || forall id <- db.rows :: !Qualifies(db, id, name, hint, now))
            && (res.Some? ==>
                  && res.value.account.Some? && res.value.model == name
                  && var a := res.value.account.value;
                  && Qualifies(db, a.id, name, hint, now) && db.accounts[a.id] == a
                  && res.value.plugin == db.Owner(a.id) && res.value.group == db.Home(a.id)
                  && forall id <- db.rows :: Qualifies(db, id, name, hint, now) ==> AsSoon(a, db.accounts[id]))
  {
    hide Candidates, Qualifies;
    var cands := Candidates(db, name, hint, now);
    forall id | id in db.rows && Qualifies(db, id, name, hint, now) ensures id in db.accounts && db.accounts[id] in cands {
      QualifiedRow(db, id, name, hint, now);
      CandidatesQualify(db, name, hint, now, db.accounts[id]);
    }
    if cands != [] {
      var a := cands[Choice.Scan(Sooner, cands)];
      assert a in cands;
      CandidatesQualify(db, name, hint, now, a);
      QualifiedRow(db, a.id, name, hint, now);
      BestOf(cands);
      forall c <- cands ensures AsSoon(a, c) {
        assert !Sooner(c, a);
      }
    }
  }

  lemma QualifiedRow(db: Db, id: int, name: string, hint: string, now: int)
    requires Qualifies(db, id, name, hint, now) && Keyed(db.accounts)
    ensures id in db.accounts && db.accounts[id].id == id && id in db.rows
  {
  }
}
