/** Routing: sticky sessions over a table with expiry, and the choice of group and account
    (router/router.go, router/direct.go). */
module Router {
  import opened Accounts
  import opened Text
  import opened Choice

  // ---------- What the database holds ----------

  /** Follow means the global default; a strategy that is not known acts like round robin. */
  datatype Strategy = Follow | Sticky | StickyExpiring | RoundRobin | Random | LeastUsedOnly | Expiring | Unknown
  {
    predicate IsSticky() {
      Sticky? || StickyExpiring?
    }
  }

  /** groups is None when the stored weight table is not valid JSON. */
  datatype Route = Route(id: int, strategy: Strategy, groups: Option<seq<Entry>>, failoverEnabled: bool, on4xx: bool,
                         on5xx: bool, failoverGroup: int, failoverModel: string)

  /** members lists the accounts of a group, bindings the routes a key is bound to, plugins the
      plugin of a group; rows lists all accounts, models the models an account declares, owners its
      plugin, home its first group. */
  datatype Db = Db(accounts: Table, members: map<int, seq<int>>, routes: map<string, Route>, bindings: map<int, set<int>>,
                   plugins: map<int, string>, rows: seq<int>, models: map<int, seq<string>>, owners: map<int, string>,
                   home: map<int, int>)
  {
    function Members(group: int): seq<int> {
      if group in members then members[group] else []
    }

    function Plugin(group: int): string {
      if group in plugins then plugins[group] else ""
    }

    predicate Declares(id: int, model: string) {
      id in models && model in models[id]
    }

    function Owner(id: int): string {
      if id in owners then owners[id] else ""
    }

    function Home(id: int): int {
      if id in home then home[id] else 0
    }

    function Marked(id: int, now: int): Db {
      this.(accounts := MarkUsed(accounts, id, now))
    }
  }

  /** The rows among ids that may be selected now. */
  function Available(db: Db, ids: seq<int>, now: int): seq<Account> {
    if ids == [] then []
    else (if Usable(db.accounts, ids[0], now) then [db.accounts[ids[0]]] else []) + Available(db, ids[1..], now)
  }

  lemma {:induction false} AvailableSpec(db: Db, ids: seq<int>, now: int, a: Account)
    requires Keyed(db.accounts)
    ensures a in Available(db, ids, now) <==> a.id in ids && Usable(db.accounts, a.id, now) && db.accounts[a.id] == a
  {
    if ids != [] {
      AvailableSpec(db, ids[1..], now, a);
    }
  }

  // ---------- Router state ----------

  datatype Pinned = Pinned(group: int, model: string, account: int, expires: int)

  datatype State = State(sticky: map<string, Pinned>, counters: map<int, nat>, ttl: int, cleanEvery: int, standard: Strategy)

  const DEFAULT_TTL := 30 * 60
  const DEFAULT_CLEAN := 5 * 60
  const MAX_STICKY := 4096

  const INITIAL := State(map[], map[], DEFAULT_TTL, DEFAULT_CLEAN, StickyExpiring)

  function Effective(st: State, route: Route): Strategy {
    if route.strategy != Follow then route.strategy else st.standard
  }

  datatype Resolved = Resolved(account: Option<Account>, plugin: string, group: int, model: string)

  datatype Resolution = NotRoute | Forbidden | BadGroups | Found(target: Resolved)

  predicate Authorized(db: Db, key: int, route: int) {
    key !in db.bindings || db.bindings[key] == {} || route in db.bindings[key]
  }

  predicate Listed(entries: seq<Entry>, group: int, model: string) {
    exists i | 0 <= i < |entries| :: entries[i].group == group && entries[i].model == model
  }

  /** The table after the lookup, and the hit if there is one. */
  function Lookup(sticky: map<string, Pinned>, db: Db, fp: string, entries: seq<Entry>, now: int): (map<string, Pinned>, Option<Resolved>) {
    if fp !in sticky then (sticky, None)
    else
      var e := sticky[fp];
      if now > e.expires then (sticky - {fp}, None)
      else if Listed(entries, e.group, e.model) && Usable(db.accounts, e.account, now) && e.account in db.Members(e.group) then
        (sticky, Some(Resolved(Some(db.accounts[e.account]), db.Plugin(e.group), e.group, e.model)))
      else (sticky, None)
  }

  lemma HitHasAccount(sticky: map<string, Pinned>, db: Db, fp: string, entries: seq<Entry>, now: int)
    ensures var hit := Lookup(sticky, db, fp, entries, now).1;
            hit.Some? ==> hit.value.account.Some?
  {
  }

  /** How long a new entry lives. */
  function Ttl(st: State): int {
    if st.ttl > 0 then st.ttl else DEFAULT_TTL
  }

  function Save(st: State, fp: string, e: Entry, account: int, now: int): State {
    st.(sticky := st.sticky[fp := Pinned(e.group, e.model, account, now + Ttl(st))])
  }

  /** rand.Intn(n) for a draw that may be any number. */
  function Intn(draw: nat, n: nat): (r: nat)
    requires n > 0
    ensures r < n
  {
    draw % n
  }

  function ByRoundRobin(st: State, route: int, accts: seq<Account>): (State, Option<Account>) {
    var r := Choice.TakeTurn(st.counters, route, accts);
    (st.(counters := r.0), r.1)
  }

  /** One account of a group, by strategy. */
  function Choose(st: State, db: Db, strategy: Strategy, route: int, group: int, draw: nat, now: int): (State, Option<Account>) {
    var accts := Available(db, db.Members(group), now);
    match strategy
    case Random => (st, if accts == [] then None else Some(accts[Intn(draw, |accts|)]))
    case LeastUsedOnly => (st, LeastUsed(accts))
    case Expiring => (st, ExpiringFirst(accts))
    case StickyExpiring => (st, ExpiringFirst(accts))
    case _ => ByRoundRobin(st, route, accts)
  }

  lemma {:induction false} TotalPositive(entries: seq<Entry>)
    requires entries != []
    ensures Total(entries) > 0
  {
  }

  /** The group a draw selects. */
  function Selected(entries: seq<Entry>, draw: nat): Entry
    requires entries != []
  {
    TotalPositive(entries);
    var e := entries[Position(entries, Intn(draw, Total(entries)))];
    e.(weight := Weight(e))
  }

  /** A request of a key for a model, with the fingerprint of its conversation. */
  datatype Ask = Ask(key: Option<int>, model: string, fp: string, groupDraw: nat, accountDraw: nat)

  function ChooseAnew(st: State, db: Db, ask: Ask, route: Route, entries: seq<Entry>, now: int): (State, Db, Resolution)
    requires entries != []
  {
    var strategy := Effective(st, route);
    var e := Selected(entries, ask.groupDraw);
    var (st1, acct) := Choose(st, db, strategy, route.id, e.group, ask.accountDraw, now);
    var st2 := if acct.Some? && strategy.IsSticky() then Save(st1, ask.fp, e, acct.value.id, now) else st1;
    (st2, if acct.Some? then db.Marked(acct.value.id, now) else db,
     Found(Resolved(acct, db.Plugin(e.group), e.group, e.model)))
  }

  function Resolve(st: State, db: Db, ask: Ask, now: int): (State, Db, Resolution) {
    if ask.key.None? || ask.model !in db.routes then (st, db, NotRoute)
    else
      var route := db.routes[ask.model];
      if !Authorized(db, ask.key.value, route.id) then (st, db, Forbidden)
      else if route.groups.None? then (st, db, BadGroups)
      else if route.groups.value == [] then (st, db, NotRoute)
      else
        var entries := route.groups.value;
        if Effective(st, route).IsSticky() then
          var (sticky, hit) := Lookup(st.sticky, db, ask.fp, entries, now);
          HitHasAccount(st.sticky, db, ask.fp, entries, now);
          if hit.Some? then (st.(sticky := sticky), db.Marked(hit.value.account.value.id, now), Found(hit.value))
          else ChooseAnew(st.(sticky := sticky), db, ask, route, entries, now)
        else ChooseAnew(st, db, ask, route, entries, now)
  }

  /** The failover target of a route; it is not pinned. */
  function PickFailover(st: State, db: Db, route: Route, draw: nat, now: int): (State, Db, Option<Resolved>) {
    if route.failoverGroup == 0 || route.failoverModel == "" then (st, db, None)
    else
      var (st1, acct) := Choose(st, db, Effective(st, route), route.id, route.failoverGroup, draw, now);
      if acct.None? then (st1, db, None)
      else
        (st1, db.Marked(acct.value.id, now),
         Some(Resolved(acct, db.Plugin(route.failoverGroup), route.failoverGroup, route.failoverModel)))
  }

  function Filter(keep: Account -> bool, accts: seq<Account>): seq<Account> {
    if accts == [] then []
    else
      var last := |accts| - 1;
      Filter(keep, accts[..last]) + if keep(accts[last]) then [accts[last]] else []
  }

  lemma {:induction false} FilterSpec(keep: Account -> bool, accts: seq<Account>, a: Account)
    ensures a in Filter(keep, accts) <==> a in accts && keep(a)
    decreases |accts|
  {
    if accts != [] {
      FilterSpec(keep, accts[..|accts| - 1], a);
      assert accts == accts[..|accts| - 1] + [accts[|accts| - 1]];
    }
  }

  /** Usable accounts that declare the model, or else those of the hinted plugin; the longest unused
      first, as the query orders them. */
  function Candidates(db: Db, name: string, hint: string, now: int): seq<Account> {
    var accts := Sorted(LastUsedAsc, Available(db, db.rows, now));
    var declared := Filter((a: Account) => db.Declares(a.id, name), accts);
    if declared == [] && hint != "" then Filter((a: Account) => db.Owner(a.id) == hint, accts) else declared
  }

  /** A model that is no route, served by an account that declares it. */
  function ResolveDirect(db: Db, name: string, hint: string, now: int): Option<Resolved> {
    if name == "" then None
    else
      var cands := Candidates(db, name, hint, now);
      if cands == [] then None
      else
        var a := cands[Scan(Sooner, cands)];
        Some(Resolved(Some(a), db.Owner(a.id), db.Home(a.id), name))
  }

  /** The loop that collects candidates. */
  method Collect(keep: Account -> bool, accts: seq<Account>) returns (out: seq<Account>)
    ensures out == Filter(keep, accts)
  {
    out := [];
    for i := 0 to |accts|
      invariant out == Filter(keep, accts[..i])
    {
      assert accts[..i + 1][..i] == accts[..i];
      if keep(accts[i]) {
        out := out + [accts[i]];
      }
    }
    assert accts[..|accts|] == accts;
  }

  method FindDirect(db: Db, name: string, hint: string, now: int) returns (res: Option<Resolved>)
    ensures res == ResolveDirect(db, name, hint, now)
  {
    hide Filter, Sorted, Available, Scan;
    if name == "" {
      return None;
    }
    var accts := Sorted(LastUsedAsc, Available(db, db.rows, now));
    var cands := Collect((a: Account) => db.Declares(a.id, name), accts);
    if |cands| == 0 && hint != "" {
      cands := Collect((a: Account) => db.Owner(a.id) == hint, accts);
    }
    var acct := PickPreferred(cands);
    if acct.None? {
      return None;
    }
    res := Some(Resolved(acct, db.Owner(acct.value.id), db.Home(acct.value.id), name));
  }

  function Unexpired(sticky: map<string, Pinned>, now: int): map<string, Pinned> {
    map fp | fp in sticky && now <= sticky[fp].expires :: sticky[fp]
  }

  function Cleanup(sticky: map<string, Pinned>, now: int): map<string, Pinned> {
    var kept := Unexpired(sticky, now);
    if |kept| > MAX_STICKY then map[] else kept
  }

  function Policy(st: State, ttl: int, cleanEvery: int): State {
    st.(ttl := if ttl > 0 then ttl else st.ttl, cleanEvery := if cleanEvery > 0 then cleanEvery else st.cleanEvery)
  }

  function Standard(s: Strategy): Strategy {
    if s == Follow || s == Unknown then StickyExpiring else s
  }

  /** The Router object. Every method sees the database rows as they are at its call. */
  class Router {
    var sticky: map<string, Pinned>
    var counters: map<int, nat>
    var ttl: int
    var cleanEvery: int
    var standard: Strategy
    var db: Db

    ghost function St(): State
      reads this
    {
      State(sticky, counters, ttl, cleanEvery, standard)
    }

    constructor (db: Db)
      ensures St() == INITIAL && this.db == db
    {
      this.db := db;
      sticky, counters := map[], map[];
      ttl, cleanEvery := DEFAULT_TTL, DEFAULT_CLEAN;
      standard := StickyExpiring;
    }

    method SetDefaultStrategy(s: Strategy)
      modifies this
      ensures db == old(db) && St() == old(St()).(standard := Standard(s))
    {
      var chosen := s;
      if s == Follow || s == Unknown {
        chosen := StickyExpiring;
      }
      standard := chosen;
    }

    method SetStickyPolicy(newTtl: int, newCleanEvery: int)
      modifies this
      ensures db == old(db) && St() == Policy(old(St()), newTtl, newCleanEvery)
    {
      if newTtl > 0 {
        ttl := newTtl;
      }
      if newCleanEvery > 0 {
        cleanEvery := newCleanEvery;
      }
    }

    /** Visits the entries in any order. */
    method CleanupSticky(now: int)
      modifies this
      ensures db == old(db) && St() == old(St()).(sticky := Cleanup(old(sticky), now))
    {
      var todo := sticky.Keys;
      while todo != {}
        invariant todo <= sticky.Keys && db == old(db) && St() == old(St()).(sticky := sticky)
        invariant forall k <- sticky :: k in old(sticky) && sticky[k] == old(sticky)[k]
        invariant forall k <- old(sticky) :: k in sticky <==> k in todo || now <= old(sticky)[k].expires
        decreases |todo|
      {
        var k :| k in todo;
        todo := todo - {k};
        if now > sticky[k].expires {
          sticky := sticky - {k};
        }
      }
      assert sticky == Unexpired(old(sticky), now);
      if |sticky| > MAX_STICKY {
        sticky := map[];
      }
    }

    method LookupSticky(fp: string, entries: seq<Entry>, now: int) returns (hit: Option<Resolved>)
      modifies this
      ensures db == old(db)
      ensures var after := Lookup(old(sticky), db, fp, entries, now);
              St() == old(St()).(sticky := after.0) && hit == after.1
    {
      if fp !in sticky {
        return None;
      }
      var e := sticky[fp];
      if now > e.expires {
        sticky := sticky - {fp};
        return None;
      }
      var valid := false;
      var i := 0;
      while i < |entries| && !valid
        invariant i <= |entries| && (!valid ==> !Listed(entries[..i], e.group, e.model))
        invariant valid ==> Listed(entries, e.group, e.model)
        invariant St() == old(St()) && db == old(db)
        decreases |entries| - i, !valid
      {
        if entries[i].group == e.group && entries[i].model == e.model {
          valid := true;
        } else {
          i := i + 1;
        }
      }
      assert entries[..|entries|] == entries;
      if !valid || !Usable(db.accounts, e.account, now) || e.account !in db.Members(e.group) {
        return None;
      }
      hit := Some(Resolved(Some(db.accounts[e.account]), db.Plugin(e.group), e.group, e.model));
    }

    method SaveSticky(fp: string, e: Entry, account: int, now: int)
      modifies this
      ensures db == old(db) && St() == Save(old(St()), fp, e, account, now)
    {
      var keep := DEFAULT_TTL;
      if ttl > 0 {
        keep := ttl;
      }
      sticky := sticky[fp := Pinned(e.group, e.model, account, now + keep)];
    }

    method TakeTurn(route: int, accts: seq<Account>) returns (acct: Option<Account>)
      modifies this
      ensures db == old(db) && (St(), acct) == ByRoundRobin(old(St()), route, accts)
    {
      if accts == [] {
        return None;
      }
      var c := NextTurn(counters, route);
      counters := counters[route := c];
      acct := Some(accts[c % |accts|]);
    }

    method ChooseAccount(strategy: Strategy, route: int, group: int, draw: nat, now: int) returns (acct: Option<Account>)
      modifies this
      ensures db == old(db) && (St(), acct) == Choose(old(St()), db, strategy, route, group, draw, now)
    {
      var accts := Available(db, db.Members(group), now);
      match strategy
      case Random =>
        acct := if accts == [] then None else Some(accts[Intn(draw, |accts|)]);
      case LeastUsedOnly =>
        acct := LeastUsed(accts);
      case Expiring =>
        acct := ByExpiringFirst(accts);
      case StickyExpiring =>
        acct := ByExpiringFirst(accts);
      case _ =>
        acct := TakeTurn(route, accts);
    }

    method ResolveAsk(ask: Ask, now: int) returns (res: Resolution)
      modifies this
      ensures (St(), db, res) == Resolve(old(St()), old(db), ask, now)
    {
      hide Lookup, Choose, Save;
      if ask.key.None? || ask.model !in db.routes {
        return NotRoute;
      }
      var route := db.routes[ask.model];
      if !Authorized(db, ask.key.value, route.id) {
        return Forbidden;
      }
      if route.groups.None? {
        return BadGroups;
      }
      var entries := route.groups.value;
      if entries == [] {
        return NotRoute;
      }
      var strategy := if route.strategy != Follow then route.strategy else standard;
      if strategy.IsSticky() {
        var hit := LookupSticky(ask.fp, entries, now);
        if hit.Some? {
          HitHasAccount(old(sticky), db, ask.fp, entries, now);
          db := db.Marked(hit.value.account.value.id, now);
          return Found(hit.value);
        }
      }
      TotalPositive(entries);
      var e := PickGroup(entries, Intn(ask.groupDraw, Total(entries)));
      var acct := ChooseAccount(strategy, route.id, e.group, ask.accountDraw, now);
      if acct.Some? && strategy.IsSticky() {
        SaveSticky(ask.fp, e, acct.value.id, now);
      }
      if acct.Some? {
        db := db.Marked(acct.value.id, now);
      }
      res := Found(Resolved(acct, db.Plugin(e.group), e.group, e.model));
    }

    method PickFailoverTarget(route: Route, draw: nat, now: int) returns (res: Option<Resolved>)
      modifies this
      ensures (St(), db, res) == PickFailover(old(St()), old(db), route, draw, now)
    {
      hide Choose;
      if route.failoverGroup == 0 || route.failoverModel == "" {
        return None;
      }
      var strategy := if route.strategy != Follow then route.strategy else standard;
      var acct := ChooseAccount(strategy, route.id, route.failoverGroup, draw, now);
      if acct.None? {
        return None;
      }
      db := db.Marked(acct.value.id, now);
      res := Some(Resolved(acct, db.Plugin(route.failoverGroup), route.failoverGroup, route.failoverModel));
    }
  }
}
