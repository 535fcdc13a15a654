/** How the router chooses: a weighted group, the next account in turn, the account whose credit
    expires first (router/router.go, router/direct.go). */
module Choice {
  import opened Accounts
  import opened Arith
  import opened Text

  // ---------- Weighted choice ----------

  datatype Entry = Entry(group: int, model: string, weight: int)

  /** Weights that are not positive count as 1. */
  function Weight(e: Entry): nat {
    if e.weight <= 0 then 1 else e.weight
  }

  function Total(entries: seq<Entry>): nat {
    if entries == [] then 0 else Total(entries[..|entries| - 1]) + Weight(entries[|entries| - 1])
  }

  lemma {:induction false} TotalMonotone(entries: seq<Entry>, i: nat, j: nat)
    requires i <= j <= |entries|
    ensures Total(entries[..i]) <= Total(entries[..j])
    ensures i < j ==> Total(entries[..i]) + Weight(entries[i]) <= Total(entries[..j])
    decreases j
  {
    if i < j {
      TotalMonotone(entries, i, j - 1);
      assert entries[..j][..j - 1] == entries[..j - 1];
    }
  }

  /** The draw n falls into the interval of position i among the prefix sums of the weights. */
  predicate Drawn(entries: seq<Entry>, n: nat, i: nat) {
    i < |entries| && Total(entries[..i]) <= n < Total(entries[..i]) + Weight(entries[i])
  }

  lemma DrawnOnce(entries: seq<Entry>, n: nat, i: nat, j: nat)
    requires Drawn(entries, n, i) && Drawn(entries, n, j)
    ensures i == j
  {
    if i < j {
      TotalMonotone(entries, i, j);
    } else if j < i {
      TotalMonotone(entries, j, i);
    }
  }

  /** The position a draw selects. */
  function Position(entries: seq<Entry>, n: nat): (i: nat)
    requires n < Total(entries)
    ensures Drawn(entries, n, i)
  {
    var last := |entries| - 1;
    if n >= Total(entries[..last]) then last
    else
      var i := Position(entries[..last], n);
      assert entries[..last][..i] == entries[..i];
      i
  }

  /** draw stands for rand.Intn(total). The code after the second loop is never reached. */
  method PickGroup(entries: seq<Entry>, draw: nat) returns (e: Entry)
    requires entries != [] && draw < Total(entries)
    ensures var at := Position(entries, draw);
            e == entries[at].(weight := Weight(entries[at]))
  {
    var total := 0;
    for i := 0 to |entries|
      invariant total == Total(entries[..i])
    {
      assert entries[..i + 1][..i] == entries[..i];
      total := total + Weight(entries[i]);
    }
    assert entries[..|entries|] == entries;
    if total == 0 {
      assert false;
    }
    var n: int := draw;
    for i := 0 to |entries|
      invariant n == draw - Total(entries[..i]) && n >= 0
    {
      assert entries[..i + 1][..i] == entries[..i];
      n := n - Weight(entries[i]);
      if n < 0 {
        DrawnOnce(entries, draw, i, Position(entries, draw));
        return entries[i].(weight := Weight(entries[i]));
      }
    }
    assert false;
  }

  ghost function Draws(entries: seq<Entry>, i: nat): set<nat> {
    set n: nat | n < Total(entries) && Drawn(entries, n, i)
  }

  /** Of the Total(entries) possible draws exactly max(1, weight) select each position; by DrawnOnce and
      Position every draw selects one and only one. */
  lemma ExactShare(entries: seq<Entry>, i: nat)
    requires i < |entries|
    ensures |Draws(entries, i)| == Weight(entries[i]) == if entries[i].weight > 1 then entries[i].weight else 1
  {
    TotalMonotone(entries, i, |entries|);
    assert entries[..|entries|] == entries;
    var lo := Total(entries[..i]);
    IntervalSpec(lo, Weight(entries[i]));
    assert Draws(entries, i) == Interval(lo, Weight(entries[i]));
  }

  // ---------- Round robin ----------

  /** The counter is advanced first, then taken modulo the number of accounts. */
  function NextTurn(counters: map<int, nat>, route: int): nat {
    (if route in counters then counters[route] else 0) + 1
  }

  /** The next account in turn among accts, and the counters after it. */
  function TakeTurn(counters: map<int, nat>, route: int, accts: seq<Account>): (map<int, nat>, Option<Account>) {
    if accts == [] then (counters, None)
    else
      var c := NextTurn(counters, route);
      (counters[route := c], Some(accts[c % |accts|]))
  }

  /** One pick by turns: the route, and the accounts usable at that moment. */
  datatype Turn = Turn(route: int, accts: seq<Account>)

  /** The accounts that one route gets among the turns of many, in order. */
  function Picks(counters: map<int, nat>, turns: seq<Turn>, route: int): seq<Account>
    decreases turns
  {
    if turns == [] then []
    else
      var r := TakeTurn(counters, turns[0].route, turns[0].accts);
      (if turns[0].route == route && r.1.Some? then [r.1.value] else []) + Picks(r.0, turns[1..], route)
  }

  function Count<T(==)>(s: seq<T>, x: T): nat {
    if s == [] then 0 else (if s[0] == x then 1 else 0) + Count(s[1..], x)
  }

  /** c + 1, …, c + m modulo n. */
  function Cycle(c: nat, m: nat, n: nat): seq<nat>
    requires n > 0
    decreases m
  {
    if m == 0 then [] else [(c + 1) % n] + Cycle(c + 1, m - 1, n)
  }

  /** The accounts at some positions of a list. */
  function At(accts: seq<Account>, positions: seq<nat>): (r: seq<Account>)
    requires forall i | 0 <= i < |positions| :: positions[i] < |accts|
    ensures |r| == |positions| && forall i | 0 <= i < |r| :: r[i] == accts[positions[i]]
  {
    seq(|positions|, i requires 0 <= i < |positions| => accts[positions[i]])
  }

  lemma {:induction false} CycleAt(c: nat, m: nat, n: nat)
    requires n > 0
    ensures |Cycle(c, m, n)| == m && forall i | 0 <= i < m :: Cycle(c, m, n)[i] == (c + 1 + i) % n
    decreases m
  {
    if m > 0 {
      CycleAt(c + 1, m - 1, n);
    }
  }

  /** The route's turns all see the same accounts. */
  predicate Fixed(turns: seq<Turn>, route: int, accts: seq<Account>) {
    forall i | 0 <= i < |turns| && turns[i].route == route :: turns[i].accts == accts
  }

  /** Turns of other routes do not disturb the cycle. */
  lemma {:induction false} PickOf(counters: map<int, nat>, turns: seq<Turn>, route: int, accts: seq<Account>, i: nat)
    requires accts != [] && Fixed(turns, route, accts) && i < |Picks(counters, turns, route)|
    ensures Picks(counters, turns, route)[i] == accts[(NextTurn(counters, route) + i) % |accts|]
    decreases turns
  {
    var r := TakeTurn(counters, turns[0].route, turns[0].accts);
    assert NextTurn(r.0, route) == NextTurn(counters, route) + if turns[0].route == route then 1 else 0;
    hide NextTurn;
    if turns[0].route != route {
      PickOf(r.0, turns[1..], route, accts, i);
    } else if i > 0 {
      PickOf(r.0, turns[1..], route, accts, i - 1);
    }
  }

  lemma PicksCycle(counters: map<int, nat>, turns: seq<Turn>, route: int, accts: seq<Account>)
    requires accts != [] && Fixed(turns, route, accts)
    ensures var picks := Picks(counters, turns, route);
            var cycle := Cycle(NextTurn(counters, route) - 1, |picks|, |accts|);
            && (forall i | 0 <= i < |cycle| :: cycle[i] < |accts|) && picks == At(accts, cycle)
  {
    hide Picks, Cycle, Fixed;
    var picks := Picks(counters, turns, route);
    CycleAt(NextTurn(counters, route) - 1, |picks|, |accts|);
    forall i | 0 <= i < |picks| ensures picks[i] == accts[(NextTurn(counters, route) + i) % |accts|] {
      PickOf(counters, turns, route, accts, i);
    }
  }

  lemma {:induction false} CountAt(accts: seq<Account>, positions: seq<nat>, x: nat)
    requires x < |accts| && forall i | 0 <= i < |positions| :: positions[i] < |accts|
    requires forall i, j | 0 <= i < j < |accts| :: accts[i] != accts[j]
    ensures Count(At(accts, positions), accts[x]) == Count(positions, x)
    decreases |positions|
  {
    if positions != [] {
      CountAt(accts, positions[1..], x);
      assert At(accts, positions)[1..] == At(accts, positions[1..]);
    }
  }

  lemma {:induction false} CountConcat(s: seq<nat>, t: seq<nat>, x: nat)
    ensures Count(s + t, x) == Count(s, x) + Count(t, x)
  {
    if s == [] {
      assert s + t == t;
    } else {
      CountConcat(s[1..], t, x);
      assert (s + t)[1..] == s[1..] + t;
    }
  }

  lemma {:induction false} CycleSplit(c: nat, m1: nat, m2: nat, n: nat)
    requires n > 0
    ensures Cycle(c, m1 + m2, n) == Cycle(c, m1, n) + Cycle(c + m1, m2, n)
    decreases m1
  {
    if m1 > 0 {
      CycleSplit(c + 1, m1 - 1, m2, n);
    }
  }

  /** Whether x is c + 1, …, or c + m modulo n, for a stretch of at most n turns. */
  predicate Reached(c: nat, m: nat, n: nat, x: nat)
    requires n > 0
  {
    exists t: nat :: c < t <= c + m && t % n == x
  }

  lemma {:induction false} CycleCounts(c: nat, m: nat, n: nat, x: nat)
    requires 0 < n && m <= n
    ensures Count(Cycle(c, m, n), x) == if Reached(c, m, n, x) then 1 else 0
    decreases m
  {
    if m > 0 {
      CycleCounts(c + 1, m - 1, n, x);
      var rest := Cycle(c + 1, m - 1, n);
      assert ([(c + 1) % n] + rest)[1..] == rest;
      if (c + 1) % n == x {
        forall t: nat | c + 1 < t <= c + m ensures t % n != x {
          NotCongruent(c + 1, t, n);
        }
      } else if Reached(c, m, n, x) {
        var t: nat :| c < t <= c + m && t % n == x;
        assert c + 1 < t <= c + 1 + (m - 1);
      }
    }
  }

  lemma AllReached(c: nat, n: nat, x: nat)
    requires x < n
    ensures Reached(c, n, n, x)
  {
    var q := c / n;
    assert c == n * q + c % n;
    Remainder(q, n, x);
    Remainder(q + 1, n, x);
    if x > c % n {
      assert c < n * q + x <= c + n;
    } else {
      assert n * (q + 1) == n * q + n;
      assert c < n * (q + 1) + x <= c + n;
    }
  }

  lemma {:induction false} CycleFair(c: nat, k: nat, n: nat, x: nat)
    requires x < n
    ensures Count(Cycle(c, k * n, n), x) == k
    decreases k
  {
    if k > 0 {
      CycleSplit(c, n, (k - 1) * n, n);
      assert k * n == n + (k - 1) * n;
      CountConcat(Cycle(c, n, n), Cycle(c + n, (k - 1) * n, n), x);
      CycleCounts(c, n, n, x);
      AllReached(c, n, x);
      CycleFair(c + n, k - 1, n, x);
    }
  }

  /** Whatever the counters are, however the turns of other routes are interleaved and whatever
      accounts these have: k times n turns of a route over the same n accounts give each of them
      exactly k turns. */
  lemma Fair(counters: map<int, nat>, turns: seq<Turn>, route: int, accts: seq<Account>, k: nat, x: nat)
    requires x < |accts| && Fixed(turns, route, accts)
    requires forall i, j | 0 <= i < j < |accts| :: accts[i] != accts[j]
    requires |Picks(counters, turns, route)| == k * |accts|
    ensures Count(Picks(counters, turns, route), accts[x]) == k
  {
    var c := NextTurn(counters, route) - 1;
    PicksCycle(counters, turns, route, accts);
    CountAt(accts, Cycle(c, k * |accts|, |accts|), x);
    CycleFair(c, k, |accts|, x);
  }

  // ---------- Ordered choice ----------

  /** Never used comes first, then the longest unused. */
  predicate LastUsedAsc(a: Account, b: Account) {
    if a.lastUsed.None? then b.lastUsed.Some?
    else b.lastUsed.Some? && a.lastUsed.value < b.lastUsed.value
  }

  /** More credit about to expire comes first, then the longest unused. */
  predicate Sooner(a: Account, b: Account) {
    if a.expiring != b.expiring then a.expiring > b.expiring else LastUsedAsc(a, b)
  }

  /** The order of the database query for the least used account: ties go to the smaller id. */
  predicate LeastUsedFirst(a: Account, b: Account) {
    LastUsedAsc(a, b) || (!LastUsedAsc(b, a) && a.id < b.id)
  }

  ghost predicate StrictWeak(before: (Account, Account) -> bool) {
    && (forall a :: !before(a, a))
    && (forall a, b, c :: before(a, b) && before(b, c) ==> before(a, c))
    && (forall a, b, c :: before(a, c) ==> before(a, b) || before(b, c))
  }

  lemma OrdersAreStrictWeak()
    ensures StrictWeak(LastUsedAsc) && StrictWeak(Sooner) && StrictWeak(LeastUsedFirst)
  {
  }

  /** Position i holds an element that none comes before, and the first such element. */
  predicate Foremost(before: (Account, Account) -> bool, s: seq<Account>, i: nat) {
    && i < |s|
    && (forall j | 0 <= j < |s| :: !before(s[j], s[i]))
    && (forall j | 0 <= j < i :: before(s[i], s[j]))
  }

  /** The position a single pass from left to right ends with. */
  function Scan(before: (Account, Account) -> bool, s: seq<Account>): (i: nat)
    requires s != []
    ensures i < |s|
  {
    var last := |s| - 1;
    if last == 0 then 0
    else
      var best := Scan(before, s[..last]);
      if before(s[last], s[best]) then last else best
  }

  lemma {:induction false} ScanForemost(before: (Account, Account) -> bool, s: seq<Account>)
    requires s != [] && StrictWeak(before)
    ensures Foremost(before, s, Scan(before, s))
  {
    var last := |s| - 1;
    if last > 0 {
      ScanForemost(before, s[..last]);
      var best := Scan(before, s[..last]);
      assert forall j | 0 <= j < last :: s[..last][j] == s[j];
      forall j | 0 <= j < last && before(s[last], s[best])
        ensures before(s[last], s[j]) && !before(s[j], s[last])
      {
        assert !before(s[j], s[best]);
      }
    }
  }

  /** direct.go's choice among candidates: one pass, keeping the better of two. */
  method PickPreferred(accts: seq<Account>) returns (acct: Option<Account>)
    ensures acct == if accts == [] then None else Some(accts[Scan(Sooner, accts)])
    ensures accts != [] ==> exists i: nat :: Foremost(Sooner, accts, i) && acct == Some(accts[i])
  {
    if accts == [] {
      return None;
    }
    ghost var at := 0;
    var best := accts[0];
    var bestExpiring := best.expiring;
    for i := 1 to |accts|
      invariant at == Scan(Sooner, accts[..i]) && best == accts[at] && bestExpiring == best.expiring
    {
      var a := accts[i];
      assert accts[..i + 1][..i] == accts[..i];
      if a.expiring > bestExpiring || (a.expiring == bestExpiring && LastUsedAsc(a, best)) {
        best, bestExpiring, at := a, a.expiring, i;
      }
    }
    assert accts[..|accts|] == accts;
    OrdersAreStrictWeak();
    ScanForemost(Sooner, accts);
    acct := Some(best);
  }

  // ---------- Stable sorting ----------

  /** A pair that a stable sort leaves in this order, given the positions in its input. */
  predicate InOrder(before: (Account, Account) -> bool, s: seq<Account>, i: nat, j: nat)
    requires i < |s| && j < |s|
  {
    !before(s[j], s[i]) && (before(s[i], s[j]) || i < j)
  }

  predicate Below(perm: seq<nat>, n: nat) {
    forall i | 0 <= i < |perm| :: perm[i] < n
  }

  /** perm lists the positions of s in the order of a stable sort. */
  predicate StableSort(before: (Account, Account) -> bool, s: seq<Account>, perm: seq<nat>) {
    && |perm| == |s| && Below(perm, |s|)
    && (forall p: nat | p < |s| :: p in perm)
    && (forall i, j | 0 <= i < j < |perm| :: InOrder(before, s, perm[i], perm[j]))
  }

  /** The head of any stable sort is what the single pass finds. */
  lemma SortHeadIsScan(before: (Account, Account) -> bool, s: seq<Account>, perm: seq<nat>)
    requires s != [] && StrictWeak(before) && StableSort(before, s, perm)
    ensures perm[0] == Scan(before, s)
  {
    ScanForemost(before, s);
    var p := Scan(before, s);
    assert p in perm;
    var j :| 0 <= j < |perm| && perm[j] == p;
    assert j > 0 ==> InOrder(before, s, perm[0], perm[j]);
  }

  function Insert(before: (Account, Account) -> bool, s: seq<Account>, perm: seq<nat>, x: nat): (r: seq<nat>)
    requires x < |s| && Below(perm, |s|)
    ensures |r| == |perm| + 1 && Below(r, |s|)
    ensures forall p :: p in r <==> p in perm || p == x
  {
    if perm == [] || before(s[x], s[perm[0]]) then [x] + perm
    else [perm[0]] + Insert(before, s, perm[1..], x)
  }

  predicate Ordered(before: (Account, Account) -> bool, s: seq<Account>, perm: seq<nat>)
    requires Below(perm, |s|)
  {
    forall i, j | 0 <= i < j < |perm| :: InOrder(before, s, perm[i], perm[j])
  }

  lemma {:induction false} InsertOrdered(before: (Account, Account) -> bool, s: seq<Account>, perm: seq<nat>, x: nat)
    requires x < |s| && StrictWeak(before) && Below(perm, x)
    requires Ordered(before, s, perm)
    ensures Ordered(before, s, Insert(before, s, perm, x))
  {
    var r := Insert(before, s, perm, x);
    if perm != [] && !before(s[x], s[perm[0]]) {
      InsertOrdered(before, s, perm[1..], x);
      var rest := Insert(before, s, perm[1..], x);
      forall j | 0 < j < |r| ensures InOrder(before, s, r[0], r[j]) {
        assert r[j] == rest[j - 1] && r[j] in rest;
        if r[j] != x {
          var m :| 0 <= m < |perm[1..]| && perm[1..][m] == r[j];
          assert InOrder(before, s, perm[0], perm[m + 1]);
        }
      }
    } else if perm != [] {
      forall j | 0 < j < |r| ensures InOrder(before, s, x, r[j]) {
        assert r[j] == perm[j - 1];
        assert j > 1 ==> InOrder(before, s, perm[0], perm[j - 1]);
      }
    }
  }

  /** The order a stable sort gives the first n elements of s, by insertion. */
  function SortPositions(before: (Account, Account) -> bool, s: seq<Account>, n: nat): (perm: seq<nat>)
    requires n <= |s|
    ensures |perm| == n && Below(perm, |s|)
  {
    if n == 0 then [] else Insert(before, s, SortPositions(before, s, n - 1), n - 1)
  }

  /** s in the order of a stable sort. */
  function Sorted(before: (Account, Account) -> bool, s: seq<Account>): (r: seq<Account>)
    ensures forall a <- r :: a in s
  {
    At(s, SortPositions(before, s, |s|))
  }

  lemma {:induction false} SortIsStable(before: (Account, Account) -> bool, s: seq<Account>, n: nat)
    requires n <= |s| && StrictWeak(before)
    ensures var perm := SortPositions(before, s, n);
            Below(perm, n) && Ordered(before, s, perm) && forall p: nat | p < n :: p in perm
    ensures n == |s| ==> StableSort(before, s, SortPositions(before, s, n))
  {
    if n > 0 {
      SortIsStable(before, s, n - 1);
      var front := SortPositions(before, s, n - 1);
      InsertOrdered(before, s, front, n - 1);
      var perm := SortPositions(before, s, n);
      forall j | 0 <= j < |perm| ensures perm[j] < n {
        assert perm[j] in perm;
      }
    }
  }

  method SortStable(before: (Account, Account) -> bool, s: seq<Account>) returns (perm: seq<nat>)
    requires StrictWeak(before)
    ensures StableSort(before, s, perm) && perm == SortPositions(before, s, |s|)
  {
    perm := [];
    for i := 0 to |s|
      invariant perm == SortPositions(before, s, i)
    {
      perm := Insert(before, s, perm, i);
    }
    SortIsStable(before, s, |s|);
  }

  /** The account the database returns for the least used one. */
  function LeastUsed(accts: seq<Account>): Option<Account> {
    if accts == [] then None else Some(accts[Scan(LeastUsedFirst, accts)])
  }

  predicate AnyExpiring(accts: seq<Account>) {
    exists i | 0 <= i < |accts| :: accts[i].expiring > 0.0
  }

  function ExpiringFirst(accts: seq<Account>): Option<Account> {
    if accts == [] then None
    else if AnyExpiring(accts) then Some(accts[Scan(Sooner, accts)]) else LeastUsed(accts)
  }

  /** The router's choice in a group: sort by expiring credit and take the head, unless no credit
      is expiring. It agrees with PickPreferred whenever some is. */
  method ByExpiringFirst(accts: seq<Account>) returns (acct: Option<Account>)
    ensures acct == ExpiringFirst(accts)
  {
    if accts == [] {
      return None;
    }
    var anyExpiring := false;
    for i := 0 to |accts|
      invariant anyExpiring <==> exists j | 0 <= j < i :: accts[j].expiring > 0.0
    {
      if accts[i].expiring > 0.0 {
        anyExpiring := true;
      }
    }
    if !anyExpiring {
      return LeastUsed(accts);
    }
    OrdersAreStrictWeak();
    var perm := SortStable(Sooner, accts);
    SortHeadIsScan(Sooner, accts, perm);
    acct := Some(accts[perm[0]]);
  }

  /** Both ways of choosing name the same account whenever some credit is about to expire. */
  lemma OnePassIsSort(accts: seq<Account>, perm: seq<nat>)
    requires AnyExpiring(accts) && StableSort(Sooner, accts, perm)
    ensures ExpiringFirst(accts) == Some(accts[Scan(Sooner, accts)]) == Some(accts[perm[0]])
    ensures Foremost(Sooner, accts, perm[0])
  {
    OrdersAreStrictWeak();
    SortHeadIsScan(Sooner, accts, perm);
    ScanForemost(Sooner, accts);
  }

  /** The account chosen carries as much expiring credit as any. */
  lemma MostExpiring(accts: seq<Account>, i: nat)
    requires i < |accts| && AnyExpiring(accts)
    ensures ExpiringFirst(accts).value.expiring >= accts[i].expiring
    ensures ExpiringFirst(accts).value in accts
  {
    OrdersAreStrictWeak();
    ScanForemost(Sooner, accts);
  }
}
