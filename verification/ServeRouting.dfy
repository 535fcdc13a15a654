/** A request served by the router itself: what the recovery loop needs of its surroundings is what the
    router does (gateway/server.go, router/router.go, router/direct.go). */
module ServeRouting {
  import opened Accounts
  import opened Router
  import opened RouterProofs
  import opened Serve
  import opened ServeProofs
  import opened Text

  /** The router as some call of the request finds it: its state, the database apart from the account
      rows, and what the call asks. */
  datatype Seen = Seen(st: State, db: Db, ask: Ask, draw: nat)

  /** The same request with every resolution and failover made by the router, in any state. */
  function Routed(w: World, again: nat -> Seen, failing: nat -> Seen): World {
    w.(resolve := (k: nat, name: string, t: Table) =>
         Resolve(again(k).st, again(k).db.(accounts := t), again(k).ask.(model := name), w.pickAt(k)).2,
       failover := (k: nat, t: Table) =>
         if w.route.None? then None
         else PickFailover(failing(k).st, failing(k).db.(accounts := t), w.route.value, failing(k).draw, w.pickAt(k)).2)
  }

  lemma RoutedIsSound(w: World, again: nat -> Seen, failing: nat -> Seen)
    ensures Routed(w, again, failing).RouterSound()
  {
    hide Resolve, PickFailover;
    var r := Routed(w, again, failing);
    forall k, name, t | Keyed(t) && r.resolve(k, name, t).Found? && r.resolve(k, name, t).target.account.Some?
      ensures IsPick(t, r.resolve(k, name, t).target.account.value, r.pickAt(k))
    {
      AnswersAreLive(again(k).st, again(k).db.(accounts := t), again(k).ask.(model := name), w.pickAt(k));
    }
    forall k, t | Keyed(t) && r.failover(k, t).Some? && r.failover(k, t).value.account.Some?
      ensures IsPick(t, r.failover(k, t).value.account.value, r.pickAt(k))
    {
      FailoverIsLive(failing(k).st, failing(k).db.(accounts := t), w.route.value, failing(k).draw, w.pickAt(k));
    }
  }

  /** What the router and the catalogue say when the request arrives. */
  function Arriving(w: World, seen: Seen, catalog: string -> Option<string>, bound: bool, t: Table): Entry {
    var db := seen.db.(accounts := t);
    var hint := if catalog(w.origModel).Some? then catalog(w.origModel).value else "";
    Entry(Resolve(seen.st, db, seen.ask, w.startAt).2, ResolveDirect(db, w.origModel, hint, w.startAt), catalog, bound)
  }

  lemma ArrivalIsSound(w: World, seen: Seen, catalog: string -> Option<string>, bound: bool, t: Table)
    requires Keyed(t)
    ensures EntrySound(w, Arriving(w, seen, catalog, bound, t), t)
  {
    hide Resolve, ResolveDirect;
    var db := seen.db.(accounts := t);
    var hint := if catalog(w.origModel).Some? then catalog(w.origModel).value else "";
    AnswersAreLive(seen.st, db, seen.ask, w.startAt);
    DirectIsLive(db, w.origModel, hint, w.startAt);
  }

  /** Everything the router and the catalogue find and say in the course of a request. */
  datatype Dealings = Dealings(arrival: Seen, again: nat -> Seen, failing: nat -> Seen, catalog: string -> Option<string>, bound: bool)

  ghost predicate NoZeroCodes(w: World) {
    forall k: nat | k < 4 && w.chat(k).Stream? :: forall ev <- w.chat(k).events :: ev.TaskFailed? ==> ev.code != 0
  }

  /** So every request that the router serves keeps the bounds, the coherence and the single answer of
      EveryRequest and ExactlyOneAnswer, from any account table stored under its own ids. */
  lemma RoutedRequest(w: World, c: Dealings, t: Table)
    requires Keyed(t) && NoZeroCodes(w)
    ensures var r, e := Routed(w, c.again, c.failing), Arriving(w, c.arrival, c.catalog, c.bound, t);
            && r.RouterSound() && EntrySound(r, e, t)
            && Answers(Served(r, e, t)) == 1 && |Served(r, e, t)| <= 6
  {
    hide Served, EntrySound, Answers, LogRows, Resolve, ResolveDirect;
    var r, e := Routed(w, c.again, c.failing), Arriving(w, c.arrival, c.catalog, c.bound, t);
    RoutedIsSound(w, c.again, c.failing);
    ArrivalIsSound(r, c.arrival, c.catalog, c.bound, t);
    ExactlyOneAnswer(r, e, t);
  }
}
