/** One request through the gateway: attempts, recovery, and the single answer (gateway/server.go,
    gateway/output.go). */
module Serve {
  import opened Accounts
  import opened Envelope
  import opened Router
  import opened Text

  // ---------- The world around a request ----------

  datatype ChatOutcome = ChannelError(message: string) | NoEvent | Stream(events: seq<Event>)

  /** The request's fixed data, and what the outside does at each attempt, which is arbitrary. */
  datatype World = World(
    stream: bool, origModel: string, route: Option<Route>, hasService: bool,
    chat: nat -> ChatOutcome,
    refresh: nat -> RefreshReply,
    resolve: (nat, string, Table) -> Resolution,
    failover: (nat, Table) -> Option<Resolved>,
    startAt: int,
    pauseAt: nat -> int,
    pickAt: nat -> int)
  {
    /** The router only hands out rows of the table that are selectable when it picks. */
    ghost predicate RouterSound() {
      && (forall k, name, t | Keyed(t) && resolve(k, name, t).Found? && resolve(k, name, t).target.account.Some? ::
            IsPick(t, resolve(k, name, t).target.account.value, pickAt(k)))
      && (forall k, t | Keyed(t) && failover(k, t).Some? && failover(k, t).value.account.Some? ::
            IsPick(t, failover(k, t).value.account.value, pickAt(k)))
    }
  }

  predicate IsPick(t: Table, a: Account, now: int) {
    a.id in t && t[a.id] == a && a.Selectable(now)
  }

  // ---------- What a request does ----------

  datatype Cred = Cred(accountId: int, blob: string, updatedAt: int, group: int)

  /** The credential envelope: the account's blob, and the proxy that goes with account and group. */
  function BuildCred(a: Account, group: int): Cred {
    Cred(a.id, a.blob, a.refreshedAt, group)
  }

  datatype Body =
    | Sse(delivered: seq<Event>, failure: Option<string>)
    | Aggregated(events: seq<Event>)
    | ErrorBody(status: int, errorType: string, message: string)

  datatype Action =
    | Chat(account: Option<int>, plugin: string, group: int, model: string, cred: Option<Cred>, table: Table)
    | Answer(body: Body)
    | LogRow(status: int, account: Option<int>, model: string, attempts: nat)

  /** Where the attempted account, plugin, group and model come from. */
  datatype Pick = Pick(account: Option<int>, plugin: string, group: int, model: string, failover: bool)

  /** The variables of serve that its closures share, the account table, what has been done so
      far, and, for the proofs, the picks made on the way. */
  datatype Req = Req(
    account: Option<Account>, plugin: string, group: int, model: string, cred: Option<Cred>,
    failoverUsed: bool, logAccount: Option<int>, logModel: string, attempts: nat,
    table: Table, trace: seq<Action>, picks: seq<Pick>)
  {
    function Do(a: Action): Req {
      this.(trace := trace + [a])
    }
  }

  function IdOf(a: Option<Account>): Option<int> {
    if a.Some? then Some(a.value.id) else None
  }

  function Adopt(s: Req, r: Resolved, failover: bool): Req
    requires r.account.Some?
  {
    s.(account := r.account, plugin := r.plugin, group := r.group, model := r.model,
       cred := Some(BuildCred(r.account.value, r.group)),
       failoverUsed := s.failoverUsed || failover,
       logAccount := Some(r.account.value.id), logModel := r.model,
       picks := s.picks + [Pick(Some(r.account.value.id), r.plugin, r.group, r.model, failover)])
  }

  /** The router marks the account it hands out as used. */
  function Noted(s: Req, account: Option<Account>, now: int): Req {
    if account.Some? then s.(table := MarkUsed(s.table, account.value.id, now)) else s
  }

  function AccountOf(res: Resolution): Option<Account> {
    if res.Found? then res.target.account else None
  }

  /** Resolve again under the public model name; only a different account counts. */
  function SwitchAccount(s: Req, w: World, k: nat): (Req, bool) {
    var res := w.resolve(k, w.origModel, s.table);
    var s1 := Noted(s.(model := w.origModel), AccountOf(res), w.pickAt(k));
    if AccountOf(res).Some? && IdOf(s.account) != IdOf(AccountOf(res))
    then (Adopt(s1, res.target, false), true)
    else (s1, false)
  }

  /** Refresh the same account; if its credential is beyond repair, switch to another. */
  function RecoverCredential(s: Req, w: World, k: nat): (Req, bool, Option<string>) {
    if s.account.None? || !w.hasService then (s, false, None)
    else
      var id := s.account.value.id;
      var (t, outcome) := Refresh(s.table, id, w.refresh(k), w.pauseAt(k));
      match outcome
      case Fresh(a) =>
        (s.(table := t, account := Some(a), cred := Some(BuildCred(a, s.group)), logAccount := Some(a.id)), true, None)
      case Transient(message) => (s.(table := t), false, Some(message))
      case AuthFailed =>
        var (s1, ok) := SwitchAccount(s.(table := t), w, k);
        (s1, ok, None)
  }

  function FailoverMatch(r: Route, status: int): bool {
    if 400 <= status < 500 then r.on4xx else if status >= 500 then r.on5xx else false
  }

  function SwitchFailover(s: Req, w: World, k: nat, status: int): (Req, bool) {
    if w.route.None? || !w.route.value.failoverEnabled || s.failoverUsed || !FailoverMatch(w.route.value, status) then
      (s, false)
    else
      var res := w.failover(k, s.table);
      if res.None? || res.value.account.None? then (s, false)
      else (Adopt(Noted(s, res.value.account, w.pickAt(k)), res.value, true), true)
  }

  function Pause(s: Req, w: World, k: nat, status: int): Req
    requires s.account.Some?
  {
    var id := s.account.value.id;
    s.(table := MarkAutoPause(s.table, id, w.pauseAt(k) + PauseLength(status)))
  }

  function RecoverFrom(s: Req, w: World, k: nat, status: int): (Req, bool, Option<string>) {
    var able := s.account.Some? && w.hasService && k < 2;
    if status == 401 && able then
      var (s1, recovered, transient) := RecoverCredential(s, w, k);
      if recovered || transient.Some? then (s1, recovered, transient)
      else
        var (s2, ok) := SwitchFailover(s1, w, k, status);
        (s2, ok, None)
    else if (status == 429 || status == 402) && able then
      var (s1, switched) := SwitchAccount(Pause(s, w, k, status), w, k);
      if switched then (s1, true, None)
      else
        var (s2, ok) := SwitchFailover(s1, w, k, status);
        (s2, ok, None)
    else
      var (s1, ok) := SwitchFailover(s, w, k, status);
      (s1, ok, None)
  }

  // ---------- Output (gateway/output.go) ----------

  /** The events before the first failure. */
  function Delivered(events: seq<Event>): seq<Event> {
    if events == [] || events[0].TaskFailed? then [] else [events[0]] + Delivered(events[1..])
  }

  /** The first failure, if there is one. */
  function Failure(events: seq<Event>): Option<Event> {
    if events == [] then None
    else if events[0].TaskFailed? then Some(events[0]) else Failure(events[1..])
  }

  lemma {:induction false} FailureSpec(events: seq<Event>)
    ensures Delivered(events) <= events
    ensures forall e <- Delivered(events) :: !e.TaskFailed?
    ensures Failure(events).None? <==> Delivered(events) == events
    ensures Failure(events).Some? ==>
              (|Delivered(events)| < |events| && events[|Delivered(events)|] == Failure(events).value
               && Failure(events).value.TaskFailed?)
  {
    if events != [] && !events[0].TaskFailed? {
      FailureSpec(events[1..]);
    }
  }

  function Finish(s: Req, status: int, body: Body): Req {
    s.Do(Answer(body)).Do(LogRow(status, s.logAccount, s.logModel, s.attempts))
  }

  function FailWith(s: Req, status: int, errorType: string, message: string): Req {
    Finish(s, status, ErrorBody(status, errorType, message))
  }

  function StreamOut(s: Req, events: seq<Event>): Req {
    var failure := Failure(events);
    if failure.None? then Finish(s, 200, Sse(Delivered(events), None))
    else Finish(s, 502, Sse(Delivered(events), Some(FailureText(failure.value))))
  }

  function FailureText(e: Event): string {
    if e.TaskFailed? then e.message else ""
  }

  function FailedCode(e: Event): int {
    if e.TaskFailed? then e.code else 0
  }

  // ---------- The loop ----------

  datatype Cause = Channel | Timeout | Upstream

  /** How one attempt went: over, or in trouble with a status to recover from. */
  datatype Verdict = Over | Trouble(cause: Cause, status: int, brief: string)

  function Judge(w: World, k: nat): Verdict {
    match w.chat(k)
    case ChannelError(message) => Trouble(Channel, 502, message)
    case NoEvent => Trouble(Timeout, 504, "")
    case Stream(events) =>
      if events != [] && FailedCode(events[0]) != 0 then Trouble(Upstream, FailedCode(events[0]), FailureText(events[0]))
      else if w.stream then Over
      else
        var failure := Failure(events);
        if failure.Some? && FailedCode(failure.value) != 0
        then Trouble(Upstream, FailedCode(failure.value), FailureText(failure.value)) else Over
  }

  /** A non-streaming answer broken off with code 0 is neither answered nor retried. */
  predicate Silent(w: World, k: nat) {
    && w.chat(k).Stream? && !w.stream
    && Failure(w.chat(k).events).Some? && FailedCode(Failure(w.chat(k).events).value) == 0
  }

  function ChatCall(s: Req): Action {
    Chat(IdOf(s.account), s.plugin, s.group, s.model, s.cred, s.table)
  }

  /** Output of an attempt that is over. */
  function Conclude(s: Req, w: World, k: nat): Req
    requires Judge(w, k).Over?
  {
    var events := w.chat(k).events;
    if w.stream then StreamOut(s, events)
    else if Failure(events).Some? then s
    else Finish(s, 200, Aggregated(events))
  }

  const NO_EVENTS_TEXT := "upstream produced no events in time"
  const NO_ACCOUNT_TEXT := "no active account available (credential failed and failover exhausted)"

  function GiveUp(s: Req, v: Verdict, transient: Option<string>): Req
    requires v.Trouble?
  {
    match v.cause
    case Channel => FailWith(s, 502, "upstream_error", v.brief)
    case Timeout => FailWith(s, 504, "upstream_error", NO_EVENTS_TEXT)
    case Upstream =>
      if transient.Some? then FailWith(s, 502, "upstream_error", transient.value)
      else if v.status == 401 then FailWith(s, 503, "api_error", NO_ACCOUNT_TEXT)
      else FailWith(s, 502, "api_error", v.brief)
  }

  /** Retries left: two account recoveries, and one failover unless it is used. */
  function Budget(s: Req, k: nat): nat {
    (if k < 2 then 2 - k else 0) + (if s.failoverUsed then 0 else 1)
  }

  lemma RetryCosts(s: Req, w: World, k: nat, status: int)
    ensures var (s1, retry, transient) := RecoverFrom(s, w, k, status);
            && (retry ==> Budget(s1, k + 1) < Budget(s, k))
            && s1.trace == s.trace && s1.attempts == s.attempts
            && (s.failoverUsed ==> s1.failoverUsed)
  {
    hide MarkUsed, MarkAutoPause, Refresh, BuildCred, FailoverMatch;
  }

  function Attempts(s: Req, w: World, k: nat): Req
    decreases Budget(s, k)
  {
    var s1 := s.(attempts := k + 1).Do(ChatCall(s));
    var v := Judge(w, k);
    if v.Over? then Conclude(s1, w, k)
    else
      RetryCosts(s1, w, k, v.status);
      var (s2, retry, transient) := RecoverFrom(s1, w, k, v.status);
      if retry then Attempts(s2, w, k + 1) else GiveUp(s2, v, transient)
  }

  // ---------- Before the first attempt ----------

  /** What the router and the plugin catalogue say about a request when it arrives. */
  datatype Entry = Entry(first: Resolution, direct: Option<Resolved>, catalog: string -> Option<string>, bound: bool)
  {
    function PluginFor(model: string): string {
      if catalog(model).Some? then catalog(model).value else ""
    }
  }

  datatype Admission = Rejected(status: int, errorType: string) | Admitted(start: Req)

  function Start(account: Option<Account>, plugin: string, group: int, model: string, t: Table): Req {
    Req(account, plugin, group, model,
        if account.Some? then Some(BuildCred(account.value, group)) else None,
        false, IdOf(account), model, 0, t, [], [Pick(IdOf(account), plugin, group, model, false)])
  }

  /** A route needs an account; other models go straight to an account that declares them, or to a
      plugin that knows them, unless the key is bound to routes. */
  function Admit(w: World, e: Entry, t: Table): Admission {
    match e.first
    case Forbidden => Rejected(403, "invalid_request_error")
    case BadGroups => Rejected(502, "api_error")
    case Found(r) =>
      if r.account.None? then Rejected(503, "api_error")
      else
        Admitted(Noted(Start(r.account, if r.plugin == "" then e.PluginFor(r.model) else r.plugin, r.group, r.model, t),
                       r.account, w.startAt))
    case NotRoute =>
      var known := e.catalog(w.origModel);
      if e.direct.None? && known.None? then Rejected(404, "invalid_request_error")
      else if e.bound then Rejected(403, "invalid_request_error")
      else if e.direct.None? then Admitted(Start(None, known.value, 0, w.origModel, t))
      else
        var d := e.direct.value;
        Admitted(Start(d.account, if d.plugin == "" then e.PluginFor(w.origModel) else d.plugin, d.group, w.origModel, t))
  }

  /** Failover belongs to a route. */
  function OnRoute(w: World, e: Entry): World {
    if e.first.Found? then w else w.(route := None)
  }

  /** Everything a request makes the gateway do. */
  function Served(w: World, e: Entry, t: Table): seq<Action> {
    match Admit(w, e, t)
    case Rejected(status, errorType) => [Answer(ErrorBody(status, errorType, w.origModel))]
    case Admitted(start) => Attempts(start, OnRoute(w, e), 0).trace
  }

  /** serve after routing: the closures of server.go as methods over the variables they share. */
  class Request {
    const w: World
    var account: Option<Account>
    var plugin: string
    var group: int
    var model: string
    var cred: Option<Cred>
    var failoverUsed: bool
    var logAccount: Option<int>
    var logModel: string
    var attempts: nat
    var table: Table
    var trace: seq<Action>
    ghost var picks: seq<Pick>

    ghost function State(): Req
      reads this
    {
      Req(account, plugin, group, model, cred, failoverUsed, logAccount, logModel, attempts, table, trace, picks)
    }

    constructor (w: World, s: Req)
      ensures this.w == w && State() == s
    {
      this.w := w;
      account, plugin, group, model, cred := s.account, s.plugin, s.group, s.model, s.cred;
      failoverUsed, logAccount, logModel, attempts := s.failoverUsed, s.logAccount, s.logModel, s.attempts;
      table, trace, picks := s.table, s.trace, s.picks;
    }

    method Take(r: Resolved, isFailover: bool)
      requires r.account.Some?
      modifies this
      ensures State() == Adopt(old(State()), r, isFailover)
    {
      hide BuildCred;
      if isFailover {
        failoverUsed := true;
      }
      account := r.account;
      plugin := r.plugin;
      group := r.group;
      model := r.model;
      cred := Some(BuildCred(r.account.value, r.group));
      logAccount := Some(r.account.value.id);
      logModel := model;
      picks := picks + [Pick(Some(r.account.value.id), r.plugin, r.group, r.model, isFailover)];
    }

    method Note(used: Option<Account>, now: int)
      modifies this
      ensures State() == Noted(old(State()), used, now)
    {
      if used.Some? {
        table := MarkUsed(table, used.value.id, now);
      }
    }

    method SwitchToOther(k: nat) returns (ok: bool)
      modifies this
      ensures (State(), ok) == SwitchAccount(old(State()), w, k)
    {
      model := w.origModel;
      var again := w.resolve(k, model, table);
      Note(AccountOf(again), w.pickAt(k));
      if again.Found? && again.target.account.Some?
         && (account.None? || again.target.account.value.id != account.value.id) {
        Take(again.target, false);
        return true;
      }
      return false;
    }

    method RecoverCred(k: nat) returns (recovered: bool, transient: Option<string>)
      modifies this
      ensures (State(), recovered, transient) == RecoverCredential(old(State()), w, k)
    {
      if account.None? || !w.hasService {
        return false, None;
      }
      var id := account.value.id;
      var (t, outcome) := Refresh(table, id, w.refresh(k), w.pauseAt(k));
      table := t;
      match outcome
      case Fresh(a) =>
        account := Some(a);
        cred := Some(BuildCred(a, group));
        logAccount := Some(a.id);
        return true, None;
      case Transient(message) =>
        return false, Some(message);
      case AuthFailed =>
        recovered := SwitchToOther(k);
        transient := None;
    }

    method SwitchToFailover(k: nat, status: int) returns (ok: bool)
      modifies this
      ensures (State(), ok) == SwitchFailover(old(State()), w, k, status)
    {
      if w.route.None? || !w.route.value.failoverEnabled || failoverUsed {
        return false;
      }
      if !FailoverMatch(w.route.value, status) {
        return false;
      }
      var res := w.failover(k, table);
      if res.None? || res.value.account.None? {
        return false;
      }
      Note(res.value.account, w.pickAt(k));
      Take(res.value, true);
      return true;
    }

    method PauseAccount(k: nat, status: int)
      requires account.Some?
      modifies this
      ensures State() == Pause(old(State()), w, k, status)
    {
      var id := account.value.id;
      var until := w.pauseAt(k) + FAR;
      if status == 429 {
        until := w.pauseAt(k) + TEN_MINUTES;
      }
      table := MarkAutoPause(table, id, until);
    }

    method Recover(k: nat, status: int) returns (retry: bool, transient: Option<string>)
      modifies this
      ensures (State(), retry, transient) == RecoverFrom(old(State()), w, k, status)
    {
      hide Pause, SwitchAccount, SwitchFailover, RecoverCredential;
      if status == 401 && k < 2 && account.Some? && w.hasService {
        retry, transient := RecoverCred(k);
        if retry || transient.Some? {
          return;
        }
      } else if (status == 429 || status == 402) && account.Some? && w.hasService && k < 2 {
        PauseAccount(k, status);
        retry := SwitchToOther(k);
        if retry {
          return true, None;
        }
      }
      retry := SwitchToFailover(k, status);
      transient := None;
    }

    method Fail(status: int, errorType: string, message: string)
      modifies this
      ensures State() == FailWith(old(State()), status, errorType, message)
    {
      trace := trace + [Answer(ErrorBody(status, errorType, message))];
      trace := trace + [LogRow(status, logAccount, logModel, attempts)];
    }

    /** Writes every event up to the first failure, then the tail and the log row. */
    method StreamEvents(events: seq<Event>)
      modifies this
      ensures State() == StreamOut(old(State()), events)
    {
      var status, failure := 200, None;
      var delivered: seq<Event> := [];
      var i := 0;
      assert events[0..] == events;
      while i < |events| && failure.None?
        invariant 0 <= i <= |events|
        invariant State() == old(State())
        invariant failure.None? ==> (status == 200 && delivered + Delivered(events[i..]) == Delivered(events)
                                     && Failure(events[i..]) == Failure(events))
        invariant failure.Some? ==> (status == 502 && delivered == Delivered(events)
                                     && Failure(events).Some? && failure.value == FailureText(Failure(events).value))
        decreases |events| - i, failure.None?
      {
        assert events[i..][1..] == events[i + 1..];
        if events[i].TaskFailed? {
          status, failure := 502, Some(events[i].message);
          assert delivered + [] == delivered;
        } else {
          assert delivered + ([events[i]] + Delivered(events[i + 1..])) == (delivered + [events[i]]) + Delivered(events[i + 1..]);
          delivered := delivered + [events[i]];
          i := i + 1;
        }
      }
      if failure.None? {
        assert events[i..] == [] && delivered + [] == delivered;
      }
      trace := trace + [Answer(Sse(delivered, failure))];
      trace := trace + [LogRow(status, logAccount, logModel, attempts)];
    }

    /** Folds every event, and answers only if none is a failure. */
    method Aggregate(events: seq<Event>) returns (failure: Option<Event>)
      modifies this
      ensures failure == Failure(events)
      ensures State() == if failure.Some? then old(State()) else Finish(old(State()), 200, Aggregated(events))
    {
      failure := None;
      var i := 0;
      assert events[0..] == events;
      while i < |events|
        invariant 0 <= i <= |events|
        invariant State() == old(State()) && Failure(events[i..]) == Failure(events)
      {
        assert events[i..][1..] == events[i + 1..];
        if events[i].TaskFailed? {
          return Some(events[i]);
        }
        i := i + 1;
      }
      trace := trace + [Answer(Aggregated(events))];
      trace := trace + [LogRow(200, logAccount, logModel, attempts)];
    }

    /** One call to the plugin and its output, if it gets that far. */
    method Attempt(k: nat) returns (v: Verdict)
      modifies this
      ensures v == Judge(w, k)
      ensures var s1 := old(State()).(attempts := k + 1).Do(ChatCall(old(State())));
              State() == if v.Over? then Conclude(s1, w, k) else s1
    {
      attempts := k + 1;
      trace := trace + [Chat(IdOf(account), plugin, group, model, cred, table)];
      match w.chat(k)
      case ChannelError(message) =>
        v := Trouble(Channel, 502, message);
      case NoEvent =>
        v := Trouble(Timeout, 504, "");
      case Stream(events) =>
        if events != [] && FailedCode(events[0]) != 0 {
          return Trouble(Upstream, FailedCode(events[0]), FailureText(events[0]));
        }
        if w.stream {
          StreamEvents(events);
          return Over;
        }
        var failure := Aggregate(events);
        if failure.Some? && FailedCode(failure.value) != 0 {
          return Trouble(Upstream, FailedCode(failure.value), FailureText(failure.value));
        }
        v := Over;
    }

    /** The retry loop: at most Budget further attempts, then one way or another it ends. */
    method Run()
      modifies this
      ensures State() == Attempts(old(State()), w, 0)
    {
      var k := 0;
      while true
        invariant Attempts(State(), w, k) == Attempts(old(State()), w, 0)
        decreases Budget(State(), k)
      {
        ghost var s := State();
        var v := Attempt(k);
        hide Judge, Conclude, RecoverFrom;
        if v.Over? {
          return;
        }
        ghost var s1 := State();
        RetryCosts(s1, w, k, v.status);
        var retry, transient := Recover(k, v.status);
        if !retry {
          match v.cause {
            case Channel => Fail(502, "upstream_error", v.brief);
            case Timeout => Fail(504, "upstream_error", NO_EVENTS_TEXT);
            case Upstream =>
              if transient.Some? {
                Fail(502, "upstream_error", transient.value);
              } else if v.status == 401 {
                Fail(503, "api_error", NO_ACCOUNT_TEXT);
              } else {
                Fail(502, "api_error", v.brief);
              }
          }
          return;
        }
        k := k + 1;
      }
    }
  }

  /** The whole of serve. */
  method ServeRequest(w: World, e: Entry, t: Table) returns (trace: seq<Action>)
    ensures trace == Served(w, e, t)
  {
    var account: Option<Account> := None;
    var used: Option<Account> := None;
    var plugin, group, model := "", 0, w.origModel;
    match e.first {
      case Forbidden =>
        return [Answer(ErrorBody(403, "invalid_request_error", w.origModel))];
      case BadGroups =>
        return [Answer(ErrorBody(502, "api_error", w.origModel))];
      case Found(r) =>
        model := r.model;
        account := r.account;
        if account.None? {
          return [Answer(ErrorBody(503, "api_error", w.origModel))];
        }
        used := account;
        plugin, group := r.plugin, r.group;
        if plugin == "" {
          plugin := e.PluginFor(model);
        }
      case NotRoute =>
        var known := e.catalog(model);
        if e.direct.Some? {
          account, plugin, group := e.direct.value.account, e.direct.value.plugin, e.direct.value.group;
          if plugin == "" {
            plugin := e.PluginFor(model);
          }
        } else if known.Some? {
          plugin := known.value;
        } else {
          return [Answer(ErrorBody(404, "invalid_request_error", w.origModel))];
        }
        if e.bound {
          return [Answer(ErrorBody(403, "invalid_request_error", w.origModel))];
        }
    }
    var request := new Request(OnRoute(w, e), Noted(Start(account, plugin, group, model, t), used, w.startAt));
    request.Run();
    trace := request.trace;
  }
}
