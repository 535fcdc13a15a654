/** What the Responses parser promises for any upstream, not only for the hub's own encoder. */
module ResponsesParser {
  import opened Text
  import opened Envelope
  import opened Machines
  import opened Aggregate
  import opened Responses

  // ---------- One start, one end ----------

  datatype Op = Feed(frame: Frame) | End | Fail(code: int, message: string)

  function Apply(p: Par, op: Op): (Par, seq<Event>) {
    match op
    case Feed(frame) => FeedFrame(p, frame)
    case End => FinishNow(p)
    case Fail(code, message) => FailNow(p, code, message)
  }

  function Starts(evs: seq<Event>): nat {
    if evs == [] then 0 else (if evs[0].MessageStart? then 1 else 0) + Starts(evs[1..])
  }

  function Ends(evs: seq<Event>): nat {
    if evs == [] then 0 else (if evs[0].MessageFinish? || evs[0].TaskFailed? then 1 else 0) + Ends(evs[1..])
  }

  /** No finish comes before the first start. */
  predicate FinishFollowsStart(started: bool, evs: seq<Event>)
    decreases |evs|
  {
    evs != [] ==>
      && (evs[0].MessageFinish? ==> started)
      && FinishFollowsStart(started || evs[0].MessageStart?, evs[1..])
  }

  lemma {:induction false} CountsConcat(x: seq<Event>, y: seq<Event>, started: bool)
    ensures Starts(x + y) == Starts(x) + Starts(y)
    ensures Ends(x + y) == Ends(x) + Ends(y)
    ensures FinishFollowsStart(started, x + y) <==>
            FinishFollowsStart(started, x) && FinishFollowsStart(started || Starts(x) > 0, y)
  {
    if x == [] {
      assert x + y == y;
    } else {
      assert (x + y)[0] == x[0] && (x + y)[1..] == x[1..] + y;
      CountsConcat(x[1..], y, started || x[0].MessageStart?);
    }
  }

  function Flag(b: bool): nat {
    if b then 1 else 0
  }

  lemma CountNone(started: bool)
    ensures Starts([]) == 0 && Ends([]) == 0 && FinishFollowsStart(started, [])
  {
  }

  lemma CountOne(e: Event, started: bool)
    ensures Starts([e]) == Flag(e.MessageStart?) && Ends([e]) == Flag(e.MessageFinish? || e.TaskFailed?)
    ensures FinishFollowsStart(started, [e]) <==> (e.MessageFinish? ==> started)
  {
    assert [e][1..] == [];
  }

  /** What one step did to the flags is what its events say. */
  ghost predicate Flagged(p: Par, p1: Par, out: seq<Event>) {
    && Flag(p1.sentStart) == Flag(p.sentStart) + Starts(out)
    && Flag(p1.sentFinish) == Flag(p.sentFinish) + Ends(out)
    && FinishFollowsStart(p.sentStart, out)
  }

  lemma FinishFlags(p: Par)
    ensures Flagged(p, FinishNow(p).0, FinishNow(p).1)
  {
    if p.sentFinish {
      CountNone(p.sentStart);
    } else {
      var out := FinishNow(p).1;
      var start, fin := MessageStart(""), out[|out| - 1];
      CountOne(start, p.sentStart);
      CountOne(fin, true);
      CountsConcat([start], [fin], p.sentStart);
      assert out == if p.sentStart then [fin] else [start] + [fin];
    }
  }

  lemma FailFlags(p: Par, code: int, message: string)
    ensures Flagged(p, FailNow(p, code, message).0, FailNow(p, code, message).1)
  {
    if p.sentFinish {
      CountNone(p.sentStart);
    } else {
      CountOne(TaskFailed(code, message), p.sentStart);
    }
  }

  /** Any other frame emits at most one event, which is a start only if it raises the flag. */
  lemma OtherFlags(p: Par, f: Frame)
    requires !f.Completed? && !f.Incomplete? && !f.Failed? && !f.ErrorEvent?
    ensures Flagged(p, FeedFrame(p, f).0, FeedFrame(p, f).1)
  {
    var p1, out := FeedFrame(p, f).0, FeedFrame(p, f).1;
    assert |out| <= 1 && p1.sentFinish == p.sentFinish;
    assert out != [] ==> !out[0].MessageFinish? && !out[0].TaskFailed?;
    assert if out != [] && out[0].MessageStart? then p1.sentStart && !p.sentStart else p1.sentStart == p.sentStart;
    hide FeedFrame, Starts, Ends, FinishFollowsStart;
    if |out| == 1 {
      CountOne(out[0], p.sentStart);
      assert out == [out[0]];
    } else {
      CountNone(p.sentStart);
    }
  }

  lemma EndFlags(p: Par, f: Frame)
    requires f.Completed? || f.Incomplete? || f.Failed? || f.ErrorEvent?
    ensures Flagged(p, FeedFrame(p, f).0, FeedFrame(p, f).1)
  {
    hide FinishNow, FailNow, Starts, Ends, FinishFollowsStart;
    if f.Completed? || f.Incomplete? {
      FinishFlags(TakeUsage(p, f.usage));
      FinishFlags(TakeUsage(p, f.usage).(pendingStop := "length"));
    } else {
      FailFlags(p, 502, f.message);
      FailFlags(p, 502, FAILED_TEXT);
      FailFlags(p, 502, ERROR_TEXT);
    }
  }

  /** Each step emits the start or an end exactly when it raises the matching flag. */
  lemma StepFlags(p: Par, op: Op)
    ensures Flagged(p, Apply(p, op).0, Apply(p, op).1)
  {
    match op
    case Feed(f) =>
      if f.Completed? || f.Incomplete? || f.Failed? || f.ErrorEvent? {
        EndFlags(p, f);
      } else {
        OtherFlags(p, f);
      }
    case End => FinishFlags(p);
    case Fail(code, message) => FailFlags(p, code, message);
  }

  lemma {:induction false} RunFlags(p: Par, ops: seq<Op>)
    ensures Flagged(p, Run(Apply, p, ops).0, Run(Apply, p, ops).1)
    decreases |ops|
  {
    if ops != [] {
      StepFlags(p, ops[0]);
      hide Apply, Starts, Ends, FinishFollowsStart;
      var p1, out := Apply(p, ops[0]).0, Apply(p, ops[0]).1;
      RunFlags(p1, ops[1..]);
      CountsConcat(out, Run(Apply, p1, ops[1..]).1, p.sentStart);
    }
  }

  /** Whatever is fed and however the stream is closed: at most one start, at most one terminal
      event, and a finish only after a start. */
  lemma OneStartOneEnd(ops: seq<Op>)
    ensures var out := Run(Apply, NEW_PARSER, ops).1;
            Starts(out) <= 1 && Ends(out) <= 1 && FinishFollowsStart(false, out)
  {
    RunFlags(NEW_PARSER, ops);
  }

  // ---------- Arguments exactly once ----------

  /** What the upstream means by one function-call item. */
  datatype Plan = Plan(index: int, callId: string, name: string, args: string)

  /** How far it has got: arguments sent as deltas, and whether a done frame has come. */
  datatype Progress = Progress(acc: string, viaDelta: bool, settled: bool)

  ghost predicate Sound(plans: map<string, Plan>) {
    && (forall id <- plans :: !Blank(id) && !Blank(plans[id].callId))
    && (forall a, b | a in plans && b in plans && a != b ::
          plans[a].index != plans[b].index && plans[a].callId != plans[b].callId)
  }

  predicate DoneFits(plan: Plan, at: Progress, args: string) {
    args == plan.args && (at.viaDelta ==> at.acc == plan.args)
  }

  /** A consistent upstream: an item is added once and first, under its index, call and name;
      its deltas stay within the final arguments and come before its done frames; done frames
      carry the final arguments. None if the frame breaks this. */
  function Track(plans: map<string, Plan>, at: map<string, Progress>, f: Frame): Option<map<string, Progress>> {
    match f
    case ItemAdded(index, _, FunctionItem(id, callId, name, _, _)) =>
      if id in plans && id !in at && plans[id].index == index && plans[id].callId == callId && plans[id].name == name
      then Some(at[id := Progress("", false, false)]) else None
    case ArgsDelta(id, index, callId, delta) =>
      if id in plans && id in at && plans[id].index == index && (callId == "" || callId == plans[id].callId)
         && !at[id].settled && at[id].acc + delta <= plans[id].args
      then Some(at[id := Progress(at[id].acc + delta, true, false)]) else None
    case ArgsDone(id, _, _, args) =>
      if id in plans && id in at && DoneFits(plans[id], at[id], args)
      then Some(at[id := at[id].(settled := true)]) else None
    case ItemDone(_, FunctionItem(id, _, _, args, _)) =>
      if id in plans && id in at && DoneFits(plans[id], at[id], args)
      then Some(at[id := at[id].(settled := true)]) else None
    case _ => Some(at)
  }

  function TrackAll(plans: map<string, Plan>, at: map<string, Progress>, frames: seq<Frame>): Option<map<string, Progress>>
    decreases |frames|
  {
    if frames == [] then Some(at)
    else
      var next := Track(plans, at, frames[0]);
      if next.None? then None else TrackAll(plans, next.value, frames[1..])
  }

  predicate Complete(plan: Plan, at: Progress) {
    at.settled || (at.viaDelta && at.acc == plan.args)
  }

  function Delivered(plan: Plan, at: Progress): string {
    if at.viaDelta then at.acc else if at.settled then plan.args else ""
  }

  /** The planned call, with this input so far; a call added without a name may be given another's. */
  predicate CallIn(tools: map<string, Tool>, plan: Plan, input: string) {
    plan.callId in tools
    && var t := tools[plan.callId];
       t.id == plan.callId && t.input == input && (plan.name != "" ==> t.name == plan.name)
  }

  ghost predicate CallLinked(p: Par, b: Agg, id: string, plan: Plan, at: Progress) {
    && Lookup(p.toolIDs, plan.index) == plan.callId && Lookup(p.toolNames, plan.index) == plan.name
    && Lookup(p.callIDOf, id) == plan.callId
    && (!at.viaDelta ==> at.acc == "")
    && (id in p.argSeen <==> at.viaDelta || (at.settled && plan.args != ""))
    && CallIn(b.tools, plan, Delivered(plan, at))
  }

  /** b folds what the parser has emitted: every call added so far, with what was delivered. */
  ghost predicate Linked(plans: map<string, Plan>, at: map<string, Progress>, p: Par, b: Agg) {
    && (forall id <- p.argSeen :: id in at)
    && (forall id <- at :: id in plans && CallLinked(p, b, id, plans[id], at[id]))
    && (forall c <- b.tools :: Planned(plans, at, c))
  }

  ghost predicate Planned(plans: map<string, Plan>, at: map<string, Progress>, c: string) {
    exists id <- at :: id in plans && plans[id].callId == c
  }

  lemma NonBlankChoice(a: string, b: string)
    requires !Blank(a)
    ensures FirstNonBlank(a, b) == a && a != ""
  {
  }

  ghost predicate SameTables(p: Par, p1: Par) {
    p1.toolIDs == p.toolIDs && p1.toolNames == p.toolNames && p1.callIDOf == p.callIDOf && p1.argSeen == p.argSeen
  }

  ghost predicate NoCalls(evs: seq<Event>) {
    forall i | 0 <= i < |evs| :: !evs[i].ToolCallDelta?
  }

  lemma FinishQuiet(p: Par)
    ensures SameTables(p, FinishNow(p).0) && NoCalls(FinishNow(p).1)
  {
  }

  lemma FailQuiet(p: Par, code: int, message: string)
    ensures SameTables(p, FailNow(p, code, message).0) && NoCalls(FailNow(p, code, message).1)
  {
  }

  /** Every other frame leaves the tables alone and says nothing about calls. */
  lemma QuietFrame(p: Par, f: Frame)
    requires !f.ArgsDelta? && !f.ArgsDone? && !(f.ItemAdded? && f.item.FunctionItem?) && !(f.ItemDone? && f.item.FunctionItem?)
    ensures SameTables(p, FeedFrame(p, f).0) && NoCalls(FeedFrame(p, f).1)
  {
    hide FinishNow, FailNow;
    if f.Completed? || f.Incomplete? {
      FinishQuiet(TakeUsage(p, f.usage));
      FinishQuiet(TakeUsage(p, f.usage).(pendingStop := "length"));
    } else if f.Failed? || f.ErrorEvent? {
      FailQuiet(p, 502, f.message);
      FailQuiet(p, 502, FAILED_TEXT);
      FailQuiet(p, 502, ERROR_TEXT);
    }
  }

  lemma TablesOnly(plans: map<string, Plan>, at: map<string, Progress>, p: Par, p1: Par, b: Agg, b1: Agg)
    requires Linked(plans, at, p, b) && b1.tools == b.tools
    requires SameTables(p, p1)
    ensures Linked(plans, at, p1, b1)
  {
    forall id | id in at ensures CallLinked(p1, b1, id, plans[id], at[id]) {
      assert CallLinked(p, b, id, plans[id], at[id]);
    }
  }

  lemma OtherFrame(plans: map<string, Plan>, at: map<string, Progress>, p: Par, b: Agg, f: Frame)
    requires Linked(plans, at, p, b)
    requires !f.ArgsDelta? && !f.ArgsDone? && !(f.ItemAdded? && f.item.FunctionItem?) && !(f.ItemDone? && f.item.FunctionItem?)
    ensures Linked(plans, at, FeedFrame(p, f).0, AbsorbAll(b, FeedFrame(p, f).1))
  {
    QuietFrame(p, f);
    hide FeedFrame, Linked, AbsorbAll;
    var out := FeedFrame(p, f).1;
    QuietEvents(b, out);
    TablesOnly(plans, at, p, FeedFrame(p, f).0, b, AbsorbAll(b, out));
  }

  lemma {:induction false} QuietEvents(b: Agg, evs: seq<Event>)
    requires NoCalls(evs)
    ensures AbsorbAll(b, evs).tools == b.tools
    decreases |evs|
  {
    if evs != [] {
      QuietEvents(Absorb(b, evs[0]), evs[1..]);
    }
  }

  lemma NewCall(plans: map<string, Plan>, at: map<string, Progress>, p: Par, b: Agg, id: string)
    requires Sound(plans) && Linked(plans, at, p, b) && id in plans && id !in at
    ensures plans[id].callId !in b.tools
  {
  }

  lemma StillPlanned(plans: map<string, Plan>, at: map<string, Progress>, id: string, to: Progress, c: string)
    requires id in plans && (Planned(plans, at, c) || c == plans[id].callId)
    ensures Planned(plans, at[id := to], c)
  {
    var at1 := at[id := to];
    assert id in at1 && forall k <- at :: k in at1;
  }

  function OpenAt(p: Par, id: string, plan: Plan): Par {
    p.(sawTool := true, toolIDs := p.toolIDs[plan.index := plan.callId],
       toolNames := p.toolNames[plan.index := plan.name], callIDOf := p.callIDOf[id := plan.callId])
  }

  function OpenIn(b: Agg, plan: Plan, name: string): Agg {
    b.(tools := b.tools[plan.callId := Tool(plan.callId, name, "")])
  }

  /** Opening a call leaves another as it was. */
  lemma OthersStay(p: Par, b: Agg, id: string, plan: Plan, name: string, k: string, other: Plan, at: Progress)
    requires CallLinked(p, b, k, other, at)
    requires k != id && other.index != plan.index && other.callId != plan.callId
    ensures CallLinked(OpenAt(p, id, plan), OpenIn(b, plan, name), k, other, at)
  {
  }

  lemma AllOthersStay(plans: map<string, Plan>, at: map<string, Progress>, p: Par, b: Agg, id: string, name: string)
    requires Sound(plans) && Linked(plans, at, p, b) && id in plans && id !in at
    ensures forall k <- at :: CallLinked(OpenAt(p, id, plans[id]), OpenIn(b, plans[id], name), k, plans[k], at[k])
  {
    hide CallLinked, Planned, Sound;
    forall k | k in at ensures CallLinked(OpenAt(p, id, plans[id]), OpenIn(b, plans[id], name), k, plans[k], at[k]) {
      DistinctPlans(plans, id, k);
      OthersStay(p, b, id, plans[id], name, k, plans[k], at[k]);
    }
  }

  lemma OpenSelf(p: Par, b: Agg, id: string, plan: Plan, name: string)
    requires id !in p.argSeen && (plan.name != "" ==> name == plan.name)
    ensures CallLinked(OpenAt(p, id, plan), OpenIn(b, plan, name), id, plan, Progress("", false, false))
  {
  }

  lemma DistinctPlans(plans: map<string, Plan>, a: string, b: string)
    requires Sound(plans) && a in plans && b in plans && a != b
    ensures plans[a].index != plans[b].index && plans[a].callId != plans[b].callId
  {
  }

  /** Opening a new call at parser and fold. */
  lemma Open(plans: map<string, Plan>, at: map<string, Progress>, p: Par, b: Agg, id: string, name: string)
    requires Sound(plans) && Linked(plans, at, p, b) && id in plans && id !in at
    requires plans[id].name != "" ==> name == plans[id].name
    ensures Linked(plans, at[id := Progress("", false, false)], OpenAt(p, id, plans[id]), OpenIn(b, plans[id], name))
  {
    var plan := plans[id];
    var p1, b1, at1 := OpenAt(p, id, plan), OpenIn(b, plan, name), at[id := Progress("", false, false)];
    hide CallLinked, Planned, Sound;
    OpenSelf(p, b, id, plan, name);
    AllOthersStay(plans, at, p, b, id, name);
    forall c | c in b1.tools ensures Planned(plans, at1, c) {
      StillPlanned(plans, at, id, Progress("", false, false), c);
    }
  }

  lemma AddedFrame(plans: map<string, Plan>, at: map<string, Progress>, p: Par, b: Agg, f: Frame)
    requires Sound(plans) && Linked(plans, at, p, b)
    requires f.ItemAdded? && f.item.FunctionItem? && Track(plans, at, f).Some?
    ensures Linked(plans, Track(plans, at, f).value, FeedFrame(p, f).0, AbsorbAll(b, FeedFrame(p, f).1))
  {
    var id := f.item.id;
    var plan := plans[id];
    NonBlankChoice(id, f.itemId);
    assert plan.callId != "" && Track(plans, at, f).value == at[id := Progress("", false, false)];
    NewCall(plans, at, p, b, id);
    var name := b.track.Resolve(plan.callId, plan.name).lastName;
    Open(plans, at, p, b, id, name);
    hide Linked, Track, Sound;
    var ev := ToolCallDelta(plan.callId, plan.name, "");
    assert FeedFrame(p, f).1 == [ev];
    AbsorbOne(b, ev);
    TablesOnly(plans, at[id := Progress("", false, false)], OpenAt(p, id, plan), FeedFrame(p, f).0,
               OpenIn(b, plan, name), Absorb(b, ev));
  }

  /** The call's input, and nothing else of the fold that matters here, is replaced. */
  function DeliverIn(b: Agg, call: string, input: string): Agg
    requires call in b.tools
  {
    b.(tools := b.tools[call := b.tools[call].(input := input)])
  }

  lemma OthersKeep(p: Par, b: Agg, id: string, call: string, input: string, k: string, other: Plan, at: Progress)
    requires CallLinked(p, b, k, other, at) && k != id && other.callId != call && call in b.tools
    ensures CallLinked(p.(argSeen := p.argSeen + {id}), DeliverIn(b, call, input), k, other, at)
  {
  }

  lemma DeliverSelf(p: Par, b: Agg, id: string, plan: Plan, at: Progress, to: Progress)
    requires CallLinked(p, b, id, plan, at)
    requires to.viaDelta || (to.acc == "" && to.settled && plan.args != "")
    ensures plan.callId in b.tools
    ensures CallLinked(p.(argSeen := p.argSeen + {id}), DeliverIn(b, plan.callId, Delivered(plan, to)), id, plan, to)
  {
  }

  lemma LinkedCall(plans: map<string, Plan>, at: map<string, Progress>, p: Par, b: Agg, id: string)
    requires Linked(plans, at, p, b) && id in at
    ensures id in plans && CallLinked(p, b, id, plans[id], at[id])
  {
  }

  /** Adding args to one call's input keeps every other call as it was. */
  lemma Deliver(plans: map<string, Plan>, at: map<string, Progress>, p: Par, b: Agg, id: string, to: Progress)
    requires Sound(plans) && Linked(plans, at, p, b) && id in at && id in plans && plans[id].callId in b.tools
    requires to.viaDelta || (to.acc == "" && to.settled && plans[id].args != "")
    ensures Linked(plans, at[id := to], p.(argSeen := p.argSeen + {id}),
                   DeliverIn(b, plans[id].callId, Delivered(plans[id], to)))
  {
    hide CallLinked, Planned, Sound, Delivered;
    DeliverSelf(p, b, id, plans[id], at[id], to);
    var b1, at1 := DeliverIn(b, plans[id].callId, Delivered(plans[id], to)), at[id := to];
    var p1 := p.(argSeen := p.argSeen + {id});
    forall k | k in at1 ensures k in plans && CallLinked(p1, b1, k, plans[k], at1[k]) {
      if k != id {
        DistinctPlans(plans, id, k);
        OthersKeep(p, b, id, plans[id].callId, Delivered(plans[id], to), k, plans[k], at[k]);
      }
    }
    forall c | c in b1.tools ensures Planned(plans, at1, c) {
      StillPlanned(plans, at, id, to, c);
    }
  }

  lemma AbsorbKnown(b: Agg, call: string, name: string, more: string)
    requires call != "" && call in b.tools
    ensures Absorb(b, ToolCallDelta(call, name, more)).tools == DeliverIn(b, call, b.tools[call].input + more).tools
  {
  }

  lemma PlanHasCall(plans: map<string, Plan>, id: string)
    requires Sound(plans) && id in plans
    ensures plans[id].callId != "" && id != "" && !Blank(id) && !Blank(plans[id].callId)
  {
  }

  lemma LinkedInput(p: Par, b: Agg, id: string, plan: Plan, at: Progress)
    requires CallLinked(p, b, id, plan, at)
    ensures plan.callId in b.tools && b.tools[plan.callId].input == Delivered(plan, at)
    ensures Lookup(p.toolIDs, plan.index) == plan.callId && Lookup(p.toolNames, plan.index) == plan.name
    ensures Lookup(p.callIDOf, id) == plan.callId && (!at.viaDelta ==> at.acc == "")
    ensures id in p.argSeen <==> at.viaDelta || (at.settled && plan.args != "")
  {
  }

  /** The same, as the fold takes the event in; the event's name does not matter for a known call. */
  lemma DeliverEvent(plans: map<string, Plan>, at: map<string, Progress>, p: Par, b: Agg, id: string, name: string, more: string, to: Progress)
    requires Sound(plans) && Linked(plans, at, p, b) && id in at && id in plans
    requires Delivered(plans[id], to) == Delivered(plans[id], at[id]) + more
    requires to.viaDelta || (to.acc == "" && to.settled && plans[id].args != "")
    ensures Linked(plans, at[id := to], p.(argSeen := p.argSeen + {id}), AbsorbAll(b, [ToolCallDelta(plans[id].callId, name, more)]))
  {
    hide Linked, Absorb, AbsorbAll, Sound, CallLinked, Delivered, DeliverIn, SameTables;
    LinkedCall(plans, at, p, b, id);
    LinkedInput(p, b, id, plans[id], at[id]);
    PlanHasCall(plans, id);
    Deliver(plans, at, p, b, id, to);
    var ev := ToolCallDelta(plans[id].callId, name, more);
    AbsorbOne(b, ev);
    AbsorbKnown(b, plans[id].callId, name, more);
    var p1 := p.(argSeen := p.argSeen + {id});
    SameTablesSelf(p1);
    TablesOnly(plans, at[id := to], p1, p1, DeliverIn(b, plans[id].callId, Delivered(plans[id], to)), AbsorbAll(b, [ev]));
  }

  lemma SameTablesSelf(p: Par)
    ensures SameTables(p, p)
  {
  }

  lemma DeltaFrame(plans: map<string, Plan>, at: map<string, Progress>, p: Par, b: Agg, f: Frame)
    requires Sound(plans) && Linked(plans, at, p, b)
    requires f.ArgsDelta? && Track(plans, at, f).Some?
    ensures Linked(plans, Track(plans, at, f).value, FeedFrame(p, f).0, AbsorbAll(b, FeedFrame(p, f).1))
  {
    var id := f.itemId;
    var plan := plans[id];
    LinkedCall(plans, at, p, b, id);
    LinkedInput(p, b, id, plan, at[id]);
    PlanHasCall(plans, id);
    NonBlankChoice(id, plan.callId);
    var ev := ToolCallDelta(plan.callId, plan.name, f.delta);
    assert FeedFrame(p, f) == (p.(argSeen := p.argSeen + {id}), [ev]);
    var to := Progress(at[id].acc + f.delta, true, false);
    assert at[id].settled ==> false;
    assert Delivered(plan, to) == Delivered(plan, at[id]) + f.delta;
    hide FeedFrame, AbsorbAll, Absorb, Linked, Delivered;
    DeliverEvent(plans, at, p, b, id, plan.name, f.delta, to);
  }

  /** Settling a call whose arguments have all been delivered, or that has none, changes nothing else. */
  lemma SettleQuietly(plans: map<string, Plan>, at: map<string, Progress>, p: Par, b: Agg, id: string)
    requires Linked(plans, at, p, b) && id in at
    requires plans[id].args == "" || id in p.argSeen
    ensures Linked(plans, at[id := at[id].(settled := true)], p, b)
  {
    var at1 := at[id := at[id].(settled := true)];
    forall k | k in at1 ensures CallLinked(p, b, k, plans[k], at1[k]) {
      assert CallLinked(p, b, k, plans[k], at[k]);
    }
    forall c | c in b.tools ensures Planned(plans, at1, c) {
      StillPlanned(plans, at, id, at1[id], c);
    }
  }

  lemma DoneFrame(plans: map<string, Plan>, at: map<string, Progress>, p: Par, b: Agg, id: string, args: string)
    requires Sound(plans) && Linked(plans, at, p, b)
    requires id in plans && id in at && DoneFits(plans[id], at[id], args)
    ensures var (p1, out) := ArgsFromDone(p, id, args);
            Linked(plans, at[id := at[id].(settled := true)], p1, AbsorbAll(b, out))
  {
    var plan := plans[id];
    LinkedCall(plans, at, p, b, id);
    LinkedInput(p, b, id, plan, at[id]);
    PlanHasCall(plans, id);
    hide Sound, Linked, CallLinked;
    if args == "" || id in p.argSeen {
      SettleQuietly(plans, at, p, b, id);
    } else {
      NonBlankChoice(plan.callId, id);
      var ev := ToolCallDelta(plan.callId, "", args);
      var p1 := p.(argSeen := p.argSeen + {id}, sawTool := true);
      assert ArgsFromDone(p, id, args) == (p1, [ev]);
      var to := at[id].(settled := true);
      assert Delivered(plan, to) == Delivered(plan, at[id]) + args;
      hide Absorb, AbsorbAll, Delivered, ArgsFromDone, CallLinked;
      TablesOnly(plans, at, p, p.(sawTool := true), b, b);
      DeliverEvent(plans, at, p.(sawTool := true), b, id, "", args, to);
    }
  }

  lemma AnyFrame(plans: map<string, Plan>, at: map<string, Progress>, p: Par, b: Agg, f: Frame)
    requires Sound(plans) && Linked(plans, at, p, b) && Track(plans, at, f).Some?
    ensures Linked(plans, Track(plans, at, f).value, FeedFrame(p, f).0, AbsorbAll(b, FeedFrame(p, f).1))
  {
    hide Linked, ArgsFromDone;
    match f
    case ItemAdded(_, _, FunctionItem(_, _, _, _, _)) => AddedFrame(plans, at, p, b, f);
    case ArgsDelta(_, _, _, _) => DeltaFrame(plans, at, p, b, f);
    case ArgsDone(id, _, callId, args) =>
      NonBlankChoice(id, callId);
      DoneFrame(plans, at, p, b, id, args);
    case ItemDone(_, FunctionItem(id, callId, _, args, _)) =>
      NonBlankChoice(id, callId);
      DoneFrame(plans, at, p, b, id, args);
    case _ => OtherFrame(plans, at, p, b, f);
  }

  lemma {:induction false} AllFrames(plans: map<string, Plan>, at: map<string, Progress>, p: Par, b: Agg, frames: seq<Frame>)
    requires Sound(plans) && Linked(plans, at, p, b) && TrackAll(plans, at, frames).Some?
    ensures var (p1, out) := Run(FeedFrame, p, frames);
            Linked(plans, TrackAll(plans, at, frames).value, p1, AbsorbAll(b, out))
    decreases |frames|
  {
    if frames != [] {
      AnyFrame(plans, at, p, b, frames[0]);
      hide Linked, FeedFrame, Track, AbsorbAll;
      var p1, out := FeedFrame(p, frames[0]).0, FeedFrame(p, frames[0]).1;
      AllFrames(plans, Track(plans, at, frames[0]).value, p1, AbsorbAll(b, out), frames[1..]);
      AbsorbAllConcat(b, out, Run(FeedFrame, p1, frames[1..]).1);
    }
  }

  ghost predicate CompletesAll(plans: map<string, Plan>, frames: seq<Frame>) {
    var end := TrackAll(plans, map[], frames);
    end.Some? && end.value.Keys == plans.Keys && forall id <- plans :: Complete(plans[id], end.value[id])
  }

  /** Every planned call with its full arguments, under its name if it has one, and no other. */
  ghost predicate ExactlyPlanned(plans: map<string, Plan>, calls: map<string, Tool>) {
    && (forall id <- plans :: CallIn(calls, plans[id], plans[id].args))
    && (forall c <- calls :: exists id <- plans :: plans[id].callId == c)
  }

  /** From any consistent upstream that completes every call, a client behind the parser ends up
      with exactly the planned calls, each with its full arguments once, whether they came as
      deltas, in done frames only, or both. */
  lemma ArgumentsExactlyOnce(plans: map<string, Plan>, frames: seq<Frame>, model: string, spare: string)
    requires Sound(plans) && CompletesAll(plans, frames)
    ensures ExactlyPlanned(plans, AbsorbAll(NewAgg(model, spare), Run(FeedFrame, NEW_PARSER, frames).1).tools)
  {
    hide TrackAll, Run, AbsorbAll, Linked, FeedFrame, ExactlyPlanned, Complete, SettledFull;
    var end := TrackAll(plans, map[], frames).value;
    var b := NewAgg(model, spare);
    NothingLinked(plans, model, spare);
    AllFrames(plans, map[], NEW_PARSER, b, frames);
    EndsSettled(plans, map[], frames, end);
    var p1, out := Run(FeedFrame, NEW_PARSER, frames).0, Run(FeedFrame, NEW_PARSER, frames).1;
    EndsExactly(plans, end, p1, AbsorbAll(b, out));
  }

  lemma NothingLinked(plans: map<string, Plan>, model: string, spare: string)
    ensures Linked(plans, map[], NEW_PARSER, NewAgg(model, spare)) && SettledFull(plans, map[])
  {
  }

  lemma EndsExactly(plans: map<string, Plan>, end: map<string, Progress>, p: Par, b: Agg)
    requires Linked(plans, end, p, b) && SettledFull(plans, end)
    requires end.Keys == plans.Keys && forall id <- plans :: Complete(plans[id], end[id])
    ensures ExactlyPlanned(plans, b.tools)
  {
    forall id | id in plans ensures CallIn(b.tools, plans[id], plans[id].args) {
      assert id in end && CallLinked(p, b, id, plans[id], end[id]);
    }
    forall c | c in b.tools ensures exists id <- plans :: plans[id].callId == c {
      assert Planned(plans, end, c);
    }
  }

  /** A settled call that had deltas had them all. */
  ghost predicate SettledFull(plans: map<string, Plan>, at: map<string, Progress>) {
    at.Keys <= plans.Keys && forall id <- at :: at[id].settled && at[id].viaDelta ==> at[id].acc == plans[id].args
  }

  lemma {:induction false} EndsSettled(plans: map<string, Plan>, at: map<string, Progress>, frames: seq<Frame>, end: map<string, Progress>)
    requires SettledFull(plans, at) && TrackAll(plans, at, frames) == Some(end)
    ensures SettledFull(plans, end)
    decreases |frames|
  {
    if frames != [] {
      EndsSettled(plans, Track(plans, at, frames[0]).value, frames[1..], end);
    }
  }
}
