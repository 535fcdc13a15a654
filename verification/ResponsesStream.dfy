/** How a Responses stream from any upstream starts and ends, and its text, read off the frames alone. */
module ResponsesStream {
  import opened Text
  import opened Envelope
  import opened Machines
  import opened Responses

  // ---------- Events by kind ----------

  datatype Kind = Start | Words | Call | End

  function KindOf(e: Event): Kind {
    match e
    case MessageStart(_) => Start
    case ContentDelta(_, _) => Words
    case ToolCallDelta(_, _, _) => Call
    case MessageFinish(_, _) => End
    case TaskFailed(_, _) => End
  }

  function Only(evs: seq<Event>, kind: Kind): seq<Event> {
    if evs == [] then [] else (if KindOf(evs[0]) == kind then [evs[0]] else []) + Only(evs[1..], kind)
  }

  lemma {:induction false} OnlyConcat(a: seq<Event>, b: seq<Event>, kind: Kind)
    ensures Only(a + b, kind) == Only(a, kind) + Only(b, kind)
  {
    hide KindOf;
    if a == [] {
      assert a + b == b;
    } else {
      assert (a + b)[1..] == a[1..] + b;
      OnlyConcat(a[1..], b, kind);
      Regroup(if KindOf(a[0]) == kind then [a[0]] else [], Only(a[1..], kind), Only(b, kind));
    }
  }

  lemma Nothing(kind: Kind)
    ensures Only([], kind) == []
  {
  }

  lemma OnlyOne(e: Event, kind: Kind)
    ensures Only([e], kind) == if KindOf(e) == kind then [e] else []
  {
    assert [e][1..] == [];
  }

  lemma OnlyTwo(e: Event, f: Event, kind: Kind)
    ensures Only([e] + [f], kind) == (if KindOf(e) == kind then [e] else []) + if KindOf(f) == kind then [f] else []
  {
    hide Only;
    OnlyConcat([e], [f], kind);
    OnlyOne(e, kind);
    OnlyOne(f, kind);
  }

  // ---------- What the frames say ----------

  predicate Finishes(f: Frame) {
    f.Completed? || f.Incomplete?
  }

  predicate Terminal(f: Frame) {
    Finishes(f) || f.Failed? || f.ErrorEvent?
  }

  /** How many frames come before the first that ends the stream. */
  function BeforeEnd(frames: seq<Frame>): (n: nat)
    ensures n <= |frames| && (n < |frames| ==> Terminal(frames[n])) && forall i | 0 <= i < n :: !Terminal(frames[i])
  {
    if frames == [] || Terminal(frames[0]) then 0 else 1 + BeforeEnd(frames[1..])
  }

  /** The frame tells of a call: a function item, or full arguments of which no part has come. */
  predicate Tells(f: Frame, seen: set<string>) {
    match f
    case ItemAdded(_, _, item) => item.FunctionItem?
    case ArgsDone(itemId, _, callId, args) => NewArgs(FirstNonBlank(itemId, callId), args, seen)
    case ItemDone(_, item) => item.FunctionItem? && NewArgs(FirstNonBlank(item.id, item.callId), item.args, seen)
    case _ => false
  }

  predicate NewArgs(key: string, args: string, seen: set<string>) {
    key != "" && args != "" && key !in seen
  }

  function Mark(f: Frame, seen: set<string>): set<string> {
    match f
    case ArgsDelta(itemId, index, callId, _) =>
      seen + {FirstNonBlank(itemId, if callId != "" then callId else SynthId(index))}
    case _ => seen
  }

  predicate TellsOfCall(frames: seq<Frame>, seen: set<string>) {
    frames != [] && (Tells(frames[0], seen) || TellsOfCall(frames[1..], Mark(frames[0], seen)))
  }

  function Counts(usage: Option<WireUsage>): Option<Usage> {
    if usage.None? then None else Some(Usage(usage.value.input, usage.value.output, usage.value.cached, 0, 0.0))
  }

  function EndOf(f: Frame, called: bool): Event
    requires Terminal(f)
  {
    var reason := if called then "tool_calls" else "stop";
    match f
    case Completed(_, _, usage) => MessageFinish(reason, Counts(usage))
    case Incomplete(why, usage) => MessageFinish(if why == "max_output_tokens" then "length" else reason, Counts(usage))
    case Failed(message) => TaskFailed(502, if message != "" then message else FAILED_TEXT)
    case ErrorEvent(message) => TaskFailed(502, if message != "" then message else ERROR_TEXT)
  }

  function WordsOf(frames: seq<Frame>): seq<Event> {
    if frames == [] then []
    else (if frames[0].TextDelta? && frames[0].delta != "" then [ContentDelta(frames[0].delta, false)] else []) + WordsOf(frames[1..])
  }

  /** The model of the first frame that names one; a finish that comes first starts an unnamed message. */
  function StartOf(frames: seq<Frame>, ended: bool): seq<Event> {
    if frames == [] then []
    else if frames[0].Created? then [MessageStart(frames[0].model)]
    else if Finishes(frames[0]) && !ended then [MessageStart("")]
    else StartOf(frames[1..], ended || Terminal(frames[0]))
  }

  // ---------- One frame ----------

  /** What the parser remembers while the stream has not ended. */
  ghost predicate Running(p: Par, seen: set<string>) {
    && !p.sentFinish && p.pendingStop == "" && p.usage == None
    && (!p.sawTool ==> p.argSeen == seen && p.toolIDs == map[])
  }

  lemma QuietFrame(p: Par, f: Frame)
    requires !Terminal(f)
    ensures var (p1, out) := FeedFrame(p, f);
            && Only(out, End) == []
            && Only(out, Words) == WordsOf([f])
            && Only(out, Start) == (if f.Created? && !p.sentStart then [MessageStart(f.model)] else [])
            && p1.sentStart == (p.sentStart || f.Created?)
            && p1.sentFinish == p.sentFinish
  {
    hide Lookup, CallIdOf, FirstNonBlank, Only;
    assert [f][1..] == [] && WordsOf([]) == [];
    var out := FeedFrame(p, f).1;
    Nothing(End);
    Nothing(Words);
    Nothing(Start);
    if out != [] {
      assert out == [out[0]];
      OnlyOne(out[0], End);
      OnlyOne(out[0], Words);
      OnlyOne(out[0], Start);
    }
  }

  lemma RunningFrame(p: Par, f: Frame, seen: set<string>)
    requires Running(p, seen) && !Terminal(f)
    ensures var p1 := FeedFrame(p, f).0;
            Running(p1, Mark(f, seen)) && p1.sawTool == (p.sawTool || Tells(f, seen))
  {
    hide CallIdOf, FirstNonBlank, SynthId;
  }

  lemma FinishEvents(p: Par)
    ensures var (p1, out) := FinishNow(p);
            var reason := if p.pendingStop != "" then p.pendingStop else if p.sawTool then "tool_calls" else "stop";
            && p1.sentFinish && p1.sentStart == (p.sentStart || !p.sentFinish)
            && (p.sentFinish ==> out == [])
            && Only(out, End) == (if p.sentFinish then [] else [MessageFinish(reason, p.usage)])
            && Only(out, Words) == []
            && Only(out, Start) == (if p.sentFinish || p.sentStart then [] else [MessageStart("")])
  {
    hide Only;
    var reason := if p.pendingStop != "" then p.pendingStop else if p.sawTool then "tool_calls" else "stop";
    var e := MessageFinish(reason, p.usage);
    forall kind ensures Only([], kind) == [] && Only([] + [e], kind) == if kind == End then [e] else [] {
      Nothing(kind);
      OnlyOne(e, kind);
      assert [] + [e] == [e];
    }
    OnlyTwo(MessageStart(""), e, End);
    OnlyTwo(MessageStart(""), e, Words);
    OnlyTwo(MessageStart(""), e, Start);
  }

  lemma FailEvents(p: Par, message: string)
    ensures var (p1, out) := FailNow(p, 502, message);
            && p1.sentFinish && p1.sentStart == p.sentStart
            && (p.sentFinish ==> out == [])
            && Only(out, End) == (if p.sentFinish then [] else [TaskFailed(502, message)])
            && Only(out, Words) == [] && Only(out, Start) == []
  {
    hide Only;
    forall kind ensures Only([], kind) == [] {
      Nothing(kind);
    }
    OnlyOne(TaskFailed(502, message), End);
    OnlyOne(TaskFailed(502, message), Words);
    OnlyOne(TaskFailed(502, message), Start);
  }

  predicate CutShort(f: Frame) {
    f.Incomplete? && f.reason == "max_output_tokens"
  }

  /** The parser with the counts and the reason that a finishing frame reports. */
  function Reported(p: Par, f: Frame): Par
    requires Finishes(f)
  {
    var p1 := TakeUsage(p, f.usage);
    if CutShort(f) then p1.(pendingStop := "length") else p1
  }

  function MessageOf(f: Frame): string
    requires Terminal(f) && !Finishes(f)
  {
    if f.message != "" then f.message else if f.Failed? then FAILED_TEXT else ERROR_TEXT
  }

  lemma EndedBy(p: Par, f: Frame)
    requires Terminal(f)
    ensures FeedFrame(p, f) == if Finishes(f) then FinishNow(Reported(p, f)) else FailNow(p, 502, MessageOf(f))
  {
    hide FinishNow, FailNow, FAILED_TEXT, ERROR_TEXT;
  }

  /** What a frame that ends the stream emits, unless it has ended before. */
  lemma EndFrame(p: Par, f: Frame)
    requires Terminal(f)
    ensures var (p1, out) := FeedFrame(p, f);
            && p1.sentFinish && (p.sentFinish ==> out == [])
            && (!p.sentFinish && p.pendingStop == "" && p.usage == None ==> Only(out, End) == [EndOf(f, p.sawTool)])
            && Only(out, Words) == [] && WordsOf([f]) == []
            && Only(out, Start) == (if !p.sentFinish && !p.sentStart && Finishes(f) then [MessageStart("")] else [])
            && p1.sentStart == (p.sentStart || (!p.sentFinish && Finishes(f)))
  {
    hide Only, FinishNow, FailNow, FeedFrame, FAILED_TEXT, ERROR_TEXT;
    assert [f][1..] == [] && WordsOf([]) == [];
    EndedBy(p, f);
    if Finishes(f) {
      FinishEvents(Reported(p, f));
    } else {
      FailEvents(p, MessageOf(f));
    }
  }

  // ---------- Streams ----------

  lemma RunFirst(p: Par, frames: seq<Frame>, kind: Kind)
    requires frames != []
    ensures var (p1, out) := FeedFrame(p, frames[0]);
            Only(Run(FeedFrame, p, frames).1, kind) == Only(out, kind) + Only(Run(FeedFrame, p1, frames[1..]).1, kind)
  {
    hide FeedFrame;
    var (p1, out) := FeedFrame(p, frames[0]);
    OnlyConcat(out, Run(FeedFrame, p1, frames[1..]).1, kind);
  }

  lemma WordsFirst(frames: seq<Frame>)
    ensures WordsOf(frames) == if frames == [] then [] else WordsOf([frames[0]]) + WordsOf(frames[1..])
  {
    if frames != [] {
      assert [frames[0]][1..] == [] && WordsOf([]) == [];
    }
  }

  lemma {:induction false} WordsRun(p: Par, frames: seq<Frame>)
    ensures Only(Run(FeedFrame, p, frames).1, Words) == WordsOf(frames)
    decreases |frames|
  {
    hide FeedFrame, Only, WordsOf;
    WordsFirst(frames);
    if frames == [] {
      Nothing(Words);
    } else {
      var f := frames[0];
      RunFirst(p, frames, Words);
      if Terminal(f) {
        EndFrame(p, f);
      } else {
        QuietFrame(p, f);
      }
      WordsRun(FeedFrame(p, f).0, frames[1..]);
    }
  }

  lemma {:induction false} StartRun(p: Par, frames: seq<Frame>)
    ensures Only(Run(FeedFrame, p, frames).1, Start) == if p.sentStart then [] else StartOf(frames, p.sentFinish)
    decreases |frames|
  {
    hide FeedFrame, Only;
    if frames == [] {
      Nothing(Start);
    } else {
      var f := frames[0];
      RunFirst(p, frames, Start);
      if Terminal(f) {
        EndFrame(p, f);
      } else {
        QuietFrame(p, f);
      }
      StartRun(FeedFrame(p, f).0, frames[1..]);
    }
  }

  lemma {:induction false} Ended(p: Par, frames: seq<Frame>)
    requires p.sentFinish
    ensures Only(Run(FeedFrame, p, frames).1, End) == [] && Run(FeedFrame, p, frames).0.sentFinish
    decreases |frames|
  {
    hide FeedFrame, Only;
    if frames == [] {
      Nothing(End);
    } else {
      var f := frames[0];
      RunFirst(p, frames, End);
      if Terminal(f) {
        EndFrame(p, f);
        Nothing(End);
      } else {
        QuietFrame(p, f);
      }
      Ended(FeedFrame(p, f).0, frames[1..]);
    }
  }

  ghost predicate EndsWith(p: Par, frames: seq<Frame>, seen: set<string>) {
    var (p1, out) := Run(FeedFrame, p, frames);
    var n := BeforeEnd(frames);
    var called := p.sawTool || TellsOfCall(frames[..n], seen);
    Only(out + FinishNow(p1).1, End)
      == [if n < |frames| then EndOf(frames[n], called) else MessageFinish(if called then "tool_calls" else "stop", None)]
  }

  lemma {:induction false} EndRun(p: Par, frames: seq<Frame>, seen: set<string>)
    requires Running(p, seen)
    ensures EndsWith(p, frames, seen)
    decreases |frames|
  {
    hide FeedFrame, FinishNow, EndOf, Only, Tells, Mark;
    if frames == [] {
      CloseRunning(p, seen);
    } else {
      var f := frames[0];
      var p1 := FeedFrame(p, f).0;
      var (p2, out) := Run(FeedFrame, p, frames);
      RunFirst(p, frames, End);
      OnlyConcat(out, FinishNow(p2).1, End);
      if Terminal(f) {
        EndFrame(p, f);
        Ended(p1, frames[1..]);
        CloseEnded(p2);
        assert frames[..0] == [];
      } else {
        QuietFrame(p, f);
        RunningFrame(p, f, seen);
        EndRun(p1, frames[1..], Mark(f, seen));
        var n := BeforeEnd(frames);
        assert n > 0 && frames[..n][1..] == frames[1..][..n - 1];
        OnlyConcat(Run(FeedFrame, p1, frames[1..]).1, FinishNow(p2).1, End);
      }
    }
  }

  lemma CloseRunning(p: Par, seen: set<string>)
    requires Running(p, seen)
    ensures EndsWith(p, [], seen)
  {
    hide Only, FinishNow;
    FinishEvents(p);
    var out := FinishNow(p).1;
    assert [] + out == out;
  }

  lemma CloseEnded(p: Par)
    requires p.sentFinish
    ensures FinishNow(p).1 == [] && Only([], End) == []
  {
  }

  // ---------- Calls ----------

  /** The id a function item gives its call: its call id, its own id, or one made from its index. */
  function IdGiven(item: Item, index: int): string
    requires item.FunctionItem?
  {
    if item.callId != "" then item.callId else if item.id != "" then item.id else SynthId(index)
  }

  /** The id and the name of the function item last added under an index. */
  function CallAt(seen: seq<Frame>, index: int): (string, string) {
    if seen == [] then ("", "")
    else
      var f := seen[|seen| - 1];
      if f.ItemAdded? && f.item.FunctionItem? && f.index == index then (IdGiven(f.item, index), f.item.name)
      else CallAt(seen[..|seen| - 1], index)
  }

  /** The call of the function item last added under an item id. */
  function CallOfItem(seen: seq<Frame>, key: string): string {
    if seen == [] then ""
    else
      var f := seen[|seen| - 1];
      if f.ItemAdded? && f.item.FunctionItem? && FirstNonBlank(f.item.id, f.itemId) == key then IdGiven(f.item, f.index)
      else CallOfItem(seen[..|seen| - 1], key)
  }

  /** The call of a fragment: the one it names, that of its index, or one made from its index. */
  function CallOfDelta(seen: seq<Frame>, index: int, callId: string): string {
    if callId != "" then callId else if CallAt(seen, index).0 != "" then CallAt(seen, index).0 else SynthId(index)
  }

  /** The item of a done frame with full arguments, and these. */
  function DoneArgs(f: Frame): Option<(string, string)> {
    match f
    case ArgsDone(itemId, _, callId, args) => Some((FirstNonBlank(itemId, callId), args))
    case ItemDone(_, item) => if item.FunctionItem? then Some((FirstNonBlank(item.id, item.callId), item.args)) else None
    case _ => None
  }

  /** The items of which arguments have come. */
  function Taken(seen: seq<Frame>): set<string> {
    if seen == [] then {}
    else
      var front, f := seen[..|seen| - 1], seen[|seen| - 1];
      if f.ArgsDelta? then Taken(front) + {FirstNonBlank(f.itemId, CallOfDelta(front, f.index, f.callId))}
      else if DoneArgs(f).Some? && NewArgs(DoneArgs(f).value.0, DoneArgs(f).value.1, Taken(front))
      then Taken(front) + {DoneArgs(f).value.0}
      else Taken(front)
  }

  /** A function item opens its call, a fragment adds to its call, and a done frame adds the full arguments
      if none have come for its item. */
  function CallEvents(f: Frame, seen: seq<Frame>): seq<Event> {
    if f.ItemAdded? && f.item.FunctionItem? then [ToolCallDelta(IdGiven(f.item, f.index), f.item.name, "")]
    else if f.ArgsDelta? then [ToolCallDelta(CallOfDelta(seen, f.index, f.callId), CallAt(seen, f.index).1, f.delta)]
    else if DoneArgs(f).Some? && NewArgs(DoneArgs(f).value.0, DoneArgs(f).value.1, Taken(seen))
    then [ToolCallDelta(FirstNonBlank(CallOfItem(seen, DoneArgs(f).value.0), DoneArgs(f).value.0), "", DoneArgs(f).value.1)]
    else []
  }

  function CallsOf(frames: seq<Frame>, seen: seq<Frame>): seq<Event>
    decreases |frames|
  {
    if frames == [] then [] else CallEvents(frames[0], seen) + CallsOf(frames[1..], seen + [frames[0]])
  }

  ghost predicate Knows(p: Par, seen: seq<Frame>) {
    && (forall i :: Lookup(p.toolIDs, i) == CallAt(seen, i).0 && Lookup(p.toolNames, i) == CallAt(seen, i).1)
    && (forall key | key != "" :: Lookup(p.callIDOf, key) == CallOfItem(seen, key))
    && p.argSeen == Taken(seen)
  }

  lemma SeenMore(seen: seq<Frame>, f: Frame)
    ensures forall i :: CallAt(seen + [f], i) ==
              if f.ItemAdded? && f.item.FunctionItem? && f.index == i then (IdGiven(f.item, i), f.item.name) else CallAt(seen, i)
    ensures forall key :: CallOfItem(seen + [f], key) ==
              if f.ItemAdded? && f.item.FunctionItem? && FirstNonBlank(f.item.id, f.itemId) == key then IdGiven(f.item, f.index)
              else CallOfItem(seen, key)
    ensures Taken(seen + [f]) ==
              if f.ArgsDelta? then Taken(seen) + {FirstNonBlank(f.itemId, CallOfDelta(seen, f.index, f.callId))}
              else if DoneArgs(f).Some? && NewArgs(DoneArgs(f).value.0, DoneArgs(f).value.1, Taken(seen))
              then Taken(seen) + {DoneArgs(f).value.0}
              else Taken(seen)
  {
    hide IdGiven, FirstNonBlank, CallOfDelta, NewArgs, DoneArgs;
    var more := seen + [f];
    assert more[..|more| - 1] == seen && more[|more| - 1] == f;
  }

  lemma ItemKnown(p: Par, f: Frame, seen: seq<Frame>)
    requires Knows(p, seen) && f.ItemAdded? && f.item.FunctionItem?
    ensures var (p1, out) := FeedFrame(p, f); Knows(p1, seen + [f]) && out == CallEvents(f, seen)
  {
    hide FirstNonBlank, SynthId, CallAt, CallOfItem, Taken;
    SeenMore(seen, f);
    var p1 := FeedFrame(p, f).0;
    forall i ensures Lookup(p1.toolIDs, i) == CallAt(seen + [f], i).0 && Lookup(p1.toolNames, i) == CallAt(seen + [f], i).1 {
      assert Lookup(p.toolIDs, i) == CallAt(seen, i).0 && Lookup(p.toolNames, i) == CallAt(seen, i).1;
    }
    forall key | key != "" ensures Lookup(p1.callIDOf, key) == CallOfItem(seen + [f], key) {
      assert Lookup(p.callIDOf, key) == CallOfItem(seen, key);
    }
  }

  lemma TablesKept(p: Par, p1: Par, f: Frame, seen: seq<Frame>)
    requires Knows(p, seen) && !(f.ItemAdded? && f.item.FunctionItem?)
    requires p1.toolIDs == p.toolIDs && p1.toolNames == p.toolNames && p1.callIDOf == p.callIDOf
    requires p1.argSeen == Taken(seen + [f])
    ensures Knows(p1, seen + [f])
  {
    hide FirstNonBlank, SynthId, CallAt, CallOfItem, Taken;
    SeenMore(seen, f);
    forall i ensures Lookup(p1.toolIDs, i) == CallAt(seen + [f], i).0 && Lookup(p1.toolNames, i) == CallAt(seen + [f], i).1 {
      assert Lookup(p.toolIDs, i) == CallAt(seen, i).0 && Lookup(p.toolNames, i) == CallAt(seen, i).1;
    }
    forall key | key != "" ensures Lookup(p1.callIDOf, key) == CallOfItem(seen + [f], key) {
      assert Lookup(p.callIDOf, key) == CallOfItem(seen, key);
    }
  }

  lemma DeltaKnown(p: Par, f: Frame, seen: seq<Frame>)
    requires Knows(p, seen) && f.ArgsDelta?
    ensures var (p1, out) := FeedFrame(p, f); Knows(p1, seen + [f]) && out == CallEvents(f, seen)
  {
    hide FirstNonBlank, SynthId, CallAt, CallOfItem, Taken;
    SeenMore(seen, f);
    assert Lookup(p.toolIDs, f.index) == CallAt(seen, f.index).0 && Lookup(p.toolNames, f.index) == CallAt(seen, f.index).1;
    TablesKept(p, FeedFrame(p, f).0, f, seen);
  }

  lemma DoneKnown(p: Par, f: Frame, seen: seq<Frame>)
    requires Knows(p, seen) && DoneArgs(f).Some?
    ensures var (p1, out) := FeedFrame(p, f); Knows(p1, seen + [f]) && out == CallEvents(f, seen)
  {
    hide FirstNonBlank, SynthId, CallAt, CallOfItem, Taken;
    SeenMore(seen, f);
    var key := DoneArgs(f).value.0;
    assert key != "" ==> Lookup(p.callIDOf, key) == CallOfItem(seen, key);
    TablesKept(p, FeedFrame(p, f).0, f, seen);
  }

  ghost predicate SameTables(p: Par, p1: Par) {
    p1 == p.(sentStart := p1.sentStart, sentFinish := p1.sentFinish, pendingStop := p1.pendingStop, usage := p1.usage)
  }

  lemma ReportedTables(p: Par, f: Frame)
    requires Finishes(f)
    ensures SameTables(p, Reported(p, f))
  {
    hide CutShort;
  }

  lemma EndTables(p: Par, f: Frame)
    requires Terminal(f)
    ensures SameTables(p, FeedFrame(p, f).0) && Only(FeedFrame(p, f).1, Call) == []
  {
    hide Only, FinishNow, FailNow, FeedFrame, MessageOf, Reported;
    EndedBy(p, f);
    if Finishes(f) {
      ReportedTables(p, f);
    }
    if Finishes(f) {
      FinishNoCalls(Reported(p, f));
    } else {
      FailNoCalls(p, MessageOf(f));
    }
  }

  lemma FinishNoCalls(p: Par)
    ensures FinishNow(p).0 == p.(sentFinish := true, sentStart := p.sentStart || !p.sentFinish)
    ensures Only(FinishNow(p).1, Call) == []
  {
    hide Only;
    var out := FinishNow(p).1;
    Nothing(Call);
    if |out| == 1 {
      assert out == [out[0]];
      OnlyOne(out[0], Call);
    } else if |out| == 2 {
      assert out == [out[0]] + [out[1]];
      OnlyTwo(out[0], out[1], Call);
    }
  }

  lemma FailNoCalls(p: Par, message: string)
    ensures FailNow(p, 502, message).0 == p.(sentFinish := true)
    ensures Only(FailNow(p, 502, message).1, Call) == []
  {
    hide Only;
    Nothing(Call);
    OnlyOne(TaskFailed(502, message), Call);
  }

  lemma TakenStays(seen: seq<Frame>, f: Frame)
    requires !f.ArgsDelta? && DoneArgs(f).None?
    ensures Taken(seen + [f]) == Taken(seen)
  {
    assert (seen + [f])[..|seen|] == seen;
  }

  lemma EndKnown(p: Par, f: Frame, seen: seq<Frame>)
    requires Knows(p, seen) && Terminal(f)
    ensures var (p1, out) := FeedFrame(p, f); Knows(p1, seen + [f]) && Only(out, Call) == [] && CallEvents(f, seen) == []
  {
    hide Only, Knows, Taken, FeedFrame, CallAt, CallOfItem;
    SeenOf(p, seen);
    EndTables(p, f);
    TakenStays(seen, f);
    TablesKept(p, FeedFrame(p, f).0, f, seen);
  }

  lemma SeenOf(p: Par, seen: seq<Frame>)
    requires Knows(p, seen)
    ensures p.argSeen == Taken(seen)
  {
  }

  lemma OtherKnown(p: Par, f: Frame, seen: seq<Frame>)
    requires Knows(p, seen) && !(f.ItemAdded? && f.item.FunctionItem?) && !f.ArgsDelta? && DoneArgs(f).None? && !Terminal(f)
    ensures var (p1, out) := FeedFrame(p, f); Knows(p1, seen + [f]) && Only(out, Call) == [] && CallEvents(f, seen) == []
  {
    hide Only, FirstNonBlank, SynthId, CallAt, CallOfItem, Taken;
    SeenMore(seen, f);
    var out := FeedFrame(p, f).1;
    TablesKept(p, FeedFrame(p, f).0, f, seen);
    Nothing(Call);
    if out != [] {
      assert out == [out[0]];
      OnlyOne(out[0], Call);
    }
  }

  lemma CallsKnown(p: Par, f: Frame, seen: seq<Frame>)
    requires Knows(p, seen)
    ensures var (p1, out) := FeedFrame(p, f); Knows(p1, seen + [f]) && Only(out, Call) == CallEvents(f, seen)
  {
    hide FeedFrame, Knows, Only, Taken, CallAt, CallOfItem, FirstNonBlank, SynthId, NewArgs;
    var out := CallEvents(f, seen);
    Nothing(Call);
    if f.ItemAdded? && f.item.FunctionItem? {
      ItemKnown(p, f, seen);
    } else if f.ArgsDelta? {
      DeltaKnown(p, f, seen);
    } else if DoneArgs(f).Some? {
      DoneKnown(p, f, seen);
    } else if Terminal(f) {
      EndKnown(p, f, seen);
    } else {
      OtherKnown(p, f, seen);
    }
    if out != [] {
      assert out == [out[0]];
      OnlyOne(out[0], Call);
    }
  }

  /** The calls, from any parser that knows those seen so far. */
  lemma {:induction false} CallsRun(p: Par, frames: seq<Frame>, seen: seq<Frame>)
    requires Knows(p, seen)
    ensures Only(Run(FeedFrame, p, frames).1, Call) == CallsOf(frames, seen)
    decreases |frames|
  {
    hide FeedFrame, Only, Knows, CallEvents;
    if frames == [] {
      Nothing(Call);
    } else {
      RunFirst(p, frames, Call);
      CallsKnown(p, frames[0], seen);
      CallsRun(FeedFrame(p, frames[0]).0, frames[1..], seen + [frames[0]]);
    }
  }

  lemma KnowsNothing()
    ensures Knows(NEW_PARSER, [])
  {
  }

  /** Whatever the upstream sends, and closed when the stream ends: exactly one end, that of the first
      frame that ends the stream; every piece of text and of a call, in order; and the first model
      named. */
  lemma EveryStream(frames: seq<Frame>)
    ensures var (p, out) := Run(FeedFrame, NEW_PARSER, frames);
            var n := BeforeEnd(frames);
            var called := TellsOfCall(frames[..n], {});
            && Only(out + FinishNow(p).1, End)
               == [if n < |frames| then EndOf(frames[n], called) else MessageFinish(if called then "tool_calls" else "stop", None)]
            && Only(out, Words) == WordsOf(frames)
            && Only(out, Call) == CallsOf(frames, [])
            && Only(out, Start) == StartOf(frames, false)
  {
    hide FeedFrame, FinishNow, Only, EndOf, Knows;
    KnowsNothing();
    CallsRun(NEW_PARSER, frames, []);
    EndRun(NEW_PARSER, frames, {});
    WordsRun(NEW_PARSER, frames);
    StartRun(NEW_PARSER, frames);
  }
}
