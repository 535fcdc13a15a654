/** The Responses stream as its client sees it: item discipline, and agreement with the
    non-streaming answer. */
module ResponsesOutput {
  import opened Text
  import opened Envelope
  import opened Aggregate
  import opened Responses
  import opened ResponsesRoundTrip

  // ---------- Item discipline ----------

  datatype Kind = Reasoning | Message | Call

  function KindOf(item: Item): Kind {
    match item
    case ReasoningItem(_, _) => Reasoning
    case MessageItem(_, _, _) => Message
    case FunctionItem(_, _, _, _, _) => Call
  }

  /** The call a function item belongs to. */
  function CallOf(item: Item): string {
    if item.FunctionItem? then item.callId else ""
  }

  /** What an item carries once it is complete. */
  function Content(item: Item): string {
    match item
    case ReasoningItem(_, summary) => if summary.Some? then summary.value else ""
    case MessageItem(_, text, _) => text
    case FunctionItem(_, _, _, args, _) => args
  }

  datatype Slot = Slot(kind: Kind, itemId: string, call: string, acc: string, closed: bool)

  /** A client that watches the frames: one slot per output index with the text or arguments
      gathered from deltas, the items done so far, and whether every frame was allowed. */
  datatype Watch = Watch(slots: seq<Slot>, done: seq<Item>, ended: bool, ok: bool)
  {
    predicate Live(i: int, kind: Kind, itemId: string) {
      0 <= i < |slots| && slots[i].kind == kind && slots[i].itemId == itemId && !slots[i].closed
    }

    function Gather(i: int, kind: Kind, itemId: string, delta: string): Watch {
      if Live(i, kind, itemId) then this.(slots := slots[i := slots[i].(acc := slots[i].acc + delta)])
      else this.(ok := false)
    }

    predicate Holds(i: int, kind: Kind, itemId: string, content: string) {
      Live(i, kind, itemId) && slots[i].acc == content
    }

    predicate AllClosed() {
      forall i | 0 <= i < |slots| :: slots[i].closed
    }
  }

  const START_WATCH := Watch([], [], false, true)

  function NewSlot(item: Item): Slot {
    Slot(KindOf(item), item.id, CallOf(item), "", false)
  }

  /** Added items take the next output index and a new id; deltas and done frames name a live
      item; a done frame carries exactly what the deltas added up to, under the same call; the
      completed list is the list of done items, and nothing is left open. */
  function See(w: Watch, f: Frame): Watch {
    if w.ended then w.(ok := false) else
    match f
    case ItemAdded(i, _, item) =>
      w.(ok := w.ok && i == |w.slots| && Content(item) == "" && forall s <- w.slots :: s.itemId != item.id,
         slots := w.slots + [NewSlot(item)])
    case ReasoningDelta(id, i, delta) => w.Gather(i, Reasoning, id, delta)
    case TextDelta(id, i, delta) => w.Gather(i, Message, id, delta)
    case ArgsDelta(id, i, _, delta) => w.Gather(i, Call, id, delta)
    case ReasoningTextDone(id, i, text) => w.(ok := w.ok && w.Holds(i, Reasoning, id, text))
    case ReasoningPartDone(id, i, text) => w.(ok := w.ok && w.Holds(i, Reasoning, id, text))
    case TextDone(id, i, text) => w.(ok := w.ok && w.Holds(i, Message, id, text))
    case ArgsDone(id, i, _, args) => w.(ok := w.ok && w.Holds(i, Call, id, args))
    case ItemDone(i, item) =>
      if w.Holds(i, KindOf(item), item.id, Content(item)) && w.slots[i].call == CallOf(item)
      then w.(slots := w.slots[i := w.slots[i].(closed := true)], done := w.done + [item])
      else w.(ok := false)
    case Completed(_, output, _) => w.(ok := w.ok && w.AllClosed() && output == w.done, ended := true)
    case ReasoningPartAdded(id, i) => w.(ok := w.ok && w.Live(i, Reasoning, id))
    case Created(_) => w
    case Incomplete(_, _) => w.(ok := false)
    case Failed(_) => w.(ok := false)
    case ErrorEvent(_) => w.(ok := false)
  }

  function SeeAll(w: Watch, frames: seq<Frame>): Watch
    decreases |frames|
  {
    if frames == [] then w else SeeAll(See(w, frames[0]), frames[1..])
  }

  lemma {:induction false} SeeAllConcat(w: Watch, a: seq<Frame>, b: seq<Frame>)
    ensures SeeAll(w, a + b) == SeeAll(SeeAll(w, a), b)
    decreases |a|
  {
    if a == [] {
      assert a + b == b;
    } else {
      SeeAllConcat(See(w, a[0]), a[1..], b);
      assert (a + b)[1..] == a[1..] + b;
    }
  }

  lemma SeeOne(w: Watch, f: Frame)
    ensures SeeAll(w, [f]) == See(w, f)
  {
    assert SeeAll(See(w, f), [f][1..]) == See(w, f);
  }

  lemma SeeTwo(w: Watch, f: Frame, g: Frame)
    ensures SeeAll(w, [f, g]) == See(See(w, f), g)
  {
    assert [f, g][1..] == [g];
    SeeOne(See(w, f), g);
  }

  lemma SeeThree(w: Watch, f: Frame, g: Frame, h: Frame)
    ensures SeeAll(w, [f, g, h]) == See(See(See(w, f), g), h)
  {
    assert [f, g, h][1..] == [g, h];
    SeeTwo(See(w, f), g, h);
  }

  /** The slot of an open item, as the encoder's fields describe it. */
  ghost predicate SlotIs(w: Watch, i: int, kind: Kind, itemId: string, call: string, acc: string) {
    0 <= i < |w.slots| && itemId == ItemName(i) && w.slots[i] == Slot(kind, itemId, call, acc, false)
  }

  ghost predicate Owned(s: Enc, i: int, slot: Slot) {
    match slot.kind
    case Reasoning => s.reasonItem != "" && s.reasonIdx == i
    case Message => s.textItem != "" && s.textIdx == i
    case Call => slot.call in s.fnItems && s.fnItems[slot.call].idx == i
  }

  ghost predicate CallSlot(w: Watch, id: string, it: FnItem) {
    SlotIs(w, it.idx, Call, it.itemId, id, it.args)
  }

  /** The encoder's fields account for every slot, and nothing has been closed yet. */
  ghost predicate Accounts(s: Enc, w: Watch) {
    && w.ok && !w.ended && w.done == [] && |w.slots| == s.nextItem
    && (s.reasonItem != "" ==> SlotIs(w, s.reasonIdx, Reasoning, s.reasonItem, "", s.reasoning))
    && (s.reasonItem == "" ==> s.reasoning == "")
    && (s.textItem != "" ==> SlotIs(w, s.textIdx, Message, s.textItem, "", s.text))
    && (s.textItem == "" ==> s.text == "")
    && (forall id <- s.fnItems :: CallSlot(w, id, s.fnItems[id]))
    && (forall i | 0 <= i < |w.slots| :: w.slots[i].itemId == ItemName(i) && Owned(s, i, w.slots[i]))
  }

  /** The order lists every known call, each once. */
  ghost predicate Lists(order: seq<string>, calls: set<string>) {
    && (forall id :: id in order <==> id in calls)
    && (forall i, j | 0 <= i < j < |order| :: order[i] != order[j])
  }

  lemma AddedStep(s: Enc, w: Watch, item: Item)
    requires Accounts(s, w) && item.id == ItemName(s.nextItem) && Content(item) == ""
    ensures See(w, ItemAdded(s.nextItem, "", item)) == w.(slots := w.slots + [NewSlot(item)])
  {
    forall slot | slot in w.slots ensures slot.itemId != item.id {
      var i :| 0 <= i < |w.slots| && w.slots[i] == slot;
      ItemNames(i, s.nextItem);
    }
  }

  /** A new slot at the end leaves the others as they are. */
  lemma SlotsStay(s: Enc, w: Watch, w1: Watch, slot: Slot)
    requires Accounts(s, w) && w1 == w.(slots := w.slots + [slot])
    ensures s.reasonItem != "" ==> SlotIs(w1, s.reasonIdx, Reasoning, s.reasonItem, "", s.reasoning)
    ensures s.textItem != "" ==> SlotIs(w1, s.textIdx, Message, s.textItem, "", s.text)
    ensures forall id <- s.fnItems :: CallSlot(w1, id, s.fnItems[id])
    ensures forall i | 0 <= i < s.nextItem :: w1.slots[i].itemId == ItemName(i) && Owned(s, i, w1.slots[i])
    ensures |w1.slots| == s.nextItem + 1 && w1.slots[s.nextItem] == slot
  {
    hide ItemName, Owned;
    forall id | id in s.fnItems ensures CallSlot(w1, id, s.fnItems[id]) {
      assert CallSlot(w, id, s.fnItems[id]);
    }
  }

  lemma ReasoningOpens(s: Enc, w: Watch)
    requires Accounts(s, w)
    ensures var (s1, open) := OpenReasoning(s); Accounts(s1, SeeAll(w, open)) && s1.reasonItem != ""
  {
    if s.reasonItem == "" {
      var s1, open := OpenReasoning(s).0, OpenReasoning(s).1;
      var item := ReasoningItem(ItemName(s.nextItem), None);
      AddedStep(s, w, item);
      SeeTwo(w, open[0], open[1]);
      ItemNames(s.nextItem, s.nextItem);
      var w1 := w.(slots := w.slots + [NewSlot(item)]);
      assert SeeAll(w, open) == w1;
      SlotsStay(s, w, w1, NewSlot(item));
      assert SlotIs(w1, s.nextItem, Reasoning, s1.reasonItem, "", s.reasoning);
      hide SeeAll, ItemName, SlotIs, CallSlot;
      forall i | 0 <= i < |w1.slots| ensures w1.slots[i].itemId == ItemName(i) && Owned(s1, i, w1.slots[i]) {
      }
    }
  }

  lemma TextOpens(s: Enc, w: Watch)
    requires Accounts(s, w)
    ensures var (s1, open) := OpenText(s); Accounts(s1, SeeAll(w, open)) && s1.textItem != ""
  {
    if s.textItem == "" {
      var s1, open := OpenText(s).0, OpenText(s).1;
      var item := MessageItem(ItemName(s.nextItem), "", "in_progress");
      AddedStep(s, w, item);
      SeeOne(w, open[0]);
      ItemNames(s.nextItem, s.nextItem);
      var w1 := w.(slots := w.slots + [NewSlot(item)]);
      assert SeeAll(w, open) == w1;
      SlotsStay(s, w, w1, NewSlot(item));
      assert SlotIs(w1, s.nextItem, Message, s1.textItem, "", s.text);
      hide SeeAll, ItemName, SlotIs, CallSlot;
      forall i | 0 <= i < |w1.slots| ensures w1.slots[i].itemId == ItemName(i) && Owned(s1, i, w1.slots[i]) {
      }
    }
  }

  lemma CallAdded(s: Enc, w: Watch, id: string, name: string)
    requires Accounts(s, w) && id !in s.fnItems
    ensures var (s1, open) := OpenCall(s, id, name);
            SeeAll(w, open) == w.(slots := w.slots + [Slot(Call, ItemName(s.nextItem), id, "", false)])
  {
    var s1, open := OpenCall(s, id, name).0, OpenCall(s, id, name).1;
    AddedStep(s, w, CallItem(id, s1.fnItems[id], "in_progress"));
    SeeOne(w, open[0]);
  }

  lemma CallNew(s: Enc, w: Watch, id: string, name: string)
    requires Accounts(s, w) && id !in s.fnItems
    ensures var (s1, open) := OpenCall(s, id, name); Accounts(s1, SeeAll(w, open))
  {
    CallAdded(s, w, id, name);
    hide SeeAll, ItemName;
    var s1, w1 := OpenCall(s, id, name).0, SeeAll(w, OpenCall(s, id, name).1);
    SlotsStay(s, w, w1, Slot(Call, ItemName(s.nextItem), id, "", false));
    assert CallSlot(w1, id, s1.fnItems[id]);
    hide SlotIs, CallSlot;
    forall k | k in s1.fnItems ensures CallSlot(w1, k, s1.fnItems[k]) {
      assert k != id ==> s1.fnItems[k] == s.fnItems[k];
    }
    forall i | 0 <= i < |w1.slots| ensures w1.slots[i].itemId == ItemName(i) && Owned(s1, i, w1.slots[i]) {
      CallOwned(s, id, name, i, w1.slots[i]);
    }
    hide Owned;
  }

  lemma CallOwned(s: Enc, id: string, name: string, i: int, slot: Slot)
    requires id !in s.fnItems
    requires Owned(s, i, slot) || (i == s.nextItem && slot.kind == Call && slot.call == id)
    ensures Owned(OpenCall(s, id, name).0, i, slot)
  {
  }

  lemma CallKnown(s: Enc, w: Watch, id: string, name: string)
    requires Accounts(s, w) && id in s.fnItems
    ensures Accounts(OpenCall(s, id, name).0, w)
  {
    hide ItemName;
  }

  lemma CallOpens(s: Enc, w: Watch, id: string, name: string)
    requires Accounts(s, w)
    ensures var (s1, open) := OpenCall(s, id, name); Accounts(s1, SeeAll(w, open))
  {
    if id in s.fnItems {
      CallKnown(s, w, id, name);
    } else {
      CallNew(s, w, id, name);
    }
    hide Accounts;
  }

  lemma TrackerApart(s: Enc, w: Watch, t: Tracker)
    requires Accounts(s, w)
    ensures Accounts(s.(tools := t), w)
  {
  }

  lemma CallListed(s: Enc, id: string, name: string)
    requires Lists(s.fnOrder, s.fnItems.Keys)
    ensures var s1 := OpenCall(s, id, name).0; Lists(s1.fnOrder, s1.fnItems.Keys)
  {
    var s1 := OpenCall(s, id, name).0;
    if id in s.fnItems {
      assert s1.fnItems.Keys == s.fnItems.Keys;
    }
  }

  lemma ArgsStep(s: Enc, w: Watch, id: string, args: string)
    requires Accounts(s, w) && id in s.fnItems
    ensures var (s1, more) := AppendArgs(s, id, args); Accounts(s1, SeeAll(w, more)) && s1.fnItems.Keys == s.fnItems.Keys && s1.fnOrder == s.fnOrder
  {
    if args != "" {
      var s1, more := AppendArgs(s, id, args).0, AppendArgs(s, id, args).1;
      var it := s.fnItems[id];
      assert CallSlot(w, id, it);
      SeeOne(w, more[0]);
      var w1 := See(w, more[0]);
      assert w1 == w.(slots := w.slots[it.idx := Slot(Call, it.itemId, id, it.args + args, false)]);
      hide See, SeeAll, ItemName;
      forall k | k in s1.fnItems ensures CallSlot(w1, k, s1.fnItems[k]) {
        assert CallSlot(w, k, s.fnItems[k]);
      }
      assert Accounts(s1, w1);
    }
  }

  /** Every delta keeps the books, whatever its kind. */
  lemma ReasoningStep(s: Enc, w: Watch, text: string)
    requires Accounts(s, w) && s.Valid()
    ensures var (s1, out) := Encode(s, ContentDelta(text, true)); Accounts(s1, SeeAll(w, out))
  {
    ReasoningOpens(s, w);
    var s0, open := OpenReasoning(s).0, OpenReasoning(s).1;
    var delta := ReasoningDelta(s0.reasonItem, s0.reasonIdx, text);
    SeeAllConcat(w, open, [delta]);
    SeeOne(SeeAll(w, open), delta);
    hide SeeAll, OpenReasoning, ItemName;
  }

  lemma TextStep(s: Enc, w: Watch, text: string)
    requires Accounts(s, w) && s.Valid()
    ensures var (s1, out) := Encode(s, ContentDelta(text, false)); Accounts(s1, SeeAll(w, out))
  {
    TextOpens(s, w);
    var s0, open := OpenText(s).0, OpenText(s).1;
    var delta := TextDelta(s0.textItem, s0.textIdx, text);
    SeeAllConcat(w, open, [delta]);
    SeeOne(SeeAll(w, open), delta);
    hide SeeAll, OpenText, ItemName;
  }

  lemma ToolStep(s: Enc, w: Watch, id: string, name: string, args: string)
    requires Accounts(s, w) && Lists(s.fnOrder, s.fnItems.Keys) && s.Valid()
    ensures var (s1, out) := Encode(s, ToolCallDelta(id, name, args));
            Accounts(s1, SeeAll(w, out)) && Lists(s1.fnOrder, s1.fnItems.Keys)
  {
    var t := s.tools.Resolve(id, name);
    var s0 := s.(tools := t);
    TrackerApart(s, w, t);
    var s1, open := OpenCall(s0, t.lastId, t.lastName).0, OpenCall(s0, t.lastId, t.lastName).1;
    var more := AppendArgs(s1, t.lastId, args).1;
    assert t.lastId in s1.fnItems;
    assert Encode(s, ToolCallDelta(id, name, args)) ==
      (AppendArgs(s1, t.lastId, args).0, open + AppendArgs(s1, t.lastId, args).1);
    hide Accounts, Lists, SeeAll, Encode, OpenCall, AppendArgs;
    CallOpens(s0, w, t.lastId, t.lastName);
    CallListed(s0, t.lastId, t.lastName);
    ArgsStep(s1, SeeAll(w, open), t.lastId, args);
    SeeAllConcat(w, open, AppendArgs(s1, t.lastId, args).1);
  }

  lemma {:induction false} DeltaSteps(s: Enc, w: Watch, deltas: seq<Event>)
    requires Accounts(s, w) && Lists(s.fnOrder, s.fnItems.Keys) && s.Valid() && OnlyDeltas(deltas)
    ensures var (s1, out) := EncodeAll(s, deltas); Accounts(s1, SeeAll(w, out)) && Lists(s1.fnOrder, s1.fnItems.Keys)
    decreases |deltas|
  {
    if deltas != [] {
      match deltas[0] {
        case ContentDelta(text, true) => ReasoningStep(s, w, text);
        case ContentDelta(text, false) => TextStep(s, w, text);
        case ToolCallDelta(id, name, args) => ToolStep(s, w, id, name, args);
      }
      hide Accounts, Lists, SeeAll;
      var (s1, out) := Encode(s, deltas[0]);
      DeltaSteps(s1, SeeAll(w, out), deltas[1..]);
      SeeAllConcat(w, out, EncodeAll(s1, deltas[1..]).1);
    }
  }

  function CloseSlot(w: Watch, i: int, item: Item): Watch
    requires 0 <= i < |w.slots|
  {
    w.(slots := w.slots[i := w.slots[i].(closed := true)], done := w.done + [item])
  }

  /** Closing the listed calls one by one closes exactly their slots and lists their items. */
  lemma {:induction false} CallsClose(s: Enc, w: Watch, ids: seq<string>)
    requires w.ok && !w.ended
    requires forall id <- ids :: id in s.fnItems && CallSlot(w, id, s.fnItems[id])
    requires forall i, j | 0 <= i < j < |ids| :: ids[i] != ids[j]
    ensures var (frames, items) := CallsDone(s, ids);
            var w1 := SeeAll(w, frames);
            && w1.ok && !w1.ended && w1.done == w.done + items && |w1.slots| == |w.slots|
            && (forall i | 0 <= i < |w.slots| && w.slots[i].closed :: w1.slots[i].closed)
            && (forall id <- ids :: 0 <= s.fnItems[id].idx < |w1.slots| && w1.slots[s.fnItems[id].idx].closed)
    decreases |ids|
  {
    if ids != [] {
      var it := s.fnItems[ids[0]];
      assert ids[0] in ids;
      var item := CallItem(ids[0], it, "completed");
      var f, g := ArgsDone(it.itemId, it.idx, "", it.args), ItemDone(it.idx, item);
      var w1 := CloseSlot(w, it.idx, item);
      SeeTwo(w, f, g);
      assert SeeAll(w, [f, g]) == w1;
      var rest := ids[1..];
      forall id | id in rest
        ensures id in ids && CallSlot(w1, id, s.fnItems[id])
      {
        var k :| 0 <= k < |rest| && rest[k] == id;
        assert ids[k + 1] == id && CallSlot(w, id, s.fnItems[id]);
      }
      CallsClose(s, w1, rest);
      SeeAllConcat(w, [f, g], CallsDone(s, rest).0);
      assert (w.done + [item]) + CallsDone(s, rest).1 == w.done + ([item] + CallsDone(s, rest).1);
    } else {
      assert w.done + [] == w.done;
    }
  }

  lemma ReasoningCloses(s: Enc, w: Watch)
    requires Accounts(s, w)
    ensures var (frames, items) := ReasoningDone(s);
            SeeAll(w, frames) == if s.reasonItem == "" then w else CloseSlot(w, s.reasonIdx, items[0])
  {
    if s.reasonItem != "" {
      var f := ReasoningDone(s).0;
      SeeThree(w, f[0], f[1], f[2]);
    }
  }

  lemma TextCloses(s: Enc, w: Watch)
    requires w.ok && !w.ended
    requires s.textItem != "" ==> SlotIs(w, s.textIdx, Message, s.textItem, "", s.text)
    ensures var (frames, items) := MessageDone(s);
            SeeAll(w, frames) == if s.textItem == "" then w else CloseSlot(w, s.textIdx, items[0])
  {
    if s.textItem != "" {
      var f := MessageDone(s).0;
      SeeTwo(w, f[0], f[1]);
    }
  }

  lemma EverythingCloses(s: Enc, w: Watch)
    requires Accounts(s, w) && Lists(s.fnOrder, s.fnItems.Keys) && s.Valid()
    ensures var w1 := SeeAll(w, ReasoningDone(s).0 + MessageDone(s).0 + CallsDone(s, s.fnOrder).0);
            w1.ok && !w1.ended && w1.AllClosed() && w1.done == Output(s)
  {
    ReasoningCloses(s, w);
    var w1 := SeeAll(w, ReasoningDone(s).0);
    TextCloses(s, w1);
    var w2 := SeeAll(w1, MessageDone(s).0);
    assert w2.done == ReasoningDone(s).1 + MessageDone(s).1;
    forall id | id in s.fnOrder
      ensures CallSlot(w2, id, s.fnItems[id])
    {
      assert CallSlot(w, id, s.fnItems[id]);
    }
    CallsClose(s, w2, s.fnOrder);
    var w3 := SeeAll(w2, CallsDone(s, s.fnOrder).0);
    forall i | 0 <= i < |w3.slots| ensures w3.slots[i].closed {
      assert Owned(s, i, w.slots[i]);
      if w.slots[i].kind == Call {
        assert w.slots[i].call in s.fnOrder;
      } else {
        assert w2.slots[i].closed;
      }
    }
    SeeAllConcat(w, ReasoningDone(s).0, MessageDone(s).0);
    SeeAllConcat(w, ReasoningDone(s).0 + MessageDone(s).0, CallsDone(s, s.fnOrder).0);
  }

  lemma FinishCloses(s: Enc, w: Watch, reason: string, usage: Option<Usage>)
    requires Accounts(s, w) && Lists(s.fnOrder, s.fnItems.Keys) && s.Valid()
    ensures var w1 := SeeAll(w, Encode(s, MessageFinish(reason, usage)).1); w1.ok && w1.ended && w1.AllClosed()
  {
    EverythingCloses(s, w);
    var closing := ReasoningDone(s).0 + MessageDone(s).0 + CallsDone(s, s.fnOrder).0;
    var last := Completed(s.model, Output(s), Some(UsagePayload(usage)));
    hide SeeAll, Accounts, Lists, ReasoningDone, MessageDone, CallsDone, Output;
    SeeAllConcat(w, closing, [last]);
    SeeOne(SeeAll(w, closing), last);
  }

  /** Over every run, each added item has its own output index 0, 1, 2, ... and its own id, and
      is done exactly once with the text or arguments its deltas add up to; response.completed
      lists the done items. */
  lemma ItemDiscipline(s: Session, model: string, spare: string)
    requires OnlyDeltas(s.deltas)
    ensures var w := SeeAll(START_WATCH, EncodeAll(NewEnc(model, spare), s.Events()).1);
            w.ok && w.ended && w.AllClosed()
  {
    DeltaSteps(NewEnc(model, spare), START_WATCH, s.deltas);
    hide SeeAll, Accounts, Lists, EncodeAll, Encode;
    var e, mid := EncodeSession(s, model, spare);
    var first, last := [Created(s.model)], Encode(e, MessageFinish(s.reason, s.usage)).1;
    FinishCloses(e, SeeAll(START_WATCH, mid), s.reason, s.usage);
    SeeOne(START_WATCH, Created(s.model));
    SeeAllConcat(START_WATCH, first + mid, last);
    SeeAllConcat(START_WATCH, first, mid);
  }

  // ---------- Agreement with the non-streaming answer ----------

  function WithoutId(item: Item): Item {
    match item
    case ReasoningItem(_, summary) => ReasoningItem("", summary)
    case MessageItem(_, text, status) => MessageItem("", text, status)
    case FunctionItem(_, callId, name, args, status) => FunctionItem("", callId, name, args, status)
  }

  function WithoutIds(items: seq<Item>): seq<Item> {
    seq(|items|, i requires 0 <= i < |items| => WithoutId(items[i]))
  }

  predicate SameCall(it: FnItem, tool: Tool) {
    tool.name != "" && it.name == tool.name && it.args == tool.input
  }

  /** The encoder and the fold have gathered the same answer. */
  ghost predicate SameState(s: Enc, a: Agg) {
    && s.tools == a.track && s.text == a.text && s.reasoning == a.reasoning
    && s.fnOrder == a.order && s.fnItems.Keys == a.tools.Keys && a.Valid()
    && (forall id <- a.tools :: SameCall(s.fnItems[id], a.tools[id]))
  }

  lemma SameText(s: Enc, a: Agg, ev: Event)
    requires SameState(s, a) && s.Valid() && ev.ContentDelta?
    ensures var s1 := Encode(s, ev).0;
            && SameState(s1, Absorb(a, ev))
            && (s1.reasonItem == "" <==> s.reasonItem == "" && !ev.reasoning)
            && (s1.textItem == "" <==> s.textItem == "" && ev.reasoning)
  {
  }

  /** What a tool delta leaves in the encoder, when no known call lacks a name. */
  lemma EncodedCall(s: Enc, ev: Event)
    requires s.Valid() && ev.ToolCallDelta?
    requires forall id <- s.fnItems :: s.fnItems[id].name != ""
    ensures var t := s.tools.Resolve(ev.id, ev.name);
            var id := t.lastId;
            var s1 := Encode(s, ev).0;
            && s1 == s.(tools := t, fnItems := s1.fnItems, fnOrder := s1.fnOrder, nextItem := s1.nextItem)
            && s1.fnOrder == (if id in s.fnItems then s.fnOrder else s.fnOrder + [id])
            && s1.fnItems.Keys == s.fnItems.Keys + {id}
            && s1.fnItems[id].name == (if id in s.fnItems then s.fnItems[id].name else t.lastName)
            && s1.fnItems[id].args == (if id in s.fnItems then s.fnItems[id].args else "") + ev.args
            && (forall k <- s.fnItems | k != id :: s1.fnItems[k] == s.fnItems[k])
  {
    var t := s.tools.Resolve(ev.id, ev.name);
    if t.lastId in s.fnItems && ev.args == "" {
      assert s.fnItems[t.lastId].args + "" == s.fnItems[t.lastId].args;
    }
  }

  /** After a tool delta the calls still match one by one. */
  lemma CallsMatch(s: Enc, a: Agg, ev: Event)
    requires SameState(s, a) && s.Valid() && ev.ToolCallDelta?
    requires s.tools.lastName != "" || ev.name != ""
    ensures var s1, a1 := Encode(s, ev).0, Absorb(a, ev);
            && s1.fnItems.Keys == a1.tools.Keys && s1.fnOrder == a1.order
            && (forall k <- a1.tools :: k in s1.fnItems && SameCall(s1.fnItems[k], a1.tools[k]))
            && s1 == s.(tools := a1.track, fnItems := s1.fnItems, fnOrder := s1.fnOrder, nextItem := s1.nextItem)
  {
    hide Encode, Absorb;
    AbsorbTool(a, ev);
    forall k | k in s.fnItems ensures k in a.tools && SameCall(s.fnItems[k], a.tools[k]) {
      assert k in a.tools.Keys;
    }
    EncodedCall(s, ev);
  }

  lemma SameTool(s: Enc, a: Agg, ev: Event)
    requires SameState(s, a) && s.Valid() && ev.ToolCallDelta?
    requires s.tools.lastName != "" || ev.name != ""
    ensures var s1 := Encode(s, ev).0;
            && SameState(s1, Absorb(a, ev)) && s1.tools.lastName != ""
            && s1.reasonItem == s.reasonItem && s1.textItem == s.textItem
  {
    AbsorbTool(a, ev);
    hide Encode, Absorb, SameCall;
    AbsorbKeepsValid(a, ev);
    CallsMatch(s, a, ev);
  }

  predicate Speaks(deltas: seq<Event>) {
    exists i | 0 <= i < |deltas| :: deltas[i].ContentDelta? && !deltas[i].reasoning
  }

  predicate Reasons(deltas: seq<Event>) {
    exists i | 0 <= i < |deltas| :: deltas[i].ContentDelta? && deltas[i].reasoning
  }

  lemma SpeaksStep(deltas: seq<Event>)
    requires deltas != []
    ensures Speaks(deltas) <==> (deltas[0].ContentDelta? && !deltas[0].reasoning) || Speaks(deltas[1..])
    ensures Reasons(deltas) <==> (deltas[0].ContentDelta? && deltas[0].reasoning) || Reasons(deltas[1..])
  {
    var rest := deltas[1..];
    assert forall i | 0 <= i < |rest| :: rest[i] == deltas[i + 1];
    assert forall i | 0 < i < |deltas| :: deltas[i] == rest[i - 1];
  }

  lemma {:induction false} SameRun(s: Enc, a: Agg, deltas: seq<Event>)
    requires SameState(s, a) && s.Valid() && OnlyDeltas(deltas)
    requires s.tools.lastName != "" || FirstToolNamed(deltas)
    ensures var s1 := EncodeAll(s, deltas).0;
            && SameState(s1, AbsorbAll(a, deltas))
            && (s1.reasonItem == "" <==> s.reasonItem == "" && !Reasons(deltas))
            && (s1.textItem == "" <==> s.textItem == "" && !Speaks(deltas))
    decreases |deltas|
  {
    if deltas != [] {
      var ev := deltas[0];
      if ev.ContentDelta? {
        SameText(s, a, ev);
        assert Encode(s, ev).0.tools == s.tools;
      } else {
        SameTool(s, a, ev);
      }
      SpeaksStep(deltas);
      hide SameState, Encode, Absorb, Reasons, Speaks;
      SameRun(Encode(s, ev).0, Absorb(a, ev), deltas[1..]);
    }
  }

  lemma {:induction false} SameCalls(s: Enc, a: Agg, ids: seq<string>)
    requires SameState(s, a) && forall id <- ids :: id in a.tools
    ensures forall id <- ids :: id in s.fnItems
    ensures WithoutIds(CallsDone(s, ids).1) == WithoutIds(CallItems(a, ids))
    decreases |ids|
  {
    forall id | id in ids ensures id in s.fnItems {
      assert id in a.tools.Keys;
    }
    if ids != [] {
      SameCalls(s, a, ids[1..]);
      var x, y := CallsDone(s, ids).1, CallItems(a, ids);
      assert x == [x[0]] + CallsDone(s, ids[1..]).1 && y == [y[0]] + CallItems(a, ids[1..]);
      assert WithoutId(x[0]) == WithoutId(y[0]);
      hide CallsDone, CallItems, SameState, WithoutIds, WithoutId;
      WithoutIdsCons(x[0], CallsDone(s, ids[1..]).1);
      WithoutIdsCons(y[0], CallItems(a, ids[1..]));
    }
  }

  lemma WithoutIdsCons(x: Item, xs: seq<Item>)
    ensures WithoutIds([x] + xs) == [WithoutId(x)] + WithoutIds(xs)
  {
    hide WithoutId;
  }

  lemma WithoutIdsConcat(x: seq<Item>, y: seq<Item>)
    ensures WithoutIds(x + y) == WithoutIds(x) + WithoutIds(y)
  {
  }

  /** The items before the calls: at most one reasoning and at most one message item. */
  lemma HeadsAgree(s: Enc, a: Agg, calls: seq<Item>, calls2: seq<Item>)
    requires SameState(s, a) && WithoutIds(calls) == WithoutIds(calls2)
    requires s.textItem == "" ==> s.text == ""
    requires s.reasonItem == "" ==> s.reasoning == ""
    ensures var reasonAlone := a.text == "" && a.reasoning != "" && |a.tools| == 0;
            var head := ReasoningDone(s).1 + MessageDone(s).1;
            var head2 := (if reasonAlone then [ReasoningItem("item_rs0", Some(a.reasoning))] else [])
                       + (if a.text != "" then [MessageItem("item_0", a.text, "completed")] else []);
            WithoutIds(head + calls) == WithoutIds(head2 + calls2) <==>
              (s.reasonItem != "" <==> reasonAlone) && (s.textItem != "" <==> a.text != "")
  {
    var reasonAlone := a.text == "" && a.reasoning != "" && |a.tools| == 0;
    var head := ReasoningDone(s).1 + MessageDone(s).1;
    var head2 := (if reasonAlone then [ReasoningItem("item_rs0", Some(a.reasoning))] else [])
               + (if a.text != "" then [MessageItem("item_0", a.text, "completed")] else []);
    assert |calls| == |WithoutIds(calls)| == |WithoutIds(calls2)| == |calls2|;
    var x, y := WithoutIds(head + calls), WithoutIds(head2 + calls2);
    WithoutIdsConcat(head, calls);
    WithoutIdsConcat(head2, calls2);
    if (s.reasonItem != "" <==> reasonAlone) && (s.textItem != "" <==> a.text != "") {
      assert WithoutIds(head) == WithoutIds(head2);
    }
  }

  lemma OutputsAgree(s: Enc, a: Agg)
    requires SameState(s, a) && s.Valid()
    requires s.textItem == "" ==> s.text == ""
    requires s.reasonItem == "" ==> s.reasoning == ""
    ensures WithoutIds(Output(s)) == WithoutIds(ResultOutput(a)) <==>
      (s.reasonItem != "" <==> a.text == "" && a.reasoning != "" && |a.tools| == 0) && (s.textItem != "" <==> a.text != "")
  {
    SameCalls(s, a, a.order);
    HeadsAgree(s, a, CallsDone(s, s.fnOrder).1, CallItems(a, a.order));
    hide CallsDone, CallItems, ReasoningDone, MessageDone, WithoutIds;
  }

  /** Some delta carries text of this kind. */
  predicate Says(deltas: seq<Event>, reasoning: bool) {
    exists i | 0 <= i < |deltas| :: deltas[i].ContentDelta? && deltas[i].reasoning == reasoning && deltas[i].text != ""
  }

  predicate Calls(deltas: seq<Event>) {
    exists i | 0 <= i < |deltas| :: deltas[i].ToolCallDelta?
  }

  lemma SaysStep(deltas: seq<Event>, reasoning: bool)
    requires deltas != []
    ensures Says(deltas, reasoning) <==>
              (deltas[0].ContentDelta? && deltas[0].reasoning == reasoning && deltas[0].text != "") || Says(deltas[1..], reasoning)
    ensures Calls(deltas) <==> deltas[0].ToolCallDelta? || Calls(deltas[1..])
  {
    var rest := deltas[1..];
    assert forall i | 0 <= i < |rest| :: rest[i] == deltas[i + 1];
    assert forall i | 0 < i < |deltas| :: deltas[i] == rest[i - 1];
  }

  /** What a fold has gathered, as far as it is empty or not. */
  lemma {:induction false} Gathered(a: Agg, deltas: seq<Event>)
    requires OnlyDeltas(deltas) && a.Valid()
    ensures var a1 := AbsorbAll(a, deltas);
            && (a1.text != "" <==> a.text != "" || Says(deltas, false))
            && (a1.reasoning != "" <==> a.reasoning != "" || Says(deltas, true))
            && (a1.order != [] <==> a.order != [] || Calls(deltas))
    decreases |deltas|
  {
    if deltas != [] {
      SaysStep(deltas, true);
      SaysStep(deltas, false);
      hide Says, Calls;
      AbsorbKeepsValid(a, deltas[0]);
      FirstGathered(a, deltas[0]);
      hide Absorb;
      Gathered(Absorb(a, deltas[0]), deltas[1..]);
    }
  }

  lemma FirstGathered(a: Agg, ev: Event)
    requires a.Valid() && IsDelta(ev)
    ensures Absorb(a, ev).text != "" <==> a.text != "" || (ev.ContentDelta? && !ev.reasoning && ev.text != "")
    ensures Absorb(a, ev).reasoning != "" <==> a.reasoning != "" || (ev.ContentDelta? && ev.reasoning && ev.text != "")
    ensures Absorb(a, ev).order != [] <==> a.order != [] || ev.ToolCallDelta?
  {
    if ev.ToolCallDelta? {
      AbsorbKeepsValid(a, ev);
      var t := a.track.Resolve(ev.id, ev.name);
      assert t.lastId in Absorb(a, ev).tools;
    }
  }

  /** No content delta is empty unless another one is not, and reasoning comes only where some of it
      has text and there is neither text nor a call. */
  predicate Agreeing(deltas: seq<Event>) {
    && (Speaks(deltas) ==> Says(deltas, false))
    && (Reasons(deltas) <==> Says(deltas, true) && !Says(deltas, false) && !Calls(deltas))
  }

  /** For every legal run: response.completed lists the same output as the non-streaming answer,
      item ids apart, exactly if its deltas are agreeing. */
  lemma StreamingAgrees(s: Session, model: string, spare: string)
    requires s.Legal()
    ensures var e := EncodeAll(NewEnc(model, spare), s.Events()).0;
            var a := AbsorbAll(NewAgg(model, spare), s.Events());
            a.Valid() && (WithoutIds(Output(e)) == WithoutIds(ResultOutput(a)) <==> Agreeing(s.deltas))
  {
    EndStates(s, model, spare);
    var e, a := EncodeAll(NewEnc(model, spare), s.Events()).0, AbsorbAll(NewAgg(model, spare), s.Events());
    EndGathered(s, model, spare);
    SaysSpeaks(s.deltas);
    hide EncodeAll, AbsorbAll, Output, ResultOutput, WithoutIds, Speaks, Reasons, Says, Calls;
    OutputsAgree(e, a);
    NoCalls(a);
  }

  lemma EndGathered(s: Session, model: string, spare: string)
    requires OnlyDeltas(s.deltas)
    ensures var a := AbsorbAll(NewAgg(model, spare), s.Events());
            && (a.text != "" <==> Says(s.deltas, false)) && (a.reasoning != "" <==> Says(s.deltas, true))
            && (a.order != [] <==> Calls(s.deltas))
  {
    var a0 := NewAgg(model, spare).(model := s.model);
    Gathered(a0, s.deltas);
    hide Says, Calls;
    AbsorbSession(NewAgg(model, spare), s);
  }

  lemma SaysSpeaks(deltas: seq<Event>)
    ensures Says(deltas, false) ==> Speaks(deltas)
  {
  }

  lemma FinishApart(s: Enc, a: Agg, reason: string, usage: Option<Usage>)
    requires SameState(s, a)
    ensures SameState(s, Absorb(a, MessageFinish(reason, usage)))
  {
  }

  /** Where encoder and fold stand at the end of a legal run. */
  lemma EndStates(s: Session, model: string, spare: string)
    requires s.Legal()
    ensures var e := EncodeAll(NewEnc(model, spare), s.Events()).0;
            && SameState(e, AbsorbAll(NewAgg(model, spare), s.Events()))
            && (e.reasonItem == "" <==> !Reasons(s.deltas)) && (e.textItem == "" <==> !Speaks(s.deltas))
            && (e.textItem == "" ==> e.text == "") && (e.reasonItem == "" ==> e.reasoning == "")
  {
    var e0, a0 := NewEnc(model, spare), NewAgg(model, spare).(model := s.model);
    SameRun(e0, a0, s.deltas);
    DeltaSteps(e0, START_WATCH, s.deltas);
    EncodeEnd(s, model, spare);
    AbsorbSession(NewAgg(model, spare), s);
    FinishApart(EncodeAll(e0, s.deltas).0, AbsorbAll(a0, s.deltas), s.reason, s.usage);
    hide *;
  }

  lemma EncodeEnd(s: Session, model: string, spare: string)
    ensures EncodeAll(NewEnc(model, spare), s.Events()).0 == EncodeAll(NewEnc(model, spare), s.deltas).0
  {
    var e0, start, fin := NewEnc(model, spare), [MessageStart(s.model)], [MessageFinish(s.reason, s.usage)];
    EncodeAllConcat(e0, start + s.deltas, fin);
    EncodeAllConcat(e0, start, s.deltas);
  }

  lemma NoCalls(a: Agg)
    requires a.Valid()
    ensures |a.tools| == 0 <==> a.order == []
  {
    if a.order != [] {
      assert a.order[0] in a.tools;
    } else {
      assert a.tools.Keys == {};
    }
  }

  /** In particular the two agree on every legal run without reasoning and without empty text. */
  lemma StreamingAgreesOnPlainRuns(s: Session, model: string, spare: string)
    requires s.Legal() && !Reasons(s.deltas)
    requires forall i | 0 <= i < |s.deltas| && s.deltas[i].ContentDelta? :: s.deltas[i].text != ""
    ensures var e := EncodeAll(NewEnc(model, spare), s.Events()).0;
            var a := AbsorbAll(NewAgg(model, spare), s.Events());
            a.Valid() && WithoutIds(Output(e)) == WithoutIds(ResultOutput(a))
  {
    StreamingAgrees(s, model, spare);
  }

  const THOUGHT_THEN_TEXT := Session("m", [ContentDelta("hm", true), ContentDelta("Hi", false)], "stop", None)

  /** Reasoning followed by text: the streaming output lists it, the non-streaming one does not. */
  lemma OutputsDiffer(model: string, spare: string)
    ensures THOUGHT_THEN_TEXT.Legal()
    ensures var e := EncodeAll(NewEnc(model, spare), THOUGHT_THEN_TEXT.Events()).0;
            var a := AbsorbAll(NewAgg(model, spare), THOUGHT_THEN_TEXT.Events());
            a.Valid() && WithoutIds(Output(e)) != WithoutIds(ResultOutput(a))
  {
    var deltas := THOUGHT_THEN_TEXT.deltas;
    assert deltas[0] == ContentDelta("hm", true) && deltas[1] == ContentDelta("Hi", false);
    assert Reasons(deltas) && Says(deltas, false);
    StreamingAgrees(THOUGHT_THEN_TEXT, model, spare);
    hide EncodeAll, AbsorbAll, Output, ResultOutput, WithoutIds;
  }

  // ---------- The last frame ----------

  /** The answer of a run as a list of items. */
  function AnswerItems(a: Agg, reasons: bool, speaks: bool): seq<Item>
    requires a.Valid()
  {
    (if reasons then [ReasoningItem("", Some(a.reasoning))] else [])
    + (if speaks then [MessageItem("", a.text, "completed")] else [])
    + WithoutIds(CallItems(a, a.order))
  }

  lemma HeadItems(s: Enc)
    ensures WithoutIds(ReasoningDone(s).1) == if s.reasonItem != "" then [ReasoningItem("", Some(s.reasoning))] else []
    ensures WithoutIds(MessageDone(s).1) == if s.textItem != "" then [MessageItem("", s.text, "completed")] else []
  {
  }

  lemma ListsAnswer(s: Enc, a: Agg)
    requires SameState(s, a) && s.Valid()
    ensures WithoutIds(Output(s)) == AnswerItems(a, s.reasonItem != "", s.textItem != "")
  {
    hide WithoutIds, CallsDone, CallItems, ReasoningDone, MessageDone;
    SameCalls(s, a, a.order);
    HeadItems(s);
    WithoutIdsConcat(ReasoningDone(s).1, MessageDone(s).1);
    WithoutIdsConcat(ReasoningDone(s).1 + MessageDone(s).1, CallsDone(s, s.fnOrder).1);
  }

  predicate Counts(w: WireUsage, u: Usage) {
    w.input == u.input && w.output == u.output && w.total == u.input + u.output && w.cached == u.cached && w.write == u.write
  }

  /** For every legal run the stream begins with the model of the run and ends with its whole answer: all
      reasoning and all text that came, every call with its full arguments, and the counts. */
  lemma CompletedSays(s: Session, model: string, spare: string)
    requires s.Legal()
    ensures var frames := EncodeAll(NewEnc(model, spare), s.Events()).1;
            var a := AbsorbAll(NewAgg(model, spare), s.Events());
            && |frames| >= 2 && frames[0] == Created(s.model)
            && var last := frames[|frames| - 1];
            && last.Completed? && last.model == model && a.Valid()
            && WithoutIds(last.output) == AnswerItems(a, Reasons(s.deltas), Speaks(s.deltas))
            && last.usage.Some? && Counts(last.usage.value, if s.usage.Some? then s.usage.value else NO_USAGE)
  {
    hide SameState, ReasoningDone, MessageDone, CallsDone, Output, AbsorbAll, EncodeAll, WithoutIds, AnswerItems, Reasons, Speaks;
    EndStates(s, model, spare);
    var e, mid := EncodeSession(s, model, spare);
    EncodeEnd(s, model, spare);
    StateValid(e, AbsorbAll(NewAgg(model, spare), s.Events()));
    ListsAnswer(e, AbsorbAll(NewAgg(model, spare), s.Events()));
    ModelKept(NewEnc(model, spare), s.deltas);
    var closing := ReasoningDone(e).0 + MessageDone(e).0 + CallsDone(e, e.fnOrder).0;
    var last := Completed(e.model, Output(e), Some(UsagePayload(s.usage)));
    assert EncodeAll(NewEnc(model, spare), s.Events()).1 == ([Created(s.model)] + mid) + (closing + [last]);
  }

  lemma StateValid(s: Enc, a: Agg)
    requires SameState(s, a)
    ensures a.Valid()
  {
  }

  lemma {:induction false} ModelKept(s: Enc, evs: seq<Event>)
    requires s.Valid()
    ensures EncodeAll(s, evs).0.model == s.model
    decreases |evs|
  {
    if evs != [] {
      ModelKept(Encode(s, evs[0]).0, evs[1..]);
    }
  }

  /** Items are in progress when they are added and completed when they are done. */
  predicate Stamped(f: Frame) {
    match f
    case ItemAdded(_, _, item) => Status(item, "in_progress")
    case ItemDone(_, item) => Status(item, "completed")
    case Completed(_, output, _) => forall item <- output :: Status(item, "completed")
    case _ => true
  }

  predicate Status(item: Item, status: string) {
    !item.ReasoningItem? ==> item.status == status
  }

  lemma {:induction false} CallsStamped(s: Enc, ids: seq<string>)
    requires forall id <- ids :: id in s.fnItems
    ensures var (frames, items) := CallsDone(s, ids);
            (forall f <- frames :: Stamped(f)) && forall item <- items :: Status(item, "completed")
    decreases |ids|
  {
    if ids != [] {
      CallsStamped(s, ids[1..]);
    }
  }

  lemma FinishStamped(s: Enc, reason: string, usage: Option<Usage>)
    requires s.Valid()
    ensures forall f <- Encode(s, MessageFinish(reason, usage)).1 :: Stamped(f)
  {
    hide CallsDone, UsagePayload;
    CallsStamped(s, s.fnOrder);
  }

  lemma StepStamped(s: Enc, ev: Event)
    requires s.Valid()
    ensures forall f <- Encode(s, ev).1 :: Stamped(f)
  {
    if ev.MessageFinish? {
      FinishStamped(s, ev.reason, ev.usage);
      hide Stamped;
    } else {
      hide CallsDone, ReasoningDone, MessageDone, UsagePayload;
    }
  }

  lemma {:induction false} EveryItemStamped(s: Enc, evs: seq<Event>)
    requires s.Valid()
    ensures forall f <- EncodeAll(s, evs).1 :: Stamped(f)
    decreases |evs|
  {
    hide Encode, Stamped;
    if evs != [] {
      StepStamped(s, evs[0]);
      EveryItemStamped(Encode(s, evs[0]).0, evs[1..]);
    }
  }

  // ---------- Late names ----------

  /** The first name in force at a delta of a call. */
  function NameFor(t: Tracker, deltas: seq<Event>, id: string): string
    decreases |deltas|
  {
    if deltas == [] then ""
    else if !deltas[0].ToolCallDelta? then NameFor(t, deltas[1..], id)
    else
      var t1 := t.Resolve(deltas[0].id, deltas[0].name);
      if t1.lastId == id && t1.lastName != "" then t1.lastName else NameFor(t1, deltas[1..], id)
  }

  function NameNow(s: Enc, id: string): string {
    if id in s.fnItems then s.fnItems[id].name else ""
  }

  lemma NameStep(s: Enc, ev: Event, id: string)
    requires s.Valid() && IsDelta(ev)
    ensures var s1 := Encode(s, ev).0;
            var here := NameFor(s.tools, [ev], id);
            && NameNow(s1, id) == (if NameNow(s, id) != "" then NameNow(s, id) else here)
            && s1.tools == if ev.ToolCallDelta? then s.tools.Resolve(ev.id, ev.name) else s.tools
  {
    assert [ev][1..] == [];
    assert forall t: Tracker :: NameFor(t, [], id) == "";
  }

  lemma NameForFirst(t: Tracker, deltas: seq<Event>, id: string)
    requires deltas != []
    ensures var t1 := if deltas[0].ToolCallDelta? then t.Resolve(deltas[0].id, deltas[0].name) else t;
            var here := NameFor(t, [deltas[0]], id);
            NameFor(t, deltas, id) == if here != "" then here else NameFor(t1, deltas[1..], id)
  {
    assert [deltas[0]][1..] == [];
    assert forall t: Tracker :: NameFor(t, [], id) == "";
  }

  /** Over any deltas every call ends up with the first name in force at one of its deltas, also if its
      first delta came without. */
  lemma {:induction false} NamesFilled(s: Enc, deltas: seq<Event>, id: string)
    requires s.Valid() && OnlyDeltas(deltas)
    ensures NameNow(EncodeAll(s, deltas).0, id) == if NameNow(s, id) != "" then NameNow(s, id) else NameFor(s.tools, deltas, id)
    decreases |deltas|
  {
    hide Encode, NameNow, NameFor;
    if deltas == [] {
      NoName(s.tools, id);
    } else {
      assert IsDelta(deltas[0]);
      NameStep(s, deltas[0], id);
      NameForFirst(s.tools, deltas, id);
      NamesFilled(Encode(s, deltas[0]).0, deltas[1..], id);
    }
  }

  lemma NoName(t: Tracker, id: string)
    ensures NameFor(t, [], id) == ""
  {
  }
}
