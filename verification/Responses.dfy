/** The OpenAI Responses stream: gateway encoder, non-streaming answer, and upstream parser. */
module Responses {
  import opened Text
  import opened Envelope
  import opened Aggregate

  // ---------- Wire format ----------

  datatype Item =
    | MessageItem(id: string, text: string, status: string)
    | ReasoningItem(id: string, summary: Option<string>)
    | FunctionItem(id: string, callId: string, name: string, args: string, status: string)

  /** details is absent when neither cached nor written tokens are positive. */
  datatype WireUsage = WireUsage(input: int, output: int, total: int, cached: int, write: int)

  datatype Frame =
    | Created(model: string)
    | ItemAdded(index: int, itemId: string, item: Item)
    | ReasoningPartAdded(itemId: string, index: int)
    | ReasoningDelta(itemId: string, index: int, delta: string)
    | ReasoningTextDone(itemId: string, index: int, text: string)
    | ReasoningPartDone(itemId: string, index: int, text: string)
    | TextDelta(itemId: string, index: int, delta: string)
    | TextDone(itemId: string, index: int, text: string)
    | ArgsDelta(itemId: string, index: int, callId: string, delta: string)
    | ArgsDone(itemId: string, index: int, callId: string, args: string)
    | ItemDone(index: int, item: Item)
    | Completed(model: string, output: seq<Item>, usage: Option<WireUsage>)
    | Incomplete(reason: string, usage: Option<WireUsage>)
    | Failed(message: string)
    | ErrorEvent(message: string)

  /** Go's "item_%d". */
  function ItemName(n: nat): string {
    "item_" + Decimal(n)
  }

  lemma ItemNames(m: nat, n: nat)
    ensures ItemName(m) == ItemName(n) <==> m == n
    ensures !Blank(ItemName(m))
  {
    assert ItemName(m)[5..] == Decimal(m) && ItemName(n)[5..] == Decimal(n);
    if ItemName(m) == ItemName(n) {
      DecimalInjective(m, n);
    }
    assert ItemName(m)[0] == 'i';
  }

  // ---------- Envelope to frames (gateway/responses.go) ----------

  datatype FnItem = FnItem(itemId: string, name: string, idx: int, args: string)

  datatype Enc = Enc(model: string, nextItem: nat,
                     reasonItem: string, reasonIdx: int, reasoning: string,
                     textItem: string, textIdx: int, text: string,
                     fnItems: map<string, FnItem>, fnOrder: seq<string>, tools: Tracker)
  {
    ghost predicate Valid() {
      forall id <- fnOrder :: id in fnItems
    }
  }

  function NewEnc(model: string, spare: string): Enc {
    Enc(model, 0, "", -1, "", "", -1, "", map[], [], NewTracker(spare))
  }

  function UsagePayload(usage: Option<Usage>): WireUsage {
    var u := if usage.Some? then usage.value else NO_USAGE;
    if u.cached > 0 || u.write > 0
    then WireUsage(u.input, u.output, u.input + u.output, u.cached, if u.write > 0 then u.write else 0)
    else WireUsage(u.input, u.output, u.input + u.output, 0, 0)
  }

  function OpenReasoning(s: Enc): (Enc, seq<Frame>) {
    if s.reasonItem != "" then (s, [])
    else
      var id := ItemName(s.nextItem);
      (s.(reasonItem := id, reasonIdx := s.nextItem, nextItem := s.nextItem + 1),
       [ItemAdded(s.nextItem, "", ReasoningItem(id, None)), ReasoningPartAdded(id, s.nextItem)])
  }

  function OpenText(s: Enc): (Enc, seq<Frame>) {
    if s.textItem != "" then (s, [])
    else
      var id := ItemName(s.nextItem);
      (s.(textItem := id, textIdx := s.nextItem, nextItem := s.nextItem + 1),
       [ItemAdded(s.nextItem, "", MessageItem(id, "", "in_progress"))])
  }

  function CallItem(id: string, it: FnItem, status: string): Item {
    FunctionItem(it.itemId, id, it.name, it.args, status)
  }

  /** Opens the call's item on its first delta; a name that comes late is filled in. */
  function OpenCall(s: Enc, id: string, name: string): (Enc, seq<Frame>) {
    if id in s.fnItems then
      var it := s.fnItems[id];
      (if it.name == "" && name != "" then s.(fnItems := s.fnItems[id := it.(name := name)]) else s, [])
    else
      var it := FnItem(ItemName(s.nextItem), name, s.nextItem, "");
      (s.(fnItems := s.fnItems[id := it], fnOrder := s.fnOrder + [id], nextItem := s.nextItem + 1),
       [ItemAdded(it.idx, "", CallItem(id, it, "in_progress"))])
  }

  function AppendArgs(s: Enc, id: string, args: string): (Enc, seq<Frame>)
    requires id in s.fnItems
  {
    var it := s.fnItems[id];
    if args == "" then (s, [])
    else (s.(fnItems := s.fnItems[id := it.(args := it.args + args)]), [ArgsDelta(it.itemId, it.idx, "", args)])
  }

  function ReasoningDone(s: Enc): (seq<Frame>, seq<Item>) {
    if s.reasonItem == "" then ([], [])
    else
      var item := ReasoningItem(s.reasonItem, Some(s.reasoning));
      ([ReasoningTextDone(s.reasonItem, s.reasonIdx, s.reasoning),
        ReasoningPartDone(s.reasonItem, s.reasonIdx, s.reasoning),
        ItemDone(s.reasonIdx, item)], [item])
  }

  function MessageDone(s: Enc): (seq<Frame>, seq<Item>) {
    if s.textItem == "" then ([], [])
    else
      var item := MessageItem(s.textItem, s.text, "completed");
      ([TextDone(s.textItem, s.textIdx, s.text), ItemDone(s.textIdx, item)], [item])
  }

  function CallsDone(s: Enc, ids: seq<string>): (seq<Frame>, seq<Item>)
    requires forall id <- ids :: id in s.fnItems
  {
    if ids == [] then ([], [])
    else
      var it := s.fnItems[ids[0]];
      var item := CallItem(ids[0], it, "completed");
      var (frames, items) := CallsDone(s, ids[1..]);
      ([ArgsDone(it.itemId, it.idx, "", it.args), ItemDone(it.idx, item)] + frames, [item] + items)
  }

  /** The output list of response.completed. */
  function Output(s: Enc): seq<Item>
    requires s.Valid()
  {
    ReasoningDone(s).1 + MessageDone(s).1 + CallsDone(s, s.fnOrder).1
  }

  function Encode(s: Enc, ev: Event): (r: (Enc, seq<Frame>))
    requires s.Valid()
    ensures r.0.Valid()
  {
    match ev
    case MessageStart(model) => (s, [Created(model)])
    case ContentDelta(text, true) =>
      var (s1, open) := OpenReasoning(s);
      (s1.(reasoning := s1.reasoning + text), open + [ReasoningDelta(s1.reasonItem, s1.reasonIdx, text)])
    case ContentDelta(text, false) =>
      var (s1, open) := OpenText(s);
      (s1.(text := s1.text + text), open + [TextDelta(s1.textItem, s1.textIdx, text)])
    case ToolCallDelta(id, name, args) =>
      var t := s.tools.Resolve(id, name);
      var (s1, open) := OpenCall(s.(tools := t), t.lastId, t.lastName);
      var (s2, more) := AppendArgs(s1, t.lastId, args);
      (s2, open + more)
    case MessageFinish(_, usage) =>
      (s, ReasoningDone(s).0 + MessageDone(s).0 + CallsDone(s, s.fnOrder).0
          + [Completed(s.model, Output(s), Some(UsagePayload(usage)))])
    case TaskFailed(_, _) => (s, [])
  }

  function EncodeAll(s: Enc, evs: seq<Event>): (r: (Enc, seq<Frame>))
    requires s.Valid()
    ensures r.0.Valid()
    decreases |evs|
  {
    if evs == [] then (s, [])
    else
      var (s1, f1) := Encode(s, evs[0]);
      var (s2, f2) := EncodeAll(s1, evs[1..]);
      (s2, f1 + f2)
  }

  lemma NextDone(s: Enc, i: nat)
    requires s.Valid() && i < |s.fnOrder|
    ensures var id := s.fnOrder[i];
            var it := s.fnItems[id];
            var item := CallItem(id, it, "completed");
            var rest := CallsDone(s, s.fnOrder[i + 1..]);
            && CallsDone(s, s.fnOrder[i..]).0 == [ArgsDone(it.itemId, it.idx, "", it.args), ItemDone(it.idx, item)] + rest.0
            && CallsDone(s, s.fnOrder[i..]).1 == [item] + rest.1
  {
    assert s.fnOrder[i..][1..] == s.fnOrder[i + 1..];
  }

  class SSEState {
    var model: string
    var nextItem: nat
    var reasonItem: string
    var reasonIdx: int
    var reasoning: string
    var textItem: string
    var textIdx: int
    var text: string
    var fnItems: map<string, FnItem>
    var fnOrder: seq<string>
    const tools: ToolCallTracker

    ghost function State(): Enc
      reads this, tools
    {
      Enc(model, nextItem, reasonItem, reasonIdx, reasoning, textItem, textIdx, text, fnItems, fnOrder, tools.State())
    }

    constructor (model: string, spare: string)
      ensures State() == NewEnc(model, spare) && State().Valid() && fresh(tools)
    {
      this.model := model;
      nextItem := 0;
      reasonItem, reasonIdx, reasoning := "", -1, "";
      textItem, textIdx, text := "", -1, "";
      fnItems, fnOrder := map[], [];
      tools := new ToolCallTracker(spare);
    }

    method AddFn(id: string, name: string) returns (needStart: bool)
      requires State().Valid()
      modifies this
      ensures State() == OpenCall(old(State()), id, name).0 && State().Valid()
      ensures id in fnItems && (needStart <==> id !in old(fnItems))
    {
      if id in fnItems {
        if fnItems[id].name == "" && name != "" {
          fnItems := fnItems[id := fnItems[id].(name := name)];
        }
        return false;
      }
      fnItems := fnItems[id := FnItem(ItemName(nextItem), name, nextItem, "")];
      nextItem := nextItem + 1;
      fnOrder := fnOrder + [id];
      needStart := true;
    }

    method CallDelta(eventId: string, eventName: string, args: string) returns (out: seq<Frame>)
      requires State().Valid()
      modifies this, tools
      ensures (State(), out) == Encode(old(State()), ToolCallDelta(eventId, eventName, args)) && State().Valid()
    {
      ghost var before := State();
      var id, name := tools.Resolve(eventId, eventName);
      var needStart := AddFn(id, name);
      out := [];
      if needStart {
        out := [ItemAdded(fnItems[id].idx, "", CallItem(id, fnItems[id], "in_progress"))];
      }
      if args != "" {
        var it := fnItems[id];
        fnItems := fnItems[id := it.(args := it.args + args)];
        out := out + [ArgsDelta(it.itemId, it.idx, "", args)];
      }
      assert out == Encode(before, ToolCallDelta(eventId, eventName, args)).1;
    }

    /** Every output item is closed by its own done frame before response.completed. */
    method Close(usage: Option<Usage>) returns (out: seq<Frame>)
      requires State().Valid()
      ensures out == Encode(State(), MessageFinish("", usage)).1
    {
      out := [];
      var output: seq<Item> := [];
      if reasonItem != "" {
        var item := ReasoningItem(reasonItem, Some(reasoning));
        out := [ReasoningTextDone(reasonItem, reasonIdx, reasoning), ReasoningPartDone(reasonItem, reasonIdx, reasoning)];
        out := out + [ItemDone(reasonIdx, item)];
        output := [item];
      }
      if textItem != "" {
        out := out + [TextDone(textItem, textIdx, text)];
        var item := MessageItem(textItem, text, "completed");
        out := out + [ItemDone(textIdx, item)];
        output := output + [item];
      }
      var heads, headItems := out, output;
      assert heads == ReasoningDone(State()).0 + MessageDone(State()).0;
      assert headItems == ReasoningDone(State()).1 + MessageDone(State()).1;
      ghost var s := State();
      hide ReasoningDone, MessageDone;
      assert fnOrder[0..] == fnOrder;
      var done: seq<Frame> := [];
      var items: seq<Item> := [];
      Regroup(done, done, CallsDone(s, fnOrder).0);
      Regroup(items, items, CallsDone(s, fnOrder).1);
      for i := 0 to |fnOrder|
        invariant State() == s && heads == ReasoningDone(s).0 + MessageDone(s).0
        invariant CallsDone(s, fnOrder).0 == done + CallsDone(s, fnOrder[i..]).0
        invariant CallsDone(s, fnOrder).1 == items + CallsDone(s, fnOrder[i..]).1
      {
        hide CallsDone;
        var id := fnOrder[i];
        var it := fnItems[id];
        var item := CallItem(id, it, "completed");
        NextDone(s, i);
        Regroup(done, [ArgsDone(it.itemId, it.idx, "", it.args), ItemDone(it.idx, item)], CallsDone(s, fnOrder[i + 1..]).0);
        Regroup(items, [item], CallsDone(s, fnOrder[i + 1..]).1);
        done := done + [ArgsDone(it.itemId, it.idx, "", it.args), ItemDone(it.idx, item)];
        items := items + [item];
      }
      assert fnOrder[|fnOrder|..] == [];
      Regroup(done, [], []);
      Regroup(items, [], []);
      out := heads + done + [Completed(model, headItems + items, Some(UsagePayload(usage)))];
    }

    method ConvertEvent(ev: Event) returns (out: seq<Frame>)
      requires State().Valid()
      modifies this, tools
      ensures (State(), out) == Encode(old(State()), ev) && State().Valid()
    {
      ghost var before := State();
      match ev
      case MessageStart(m) =>
        out := [Created(m)];
      case ContentDelta(delta, isReasoning) =>
        out := [];
        if isReasoning {
          if reasonItem == "" {
            reasonItem := ItemName(nextItem);
            reasonIdx := nextItem;
            nextItem := nextItem + 1;
            out := [ItemAdded(reasonIdx, "", ReasoningItem(reasonItem, None)), ReasoningPartAdded(reasonItem, reasonIdx)];
          }
          reasoning := reasoning + delta;
          out := out + [ReasoningDelta(reasonItem, reasonIdx, delta)];
          assert out == Encode(before, ev).1;
          return;
        }
        if textItem == "" {
          textItem := ItemName(nextItem);
          textIdx := nextItem;
          nextItem := nextItem + 1;
          out := [ItemAdded(textIdx, "", MessageItem(textItem, "", "in_progress"))];
        }
        text := text + delta;
        out := out + [TextDelta(textItem, textIdx, delta)];
        assert out == Encode(before, ev).1;
      case ToolCallDelta(id, name, args) =>
        out := CallDelta(id, name, args);
      case MessageFinish(_, usage) =>
        out := Close(usage);
      case TaskFailed(_, _) =>
        out := [];
    }
  }

  // ---------- The non-streaming answer (responsesAggregate.result) ----------

  function CallItems(a: Agg, ids: seq<string>): seq<Item>
    requires forall id <- ids :: id in a.tools
  {
    if ids == [] then []
    else
      var t := a.tools[ids[0]];
      [FunctionItem("item_" + ids[0], t.id, t.name, t.input, "completed")] + CallItems(a, ids[1..])
  }

  function ResultOutput(a: Agg): seq<Item>
    requires forall id <- a.order :: id in a.tools
  {
    (if a.text == "" && a.reasoning != "" && |a.tools| == 0
     then [ReasoningItem("item_rs0", Some(a.reasoning))] else [])
    + (if a.text != "" then [MessageItem("item_0", a.text, "completed")] else [])
    + CallItems(a, a.order)
  }

  // ---------- Frames to envelope (sdk/responsesup) ----------

  datatype Par = Par(sentStart: bool, sentFinish: bool, pendingStop: string, usage: Option<Usage>,
                     toolIDs: map<int, string>, toolNames: map<int, string>,
                     argSeen: set<string>, callIDOf: map<string, string>, sawTool: bool)

  const FAILED_TEXT := "上游返回失败事件"
  const ERROR_TEXT := "上游返回错误事件"
  const NEW_PARSER := Par(false, false, "", None, map[], map[], {}, map[], false)

  function Lookup<K(==)>(m: map<K, string>, k: K): string {
    if k in m then m[k] else ""
  }

  function CallIdOf(item: Item, index: int): string
    requires item.FunctionItem?
  {
    if item.callId != "" then item.callId else if item.id != "" then item.id else SynthId(index)
  }

  function FinishNow(p: Par): (Par, seq<Event>) {
    if p.sentFinish then (p, [])
    else
      var reason := if p.pendingStop != "" then p.pendingStop else if p.sawTool then "tool_calls" else "stop";
      (p.(sentFinish := true, sentStart := true),
       (if p.sentStart then [] else [MessageStart("")]) + [MessageFinish(reason, p.usage)])
  }

  function FailNow(p: Par, code: int, message: string): (Par, seq<Event>) {
    if p.sentFinish then (p, []) else (p.(sentFinish := true), [TaskFailed(code, message)])
  }

  /** Full arguments from a done frame count only if none came as deltas. */
  function ArgsFromDone(p: Par, key: string, args: string): (Par, seq<Event>) {
    if key == "" || args == "" || key in p.argSeen then (p, [])
    else
      (p.(argSeen := p.argSeen + {key}, sawTool := true),
       [ToolCallDelta(FirstNonBlank(Lookup(p.callIDOf, key), key), "", args)])
  }

  function TakeUsage(p: Par, usage: Option<WireUsage>): Par {
    if usage.None? then p
    else p.(usage := Some(Usage(usage.value.input, usage.value.output, usage.value.cached, 0, 0.0)))
  }

  function FeedFrame(p: Par, f: Frame): (Par, seq<Event>) {
    match f
    case Created(model) =>
      if p.sentStart then (p, []) else (p.(sentStart := true), [MessageStart(model)])
    case TextDelta(_, _, delta) =>
      (p, if delta != "" then [ContentDelta(delta, false)] else [])
    case ItemAdded(index, itemId, item) =>
      if !item.FunctionItem? then (p, [])
      else
        var id := CallIdOf(item, index);
        var key := FirstNonBlank(item.id, itemId);
        (p.(sawTool := true, toolIDs := p.toolIDs[index := id], toolNames := p.toolNames[index := item.name],
            callIDOf := if key != "" then p.callIDOf[key := id] else p.callIDOf),
         [ToolCallDelta(id, item.name, "")])
    case ArgsDelta(itemId, index, callId, delta) =>
      var known := if callId != "" then callId else Lookup(p.toolIDs, index);
      var id := if known != "" then known else SynthId(index);
      (p.(argSeen := p.argSeen + {FirstNonBlank(itemId, id)}),
       [ToolCallDelta(id, Lookup(p.toolNames, index), delta)])
    case ArgsDone(itemId, _, callId, args) => ArgsFromDone(p, FirstNonBlank(itemId, callId), args)
    case ItemDone(_, item) =>
      if item.FunctionItem? then ArgsFromDone(p, FirstNonBlank(item.id, item.callId), item.args) else (p, [])
    case Completed(_, _, usage) => FinishNow(TakeUsage(p, usage))
    case Incomplete(reason, usage) =>
      var p1 := TakeUsage(p, usage);
      FinishNow(if reason == "max_output_tokens" then p1.(pendingStop := "length") else p1)
    case Failed(message) => FailNow(p, 502, if message != "" then message else FAILED_TEXT)
    case ErrorEvent(message) => FailNow(p, 502, if message != "" then message else ERROR_TEXT)
    case ReasoningPartAdded(_, _) => (p, [])
    case ReasoningDelta(_, _, _) => (p, [])
    case ReasoningTextDone(_, _, _) => (p, [])
    case ReasoningPartDone(_, _, _) => (p, [])
    case TextDone(_, _, _) => (p, [])
  }

  class Parser {
    var sentStart: bool
    var sentFinish: bool
    var pendingStop: string
    var usage: Option<Usage>
    var toolIDs: map<int, string>
    var toolNames: map<int, string>
    var argSeen: set<string>
    var callIDOf: map<string, string>
    var sawTool: bool

    ghost function State(): Par
      reads this
    {
      Par(sentStart, sentFinish, pendingStop, usage, toolIDs, toolNames, argSeen, callIDOf, sawTool)
    }

    constructor ()
      ensures State() == NEW_PARSER
    {
      sentStart, sentFinish, pendingStop, usage, sawTool := false, false, "", None, false;
      toolIDs, toolNames, argSeen, callIDOf := map[], map[], {}, map[];
    }

    method Finish() returns (out: seq<Event>)
      modifies this
      ensures (State(), out) == FinishNow(old(State()))
    {
      if sentFinish {
        return [];
      }
      sentFinish := true;
      var reason := pendingStop;
      if reason == "" {
        reason := "stop";
        if sawTool {
          reason := "tool_calls";
        }
      }
      out := [];
      if !sentStart {
        sentStart := true;
        out := [MessageStart("")];
      }
      out := out + [MessageFinish(reason, usage)];
    }

    method FinishWithError(code: int, message: string) returns (out: seq<Event>)
      modifies this
      ensures (State(), out) == FailNow(old(State()), code, message)
    {
      if sentFinish {
        return [];
      }
      sentFinish := true;
      out := [TaskFailed(code, message)];
    }

    method ToolArgsDone(key: string, args: string) returns (out: seq<Event>)
      modifies this
      ensures (State(), out) == ArgsFromDone(old(State()), key, args)
    {
      if key == "" || args == "" || key in argSeen {
        return [];
      }
      argSeen := argSeen + {key};
      sawTool := true;
      out := [ToolCallDelta(FirstNonBlank(Lookup(callIDOf, key), key), "", args)];
    }

    method KeepUsage(u: Option<WireUsage>)
      modifies this
      ensures State() == TakeUsage(old(State()), u)
    {
      if u.Some? {
        usage := Some(Usage(u.value.input, u.value.output, u.value.cached, 0, 0.0));
      }
    }

    method OpenCall(index: int, itemId: string, item: Item) returns (out: seq<Event>)
      requires item.FunctionItem?
      modifies this
      ensures (State(), out) == FeedFrame(old(State()), ItemAdded(index, itemId, item))
    {
      sawTool := true;
      var id := item.callId;
      if id == "" {
        id := item.id;
      }
      if id == "" {
        id := SynthId(index);
      }
      toolIDs := toolIDs[index := id];
      toolNames := toolNames[index := item.name];
      var key := FirstNonBlank(item.id, itemId);
      if key != "" {
        callIDOf := callIDOf[key := id];
      }
      out := [ToolCallDelta(id, item.name, "")];
    }

    method PassArgs(itemId: string, index: int, callId: string, delta: string) returns (out: seq<Event>)
      modifies this
      ensures (State(), out) == FeedFrame(old(State()), ArgsDelta(itemId, index, callId, delta))
    {
      var id := callId;
      if id == "" {
        id := Lookup(toolIDs, index);
      }
      if id == "" {
        id := SynthId(index);
      }
      argSeen := argSeen + {FirstNonBlank(itemId, id)};
      out := [ToolCallDelta(id, Lookup(toolNames, index), delta)];
    }

    method Feed(f: Frame) returns (out: seq<Event>)
      modifies this
      ensures (State(), out) == FeedFrame(old(State()), f)
    {
      hide ArgsFromDone, FinishNow, FailNow, TakeUsage, Lookup, CallIdOf, FirstNonBlank;
      out := [];
      match f
      case Created(model) =>
        if !sentStart {
          sentStart := true;
          out := [MessageStart(model)];
        }
      case TextDelta(_, _, delta) =>
        if delta != "" {
          out := [ContentDelta(delta, false)];
        }
      case ItemAdded(index, itemId, item) =>
        if item.FunctionItem? {
          out := OpenCall(index, itemId, item);
        }
      case ArgsDelta(itemId, index, callId, delta) =>
        out := PassArgs(itemId, index, callId, delta);
      case ArgsDone(itemId, _, callId, args) =>
        out := ToolArgsDone(FirstNonBlank(itemId, callId), args);
      case ItemDone(_, item) =>
        if item.FunctionItem? {
          out := ToolArgsDone(FirstNonBlank(item.id, item.callId), item.args);
        }
      case Completed(_, _, u) =>
        KeepUsage(u);
        out := Finish();
      case Incomplete(reason, u) =>
        KeepUsage(u);
        if reason == "max_output_tokens" {
          pendingStop := "length";
        }
        out := Finish();
      case Failed(message) =>
        out := FinishWithError(502, if message != "" then message else FAILED_TEXT);
      case ErrorEvent(message) =>
        out := FinishWithError(502, if message != "" then message else ERROR_TEXT);
      case ReasoningPartAdded(_, _) =>
      case ReasoningDelta(_, _, _) =>
      case ReasoningTextDone(_, _, _) =>
      case ReasoningPartDone(_, _, _) =>
      case TextDone(_, _, _) =>
    }
  }
}
