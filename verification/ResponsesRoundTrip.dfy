/** Parsing what the Responses encoder prints recovers the answer, with arguments never doubled. */
module ResponsesRoundTrip {
  import opened Text
  import opened Envelope
  import opened Machines
  import opened Aggregate
  import opened Responses

  /** The parser knows each call by its output index, and remembers whose arguments it has passed on. */
  ghost predicate WireLinked(e: Enc, p: Par, tools: map<string, Tool>, order: seq<string>) {
    && e.Valid() && e.tools.spare != ""
    && p.sentStart && !p.sentFinish && p.pendingStop == "" && p.usage == None
    && (p.sawTool <==> order != [])
    && e.fnOrder == order && e.fnItems.Keys == tools.Keys
    && (forall id <- e.fnItems :: ItemLinked(p, e.nextItem, id, e.fnItems[id], tools[id]))
  }

  ghost predicate ItemLinked(p: Par, next: nat, id: string, it: FnItem, tool: Tool) {
    && id != "" && 0 <= it.idx < next && it.itemId == ItemName(it.idx)
    && Lookup(p.toolIDs, it.idx) == id && Lookup(p.toolNames, it.idx) == tool.name
    && it.args == tool.input && (it.args != "" ==> it.itemId in p.argSeen)
  }

  ghost predicate AnswerLinked(a: Agg, b: Agg) {
    && a.model == b.model && a.text == b.text && b.reasoning == ""
    && a.usage == b.usage == NO_USAGE
    && a.tools == b.tools && a.order == b.order
    && (a.track.lastName == "" ==> b.track.lastName == "" && forall id <- a.tools :: a.tools[id].name == "")
  }

  ghost predicate Linked(e: Enc, p: Par, a: Agg, b: Agg) {
    e.tools == a.track && WireLinked(e, p, a.tools, a.order) && AnswerLinked(a, b)
  }

  lemma {:induction false} Ignored(p: Par, frames: seq<Frame>)
    requires forall i | 0 <= i < |frames| :: FeedFrame(p, frames[i]) == (p, [])
    ensures Run(FeedFrame, p, frames) == (p, [])
    decreases |frames|
  {
    if frames != [] {
      assert FeedFrame(p, frames[0]) == (p, []);
      var none: seq<Event> := [];
      assert none + none == none;
      Ignored(p, frames[1..]);
    }
  }

  /** Reasoning frames say nothing to the parser. */
  lemma ReasoningLink(e: Enc, p: Par, a: Agg, b: Agg, ev: Event)
    requires Linked(e, p, a, b) && ev.ContentDelta? && ev.reasoning
    ensures var (e1, frames) := Encode(e, ev);
            Run(FeedFrame, p, frames) == (p, []) && Linked(e1, p, Absorb(a, ev), b)
  {
    Ignored(p, Encode(e, ev).1);
  }

  lemma TextLink(e: Enc, p: Par, a: Agg, b: Agg, ev: Event)
    requires Linked(e, p, a, b) && ev.ContentDelta? && !ev.reasoning
    ensures var (e1, frames) := Encode(e, ev);
            var out := if ev.text == "" then [] else [ev];
            Run(FeedFrame, p, frames) == (p, out) && Linked(e1, p, Absorb(a, ev), AbsorbAll(b, out))
  {
    var e1 := Encode(e, ev).0;
    var open, last := OpenText(e).1, TextDelta(e1.textItem, e1.textIdx, ev.text);
    var out := if ev.text == "" then [] else [ev];
    Ignored(p, open);
    RunOne(FeedFrame, p, last);
    RunConcat(FeedFrame, p, open, [last]);
    assert [] + out == out && a.text + "" == a.text;
    if ev.text != "" {
      AbsorbOne(b, ev);
    }
    hide Run, FeedFrame, AbsorbAll;
  }

  function NameOf(id: string, name: string, tools: map<string, Tool>): string {
    if id in tools then tools[id].name else name
  }

  function InputOf(id: string, tools: map<string, Tool>): string {
    if id in tools then tools[id].input else ""
  }

  function Listed(order: seq<string>, id: string, tools: map<string, Tool>): seq<string> {
    if id in tools then order else order + [id]
  }

  /** What the parser does with the added frame of a new call. */
  lemma AddedFrame(e: Enc, p: Par, id: string, name: string)
    requires e.Valid() && id != "" && id !in e.fnItems
    ensures var (p1, out) := Run(FeedFrame, p, OpenCall(e, id, name).1);
            && out == [ToolCallDelta(id, name, "")]
            && p1 == p.(sawTool := true, toolIDs := p.toolIDs[e.nextItem := id], toolNames := p.toolNames[e.nextItem := name],
                        callIDOf := p1.callIDOf)
  {
    RunOne(FeedFrame, p, OpenCall(e, id, name).1[0]);
  }

  lemma OpenNew(e: Enc, p: Par, tools: map<string, Tool>, order: seq<string>, id: string, name: string)
    requires WireLinked(e, p, tools, order) && id != "" && id !in tools
    ensures var e1 := OpenCall(e, id, name).0;
            var p1 := Run(FeedFrame, p, OpenCall(e, id, name).1).0;
            WireLinked(e1, p1, tools[id := Tool(id, name, "")], order + [id])
  {
    assert id !in e.fnItems.Keys;
    AddedFrame(e, p, id, name);
    hide ItemName, FeedFrame, Run;
    var e1 := OpenCall(e, id, name).0;
    var p1 := Run(FeedFrame, p, OpenCall(e, id, name).1).0;
    forall k | k in e.fnItems ensures ItemLinked(p1, e1.nextItem, k, e.fnItems[k], tools[k]) {
      assert ItemLinked(p, e.nextItem, k, e.fnItems[k], tools[k]);
    }
  }

  lemma OpenKnown(e: Enc, p: Par, tools: map<string, Tool>, order: seq<string>, id: string, name: string)
    requires WireLinked(e, p, tools, order) && id in tools
    ensures WireLinked(OpenCall(e, id, name).0, p, tools[id := Tool(id, tools[id].name, tools[id].input)], order)
  {
    assert id in e.fnItems.Keys;
    assert ItemLinked(p, e.nextItem, id, e.fnItems[id], tools[id]);
  }

  /** The added frame opens the call at the parser, under the same id and name. */
  lemma OpenLink(e: Enc, p: Par, tools: map<string, Tool>, order: seq<string>, id: string, name: string)
    requires WireLinked(e, p, tools, order) && id != ""
    ensures var (e1, open) := OpenCall(e, id, name);
            var (p1, out) := Run(FeedFrame, p, open);
            && out == (if id in tools then [] else [ToolCallDelta(id, name, "")])
            && id in e1.fnItems
            && WireLinked(e1, p1, tools[id := Tool(id, NameOf(id, name, tools), InputOf(id, tools))], Listed(order, id, tools))
  {
    assert id in e.fnItems.Keys <==> id in tools.Keys;
    if id in tools {
      OpenKnown(e, p, tools, order, id, name);
    } else {
      AddedFrame(e, p, id, name);
      OpenNew(e, p, tools, order, id, name);
    }
    hide WireLinked;
  }

  /** A delta frame passes the fragment on under the call's id, and marks the item as seen. */
  lemma ArgsLink(e: Enc, p: Par, tools: map<string, Tool>, order: seq<string>, id: string, args: string)
    requires WireLinked(e, p, tools, order) && id in e.fnItems && id in tools && tools[id].id == id
    ensures var (e1, more) := AppendArgs(e, id, args);
            var (p1, out) := Run(FeedFrame, p, more);
            && out == (if args == "" then [] else [ToolCallDelta(id, tools[id].name, args)])
            && WireLinked(e1, p1, tools[id := Tool(id, tools[id].name, tools[id].input + args)], order)
  {
    if args == "" {
      assert tools[id].input + args == tools[id].input;
      assert tools == tools[id := tools[id]];
    } else {
      var it := e.fnItems[id];
      RunOne(FeedFrame, p, ArgsDelta(it.itemId, it.idx, "", args));
      ItemNames(it.idx, it.idx);
    }
  }

  /** Both folds take in the same fragment, b possibly in two steps. */
  lemma AnswerLink(a: Agg, b: Agg, ev: Event)
    requires AnswerLinked(a, b) && ev.ToolCallDelta? && a.track.spare != ""
    ensures var t := a.track.Resolve(ev.id, ev.name);
            var id, name := t.lastId, NameOf(t.lastId, t.lastName, a.tools);
            var out := (if id in a.tools then [] else [ToolCallDelta(id, name, "")])
                     + (if ev.args == "" then [] else [ToolCallDelta(id, name, ev.args)]);
            AnswerLinked(Absorb(a, ev), AbsorbAll(b, out))
  {
    var t := a.track.Resolve(ev.id, ev.name);
    var id, name := t.lastId, NameOf(t.lastId, t.lastName, a.tools);
    var open := if id in a.tools then [] else [ToolCallDelta(id, name, "")];
    var more := if ev.args == "" then [] else [ToolCallDelta(id, name, ev.args)];
    AbsorbAllConcat(b, open, more);
    if id !in a.tools {
      AbsorbOne(b, open[0]);
      assert "" + ev.args == ev.args;
    } else {
      assert a.tools[id].input + "" == a.tools[id].input;
    }
    if ev.args != "" {
      AbsorbOne(AbsorbAll(b, open), more[0]);
    }
    var a1, b1 := Absorb(a, ev), AbsorbAll(b, open + more);
    assert a1.tools == b1.tools;
  }

  /** What the parser makes of a call's opening and its fragment together. */
  lemma CallWire(e: Enc, p: Par, tools: map<string, Tool>, order: seq<string>, id: string, lastName: string, args: string)
    requires WireLinked(e, p, tools, order) && id != ""
    requires id in tools ==> tools[id].id == id
    ensures var (e1, open) := OpenCall(e, id, lastName);
            var (e2, more) := AppendArgs(e1, id, args);
            var (p2, out) := Run(FeedFrame, p, open + more);
            var name := NameOf(id, lastName, tools);
            && out == (if id in tools then [] else [ToolCallDelta(id, name, "")])
                    + (if args == "" then [] else [ToolCallDelta(id, name, args)])
            && WireLinked(e2, p2, tools[id := Tool(id, name, InputOf(id, tools) + args)], Listed(order, id, tools))
  {
    hide WireLinked;
    var name := NameOf(id, lastName, tools);
    OpenLink(e, p, tools, order, id, lastName);
    var (e1, open) := OpenCall(e, id, lastName);
    var p1 := Run(FeedFrame, p, open).0;
    var tools1 := tools[id := Tool(id, name, InputOf(id, tools))];
    ArgsLink(e1, p1, tools1, Listed(order, id, tools), id, args);
    RunConcat(FeedFrame, p, open, AppendArgs(e1, id, args).1);
    var tool := Tool(id, name, InputOf(id, tools) + args);
    assert tools1[id := tool] == tools[id := tool];
  }

  lemma AbsorbTool(a: Agg, ev: Event)
    requires ev.ToolCallDelta? && a.Valid()
    ensures var t := a.track.Resolve(ev.id, ev.name);
            var id, name := t.lastId, NameOf(t.lastId, t.lastName, a.tools);
            Absorb(a, ev) == a.(track := t, order := Listed(a.order, id, a.tools),
                     tools := a.tools[id := Tool(id, name, InputOf(id, a.tools) + ev.args)])
  {
    assert "" + ev.args == ev.args;
  }

  lemma ToolLink(e: Enc, p: Par, a: Agg, b: Agg, ev: Event)
    requires Linked(e, p, a, b) && ev.ToolCallDelta? && a.Valid()
    ensures var (e1, frames) := Encode(e, ev);
            var (p1, out) := Run(FeedFrame, p, frames);
            Linked(e1, p1, Absorb(a, ev), AbsorbAll(b, out))
  {
    var t := a.track.Resolve(ev.id, ev.name);
    assert WireLinked(e.(tools := t), p, a.tools, a.order);
    assert e.Valid() && a.track.spare != "";
    hide WireLinked, AnswerLinked, Absorb, AbsorbAll, Run, OpenCall;
    CallWire(e.(tools := t), p, a.tools, a.order, t.lastId, t.lastName, ev.args);
    AnswerLink(a, b, ev);
    AbsorbTool(a, ev);
  }

  lemma {:induction false} DeltaLinks(e: Enc, p: Par, a: Agg, b: Agg, deltas: seq<Event>)
    requires Linked(e, p, a, b) && OnlyDeltas(deltas) && a.Valid()
    ensures var (e1, frames) := EncodeAll(e, deltas);
            var (p1, out) := Run(FeedFrame, p, frames);
            Linked(e1, p1, AbsorbAll(a, deltas), AbsorbAll(b, out))
    decreases |deltas|
  {
    if deltas != [] {
      var ev := deltas[0];
      match ev {
        case ContentDelta(_, true) => ReasoningLink(e, p, a, b, ev);
        case ContentDelta(_, false) => TextLink(e, p, a, b, ev);
        case ToolCallDelta(_, _, _) => ToolLink(e, p, a, b, ev);
      }
      AbsorbKeepsValid(a, ev);
      var (e1, f1) := Encode(e, ev);
      var (p1, out1) := Run(FeedFrame, p, f1);
      DeltaLinks(e1, p1, Absorb(a, ev), AbsorbAll(b, out1), deltas[1..]);
      var f2 := EncodeAll(e1, deltas[1..]).1;
      RunConcat(FeedFrame, p, f1, f2);
      AbsorbAllConcat(b, out1, Run(FeedFrame, p1, f2).1);
    }
  }

  /** The done frames repeat the full arguments, and the parser drops every one of them. */
  lemma {:induction false} DoneFramesIgnored(e: Enc, p: Par, ids: seq<string>)
    requires forall id <- ids :: id in e.fnItems
    requires forall id <- ids :: !Blank(e.fnItems[id].itemId)
    requires forall id <- ids :: e.fnItems[id].args == "" || e.fnItems[id].itemId in p.argSeen
    ensures forall f <- CallsDone(e, ids).0 :: FeedFrame(p, f) == (p, [])
    decreases |ids|
  {
    if ids != [] {
      DoneFramesIgnored(e, p, ids[1..]);
      var it := e.fnItems[ids[0]];
      assert FeedFrame(p, ArgsDone(it.itemId, it.idx, "", it.args)) == (p, []);
      assert FeedFrame(p, ItemDone(it.idx, CallItem(ids[0], it, "completed"))) == (p, []);
    }
  }

  lemma ClosingIgnored(e: Enc, p: Par, a: Agg)
    requires WireLinked(e, p, a.tools, a.order)
    ensures Run(FeedFrame, p, ReasoningDone(e).0 + MessageDone(e).0 + CallsDone(e, e.fnOrder).0) == (p, [])
  {
    forall id | id in e.fnOrder ensures !Blank(e.fnItems[id].itemId) {
      assert ItemLinked(p, e.nextItem, id, e.fnItems[id], a.tools[id]);
      ItemNames(e.fnItems[id].idx, 0);
    }
    DoneFramesIgnored(e, p, e.fnOrder);
    Ignored(p, ReasoningDone(e).0 + MessageDone(e).0 + CallsDone(e, e.fnOrder).0);
  }

  lemma LinkedFlags(e: Enc, p: Par, a: Agg, b: Agg)
    requires Linked(e, p, a, b)
    ensures WireLinked(e, p, a.tools, a.order) && e.Valid()
    ensures p.sentStart && !p.sentFinish && p.pendingStop == "" && p.usage == None && (p.sawTool <==> a.order != [])
  {
  }

  /** The closing frame is answered with the one finish, and the counts it carries. */
  lemma CountsReported(p: Par, last: Frame, usage: Option<Usage>)
    requires p.sentStart && !p.sentFinish && p.pendingStop == ""
    requires last.Completed? && last.usage == Some(UsagePayload(usage))
    requires usage.Some? ==> LegalUsage(usage.value)
    ensures var u := if usage.Some? then usage.value else NO_USAGE;
            FeedFrame(p, last).1 ==
              [MessageFinish(if p.sawTool then "tool_calls" else "stop", Some(Usage(u.input, u.output, u.cached, 0, 0.0)))]
  {
  }

  lemma FinishLink(e: Enc, p: Par, a: Agg, b: Agg, reason: string, usage: Option<Usage>)
    requires Linked(e, p, a, b)
    requires usage.Some? ==> LegalUsage(usage.value)
    ensures var u := if usage.Some? then usage.value else NO_USAGE;
            Run(FeedFrame, p, Encode(e, MessageFinish(reason, usage)).1).1 ==
              [MessageFinish(if a.order == [] then "stop" else "tool_calls",
                             Some(Usage(u.input, u.output, u.cached, 0, 0.0)))]
  {
    hide CallsDone, Output, ReasoningDone, MessageDone, Linked, Run;
    LinkedFlags(e, p, a, b);
    var frames := ReasoningDone(e).0 + MessageDone(e).0 + CallsDone(e, e.fnOrder).0;
    var last := Completed(e.model, Output(e), Some(UsagePayload(usage)));
    ClosingIgnored(e, p, a);
    CountsReported(p, last, usage);
    hide FeedFrame;
    RunConcat(FeedFrame, p, frames, [last]);
    RunOne(FeedFrame, p, last);
    assert [] + FeedFrame(p, last).1 == FeedFrame(p, last).1;
  }

  lemma {:induction false} EncodeAllConcat(e: Enc, x: seq<Event>, y: seq<Event>)
    requires e.Valid()
    ensures var (e1, f1) := EncodeAll(e, x);
            var (e2, f2) := EncodeAll(e1, y);
            e1.Valid() && EncodeAll(e, x + y) == (e2, f1 + f2)
    decreases |x|
  {
    if x == [] {
      assert x + y == y;
      assert [] + EncodeAll(e, y).1 == EncodeAll(e, y).1;
    } else {
      var (e0, f0) := Encode(e, x[0]);
      assert (x + y)[1..] == x[1..] + y;
      EncodeAllConcat(e0, x[1..], y);
      var (e1, f1) := EncodeAll(e0, x[1..]);
      var f2 := EncodeAll(e1, y).1;
      assert f0 + (f1 + f2) == (f0 + f1) + f2;
    }
  }

  /** The frames of a session: created, what the deltas give, then the closing frames. */
  lemma EncodeSession(s: Session, model: string, spare: string) returns (e: Enc, mid: seq<Frame>)
    ensures (e, mid) == EncodeAll(NewEnc(model, spare), s.deltas) && e.Valid()
    ensures EncodeAll(NewEnc(model, spare), s.Events()).1
         == [Created(s.model)] + mid + Encode(e, MessageFinish(s.reason, s.usage)).1
  {
    var e0 := NewEnc(model, spare);
    var r := EncodeAll(e0, s.deltas);
    e, mid := r.0, r.1;
    var fin := MessageFinish(s.reason, s.usage);
    assert s.Events()[0] == MessageStart(s.model) && s.Events()[1..] == s.deltas + [fin];
    EncodeAllConcat(e0, s.deltas, [fin]);
    var last := Encode(e, fin).1;
    assert EncodeAll(e, [fin][1..]) == (e, []);
    assert last + [] == last;
    assert [Created(s.model)] + (mid + last) == [Created(s.model)] + mid + last;
  }

  /** Encoding a run and parsing the frames keeps the model, the text, the tool calls with
      their order, ids, names and full arguments, and the input, output and cached counts.
      Reasoning and the cache-write count do not travel; the stop reason says only whether
      there were calls. */
  lemma RoundTrip(s: Session, model: string, spare: string, spare2: string)
    requires s.WellFormed() && spare != ""
    ensures var frames := EncodeAll(NewEnc(model, spare), s.Events()).1;
            var direct := AbsorbAll(NewAgg(model, spare), s.Events());
            var parsed := AbsorbAll(NewAgg(model, spare2), Run(FeedFrame, NEW_PARSER, frames).1);
            && parsed.model == direct.model && parsed.text == direct.text && parsed.reasoning == ""
            && parsed.tools == direct.tools && parsed.order == direct.order
            && parsed.finish == (if direct.order == [] then "stop" else "tool_calls")
            && parsed.usage == Usage(direct.usage.input, direct.usage.output, direct.usage.cached, 0, 0.0)
  {
    var e, mid := EncodeSession(s, model, spare);
    var fin := MessageFinish(s.reason, s.usage);
    var first, last := Created(s.model), Encode(e, fin).1;
    var p0 := NEW_PARSER.(sentStart := true);
    RunConcat(FeedFrame, NEW_PARSER, [first] + mid, last);
    RunConcat(FeedFrame, NEW_PARSER, [first], mid);
    RunOne(FeedFrame, NEW_PARSER, first);
    var (p1, out1) := Run(FeedFrame, p0, mid);
    var out2 := Run(FeedFrame, p1, last).1;

    var a0 := NewAgg(model, spare).(model := s.model);
    var b0 := NewAgg(model, spare2).(model := s.model);
    DeltaLinks(NewEnc(model, spare), p0, a0, b0, s.deltas);
    FinishLink(e, p1, AbsorbAll(a0, s.deltas), AbsorbAll(b0, out1), s.reason, s.usage);

    AbsorbSession(NewAgg(model, spare), s);
    AbsorbSession(NewAgg(model, spare2), Session(s.model, out1, out2[0].reason, out2[0].usage));
    assert [MessageStart(s.model)] + out1 + out2
        == Session(s.model, out1, out2[0].reason, out2[0].usage).Events();
  }
}
