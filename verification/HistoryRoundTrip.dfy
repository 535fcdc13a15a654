/** Parsing what ChatBody renders: what comes back for every history, and when it is the same. */
module HistoryRoundTrip {
  import opened Text
  import opened History

  // ---------- What one message becomes ----------

  function FixCalls(lib: Lib, calls: seq<Call>): seq<Call> {
    seq(|calls|, i requires 0 <= i < |calls| => calls[i].(args := EnsureJSONArgs(lib, calls[i].args)))
  }

  function OtherRole(role: string): string {
    if role == "" then "user" else if role == "developer" then "system" else role
  }

  /** Empty text in a content block reads as the block itself. */
  function OtherText(lib: Lib, text: string): string {
    if text != "" then text else lib.raw(TextBlock("input_text", ""))
  }

  /** The effect of one rendered message on the parser's state. */
  function Step(lib: Lib, s: State, m: Message): State {
    if m.role == "system" then s
    else if m.role == "tool" then s.Flush().Add(Message("tool", TextOf(m), [], m.toolCallId))
    else if m.role == "assistant" then
      var calls := FixCalls(lib, m.calls);
      if TextOf(m) != "" then s.Flush().(pendText := TextOf(m), pendAssistant := true, pendTools := calls)
      else s.(pendTools := s.pendTools + calls)
    else s.Flush().Add(Message(OtherRole(m.role), OtherText(lib, m.text), [], ""))
  }

  function Steps(lib: Lib, s: State, h: seq<Message>): State
    decreases |h|
  {
    if h == [] then s else Steps(lib, Step(lib, s, h[0]), h[1..])
  }

  /** What a history becomes: the system texts joined in front, then its messages, with empty
      assistant messages dropped and text-less ones merged into the assistant message before. */
  function Canon(lib: Lib, h: seq<Message>): seq<Message> {
    var system := if Instructions(h) != "" then [Message("system", Instructions(h), [], "")] else [];
    Steps(lib, Start(system), h).Flush().msgs
  }

  lemma {:induction false} ParseItemsConcat(lib: Lib, s: State, x: seq<Item>, y: seq<Item>)
    ensures ParseItems(lib, s, x + y) == ParseItems(lib, ParseItems(lib, s, x), y)
    decreases |x|
  {
    if x == [] {
      assert x + y == y;
    } else {
      ParseItemsConcat(lib, ParseItem(lib, s, x[0]), x[1..], y);
      assert (x + y)[1..] == x[1..] + y;
    }
  }

  lemma ParseOne(lib: Lib, s: State, it: Item)
    ensures ParseItems(lib, s, [it]) == ParseItem(lib, s, it)
  {
    assert ParseItems(lib, ParseItem(lib, s, it), [it][1..]) == ParseItem(lib, s, it);
  }

  lemma BlockText(lib: Lib, kind: string, text: string)
    ensures JsonText(lib, Arr([TextBlock(kind, text)])) == if text != "" then text else lib.raw(TextBlock(kind, ""))
  {
    var block := TextBlock(kind, text);
    var t := JsonText(lib, block);
    assert Texts(lib, [block][1..]) == [];
    assert Texts(lib, [block]) == [t];
    assert NonEmpty([t][1..]) == [];
    assert NonEmpty([t]) == if t != "" then [t] else [];
  }

  lemma TextItem(lib: Lib, s: State, role: string, kind: string, text: string)
    ensures var it := ToItem(RenderText(role, kind, text));
            && JsonText(lib, it.kind) == "message" && JsonText(lib, it.role) == role
            && JsonText(lib, it.content) == if text != "" then text else lib.raw(TextBlock(kind, ""))
  {
    BlockText(lib, kind, text);
  }

  lemma CallItem(lib: Lib, s: State, c: Call)
    ensures ParseItem(lib, s, ToItem(RenderCall(c)))
         == s.(pendTools := s.pendTools + [c.(args := EnsureJSONArgs(lib, c.args))])
  {
    var it := ToItem(RenderCall(c));
    assert JsonText(lib, it.kind) == "function_call" && it.args == Str(c.args) && it.input == Missing;
  }

  lemma RenderedCallsCons(lib: Lib, calls: seq<Call>)
    requires calls != []
    ensures var fixed := calls[0].(args := EnsureJSONArgs(lib, calls[0].args));
            && FixCalls(lib, calls) == [fixed] + FixCalls(lib, calls[1..])
            && ToItems(RenderCalls(calls)) == [ToItem(RenderCall(calls[0]))] + ToItems(RenderCalls(calls[1..]))
  {
  }

  lemma {:induction false} CallItems(lib: Lib, s: State, calls: seq<Call>)
    ensures ParseItems(lib, s, ToItems(RenderCalls(calls))) == s.(pendTools := s.pendTools + FixCalls(lib, calls))
    decreases |calls|
  {
    hide RenderCall, RenderCalls, ToItem, ToItems, FixCalls, ParseItem, EnsureJSONArgs, ParseItems;
    if calls == [] {
      NoCallItems(lib, s);
    } else {
      var first, rest := ToItem(RenderCall(calls[0])), ToItems(RenderCalls(calls[1..]));
      var fixed := calls[0].(args := EnsureJSONArgs(lib, calls[0].args));
      RenderedCallsCons(lib, calls);
      CallItem(lib, s, calls[0]);
      ParseCons(lib, s, first, rest);
      CallItems(lib, s.(pendTools := s.pendTools + [fixed]), calls[1..]);
      Regroup(s.pendTools, [fixed], FixCalls(lib, calls[1..]));
    }
  }

  lemma NoCallItems(lib: Lib, s: State)
    ensures ParseItems(lib, s, ToItems(RenderCalls([]))) == s.(pendTools := s.pendTools + FixCalls(lib, []))
  {
    assert s.pendTools + FixCalls(lib, []) == s.pendTools;
  }

  lemma ParseCons(lib: Lib, s: State, it: Item, rest: seq<Item>)
    ensures ParseItems(lib, s, [it] + rest) == ParseItems(lib, ParseItem(lib, s, it), rest)
  {
    hide ParseItem;
    assert ([it] + rest)[1..] == rest;
  }

  lemma AssistantStep(lib: Lib, s: State, m: Message)
    requires m.role == "assistant"
    ensures ParseItems(lib, s, ToItems(Render(m))) == Step(lib, s, m)
  {
    var calls := RenderCalls(m.calls);
    if TextOf(m) == "" {
      assert Render(m) == calls;
      CallItems(lib, s, m.calls);
    } else {
      var said := RenderText("assistant", "output_text", TextOf(m));
      assert ToItems(Render(m)) == [ToItem(said)] + ToItems(calls);
      TextItem(lib, s, "assistant", "output_text", TextOf(m));
      hide RenderText, ToItem, JsonText, Blank;
      var s1 := s.Flush().(pendText := TextOf(m), pendAssistant := true);
      assert ParseItem(lib, s, ToItem(said)) == s1;
      ParseOne(lib, s, ToItem(said));
      ParseItemsConcat(lib, s, [ToItem(said)], ToItems(calls));
      CallItems(lib, s1, m.calls);
      assert [] + FixCalls(lib, m.calls) == FixCalls(lib, m.calls);
    }
  }

  lemma OneItemStep(lib: Lib, s: State, m: Message)
    requires m.role != "assistant" && m.role != "system"
    ensures ParseItems(lib, s, ToItems(Render(m))) == Step(lib, s, m)
  {
    var item := ToItem(Render(m)[0]);
    assert ToItems(Render(m)) == [item];
    ParseOne(lib, s, item);
    if m.role == "tool" {
      assert JsonText(lib, item.kind) == "function_call_output";
    } else {
      var role := if m.role == "" then "user" else m.role;
      TextItem(lib, s, role, "input_text", m.text);
      assert item == ToItem(RenderText(role, "input_text", m.text));
      hide RenderText, ToItem, JsonText, Blank;
      assert ParseItem(lib, s, item) == s.Flush().Add(Message(OtherRole(m.role), OtherText(lib, m.text), [], ""));
    }
  }

  lemma AnyStep(lib: Lib, s: State, m: Message)
    ensures ParseItems(lib, s, ToItems(Render(m))) == Step(lib, s, m)
  {
    if m.role == "assistant" {
      AssistantStep(lib, s, m);
    } else if m.role == "system" {
      assert ToItems(Render(m)) == [];
    } else {
      OneItemStep(lib, s, m);
    }
  }

  lemma ToItemsConcat(x: seq<Json>, y: seq<Json>)
    ensures ToItems(x + y) == ToItems(x) + ToItems(y)
  {
  }

  lemma {:induction false} RenderedSteps(lib: Lib, s: State, h: seq<Message>)
    ensures ParseItems(lib, s, ToItems(RenderAll(h))) == Steps(lib, s, h)
    decreases |h|
  {
    if h != [] {
      hide Render, Step, ParseItem, ToItems, ParseItems;
      ToItemsConcat(Render(h[0]), RenderAll(h[1..]));
      ParseItemsConcat(lib, s, ToItems(Render(h[0])), ToItems(RenderAll(h[1..])));
      AnyStep(lib, s, h[0]);
      RenderedSteps(lib, Step(lib, s, h[0]), h[1..]);
    }
  }

  /** For every history of text messages, parsing the rendered request gives its canonical form. */
  lemma ParseRendered(lib: Lib, h: seq<Message>)
    ensures ParseRequest(lib, Instructions(h), Arr(RenderAll(h))) == Ok(Canon(lib, h))
  {
    var system := if Instructions(h) != "" then [Message("system", Instructions(h), [], "")] else [];
    RenderedSteps(lib, Start(system), h);
  }

  // ---------- When the history comes back unchanged ----------

  /** A message that survives on its own. */
  predicate Plain(lib: Lib, m: Message) {
    if m.role == "tool" then (m.text == "" || !Blank(m.text)) && m.calls == []
    else if m.role == "assistant" then
      && (m.text == "" || !Blank(m.text)) && m.toolCallId == "" && (m.text != "" || m.calls != [])
      && (forall c <- m.calls :: c.args != "" && Trimmed(c.args) && lib.valid(c.args))
    else m.role != "" && m.role != "developer" && m.role != "system" && m.text != "" && m.calls == [] && m.toolCallId == ""
  }

  /** A text-less assistant message, which the parser cannot tell from more calls of the last one. */
  predicate Textless(m: Message) {
    m.role == "assistant" && m.text == ""
  }

  /** Plain messages, none of them a text-less assistant message right after an assistant one,
      behind at most one system message with text. */
  predicate NormalForm(lib: Lib, h: seq<Message>) {
    && (forall i | 0 <= i < |h| :: Plain(lib, h[i]) || (i == 0 && PlainSystem(h[0])))
    && (forall i | 0 < i < |h| :: Textless(h[i]) ==> h[i - 1].role != "assistant")
  }

  predicate PlainSystem(m: Message) {
    m.role == "system" && !Blank(m.text) && m.calls == [] && m.toolCallId == ""
  }

  /** The state's messages as they stand if nothing more comes. */
  function Seen(s: State): seq<Message> {
    s.Flush().msgs
  }

  predicate Pending(s: State) {
    s.pendAssistant || s.pendTools != []
  }

  ghost predicate Tidy(s: State) {
    !s.pendAssistant ==> s.pendText == ""
  }

  /** What a message becomes when it is neither dropped nor merged. */
  function Image(lib: Lib, m: Message): Message {
    if m.role == "tool" then Message("tool", TextOf(m), [], m.toolCallId)
    else if m.role == "assistant" then Message("assistant", TextOf(m), FixCalls(lib, m.calls), "")
    else Message(OtherRole(m.role), OtherText(lib, m.text), [], "")
  }

  /** The message adds one of its own to the result. */
  predicate Counts(s: State, m: Message) {
    m.role != "system" && (m.role == "assistant" && TextOf(m) == "" ==> m.calls != [] && !Pending(s))
  }

  lemma StepSeen(lib: Lib, s: State, m: Message)
    requires Tidy(s)
    ensures var s1 := Step(lib, s, m);
            && Tidy(s1)
            && (if Counts(s, m) then Seen(s1) == Seen(s) + [Image(lib, m)] && (Pending(s1) <==> m.role == "assistant")
                else |Seen(s1)| == |Seen(s)|)
  {
    assert [] + FixCalls(lib, m.calls) == FixCalls(lib, m.calls);
  }

  function Images(lib: Lib, h: seq<Message>): seq<Message> {
    seq(|h|, i requires 0 <= i < |h| => Image(lib, h[i]))
  }

  /** Every message counts, given whether an assistant message is pending before the first. */
  predicate AllCount(pending: bool, h: seq<Message>)
    decreases |h|
  {
    h != [] ==>
      && h[0].role != "system"
      && (h[0].role == "assistant" && TextOf(h[0]) == "" ==> h[0].calls != [] && !pending)
      && AllCount(h[0].role == "assistant", h[1..])
  }

  /** No message adds more than one; if all add one, the result is their images in order. */
  lemma {:induction false} StepsSeen(lib: Lib, s: State, h: seq<Message>)
    requires Tidy(s)
    ensures |Seen(Steps(lib, s, h))| <= |Seen(s)| + |h|
    ensures |Seen(Steps(lib, s, h))| == |Seen(s)| + |h| <==> AllCount(Pending(s), h)
    ensures AllCount(Pending(s), h) ==> Seen(Steps(lib, s, h)) == Seen(s) + Images(lib, h)
    decreases |h|
  {
    if h == [] {
      assert Images(lib, h) == [];
    } else {
      StepSeen(lib, s, h[0]);
      hide Step, Seen, TextOf, Image;
      StepsSeen(lib, Step(lib, s, h[0]), h[1..]);
      assert [Image(lib, h[0])] + Images(lib, h[1..]) == Images(lib, h);
      hide Images;
      Regroup(Seen(s), [Image(lib, h[0])], Images(lib, h[1..]));
    }
  }

  lemma FixCallsSame(lib: Lib, calls: seq<Call>)
    requires lib.Lawful()
    ensures FixCalls(lib, calls) == calls <==> forall c <- calls :: c.args != "" && Trimmed(c.args) && lib.valid(c.args)
  {
    forall c: Call ensures EnsureJSONArgs(lib, c.args) == c.args <==> c.args != "" && Trimmed(c.args) && lib.valid(c.args) {
      ArgsUnchanged(lib, c.args);
    }
    hide EnsureJSONArgs, Trimmed;
    if FixCalls(lib, calls) == calls {
      forall c | c in calls ensures EnsureJSONArgs(lib, c.args) == c.args {
        var i :| 0 <= i < |calls| && calls[i] == c;
        assert FixCalls(lib, calls)[i] == c.(args := EnsureJSONArgs(lib, c.args));
      }
    }
  }

  lemma ImageSame(lib: Lib, m: Message)
    requires lib.Lawful() && m.role != "system"
    requires m.role == "assistant" && TextOf(m) == "" ==> m.calls != []
    ensures Image(lib, m) == m <==> Plain(lib, m)
  {
    FixCallsSame(lib, m.calls);
    hide FixCalls, Trimmed;
  }

  predicate CountsAt(pending: bool, h: seq<Message>, i: int)
    requires 0 <= i < |h|
  {
    && h[i].role != "system"
    && (h[i].role == "assistant" && TextOf(h[i]) == "" ==>
          h[i].calls != [] && !(if i == 0 then pending else h[i - 1].role == "assistant"))
  }

  /** Every message counts exactly when there is no system message, no assistant message is
      empty, and no text-less one follows an assistant message. */
  lemma {:induction false} AllCountSpec(pending: bool, h: seq<Message>)
    ensures AllCount(pending, h) <==> forall i | 0 <= i < |h| :: CountsAt(pending, h, i)
    decreases |h|
  {
    if h != [] {
      var rest := h[1..];
      var next := h[0].role == "assistant";
      AllCountSpec(next, rest);
      hide TextOf;
      assert AllCount(pending, h) <==> CountsAt(pending, h, 0) && AllCount(next, rest);
      assert forall i | 0 <= i < |rest| :: CountsAt(next, rest, i) <==> CountsAt(pending, h, i + 1);
      if forall i | 0 <= i < |rest| :: CountsAt(next, rest, i) {
        forall i | 0 < i < |h| ensures CountsAt(pending, h, i) {
          assert CountsAt(next, rest, i - 1);
        }
      }
    }
  }

  lemma {:induction false} NoSystem(h: seq<Message>)
    requires forall i | 0 <= i < |h| :: h[i].role != "system"
    ensures SystemTexts(h) == []
    decreases |h|
  {
    if h != [] {
      NoSystem(h[1..]);
    }
  }

  lemma {:induction false} BlankSystem(h: seq<Message>)
    ensures Instructions(h) != "" <==> exists i :: 0 <= i < |h| && h[i].role == "system" && !Blank(h[i].text)
    ensures |SystemTexts(h)| <= |h| && forall t <- SystemTexts(h) :: t != ""
    decreases |h|
  {
    if h != [] {
      var rest := h[1..];
      BlankSystem(rest);
      assert forall i | 0 <= i < |rest| :: rest[i] == h[i + 1];
      assert forall i | 0 < i < |h| :: h[i] == rest[i - 1];
    }
  }

  lemma SystemFirst(lib: Lib, h: seq<Message>)
    requires h != [] && h[0].role == "system"
    ensures forall s :: Steps(lib, s, h) == Steps(lib, s, h[1..])
  {
  }

  lemma AlonePlain(lib: Lib, h: seq<Message>)
    requires lib.Lawful() && AllCount(false, h)
    ensures Images(lib, h) == h <==> forall i | 0 <= i < |h| :: Plain(lib, h[i])
  {
    AllCountSpec(false, h);
    hide Plain, Image;
    forall i | 0 <= i < |h| ensures Image(lib, h[i]) == h[i] <==> Plain(lib, h[i]) {
      assert CountsAt(false, h, i);
      ImageSame(lib, h[i]);
    }
    if Images(lib, h) == h {
      forall i | 0 <= i < |h| ensures Plain(lib, h[i]) {
        assert Images(lib, h)[i] == Image(lib, h[i]);
      }
    }
  }

  lemma TextlessCounts(lib: Lib, h: seq<Message>)
    requires forall i | 0 <= i < |h| :: Plain(lib, h[i])
    ensures AllCount(false, h) <==> forall i | 0 < i < |h| :: Textless(h[i]) ==> h[i - 1].role != "assistant"
  {
    AllCountSpec(false, h);
    forall i | 0 <= i < |h| ensures CountsAt(false, h, i) <==> i == 0 || (Textless(h[i]) ==> h[i - 1].role != "assistant") {
      assert Plain(lib, h[i]);
    }
  }

  /** Without system messages: the history comes back unchanged iff it is in normal form. */
  lemma PlainIdentity(lib: Lib, h: seq<Message>, system: seq<Message>)
    requires lib.Lawful()
    ensures Steps(lib, Start(system), h).Flush().msgs == system + h <==>
      (forall i | 0 <= i < |h| :: Plain(lib, h[i]))
      && (forall i | 0 < i < |h| :: Textless(h[i]) ==> h[i - 1].role != "assistant")
  {
    StepsSeen(lib, Start(system), h);
    assert Seen(Start(system)) == system;
    if AllCount(false, h) {
      AlonePlain(lib, h);
      if Seen(Steps(lib, Start(system), h)) == system + h {
        assert (system + Images(lib, h))[|system|..] == Images(lib, h) && (system + h)[|system|..] == h;
      }
    }
    if forall i | 0 <= i < |h| :: Plain(lib, h[i]) {
      TextlessCounts(lib, h);
    } else {
      hide Plain, AllCount;
    }
  }

  /** A history of text messages comes back unchanged exactly when it is in normal form. */
  lemma RoundTripIdentity(lib: Lib, h: seq<Message>)
    requires lib.Lawful()
    ensures ParseRequest(lib, Instructions(h), Arr(RenderAll(h))) == Ok(h) <==> NormalForm(lib, h)
  {
    hide Plain, ParseRequest, RenderAll, Steps, NormalForm, Instructions;
    ParseRendered(lib, h);
    if Instructions(h) == "" {
      NoInstructions(lib, h);
    } else {
      StartsWithSystem(lib, h);
      if h != [] && h[0].role == "system" {
        SystemIdentity(lib, h);
      }
    }
  }

  lemma NoInstructions(lib: Lib, h: seq<Message>)
    requires lib.Lawful() && Instructions(h) == ""
    ensures Canon(lib, h) == h <==> NormalForm(lib, h)
  {
    hide Plain, Steps, SystemTexts;
    BlankSystem(h);
    PlainIdentity(lib, h, []);
    assert [] + h == h;
    hide Instructions;
    assert forall i | 0 <= i < |h| :: PlainSystem(h[i]) ==> false;
  }

  /** The joined system text stands in front, so the history must start with it. */
  lemma StartsWithSystem(lib: Lib, h: seq<Message>)
    requires Instructions(h) != ""
    ensures Canon(lib, h) != [] && Canon(lib, h)[0].role == "system"
    ensures NormalForm(lib, h) ==> h != [] && h[0].role == "system"
  {
    var first := Message("system", Instructions(h), [], "");
    KeepsFront(lib, Start([first]), h);
    BlankSystem(h);
    var i :| 0 <= i < |h| && h[i].role == "system" && !Blank(h[i].text);
    assert !Plain(lib, h[i]);
  }

  lemma {:induction false} KeepsFront(lib: Lib, s: State, h: seq<Message>)
    requires s.msgs != []
    ensures Steps(lib, s, h).Flush().msgs != [] && Steps(lib, s, h).Flush().msgs[0] == s.msgs[0]
    decreases |h|
  {
    if h != [] {
      assert Step(lib, s, h[0]).msgs != [] && Step(lib, s, h[0]).msgs[0] == s.msgs[0];
      KeepsFront(lib, Step(lib, s, h[0]), h[1..]);
    }
  }

  predicate PlainRun(lib: Lib, h: seq<Message>) {
    && (forall i | 0 <= i < |h| :: Plain(lib, h[i]))
    && (forall i | 0 < i < |h| :: Textless(h[i]) ==> h[i - 1].role != "assistant")
  }

  lemma NormalBehindSystem(lib: Lib, h: seq<Message>)
    requires h != [] && h[0].role == "system"
    ensures NormalForm(lib, h) <==> PlainSystem(h[0]) && PlainRun(lib, h[1..])
  {
    var rest := h[1..];
    assert !Plain(lib, h[0]);
    hide PlainSystem, Plain;
    assert forall i | 0 <= i < |rest| :: rest[i] == h[i + 1];
    assert forall i | 0 < i < |h| :: h[i] == rest[i - 1];
  }

  lemma SystemIdentity(lib: Lib, h: seq<Message>)
    requires lib.Lawful() && Instructions(h) != "" && h != [] && h[0].role == "system"
    ensures Canon(lib, h) == h <==> NormalForm(lib, h)
  {
    var first, rest := Message("system", Instructions(h), [], ""), h[1..];
    SystemFirst(lib, h);
    PlainIdentity(lib, rest, [first]);
    assert PlainRun(lib, rest) <==> Steps(lib, Start([first]), rest).Flush().msgs == [first] + rest;
    NormalBehindSystem(lib, h);
    KeepsFront(lib, Start([first]), h);
    assert h == [h[0]] + rest;
    if PlainRun(lib, rest) {
      OnlyFirstSystem(lib, h);
    }
    hide Steps, PlainRun, NormalForm, SystemTexts;
  }

  lemma OnlyFirstSystem(lib: Lib, h: seq<Message>)
    requires h != [] && h[0].role == "system" && PlainRun(lib, h[1..]) && Instructions(h) != ""
    ensures !Blank(h[0].text) && Instructions(h) == h[0].text
  {
    assert forall i | 0 <= i < |h[1..]| :: Plain(lib, h[1..][i]);
    NoSystem(h[1..]);
    assert SystemTexts(h) == if Blank(h[0].text) then [] else [h[0].text];
  }

  // ---------- The order of what was said ----------

  datatype Entry = Said(text: string) | Called(call: Call) | Returned(id: string, text: string) | Other(role: string, text: string)

  function CallEntries(calls: seq<Call>): seq<Entry> {
    seq(|calls|, i requires 0 <= i < |calls| => Called(calls[i]))
  }

  function Entries(m: Message): seq<Entry> {
    if m.role == "tool" then [Returned(m.toolCallId, m.text)]
    else if m.role == "assistant" then (if m.text != "" then [Said(m.text)] else []) + CallEntries(m.calls)
    else [Other(m.role, m.text)]
  }

  function Flatten(h: seq<Message>): seq<Entry> {
    if h == [] then [] else Entries(h[0]) + Flatten(h[1..])
  }

  /** What a message is sent as: system messages go to the instructions, other roles are normalized. */
  function Sent(m: Message): seq<Entry> {
    if m.role == "system" then [] else Entries(m.(role := OtherRole(m.role)))
  }

  function SentAll(h: seq<Message>): seq<Entry> {
    if h == [] then [] else Sent(h[0]) + SentAll(h[1..])
  }

  /** The instructions, if there are any, come first. */
  function Opening(h: seq<Message>): seq<Entry> {
    if Instructions(h) != "" then [Other("system", Instructions(h))] else []
  }

  /** Text is empty or not blank (and not empty for users), arguments are trimmed valid JSON. */
  predicate CleanText(lib: Lib, m: Message) {
    if m.role == "tool" then m.text == "" || !Blank(m.text)
    else if m.role == "assistant" then
      (m.text == "" || !Blank(m.text)) && (forall c <- m.calls :: c.args != "" && Trimmed(c.args) && lib.valid(c.args))
    else m.role == "system" || m.text != ""
  }

  predicate AllClean(lib: Lib, h: seq<Message>) {
    forall i | 0 <= i < |h| :: CleanText(lib, h[i])
  }

  lemma {:induction false} FlattenConcat(x: seq<Message>, y: seq<Message>)
    ensures Flatten(x + y) == Flatten(x) + Flatten(y)
    decreases |x|
  {
    if x == [] {
      assert x + y == y;
    } else {
      assert (x + y)[1..] == x[1..] + y;
      FlattenConcat(x[1..], y);
    }
  }

  lemma FlattenOne(m: Message)
    ensures Flatten([m]) == Entries(m)
  {
    assert Flatten([m][1..]) == [];
  }

  lemma SentCons(h: seq<Message>)
    requires h != []
    ensures SentAll(h) == Sent(h[0]) + SentAll(h[1..])
  {
  }

  /** A message that counts appends its entries; a merged one appends its calls. */
  lemma StepFlat(lib: Lib, s: State, m: Message)
    requires lib.Lawful() && Tidy(s) && CleanText(lib, m)
    ensures Flatten(Seen(Step(lib, s, m))) == Flatten(Seen(s)) + Sent(m)
  {
    StepSeen(lib, s, m);
    if m.role == "assistant" {
      FixCallsSame(lib, m.calls);
    }
    if Counts(s, m) {
      FlattenConcat(Seen(s), [Image(lib, m)]);
      FlattenOne(Image(lib, m));
      assert Entries(Image(lib, m)) == Sent(m);
    } else if m.role == "assistant" {
      MergeFlat(lib, s, m);
    } else {
      assert Flatten(Seen(s)) + [] == Flatten(Seen(s));
    }
  }

  lemma MergeFlat(lib: Lib, s: State, m: Message)
    requires m.role == "assistant" && m.text == "" && FixCalls(lib, m.calls) == m.calls
    requires m.calls == [] || Pending(s)
    ensures Flatten(Seen(Step(lib, s, m))) == Flatten(Seen(s)) + Sent(m)
  {
    hide Flatten, Entries, CallEntries, FixCalls;
    MergedStep(lib, s, m);
    hide Step;
    if Pending(s) {
      MoreSeen(s, m.calls);
    } else {
      Regroup(s.pendTools, [], []);
      NoCallEntries(m.calls);
      assert s.(pendTools := s.pendTools + []) == s;
      Regroup(Flatten(Seen(s)), [], []);
    }
  }

  /** A text-less assistant message only adds its calls, sent one by one. */
  lemma MergedStep(lib: Lib, s: State, m: Message)
    requires m.role == "assistant" && m.text == "" && FixCalls(lib, m.calls) == m.calls
    ensures Step(lib, s, m) == s.(pendTools := s.pendTools + m.calls)
    ensures Sent(m) == CallEntries(m.calls)
  {
    hide CallEntries, FixCalls;
    AssistantEntries("", m.calls);
    assert m.(role := OtherRole(m.role)) == m;
    assert Entries(m) == [] + CallEntries(m.calls);
    Regroup([], [], CallEntries(m.calls));
  }

  /** More calls of the pending message come last. */
  lemma MoreSeen(s: State, more: seq<Call>)
    requires Pending(s)
    ensures Flatten(Seen(s.(pendTools := s.pendTools + more))) == Flatten(Seen(s)) + CallEntries(more)
  {
    hide Flatten, Entries, CallEntries;
    var a, b := Message("assistant", s.pendText, s.pendTools, ""), Message("assistant", s.pendText, s.pendTools + more, "");
    assert Seen(s) == s.msgs + [a] && Seen(s.(pendTools := s.pendTools + more)) == s.msgs + [b];
    hide Seen;
    MoreCalls(s.pendText, s.pendTools, more);
    FlattenConcat(s.msgs, [a]);
    FlattenConcat(s.msgs, [b]);
    FlattenOne(a);
    FlattenOne(b);
    Regroup(Flatten(s.msgs), Entries(a), CallEntries(more));
  }

  lemma NoCallEntries(calls: seq<Call>)
    requires calls == []
    ensures CallEntries(calls) == []
  {
  }

  lemma AssistantEntries(text: string, calls: seq<Call>)
    ensures Entries(Message("assistant", text, calls, "")) == (if text != "" then [Said(text)] else []) + CallEntries(calls)
  {
  }

  lemma CallEntriesConcat(x: seq<Call>, y: seq<Call>)
    ensures CallEntries(x + y) == CallEntries(x) + CallEntries(y)
  {
  }

  lemma MoreCalls(text: string, calls: seq<Call>, more: seq<Call>)
    ensures Entries(Message("assistant", text, calls + more, ""))
         == Entries(Message("assistant", text, calls, "")) + CallEntries(more)
  {
    AssistantEntries(text, calls);
    AssistantEntries(text, calls + more);
    CallEntriesConcat(calls, more);
    Regroup(if text != "" then [Said(text)] else [], CallEntries(calls), CallEntries(more));
    hide Entries, CallEntries;
  }

  lemma {:induction false} StepsFlat(lib: Lib, s: State, h: seq<Message>)
    requires lib.Lawful() && Tidy(s) && AllClean(lib, h)
    ensures Flatten(Seen(Steps(lib, s, h))) == Flatten(Seen(s)) + SentAll(h)
    decreases |h|
  {
    if h != [] {
      StepSeen(lib, s, h[0]);
      StepFlat(lib, s, h[0]);
      SentCons(h);
      hide Step, Seen, CleanText, Sent, SentAll, Flatten;
      StepsFlat(lib, Step(lib, s, h[0]), h[1..]);
      Regroup(Flatten(Seen(s)), Sent(h[0]), SentAll(h[1..]));
    } else {
      assert Flatten(Seen(s)) + [] == Flatten(Seen(s));
    }
  }

  /** The canonical form of a clean history says the same in the same order. */
  lemma CanonFlat(lib: Lib, h: seq<Message>)
    requires lib.Lawful() && AllClean(lib, h)
    ensures Flatten(Canon(lib, h)) == Opening(h) + SentAll(h)
  {
    var instructions := Instructions(h);
    var first := Message("system", instructions, [], "");
    var system := if instructions != "" then [first] else [];
    FlattenOne(first);
    assert Flatten(system) == Opening(h);
    assert Seen(Start(system)) == system && Seen(Steps(lib, Start(system), h)) == Canon(lib, h);
    hide Flatten, Steps, CleanText, Canon, Instructions, Seen, Sent, SentAll;
    StepsFlat(lib, Start(system), h);
  }

  /** Clean histories keep every assistant text, call, tool result and other text in order, behind the
      instructions, even where assistant messages are dropped or merged. */
  lemma OrderKept(lib: Lib, h: seq<Message>)
    requires lib.Lawful() && AllClean(lib, h)
    ensures var back := ParseRequest(lib, Instructions(h), Arr(RenderAll(h)));
            back.Ok? && Flatten(back.value) == Opening(h) + SentAll(h)
  {
    hide *;
    ParseRendered(lib, h);
    CanonFlat(lib, h);
  }

  const WORDLESS := [Message("user", "", [], "")]

  /** An empty user text comes back as the JSON text of its content block. */
  lemma EmptyTextComesBackRaw(lib: Lib)
    ensures var back := ParseRequest(lib, Instructions(WORDLESS), Arr(RenderAll(WORDLESS)));
            && back == Ok([Message("user", lib.raw(TextBlock("input_text", "")), [], "")])
            && (lib.Lawful() ==> back != Ok(WORDLESS))
  {
    var h := WORDLESS;
    ParseRendered(lib, h);
    assert h[1..] == [];
    assert SystemTexts(h) == [];
    assert Instructions(h) == "";
    assert Steps(lib, Start([]), h) == Step(lib, Start([]), h[0]);
    assert Canon(lib, h) == [Message("user", lib.raw(TextBlock("input_text", "")), [], "")];
    if lib.Lawful() {
      RoundTripIdentity(lib, h);
      assert !Plain(lib, h[0]);
    }
  }
}
