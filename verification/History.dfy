/** The Responses request side: parsing input items into messages (gateway/responses.go), and
    rendering messages as input items (responsesup.ChatBody). */
module History {
  import opened Text

  // ---------- JSON values and messages ----------

  datatype Json =
    | Missing
    | Null
    | Str(text: string)
    | Arr(elems: seq<Json>)
    | Obj(fields: map<string, Json>)
    | Scalar(raw: string)

  /** What the JSON library provides: validity, string encoding, and the text of a value. */
  datatype Lib = Lib(valid: string -> bool, quote: string -> string, raw: Json -> string)
  {
    /** An encoded string is non-empty valid JSON with no space around it, {} is valid, and no
        value prints empty. */
    ghost predicate Lawful() {
      && (forall s :: quote(s) != "" && valid(quote(s)) && Trimmed(quote(s)))
      && valid("{}")
      && (forall j :: raw(j) != "")
    }
  }

  datatype Call = Call(id: string, name: string, args: string)

  datatype Message = Message(role: string, text: string, calls: seq<Call>, toolCallId: string)

  datatype Result<+T> = Ok(value: T) | Err

  function Join(parts: seq<string>, sep: string): string {
    if parts == [] then ""
    else if |parts| == 1 then parts[0]
    else parts[0] + sep + Join(parts[1..], sep)
  }

  function NonEmpty(parts: seq<string>): seq<string> {
    if parts == [] then []
    else (if parts[0] != "" then [parts[0]] else []) + NonEmpty(parts[1..])
  }

  /** The text a client meant, whatever JSON type it used. */
  function JsonText(lib: Lib, j: Json): string {
    match j
    case Missing => ""
    case Null => ""
    case Str(s) => s
    case Arr(elems) => Join(NonEmpty(Texts(lib, elems)), "\n")
    case Obj(fields) =>
      if "text" in fields && fields["text"].Str? && fields["text"].text != "" then fields["text"].text else lib.raw(j)
    case Scalar(raw) => raw
  }

  function Texts(lib: Lib, elems: seq<Json>): seq<string> {
    if elems == [] then [] else [JsonText(lib, elems[0])] + Texts(lib, elems[1..])
  }

  /** Tool arguments must be JSON text: keep it if it is, encode it if not, {} if there is none. */
  function EnsureJSONArgs(lib: Lib, s: string): string {
    var t := Trim(s);
    if t == "" then "{}" else if lib.valid(t) then t else lib.quote(t)
  }

  /** Arguments pass unchanged exactly when they are trimmed, non-empty, valid JSON. */
  lemma ArgsUnchanged(lib: Lib, s: string)
    requires lib.Lawful()
    ensures EnsureJSONArgs(lib, s) == s <==> s != "" && Trimmed(s) && lib.valid(s)
    ensures EnsureJSONArgs(lib, EnsureJSONArgs(lib, s)) == EnsureJSONArgs(lib, s)
  {
    TrimSpec(s);
    var t := Trim(s);
    TrimSpec(t);
    TrimSpec(lib.quote(t));
    TrimSpec("{}");
  }

  // ---------- Items to messages ----------

  datatype Item = Item(kind: Json, role: Json, content: Json, callId: Json,
                       name: Json, args: Json, output: Json, input: Json)

  const NO_ITEM := Item(Missing, Missing, Missing, Missing, Missing, Missing, Missing, Missing)

  function Field(fields: map<string, Json>, name: string): Json {
    if name in fields then fields[name] else Missing
  }

  /** Objects are read field by field, a bare string is a user message, and anything else
      leaves an item without fields. */
  function ToItem(elem: Json): Item {
    match elem
    case Obj(f) =>
      Item(Field(f, "type"), Field(f, "role"), Field(f, "content"), Field(f, "call_id"),
           Field(f, "name"), Field(f, "arguments"), Field(f, "output"), Field(f, "input"))
    case Str(s) => NO_ITEM.(kind := Str("message"), role := Str("user"), content := Str(s))
    case _ => NO_ITEM
  }

  function ToItems(elems: seq<Json>): seq<Item> {
    seq(|elems|, i requires 0 <= i < |elems| => ToItem(elems[i]))
  }

  function NormalizeRole(role: string): string {
    if role == "developer" then "system" else role
  }

  /** Messages so far, and the assistant message still being gathered. */
  datatype State = State(msgs: seq<Message>, pendText: string, pendAssistant: bool, pendTools: seq<Call>)
  {
    function Flush(): State {
      if !pendAssistant && pendTools == [] then this
      else State(msgs + [Message("assistant", pendText, pendTools, "")], "", false, [])
    }

    function Add(m: Message): State {
      this.(msgs := msgs + [m])
    }
  }

  const CALL_KINDS := {"function_call", "custom_tool_call", "local_shell_call", "computer_call"}
  const OUTPUT_KINDS := {"function_call_output", "custom_tool_call_output", "local_shell_call_output"}

  function CallFrom(lib: Lib, it: Item): Call {
    var args := JsonText(lib, it.args);
    Call(JsonText(lib, it.callId), JsonText(lib, it.name),
         EnsureJSONArgs(lib, if args == "" then JsonText(lib, it.input) else args))
  }

  function ParseItem(lib: Lib, s: State, it: Item): State {
    var kind := JsonText(lib, it.kind);
    if kind == "message" || kind == "" then
      var named := NormalizeRole(JsonText(lib, it.role));
      var role := if named == "" then "user" else named;
      var text := JsonText(lib, it.content);
      if role == "assistant" then s.Flush().(pendText := text, pendAssistant := true)
      else s.Flush().Add(Message(role, text, [], ""))
    else if kind in CALL_KINDS then s.(pendTools := s.pendTools + [CallFrom(lib, it)])
    else if kind in OUTPUT_KINDS then
      s.Flush().Add(Message("tool", JsonText(lib, it.output), [], JsonText(lib, it.callId)))
    else s
  }

  function ParseItems(lib: Lib, s: State, items: seq<Item>): State
    decreases |items|
  {
    if items == [] then s else ParseItems(lib, ParseItem(lib, s, items[0]), items[1..])
  }

  function Start(msgs: seq<Message>): State {
    State(msgs, "", false, [])
  }

  function ParseRequest(lib: Lib, instructions: string, input: Json): Result<seq<Message>> {
    var system := if instructions != "" then [Message("system", instructions, [], "")] else [];
    match input
    case Str(s) => Ok(system + if s != "" then [Message("user", s, [], "")] else [])
    case Arr(elems) => Ok(ParseItems(lib, Start(system), ToItems(elems)).Flush().msgs)
    case Obj(_) => Ok(ParseItems(lib, Start(system), [ToItem(input)]).Flush().msgs)
    case Missing => Ok(system)
    case Null => Ok(system)
    case Scalar(_) => Err
  }

  /** parseResponsesRequest's loop over the items, with its pending assistant message. */
  method ParseInput(lib: Lib, system: seq<Message>, items: seq<Item>) returns (msgs: seq<Message>)
    ensures msgs == ParseItems(lib, Start(system), items).Flush().msgs
  {
    msgs := system;
    var pendText, pendAssistant := "", false;
    var pendTools: seq<Call> := [];
    assert items[0..] == items;
    for i := 0 to |items|
      invariant ParseItems(lib, State(msgs, pendText, pendAssistant, pendTools), items[i..])
             == ParseItems(lib, Start(system), items)
    {
      var it := items[i];
      assert items[i..][1..] == items[i + 1..];
      var kind := JsonText(lib, it.kind);
      if kind == "message" || kind == "" {
        var role := NormalizeRole(JsonText(lib, it.role));
        if role == "" {
          role := "user";
        }
        msgs, pendText, pendAssistant, pendTools := FlushAssistant(msgs, pendText, pendAssistant, pendTools);
        if role == "assistant" {
          pendText, pendAssistant := JsonText(lib, it.content), true;
        } else {
          msgs := msgs + [Message(role, JsonText(lib, it.content), [], "")];
        }
      } else if kind in CALL_KINDS {
        var args := JsonText(lib, it.args);
        if args == "" {
          args := JsonText(lib, it.input);
        }
        pendTools := pendTools + [Call(JsonText(lib, it.callId), JsonText(lib, it.name), EnsureJSONArgs(lib, args))];
      } else if kind in OUTPUT_KINDS {
        msgs, pendText, pendAssistant, pendTools := FlushAssistant(msgs, pendText, pendAssistant, pendTools);
        msgs := msgs + [Message("tool", JsonText(lib, it.output), [], JsonText(lib, it.callId))];
      }
    }
    msgs, pendText, pendAssistant, pendTools := FlushAssistant(msgs, pendText, pendAssistant, pendTools);
  }

  method FlushAssistant(msgs: seq<Message>, text: string, assistant: bool, tools: seq<Call>)
    returns (msgs': seq<Message>, text': string, assistant': bool, tools': seq<Call>)
    ensures State(msgs', text', assistant', tools') == State(msgs, text, assistant, tools).Flush()
  {
    if !assistant && tools == [] {
      return msgs, text, assistant, tools;
    }
    return msgs + [Message("assistant", text, tools, "")], "", false, [];
  }

  // ---------- Messages to items ----------

  function TextBlock(kind: string, text: string): Json {
    Obj(map["type" := Str(kind), "text" := Str(text)])
  }

  /** The text of a message without content blocks: blank text counts as none. */
  function TextOf(m: Message): string {
    if Blank(m.text) then "" else m.text
  }

  function RenderCall(c: Call): Json {
    Obj(map["type" := Str("function_call"), "call_id" := Str(c.id), "name" := Str(c.name), "arguments" := Str(c.args)])
  }

  function RenderCalls(calls: seq<Call>): seq<Json> {
    seq(|calls|, i requires 0 <= i < |calls| => RenderCall(calls[i]))
  }

  function RenderText(role: string, kind: string, text: string): Json {
    Obj(map["type" := Str("message"), "role" := Str(role), "content" := Arr([TextBlock(kind, text)])])
  }

  /** The input items of one message; system messages go to the instructions instead. */
  function Render(m: Message): seq<Json> {
    if m.role == "system" then []
    else if m.role == "tool" then
      [Obj(map["type" := Str("function_call_output"), "call_id" := Str(m.toolCallId), "output" := Str(TextOf(m))])]
    else if m.role == "assistant" then
      (if TextOf(m) != "" then [RenderText("assistant", "output_text", TextOf(m))] else []) + RenderCalls(m.calls)
    else
      [RenderText(if m.role == "" then "user" else m.role, "input_text", m.text)]
  }

  function RenderAll(h: seq<Message>): seq<Json> {
    if h == [] then [] else Render(h[0]) + RenderAll(h[1..])
  }

  /** What one message adds to the instructions. */
  function SystemText(m: Message): seq<string> {
    if m.role == "system" && !Blank(m.text) then [m.text] else []
  }

  function SystemTexts(h: seq<Message>): seq<string> {
    if h == [] then [] else SystemText(h[0]) + SystemTexts(h[1..])
  }

  function Instructions(h: seq<Message>): string {
    Join(SystemTexts(h), "\n\n")
  }

  /** ChatBody's branches for one message. */
  method RenderMessage(m: Message) returns (items: seq<Json>)
    requires m.role != "system"
    ensures items == Render(m)
  {
    items := [];
    if m.role == "tool" {
      return [Obj(map["type" := Str("function_call_output"), "call_id" := Str(m.toolCallId), "output" := Str(TextOf(m))])];
    } else if m.role == "assistant" {
      var text := TextOf(m);
      if text != "" {
        items := [RenderText("assistant", "output_text", text)];
      }
      items := items + RenderCalls(m.calls);
    } else {
      var role := if m.role == "" then "user" else m.role;
      items := [RenderText(role, "input_text", m.text)];
    }
  }

  lemma FromHere(h: seq<Message>, i: nat)
    requires i < |h|
    ensures RenderAll(h[i..]) == Render(h[i]) + RenderAll(h[i + 1..])
    ensures SystemTexts(h[i..]) == SystemText(h[i]) + SystemTexts(h[i + 1..])
  {
    hide Render, Blank;
    assert h[i..][1..] == h[i + 1..];
  }

  /** ChatBody's loop over the messages. */
  method ChatBody(h: seq<Message>) returns (instructions: string, input: Json)
    ensures instructions == Instructions(h) && input == Arr(RenderAll(h))
  {
    var system: seq<string> := [];
    var items: seq<Json> := [];
    assert h[0..] == h;
    Regroup(system, system, SystemTexts(h));
    Regroup(items, items, RenderAll(h));
    for i := 0 to |h|
      invariant system + SystemTexts(h[i..]) == SystemTexts(h)
      invariant items + RenderAll(h[i..]) == RenderAll(h)
    {
      hide SystemTexts, RenderAll, Blank;
      FromHere(h, i);
      if h[i].role == "system" {
        assert Render(h[i]) == [];
        Regroup(items, [], RenderAll(h[i + 1..]));
        if !Blank(h[i].text) {
          Regroup(system, [h[i].text], SystemTexts(h[i + 1..]));
          system := system + [h[i].text];
        } else {
          Regroup(system, [], SystemTexts(h[i + 1..]));
        }
      } else {
        hide Render;
        var more := RenderMessage(h[i]);
        Regroup(system, [], SystemTexts(h[i + 1..]));
        Regroup(items, more, RenderAll(h[i + 1..]));
        items := items + more;
      }
    }
    assert h[|h|..] == [];
    Regroup(system, [], []);
    Regroup(items, [], []);
    return Join(system, "\n\n"), Arr(items);
  }
}
