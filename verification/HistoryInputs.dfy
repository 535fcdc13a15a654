/** What any input of a Responses request means: messages item by item, with runs of calls gathered. */
module HistoryInputs {
  import opened Text
  import opened History

  // ---------- Kinds of items ----------

  datatype Sort = Says(role: string) | Calls | Returns | Skipped

  /** A message by default, and of the user by default; developers speak as the system. */
  function SortOf(lib: Lib, it: Item): Sort {
    var kind := JsonText(lib, it.kind);
    if kind in ["message", ""] then
      var role := JsonText(lib, it.role);
      Says(if role == "" then "user" else if role == "developer" then "system" else role)
    else if kind in ["function_call", "custom_tool_call", "local_shell_call", "computer_call"] then Calls
    else if kind in ["function_call_output", "custom_tool_call_output", "local_shell_call_output"] then Returns
    else Skipped
  }

  /** The call of an item: arguments may come as arguments or as input, and are made JSON. */
  function CallOf(lib: Lib, it: Item): Call {
    var args := if JsonText(lib, it.args) != "" then JsonText(lib, it.args) else JsonText(lib, it.input);
    Call(JsonText(lib, it.callId), JsonText(lib, it.name), EnsureJSONArgs(lib, args))
  }

  predicate InRun(lib: Lib, it: Item) {
    SortOf(lib, it).Calls? || SortOf(lib, it).Skipped?
  }

  /** How many items from the front on are calls, or skipped. */
  function RunLength(lib: Lib, items: seq<Item>): (n: nat)
    ensures n <= |items| && (n < |items| ==> !InRun(lib, items[n])) && forall i | 0 <= i < n :: InRun(lib, items[i])
  {
    if items == [] || !InRun(lib, items[0]) then 0 else 1 + RunLength(lib, items[1..])
  }

  function CallsIn(lib: Lib, items: seq<Item>): seq<Call> {
    if items == [] then []
    else (if SortOf(lib, items[0]).Calls? then [CallOf(lib, items[0])] else []) + CallsIn(lib, items[1..])
  }

  /** The messages of some items: an assistant's message takes the calls that follow it, calls without one
      share a message of their own, and everything else is a message of its own. */
  function Grouped(lib: Lib, items: seq<Item>): seq<Message>
    decreases |items|
  {
    if items == [] then []
    else
      var it, rest := items[0], items[1..];
      match SortOf(lib, it)
      case Returns => [Message("tool", JsonText(lib, it.output), [], JsonText(lib, it.callId))] + Grouped(lib, rest)
      case Skipped => Grouped(lib, rest)
      case Calls =>
        var n := RunLength(lib, items);
        [Message("assistant", "", CallsIn(lib, items[..n]), "")] + Grouped(lib, items[n..])
      case Says(role) =>
        if role != "assistant" then [Message(role, JsonText(lib, it.content), [], "")] + Grouped(lib, rest)
        else
          var n := RunLength(lib, rest);
          [Message("assistant", JsonText(lib, it.content), CallsIn(lib, rest[..n]), "")] + Grouped(lib, rest[n..])
  }

  // ---------- The loop groups ----------

  /** What the loop makes of the items left, given what it has gathered. */
  function Outcome(lib: Lib, s: State, items: seq<Item>): seq<Message> {
    if !s.pendAssistant && s.pendTools == [] then s.msgs + Grouped(lib, items)
    else
      var n := RunLength(lib, items);
      s.msgs + [Message("assistant", s.pendText, s.pendTools + CallsIn(lib, items[..n]), "")] + Grouped(lib, items[n..])
  }

  lemma SameSort(lib: Lib, s: State, it: Item)
    ensures ParseItem(lib, s, it) ==
              match SortOf(lib, it)
              case Says(role) =>
                if role == "assistant" then s.Flush().(pendText := JsonText(lib, it.content), pendAssistant := true)
                else s.Flush().Add(Message(role, JsonText(lib, it.content), [], ""))
              case Calls => s.(pendTools := s.pendTools + [CallOf(lib, it)])
              case Returns => s.Flush().Add(Message("tool", JsonText(lib, it.output), [], JsonText(lib, it.callId)))
              case Skipped => s
  {
    hide JsonText, EnsureJSONArgs;
  }

  predicate Idle(s: State) {
    !s.pendAssistant && s.pendTools == []
  }

  lemma RunFirst(lib: Lib, items: seq<Item>)
    requires items != [] && InRun(lib, items[0])
    ensures var n := RunLength(lib, items);
            && n > 0 && n - 1 == RunLength(lib, items[1..]) && items[n..] == items[1..][n - 1..]
            && CallsIn(lib, items[..n])
               == (if SortOf(lib, items[0]).Calls? then [CallOf(lib, items[0])] else []) + CallsIn(lib, items[1..][..n - 1])
  {
    hide SortOf, CallOf;
    var n := RunLength(lib, items);
    assert items[..n][1..] == items[1..][..n - 1];
  }

  /** One item in front, while calls are being gathered. */
  lemma InRunStep(lib: Lib, s: State, items: seq<Item>)
    requires items != [] && InRun(lib, items[0]) && !Idle(s)
    ensures Outcome(lib, s, items) == Outcome(lib, ParseItem(lib, s, items[0]), items[1..])
  {
    hide SortOf, CallOf, Grouped, RunLength, CallsIn, ParseItem;
    SameSort(lib, s, items[0]);
    RunFirst(lib, items);
    var later := CallsIn(lib, items[1..][..RunLength(lib, items) - 1]);
    Regroup(s.pendTools, [CallOf(lib, items[0])], later);
    Regroup(s.pendTools, [], later);
  }

  /** The first of some calls that follow no message of the assistant. */
  lemma FirstCallStep(lib: Lib, s: State, items: seq<Item>)
    requires items != [] && SortOf(lib, items[0]).Calls? && Idle(s) && s.pendText == ""
    ensures Outcome(lib, s, items) == Outcome(lib, ParseItem(lib, s, items[0]), items[1..])
  {
    hide SortOf, CallOf, Grouped, RunLength, CallsIn, ParseItem;
    SameSort(lib, s, items[0]);
    RunFirst(lib, items);
    GroupedCalls(lib, items);
    var n, call := RunLength(lib, items), CallOf(lib, items[0]);
    var later := CallsIn(lib, items[1..][..n - 1]);
    assert s.pendTools + [call] == [call];
    assert ParseItem(lib, s, items[0]) == s.(pendTools := [call]);
    var m := Message("assistant", "", [call] + later, "");
    Regroup(s.msgs, [m], Grouped(lib, items[n..]));
  }

  lemma GroupedCalls(lib: Lib, items: seq<Item>)
    requires items != [] && SortOf(lib, items[0]).Calls?
    ensures var n := RunLength(lib, items);
            Grouped(lib, items) == [Message("assistant", "", CallsIn(lib, items[..n]), "")] + Grouped(lib, items[n..])
  {
    hide SortOf, CallsIn;
  }

  /** Any other item ends what is being gathered. */
  lemma OtherStep(lib: Lib, s: State, items: seq<Item>)
    requires items != [] && !InRun(lib, items[0])
    ensures Outcome(lib, s, items) == Outcome(lib, ParseItem(lib, s, items[0]), items[1..])
  {
    hide SortOf, RunLength, ParseItem, InRun;
    SameSort(lib, s, items[0]);
    StopsHere(lib, items);
    assert items[..0] == [] && items[0..] == items;
    var f := s.Flush();
    assert s.pendTools + [] == s.pendTools;
    var it, rest := items[0], items[1..];
    if SortOf(lib, it).Says? && SortOf(lib, it).role == "assistant" {
      var n := RunLength(lib, rest);
      Regroup([], [], CallsIn(lib, rest[..n]));
      Regroup(f.msgs, [Message("assistant", JsonText(lib, it.content), CallsIn(lib, rest[..n]), "")], Grouped(lib, rest[n..]));
    } else {
      var m := if SortOf(lib, it).Says? then Message(SortOf(lib, it).role, JsonText(lib, it.content), [], "")
               else Message("tool", JsonText(lib, it.output), [], JsonText(lib, it.callId));
      NeitherRunNorSkipped(lib, it);
      Regroup(f.msgs, [m], Grouped(lib, rest));
    }
  }

  lemma StopsHere(lib: Lib, items: seq<Item>)
    requires items != [] && !InRun(lib, items[0])
    ensures RunLength(lib, items) == 0
  {
  }

  lemma NeitherRunNorSkipped(lib: Lib, it: Item)
    requires !InRun(lib, it)
    ensures SortOf(lib, it).Says? || SortOf(lib, it).Returns?
  {
  }

  lemma SkippedStep(lib: Lib, items: seq<Item>)
    requires items != [] && SortOf(lib, items[0]).Skipped?
    ensures Grouped(lib, items) == Grouped(lib, items[1..])
  {
  }

  lemma {:induction false} LoopGroups(lib: Lib, s: State, items: seq<Item>)
    requires s.pendText == "" || s.pendAssistant
    ensures ParseItems(lib, s, items).Flush().msgs == Outcome(lib, s, items)
    decreases |items|
  {
    hide SortOf, ParseItem, CallsIn, RunLength, Outcome;
    if items == [] {
      NothingLeft(lib, s);
    } else {
      TextIsPending(lib, s, items[0]);
      LoopGroups(lib, ParseItem(lib, s, items[0]), items[1..]);
      if !InRun(lib, items[0]) {
        OtherStep(lib, s, items);
      } else if Idle(s) && SortOf(lib, items[0]).Skipped? {
        SkippedIdle(lib, s, items);
      } else if Idle(s) {
        FirstCallStep(lib, s, items);
      } else {
        InRunStep(lib, s, items);
      }
    }
  }

  lemma SkippedIdle(lib: Lib, s: State, items: seq<Item>)
    requires items != [] && Idle(s) && SortOf(lib, items[0]).Skipped?
    ensures Outcome(lib, s, items) == Outcome(lib, ParseItem(lib, s, items[0]), items[1..])
  {
    hide SortOf, ParseItem, Grouped;
    SameSort(lib, s, items[0]);
    SkippedStep(lib, items);
  }

  lemma NothingLeft(lib: Lib, s: State)
    ensures s.Flush().msgs == Outcome(lib, s, [])
  {
    var none: seq<Item> := [];
    assert none[..0] == [] && none[0..] == [];
    assert s.pendTools + [] == s.pendTools && s.msgs + [] == s.msgs;
    Regroup(s.msgs, [Message("assistant", s.pendText, s.pendTools, "")], []);
  }

  lemma TextIsPending(lib: Lib, s: State, it: Item)
    requires s.pendText == "" || s.pendAssistant
    ensures var s1 := ParseItem(lib, s, it); s1.pendText == "" || s1.pendAssistant
  {
    hide JsonText, EnsureJSONArgs;
  }

  // ---------- Whole requests ----------

  function System(instructions: string): seq<Message> {
    if instructions == "" then [] else [Message("system", instructions, [], "")]
  }

  /** Whatever a client sends as input: the instructions first, then its items in groups. */
  lemma EveryInput(lib: Lib, instructions: string, elems: seq<Json>)
    ensures ParseRequest(lib, instructions, Arr(elems)) == Ok(System(instructions) + Grouped(lib, ToItems(elems)))
  {
    hide ParseItems, Grouped, ToItems;
    LoopGroups(lib, Start(System(instructions)), ToItems(elems));
  }

  /** A text is short for one message of the user, an object for a list of one, and no input for an empty
      list; an empty text is no message, and numbers and truth values are refused. */
  lemma OtherInputs(lib: Lib, instructions: string, input: Json)
    ensures input.Obj? ==> ParseRequest(lib, instructions, input) == ParseRequest(lib, instructions, Arr([input]))
    ensures input.Str? && input.text != "" ==>
              && ParseRequest(lib, instructions, input) == ParseRequest(lib, instructions, Arr([input]))
              && ParseRequest(lib, instructions, input) == Ok(System(instructions) + [Message("user", input.text, [], "")])
    ensures input == Str("") || input == Null || input == Missing ==>
              ParseRequest(lib, instructions, input) == ParseRequest(lib, instructions, Arr([])) == Ok(System(instructions))
    ensures input.Scalar? <==> ParseRequest(lib, instructions, input) == Err
  {
    hide ParseItems, Grouped, ToItem;
    assert ToItems([input]) == [ToItem(input)];
    assert ToItems([]) == [];
    EveryInput(lib, instructions, []);
    EveryInput(lib, instructions, [input]);
    NoneGrouped(lib);
    assert System(instructions) + [] == System(instructions);
    if input.Str? {
      UserText(lib, input.text);
    }
  }

  lemma NoneGrouped(lib: Lib)
    ensures Grouped(lib, []) == []
  {
  }

  lemma UserText(lib: Lib, s: string)
    ensures Grouped(lib, [ToItem(Str(s))]) == [Message("user", s, [], "")]
  {
    var it := ToItem(Str(s));
    assert [it][1..] == [];
    assert SortOf(lib, it) == Says("user");
  }

  // ---------- Arguments ----------

  /** What reaches the upstream as arguments is always JSON, and nothing but space around it is lost: text
      that is JSON stays as it is, and any other becomes a JSON string. */
  lemma ArgsAreJson(lib: Lib, s: string)
    requires lib.Lawful()
    ensures lib.valid(EnsureJSONArgs(lib, s))
    ensures Blank(s) ==> EnsureJSONArgs(lib, s) == "{}"
    ensures !Blank(s) ==> EnsureJSONArgs(lib, s) == if lib.valid(Trim(s)) then Trim(s) else lib.quote(Trim(s))
  {
    TrimSpec(s);
  }

  // ---------- Instructions ----------

  /** The instructions of two stretches of a history are set apart by an empty line. */
  lemma {:induction false} InstructionsJoin(g: seq<Message>, h: seq<Message>)
    ensures Instructions(g + h) ==
              if Instructions(g) == "" then Instructions(h)
              else if Instructions(h) == "" then Instructions(g)
              else Instructions(g) + "\n\n" + Instructions(h)
  {
    hide Join, SystemTexts;
    SystemsConcat(g, h);
    TextsOfSystems(g);
    TextsOfSystems(h);
    JoinConcat(SystemTexts(g), SystemTexts(h));
  }

  lemma {:induction false} SystemsConcat(g: seq<Message>, h: seq<Message>)
    ensures SystemTexts(g + h) == SystemTexts(g) + SystemTexts(h)
  {
    hide SystemText;
    if g == [] {
      assert g + h == h;
    } else {
      assert (g + h)[1..] == g[1..] + h;
      SystemsConcat(g[1..], h);
      Regroup(SystemText(g[0]), SystemTexts(g[1..]), SystemTexts(h));
    }
  }

  lemma {:induction false} TextsOfSystems(h: seq<Message>)
    ensures forall i | 0 <= i < |SystemTexts(h)| :: SystemTexts(h)[i] != ""
    ensures Join(SystemTexts(h), "\n\n") == "" <==> SystemTexts(h) == []
  {
    hide Join;
    if h != [] {
      TextsOfSystems(h[1..]);
    }
    JoinNothing(SystemTexts(h));
  }

  lemma JoinNothing(parts: seq<string>)
    requires forall i | 0 <= i < |parts| :: parts[i] != ""
    ensures Join(parts, "\n\n") == "" <==> parts == []
  {
  }

  lemma {:induction false} JoinConcat(x: seq<string>, y: seq<string>)
    ensures Join(x + y, "\n\n") ==
              if x == [] then Join(y, "\n\n") else if y == [] then Join(x, "\n\n")
              else Join(x, "\n\n") + "\n\n" + Join(y, "\n\n")
    decreases |x|
  {
    if x == [] {
      assert x + y == y;
    } else if y == [] {
      assert x + y == x;
    } else {
      assert (x + y)[1..] == x[1..] + y;
      JoinConcat(x[1..], y);
      Regroup(x[0] + "\n\n", Join(x[1..], "\n\n") + "\n\n", Join(y, "\n\n"));
      Regroup(x[0] + "\n\n", Join(x[1..], "\n\n"), "\n\n");
    }
  }

  // ---------- Text of values ----------

  function Blocks(kind: string, texts: seq<string>): seq<Json> {
    seq(|texts|, i requires 0 <= i < |texts| => TextBlock(kind, texts[i]))
  }

  function Strings(texts: seq<string>): seq<Json> {
    seq(|texts|, i requires 0 <= i < |texts| => Str(texts[i]))
  }

  /** Content blocks and strings alike: the texts of a list are put on lines of their own. */
  lemma {:induction false} TextsJoined(lib: Lib, kind: string, texts: seq<string>)
    requires forall i | 0 <= i < |texts| :: texts[i] != ""
    ensures Texts(lib, Blocks(kind, texts)) == texts && Texts(lib, Strings(texts)) == texts && NonEmpty(texts) == texts
    ensures JsonText(lib, Arr(Blocks(kind, texts))) == JsonText(lib, Arr(Strings(texts))) == Join(texts, "\n")
    decreases |texts|
  {
    if texts != [] {
      TextsJoined(lib, kind, texts[1..]);
      assert Blocks(kind, texts)[1..] == Blocks(kind, texts[1..]);
      assert Strings(texts)[1..] == Strings(texts[1..]);
    }
  }
}
