/** The Anthropic messages stream: gateway encoder and upstream parser. */
module Anthropic {
  import opened Text
  import opened Envelope

  // ---------- Wire format ----------

  datatype BlockKind = Thinking | TextBlock | ToolUse

  /** Token counts that a frame leaves out read as 0. */
  datatype Frame =
    | MsgStart(model: string, input: int, cacheRead: int, cacheCreate: int)
    | BlockStart(index: int, kind: BlockKind, id: string, name: string)
    | ThinkingDelta(index: int, text: string)
    | TextDelta(index: int, text: string)
    | InputJsonDelta(index: int, json: string)
    | BlockStop(index: int)
    | MsgDelta(stopReason: string, input: int, output: int, cacheRead: int, cacheCreate: int)
    | MsgStop

  // ---------- Envelope to frames (gateway/anthropic.go) ----------

  /** think and text are the index of the open block of that kind, -1 if there is none. */
  datatype Enc = Enc(model: string, think: int, text: int, next: int,
                     toolBlocks: map<string, int>, tools: Tracker, inputTokens: int)

  function NewEnc(model: string, spare: string): Enc {
    Enc(model, -1, -1, 0, map[], NewTracker(spare), 0)
  }

  function MapStopReason(reason: string): string {
    if reason == "tool_calls" then "tool_use"
    else if reason == "length" then "max_tokens"
    else if reason == "content_filter" then "refusal"
    else "end_turn"
  }

  /** The envelope counts cache reads and writes inside input; Anthropic counts them apart. */
  function InputTokens(u: Usage): int {
    var rest := u.input - u.cached - u.write;
    if rest < 0 then 0 else rest
  }

  function Positive(n: int): int {
    if n > 0 then n else 0
  }

  /** The members of vals from lo up to hi, in ascending order. */
  function Ascending(vals: set<int>, lo: int, hi: int): seq<int>
    decreases hi - lo
  {
    if lo >= hi then [] else (if lo in vals then [lo] else []) + Ascending(vals, lo + 1, hi)
  }

  /** Tool blocks hold distinct indices below next, so sorting the map's values lists exactly these. */
  function SortedBlocks(s: Enc): seq<int> {
    Ascending(s.toolBlocks.Values, 0, s.next)
  }

  function Stops(blocks: seq<int>): seq<Frame> {
    seq(|blocks|, i requires 0 <= i < |blocks| => BlockStop(blocks[i]))
  }

  function StopIfOpen(block: int): seq<Frame> {
    if block >= 0 then [BlockStop(block)] else []
  }

  function CloseThinking(s: Enc): Enc {
    if s.think >= 0 then s.(think := -1) else s
  }

  function OpenThinking(s: Enc): (Enc, seq<Frame>) {
    if s.think < 0 then (s.(think := s.next, next := s.next + 1), [BlockStart(s.next, Thinking, "", "")])
    else (s, [])
  }

  function OpenText(s: Enc): (Enc, seq<Frame>) {
    if s.text < 0 then (s.(text := s.next, next := s.next + 1), [BlockStart(s.next, TextBlock, "", "")])
    else (s, [])
  }

  /** Opens the call's block on its first delta. s.tools has already resolved the call. */
  function OpenTool(s: Enc): (Enc, seq<Frame>) {
    var id := s.tools.lastId;
    if id in s.toolBlocks then (s, [])
    else
      (s.(toolBlocks := s.toolBlocks[id := s.next], next := s.next + 1),
       [BlockStart(s.next, ToolUse, id, s.tools.lastName)])
  }

  function FinishDelta(s: Enc, reason: string, usage: Option<Usage>): Frame {
    if usage.None? then MsgDelta(MapStopReason(reason), s.inputTokens, 0, 0, 0)
    else
      var u := usage.value;
      MsgDelta(MapStopReason(reason), InputTokens(u), u.output, Positive(u.cached), Positive(u.write))
  }

  function Encode(s: Enc, ev: Event): (Enc, seq<Frame>) {
    match ev
    case MessageStart(model) => (s.(model := model), [MsgStart(model, s.inputTokens, 0, 0)])
    case ContentDelta(text, true) =>
      var (s1, open) := OpenThinking(s);
      (s1, open + [ThinkingDelta(s1.think, text)])
    case ContentDelta(text, false) =>
      var close := StopIfOpen(s.think);
      var (s1, open) := OpenText(CloseThinking(s));
      (s1, close + open + [TextDelta(s1.text, text)])
    case ToolCallDelta(id, name, args) =>
      var (s1, open) := OpenTool(s.(tools := s.tools.Resolve(id, name)));
      (s1, open + if args != "" then [InputJsonDelta(s1.toolBlocks[s1.tools.lastId], args)] else [])
    case MessageFinish(reason, usage) =>
      (CloseThinking(s),
       StopIfOpen(s.think) + StopIfOpen(s.text) + Stops(SortedBlocks(s))
       + [FinishDelta(s, reason, usage), MsgStop])
    case TaskFailed(_, _) => (s, [])
  }

  class SSEState {
    var model: string
    var thinkBlock: int
    var textBlock: int
    var nextBlock: int
    var toolBlocks: map<string, int>
    const tools: ToolCallTracker
    const inputTokens: int

    ghost function State(): Enc
      reads this, tools
    {
      Enc(model, thinkBlock, textBlock, nextBlock, toolBlocks, tools.State(), inputTokens)
    }

    constructor (model: string, spare: string)
      ensures State() == NewEnc(model, spare) && fresh(tools)
    {
      this.model := model;
      thinkBlock, textBlock, nextBlock, toolBlocks := -1, -1, 0, map[];
      tools := new ToolCallTracker(spare);
      inputTokens := 0;
    }

    /** Opens a thinking block if there is none, and adds to it. */
    method ThinkingText(text: string) returns (out: seq<Frame>)
      modifies this
      ensures (State(), out) == Encode(old(State()), ContentDelta(text, true))
    {
      ghost var before := State();
      out := [];
      if thinkBlock < 0 {
        thinkBlock := nextBlock;
        nextBlock := nextBlock + 1;
        out := out + [BlockStart(thinkBlock, Thinking, "", "")];
      }
      out := out + [ThinkingDelta(thinkBlock, text)];
      assert out == Encode(before, ContentDelta(text, true)).1;
    }

    method ToolDelta(eventId: string, eventName: string, args: string) returns (out: seq<Frame>)
      modifies this, tools
      ensures (State(), out) == Encode(old(State()), ToolCallDelta(eventId, eventName, args))
    {
      ghost var before := State();
      var id, name := tools.Resolve(eventId, eventName);
      out := [];
      if id !in toolBlocks {
        out := [BlockStart(nextBlock, ToolUse, id, name)];
        toolBlocks := toolBlocks[id := nextBlock];
        nextBlock := nextBlock + 1;
      }
      if args != "" {
        out := out + [InputJsonDelta(toolBlocks[id], args)];
      }
      assert out == Encode(before, ToolCallDelta(eventId, eventName, args)).1;
    }

    method StopTools() returns (out: seq<Frame>)
      ensures out == Stops(SortedBlocks(State()))
    {
      out := [];
      var sorted := Ascending(toolBlocks.Values, 0, nextBlock);
      for i := 0 to |sorted|
        invariant out == Stops(sorted[..i])
      {
        assert Stops(sorted[..i + 1]) == Stops(sorted[..i]) + [BlockStop(sorted[i])];
        out := out + [BlockStop(sorted[i])];
      }
      assert sorted[..|sorted|] == sorted;
    }

    method FinalDelta(reason: string, u: Option<Usage>) returns (delta: Frame)
      ensures delta == FinishDelta(State(), reason, u)
    {
      var input, output, cacheRead, cacheCreate := inputTokens, 0, 0, 0;
      if u.Some? {
        input, output := InputTokens(u.value), u.value.output;
        if u.value.cached > 0 {
          cacheRead := u.value.cached;
        }
        if u.value.write > 0 {
          cacheCreate := u.value.write;
        }
      }
      delta := MsgDelta(MapStopReason(reason), input, output, cacheRead, cacheCreate);
    }

    method Close(reason: string, usage: Option<Usage>) returns (out: seq<Frame>)
      modifies this
      ensures (State(), out) == Encode(old(State()), MessageFinish(reason, usage))
    {
      hide FinishDelta, SortedBlocks, Stops;
      ghost var before := State();
      var stops := StopTools();
      var delta := FinalDelta(reason, usage);
      out := [];
      if thinkBlock >= 0 {
        out := out + [BlockStop(thinkBlock)];
        thinkBlock := -1;
      }
      if textBlock >= 0 {
        out := out + [BlockStop(textBlock)];
      }
      assert out == StopIfOpen(before.think) + StopIfOpen(before.text);
      out := out + stops + [delta, MsgStop];
      assert out == Encode(before, MessageFinish(reason, usage)).1;
    }

    method ConvertEvent(ev: Event) returns (out: seq<Frame>)
      modifies this, tools
      ensures (State(), out) == Encode(old(State()), ev)
    {
      ghost var before := State();
      match ev
      case MessageStart(m) =>
        model := m;
        out := [MsgStart(m, inputTokens, 0, 0)];
      case ContentDelta(text, reasoning) =>
        if reasoning {
          out := ThinkingText(text);
          return;
        }
        out := [];
        if thinkBlock >= 0 {
          out := out + [BlockStop(thinkBlock)];
          thinkBlock := -1;
        }
        if textBlock < 0 {
          textBlock := nextBlock;
          nextBlock := nextBlock + 1;
          out := out + [BlockStart(textBlock, TextBlock, "", "")];
        }
        out := out + [TextDelta(textBlock, text)];
        assert out == Encode(before, ev).1;
      case ToolCallDelta(id, name, args) =>
        out := ToolDelta(id, name, args);
      case MessageFinish(reason, usage) =>
        out := Close(reason, usage);
      case TaskFailed(_, _) =>
        out := [];
    }
  }

  // ---------- Frames to envelope (sdk/anthropicup) ----------

  datatype BlockInfo = BlockInfo(kind: Option<BlockKind>, id: string, name: string)

  datatype RawUsage = RawUsage(input: int, cacheRead: int, cacheCreate: int, output: int)
  {
    /** Upstreams report in parts, so each count keeps the larger of the two reports. */
    function Merge(src: RawUsage): RawUsage {
      RawUsage(Larger(input, src.input), Larger(cacheRead, src.cacheRead),
               Larger(cacheCreate, src.cacheCreate), Larger(output, src.output))
    }

    function Envelope(): Usage {
      Usage(input + cacheRead + cacheCreate, output, cacheRead, cacheCreate, 0.0)
    }
  }

  function Larger(a: int, b: int): int {
    if b > a then b else a
  }

  datatype Par = Par(blocks: map<int, BlockInfo>, pending: RawUsage, sentFinish: bool)

  const NO_BLOCK := BlockInfo(None, "", "")
  const NEW_PARSER := Par(map[], RawUsage(0, 0, 0, 0), false)

  function MapStop(reason: string): string {
    if reason == "tool_use" then "tool_calls" else if reason == "max_tokens" then "length" else "stop"
  }

  function FinishWith(p: Par, reason: string): (Par, seq<Event>) {
    if p.sentFinish then (p, [])
    else (p.(sentFinish := true),
          [MessageFinish(if reason == "tool_use" then "tool_calls" else reason, Some(p.pending.Envelope()))])
  }

  /** The parser's Finish, called when the upstream stream ends. */
  function EndOfStream(p: Par): seq<Event> {
    if p.sentFinish then [] else [MessageFinish("stop", None)]
  }

  function FeedFrame(p: Par, f: Frame): (Par, seq<Event>) {
    match f
    case MsgStart(model, input, cacheRead, cacheCreate) =>
      (p.(pending := p.pending.Merge(RawUsage(input, cacheRead, cacheCreate, 0))), [MessageStart(model)])
    case BlockStart(index, kind, id, name) =>
      (p.(blocks := p.blocks[index := BlockInfo(Some(kind), id, name)]), [])
    case TextDelta(_, text) => (p, [ContentDelta(text, false)])
    case InputJsonDelta(index, json) =>
      var info := if index in p.blocks then p.blocks[index] else NO_BLOCK;
      (p, [ToolCallDelta(info.id, info.name, json)])
    case MsgDelta(stop, input, output, cacheRead, cacheCreate) =>
      var p1 := p.(pending := p.pending.Merge(RawUsage(input, cacheRead, cacheCreate, output)));
      if stop == "" then (p1, []) else FinishWith(p1, MapStop(stop))
    case MsgStop => FinishWith(p, "stop")
    case ThinkingDelta(_, _) => (p, [])
    case BlockStop(_) => (p, [])
  }

  class Parser {
    var blocks: map<int, BlockInfo>
    var pending: RawUsage
    var sentFinish: bool

    ghost function State(): Par
      reads this
    {
      Par(blocks, pending, sentFinish)
    }

    constructor ()
      ensures State() == NEW_PARSER
    {
      blocks, pending, sentFinish := map[], RawUsage(0, 0, 0, 0), false;
    }

    method Merge(src: RawUsage)
      modifies this`pending
      ensures pending == old(pending).Merge(src)
    {
      if src.input > pending.input {
        pending := pending.(input := src.input);
      }
      if src.cacheRead > pending.cacheRead {
        pending := pending.(cacheRead := src.cacheRead);
      }
      if src.cacheCreate > pending.cacheCreate {
        pending := pending.(cacheCreate := src.cacheCreate);
      }
      if src.output > pending.output {
        pending := pending.(output := src.output);
      }
    }

    method FinishReason(reason: string) returns (out: seq<Event>)
      modifies this`sentFinish
      ensures (State(), out) == FinishWith(old(State()), reason)
    {
      if sentFinish {
        return [];
      }
      sentFinish := true;
      var mapped := if reason == "tool_use" then "tool_calls" else reason;
      out := [MessageFinish(mapped, Some(pending.Envelope()))];
    }

    method Feed(f: Frame) returns (out: seq<Event>)
      modifies this
      ensures (State(), out) == FeedFrame(old(State()), f)
    {
      out := [];
      match f
      case MsgStart(model, input, cacheRead, cacheCreate) =>
        Merge(RawUsage(input, cacheRead, cacheCreate, 0));
        out := [MessageStart(model)];
      case BlockStart(index, kind, id, name) =>
        blocks := blocks[index := BlockInfo(Some(kind), id, name)];
      case TextDelta(_, text) =>
        out := [ContentDelta(text, false)];
      case InputJsonDelta(index, json) =>
        var info := if index in blocks then blocks[index] else NO_BLOCK;
        out := [ToolCallDelta(info.id, info.name, json)];
      case MsgDelta(stop, input, output, cacheRead, cacheCreate) =>
        Merge(RawUsage(input, cacheRead, cacheCreate, output));
        if stop != "" {
          out := FinishReason(MapStop(stop));
        }
      case MsgStop =>
        out := FinishReason("stop");
      case ThinkingDelta(_, _) =>
      case BlockStop(_) =>
    }

    method Finish() returns (out: seq<Event>)
      ensures out == EndOfStream(State())
    {
      out := if sentFinish then [] else [MessageFinish("stop", None)];
    }
  }
}
