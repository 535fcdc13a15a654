/** The OpenAI chat-completions stream: gateway encoder, upstream parser, and their round trip. */
module OpenAI {
  import opened Text
  import opened Envelope

  // ---------- Wire format ----------

  /** An absent JSON string or number reads as "" or 0, as Go's decoder leaves it. */
  datatype ToolPiece = ToolPiece(index: int, id: string, name: string, args: string)

  datatype Choice = Choice(content: string, reasoningContent: string, reasoning: string,
                           toolCalls: seq<ToolPiece>, finish: string)

  datatype Details = Details(cached: int, cacheRead: int, cacheWrite: int, cachedWrite: int, cacheCreate: int)

  datatype WireUsage = WireUsage(prompt: int, completion: int, cached: int,
                                 cacheWrite: int, cachedWrite: int, cacheCreate: int,
                                 promptDetails: Option<Details>, inputDetails: Option<Details>)

  datatype Chunk = Chunk(model: string, choices: seq<Choice>, usage: Option<WireUsage>)

  const EMPTY_CHOICE := Choice("", "", "", [], "")

  // ---------- Envelope to chunks (gateway/openai.go) ----------

  datatype Enc = Enc(model: string, toolIdx: map<string, int>, nextIdx: int, tools: Tracker)

  function NewEnc(spare: string): Enc {
    Enc("", map[], 0, NewTracker(spare))
  }

  function UsagePayload(u: Usage): WireUsage {
    var details := if u.cached > 0 || u.write > 0
      then Some(Details(u.cached, 0, if u.write > 0 then u.write else 0, 0, 0)) else None;
    WireUsage(u.input, u.output, 0, 0, 0, 0, details, None)
  }

  function Encode(s: Enc, ev: Event): (Enc, seq<Chunk>) {
    match ev
    case MessageStart(model) => (s.(model := model), [])
    case ContentDelta(text, reasoning) =>
      var c := if reasoning then EMPTY_CHOICE.(reasoningContent := text) else EMPTY_CHOICE.(content := text);
      (s, [Chunk(s.model, [c], None)])
    case ToolCallDelta(id, name, args) =>
      var t := s.tools.Resolve(id, name);
      if t.lastId in s.toolIdx then
        var piece := ToolPiece(s.toolIdx[t.lastId], "", "", args);
        (s.(tools := t), [Chunk(s.model, [EMPTY_CHOICE.(toolCalls := [piece])], None)])
      else
        var piece := ToolPiece(s.nextIdx, t.lastId, t.lastName, args);
        (Enc(s.model, s.toolIdx[t.lastId := s.nextIdx], s.nextIdx + 1, t),
         [Chunk(s.model, [EMPTY_CHOICE.(toolCalls := [piece])], None)])
    case MessageFinish(reason, usage) =>
      (s, [Chunk(s.model, [EMPTY_CHOICE.(finish := reason)], None)]
          + if usage.Some? then [Chunk(s.model, [], Some(UsagePayload(usage.value)))] else [])
    case TaskFailed(_, _) => (s, [])
  }

  class SSEState {
    var model: string
    var toolIdx: map<string, int>
    var nextIdx: int
    const tools: ToolCallTracker

    ghost function State(): Enc
      reads this, tools
    {
      Enc(model, toolIdx, nextIdx, tools.State())
    }

    constructor (spare: string)
      ensures State() == NewEnc(spare) && fresh(tools)
    {
      model, toolIdx, nextIdx := "", map[], 0;
      tools := new ToolCallTracker(spare);
    }

    method ConvertEvent(ev: Event) returns (out: seq<Chunk>)
      modifies this, tools
      ensures (State(), out) == Encode(old(State()), ev)
    {
      match ev
      case MessageStart(m) =>
        model := m;
        out := [];
      case ContentDelta(text, reasoning) =>
        if reasoning {
          return [Chunk(model, [EMPTY_CHOICE.(reasoningContent := text)], None)];
        }
        out := [Chunk(model, [EMPTY_CHOICE.(content := text)], None)];
      case ToolCallDelta(eventId, eventName, args) =>
        var id, name := tools.Resolve(eventId, eventName);
        var known := id in toolIdx;
        if !known {
          toolIdx := toolIdx[id := nextIdx];
          nextIdx := nextIdx + 1;
        }
        var piece := ToolPiece(toolIdx[id], "", "", args);
        if !known {
          piece := piece.(id := id, name := name);
        }
        out := [Chunk(model, [EMPTY_CHOICE.(toolCalls := [piece])], None)];
      case MessageFinish(reason, usage) =>
        out := [Chunk(model, [EMPTY_CHOICE.(finish := reason)], None)];
        assert out + [] == out;
        if usage.Some? {
          out := out + [Chunk(model, [], Some(UsagePayload(usage.value)))];
        }
      case TaskFailed(_, _) =>
        out := [];
    }
  }

  // ---------- Chunks to envelope (sdk/openaiup) ----------

  datatype Par = Par(pendingStop: string, toolIDs: map<int, string>, toolNames: map<int, string>, sentFinish: bool)

  const NEW_PARSER := Par("", map[], map[], false)

  function OrDefault(s: string, def: string): string {
    if s == "" then def else s
  }

  function Lookup(m: map<int, string>, k: int): string {
    if k in m then m[k] else ""
  }

  /** Go's maxInt64: the largest value, never below zero. */
  function Largest(vals: seq<int>): (m: int)
    ensures m >= 0 && (m == 0 || m in vals)
    ensures forall v <- vals :: v <= m
  {
    if vals == [] then 0
    else
      var rest := Largest(vals[1..]);
      assert forall v <- vals :: v == vals[0] || v in vals[1..];
      if vals[0] > rest then vals[0] else rest
  }

  function AtMost(v: int, bound: int): int {
    if v > bound then bound else v
  }

  function UsageOf(u: WireUsage): Usage {
    var c1 := if u.promptDetails.Some?
      then Largest([u.cached, u.promptDetails.value.cached, u.promptDetails.value.cacheRead]) else u.cached;
    var c2 := if u.inputDetails.Some?
      then Largest([c1, u.inputDetails.value.cached, u.inputDetails.value.cacheRead]) else c1;
    var w0 := Largest([u.cacheWrite, u.cachedWrite, u.cacheCreate]);
    var w1 := if u.promptDetails.Some?
      then Largest([w0, u.promptDetails.value.cacheWrite, u.promptDetails.value.cachedWrite, u.promptDetails.value.cacheCreate]) else w0;
    var w2 := if u.inputDetails.Some?
      then Largest([w1, u.inputDetails.value.cacheWrite, u.inputDetails.value.cachedWrite, u.inputDetails.value.cacheCreate]) else w1;
    Usage(u.prompt, u.completion, AtMost(c2, u.prompt), AtMost(w2, u.prompt), 0.0)
  }

  function FinishWith(p: Par, u: WireUsage): (Par, seq<Event>) {
    if p.sentFinish then (p, [])
    else (p.(sentFinish := true), [MessageFinish(OrDefault(p.pendingStop, "stop"), Some(UsageOf(u)))])
  }

  /** The parser's Finish, called when the upstream stream ends. */
  function EndOfStream(p: Par): seq<Event> {
    if p.sentFinish then [] else [MessageFinish(OrDefault(p.pendingStop, "stop"), None)]
  }

  function FeedPiece(p: Par, tc: ToolPiece): (Par, Event) {
    var ids := if tc.id != "" then p.toolIDs[tc.index := tc.id] else p.toolIDs;
    var names := if tc.name != "" then p.toolNames[tc.index := tc.name] else p.toolNames;
    (p.(toolIDs := ids, toolNames := names),
     ToolCallDelta(OrDefault(Lookup(ids, tc.index), SynthId(tc.index)), Lookup(names, tc.index), tc.args))
  }

  function FeedPieces(p: Par, tcs: seq<ToolPiece>): (Par, seq<Event>)
    decreases |tcs|
  {
    if tcs == [] then (p, [])
    else
      var (p1, ev) := FeedPiece(p, tcs[0]);
      var (p2, rest) := FeedPieces(p1, tcs[1..]);
      (p2, [ev] + rest)
  }

  function TextEvents(c: Choice): seq<Event> {
    (if c.reasoningContent != "" then [ContentDelta(c.reasoningContent, true)]
     else if c.reasoning != "" then [ContentDelta(c.reasoning, true)] else [])
    + if c.content != "" then [ContentDelta(c.content, false)] else []
  }

  function FeedChoice(p: Par, c: Choice, usage: Option<WireUsage>): (Par, seq<Event>) {
    var (p1, tools) := FeedPieces(p, c.toolCalls);
    var evs := TextEvents(c) + tools;
    if c.finish == "" then (p1, evs)
    else
      var p2 := p1.(pendingStop := c.finish);
      if usage.None? then (p2, evs)
      else
        var (p3, fin) := FinishWith(p2, usage.value);
        (p3, evs + fin)
  }

  function FeedChoices(p: Par, cs: seq<Choice>, usage: Option<WireUsage>): (Par, seq<Event>)
    decreases |cs|
  {
    if cs == [] then (p, [])
    else
      var (p1, evs) := FeedChoice(p, cs[0], usage);
      var (p2, rest) := FeedChoices(p1, cs[1..], usage);
      (p2, evs + rest)
  }

  function FeedChunk(p: Par, chunk: Chunk): (Par, seq<Event>) {
    var (p1, evs) := FeedChoices(p, chunk.choices, chunk.usage);
    if chunk.usage.None? then (p1, evs)
    else
      var (p2, fin) := FinishWith(p1, chunk.usage.value);
      (p2, evs + fin)
  }

  class Parser {
    var pendingStop: string
    var toolIDs: map<int, string>
    var toolNames: map<int, string>
    var sentFinish: bool

    ghost function State(): Par
      reads this
    {
      Par(pendingStop, toolIDs, toolNames, sentFinish)
    }

    constructor ()
      ensures State() == NEW_PARSER
    {
      pendingStop, toolIDs, toolNames, sentFinish := "", map[], map[], false;
    }

    method FinishUsage(u: WireUsage) returns (out: seq<Event>)
      modifies this
      ensures (State(), out) == FinishWith(old(State()), u)
    {
      if sentFinish {
        return [];
      }
      sentFinish := true;
      out := [MessageFinish(OrDefault(pendingStop, "stop"), Some(UsageOf(u)))];
    }

    /** One fragment: remember the id and name under the index, and fill in what it lacks. */
    method FeedToolCall(tc: ToolPiece) returns (ev: Event)
      modifies this
      ensures (State(), ev) == FeedPiece(old(State()), tc)
    {
      if tc.id != "" {
        toolIDs := toolIDs[tc.index := tc.id];
      }
      if tc.name != "" {
        toolNames := toolNames[tc.index := tc.name];
      }
      var id := Lookup(toolIDs, tc.index);
      if id == "" {
        id := SynthId(tc.index);
      }
      ev := ToolCallDelta(id, Lookup(toolNames, tc.index), tc.args);
    }

    method FeedToolCalls(tcs: seq<ToolPiece>) returns (out: seq<Event>)
      modifies this
      ensures (State(), out) == FeedPieces(old(State()), tcs)
    {
      out := [];
      assert tcs[0..] == tcs;
      ghost var goal := FeedPieces(State(), tcs);
      Regroup(out, out, goal.1);
      for i := 0 to |tcs|
        invariant FeedPieces(State(), tcs[i..]).0 == goal.0 && goal.1 == out + FeedPieces(State(), tcs[i..]).1
      {
        assert tcs[i..][1..] == tcs[i + 1..];
        assert tcs[i..][0] == tcs[i];
        var ev := FeedToolCall(tcs[i]);
        hide FeedPiece;
        Regroup(out, [ev], FeedPieces(State(), tcs[i + 1..]).1);
        out := out + [ev];
      }
      assert tcs[|tcs|..] == [];
      Regroup(out, [], []);
    }

    method FeedOneChoice(c: Choice, usage: Option<WireUsage>) returns (out: seq<Event>)
      modifies this
      ensures (State(), out) == FeedChoice(old(State()), c, usage)
    {
      out := [];
      if c.reasoningContent != "" {
        out := out + [ContentDelta(c.reasoningContent, true)];
      } else if c.reasoning != "" {
        out := out + [ContentDelta(c.reasoning, true)];
      }
      if c.content != "" {
        out := out + [ContentDelta(c.content, false)];
      }
      assert out == TextEvents(c);
      var tools := FeedToolCalls(c.toolCalls);
      out := out + tools;
      if c.finish != "" {
        pendingStop := c.finish;
        if usage.Some? {
          var fin := FinishUsage(usage.value);
          out := out + fin;
        }
      }
    }

    method Feed(chunk: Chunk) returns (out: seq<Event>)
      modifies this
      ensures (State(), out) == FeedChunk(old(State()), chunk)
    {
      out := [];
      assert chunk.choices[0..] == chunk.choices;
      ghost var (end, all) := FeedChoices(State(), chunk.choices, chunk.usage);
      assert out + all == all;
      for i := 0 to |chunk.choices|
        invariant var (p, rest) := FeedChoices(State(), chunk.choices[i..], chunk.usage);
                  p == end && all == out + rest
      {
        assert chunk.choices[i..][1..] == chunk.choices[i + 1..];
        var evs := FeedOneChoice(chunk.choices[i], chunk.usage);
        ghost var rest := FeedChoices(State(), chunk.choices[i + 1..], chunk.usage).1;
        assert out + (evs + rest) == (out + evs) + rest;
        out := out + evs;
      }
      assert chunk.choices[|chunk.choices|..] == [] && out + [] == out;
      if chunk.usage.Some? {
        var fin := FinishUsage(chunk.usage.value);
        out := out + fin;
      }
    }

    method Finish() returns (out: seq<Event>)
      ensures out == EndOfStream(State())
    {
      out := [];
      if !sentFinish {
        out := [MessageFinish(OrDefault(pendingStop, "stop"), None)];
      }
    }
  }
}
