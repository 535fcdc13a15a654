/** What the parser makes of any chunks from any upstream, read off the chunks alone. */
module OpenAIParser {
  import opened Text
  import opened Envelope
  import opened Machines
  import opened OpenAI

  // ---------- What the chunks say ----------

  function AllChoices(chunks: seq<Chunk>): seq<Choice> {
    if chunks == [] then [] else chunks[0].choices + AllChoices(chunks[1..])
  }

  function Fragments(cs: seq<Choice>): seq<ToolPiece> {
    if cs == [] then [] else cs[0].toolCalls + Fragments(cs[1..])
  }

  /** How many choices there are through the first that gives a reason, or all of them. */
  function Through(cs: seq<Choice>): (n: nat)
    ensures n <= |cs|
  {
    if cs == [] then 0 else if cs[0].finish != "" then 1 else 1 + Through(cs[1..])
  }

  /** After how many choices the stream is closed: in the first chunk with counts, after the choice that
      gives a reason, or at its end; without counts, at the end of the stream. */
  function ClosedAfter(chunks: seq<Chunk>): (n: nat)
    ensures n <= |AllChoices(chunks)|
  {
    if chunks == [] then 0
    else if chunks[0].usage.Some? then Through(chunks[0].choices)
    else |chunks[0].choices| + ClosedAfter(chunks[1..])
  }

  function FirstCounts(chunks: seq<Chunk>): Option<WireUsage> {
    if chunks == [] then None
    else if chunks[0].usage.Some? then chunks[0].usage
    else FirstCounts(chunks[1..])
  }

  /** The last reason that is not empty. */
  function LastReason(cs: seq<Choice>): string {
    if cs == [] then ""
    else if LastReason(cs[1..]) != "" then LastReason(cs[1..])
    else cs[0].finish
  }

  function LastId(tcs: seq<ToolPiece>, index: int): string {
    if tcs == [] then ""
    else
      var tc := tcs[|tcs| - 1];
      if tc.index == index && tc.id != "" then tc.id else LastId(tcs[..|tcs| - 1], index)
  }

  function LastName(tcs: seq<ToolPiece>, index: int): string {
    if tcs == [] then ""
    else
      var tc := tcs[|tcs| - 1];
      if tc.index == index && tc.name != "" then tc.name else LastName(tcs[..|tcs| - 1], index)
  }

  /** A fragment under the id and the name given for its index so far, itself included. */
  function Named(tc: ToolPiece, seen: seq<ToolPiece>): Event {
    var id := LastId(seen + [tc], tc.index);
    ToolCallDelta(if id != "" then id else SynthId(tc.index), LastName(seen + [tc], tc.index), tc.args)
  }

  function NamedAll(tcs: seq<ToolPiece>, seen: seq<ToolPiece>): seq<Event>
    decreases |tcs|
  {
    if tcs == [] then [] else [Named(tcs[0], seen)] + NamedAll(tcs[1..], seen + [tcs[0]])
  }

  function Thought(c: Choice): string {
    if c.reasoningContent != "" then c.reasoningContent else c.reasoning
  }

  function Says(text: string, reasoning: bool): seq<Event> {
    if text == "" then [] else [ContentDelta(text, reasoning)]
  }

  /** Choice by choice its reasoning, its text, and then its fragments. */
  function DeltasOf(cs: seq<Choice>, seen: seq<ToolPiece>): seq<Event>
    decreases |cs|
  {
    if cs == [] then []
    else
      Says(Thought(cs[0]), true) + Says(cs[0].content, false) + NamedAll(cs[0].toolCalls, seen)
      + DeltasOf(cs[1..], seen + cs[0].toolCalls)
  }

  function TheFinish(chunks: seq<Chunk>): Event {
    var reason := LastReason(AllChoices(chunks)[..ClosedAfter(chunks)]);
    MessageFinish(if reason != "" then reason else "stop",
                  if FirstCounts(chunks).Some? then Some(UsageOf(FirstCounts(chunks).value)) else None)
  }

  // ---------- What the parser remembers ----------

  /** The parser knows the ids and names of the fragments it has seen. */
  ghost predicate Knows(p: Par, seen: seq<ToolPiece>) {
    forall k :: Lookup(p.toolIDs, k) == LastId(seen, k) && Lookup(p.toolNames, k) == LastName(seen, k)
  }

  lemma PieceStep(p: Par, tc: ToolPiece, seen: seq<ToolPiece>)
    requires Knows(p, seen)
    ensures var (p1, ev) := FeedPiece(p, tc);
            Knows(p1, seen + [tc]) && ev == Named(tc, seen) && p1.pendingStop == p.pendingStop && p1.sentFinish == p.sentFinish
  {
    var after := seen + [tc];
    assert after[|after| - 1] == tc && after[..|after| - 1] == seen;
    var p1 := FeedPiece(p, tc).0;
    forall k
      ensures Lookup(p1.toolIDs, k) == LastId(after, k) && Lookup(p1.toolNames, k) == LastName(after, k)
    {
      assert Lookup(p.toolIDs, k) == LastId(seen, k) && Lookup(p.toolNames, k) == LastName(seen, k);
    }
  }

  lemma {:induction false} PiecesStep(p: Par, tcs: seq<ToolPiece>, seen: seq<ToolPiece>)
    requires Knows(p, seen)
    ensures var (p1, evs) := FeedPieces(p, tcs);
            Knows(p1, seen + tcs) && evs == NamedAll(tcs, seen) && p1.pendingStop == p.pendingStop && p1.sentFinish == p.sentFinish
    decreases |tcs|
  {
    hide FeedPiece, Named, Knows;
    if tcs == [] {
      assert seen + tcs == seen;
    } else {
      PieceStep(p, tcs[0], seen);
      PiecesStep(FeedPiece(p, tcs[0]).0, tcs[1..], seen + [tcs[0]]);
      assert seen + tcs == seen + [tcs[0]] + tcs[1..];
    }
  }

  // ---------- Choices ----------

  /** The reason that is pending after more choices. */
  function Pending(before: string, cs: seq<Choice>): string {
    if LastReason(cs) != "" then LastReason(cs) else before
  }

  function Closing(reason: string, u: WireUsage): Event {
    MessageFinish(if reason != "" then reason else "stop", Some(UsageOf(u)))
  }

  /** One choice gives its deltas; if counts are there and it gives a reason, this closes the stream. */
  lemma ChoiceStep(p: Par, c: Choice, usage: Option<WireUsage>, seen: seq<ToolPiece>)
    requires Knows(p, seen)
    ensures var (p1, evs) := FeedChoice(p, c, usage);
            var closes := c.finish != "" && usage.Some?;
            && Knows(p1, seen + c.toolCalls)
            && evs == DeltasOf([c], seen) + (if closes && !p.sentFinish then [Closing(c.finish, usage.value)] else [])
            && p1.pendingStop == Pending(p.pendingStop, [c])
            && p1.sentFinish == (p.sentFinish || closes)
  {
    hide NamedAll, UsageOf, FeedPieces, LastId, LastName;
    PiecesStep(p, c.toolCalls, seen);
    var p0 := FeedPieces(p, c.toolCalls).0;
    var p1 := FeedChoice(p, c, usage).0;
    assert p1.toolIDs == p0.toolIDs && p1.toolNames == p0.toolNames;
    assert Knows(p1, seen + c.toolCalls);
    assert [c][1..] == [];
    assert LastReason([c]) == c.finish by { assert LastReason([]) == ""; }
    assert TextEvents(c) == Says(Thought(c), true) + Says(c.content, false);
    var evs := Says(Thought(c), true) + Says(c.content, false) + NamedAll(c.toolCalls, seen);
    assert DeltasOf([c], seen) == evs + DeltasOf([], seen + c.toolCalls);
    assert evs + [] == evs;
  }

  lemma DeltasFirst(cs: seq<Choice>, seen: seq<ToolPiece>)
    requires cs != []
    ensures DeltasOf(cs, seen) == DeltasOf([cs[0]], seen) + DeltasOf(cs[1..], seen + cs[0].toolCalls)
    ensures Fragments(cs) == cs[0].toolCalls + Fragments(cs[1..])
    ensures LastReason(cs) == Pending(cs[0].finish, cs[1..])
    ensures LastReason([cs[0]]) == cs[0].finish
  {
    assert [cs[0]][1..] == [];
    var evs := Says(Thought(cs[0]), true) + Says(cs[0].content, false) + NamedAll(cs[0].toolCalls, seen);
    assert evs + [] == evs;
  }

  /** What some choices of one chunk lead to, if none of them closes the stream. */
  lemma {:induction false} ChoicesStep(p: Par, cs: seq<Choice>, usage: Option<WireUsage>, seen: seq<ToolPiece>)
    requires Knows(p, seen)
    requires p.sentFinish || usage.None? || LastReason(cs) == ""
    ensures var (p1, evs) := FeedChoices(p, cs, usage);
            && Knows(p1, seen + Fragments(cs)) && evs == DeltasOf(cs, seen)
            && p1.pendingStop == Pending(p.pendingStop, cs) && p1.sentFinish == p.sentFinish
    decreases |cs|
  {
    hide FeedChoice, Knows, DeltasOf, UsageOf;
    if cs == [] {
      assert seen + [] == seen;
      assert DeltasOf([], seen) == [] by { Nothing(seen); }
    } else {
      DeltasFirst(cs, seen);
      ChoiceStep(p, cs[0], usage, seen);
      var one := DeltasOf([cs[0]], seen);
      assert one + [] == one;
      ChoicesStep(FeedChoice(p, cs[0], usage).0, cs[1..], usage, seen + cs[0].toolCalls);
      Regroup(seen, cs[0].toolCalls, Fragments(cs[1..]));
    }
  }

  lemma Nothing(seen: seq<ToolPiece>)
    ensures DeltasOf([], seen) == []
  {
  }

  /** The choices of the chunk whose counts close the stream, if one of them gives a reason. */
  lemma {:induction false} ClosingStep(p: Par, cs: seq<Choice>, u: WireUsage, seen: seq<ToolPiece>)
    requires Knows(p, seen) && !p.sentFinish && LastReason(cs) != ""
    ensures var n := Through(cs);
            var (p1, evs) := FeedChoices(p, cs, Some(u));
            && Knows(p1, seen + Fragments(cs)) && p1.sentFinish
            && LastReason(cs[..n]) != ""
            && evs == DeltasOf(cs[..n], seen) + [Closing(LastReason(cs[..n]), u)] + DeltasOf(cs[n..], seen + Fragments(cs[..n]))
    decreases |cs|
  {
    hide FeedChoice, Knows, DeltasOf, UsageOf, Closing;
    DeltasFirst(cs, seen);
    ChoiceStep(p, cs[0], Some(u), seen);
    var n, seen1, one := Through(cs), seen + cs[0].toolCalls, DeltasOf([cs[0]], seen);
    var p1 := FeedChoice(p, cs[0], Some(u)).0;
    Regroup(seen, cs[0].toolCalls, Fragments(cs[1..]));
    if cs[0].finish != "" {
      assert cs[..1] == [cs[0]];
      assert Fragments(cs[..1]) == cs[0].toolCalls by {
        DeltasFirst(cs[..1], seen);
        assert cs[..1][1..] == [];
        Regroup(cs[0].toolCalls, [], []);
      }
      ChoicesStep(p1, cs[1..], Some(u), seen1);
    } else {
      ClosingStep(p1, cs[1..], u, seen1);
      assert cs[..n][1..] == cs[1..][..n - 1] && cs[1..][n - 1..] == cs[n..];
      DeltasFirst(cs[..n], seen);
      Regroup(seen, cs[0].toolCalls, Fragments(cs[..n][1..]));
      assert one + [] == one;
      Regroup(one, DeltasOf(cs[..n][1..], seen1), [Closing(LastReason(cs[..n]), u)]);
      Regroup(one, DeltasOf(cs[..n][1..], seen1) + [Closing(LastReason(cs[..n]), u)], DeltasOf(cs[n..], seen + Fragments(cs[..n])));
    }
  }

  // ---------- Chunks ----------

  /** After the finish only deltas follow. */
  lemma {:induction false} AfterFinish(p: Par, chunks: seq<Chunk>, seen: seq<ToolPiece>)
    requires Knows(p, seen) && p.sentFinish
    ensures var (p1, out) := Run(FeedChunk, p, chunks);
            p1.sentFinish && out == DeltasOf(AllChoices(chunks), seen)
    decreases |chunks|
  {
    hide Knows, DeltasOf, UsageOf, FeedChoices;
    if chunks == [] {
      Nothing(seen);
    } else {
      var cs := chunks[0].choices;
      ChoicesStep(p, cs, chunks[0].usage, seen);
      var evs := DeltasOf(cs, seen);
      assert evs + [] == evs;
      AfterFinish(FeedChunk(p, chunks[0]).0, chunks[1..], seen + Fragments(cs));
      DeltasConcat(cs, AllChoices(chunks[1..]), seen);
    }
  }

  lemma {:induction false} DeltasConcat(a: seq<Choice>, b: seq<Choice>, seen: seq<ToolPiece>)
    ensures DeltasOf(a + b, seen) == DeltasOf(a, seen) + DeltasOf(b, seen + Fragments(a))
    ensures Fragments(a + b) == Fragments(a) + Fragments(b)
    ensures LastReason(a + b) == Pending(LastReason(a), b)
    decreases |a|
  {
    hide DeltasOf;
    if a == [] {
      assert a + b == b && seen + [] == seen;
      Nothing(seen);
      Regroup(DeltasOf(b, seen), [], DeltasOf(b, seen));
      Regroup(Fragments(b), [], Fragments(b));
    } else {
      assert (a + b)[1..] == a[1..] + b && (a + b)[0] == a[0];
      DeltasFirst(a + b, seen);
      DeltasFirst(a, seen);
      DeltasConcat(a[1..], b, seen + a[0].toolCalls);
      Regroup(seen, a[0].toolCalls, Fragments(a[1..]));
      Regroup(a[0].toolCalls, Fragments(a[1..]), Fragments(b));
      Regroup(DeltasOf([a[0]], seen), DeltasOf(a[1..], seen + a[0].toolCalls), DeltasOf(b, seen + Fragments(a)));
    }
  }

  /** The first chunk with counts closes the stream. */
  lemma ClosingChunk(p: Par, chunk: Chunk, seen: seq<ToolPiece>)
    requires Knows(p, seen) && !p.sentFinish && chunk.usage.Some?
    ensures var cs := chunk.choices;
            var n := Through(cs);
            var (p1, evs) := FeedChunk(p, chunk);
            && Knows(p1, seen + Fragments(cs)) && p1.sentFinish
            && evs == DeltasOf(cs[..n], seen) + [Closing(Pending(p.pendingStop, cs[..n]), chunk.usage.value)]
                      + DeltasOf(cs[n..], seen + Fragments(cs[..n]))
  {
    hide Knows, DeltasOf, UsageOf, FeedChoices;
    var cs, u := chunk.choices, chunk.usage.value;
    if LastReason(cs) != "" {
      ClosingStep(p, cs, u, seen);
      var evs := FeedChoices(p, cs, Some(u)).1;
      assert evs + [] == evs;
    } else {
      ChoicesStep(p, cs, Some(u), seen);
      ThroughAll(cs);
      Closed(FeedChoices(p, cs, Some(u)).0, seen + Fragments(cs));
      assert cs[..|cs|] == cs && cs[|cs|..] == [];
      Nothing(seen + Fragments(cs));
      var evs := DeltasOf(cs, seen) + [Closing(Pending(p.pendingStop, cs), u)];
      assert evs + [] == evs;
    }
  }

  lemma Closed(p: Par, seen: seq<ToolPiece>)
    requires Knows(p, seen)
    ensures Knows(p.(sentFinish := true), seen)
  {
  }

  lemma {:induction false} ThroughAll(cs: seq<Choice>)
    requires LastReason(cs) == ""
    ensures Through(cs) == |cs|
  {
    if cs != [] {
      ThroughAll(cs[1..]);
    }
  }

  function FinishOf(p: Par, chunks: seq<Chunk>): Event {
    var reason := Pending(p.pendingStop, AllChoices(chunks)[..ClosedAfter(chunks)]);
    MessageFinish(if reason != "" then reason else "stop",
                  if FirstCounts(chunks).Some? then Some(UsageOf(FirstCounts(chunks).value)) else None)
  }

  ghost predicate Parses(p: Par, chunks: seq<Chunk>, seen: seq<ToolPiece>) {
    var (p1, out) := Run(FeedChunk, p, chunks);
    var cs, n := AllChoices(chunks), ClosedAfter(chunks);
    out + EndOfStream(p1) == DeltasOf(cs[..n], seen) + [FinishOf(p, chunks)] + DeltasOf(cs[n..], seen + Fragments(cs[..n]))
  }

  lemma {:induction false} RunParses(p: Par, chunks: seq<Chunk>, seen: seq<ToolPiece>)
    requires Knows(p, seen) && !p.sentFinish
    ensures Parses(p, chunks, seen)
    decreases |chunks|
  {
    hide Knows, DeltasOf, UsageOf, FeedChunk;
    if chunks == [] {
      Nothing(seen);
      Nothing(seen + Fragments([]));
      assert [] + [FinishOf(p, [])] + [] == [] + EndOfStream(p);
    } else if chunks[0].usage.Some? {
      ParsesClosing(p, chunks, seen);
    } else {
      PlainChunk(p, chunks[0], seen);
      var p1 := FeedChunk(p, chunks[0]).0;
      RunParses(p1, chunks[1..], seen + Fragments(chunks[0].choices));
      ParsesPlain(p, chunks, seen);
    }
  }

  lemma ParsesClosing(p: Par, chunks: seq<Chunk>, seen: seq<ToolPiece>)
    requires Knows(p, seen) && !p.sentFinish && chunks != [] && chunks[0].usage.Some?
    ensures Parses(p, chunks, seen)
  {
    hide Knows, DeltasOf, UsageOf, FeedChunk, Fragments, LastReason;
    var here, rest := chunks[0].choices, AllChoices(chunks[1..]);
    var n := Through(here);
    ClosingChunk(p, chunks[0], seen);
    var p1 := FeedChunk(p, chunks[0]).0;
    AfterFinish(p1, chunks[1..], seen + Fragments(here));
    assert (here + rest)[..n] == here[..n] && (here + rest)[n..] == here[n..] + rest && here[..n] + here[n..] == here;
    DeltasConcat(here[n..], rest, seen + Fragments(here[..n]));
    DeltasConcat(here[..n], here[n..], seen);
    Regroup(seen, Fragments(here[..n]), Fragments(here[n..]));
    var front := DeltasOf(here[..n], seen) + [FinishOf(p, chunks)];
    var out := front + DeltasOf(here[n..], seen + Fragments(here[..n])) + DeltasOf(rest, seen + Fragments(here));
    Regroup(front, DeltasOf(here[n..], seen + Fragments(here[..n])), DeltasOf(rest, seen + Fragments(here)));
    assert out + [] == out;
  }

  lemma PlainChunk(p: Par, chunk: Chunk, seen: seq<ToolPiece>)
    requires Knows(p, seen) && chunk.usage.None?
    ensures var (p1, evs) := FeedChunk(p, chunk);
            && Knows(p1, seen + Fragments(chunk.choices)) && evs == DeltasOf(chunk.choices, seen)
            && p1.pendingStop == Pending(p.pendingStop, chunk.choices) && p1.sentFinish == p.sentFinish
  {
    hide Knows, DeltasOf, FeedChoices, Fragments;
    ChoicesStep(p, chunk.choices, None, seen);
  }

  lemma ParsesPlain(p: Par, chunks: seq<Chunk>, seen: seq<ToolPiece>)
    requires Knows(p, seen) && !p.sentFinish && chunks != [] && chunks[0].usage.None?
    requires Parses(FeedChunk(p, chunks[0]).0, chunks[1..], seen + Fragments(chunks[0].choices))
    ensures Parses(p, chunks, seen)
  {
    hide Knows, DeltasOf, UsageOf, FeedChunk, Fragments, LastReason;
    var here, rest := chunks[0].choices, AllChoices(chunks[1..]);
    var n, seen1 := ClosedAfter(chunks[1..]), seen + Fragments(here);
    PlainChunk(p, chunks[0], seen);
    var p1, evs := FeedChunk(p, chunks[0]).0, FeedChunk(p, chunks[0]).1;
    var all := here + rest;
    assert all[..|here| + n] == here + rest[..n] && all[|here| + n..] == rest[n..];
    DeltasConcat(here, rest[..n], seen);
    Regroup(seen, Fragments(here), Fragments(rest[..n]));
    var out, p2 := Run(FeedChunk, p1, chunks[1..]).1, Run(FeedChunk, p1, chunks[1..]).0;
    Regroup(evs, out, EndOfStream(p2));
    assert FinishOf(p1, chunks[1..]) == FinishOf(p, chunks);
    var fin, tail := [FinishOf(p, chunks)], DeltasOf(rest[n..], seen1 + Fragments(rest[..n]));
    Regroup(evs, DeltasOf(rest[..n], seen1), fin);
    Regroup(evs, DeltasOf(rest[..n], seen1) + fin, tail);
  }

  /** Whatever the upstream sends: the deltas of the choices up to the one that closes the stream, exactly
      one finish, with the last reason that these give and the first counts, and the deltas of the rest. */
  lemma EveryStream(chunks: seq<Chunk>)
    ensures var (p, out) := Run(FeedChunk, NEW_PARSER, chunks);
            var cs, n := AllChoices(chunks), ClosedAfter(chunks);
            out + EndOfStream(p) == DeltasOf(cs[..n], []) + [TheFinish(chunks)] + DeltasOf(cs[n..], Fragments(cs[..n]))
  {
    hide DeltasOf, FeedChunk, UsageOf;
    assert Knows(NEW_PARSER, []);
    RunParses(NEW_PARSER, chunks, []);
    var before := Fragments(AllChoices(chunks)[..ClosedAfter(chunks)]);
    assert [] + before == before;
  }

  /** Deltas are deltas: the finish is the only event that is none. */
  lemma {:induction false} OnlyDeltasBetween(cs: seq<Choice>, seen: seq<ToolPiece>)
    ensures OnlyDeltas(DeltasOf(cs, seen))
    decreases |cs|
  {
    if cs != [] {
      OnlyCalls(cs[0].toolCalls, seen);
      OnlyDeltasBetween(cs[1..], seen + cs[0].toolCalls);
    }
  }

  lemma {:induction false} OnlyCalls(tcs: seq<ToolPiece>, seen: seq<ToolPiece>)
    ensures OnlyDeltas(NamedAll(tcs, seen))
    decreases |tcs|
  {
    if tcs != [] {
      OnlyCalls(tcs[1..], seen + [tcs[0]]);
    }
  }

  // ---------- Counts ----------

  function CachedNames(u: WireUsage): seq<int> {
    [u.cached] + CachedIn(u.promptDetails) + CachedIn(u.inputDetails)
  }

  function CachedIn(d: Option<Details>): seq<int> {
    if d.Some? then [d.value.cached, d.value.cacheRead] else []
  }

  function WrittenNames(u: WireUsage): seq<int> {
    [u.cacheWrite, u.cachedWrite, u.cacheCreate] + WrittenIn(u.promptDetails) + WrittenIn(u.inputDetails)
  }

  function WrittenIn(d: Option<Details>): seq<int> {
    if d.Some? then [d.value.cacheWrite, d.value.cachedWrite, d.value.cacheCreate] else []
  }

  /** The largest of the names for one number; where none is positive it may be 0. */
  predicate LargestOf(r: int, names: seq<int>) {
    (forall v <- names :: v <= r) && (r == 0 || r in names)
  }

  lemma MoreNames(r: int, names: seq<int>, more: seq<int>, all: seq<int>)
    requires LargestOf(r, names) && all == [r] + more
    ensures LargestOf(Largest(all), names + more)
  {
    hide Largest;
    var m := Largest(all);
    assert all[0] == r;
    assert r in all;
    forall v <- more ensures v in all {
      var i :| 0 <= i < |more| && more[i] == v;
      assert all[i + 1] == v;
    }
    assert m in all ==> m == r || m in more;
  }

  /** The names that upstreams use for the cached and for the written tokens stand for one number each:
      the largest, but no more than the input. */
  lemma CountsMerged(u: WireUsage)
    ensures var r := UsageOf(u);
            && r.input == u.prompt && r.output == u.completion
            && (exists c | LargestOf(c, CachedNames(u)) :: r.cached == AtMost(c, u.prompt))
            && (exists w | LargestOf(w, WrittenNames(u)) :: r.write == AtMost(w, u.prompt))
  {
    hide Largest, LargestOf;
    Cached(u);
    Written(u);
  }

  lemma Cached(u: WireUsage)
    ensures exists c | LargestOf(c, CachedNames(u)) :: UsageOf(u).cached == AtMost(c, u.prompt)
  {
    hide Largest;
    assert LargestOf(u.cached, [u.cached]);
    var c1 := WithCached(u.cached, u.promptDetails);
    MoreCached(u.cached, [u.cached], u.promptDetails);
    var c2 := WithCached(c1, u.inputDetails);
    MoreCached(c1, [u.cached] + CachedIn(u.promptDetails), u.inputDetails);
    assert LargestOf(c2, CachedNames(u)) && UsageOf(u).cached == AtMost(c2, u.prompt);
  }

  function WithCached(r: int, d: Option<Details>): int {
    if d.Some? then Largest([r, d.value.cached, d.value.cacheRead]) else r
  }

  function WithWritten(r: int, d: Option<Details>): int {
    if d.Some? then Largest([r, d.value.cacheWrite, d.value.cachedWrite, d.value.cacheCreate]) else r
  }

  lemma MoreCached(r: int, names: seq<int>, d: Option<Details>)
    requires LargestOf(r, names)
    ensures LargestOf(WithCached(r, d), names + CachedIn(d))
  {
    hide Largest, LargestOf;
    if d.Some? {
      assert [r, d.value.cached, d.value.cacheRead] == [r] + CachedIn(d);
      MoreNames(r, names, CachedIn(d), [r, d.value.cached, d.value.cacheRead]);
    } else {
      assert names + [] == names;
    }
  }

  lemma Written(u: WireUsage)
    ensures exists w | LargestOf(w, WrittenNames(u)) :: UsageOf(u).write == AtMost(w, u.prompt)
  {
    hide Largest;
    var first := [u.cacheWrite, u.cachedWrite, u.cacheCreate];
    var w0 := Largest(first);
    assert LargestOf(w0, first);
    var w1 := WithWritten(w0, u.promptDetails);
    MoreWritten(w0, first, u.promptDetails);
    var w2 := WithWritten(w1, u.inputDetails);
    MoreWritten(w1, first + WrittenIn(u.promptDetails), u.inputDetails);
    assert LargestOf(w2, WrittenNames(u)) && UsageOf(u).write == AtMost(w2, u.prompt);
  }

  lemma MoreWritten(r: int, names: seq<int>, d: Option<Details>)
    requires LargestOf(r, names)
    ensures LargestOf(WithWritten(r, d), names + WrittenIn(d))
  {
    hide Largest, LargestOf;
    if d.Some? {
      var all := [r, d.value.cacheWrite, d.value.cachedWrite, d.value.cacheCreate];
      assert all == [r] + WrittenIn(d);
      MoreNames(r, names, WrittenIn(d), all);
    } else {
      assert names + [] == names;
    }
  }
}
