/** When the blocks of an Anthropic stream overlap (gateway/anthropic.go). */
module AnthropicOverlap {
  import opened Anthropic
  import opened AnthropicRoundTrip
  import opened Envelope
  import opened Machines
  import opened Text

  /** At most one block is started and not yet stopped. */
  predicate OneLive(w: Watch) {
    forall i, j | 0 <= i < |w.kinds| && 0 <= j < |w.kinds| && i !in w.stopped && j !in w.stopped :: i == j
  }

  /** At most one block is live after every frame. */
  predicate Apart(w: Watch, frames: seq<Frame>)
    decreases |frames|
  {
    OneLive(w) && (frames != [] ==> Apart(See(w, frames[0]), frames[1..]))
  }

  lemma {:induction false} ApartIsPrefixes(w: Watch, frames: seq<Frame>)
    ensures Apart(w, frames) <==> forall n | 0 <= n <= |frames| :: OneLive(SeeAll(w, frames[..n]))
    decreases |frames|
  {
    hide OneLive, See;
    assert frames[..0] == [];
    if frames != [] {
      var w1, rest := See(w, frames[0]), frames[1..];
      ApartIsPrefixes(w1, rest);
      forall n | 0 < n <= |frames| ensures SeeAll(w, frames[..n]) == SeeAll(w1, rest[..n - 1]) {
        assert frames[..n][1..] == rest[..n - 1];
      }
      if forall n | 0 <= n <= |frames| :: OneLive(SeeAll(w, frames[..n])) {
        forall n | 0 <= n <= |rest| ensures OneLive(SeeAll(w1, rest[..n])) {
          assert OneLive(SeeAll(w, frames[..n + 1]));
        }
      }
    }
  }

  lemma {:induction false} ApartConcat(w: Watch, a: seq<Frame>, b: seq<Frame>)
    ensures Apart(w, a + b) <==> Apart(w, a) && Apart(SeeAll(w, a), b)
    decreases |a|
  {
    hide OneLive, See;
    if a == [] {
      assert a + b == b;
    } else {
      ApartConcat(See(w, a[0]), a[1..], b);
      assert (a + b)[1..] == a[1..] + b;
    }
  }

  /** No block is stopped after one has been started. */
  predicate StopsFirst(frames: seq<Frame>) {
    forall i, j | 0 <= i < j < |frames| :: frames[i].BlockStart? ==> !frames[j].BlockStop?
  }

  lemma {:induction false} OnlyGrows(w: Watch, frames: seq<Frame>)
    requires forall i | 0 <= i < |frames| :: !frames[i].BlockStop?
    ensures OneLive(SeeAll(w, frames)) ==> OneLive(w)
    decreases |frames|
  {
    if frames != [] {
      OnlyGrows(See(w, frames[0]), frames[1..]);
      var w1 := See(w, frames[0]);
      assert w1.stopped == w.stopped && w.kinds <= w1.kinds;
    }
  }

  /** Then only the end matters. */
  lemma {:induction false} ApartAtEnd(w: Watch, frames: seq<Frame>)
    requires OneLive(w) && StopsFirst(frames)
    ensures Apart(w, frames) <==> OneLive(SeeAll(w, frames))
    decreases |frames|
  {
    if frames != [] {
      var w1, rest := See(w, frames[0]), frames[1..];
      assert StopsFirst(rest) by {
        assert forall i | 0 <= i < |rest| :: rest[i] == frames[i + 1];
      }
      if frames[0].BlockStart? {
        assert forall i | 0 <= i < |rest| :: rest[i] == frames[i + 1];
        OnlyGrows(w1, rest);
      }
      if OneLive(w1) {
        ApartAtEnd(w1, rest);
      }
    }
  }

  // ---------- What the encoder has open ----------

  /** No two of thinking, text and tool blocks are open. */
  predicate OneOpen(s: Enc) {
    && (s.think >= 0 ==> s.text < 0 && s.toolBlocks == map[])
    && (s.text >= 0 ==> s.toolBlocks == map[])
    && (forall a, b | a in s.toolBlocks && b in s.toolBlocks :: a == b)
  }

  ghost predicate Books(s: Enc, w: Watch) {
    && Accounts(s, w)
    && forall a, b | a in s.toolBlocks && b in s.toolBlocks && a != b :: s.toolBlocks[a] != s.toolBlocks[b]
  }

  lemma OneLiveIsOneOpen(s: Enc, w: Watch)
    requires Books(s, w)
    ensures OneLive(w) <==> OneOpen(s)
  {
    if !OneOpen(s) {
      TwoAreOpen(s, w);
    } else if s.toolBlocks != map[] {
      var id :| id in s.toolBlocks;
      assert s.toolBlocks.Values == {s.toolBlocks[id]};
    }
  }

  lemma TwoAreOpen(s: Enc, w: Watch)
    requires Books(s, w) && !OneOpen(s)
    ensures !OneLive(w)
  {
    if s.think >= 0 && s.text >= 0 {
      assert w.Live(s.think, Thinking) && w.Live(s.text, TextBlock);
    } else if s.think >= 0 {
      var id :| id in s.toolBlocks;
      assert w.Live(s.think, Thinking) && w.Live(s.toolBlocks[id], ToolUse);
    } else if s.text >= 0 && s.toolBlocks != map[] {
      var id :| id in s.toolBlocks;
      assert w.Live(s.text, TextBlock) && w.Live(s.toolBlocks[id], ToolUse);
    } else {
      var a, b :| a in s.toolBlocks && b in s.toolBlocks && a != b;
      assert w.Live(s.toolBlocks[a], ToolUse) && w.Live(s.toolBlocks[b], ToolUse);
    }
  }

  lemma ToolBooks(s: Enc, w: Watch, id: string, name: string, args: string)
    requires Books(s, w)
    ensures var s1 := Encode(s, ToolCallDelta(id, name, args)).0;
            forall a, b | a in s1.toolBlocks && b in s1.toolBlocks && a != b :: s1.toolBlocks[a] != s1.toolBlocks[b]
  {
    assert forall call | call in s.toolBlocks :: s.toolBlocks[call] < s.next;
  }

  lemma ContentBooks(s: Enc, text: string, reasoning: bool)
    ensures var (s1, out) := Encode(s, ContentDelta(text, reasoning)); s1.toolBlocks == s.toolBlocks && StopsFirst(out)
  {
  }

  lemma DeltaStep(s: Enc, w: Watch, ev: Event)
    requires Books(s, w) && IsDelta(ev)
    ensures var (s1, out) := Encode(s, ev); Books(s1, SeeAll(w, out)) && StopsFirst(out)
  {
    if ev.ContentDelta? {
      ContentBooks(s, ev.text, ev.reasoning);
      hide Encode, Accounts, StopsFirst;
      if ev.reasoning {
        ThinkingStep(s, w, ev.text);
      } else {
        TextStep(s, w, ev.text);
      }
    } else {
      ToolBooks(s, w, ev.id, ev.name, ev.args);
      assert StopsFirst(Encode(s, ev).1);
      hide Encode, Accounts, StopsFirst;
      ToolStep(s, w, ev.id, ev.name, ev.args);
    }
  }

  /** One block at a time is open through all of the deltas. */
  predicate StaysOne(s: Enc, deltas: seq<Event>)
    decreases deltas
  {
    OneOpen(s) && (deltas != [] ==> StaysOne(Encode(s, deltas[0]).0, deltas[1..]))
  }

  lemma {:induction false} ApartIsStaysOne(s: Enc, w: Watch, deltas: seq<Event>)
    requires Books(s, w) && OnlyDeltas(deltas)
    ensures var (s1, out) := Run(Encode, s, deltas);
            Books(s1, SeeAll(w, out)) && (Apart(w, out) <==> StaysOne(s, deltas))
    decreases deltas
  {
    hide Books, OneOpen, OneLive, See, Encode, StopsFirst;
    OneLiveIsOneOpen(s, w);
    if deltas != [] {
      var s1, out := Encode(s, deltas[0]).0, Encode(s, deltas[0]).1;
      DeltaStep(s, w, deltas[0]);
      ApartIsStaysOne(s1, SeeAll(w, out), deltas[1..]);
      var more := Run(Encode, s1, deltas[1..]).1;
      SeeAllConcat(w, out, more);
      ApartConcat(w, out, more);
      OneLiveIsOneOpen(s1, SeeAll(w, out));
      if OneLive(w) {
        ApartAtEnd(w, out);
      } else {
        ApartStarts(w, out);
      }
      ApartStarts(SeeAll(w, out), more);
    }
  }

  lemma ApartStarts(w: Watch, frames: seq<Frame>)
    ensures Apart(w, frames) ==> OneLive(w)
  {
  }

  // ---------- What the deltas must be ----------

  predicate NoTools(deltas: seq<Event>) {
    forall i | 0 <= i < |deltas| :: deltas[i].ContentDelta?
  }

  /** All reasoning comes before all content. */
  predicate ThinksFirst(deltas: seq<Event>) {
    forall i, j | 0 <= i < j < |deltas| && deltas[i].ContentDelta? && deltas[j].ContentDelta? ::
      deltas[j].reasoning ==> deltas[i].reasoning
  }

  predicate AllContent(deltas: seq<Event>) {
    forall i | 0 <= i < |deltas| :: deltas[i].ContentDelta? && !deltas[i].reasoning
  }

  /** Only deltas of this call, which are those without an id or with its id. */
  predicate AllOf(call: string, deltas: seq<Event>) {
    forall i | 0 <= i < |deltas| :: deltas[i].ToolCallDelta? && (deltas[i].id == "" || deltas[i].id == call)
  }

  /** The call that the first delta opens. */
  function FirstCall(deltas: seq<Event>, spare: string): string {
    if deltas != [] && deltas[0].ToolCallDelta? && deltas[0].id != "" then deltas[0].id else spare
  }

  /** Reasoning, then content, and no calls; or a single call and nothing else. */
  predicate Separate(deltas: seq<Event>, spare: string) {
    (NoTools(deltas) && ThinksFirst(deltas)) || AllOf(FirstCall(deltas, spare), deltas)
  }

  lemma {:induction false} TextOpen(s: Enc, deltas: seq<Event>)
    requires OnlyDeltas(deltas) && s.text >= 0 && s.think < 0 && s.next >= 0 && s.toolBlocks == map[]
    ensures StaysOne(s, deltas) <==> AllContent(deltas)
    decreases deltas
  {
    if deltas != [] {
      var s1 := Encode(s, deltas[0]).0;
      if deltas[0].ContentDelta? && !deltas[0].reasoning {
        TextOpen(s1, deltas[1..]);
        assert forall i | 0 < i < |deltas| :: deltas[i] == deltas[1..][i - 1];
      } else {
        assert deltas[0].ToolCallDelta? ==> s1.tools.lastId in s1.toolBlocks;
        assert !OneOpen(s1);
      }
    }
  }

  lemma {:induction false} ThinkOpen(s: Enc, deltas: seq<Event>)
    requires OnlyDeltas(deltas) && s.think >= 0 && s.text < 0 && s.next >= 0 && s.toolBlocks == map[]
    ensures StaysOne(s, deltas) <==> NoTools(deltas) && ThinksFirst(deltas)
    decreases deltas
  {
    if deltas != [] {
      var s1 := Encode(s, deltas[0]).0;
      assert forall i | 0 < i < |deltas| :: deltas[i] == deltas[1..][i - 1];
      if deltas[0].ToolCallDelta? {
        assert s1.tools.lastId in s1.toolBlocks;
        assert !OneOpen(s1);
      } else if deltas[0].reasoning {
        ThinkOpen(s1, deltas[1..]);
        ThinkMore(deltas);
      } else {
        TextOpen(s1, deltas[1..]);
        ContentMore(deltas);
      }
    }
  }

  lemma ThinkMore(deltas: seq<Event>)
    requires deltas != [] && deltas[0].ContentDelta? && deltas[0].reasoning
    ensures NoTools(deltas) && ThinksFirst(deltas) <==> NoTools(deltas[1..]) && ThinksFirst(deltas[1..])
  {
    assert forall i | 0 < i < |deltas| :: deltas[i] == deltas[1..][i - 1];
    assert forall i | 0 <= i < |deltas[1..]| :: deltas[1..][i] == deltas[i + 1];
  }

  lemma ContentMore(deltas: seq<Event>)
    requires deltas != [] && deltas[0].ContentDelta? && !deltas[0].reasoning
    ensures NoTools(deltas) && ThinksFirst(deltas) <==> AllContent(deltas[1..])
  {
    assert forall i | 0 < i < |deltas| :: deltas[i] == deltas[1..][i - 1];
    assert forall i | 0 <= i < |deltas[1..]| :: deltas[1..][i] == deltas[i + 1];
  }

  lemma {:induction false} CallOpen(s: Enc, deltas: seq<Event>, call: string)
    requires OnlyDeltas(deltas) && s.think < 0 && s.text < 0 && s.next >= 0
    requires call != "" && s.tools.lastId == call && s.toolBlocks.Keys == {call}
    ensures StaysOne(s, deltas) <==> AllOf(call, deltas)
    decreases deltas
  {
    if deltas != [] {
      var s1 := Encode(s, deltas[0]).0;
      assert forall i | 0 < i < |deltas| :: deltas[i] == deltas[1..][i - 1];
      assert call in s.toolBlocks;
      if deltas[0].ToolCallDelta? && (deltas[0].id == "" || deltas[0].id == call) {
        CallOpen(s1, deltas[1..], call);
      } else {
        assert call in s1.toolBlocks;
        assert deltas[0].ToolCallDelta? ==> deltas[0].id in s1.toolBlocks;
        assert !OneOpen(s1);
      }
    }
  }

  /** From a fresh encoder. */
  lemma FreshOpen(s: Enc, deltas: seq<Event>, spare: string)
    requires OnlyDeltas(deltas) && s.think < 0 && s.text < 0 && s.next >= 0 && s.toolBlocks == map[]
    requires s.tools == NewTracker(spare) && spare != ""
    ensures StaysOne(s, deltas) <==> Separate(deltas, spare)
  {
    if deltas != [] {
      var s1 := Encode(s, deltas[0]).0;
      hide StaysOne, AllOf, NoTools, ThinksFirst, AllContent;
      FreshStep(s, deltas, spare);
      if deltas[0].ToolCallDelta? {
        CallOpen(s1, deltas[1..], FirstCall(deltas, spare));
      } else if deltas[0].reasoning {
        ThinkOpen(s1, deltas[1..]);
        ThinkMore(deltas);
      } else {
        TextOpen(s1, deltas[1..]);
        ContentMore(deltas);
      }
    }
  }

  lemma FreshStep(s: Enc, deltas: seq<Event>, spare: string)
    requires OnlyDeltas(deltas) && deltas != [] && s.think < 0 && s.text < 0 && s.toolBlocks == map[]
    ensures StaysOne(s, deltas) <==> StaysOne(Encode(s, deltas[0]).0, deltas[1..])
    ensures deltas[0].ContentDelta? ==> !AllOf(FirstCall(deltas, spare), deltas)
    ensures deltas[0].ToolCallDelta? ==> !NoTools(deltas)
    ensures deltas[0].ToolCallDelta? ==>
              (AllOf(FirstCall(deltas, spare), deltas) <==> AllOf(FirstCall(deltas, spare), deltas[1..]))
  {
    assert forall i | 0 < i < |deltas| :: deltas[i] == deltas[1..][i - 1];
  }

  // ---------- The result ----------

  lemma {:induction false} ClosingApart(w: Watch, frames: seq<Frame>)
    requires OneLive(w) && forall i | 0 <= i < |frames| :: !frames[i].BlockStart?
    ensures Apart(w, frames)
    decreases |frames|
  {
    if frames != [] {
      ClosingApart(See(w, frames[0]), frames[1..]);
    }
  }

  lemma ClosingStartsNothing(s: Enc, reason: string, usage: Option<Usage>)
    ensures forall f <- Encode(s, MessageFinish(reason, usage)).1 :: !f.BlockStart?
  {
    hide SortedBlocks;
  }

  /** Blocks never overlap, at any frame of the stream, exactly if the run is reasoning, then content,
      without calls, or is a single call and nothing else. */
  lemma BlocksApart(s: Session, model: string, spare: string)
    requires OnlyDeltas(s.deltas) && spare != ""
    ensures var frames := Run(Encode, NewEnc(model, spare), s.Events()).1;
            (forall n | 0 <= n <= |frames| :: OneLive(SeeAll(START_WATCH, frames[..n]))) <==> Separate(s.deltas, spare)
  {
    var e0, e1, mid := EncodeSession(s, model, spare);
    var first := MsgStart(s.model, 0, 0, 0);
    var last := Encode(e1, MessageFinish(s.reason, s.usage)).1;
    assert Books(e0, START_WATCH);
    FreshOpen(e0, s.deltas, spare);
    hide Separate, Encode, StaysOne, Books, NewEnc;
    ApartIsPrefixes(START_WATCH, [first] + (mid + last));
    ApartConcat(START_WATCH, [first], mid + last);
    SeeOne(START_WATCH, first);
    ClosingApart(START_WATCH, [first]);
    ApartConcat(START_WATCH, mid, last);
    ApartIsStaysOne(e0, START_WATCH, s.deltas);
    var w := SeeAll(START_WATCH, mid);
    ClosingStartsNothing(e1, s.reason, s.usage);
    ApartStarts(w, last);
    ApartEnds(START_WATCH, mid);
    if OneLive(w) {
      ClosingApart(w, last);
    }
  }

  lemma {:induction false} ApartEnds(w: Watch, frames: seq<Frame>)
    ensures Apart(w, frames) ==> OneLive(SeeAll(w, frames))
    decreases |frames|
  {
    hide OneLive, See;
    if frames != [] {
      ApartEnds(See(w, frames[0]), frames[1..]);
    }
  }

  const TEXT_THEN_CALL := Session("m", [ContentDelta("Hi", false), ToolCallDelta("c", "f", "")], "tool_calls", None)

  /** Text followed by a call: after four frames blocks 0 and 1 are both live. */
  lemma TextThenCallOverlap()
    ensures TEXT_THEN_CALL.Legal()
    ensures var frames := Run(Encode, NewEnc("m", "spare"), TEXT_THEN_CALL.Events()).1;
            && |frames| >= 4
            && SeeAll(START_WATCH, frames[..4]) == Watch([TextBlock, ToolUse], {}, false, true)
  {
    var text, call := TEXT_THEN_CALL.deltas[0], TEXT_THEN_CALL.deltas[1];
    var e0, e1, mid := EncodeSession(TEXT_THEN_CALL, "m", "spare");
    RunTwo(Encode, e0, text, call);
    assert TEXT_THEN_CALL.deltas == [text, call];
    assert mid == [BlockStart(0, TextBlock, "", ""), TextDelta(0, "Hi"), BlockStart(1, ToolUse, "c", "f")];
    var frames := Run(Encode, NewEnc("m", "spare"), TEXT_THEN_CALL.Events()).1;
    assert frames[..4] == [MsgStart("m", 0, 0, 0)] + mid;
    hide Encode;
    SeeAllConcat(START_WATCH, [MsgStart("m", 0, 0, 0)], mid);
    SeeOne(START_WATCH, MsgStart("m", 0, 0, 0));
    assert mid == [mid[0]] + ([mid[1]] + [mid[2]]);
    SeeAllConcat(START_WATCH, [mid[0]], [mid[1]] + [mid[2]]);
    SeeOne(START_WATCH, mid[0]);
    var w := See(START_WATCH, mid[0]);
    SeeAllConcat(w, [mid[1]], [mid[2]]);
    SeeOne(w, mid[1]);
    SeeOne(See(w, mid[1]), mid[2]);
  }
}
