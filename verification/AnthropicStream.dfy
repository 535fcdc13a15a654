/** What the parser makes of any frames from any upstream, read off the frames alone. */
module AnthropicStream {
  import opened Text
  import opened Envelope
  import opened Machines
  import opened Anthropic
  import OpenAI

  // ---------- What the frames say ----------

  predicate Closes(f: Frame) {
    f.MsgStop? || (f.MsgDelta? && f.stopReason != "")
  }

  /** How many frames come before the first that closes the message. */
  function BeforeClose(frames: seq<Frame>): (n: nat)
    ensures n <= |frames| && (n < |frames| ==> Closes(frames[n])) && forall i | 0 <= i < n :: !Closes(frames[i])
  {
    if frames == [] || Closes(frames[0]) then 0 else 1 + BeforeClose(frames[1..])
  }

  function ReasonOf(f: Frame): string {
    if !f.MsgDelta? then "stop"
    else if f.stopReason == "tool_use" then "tool_calls"
    else if f.stopReason == "max_tokens" then "length"
    else "stop"
  }

  /** The frames that report counts. */
  function Reports(frames: seq<Frame>): seq<RawUsage> {
    if frames == [] then []
    else
      var f := frames[|frames| - 1];
      Reports(frames[..|frames| - 1])
      + match f
        case MsgStart(_, input, cacheRead, cacheCreate) => [RawUsage(input, cacheRead, cacheCreate, 0)]
        case MsgDelta(_, input, output, cacheRead, cacheCreate) => [RawUsage(input, cacheRead, cacheCreate, output)]
        case _ => []
  }

  function Each(reports: seq<RawUsage>, pick: RawUsage -> int): seq<int> {
    seq(|reports|, i requires 0 <= i < |reports| => pick(reports[i]))
  }

  /** Every count is the largest that was reported for it, or 0. */
  function Peak(frames: seq<Frame>): RawUsage {
    var r := Reports(frames);
    RawUsage(OpenAI.Largest(Each(r, (u: RawUsage) => u.input)), OpenAI.Largest(Each(r, (u: RawUsage) => u.cacheRead)),
             OpenAI.Largest(Each(r, (u: RawUsage) => u.cacheCreate)), OpenAI.Largest(Each(r, (u: RawUsage) => u.output)))
  }

  /** The last block started under an index. */
  function LastStart(seen: seq<Frame>, index: int): BlockInfo {
    if seen == [] then BlockInfo(None, "", "")
    else
      var f := seen[|seen| - 1];
      if f.BlockStart? && f.index == index then BlockInfo(Some(f.kind), f.id, f.name) else LastStart(seen[..|seen| - 1], index)
  }

  function EventOf(f: Frame, seen: seq<Frame>): seq<Event> {
    match f
    case MsgStart(model, _, _, _) => [MessageStart(model)]
    case TextDelta(_, text) => [ContentDelta(text, false)]
    case InputJsonDelta(index, json) => [ToolCallDelta(LastStart(seen, index).id, LastStart(seen, index).name, json)]
    case _ => []
  }

  /** Frame by frame: starts, text, and fragments under the id and name of their block. */
  function EventsOf(frames: seq<Frame>, seen: seq<Frame>): seq<Event>
    decreases |frames|
  {
    if frames == [] then [] else EventOf(frames[0], seen) + EventsOf(frames[1..], seen + [frames[0]])
  }

  // ---------- What the parser remembers ----------

  ghost predicate Knows(p: Par, seen: seq<Frame>) {
    && p.pending == Peak(seen)
    && forall i :: (if i in p.blocks then p.blocks[i] else NO_BLOCK) == LastStart(seen, i)
  }

  lemma LargestSnoc(vals: seq<int>, v: int)
    ensures OpenAI.Largest(vals + [v]) == Larger(OpenAI.Largest(vals), v)
  {
    hide OpenAI.Largest;
    var m, all := OpenAI.Largest(vals), vals + [v];
    assert all[|vals|] == v && v in all;
    forall w <- vals ensures w in all {
      var i :| 0 <= i < |vals| && vals[i] == w;
      assert all[i] == w;
    }
    assert forall w <- all :: w in vals || w == v;
  }

  lemma EachSnoc(reports: seq<RawUsage>, u: RawUsage, pick: RawUsage -> int)
    ensures Each(reports + [u], pick) == Each(reports, pick) + [pick(u)]
  {
  }

  lemma PeakSnoc(seen: seq<Frame>, f: Frame)
    ensures Peak(seen + [f]) ==
              match f
              case MsgStart(_, input, cacheRead, cacheCreate) => Peak(seen).Merge(RawUsage(input, cacheRead, cacheCreate, 0))
              case MsgDelta(_, input, output, cacheRead, cacheCreate) => Peak(seen).Merge(RawUsage(input, cacheRead, cacheCreate, output))
              case _ => Peak(seen)
  {
    assert (seen + [f])[..|seen|] == seen && (seen + [f])[|seen|] == f;
    var r := Reports(seen);
    if f.MsgStart? || f.MsgDelta? {
      var u := RawUsage(f.input, f.cacheRead, f.cacheCreate, if f.MsgDelta? then f.output else 0);
      assert Reports(seen + [f]) == r + [u];
      hide Each, OpenAI.Largest, Reports;
      EachSnoc(r, u, (u: RawUsage) => u.input);
      EachSnoc(r, u, (u: RawUsage) => u.cacheRead);
      EachSnoc(r, u, (u: RawUsage) => u.cacheCreate);
      EachSnoc(r, u, (u: RawUsage) => u.output);
      LargestSnoc(Each(r, (u: RawUsage) => u.input), u.input);
      LargestSnoc(Each(r, (u: RawUsage) => u.cacheRead), u.cacheRead);
      LargestSnoc(Each(r, (u: RawUsage) => u.cacheCreate), u.cacheCreate);
      LargestSnoc(Each(r, (u: RawUsage) => u.output), u.output);
    } else {
      assert r + [] == r;
    }
  }

  lemma LastStartSnoc(seen: seq<Frame>, f: Frame, i: int)
    ensures LastStart(seen + [f], i)
         == if f.BlockStart? && f.index == i then BlockInfo(Some(f.kind), f.id, f.name) else LastStart(seen, i)
  {
    assert (seen + [f])[..|seen|] == seen && (seen + [f])[|seen|] == f;
  }

  lemma FrameStep(p: Par, f: Frame, seen: seq<Frame>)
    requires Knows(p, seen)
    ensures var (p1, out) := FeedFrame(p, f);
            && Knows(p1, seen + [f])
            && p1.sentFinish == (p.sentFinish || Closes(f))
            && out == EventOf(f, seen)
                      + if Closes(f) && !p.sentFinish
                        then [MessageFinish(ReasonOf(f), Some(Peak(seen + [f]).Envelope()))] else []
  {
    PeakSnoc(seen, f);
    hide Peak, LastStart;
    var p1 := FeedFrame(p, f).0;
    forall i ensures (if i in p1.blocks then p1.blocks[i] else NO_BLOCK) == LastStart(seen + [f], i) {
      LastStartSnoc(seen, f, i);
      assert (if i in p.blocks then p.blocks[i] else NO_BLOCK) == LastStart(seen, i);
    }
    if f.InputJsonDelta? {
      assert (if f.index in p.blocks then p.blocks[f.index] else NO_BLOCK) == LastStart(seen, f.index);
    }
  }

  // ---------- Streams ----------

  lemma {:induction false} AfterFinish(p: Par, frames: seq<Frame>, seen: seq<Frame>)
    requires Knows(p, seen) && p.sentFinish
    ensures var (p1, out) := Run(FeedFrame, p, frames); p1.sentFinish && out == EventsOf(frames, seen)
    decreases |frames|
  {
    hide Knows, FeedFrame, EventOf;
    if frames != [] {
      FrameStep(p, frames[0], seen);
      assert EventOf(frames[0], seen) + [] == EventOf(frames[0], seen);
      AfterFinish(FeedFrame(p, frames[0]).0, frames[1..], seen + [frames[0]]);
    }
  }

  ghost predicate Parses(p: Par, frames: seq<Frame>, seen: seq<Frame>) {
    var (p1, out) := Run(FeedFrame, p, frames);
    var n := BeforeClose(frames);
    out + EndOfStream(p1) ==
      if n == |frames| then EventsOf(frames, seen) + [MessageFinish("stop", None)]
      else EventsOf(frames[..n], seen) + [MessageFinish(ReasonOf(frames[n]), Some(Peak(seen + frames[..n + 1]).Envelope()))]
           + EventsOf(frames[n + 1..], seen + frames[..n + 1])
  }

  lemma {:induction false} RunParses(p: Par, frames: seq<Frame>, seen: seq<Frame>)
    requires Knows(p, seen) && !p.sentFinish
    ensures Parses(p, frames, seen)
    decreases |frames|
  {
    hide Knows, FeedFrame, Parses, Peak, EventOf;
    if frames == [] {
      NothingParsed(p, seen);
    } else {
      FrameStep(p, frames[0], seen);
      if Closes(frames[0]) {
        ParsesClosing(p, frames, seen);
      } else {
        RunParses(FeedFrame(p, frames[0]).0, frames[1..], seen + [frames[0]]);
        ParsesPlain(p, frames, seen);
      }
    }
  }

  lemma NothingParsed(p: Par, seen: seq<Frame>)
    requires !p.sentFinish
    ensures Parses(p, [], seen)
  {
  }

  lemma ParsesClosing(p: Par, frames: seq<Frame>, seen: seq<Frame>)
    requires Knows(p, seen) && !p.sentFinish && frames != [] && Closes(frames[0])
    ensures Parses(p, frames, seen)
  {
    hide Knows, FeedFrame, Peak;
    var f := frames[0];
    FrameStep(p, f, seen);
    AfterFinish(FeedFrame(p, f).0, frames[1..], seen + [f]);
    assert frames[..0] == [] && frames[..1] == [f];
    var out := Run(FeedFrame, p, frames).1;
    assert EventOf(f, seen) == [];
    assert out + [] == out;
  }

  lemma RunFirst(p: Par, frames: seq<Frame>)
    requires frames != []
    ensures var (p1, now) := FeedFrame(p, frames[0]);
            var (p2, more) := Run(FeedFrame, p1, frames[1..]);
            Run(FeedFrame, p, frames) == (p2, now + more)
  {
  }

  lemma EventsFirst(f: Frame, rest: seq<Frame>, seen: seq<Frame>)
    ensures EventsOf([f] + rest, seen) == EventOf(f, seen) + EventsOf(rest, seen + [f])
  {
    assert ([f] + rest)[1..] == rest;
  }

  lemma Behind(f: Frame, rest: seq<Frame>, i: nat)
    requires i <= |rest|
    ensures ([f] + rest)[..i + 1] == [f] + rest[..i] && ([f] + rest)[i + 1..] == rest[i..]
  {
  }

  /** Where the message closes in the rest, it closes in the whole. */
  lemma ClosesLater(frames: seq<Frame>, seen: seq<Frame>)
    requires frames != [] && !Closes(frames[0])
    ensures var f, rest := frames[0], frames[1..];
            var m := BeforeClose(rest);
            && frames == [f] + rest && BeforeClose(frames) == m + 1
            && (m < |rest| ==>
                  && frames[..m + 1] == [f] + rest[..m] && frames[m + 1] == rest[m] && frames[m + 2..] == rest[m + 1..]
                  && seen + frames[..m + 2] == seen + [f] + rest[..m + 1])
  {
    var f, rest := frames[0], frames[1..];
    var m := BeforeClose(rest);
    assert BeforeClose(frames) == m + 1;
    hide Closes, BeforeClose;
    assert frames == [f] + rest;
    if m < |rest| {
      Behind(f, rest, m);
      Behind(f, rest, m + 1);
      Regroup(seen, [f], rest[..m + 1]);
    }
  }

  lemma ParsesPlain(p: Par, frames: seq<Frame>, seen: seq<Frame>)
    requires Knows(p, seen) && !p.sentFinish && frames != [] && !Closes(frames[0])
    requires Parses(FeedFrame(p, frames[0]).0, frames[1..], seen + [frames[0]])
    ensures Parses(p, frames, seen)
  {
    hide Knows, FeedFrame, Peak, EventOf, EventsOf, Run, BeforeClose, EndOfStream, ReasonOf, Closes;
    var f, rest := frames[0], frames[1..];
    FrameStep(p, f, seen);
    ClosesLater(frames, seen);
    RunFirst(p, frames);
    var now := EventOf(f, seen);
    assert now + [] == now;
    var m, p1 := BeforeClose(rest), FeedFrame(p, f).0;
    Regroup(now, Run(FeedFrame, p1, rest).1, EndOfStream(Run(FeedFrame, p1, rest).0));
    if m == |rest| {
      EventsFirst(f, rest, seen);
      Regroup(now, EventsOf(rest, seen + [f]), [MessageFinish("stop", None)]);
    } else {
      EventsFirst(f, rest[..m], seen);
      var fin := [MessageFinish(ReasonOf(rest[m]), Some(Peak(seen + [f] + rest[..m + 1]).Envelope()))];
      var front, tail := EventsOf(rest[..m], seen + [f]), EventsOf(rest[m + 1..], seen + [f] + rest[..m + 1]);
      Regroup(now, front, fin);
      Regroup(now, front + fin, tail);
    }
  }

  /** Whatever the upstream sends: starts, text and fragments frame by frame, and in between exactly one
      finish, in the place of the first frame that closes the message, with its reason and for each count
      the largest reported until then; or at the end, without counts. */
  lemma EveryStream(frames: seq<Frame>)
    ensures var (p, out) := Run(FeedFrame, NEW_PARSER, frames);
            var n := BeforeClose(frames);
            out + EndOfStream(p) ==
              if n == |frames| then EventsOf(frames, []) + [MessageFinish("stop", None)]
              else EventsOf(frames[..n], []) + [MessageFinish(ReasonOf(frames[n]), Some(Peak(frames[..n + 1]).Envelope()))]
                   + EventsOf(frames[n + 1..], frames[..n + 1])
  {
    hide FeedFrame, Peak, EventsOf, Knows, EndOfStream, Run, ReasonOf;
    StartsKnowing();
    RunParses(NEW_PARSER, frames, []);
    var n := BeforeClose(frames);
    if n < |frames| {
      Regroup([], [], frames[..n + 1]);
    }
  }

  lemma StartsKnowing()
    ensures Knows(NEW_PARSER, [])
  {
  }

  /** Only the finish is none of these. */
  lemma {:induction false} NoFinishBetween(frames: seq<Frame>, seen: seq<Frame>)
    ensures forall e <- EventsOf(frames, seen) :: IsDelta(e) || e.MessageStart?
    decreases |frames|
  {
    if frames != [] {
      NoFinishBetween(frames[1..], seen + [frames[0]]);
    }
  }
}
