/** Splitting what a plugin writes to stderr into log lines (plugin/manager.go). */
module Stderr {
  type Bytes = seq<bv8>

  const LF: bv8 := 10
  const CR: bv8 := 13
  const MAX_BUFFER := 0x1_0000

  function TrimRight(s: Bytes): Bytes {
    if s != [] && s[|s| - 1] == CR then TrimRight(s[..|s| - 1]) else s
  }

  /** What is trimmed are the carriage returns at the end, and all of them. */
  lemma {:induction false} TrimRightSpec(s: Bytes)
    ensures var t := TrimRight(s);
            && t <= s && (forall i | |t| <= i < |s| :: s[i] == CR)
            && (t != [] ==> t[|t| - 1] != CR)
    ensures TrimRight(s) != [] <==> exists i | 0 <= i < |s| :: s[i] != CR
    decreases |s|
  {
    if s != [] {
      var last := |s| - 1;
      TrimRightSpec(s[..last]);
      assert s == s[..last] + [s[last]];
      var t := TrimRight(s);
      assert t != [] ==> s[|t| - 1] != CR;
    }
  }

  // ---------- Lines of a stream ----------

  /** The complete lines, without their line feeds. */
  function Lines(s: Bytes): seq<Bytes> {
    if s == [] then []
    else
      var front := s[..|s| - 1];
      if s[|s| - 1] == LF then Lines(front) + [Rest(front)] else Lines(front)
  }

  /** What follows the last line feed. */
  function Rest(s: Bytes): Bytes {
    if s == [] || s[|s| - 1] == LF then [] else Rest(s[..|s| - 1]) + [s[|s| - 1]]
  }

  function Unlines(lines: seq<Bytes>): Bytes {
    if lines == [] then [] else Unlines(lines[..|lines| - 1]) + lines[|lines| - 1] + [LF]
  }

  predicate OneLine(s: Bytes) {
    LF !in s
  }

  /** The stream is its lines, each ended by a line feed, and the rest; neither holds a line feed. */
  lemma {:induction false} LinesSpec(s: Bytes)
    ensures Unlines(Lines(s)) + Rest(s) == s && OneLine(Rest(s))
    ensures forall i | 0 <= i < |Lines(s)| :: OneLine(Lines(s)[i])
    decreases s
  {
    if s != [] {
      var front := s[..|s| - 1];
      LinesSpec(front);
      assert s == front + [s[|s| - 1]];
      if s[|s| - 1] == LF {
        var lines := Lines(front) + [Rest(front)];
        assert lines[..|lines| - 1] == Lines(front);
      }
    }
  }

  /** The lines that are logged: trimmed, and dropped if nothing is left. */
  function Logged(lines: seq<Bytes>): seq<Bytes> {
    if lines == [] then []
    else
      var line := TrimRight(lines[|lines| - 1]);
      Logged(lines[..|lines| - 1]) + if line != [] then [line] else []
  }

  /** Line by line from the front: those that hold anything but carriage returns. */
  function Visible(lines: seq<Bytes>): seq<Bytes> {
    if lines == [] then []
    else (if exists i | 0 <= i < |lines[0]| :: lines[0][i] != CR then [TrimRight(lines[0])] else []) + Visible(lines[1..])
  }

  lemma {:induction false} LoggedIsVisible(lines: seq<Bytes>)
    ensures Logged(lines) == Visible(lines)
    decreases |lines|
  {
    if lines != [] {
      hide TrimRight;
      LoggedConcat([lines[0]], lines[1..]);
      assert lines == [lines[0]] + lines[1..];
      LoggedOne(lines[0]);
      TrimRightSpec(lines[0]);
      LoggedIsVisible(lines[1..]);
    }
  }

  lemma {:induction false} LoggedConcat(a: seq<Bytes>, b: seq<Bytes>)
    ensures Logged(a + b) == Logged(a) + Logged(b)
    decreases |b|
  {
    if b == [] {
      assert a + b == a;
    } else {
      LoggedConcat(a, b[..|b| - 1]);
      assert (a + b)[..|a + b| - 1] == a + b[..|b| - 1];
    }
  }

  /** Only the rest of the first part matters for the lines of the second. */
  lemma {:induction false} Append(a: Bytes, b: Bytes)
    ensures Lines(a + b) == Lines(a) + Lines(Rest(a) + b)
    ensures Rest(a + b) == Rest(Rest(a) + b)
    decreases |b|
  {
    if b == [] {
      assert a + b == a && Rest(a) + b == Rest(a);
      LinesSpec(a);
      NoLines(Rest(a));
    } else {
      var n := |b| - 1;
      Append(a, b[..n]);
      assert (a + b)[..|a + b| - 1] == a + b[..n];
      assert (Rest(a) + b)[..|Rest(a) + b| - 1] == Rest(a) + b[..n];
    }
  }

  lemma {:induction false} NoLines(s: Bytes)
    requires OneLine(s)
    ensures Lines(s) == [] && Rest(s) == s
    decreases |s|
  {
    if s != [] {
      assert s[|s| - 1] in s;
      NoLines(s[..|s| - 1]);
      assert s[..|s| - 1] + [s[|s| - 1]] == s;
    }
  }

  lemma LineAlone(s: Bytes)
    requires OneLine(s)
    ensures Lines(s + [LF]) == [s] && Rest(s + [LF]) == []
  {
    NoLines(s);
    assert (s + [LF])[..|s|] == s;
  }

  lemma FirstLine(s: Bytes, i: nat)
    requires i < |s| && s[i] == LF && OneLine(s[..i])
    ensures Lines(s) == [s[..i]] + Lines(s[i + 1..]) && Rest(s) == Rest(s[i + 1..])
  {
    hide Lines, Rest;
    var line, tail := s[..i] + [LF], s[i + 1..];
    LineAlone(s[..i]);
    Append(line, tail);
    assert s == line + tail;
    assert [] + tail == tail;
  }

  // ---------- One write ----------

  datatype State = State(buffer: Bytes, logged: seq<Bytes>)

  /** A rest that is too long is dropped. */
  function Write(s: State, p: Bytes): State {
    var all := s.buffer + p;
    var rest := Rest(all);
    State(if |rest| > MAX_BUFFER then [] else rest, s.logged + Logged(Lines(all)))
  }

  class PluginStderr {
    var buffer: Bytes
    var logged: seq<Bytes>

    ghost function St(): State
      reads this
    {
      State(buffer, logged)
    }

    constructor ()
      ensures St() == State([], [])
    {
      buffer, logged := [], [];
    }

    method Put(p: Bytes) returns (n: nat)
      modifies this
      ensures n == |p| && St() == Write(old(St()), p)
    {
      hide Logged, Lines, Rest;
      buffer := buffer + p;
      ghost var all := buffer;
      ghost var before := logged;
      assert before + Logged(Lines(all)) == logged + Logged(Lines(buffer));
      while LF in buffer
        invariant logged + Logged(Lines(buffer)) == before + Logged(Lines(all)) && Rest(buffer) == Rest(all)
        decreases |buffer|
      {
        var i := IndexByte(buffer);
        FirstLine(buffer, i);
        LoggedConcat([buffer[..i]], Lines(buffer[i + 1..]));
        LoggedOne(buffer[..i]);
        var line := TrimRight(buffer[..i]);
        ghost var rest := Logged(Lines(buffer[i + 1..]));
        assert logged + ([line] + rest) == (logged + [line]) + rest && logged + ([] + rest) == logged + rest;
        buffer := buffer[i + 1..];
        if line != [] {
          logged := logged + [line];
        }
      }
      NoLines(buffer);
      LoggedNone();
      assert logged + [] == logged;
      if |buffer| > MAX_BUFFER {
        buffer := [];
      }
      n := |p|;
    }
  }

  lemma LoggedOne(line: Bytes)
    ensures Logged([line]) == if TrimRight(line) != [] then [TrimRight(line)] else []
  {
    assert [line][..0] == [];
  }

  lemma LoggedNone()
    ensures Logged([]) == []
  {
  }

  method IndexByte(s: Bytes) returns (i: nat)
    requires LF in s
    ensures i < |s| && s[i] == LF && OneLine(s[..i])
  {
    i := 0;
    while s[i] != LF
      invariant i < |s| && OneLine(s[..i]) && LF in s[i..]
      decreases |s| - i
    {
      assert s[i..] == [s[i]] + s[i + 1..];
      i := i + 1;
    }
  }

  // ---------- Many writes ----------

  function WriteAll(s: State, ps: seq<Bytes>): State {
    if ps == [] then s else Write(WriteAll(s, ps[..|ps| - 1]), ps[|ps| - 1])
  }

  function Concat(ps: seq<Bytes>): Bytes {
    if ps == [] then [] else Concat(ps[..|ps| - 1]) + ps[|ps| - 1]
  }

  /** The lines of the whole stream logged, the bytes after its last line feed buffered. */
  predicate InStep(ps: seq<Bytes>) {
    WriteAll(State([], []), ps) == State(Rest(Concat(ps)), Logged(Lines(Concat(ps))))
  }

  /** No write leaves more than the limit after its last line feed. */
  predicate NeverTooLong(ps: seq<Bytes>) {
    forall n | 0 <= n <= |ps| :: |Rest(Concat(ps[..n]))| <= 65_536
  }

  lemma StepInStep(ps: seq<Bytes>)
    requires ps != [] && InStep(ps[..|ps| - 1])
    ensures InStep(ps) <==> |Rest(Concat(ps))| <= 65_536
  {
    hide Lines, Rest, Logged;
    var front := ps[..|ps| - 1];
    Append(Concat(front), ps[|ps| - 1]);
    LoggedConcat(Lines(Concat(front)), Lines(Rest(Concat(front)) + ps[|ps| - 1]));
  }

  lemma StartInStep()
    ensures InStep([]) && |Rest(Concat([]))| <= 65_536
  {
  }

  /** However a stream is cut into writes, the logged lines are the trimmed, non-empty complete lines
      of the stream so far, and the buffer what follows the last of them, at every write exactly if
      no write leaves more than the limit. */
  lemma {:induction false} ChunkIndependence(ps: seq<Bytes>)
    ensures (forall n | 0 <= n <= |ps| :: InStep(ps[..n])) <==> NeverTooLong(ps)
    decreases |ps|
  {
    hide Rest, InStep, Concat;
    assert ps[..|ps|] == ps;
    if ps == [] {
      StartInStep();
      assert ps[..0] == [];
    } else {
      var front := ps[..|ps| - 1];
      ChunkIndependence(front);
      assert forall n | 0 <= n <= |front| :: front[..n] == ps[..n];
      assert front[..|front|] == front;
      if InStep(front) {
        StepInStep(ps);
      }
    }
  }
}
