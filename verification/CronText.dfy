/** The string helpers of the cron parser: splitting, numbers, positions
    (task/cron.go). */
module CronText {
  import opened Text

  // ---------- Splitting ----------

  predicate Without(s: string, sep: char) {
    forall i | 0 <= i < |s| :: s[i] != sep
  }

  /** The stretches between separators; there is always at least one. */
  function Split(s: string, sep: char): (r: seq<string>)
    ensures r != []
  {
    if s == "" then [""]
    else
      var r := Split(s[..|s| - 1], sep);
      var c := s[|s| - 1];
      if c == sep then r + [""] else r[..|r| - 1] + [r[|r| - 1] + [c]]
  }

  function Join(parts: seq<string>, sep: char): string
    requires parts != []
  {
    var last := |parts| - 1;
    if last == 0 then parts[0] else Join(parts[..last], sep) + [sep] + parts[last]
  }

  lemma SplitNext(s: string, c: char, sep: char)
    requires c != sep
    ensures var r := Split(s, sep); Split(s + [c], sep) == r[..|r| - 1] + [r[|r| - 1] + [c]]
  {
    assert (s + [c])[..|s|] == s && (s + [c])[|s|] == c;
  }

  lemma {:induction false} SplitAppend(a: string, b: string, sep: char)
    requires Without(b, sep)
    ensures var r := Split(a, sep);
            Split(a + b, sep) == r[..|r| - 1] + [r[|r| - 1] + b]
    decreases b
  {
    hide Split;
    var r := Split(a, sep);
    var front, end := r[..|r| - 1], r[|r| - 1];
    if b == "" {
      assert a + b == a && end + b == end && front + [end] == r;
    } else {
      var n := |b| - 1;
      SplitAppend(a, b[..n], sep);
      SplitNext(a + b[..n], b[n], sep);
      assert (a + b[..n]) + [b[n]] == a + b;
      assert (end + b[..n]) + [b[n]] == end + b;
      assert (front + [end + b[..n]])[..|front|] == front;
    }
  }

  lemma SplitMore(front: string, sep: char, b: string)
    requires Without(b, sep)
    ensures Split(front + [sep] + b, sep) == Split(front, sep) + [b]
  {
    var s := front + [sep];
    assert s[..|s| - 1] == front;
    SplitAppend(s, b, sep);
    assert "" + b == b;
  }

  /** Splitting undoes joining. */
  lemma {:induction false} SplitJoin(parts: seq<string>, sep: char)
    requires parts != [] && forall i | 0 <= i < |parts| :: Without(parts[i], sep)
    ensures Split(Join(parts, sep), sep) == parts
    decreases |parts|
  {
    hide Split;
    var last := |parts| - 1;
    if last == 0 {
      SplitOne(parts[0], sep);
      assert [parts[0]] == parts;
    } else {
      SplitJoin(parts[..last], sep);
      SplitMore(Join(parts[..last], sep), sep, parts[last]);
      assert parts[..last] + [parts[last]] == parts;
    }
  }

  lemma SplitOne(s: string, sep: char)
    requires Without(s, sep)
    ensures Split(s, sep) == [s]
  {
    SplitAppend("", s, sep);
    assert "" + s == s;
  }

  /** Joining undoes splitting, and no stretch contains the separator. */
  lemma {:induction false} JoinSplit(s: string, sep: char)
    ensures Join(Split(s, sep), sep) == s
    ensures forall i | 0 <= i < |Split(s, sep)| :: Without(Split(s, sep)[i], sep)
    decreases s
  {
    if s != "" {
      var n := |s| - 1;
      JoinSplit(s[..n], sep);
      var r := Split(s[..n], sep);
      assert s[..n] + [s[n]] == s;
      hide Join, Without;
      if s[n] == sep {
        JoinEmpty(r, sep);
      } else {
        JoinLonger(r, sep, s[n]);
      }
    }
  }

  lemma JoinEmpty(r: seq<string>, sep: char)
    requires r != []
    ensures Join(r + [""], sep) == Join(r, sep) + [sep] && Without("", sep)
  {
    assert (r + [""])[..|r|] == r;
    Regroup(Join(r, sep) + [sep], "", "");
  }

  /** The last stretch made longer by one character. */
  lemma JoinLonger(r: seq<string>, sep: char, c: char)
    requires r != [] && c != sep
    ensures var last := |r| - 1;
            && Join(r[..last] + [r[last] + [c]], sep) == Join(r, sep) + [c]
            && (Without(r[last], sep) ==> Without(r[last] + [c], sep))
  {
    var last := |r| - 1;
    var r1 := r[..last] + [r[last] + [c]];
    assert r1[..last] == r[..last];
    if last > 0 {
      Regroup(Join(r[..last], sep) + [sep], r[last], [c]);
    }
  }

  method SplitComma(s: string) returns (out: seq<string>)
    ensures out == Split(s, ',')
  {
    out := [];
    var cur := "";
    for i := 0 to |s|
      invariant out + [cur] == Split(s[..i], ',')
    {
      assert s[..i + 1][..i] == s[..i];
      ghost var r := Split(s[..i], ',');
      assert r[..|r| - 1] == out && r[|r| - 1] == cur;
      if s[i] == ',' {
        out := out + [cur];
        cur := "";
      } else {
        cur := cur + [s[i]];
      }
    }
    assert s[..|s|] == s;
    out := out + [cur];
  }

  predicate IsGap(c: char) {
    c == ' ' || c == '\t'
  }

  predicate IsToken(s: string) {
    s != "" && forall i | 0 <= i < |s| :: !IsGap(s[i])
  }

  /** Finished tokens and the one being read. */
  function Scan(s: string): (seq<string>, string) {
    if s == "" then ([], "")
    else
      var (out, cur) := Scan(s[..|s| - 1]);
      var c := s[|s| - 1];
      if !IsGap(c) then (out, cur + [c])
      else if cur != "" then (out + [cur], "") else (out, "")
  }

  function Tokens(s: string): seq<string> {
    var r := Scan(s);
    if r.1 != "" then r.0 + [r.1] else r.0
  }

  /** Go's range over a string; a byte sequence that is not UTF-8 is outside the model. */
  method SplitFields(s: string) returns (out: seq<string>)
    ensures out == Tokens(s)
  {
    out := [];
    var cur := "";
    for i := 0 to |s|
      invariant (out, cur) == Scan(s[..i])
    {
      assert s[..i + 1][..i] == s[..i];
      if s[i] == ' ' || s[i] == '\t' {
        if cur != "" {
          out := out + [cur];
          cur := "";
        }
      } else {
        cur := cur + [s[i]];
      }
    }
    assert s[..|s|] == s;
    if cur != "" {
      out := out + [cur];
    }
  }

  lemma {:induction false} ScanToken(a: string, b: string)
    requires forall i | 0 <= i < |b| :: !IsGap(b[i])
    ensures Scan(a + b) == (Scan(a).0, Scan(a).1 + b)
    decreases b
  {
    if b == "" {
      assert a + b == a && Scan(a).1 + b == Scan(a).1;
    } else {
      var n := |b| - 1;
      ScanToken(a, b[..n]);
      assert (a + b)[..|a + b| - 1] == a + b[..n];
      assert (Scan(a).1 + b[..n]) + [b[n]] == Scan(a).1 + b;
    }
  }

  lemma ScanMore(front: string, b: string)
    requires IsToken(b) && Scan(front).1 != ""
    ensures Scan(front + [' '] + b) == (Scan(front).0 + [Scan(front).1], b)
  {
    var s := front + [' '];
    assert s[..|s| - 1] == front;
    ScanToken(s, b);
    assert "" + b == b;
  }

  /** Tokens joined by single spaces are read back. */
  lemma {:induction false} ScanJoin(toks: seq<string>)
    requires toks != [] && forall i | 0 <= i < |toks| :: IsToken(toks[i])
    ensures Scan(Join(toks, ' ')) == (toks[..|toks| - 1], toks[|toks| - 1])
    ensures toks[|toks| - 1] != ""
    decreases |toks|
  {
    hide Scan;
    var last := |toks| - 1;
    if last == 0 {
      ScanOne(toks[0]);
    } else {
      ScanJoin(toks[..last]);
      ScanMore(Join(toks[..last], ' '), toks[last]);
      assert toks[..last][..last - 1] + [toks[last - 1]] == toks[..last];
    }
  }

  lemma ScanOne(s: string)
    requires IsToken(s)
    ensures Scan(s) == ([], s)
  {
    ScanToken("", s);
    assert "" + s == s;
  }

  lemma TokensJoin(toks: seq<string>)
    requires toks != [] && forall i | 0 <= i < |toks| :: IsToken(toks[i])
    ensures Tokens(Join(toks, ' ')) == toks
  {
    hide Scan, Join, IsToken;
    ScanJoin(toks);
    assert toks[..|toks| - 1] + [toks[|toks| - 1]] == toks;
  }

  // ---------- Numbers and positions ----------

  predicate Numeral(s: string) {
    s != "" && AllDigits(s)
  }

  method ParseInt(s: string) returns (n: Option<nat>)
    ensures n == if Numeral(s) then Some(Value(s)) else None
  {
    if s == "" {
      return None;
    }
    var v := 0;
    for i := 0 to |s|
      invariant AllDigits(s[..i]) && v == Value(s[..i])
    {
      if s[i] < '0' || s[i] > '9' {
        return None;
      }
      assert s[..i + 1][..i] == s[..i];
      v := v * 10 + (s[i] as int - '0' as int);
    }
    assert s[..|s|] == s;
    n := Some(v);
  }

  /** The first position of c, or None. */
  function IndexOf(s: string, c: char): (i: Option<nat>)
    ensures i.Some? ==> i.value < |s| && s[i.value] == c && Without(s[..i.value], c)
    ensures i.None? ==> Without(s, c)
  {
    if s == "" then None
    else if s[0] == c then Some(0)
    else
      var i := IndexOf(s[1..], c);
      if i.Some? then Some(i.value + 1) else None
  }

  lemma {:induction false} IndexOfIs(s: string, c: char, i: nat)
    requires i < |s| && s[i] == c && Without(s[..i], c)
    ensures IndexOf(s, c) == Some(i)
    decreases s
  {
    if i > 0 {
      assert s[..i][0] == s[0];
      assert s[1..][..i - 1] == s[..i][1..];
      IndexOfIs(s[1..], c, i - 1);
    }
  }

  method IndexOfStr(s: string, c: char) returns (i: Option<nat>)
    ensures i == IndexOf(s, c)
  {
    for k := 0 to |s|
      invariant Without(s[..k], c)
    {
      if s[k] == c {
        IndexOfIs(s, c, k);
        return Some(k);
      }
    }
    assert s[..|s|] == s;
    i := None;
  }
}
