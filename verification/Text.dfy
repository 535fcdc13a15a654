/** Strings as the hub treats them: white space, trimming, decimal numbers. */
module Text {
  datatype Option<+T> = None | Some(value: T)

  /** White space in the sense of Go's unicode.IsSpace, which strings.TrimSpace uses. */
  predicate IsSpace(c: char) {
    var n := c as int;
    || 9 <= n <= 13 || n == 0x20 || n == 0x85 || n == 0xA0 || n == 0x1680
    || 0x2000 <= n <= 0x200A || n == 0x2028 || n == 0x2029 || n == 0x202F || n == 0x205F || n == 0x3000
  }

  predicate Blank(s: string) {
    forall i | 0 <= i < |s| :: IsSpace(s[i])
  }

  function TrimLeft(s: string): string {
    if s != "" && IsSpace(s[0]) then TrimLeft(s[1..]) else s
  }

  function TrimRight(s: string): string {
    if s != "" && IsSpace(s[|s| - 1]) then TrimRight(s[..|s| - 1]) else s
  }

  function Trim(s: string): string {
    TrimRight(TrimLeft(s))
  }

  /** Nothing to trim at either end. */
  predicate Trimmed(s: string) {
    s != "" ==> !IsSpace(s[0]) && !IsSpace(s[|s| - 1])
  }

  lemma {:induction false} TrimLeftSpec(s: string)
    ensures var t := TrimLeft(s);
      && |t| <= |s| && t == s[|s| - |t|..] && Blank(s[..|s| - |t|])
      && (t != "" ==> !IsSpace(t[0]))
  {
    if s != "" && IsSpace(s[0]) {
      TrimLeftSpec(s[1..]);
      var t := TrimLeft(s);
      var front := s[1..][..|s| - 1 - |t|];
      assert s[..|s| - |t|] == [s[0]] + front;
    }
  }

  lemma {:induction false} TrimRightSpec(s: string)
    ensures var t := TrimRight(s);
      && |t| <= |s| && t == s[..|t|] && Blank(s[|t|..])
      && (t != "" ==> !IsSpace(t[|t| - 1]))
  {
    if s != "" && IsSpace(s[|s| - 1]) {
      TrimRightSpec(s[..|s| - 1]);
      var t := TrimRight(s);
      assert s[|t|..] == s[..|s| - 1][|t|..] + [s[|s| - 1]];
    }
  }

  /** The result of trimming is trimmed; only text that is blank trims to nothing. */
  lemma TrimSpec(s: string)
    ensures Trimmed(Trim(s))
    ensures Trim(s) == "" <==> Blank(s)
    ensures Trimmed(s) <==> Trim(s) == s
  {
    TrimLeftSpec(s);
    var l := TrimLeft(s);
    TrimRightSpec(l);
    var t := Trim(s);
    if t == "" {
      assert s == s[..|s| - |l|] + l;
    } else {
      assert t[0] == l[0];
      assert t[0] == s[|s| - |l|];
    }
  }

  /** Go's firstNonEmpty over two candidates: the first one that is not blank. */
  function FirstNonBlank(a: string, b: string): string {
    if !Blank(a) then a else if !Blank(b) then b else ""
  }

  // ---------- Decimal numbers ----------

  predicate IsDigit(c: char) {
    '0' <= c <= '9'
  }

  predicate AllDigits(s: string) {
    forall i | 0 <= i < |s| :: IsDigit(s[i])
  }

  function DigitOf(c: char): nat
    requires IsDigit(c)
  {
    c as nat - '0' as nat
  }

  /** The number a string of digits denotes. */
  function Value(s: string): nat
    requires AllDigits(s)
  {
    if s == "" then 0 else Value(s[..|s| - 1]) * 10 + DigitOf(s[|s| - 1])
  }

  /** Go's %d for a non-negative number. */
  function Decimal(n: nat): string {
    var digit := ('0' as nat + n % 10) as char;
    if n < 10 then [digit] else Decimal(n / 10) + [digit]
  }

  lemma {:induction false} DecimalValue(n: nat)
    ensures Decimal(n) != "" && AllDigits(Decimal(n)) && Value(Decimal(n)) == n
  {
    if n >= 10 {
      DecimalValue(n / 10);
      assert Decimal(n)[..|Decimal(n)| - 1] == Decimal(n / 10);
    }
  }

  lemma DecimalInjective(m: nat, n: nat)
    requires Decimal(m) == Decimal(n)
    ensures m == n
  {
    DecimalValue(m);
    DecimalValue(n);
  }

  // ---------- Sequences ----------

  lemma Regroup<T>(a: seq<T>, b: seq<T>, c: seq<T>)
    ensures a + (b + c) == (a + b) + c && a + [] == a && [] + c == c
  {
  }
}
