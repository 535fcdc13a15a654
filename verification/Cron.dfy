/** Cron expressions: what they accept, what they mean, and the next moment they name
    (task/cron.go). */
module Cron {
  import opened Arith
  import opened CronText
  import opened Text

  // ---------- One field ----------

  /** The written form of one comma-separated part; numerals may have leading zeros. */
  datatype Range = Star | One(a: string) | Span(a: string, b: string)

  datatype Part = Part(range: Range, step: Option<string>)

  predicate WellFormed(p: Part) {
    && (p.range.One? ==> Numeral(p.range.a))
    && (p.range.Span? ==> Numeral(p.range.a) && Numeral(p.range.b))
    && (p.step.Some? ==> Numeral(p.step.value))
  }

  function PrintRange(r: Range): string {
    match r
    case Star => "*"
    case One(a) => a
    case Span(a, b) => a + "-" + b
  }

  function Print(p: Part): string {
    if p.step.None? then PrintRange(p.range) else PrintRange(p.range) + "/" + p.step.value
  }

  function Low(p: Part, min: nat): nat
    requires WellFormed(p)
  {
    match p.range
    case Star => min
    case One(a) => Value(a)
    case Span(a, _) => Value(a)
  }

  function High(p: Part, max: nat): nat
    requires WellFormed(p)
  {
    match p.range
    case Star => max
    case One(a) => Value(a)
    case Span(_, b) => Value(b)
  }

  function StepOf(p: Part): nat
    requires WellFormed(p)
  {
    if p.step.None? then 1 else Value(p.step.value)
  }

  /** Within the bounds of the field, not backwards, with a positive step. */
  predicate Allowed(p: Part, min: nat, max: nat)
    requires WellFormed(p)
  {
    StepOf(p) > 0 && min <= Low(p, min) <= High(p, max) <= max
  }

  predicate Hits(v: nat, lo: nat, hi: nat, step: nat)
    requires step > 0
  {
    lo <= v <= hi && (v - lo) % step == 0
  }

  function Between(lo: nat, hi: nat, step: nat): set<nat>
    requires step > 0
  {
    set v: nat | v <= hi && Hits(v, lo, hi, step)
  }

  /** What an allowed part stands for. */
  function Values(p: Part, min: nat, max: nat): set<nat>
    requires WellFormed(p) && Allowed(p, min, max)
  {
    Between(Low(p, min), High(p, max), StepOf(p))
  }

  function Progression(lo: nat, hi: nat, step: nat): set<nat>
    requires step > 0
    decreases hi + 1 - lo
  {
    if lo > hi then {} else {lo} + Progression(lo + step, hi, step)
  }

  lemma {:induction false} ProgressionIsBetween(lo: nat, hi: nat, step: nat)
    requires step > 0
    ensures Progression(lo, hi, step) == Between(lo, hi, step)
    decreases hi + 1 - lo
  {
    if lo <= hi {
      ProgressionIsBetween(lo + step, hi, step);
      forall v: nat ensures v in Between(lo, hi, step) <==> v == lo || v in Between(lo + step, hi, step) {
        ModShift(v - lo - step, step);
      }
    }
  }

  // ---------- Reading a part ----------

  function ReadRange(s: string): Option<Range> {
    if s == "*" then Some(Star)
    else
      match IndexOf(s, '-')
      case Some(j) =>
        if Numeral(s[..j]) && Numeral(s[j + 1..]) then Some(Span(s[..j], s[j + 1..])) else None
      case None =>
        if Numeral(s) then Some(One(s)) else None
  }

  function ReadPart(s: string): Option<Part> {
    match IndexOf(s, '/')
    case Some(i) =>
      var r := ReadRange(s[..i]);
      if r.Some? && Numeral(s[i + 1..]) then Some(Part(r.value, Some(s[i + 1..]))) else None
    case None =>
      var r := ReadRange(s);
      if r.Some? then Some(Part(r.value, None)) else None
  }

  lemma NumeralWithout(s: string, c: char)
    requires AllDigits(s) && !IsDigit(c)
    ensures Without(s, c)
  {
  }

  lemma RangeRoundTrip(r: Range)
    requires WellFormed(Part(r, None))
    ensures ReadRange(PrintRange(r)) == Some(r) && Without(PrintRange(r), '/') && Without(PrintRange(r), ',')
  {
    var s := PrintRange(r);
    match r
    case Star =>
    case One(a) =>
      NumeralWithout(a, '-');
      assert a[0] != '*';
    case Span(a, b) =>
      assert s[..|a|] == a && s[|a|] == '-' && s[|a| + 1..] == b;
      NumeralWithout(a, '-');
      IndexOfIs(s, '-', |a|);
  }

  /** Reading undoes printing. */
  lemma ReadPrint(p: Part)
    requires WellFormed(p)
    ensures ReadPart(Print(p)) == Some(p) && Without(Print(p), ',')
  {
    hide ReadRange, PrintRange;
    RangeRoundTrip(p.range);
    if p.step.Some? {
      var r := PrintRange(p.range);
      var s := Print(p);
      assert s[..|r|] == r && s[|r|] == '/' && s[|r| + 1..] == p.step.value;
      IndexOfIs(s, '/', |r|);
    }
  }

  lemma PrintReadRange(s: string)
    requires ReadRange(s).Some?
    ensures PrintRange(ReadRange(s).value) == s && WellFormed(Part(ReadRange(s).value, None))
  {
    var j := IndexOf(s, '-');
    if s != "*" && j.Some? {
      assert s == s[..j.value] + "-" + s[j.value + 1..];
    }
  }

  /** Printing undoes reading: what can be read is exactly what can be printed. */
  lemma PrintRead(s: string)
    requires ReadPart(s).Some?
    ensures WellFormed(ReadPart(s).value) && Print(ReadPart(s).value) == s
  {
    hide ReadRange;
    var i := IndexOf(s, '/');
    if i.Some? {
      PrintReadRange(s[..i.value]);
      assert s == s[..i.value] + "/" + s[i.value + 1..];
    } else {
      PrintReadRange(s);
    }
  }

  // ---------- Reading a field ----------

  predicate PartOk(s: string, min: nat, max: nat) {
    ReadPart(s).Some? && (PrintRead(s); Allowed(ReadPart(s).value, min, max))
  }

  function PartValues(s: string, min: nat, max: nat): set<nat>
    requires PartOk(s, min, max)
  {
    PrintRead(s);
    Values(ReadPart(s).value, min, max)
  }

  function FieldOf(pieces: seq<string>, min: nat, max: nat): Option<set<nat>> {
    if pieces == [] then Some({})
    else
      var last := |pieces| - 1;
      var rest := FieldOf(pieces[..last], min, max);
      if rest.Some? && PartOk(pieces[last], min, max) then Some(rest.value + PartValues(pieces[last], min, max)) else None
  }

  function ReadField(s: string, min: nat, max: nat): Option<set<nat>> {
    FieldOf(Split(s, ','), min, max)
  }

  /** The loop that fills the set of one part. */
  method FillValues(had: set<nat>, lo: nat, hi: nat, step: nat) returns (out: set<nat>)
    requires step > 0
    ensures out == had + Between(lo, hi, step)
  {
    out := had;
    var v := lo;
    while v <= hi
      invariant v >= lo && out + Progression(v, hi, step) == had + Progression(lo, hi, step)
      decreases hi + step - v
    {
      out := out + {v};
      v := v + step;
    }
    ProgressionIsBetween(lo, hi, step);
  }

  method ParseRange(part: string, min: nat, max: nat) returns (bounds: Option<(nat, nat)>)
    ensures bounds.Some? <==> ReadRange(part).Some?
    ensures bounds.Some? ==> (PrintReadRange(part);
                              var p := Part(ReadRange(part).value, None);
                              bounds.value == (Low(p, min), High(p, max)))
  {
    if part == "*" {
      return Some((min, max));
    }
    var dash := IndexOfStr(part, '-');
    if dash.Some? {
      var a := ParseInt(part[..dash.value]);
      var b := ParseInt(part[dash.value + 1..]);
      if a.None? || b.None? {
        return None;
      }
      return Some((a.value, b.value));
    }
    var a := ParseInt(part);
    if a.None? {
      return None;
    }
    bounds := Some((a.value, a.value));
  }

  lemma PartIs(piece: string, range: string, step: Option<string>)
    requires if step.Some? then IndexOf(piece, '/') == Some(|range|) && piece == range + "/" + step.value && Numeral(step.value)
             else piece == range && IndexOf(piece, '/') == None
    ensures ReadPart(piece).Some? <==> ReadRange(range).Some?
    ensures ReadRange(range).Some? ==> ReadPart(piece) == Some(Part(ReadRange(range).value, step))
  {
    hide ReadRange, IndexOf;
    if step.Some? {
      assert piece[..|range|] == range && piece[|range| + 1..] == step.value;
    }
  }

  /** One part: step, then range, then bounds, in the order of the source. */
  method ParsePart(piece: string, min: nat, max: nat, had: set<nat>) returns (out: Option<set<nat>>)
    ensures out == if PartOk(piece, min, max) then Some(had + PartValues(piece, min, max)) else None
  {
    hide ReadRange, Value, Numeral, Between;
    var range := piece;
    var step := 1;
    ghost var text := None;
    var slash := IndexOfStr(piece, '/');
    if slash.Some? {
      var n := ParseInt(piece[slash.value + 1..]);
      if n.None? || n.value <= 0 {
        return None;
      }
      step := n.value;
      text := Some(piece[slash.value + 1..]);
      range := piece[..slash.value];
      assert piece == range + "/" + text.value;
    }
    PartIs(piece, range, text);
    hide ReadPart, IndexOf;
    var bounds := ParseRange(range, min, max);
    if bounds.None? {
      return None;
    }
    var (lo, hi) := bounds.value;
    if lo < min || hi > max || lo > hi {
      return None;
    }
    var filled := FillValues(had, lo, hi, step);
    out := Some(filled);
  }

  method ParseCronField(s: string, min: nat, max: nat) returns (values: Option<set<nat>>)
    ensures values == ReadField(s, min, max)
  {
    hide PartOk, PartValues;
    var pieces := SplitComma(s);
    var all: set<nat> := {};
    for i := 0 to |pieces|
      invariant FieldOf(pieces[..i], min, max) == Some(all)
      invariant i > 0 ==> all != {}
    {
      assert pieces[..i + 1][..i] == pieces[..i];
      var more := ParsePart(pieces[i], min, max, all);
      if more.None? {
        FieldStopsAt(pieces, i, |pieces|, min, max);
        assert pieces[..|pieces|] == pieces;
        return None;
      }
      NeverEmpty(pieces[i], min, max);
      all := more.value;
    }
    assert pieces[..|pieces|] == pieces;
    values := if |all| > 0 then Some(all) else None;
  }

  lemma NeverEmpty(s: string, min: nat, max: nat)
    requires PartOk(s, min, max)
    ensures PartValues(s, min, max) != {}
  {
    var p := ReadPart(s).value;
    PrintRead(s);
    assert Hits(Low(p, min), Low(p, min), High(p, max), StepOf(p));
    assert Low(p, min) in PartValues(s, min, max);
  }

  lemma {:induction false} FieldStopsAt(pieces: seq<string>, i: nat, n: nat, min: nat, max: nat)
    requires i < n <= |pieces| && !PartOk(pieces[i], min, max)
    ensures FieldOf(pieces[..n], min, max).None?
    decreases n
  {
    assert pieces[..n][..n - 1] == pieces[..n - 1];
    if i < n - 1 {
      FieldStopsAt(pieces, i, n - 1, min, max);
    }
  }

  // ---------- What a field accepts ----------

  function PrintAll(parts: seq<Part>): (r: seq<string>)
    ensures |r| == |parts| && forall i | 0 <= i < |parts| :: r[i] == Print(parts[i])
  {
    seq(|parts|, i requires 0 <= i < |parts| => Print(parts[i]))
  }

  /** The parts written one after the other. */
  function PrintField(parts: seq<Part>): string
    requires parts != []
  {
    Join(PrintAll(parts), ',')
  }

  ghost predicate AllFine(parts: seq<Part>, min: nat, max: nat) {
    forall i | 0 <= i < |parts| :: WellFormed(parts[i]) && Allowed(parts[i], min, max)
  }

  /** v is in the progression of some part. */
  ghost predicate InSome(v: nat, parts: seq<Part>, min: nat, max: nat)
    requires AllFine(parts, min, max)
  {
    exists i | 0 <= i < |parts| :: Hits(v, Low(parts[i], min), High(parts[i], max), StepOf(parts[i]))
  }

  lemma PartPrinted(p: Part, min: nat, max: nat)
    requires WellFormed(p)
    ensures PartOk(Print(p), min, max) <==> Allowed(p, min, max)
    ensures Allowed(p, min, max) ==> PartValues(Print(p), min, max) == Values(p, min, max)
  {
    hide ReadPart, Print;
    ReadPrint(p);
  }

  lemma ValuesSpec(v: nat, p: Part, min: nat, max: nat)
    requires WellFormed(p) && Allowed(p, min, max)
    ensures v in Values(p, min, max) <==> Hits(v, Low(p, min), High(p, max), StepOf(p))
  {
  }

  lemma {:induction false} FieldOfPrinted(parts: seq<Part>, min: nat, max: nat)
    requires forall i | 0 <= i < |parts| :: WellFormed(parts[i])
    ensures FieldOf(PrintAll(parts), min, max).Some? <==> AllFine(parts, min, max)
    ensures AllFine(parts, min, max) ==>
              forall v: nat :: v in FieldOf(PrintAll(parts), min, max).value <==> InSome(v, parts, min, max)
    decreases |parts|
  {
    hide Print, Hits, PartOk, PartValues, Values, Low, High, StepOf, InSome, Allowed;
    if parts == [] {
      NoneInEmpty(min, max);
    } else {
      var last := |parts| - 1;
      FieldOfPrinted(parts[..last], min, max);
      assert PrintAll(parts)[..last] == PrintAll(parts[..last]);
      PartPrinted(parts[last], min, max);
      assert parts == parts[..last] + [parts[last]];
      if AllFine(parts, min, max) {
        forall v: nat ensures v in FieldOf(PrintAll(parts), min, max).value <==> InSome(v, parts, min, max) {
          ValuesSpec(v, parts[last], min, max);
          InSomeLast(v, parts, min, max);
        }
      }
    }
  }

  lemma NoneInEmpty(min: nat, max: nat)
    ensures forall v: nat :: !InSome(v, [], min, max)
  {
  }

  lemma InSomeLast(v: nat, parts: seq<Part>, min: nat, max: nat)
    requires AllFine(parts, min, max) && parts != []
    ensures var last := |parts| - 1;
            InSome(v, parts, min, max) <==>
            InSome(v, parts[..last], min, max) || Hits(v, Low(parts[last], min), High(parts[last], max), StepOf(parts[last]))
  {
    hide Low, High, StepOf, Hits;
    var last := |parts| - 1;
    assert parts == parts[..last] + [parts[last]];
  }

  /** A written field is accepted exactly if all its parts are within bounds, and then stands for
      the union of their progressions. */
  lemma FieldMeaning(parts: seq<Part>, min: nat, max: nat)
    requires parts != [] && forall i | 0 <= i < |parts| :: WellFormed(parts[i])
    ensures ReadField(PrintField(parts), min, max).Some? <==> AllFine(parts, min, max)
    ensures AllFine(parts, min, max) ==>
              forall v: nat :: v in ReadField(PrintField(parts), min, max).value <==> InSome(v, parts, min, max)
  {
    hide Print, Hits, FieldOf, InSome;
    var pieces := PrintAll(parts);
    forall i | 0 <= i < |pieces| ensures Without(pieces[i], ',') {
      ReadPrint(parts[i]);
    }
    SplitJoin(pieces, ',');
    FieldOfPrinted(parts, min, max);
  }

  lemma {:induction false} PiecesOk(pieces: seq<string>, i: nat, min: nat, max: nat)
    requires FieldOf(pieces, min, max).Some? && i < |pieces|
    ensures PartOk(pieces[i], min, max)
    decreases |pieces|
  {
    hide PartOk, PartValues;
    if i < |pieces| - 1 {
      PiecesOk(pieces[..|pieces| - 1], i, min, max);
    }
  }

  function PartOf(piece: string): Part {
    var p := ReadPart(piece);
    if p.Some? then p.value else Part(Star, None)
  }

  lemma PieceRead(piece: string, min: nat, max: nat)
    requires PartOk(piece, min, max)
    ensures WellFormed(PartOf(piece)) && Allowed(PartOf(piece), min, max) && Print(PartOf(piece)) == piece
  {
    PrintRead(piece);
  }

  /** Nothing else is accepted: an accepted field is a list of parts within bounds. */
  lemma FieldAccepted(s: string, min: nat, max: nat) returns (parts: seq<Part>)
    requires ReadField(s, min, max).Some?
    ensures parts != [] && AllFine(parts, min, max) && PrintField(parts) == s
  {
    hide FieldOf, Print, PartOf, PartOk, Allowed, WellFormed;
    var pieces := Split(s, ',');
    parts := seq(|pieces|, i requires 0 <= i < |pieces| => PartOf(pieces[i]));
    forall i | 0 <= i < |pieces|
      ensures WellFormed(parts[i]) && Allowed(parts[i], min, max) && Print(parts[i]) == pieces[i]
    {
      PiecesOk(pieces, i, min, max);
      PieceRead(pieces[i], min, max);
    }
    assert PrintAll(parts) == pieces;
    JoinSplit(s, ',');
  }

  /** Accepted values lie within the bounds of the field, and there is at least one. */
  lemma FieldInBounds(s: string, min: nat, max: nat)
    requires ReadField(s, min, max).Some?
    ensures forall v <- ReadField(s, min, max).value :: min <= v <= max
  {
    hide FieldOf, Print;
    var parts := FieldAccepted(s, min, max);
    FieldMeaning(parts, min, max);
  }
}
