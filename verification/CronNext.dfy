/** The five fields of a cron expression together, and the search for the next moment
    (task/cron.go). */
module CronNext {
  import opened Arith
  import opened CronText
  import opened Cron
  import opened Text

  // ---------- Expressions ----------

  /** Minute, hour, day of month, month, day of week. */
  const MIN: seq<nat> := [0, 0, 1, 1, 0]
  const MAX: seq<nat> := [59, 23, 31, 12, 6]

  function Alias(expr: string): string {
    if expr == "@hourly" then "0 * * * *"
    else if expr == "@daily" || expr == "@midnight" then "0 0 * * *"
    else if expr == "@weekly" then "0 0 * * 0"
    else expr
  }

  function ReadFields(toks: seq<string>): (r: Option<seq<set<nat>>>)
    requires |toks| <= 5
    ensures r.Some? ==> |r.value| == |toks|
  {
    if toks == [] then Some([])
    else
      var last := |toks| - 1;
      var rest := ReadFields(toks[..last]);
      var field := ReadField(toks[last], MIN[last], MAX[last]);
      if rest.Some? && field.Some? then Some(rest.value + [field.value]) else None
  }

  function ReadExpr(expr: string): (r: Option<seq<set<nat>>>)
    ensures r.Some? ==> |r.value| == 5
  {
    var toks := Tokens(Alias(expr));
    if |toks| != 5 then None else ReadFields(toks)
  }

  method ParseCronExpr(expr: string) returns (fields: Option<seq<set<nat>>>)
    ensures fields == ReadExpr(expr)
  {
    hide Tokens, ReadField;
    var toks := SplitFields(Alias(expr));
    hide Alias;
    if |toks| != 5 {
      return None;
    }
    var parts: seq<set<nat>> := [];
    for i := 0 to |toks|
      invariant |parts| == i && ReadFields(toks[..i]) == Some(parts)
    {
      assert toks[..i + 1][..i] == toks[..i];
      var values := ParseCronField(toks[i], MIN[i], MAX[i]);
      if values.None? {
        FieldsStopAt(toks, i, 5);
        assert toks[..5] == toks;
        return None;
      }
      parts := parts + [values.value];
    }
    assert toks[..|toks|] == toks;
    fields := Some(parts);
  }

  lemma {:induction false} FieldsStopAt(toks: seq<string>, i: nat, n: nat)
    requires i < n <= |toks| <= 5 && ReadField(toks[i], MIN[i], MAX[i]).None?
    ensures ReadFields(toks[..n]).None?
    decreases n
  {
    assert toks[..n][..n - 1] == toks[..n - 1];
    if i < n - 1 {
      FieldsStopAt(toks, i, n - 1);
    }
  }

  lemma {:induction false} FieldsAt(toks: seq<string>, i: nat)
    requires i < |toks| <= 5
    ensures ReadFields(toks).Some? ==>
              ReadField(toks[i], MIN[i], MAX[i]).Some? && ReadFields(toks).value[i] == ReadField(toks[i], MIN[i], MAX[i]).value
    decreases |toks|
  {
    hide ReadField;
    if i < |toks| - 1 {
      FieldsAt(toks[..|toks| - 1], i);
    }
  }

  lemma {:induction false} AllFieldsRead(toks: seq<string>)
    requires |toks| <= 5 && forall i | 0 <= i < |toks| :: ReadField(toks[i], MIN[i], MAX[i]).Some?
    ensures ReadFields(toks).Some?
    decreases |toks|
  {
    hide ReadField;
    if toks != [] {
      AllFieldsRead(toks[..|toks| - 1]);
    }
  }

  // ---------- Written expressions ----------

  predicate FieldChar(c: char) {
    IsDigit(c) || c == ',' || c == '-' || c == '/' || c == '*'
  }

  predicate Clean(s: string) {
    s != "" && forall i | 0 <= i < |s| :: FieldChar(s[i])
  }

  lemma PartIsClean(p: Part)
    requires WellFormed(p)
    ensures Clean(Print(p))
  {
  }

  lemma {:induction false} JoinIsClean(pieces: seq<string>)
    requires pieces != [] && forall i | 0 <= i < |pieces| :: Clean(pieces[i])
    ensures Clean(Join(pieces, ','))
    decreases |pieces|
  {
    if |pieces| > 1 {
      JoinIsClean(pieces[..|pieces| - 1]);
    }
  }

  /** Five fields separated by spaces. */
  function PrintExpr(fields: seq<seq<Part>>): string
    requires |fields| == 5 && forall i | 0 <= i < 5 :: fields[i] != []
  {
    Join(PrintFields(fields), ' ')
  }

  function PrintFields(fields: seq<seq<Part>>): (r: seq<string>)
    requires forall i | 0 <= i < |fields| :: fields[i] != []
    ensures |r| == |fields| && forall i | 0 <= i < |fields| :: r[i] == PrintField(fields[i])
  {
    seq(|fields|, i requires 0 <= i < |fields| => PrintField(fields[i]))
  }

  lemma FieldIsClean(parts: seq<Part>)
    requires parts != [] && forall i | 0 <= i < |parts| :: WellFormed(parts[i])
    ensures Clean(PrintField(parts))
  {
    hide Print;
    forall i | 0 <= i < |parts| ensures Clean(Print(parts[i])) {
      PartIsClean(parts[i]);
    }
    JoinIsClean(PrintAll(parts));
  }

  lemma {:induction false} FirstChar(pieces: seq<string>, sep: char)
    requires pieces != [] && pieces[0] != ""
    ensures Join(pieces, sep) != "" && Join(pieces, sep)[0] == pieces[0][0]
    decreases |pieces|
  {
    if |pieces| > 1 {
      FirstChar(pieces[..|pieces| - 1], sep);
    }
  }

  lemma NoAlias(expr: string)
    requires expr != "" && FieldChar(expr[0])
    ensures Alias(expr) == expr
  {
    assert "@hourly"[0] == "@daily"[0] == "@midnight"[0] == "@weekly"[0] == '@';
  }

  lemma CleanIsToken(s: string)
    requires Clean(s)
    ensures IsToken(s) && FieldChar(s[0])
  {
  }

  lemma PrintedTokens(fields: seq<seq<Part>>)
    requires |fields| == 5 && forall i | 0 <= i < 5 :: fields[i] != [] && forall p <- fields[i] :: WellFormed(p)
    ensures Tokens(Alias(PrintExpr(fields))) == PrintFields(fields)
  {
    hide Alias, Tokens, PrintField, IsToken, Clean;
    var toks := PrintFields(fields);
    forall i | 0 <= i < 5 ensures IsToken(toks[i]) && toks[i] != "" && FieldChar(toks[i][0]) {
      assert forall j | 0 <= j < |fields[i]| :: fields[i][j] in fields[i];
      FieldIsClean(fields[i]);
      CleanIsToken(toks[i]);
    }
    FirstChar(toks, ' ');
    NoAlias(PrintExpr(fields));
    TokensJoin(toks);
  }

  /** A written expression is accepted exactly if every part of every field is within bounds, and
      each field then stands for the union of its progressions. */
  lemma ExprMeaning(fields: seq<seq<Part>>)
    requires |fields| == 5 && forall i | 0 <= i < 5 :: fields[i] != [] && forall p <- fields[i] :: WellFormed(p)
    ensures ReadExpr(PrintExpr(fields)).Some? <==> forall i | 0 <= i < 5 :: AllFine(fields[i], MIN[i], MAX[i])
    ensures ReadExpr(PrintExpr(fields)).Some? ==>
              forall i, v: nat | 0 <= i < 5 && AllFine(fields[i], MIN[i], MAX[i]) ::
                v in ReadExpr(PrintExpr(fields)).value[i] <==> InSome(v, fields[i], MIN[i], MAX[i])
  {
    hide Alias, Tokens, PrintField, ReadField, InSome, AllFine, PrintExpr, WellFormed;
    PrintedTokens(fields);
    var toks := PrintFields(fields);
    forall i | 0 <= i < 5
      ensures ReadField(toks[i], MIN[i], MAX[i]).Some? <==> AllFine(fields[i], MIN[i], MAX[i])
      ensures AllFine(fields[i], MIN[i], MAX[i]) ==>
                forall v: nat :: v in ReadField(toks[i], MIN[i], MAX[i]).value <==> InSome(v, fields[i], MIN[i], MAX[i])
      ensures ReadFields(toks).Some? ==> ReadField(toks[i], MIN[i], MAX[i]).Some?
                                         && ReadFields(toks).value[i] == ReadField(toks[i], MIN[i], MAX[i]).value
    {
      assert forall j | 0 <= j < |fields[i]| :: fields[i][j] in fields[i];
      FieldMeaning(fields[i], MIN[i], MAX[i]);
      FieldsAt(toks, i);
    }
    if forall i | 0 <= i < 5 :: AllFine(fields[i], MIN[i], MAX[i]) {
      AllFieldsRead(toks);
    }
  }

  // ---------- Matching ----------

  datatype Calendar = Calendar(minute: nat, hour: nat, day: nat, month: nat, weekday: nat)

  predicate CronMatch(f: seq<set<nat>>, c: Calendar)
    requires |f| == 5
  {
    if c.minute !in f[0] || c.hour !in f[1] then false
    else
      var dom, month, dow := c.day in f[2], c.month in f[3], c.weekday in f[4];
      var domRestricted := |f[2]| < MAX[2] - MIN[2] + 1;
      var dowRestricted := |f[4]| < MAX[4] - MIN[4] + 1;
      if domRestricted && dowRestricted then month && (dom || dow) else month && dom && dow
  }

  /** Some value of field i is left out. */
  predicate Partial(f: seq<set<nat>>, i: nat)
    requires i < 5 == |f|
  {
    exists v: nat :: MIN[i] <= v <= MAX[i] && v !in f[i]
  }

  predicate RealDate(c: Calendar) {
    1 <= c.day <= 31 && c.weekday <= 6
  }

  lemma ExprInBounds(expr: string, i: nat)
    requires ReadExpr(expr).Some? && i < 5
    ensures forall v <- ReadExpr(expr).value[i] :: MIN[i] <= v <= MAX[i]
  {
    hide Alias, Tokens, ReadField;
    var toks := Tokens(Alias(expr));
    FieldsAt(toks, i);
    FieldInBounds(toks[i], MIN[i], MAX[i]);
  }

  /** A field that leaves no day out does not restrict the other; two that do are joined by or. */
  lemma MatchMeaning(expr: string, c: Calendar)
    requires ReadExpr(expr).Some? && RealDate(c)
    ensures var f := ReadExpr(expr).value;
            CronMatch(f, c) <==>
              && c.minute in f[0] && c.hour in f[1] && c.month in f[3]
              && (if !Partial(f, 4) then c.day in f[2]
                  else if !Partial(f, 2) then c.weekday in f[4]
                  else c.day in f[2] || c.weekday in f[4])
  {
    hide ReadExpr;
    var f := ReadExpr(expr).value;
    ExprInBounds(expr, 2);
    ExprInBounds(expr, 4);
    SmallerMissesOne(f[2], 1, 31);
    SmallerMissesOne(f[4], 0, 7);
    assert Partial(f, 2) <==> |f[2]| < 31;
    assert Partial(f, 4) <==> |f[4]| < 7;
  }

  predicate OnCalendar(c: Calendar) {
    c.minute <= 59 && c.hour <= 23 && 1 <= c.day <= 31 && 1 <= c.month <= 12 && c.weekday <= 6
  }

  const ZERO := [Part(One("0"), None)]
  const ANY := [Part(Star, None)]

  lemma SimpleFields(i: nat)
    requires i < 5
    ensures PrintField(ANY) == "*" && AllFine(ANY, MIN[i], MAX[i])
    ensures forall v: nat :: InSome(v, ANY, MIN[i], MAX[i]) <==> MIN[i] <= v <= MAX[i]
    ensures PrintField(ZERO) == "0" && (MIN[i] == 0 ==> AllFine(ZERO, MIN[i], MAX[i]))
    ensures MIN[i] == 0 ==> forall v: nat :: InSome(v, ZERO, MIN[i], MAX[i]) <==> v == 0
  {
    assert Value("0") == 0;
    forall v: nat ensures InSome(v, ANY, MIN[i], MAX[i]) <==> Hits(v, MIN[i], MAX[i], 1) {
      assert Hits(v, MIN[i], MAX[i], 1) == Hits(v, Low(ANY[0], MIN[i]), High(ANY[0], MAX[i]), StepOf(ANY[0]));
    }
  }

  /** Which fields must be zero; the others are free. */
  function Simple(zero: seq<bool>): (r: seq<seq<Part>>)
    requires |zero| == 5
    ensures |r| == 5 && forall i | 0 <= i < 5 :: r[i] == if zero[i] then ZERO else ANY
  {
    seq(5, i requires 0 <= i < 5 => if zero[i] then ZERO else ANY)
  }

  /** Fields that are zero or free match the moments whose minute, hour and weekday are zero where
      they must be. */
  lemma SimpleMeaning(zero: seq<bool>, expr: string, c: Calendar)
    requires |zero| == 5 && !zero[2] && !zero[3] && OnCalendar(c)
    requires Alias(expr) == PrintExpr(Simple(zero)) == Alias(PrintExpr(Simple(zero)))
    ensures ReadExpr(expr).Some?
    ensures CronMatch(ReadExpr(expr).value, c) <==>
              (zero[0] ==> c.minute == 0) && (zero[1] ==> c.hour == 0) && (zero[4] ==> c.weekday == 0)
  {
    hide Alias, Tokens, PrintExpr, ReadFields, AllFine, InSome, CronMatch, PrintField;
    var fields := Simple(zero);
    forall i | 0 <= i < 5 ensures AllFine(fields[i], MIN[i], MAX[i]) {
      SimpleFields(i);
    }
    ExprMeaning(fields);
    var f := ReadExpr(expr).value;
    forall i, v: nat | 0 <= i < 5
      ensures v in f[i] <==> if zero[i] then v == 0 else MIN[i] <= v <= MAX[i]
    {
      SimpleFields(i);
      assert v in f[i] <==> InSome(v, fields[i], MIN[i], MAX[i]);
    }
    hide ReadExpr;
    assert zero[4] ==> (1 as nat) !in f[4];
    MatchMeaning(expr, c);
  }

  lemma JoinMore(toks: seq<string>, tok: string)
    requires toks != []
    ensures Join(toks + [tok], ' ') == Join(toks, ' ') + " " + tok
  {
    assert (toks + [tok])[..|toks|] == toks;
  }

  lemma JoinFive(a: string, b: string, c: string, d: string, e: string)
    ensures Join([a, b, c, d, e], ' ') == a + " " + b + " " + c + " " + d + " " + e
  {
    JoinMore([a], b);
    JoinMore([a, b], c);
    JoinMore([a, b, c], d);
    JoinMore([a, b, c, d], e);
    hide Join;
    assert [a] + [b] == [a, b] && [a, b] + [c] == [a, b, c] && [a, b, c] + [d] == [a, b, c, d];
    assert [a, b, c, d] + [e] == [a, b, c, d, e];
  }

  lemma PrintSimple(zero: seq<bool>)
    requires |zero| == 5
    ensures var t := (b: bool) => if b then "0" else "*";
            PrintExpr(Simple(zero)) == t(zero[0]) + " " + t(zero[1]) + " " + t(zero[2]) + " " + t(zero[3]) + " " + t(zero[4])
  {
    hide Join, PrintField;
    SimpleFields(0);
    var t := (b: bool) => if b then "0" else "*";
    var toks := PrintFields(Simple(zero));
    assert toks == [t(zero[0]), t(zero[1]), t(zero[2]), t(zero[3]), t(zero[4])];
    JoinFive(t(zero[0]), t(zero[1]), t(zero[2]), t(zero[3]), t(zero[4]));
  }

  lemma HourlyMeaning(c: Calendar)
    requires OnCalendar(c)
    ensures ReadExpr("@hourly").Some? && (CronMatch(ReadExpr("@hourly").value, c) <==> c.minute == 0)
  {
    hide ReadExpr, CronMatch, PrintExpr;
    PrintSimple([true, false, false, false, false]);
    SimpleMeaning([true, false, false, false, false], "@hourly", c);
  }

  lemma DailyMeaning(c: Calendar)
    requires OnCalendar(c)
    ensures ReadExpr("@midnight") == ReadExpr("@daily")
    ensures ReadExpr("@daily").Some? && (CronMatch(ReadExpr("@daily").value, c) <==> c.minute == 0 && c.hour == 0)
  {
    SameAlias();
    hide ReadExpr, CronMatch, PrintExpr;
    PrintSimple([true, true, false, false, false]);
    SimpleMeaning([true, true, false, false, false], "@daily", c);
  }

  lemma SameAlias()
    ensures ReadExpr("@midnight") == ReadExpr("@daily")
  {
    hide ReadFields, Tokens;
  }

  /** Sunday is weekday 0. */
  lemma WeeklyMeaning(c: Calendar)
    requires OnCalendar(c)
    ensures ReadExpr("@weekly").Some?
            && (CronMatch(ReadExpr("@weekly").value, c) <==> c.minute == 0 && c.hour == 0 && c.weekday == 0)
  {
    hide ReadExpr, CronMatch, PrintExpr;
    PrintSimple([true, true, false, false, true]);
    SimpleMeaning([true, true, false, false, true], "@weekly", c);
  }

  // ---------- The next moment ----------

  /** Instants in nanoseconds; the calendar of the instant depends on the time zone, and is given. */
  const MINUTE := 60_000_000_000
  const HORIZON := 366 * 24 * 60 * MINUTE

  function FirstMatch(f: seq<set<nat>>, cal: int -> Calendar, t: int, limit: int): Option<int>
    requires |f| == 5
    decreases limit - t
  {
    if t >= limit then None
    else if CronMatch(f, cal(t)) then Some(t)
    else FirstMatch(f, cal, t + MINUTE, limit)
  }

  function MinuteAfter(from: int): (t: int)
    ensures from < t <= from + MINUTE && t % MINUTE == 0
  {
    from - from % MINUTE + MINUTE
  }

  function Next(expr: string, from: int, cal: int -> Calendar): Option<int> {
    var f := ReadExpr(expr);
    if f.None? then None else FirstMatch(f.value, cal, MinuteAfter(from), from + HORIZON)
  }

  method NextCron(expr: string, from: int, cal: int -> Calendar) returns (next: Option<int>)
    ensures next == Next(expr, from, cal)
  {
    hide ReadExpr, CronMatch;
    var fields := ParseCronExpr(expr);
    if fields.None? {
      return None;
    }
    var t := MinuteAfter(from);
    var limit := from + HORIZON;
    while t < limit
      invariant FirstMatch(fields.value, cal, t, limit) == FirstMatch(fields.value, cal, MinuteAfter(from), limit)
      decreases limit - t
    {
      if CronMatch(fields.value, cal(t)) {
        return Some(t);
      }
      t := t + MINUTE;
    }
    next := None;
  }

  /** A whole minute after from and less than 366 days later. */
  predicate Candidate(u: int, from: int) {
    u % MINUTE == 0 && from < u < from + 366 * 24 * 60 * MINUTE
  }

  ghost predicate NoneIn(f: seq<set<nat>>, cal: int -> Calendar, t: int, limit: int)
    requires |f| == 5
  {
    forall u | t <= u < limit && u % MINUTE == 0 :: !CronMatch(f, cal(u))
  }

  lemma {:induction false} FirstMatchSpec(f: seq<set<nat>>, cal: int -> Calendar, t: int, limit: int)
    requires |f| == 5 && t % MINUTE == 0
    ensures var r := FirstMatch(f, cal, t, limit);
            if r.None? then NoneIn(f, cal, t, limit)
            else t <= r.value < limit && r.value % MINUTE == 0 && CronMatch(f, cal(r.value)) && NoneIn(f, cal, t, r.value)
    decreases limit - t
  {
    hide CronMatch;
    if t < limit && !CronMatch(f, cal(t)) {
      FirstMatchSpec(f, cal, t + MINUTE, limit);
    }
  }

  /** The result is the least whole minute after from, within 366 days, that the fields match. */
  lemma NextIsLeast(expr: string, from: int, cal: int -> Calendar, t: int)
    ensures Next(expr, from, cal) == Some(t) <==>
              && ReadExpr(expr).Some? && Candidate(t, from) && CronMatch(ReadExpr(expr).value, cal(t))
              && forall u | Candidate(u, from) && u < t :: !CronMatch(ReadExpr(expr).value, cal(u))
  {
    hide CronMatch, ReadExpr;
    if ReadExpr(expr).Some? {
      var f := ReadExpr(expr).value;
      FirstMatchSpec(f, cal, MinuteAfter(from), from + HORIZON);
      CandidatesFrom(from, t);
      var r := Next(expr, from, cal);
      if r.Some? {
        CandidatesFrom(from, r.value);
        forall u | Candidate(u, from) && u < r.value ensures !CronMatch(f, cal(u)) {
          CandidatesFrom(from, u);
        }
      }
    }
  }

  lemma CandidatesFrom(from: int, u: int)
    ensures Candidate(u, from) <==> MinuteAfter(from) <= u < from + HORIZON && u % MINUTE == 0
  {
  }

  /** There is no result exactly if the expression is invalid or no such minute matches. */
  lemma NoNext(expr: string, from: int, cal: int -> Calendar)
    ensures Next(expr, from, cal) == None <==>
              ReadExpr(expr).None? || forall u | Candidate(u, from) :: !CronMatch(ReadExpr(expr).value, cal(u))
  {
    hide CronMatch, ReadExpr;
    if ReadExpr(expr).Some? {
      var f := ReadExpr(expr).value;
      FirstMatchSpec(f, cal, MinuteAfter(from), from + HORIZON);
      var r := Next(expr, from, cal);
      if r.Some? {
        CandidatesFrom(from, r.value);
      } else {
        forall u | Candidate(u, from) ensures !CronMatch(f, cal(u)) {
          CandidatesFrom(from, u);
        }
      }
    }
  }
}
