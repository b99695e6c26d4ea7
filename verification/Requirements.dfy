/**
 * The start-up gate of the launcher (run_dashboard.py): it reads a dependency entry into a name, a
 * floor and a ceiling, prints such bounds, and compares an installed version with them.
 */
module Requirements {
  import opened Prelude

  // ---------------------------------------------------------------- numbers and versions in text

  predicate IsDigit(c: char) { '0' <= c <= '9' }

  /** The white space of Python's `\s`. */
  predicate IsSpace(c: char) {
    var n := c as int;
    || 9 <= n <= 13 || 28 <= n <= 32 || n == 0x85 || n == 0xA0 || n == 0x1680 || 0x2000 <= n <= 0x200A
    || n == 0x2028 || n == 0x2029 || n == 0x202F || n == 0x205F || n == 0x3000
  }

  predicate AllDigits(s: string) { forall i :: 0 <= i < |s| ==> IsDigit(s[i]) }

  function Number(s: string): nat
    requires AllDigits(s)
  {
    if s == "" then 0 else 10 * Number(s[..|s| - 1]) + (s[|s| - 1] - '0') as nat
  }

  function Show(n: nat): (s: string)
    ensures s != "" && AllDigits(s)
  {
    (if n < 10 then "" else Show(n / 10)) + ['0' + (n % 10) as char]
  }

  lemma {:induction false} ReadsBack(n: nat)
    ensures Number(Show(n)) == n
  {
    var s := Show(n);
    if n >= 10 {
      ReadsBack(n / 10);
      assert s[..|s| - 1] == Show(n / 10);
    } else {
      assert s[..|s| - 1] == "";
    }
  }

  /** The length of the digits a string starts with. */
  function DigitRun(s: string): (n: nat)
    ensures n <= |s| && AllDigits(s[..n]) && (n < |s| ==> !IsDigit(s[n]))
  {
    if s == "" || !IsDigit(s[0]) then 0 else 1 + DigitRun(s[1..])
  }

  lemma {:induction false} DigitRunStops(s: string, rest: string)
    requires AllDigits(s) && (rest == "" || !IsDigit(rest[0]))
    ensures DigitRun(s + rest) == |s|
  {
    if s != "" {
      DigitRunStops(s[1..], rest);
      assert (s + rest)[1..] == s[1..] + rest;
    }
  }

  datatype Version = Version(major: nat, minor: nat, micro: nat)

  predicate Below(a: Version, b: Version) {
    || a.major < b.major
    || (a.major == b.major && (a.minor < b.minor || (a.minor == b.minor && a.micro < b.micro)))
  }

  function Dotted(v: Version): string {
    Show(v.major) + "." + Show(v.minor) + "." + Show(v.micro)
  }

  // ---------------------------------------------------------------- _version_tuple

  function Replaced(s: string, from: char, to: char): (r: string)
    ensures |r| == |s|
  {
    seq(|s|, i requires 0 <= i < |s| => if s[i] == from then to else s[i])
  }

  function Split(s: string, at: char): (r: seq<string>)
    ensures r != []
  {
    if s == "" then [""]
    else
      var rest := Split(s[1..], at);
      if s[0] == at then [""] + rest else [[s[0]] + rest[0]] + rest[1..]
  }

  /** The leading numbers of the tokens that have one. */
  function Numbers(tokens: seq<string>): seq<nat> {
    if tokens == [] then []
    else
      var token := tokens[|tokens| - 1];
      var n := DigitRun(token);
      Numbers(tokens[..|tokens| - 1]) + (if n > 0 then [Number(token[..n])] else [])
  }

  function Padded(parts: seq<nat>): Version {
    Version(if |parts| > 0 then parts[0] else 0,
            if |parts| > 1 then parts[1] else 0,
            if |parts| > 2 then parts[2] else 0)
  }

  /** The first three numbers of a version text, missing ones zero. */
  function VersionOf(text: string): Version {
    Padded(Numbers(Split(Replaced(text, '-', '.'), '.')))
  }

  /** The digits a token starts with, collected one by one. */
  method LeadingDigits(token: string) returns (number: string)
    ensures number == token[..DigitRun(token)]
  {
    number := "";
    for i := 0 to |token|
      invariant number == token[..i] && AllDigits(number)
    {
      if !IsDigit(token[i]) {
        DigitRunStops(token[..i], token[i..]);
        assert token[..i] + token[i..] == token;
        return;
      }
      number := number + [token[i]];
    }
    DigitRunStops(token, "");
    assert token + "" == token;
  }

  method VersionTuple(text: string) returns (v: Version)
    ensures v == VersionOf(text)
  {
    var tokens := Split(Replaced(text, '-', '.'), '.');
    var parts: seq<nat> := [];
    for i := 0 to |tokens|
      invariant parts == Numbers(tokens[..i]) && |parts| < 3
    {
      assert tokens[..i + 1][..i] == tokens[..i];
      var number := LeadingDigits(tokens[i]);
      if |number| > 0 { parts := parts + [Number(number)]; }
      if |parts| == 3 {
        MoreNumbers(tokens, i + 1);
        return Padded(parts);
      }
    }
    assert tokens[..|tokens|] == tokens;
    while |parts| < 3
      invariant |parts| <= 3 && Padded(parts) == VersionOf(text)
    {
      parts := parts + [0];
    }
    v := Version(parts[0], parts[1], parts[2]);
  }

  lemma {:induction false} MoreNumbers(tokens: seq<string>, k: nat)
    requires k <= |tokens|
    ensures Numbers(tokens[..k]) <= Numbers(tokens)
  {
    if k == |tokens| {
      assert tokens[..k] == tokens;
    } else {
      var front := tokens[..|tokens| - 1];
      MoreNumbers(front, k);
      assert front[..k] == tokens[..k];
    }
  }

  // ---------------------------------------------------------------- the clauses of an entry

  datatype Clause = AtLeast(floor: Version) | LessThan(ceiling: Version)

  predicate Meets(v: Version, c: Clause) {
    match c
    case AtLeast(floor) => !Below(v, floor)
    case LessThan(ceiling) => Below(v, ceiling)
  }

  function SpaceRun(s: string): (n: nat)
    ensures n <= |s|
  {
    if s == "" || !IsSpace(s[0]) then 0 else 1 + SpaceRun(s[1..])
  }

  /** The length of `[0-9]+(\.[0-9]+)*` at the start of a string, 0 when it does not match. */
  function VersionRun(s: string): (n: nat)
    ensures n <= |s|
  {
    var n := DigitRun(s);
    if 0 < n && n + 1 < |s| && s[n] == '.' && IsDigit(s[n + 1]) then n + 1 + VersionRun(s[n + 1..]) else n
  }

  /** The length of `>=`, `==`, `~=` or `<` at the start of a string, 0 when there is none. */
  function OperatorRun(s: string): (n: nat)
    ensures n <= |s|
  {
    if |s| >= 2 && (s[0] == '>' || s[0] == '=' || s[0] == '~') && s[1] == '=' then 2
    else if |s| >= 1 && s[0] == '<' then 1
    else 0
  }

  /** One match at the start of a string: its clause and how much text it takes. */
  function ClauseAt(s: string): (r: Option<(Clause, nat)>)
    ensures r.Some? ==> 0 < r.value.1 <= |s|
  {
    var op := OperatorRun(s);
    if op == 0 then None
    else
      var start := op + SpaceRun(s[op..]);
      var n := VersionRun(s[start..]);
      if n == 0 then None
      else
        var v := VersionOf(s[start..start + n]);
        Some((if s[0] == '<' then LessThan(v) else AtLeast(v), start + n))
  }

  /** All matches, from left to right, none overlapping another. */
  function Clauses(s: string): seq<Clause>
    decreases |s|
  {
    if s == "" then []
    else
      match ClauseAt(s)
      case Some(m) => [m.0] + Clauses(s[m.1..])
      case None => Clauses(s[1..])
  }

  // ---------------------------------------------------------------- _parse_requirement

  type Bound = Option<Version>

  datatype Requirement = Requirement(name: string, lower: Bound, upper: Bound)

  predicate IsDelimiter(c: char) {
    c == '<' || c == '>' || c == '=' || c == '!' || c == '~' || c == ';' || c == '[' || IsSpace(c)
  }

  function NameRun(s: string): (n: nat)
    ensures n <= |s| && (forall i :: 0 <= i < n ==> !IsDelimiter(s[i])) && (n < |s| ==> IsDelimiter(s[n]))
  {
    if s == "" || IsDelimiter(s[0]) then 0 else 1 + NameRun(s[1..])
  }

  function LowerCase(c: char): char { if 'A' <= c <= 'Z' then c + ' ' else c }

  function NormalName(s: string): (r: string)
    ensures |r| == |s|
  {
    seq(|s|, i requires 0 <= i < |s| => if s[i] == '_' then '-' else LowerCase(s[i]))
  }

  function Tightened(b: Requirement, c: Clause): Requirement {
    match c
    case AtLeast(v) => b.(lower := Some(if b.lower.Some? && !Below(b.lower.value, v) then b.lower.value else v))
    case LessThan(v) => b.(upper := Some(if b.upper.Some? && !Below(v, b.upper.value) then b.upper.value else v))
  }

  function Folded(name: string, clauses: seq<Clause>): Requirement {
    if clauses == [] then Requirement(name, None, None)
    else Tightened(Folded(name, clauses[..|clauses| - 1]), clauses[|clauses| - 1])
  }

  function Parsed(entry: string): Option<Requirement> {
    var name := NormalName(entry[..NameRun(entry)]);
    if name == "" then None else Some(Folded(name, Clauses(entry)))
  }

  method ParseRequirement(entry: string) returns (r: Option<Requirement>)
    ensures r == Parsed(entry)
  {
    var name := NormalName(entry[..NameRun(entry)]);
    if name == "" { return None; }
    var lower: Bound, upper: Bound := None, None;
    var clauses := Clauses(entry);
    for i := 0 to |clauses|
      invariant Requirement(name, lower, upper) == Folded(name, clauses[..i])
    {
      assert clauses[..i + 1][..i] == clauses[..i];
      match clauses[i] {
        case LessThan(v) => upper := Some(if upper.None? then v else Lower(upper.value, v));
        case AtLeast(v) => lower := Some(if lower.None? then v else Higher(lower.value, v));
      }
    }
    assert clauses[..|clauses|] == clauses;
    r := Some(Requirement(name, lower, upper));
  }

  /** Python's `min` and `max` of two tuples: the first one on a tie. */
  function Lower(a: Version, b: Version): Version { if Below(b, a) then b else a }
  function Higher(a: Version, b: Version): Version { if Below(a, b) then b else a }

  // ---------------------------------------------------------------- _version_problem

  datatype Verdict = Supported | NotInstalled | Unsatisfied

  predicate Within(v: Version, r: Requirement) {
    (r.lower.Some? ==> !Below(v, r.lower.value)) && (r.upper.Some? ==> Below(v, r.upper.value))
  }

  method VersionProblem(installed: Option<string>, r: Requirement) returns (verdict: Verdict)
    ensures verdict.NotInstalled? <==> installed.None?
    ensures verdict.Supported? <==> installed.Some? && Within(VersionOf(installed.value), r)
  {
    if installed.None? { return NotInstalled; }
    var parsed := VersionTuple(installed.value);
    if (r.lower.Some? && Below(parsed, r.lower.value)) || (r.upper.Some? && !Below(parsed, r.upper.value)) {
      return Unsatisfied;
    }
    return Supported;
  }

  lemma {:induction false} FoldedMeetsAll(name: string, clauses: seq<Clause>, v: Version)
    ensures Within(v, Folded(name, clauses)) <==> forall c :: c in clauses ==> Meets(v, c)
  {
    if clauses != [] {
      var front, last := clauses[..|clauses| - 1], clauses[|clauses| - 1];
      FoldedMeetsAll(name, front, v);
      TightenedMeets(Folded(name, front), last, v);
      assert clauses == front + [last];
      assert forall c :: c in clauses <==> c in front || c == last;
    }
  }

  lemma TightenedMeets(r: Requirement, c: Clause, v: Version)
    ensures Within(v, Tightened(r, c)) <==> Within(v, r) && Meets(v, c)
  {}

  /** The folded interval accepts a version exactly when each clause the gate recognises accepts it. */
  lemma IntervalMeansEveryClause(entry: string, installed: string)
    requires Parsed(entry).Some?
    ensures Within(VersionOf(installed), Parsed(entry).value)
            <==> forall c :: c in Clauses(entry) ==> Meets(VersionOf(installed), c)
  {
    FoldedMeetsAll(NormalName(entry[..NameRun(entry)]), Clauses(entry), VersionOf(installed));
  }

  // ---------------------------------------------------------------- printing, and reading it back

  function Floor(b: Bound): string { if b.Some? then ">=" + Dotted(b.value) else "" }
  function Ceiling(b: Bound): string { if b.Some? then "<" + Dotted(b.value) else "" }

  function FormatBounds(lower: Bound, upper: Bound): string {
    if lower.None? && upper.None? then "any version"
    else if lower.Some? && upper.Some? then Floor(lower) + "," + Ceiling(upper)
    else Floor(lower) + Ceiling(upper)
  }

  predicate PlainName(name: string) {
    name != "" && forall c :: c in name ==> !IsDelimiter(c) && c != '_' && !('A' <= c <= 'Z')
  }

  lemma {:induction false} SplitAtDot(s: string, rest: string)
    requires '.' !in s
    ensures Split(s, '.') == [s] && Split(s + "." + rest, '.') == [s] + Split(rest, '.')
  {
    if s == "" {
      assert s + "." + rest == "." + rest;
    } else {
      SplitAtDot(s[1..], rest);
      assert [s[0]] + s[1..] == s;
      assert (s + "." + rest)[1..] == s[1..] + "." + rest;
    }
  }

  lemma Unhyphenated(s: string)
    requires '-' !in s
    ensures Replaced(s, '-', '.') == s
  {}

  lemma ShowIsPlain(n: nat)
    ensures '.' !in Show(n) && '-' !in Show(n)
  {
    var s := Show(n);
    assert forall c :: c in s ==> IsDigit(c);
  }

  lemma ThreeNumbers(a: string, b: string, c: string)
    requires AllDigits(a) && AllDigits(b) && AllDigits(c) && a != "" && b != "" && c != ""
    ensures Numbers([a, b, c]) == [Number(a), Number(b), Number(c)]
  {
    OneMoreNumber([], a);
    OneMoreNumber([a], b);
    OneMoreNumber([a, b], c);
    assert [] + [a] == [a] && [a] + [b] == [a, b] && [a, b] + [c] == [a, b, c];
  }

  lemma OneMoreNumber(tokens: seq<string>, s: string)
    requires AllDigits(s) && s != ""
    ensures Numbers(tokens + [s]) == Numbers(tokens) + [Number(s)]
  {
    WholeRun(s);
    assert (tokens + [s])[..|tokens|] == tokens;
  }

  lemma WholeRun(s: string)
    requires AllDigits(s)
    ensures DigitRun(s) == |s| && s[..DigitRun(s)] == s
  {
    DigitRunStops(s, "");
    assert s + "" == s;
  }

  /** A printed version is read back as itself. */
  lemma VersionReadsBack(v: Version)
    ensures VersionOf(Dotted(v)) == v
  {
    var a, b, c := Show(v.major), Show(v.minor), Show(v.micro);
    ShowIsPlain(v.major);
    ShowIsPlain(v.minor);
    ShowIsPlain(v.micro);
    Unhyphenated(Dotted(v));
    assert Dotted(v) == a + "." + (b + "." + c);
    SplitAtDot(a, b + "." + c);
    SplitAtDot(b, c);
    SplitAtDot(c, "");
    assert [a] + ([b] + [c]) == [a, b, c];
    ThreeNumbers(a, b, c);
    ReadsBack(v.major);
    ReadsBack(v.minor);
    ReadsBack(v.micro);
  }

  /** A match takes the digits, then whatever the text after the dot gives. */
  lemma RunThroughDot(s: string, tail: string)
    requires s != "" && AllDigits(s) && |tail| > 1 && tail[0] == '.' && IsDigit(tail[1])
    ensures VersionRun(s + tail) == |s| + 1 + VersionRun(tail[1..])
  {
    DigitRunStops(s, tail);
    assert (s + tail)[|s| + 1..] == tail[1..];
    RunStep(s + tail, |s|);
  }

  lemma RunStep(s: string, n: nat)
    requires DigitRun(s) == n && 0 < n && n + 1 < |s| && s[n] == '.' && IsDigit(s[n + 1])
    ensures VersionRun(s) == n + 1 + VersionRun(s[n + 1..])
  {}

  /** No version text goes on after `rest`. */
  predicate Ends(rest: string) { rest == "" || rest[0] == ',' }

  lemma RunEnds(s: string, rest: string)
    requires s != "" && AllDigits(s) && Ends(rest)
    ensures VersionRun(s + rest) == |s|
  {
    DigitRunStops(s, rest);
  }

  lemma DottedRun(v: Version, rest: string)
    requires Ends(rest)
    ensures VersionRun(Dotted(v) + rest) == |Dotted(v)|
  {
    var a, b, c := Show(v.major), Show(v.minor), Show(v.micro);
    var inner := "." + (c + rest);
    var outer := "." + (b + inner);
    RunEnds(c, rest);
    assert inner[1..] == c + rest && outer[1..] == b + inner;
    RunThroughDot(b, inner);
    RunThroughDot(a, outer);
    Nested(a, ".", b, c, rest);
  }

  lemma Nested(a: string, dot: string, b: string, c: string, rest: string)
    ensures a + dot + b + dot + c + rest == a + (dot + (b + (dot + (c + rest))))
  {}

  /** One of the four operators that the gate understands. */
  predicate Prints(op: string) {
    (|op| == 1 && op[0] == '<') || (|op| == 2 && (op[0] == '>' || op[0] == '=' || op[0] == '~') && op[1] == '=')
  }

  /** An operator followed by the text of a version is one clause. */
  lemma ClauseReadsBack(op: string, text: string, v: Version, rest: string)
    requires Prints(op) && text != "" && IsDigit(text[0]) && VersionRun(text + rest) == |text| && VersionOf(text) == v
    ensures ClauseAt(op + (text + rest)) == Some((if op[0] == '<' then LessThan(v) else AtLeast(v), |op| + |text|))
  {
    OperatorReadsBack(op, text + rest);
    Slices(op, text, rest);
    MatchAt(op + (text + rest), |op|, |text|, v);
  }

  lemma ClauseThenRest(op: string, text: string, v: Version, rest: string)
    requires Prints(op) && text != "" && IsDigit(text[0]) && VersionRun(text + rest) == |text| && VersionOf(text) == v
    ensures Clauses(op + (text + rest)) == [if op[0] == '<' then LessThan(v) else AtLeast(v)] + Clauses(rest)
  {
    ClauseReadsBack(op, text, v, rest);
    Slices(op, text, rest);
    ClausesFrom(op + (text + rest), if op[0] == '<' then LessThan(v) else AtLeast(v), |op| + |text|);
  }

  lemma Slices(a: string, b: string, c: string)
    ensures (a + (b + c))[|a|..] == b + c
    ensures (a + (b + c))[|a|..|a| + |b|] == b
    ensures (a + (b + c))[|a| + |b|..] == c
    ensures a != "" ==> (a + (b + c))[0] == a[0]
  {}

  lemma OperatorReadsBack(op: string, rest: string)
    requires Prints(op) && rest != "" && IsDigit(rest[0])
    ensures OperatorRun(op + rest) == |op| && SpaceRun(rest) == 0
  {
    var s := op + rest;
    assert s[0] == op[0] && s[|op|] == rest[0];
  }

  lemma MatchAt(s: string, op: nat, n: nat, v: Version)
    requires op == OperatorRun(s) > 0 && SpaceRun(s[op..]) == 0 && VersionRun(s[op..]) == n > 0
    requires VersionOf(s[op..op + n]) == v
    ensures ClauseAt(s) == Some((if s[0] == '<' then LessThan(v) else AtLeast(v), op + n))
  {}

  lemma ClausesFrom(s: string, c: Clause, n: nat)
    requires ClauseAt(s) == Some((c, n))
    ensures Clauses(s) == [c] + Clauses(s[n..])
  {}

  lemma ClausesOfOne(op: string, v: Version, rest: string)
    requires Prints(op) && Ends(rest)
    ensures Clauses(op + (Dotted(v) + rest)) == [if op[0] == '<' then LessThan(v) else AtLeast(v)] + Clauses(rest)
  {
    DottedStarts(v);
    DottedRun(v, rest);
    VersionReadsBack(v);
    ClauseThenRest(op, Dotted(v), v, rest);
  }

  lemma DottedStarts(v: Version)
    ensures Dotted(v) != "" && IsDigit(Dotted(v)[0])
  {
    assert Dotted(v)[0] == Show(v.major)[0];
  }

  predicate InOperator(c: char) { c == '<' || c == '>' || c == '=' || c == '~' }

  lemma NoClauseAt(s: string)
    requires s != "" && !InOperator(s[0])
    ensures Clauses(s) == Clauses(s[1..])
  {
    assert OperatorRun(s) == 0;
  }

  lemma NoClauseStep(s: string, rest: string)
    requires s != "" && !InOperator(s[0])
    ensures Clauses(s + rest) == Clauses(s[1..] + rest)
  {
    NoClauseAt(s + rest);
    assert (s + rest)[1..] == s[1..] + rest;
  }

  /** Text without an operator in it holds no clause. */
  lemma {:induction false} NoClauseIn(s: string, rest: string)
    requires forall c :: c in s ==> !InOperator(c)
    ensures Clauses(s + rest) == Clauses(rest)
  {
    if s == "" {
      assert s + rest == rest;
    } else {
      NoClauseStep(s, rest);
      NoClauseIn(s[1..], rest);
    }
  }

  function BoundClauses(lower: Bound, upper: Bound): seq<Clause> {
    (if lower.Some? then [AtLeast(lower.value)] else []) + (if upper.Some? then [LessThan(upper.value)] else [])
  }

  lemma CeilingClauses(upper: Bound)
    ensures Clauses(Ceiling(upper)) == BoundClauses(None, upper)
  {
    if upper.Some? {
      ClausesOfOne("<", upper.value, "");
      assert Dotted(upper.value) + "" == Dotted(upper.value);
    }
  }

  lemma FormatClauses(lower: Bound, upper: Bound)
    ensures Clauses(FormatBounds(lower, upper)) == BoundClauses(lower, upper)
  {
    CeilingClauses(upper);
    if lower.Some? && upper.Some? {
      BothClauses(lower.value, upper.value);
    } else if lower.Some? {
      FloorClauses(lower.value);
    } else if upper.Some? {
      assert FormatBounds(lower, upper) == Ceiling(upper);
    } else {
      AnyVersionHasNoClause();
    }
  }

  lemma FloorClauses(lower: Version)
    ensures Clauses(FormatBounds(Some(lower), None)) == [AtLeast(lower)]
  {
    ClausesOfOne(">=", lower, "");
    assert Dotted(lower) + "" == Dotted(lower);
    assert FormatBounds(Some(lower), None) == ">=" + Dotted(lower);
  }

  lemma BothText(lower: Version, upper: Version)
    ensures FormatBounds(Some(lower), Some(upper)) == ">=" + (Dotted(lower) + ("," + Ceiling(Some(upper))))
  {
    Regrouped(">=", Dotted(lower), ",", Ceiling(Some(upper)));
  }

  lemma BothClauses(lower: Version, upper: Version)
    ensures Clauses(FormatBounds(Some(lower), Some(upper))) == [AtLeast(lower)] + [LessThan(upper)]
  {
    BothText(lower, upper);
    ClausesOfOne(">=", lower, "," + Ceiling(Some(upper)));
    CommaSkipped(Some(upper));
  }

  lemma CommaSkipped(upper: Bound)
    ensures Clauses("," + Ceiling(upper)) == BoundClauses(None, upper)
  {
    CeilingClauses(upper);
    NoClauseStep(",", Ceiling(upper));
    assert "" + Ceiling(upper) == Ceiling(upper);
  }

  lemma Regrouped(a: string, b: string, c: string, d: string)
    ensures a + (b + (c + d)) == a + b + c + d
  {}

  lemma AnyVersionHasNoClause()
    ensures Clauses("any version") == []
  {
    var text := "any version";
    NoClauseIn(text, "");
    assert text + "" == text;
  }

  lemma FoldedBounds(name: string, lower: Bound, upper: Bound)
    ensures Folded(name, BoundClauses(lower, upper)) == Requirement(name, lower, upper)
  {
    var floor := BoundClauses(lower, None);
    if lower.Some? { assert floor[..0] == []; }
    assert Folded(name, floor) == Requirement(name, lower, None);
    if upper.Some? { assert BoundClauses(lower, upper)[..|floor|] == floor; }
  }

  lemma {:induction false} NameStops(name: string, rest: string)
    requires (forall c :: c in name ==> !IsDelimiter(c)) && (rest == "" || IsDelimiter(rest[0]))
    ensures NameRun(name + rest) == |name|
  {
    if name != "" {
      NameStops(name[1..], rest);
      assert (name + rest)[1..] == name[1..] + rest;
    }
  }

  /**
   * Bounds printed after a plain name are read back as that name and those bounds, if and only if
   * there is a bound to print.
   */
  lemma PrintedBoundsReadBack(name: string, lower: Bound, upper: Bound)
    requires PlainName(name)
    ensures Parsed(name + FormatBounds(lower, upper)) == Some(Requirement(name, lower, upper))
            <==> lower.Some? || upper.Some?
  {
    if lower.Some? || upper.Some? {
      BoundReadsBack(name, lower, upper);
    } else {
      LetterJoins(name, FormatBounds(lower, upper));
    }
  }

  lemma BoundReadsBack(name: string, lower: Bound, upper: Bound)
    requires PlainName(name) && (lower.Some? || upper.Some?)
    ensures Parsed(name + FormatBounds(lower, upper)) == Some(Requirement(name, lower, upper))
  {
    var text := FormatBounds(lower, upper);
    NoClauseIn(name, text);
    FormatClauses(lower, upper);
    FoldedBounds(name, lower, upper);
    FormatStarts(lower, upper);
    PlainNameRead(name, text);
  }

  lemma PlainNameRead(name: string, text: string)
    requires PlainName(name) && text != "" && IsDelimiter(text[0])
    ensures Parsed(name + text) == Some(Folded(name, Clauses(name + text)))
  {
    NameStops(name, text);
    assert (name + text)[..|name|] == name;
    assert NormalName(name) == name;
  }

  lemma FormatStarts(lower: Bound, upper: Bound)
    requires lower.Some? || upper.Some?
    ensures var text := FormatBounds(lower, upper); text != "" && IsDelimiter(text[0])
  {}

  /** With no bound the printed text starts with a letter, which the parser takes into the name. */
  lemma LetterJoins(name: string, text: string)
    requires name != "" && text != "" && 'a' <= text[0] <= 'z'
    ensures NameRun(name + text) != |name|
  {
    assert (name + text)[|name|] == text[0];
  }

  /** What any entry was parsed to, printed and parsed again, is the same: the printed form is canonical. */
  lemma ReprintIsStable(entry: string)
    requires Parsed(entry).Some?
    ensures var r := Parsed(entry).value;
      r.lower.Some? || r.upper.Some? ==> Parsed(r.name + FormatBounds(r.lower, r.upper)) == Some(r)
  {
    var r := Parsed(entry).value;
    FoldedName(NormalName(entry[..NameRun(entry)]), Clauses(entry));
    PlainNames(entry[..NameRun(entry)]);
    PrintedBoundsReadBack(r.name, r.lower, r.upper);
  }

  lemma {:induction false} FoldedName(name: string, clauses: seq<Clause>)
    ensures Folded(name, clauses).name == name
  {
    if clauses != [] { FoldedName(name, clauses[..|clauses| - 1]); }
  }

  lemma PlainNames(s: string)
    requires s != "" && forall i :: 0 <= i < |s| ==> !IsDelimiter(s[i])
    ensures PlainName(NormalName(s))
  {}

  // ---------------------------------------------------------------- what else is read

  /** White space may stand between an operator and its version. */
  lemma {:induction false} SpacesSkipped(spaces: string, rest: string)
    requires (forall i :: 0 <= i < |spaces| ==> IsSpace(spaces[i])) && (rest == "" || !IsSpace(rest[0]))
    ensures SpaceRun(spaces + rest) == |spaces|
  {
    if spaces == "" {
      assert spaces + rest == rest;
    } else {
      SpacesSkipped(spaces[1..], rest);
      assert (spaces + rest)[1..] == spaces[1..] + rest;
    }
  }

  lemma {:induction false} SpacedMatch(op: string, spaces: string, text: string, v: Version)
    requires Prints(op) && (forall i :: 0 <= i < |spaces| ==> IsSpace(spaces[i]))
    requires text != "" && IsDigit(text[0]) && VersionRun(text) == |text| && VersionOf(text) == v
    ensures ClauseAt(op + (spaces + text))
            == Some((if op[0] == '<' then LessThan(v) else AtLeast(v), |op + (spaces + text)|))
  {
    var mid := spaces + text;
    SpacesSkipped(spaces, text);
    assert mid[0] == if spaces == "" then text[0] else spaces[0];
    assert mid[|spaces|..] == text;
    OperatorThen(op, mid, |spaces|, text, v);
  }

  lemma {:induction false} OperatorThen(op: string, mid: string, spaces: nat, text: string, v: Version)
    requires Prints(op) && mid != "" && (IsDigit(mid[0]) || IsSpace(mid[0]))
    requires spaces <= |mid| && SpaceRun(mid) == spaces && mid[spaces..] == text
    requires text != "" && VersionRun(text) == |text| && VersionOf(text) == v
    ensures ClauseAt(op + mid) == Some((if op[0] == '<' then LessThan(v) else AtLeast(v), |op + mid|))
  {
    OperatorTaken(op, mid);
    AfterOperator(op, mid, spaces, text);
    MatchAfterSpaces(op + mid, |op|, spaces, mid, text, v);
  }

  lemma {:induction false} AfterOperator(op: string, mid: string, n: nat, text: string)
    requires n <= |mid| && mid[n..] == text
    ensures var s := op + mid;
      && |op| + n + |text| == |s| && s[|op|..] == mid
      && s[|op| + n..] == text && s[|op| + n..|op| + n + |text|] == text
  {}

  lemma {:induction false} MatchAfterSpaces(s: string, op: nat, spaces: nat, mid: string, text: string, v: Version)
    requires 0 < op == OperatorRun(s) && op + spaces + |text| <= |s| && text != ""
    requires s[op..] == mid && s[op + spaces..] == text && s[op + spaces..op + spaces + |text|] == text
    requires SpaceRun(mid) == spaces && VersionRun(text) == |text| && VersionOf(text) == v
    ensures ClauseAt(s) == Some((if s[0] == '<' then LessThan(v) else AtLeast(v), op + spaces + |text|))
  {}

  lemma {:induction false} OperatorTaken(op: string, rest: string)
    requires Prints(op) && rest != "" && (IsDigit(rest[0]) || IsSpace(rest[0]))
    ensures OperatorRun(op + rest) == |op| && (op + rest)[0] == op[0]
  {
    assert (op + rest)[|op|] == rest[0];
    if |op| == 2 { assert (op + rest)[1] == op[1]; }
  }

  /** Alone after a name, `<` gives a ceiling and each of the other operators a floor, spaced or not. */
  lemma {:induction false} OperatorsMean(op: string, spaces: string, v: Version)
    requires Prints(op) && forall i :: 0 <= i < |spaces| ==> IsSpace(spaces[i])
    ensures Clauses(op + (spaces + Dotted(v))) == [if op[0] == '<' then LessThan(v) else AtLeast(v)]
  {
    var text := Dotted(v);
    DottedStarts(v);
    DottedRun(v, "");
    assert text + "" == text;
    VersionReadsBack(v);
    SpacedMatch(op, spaces, text, v);
    var s := op + (spaces + text);
    ClausesFrom(s, if op[0] == '<' then LessThan(v) else AtLeast(v), |s|);
    assert s[|s|..] == "";
  }

  // ---------------------------------------------------------------- short, long and marked versions

  lemma {:induction false} NumbersOfOne(a: nat)
    ensures Numbers([Show(a)]) == [a]
  {
    OneMoreNumber([], Show(a));
    ReadsBack(a);
    assert [] + [Show(a)] == [Show(a)];
  }

  /** A version of one number stands for that number and two zeros. */
  lemma {:induction false} OneNumberReads(a: nat)
    ensures VersionOf(Show(a)) == Version(a, 0, 0)
  {
    ShowIsPlain(a);
    Unhyphenated(Show(a));
    SplitAtDot(Show(a), "");
    NumbersOfOne(a);
  }

  /** A version of two, with either separator, for those and one zero. */
  lemma {:induction false} TwoNumbersRead(a: nat, b: nat)
    ensures VersionOf(Show(a) + "." + Show(b)) == Version(a, b, 0)
    ensures VersionOf(Show(a) + "-" + Show(b)) == Version(a, b, 0)
  {
    var dotted, dashed := Show(a) + "." + Show(b), Show(a) + "-" + Show(b);
    ShowIsPlain(a);
    ShowIsPlain(b);
    Unhyphenated(dotted);
    DashBecomesDot(Show(a), Show(b));
    SplitAtDot(Show(a), Show(b));
    SplitAtDot(Show(b), "");
    NumbersOfOne(a);
    OneMoreNumber([Show(a)], Show(b));
    ReadsBack(b);
    assert [Show(a)] + [Show(b)] == [Show(a), Show(b)];
  }

  lemma {:induction false} DashBecomesDot(a: string, b: string)
    requires '-' !in a && '-' !in b
    ensures Replaced(a + "-" + b, '-', '.') == a + "." + b
  {
    var s, t := a + "-" + b, a + "." + b;
    forall i | 0 <= i < |s| ensures Replaced(s, '-', '.')[i] == t[i] {
      if i < |a| { assert s[i] == a[i]; } else if i > |a| { assert s[i] == b[i - |a| - 1]; }
    }
  }

  /** What is attached to a number without a separator, as a pre-release mark is, does not change the version. */
  lemma {:induction false} MarksAreIgnored(v: Version, mark: string)
    requires mark != "" && !IsDigit(mark[0]) && '.' !in mark && '-' !in mark
    ensures VersionOf(Dotted(v) + mark) == v
  {
    var a, b, c := Show(v.major), Show(v.minor), Show(v.micro);
    ShowIsPlain(v.major);
    ShowIsPlain(v.minor);
    ShowIsPlain(v.micro);
    Unhyphenated(Dotted(v) + mark);
    assert Dotted(v) + mark == a + "." + (b + "." + (c + mark));
    ThreeTokens(a, b, c + mark);
    MarkedNumbers(a, b, c, mark);
    ReadsBack(v.major);
    ReadsBack(v.minor);
    ReadsBack(v.micro);
  }

  lemma {:induction false} ThreeTokens(a: string, b: string, c: string)
    requires '.' !in a && '.' !in b && '.' !in c
    ensures Split(a + "." + (b + "." + c), '.') == [a, b, c]
  {
    SplitAtDot(a, b + "." + c);
    SplitAtDot(b, c);
    SplitAtDot(c, "");
    assert [a] + ([b] + [c]) == [a, b, c];
  }

  lemma {:induction false} MarkedNumbers(a: string, b: string, c: string, mark: string)
    requires AllDigits(a) && AllDigits(b) && AllDigits(c) && a != "" && b != "" && c != ""
    requires mark != "" && !IsDigit(mark[0])
    ensures Numbers([a, b, c + mark]) == [Number(a), Number(b), Number(c)]
  {
    OneMoreNumber([], a);
    OneMoreNumber([a], b);
    DigitRunStops(c, mark);
    var tokens := [a, b, c + mark];
    assert [] + [a] == [a] && [a] + [b] == [a, b] && tokens[..2] == [a, b];
    assert (c + mark)[..|c|] == c;
  }

  lemma {:induction false} FourSplit(a: string, b: string, c: string, rest: string)
    requires '.' !in a && '.' !in b && '.' !in c
    ensures Split(a + "." + (b + "." + (c + "." + rest)), '.') == [a] + ([b] + ([c] + Split(rest, '.')))
  {
    SplitAtDot(a, b + "." + (c + "." + rest));
    SplitAtDot(b, c + "." + rest);
    SplitAtDot(c, rest);
  }

  lemma {:induction false} FirstThree(a: string, b: string, c: string, more: seq<string>)
    requires AllDigits(a) && AllDigits(b) && AllDigits(c) && a != "" && b != "" && c != ""
    ensures Padded(Numbers([a] + ([b] + ([c] + more)))) == Version(Number(a), Number(b), Number(c))
  {
    var tokens := [a] + ([b] + ([c] + more));
    assert tokens[..3] == [a, b, c];
    ThreeNumbers(a, b, c);
    MoreNumbers(tokens, 3);
  }

  lemma {:induction false} Joined(a: string, b: string, c: string, rest: string)
    ensures a + "." + b + "." + c + "." + rest == a + "." + (b + "." + (c + "." + rest))
  {}

  /** Numbers after the third do not count. */
  lemma {:induction false} MoreNumbersAreIgnored(v: Version, more: string)
    ensures VersionOf(Dotted(v) + "." + more) == v
  {
    var a, b, c := Show(v.major), Show(v.minor), Show(v.micro);
    var rest := Replaced(more, '-', '.');
    ShowIsPlain(v.major);
    ShowIsPlain(v.minor);
    ShowIsPlain(v.micro);
    ReplacedTail(Dotted(v) + ".", more);
    Joined(a, b, c, rest);
    FourSplit(a, b, c, rest);
    FirstThree(a, b, c, Split(rest, '.'));
    ReadsBack(v.major);
    ReadsBack(v.minor);
    ReadsBack(v.micro);
  }

  lemma {:induction false} ReplacedTail(a: string, b: string)
    requires '-' !in a
    ensures Replaced(a + b, '-', '.') == a + Replaced(b, '-', '.')
  {
    var s := a + b;
    forall i | 0 <= i < |s| ensures Replaced(s, '-', '.')[i] == (a + Replaced(b, '-', '.'))[i] {
      if i < |a| { assert s[i] == a[i]; } else { assert s[i] == b[i - |a|]; }
    }
  }

  /** Names are compared without regard to case, and an underscore is a hyphen. */
  lemma {:induction false} NamesAreNormal(s: string, i: nat)
    requires i < |s|
    ensures var c, d := s[i], NormalName(s)[i];
      && (c == '_' ==> d == '-')
      && ('A' <= c <= 'Z' ==> 'a' <= d <= 'z' && d as int - 'a' as int == c as int - 'A' as int)
      && (c != '_' && !('A' <= c <= 'Z') ==> d == c)
  {}
}
