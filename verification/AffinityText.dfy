/**
 The textual half of the affinity compiler (src/affinity.rs): parsing an expression, printing
 an affinity for the policy signature, and the facts that make the printed text a cache key.
 */
module AffinityText {
  import opened Outcomes

  datatype Term =
    | LogicalIndex(index: nat)
    | Performance
    | Efficiency
    | LowPowerEfficiency
    | Cache

  datatype Expression = Expression(source: string, terms: seq<Term>)

  datatype AffinityPolicy =
    | Mask(mask: nat)
    | Parsed(expression: Expression)

  datatype ParseError =
    | EmptyExpression
    | EmptyTerm
    | UnsupportedTerm(term: string)

  const USIZE_LIMIT: nat := 0x1_0000_0000_0000_0000

  // ---------------------------------------------------------------- characters and pieces

  /** Unicode White_Space, which is what `str::trim` removes. */
  predicate IsSpace(c: char) {
    || '\U{9}' <= c <= '\U{D}'
    || c == '\U{20}' || c == '\U{85}' || c == '\U{A0}' || c == '\U{1680}'
    || '\U{2000}' <= c <= '\U{200A}'
    || c == '\U{2028}' || c == '\U{2029}' || c == '\U{202F}' || c == '\U{205F}' || c == '\U{3000}'
  }

  function TrimStart(s: string): string {
    if s != "" && IsSpace(s[0]) then TrimStart(s[1..]) else s
  }

  function TrimEnd(s: string): string {
    if s != "" && IsSpace(s[|s| - 1]) then TrimEnd(s[..|s| - 1]) else s
  }

  function Trim(s: string): string {
    TrimEnd(TrimStart(s))
  }

  function UpperChar(c: char): char {
    if 'a' <= c <= 'z' then (c as int - 'a' as int + 'A' as int) as char else c
  }

  function Upper(s: string): string {
    seq(|s|, i requires 0 <= i < |s| => UpperChar(s[i]))
  }

  /** The text before the first '+'. */
  function Head(s: string): string {
    if s == "" || s[0] == '+' then "" else [s[0]] + Head(s[1..])
  }

  lemma HeadLength(s: string)
    ensures |Head(s)| <= |s|
    ensures |Head(s)| < |s| ==> s[|Head(s)|] == '+'
    ensures s[..|Head(s)|] == Head(s) && '+' !in Head(s)
  {
  }

  /** `s.split('+')`: never empty, one piece more than there are separators. */
  function Split(s: string): (pieces: seq<string>)
    ensures pieces != []
    decreases |s|
  {
    HeadLength(s);
    var head := Head(s);
    if |head| == |s| then [head] else [head] + Split(s[|head| + 1..])
  }

  function Join(pieces: seq<string>): string
    requires pieces != []
  {
    if |pieces| == 1 then pieces[0] else pieces[0] + "+" + Join(pieces[1..])
  }

  // ---------------------------------------------------------------- numbers

  predicate IsDigit(c: char) {
    '0' <= c <= '9'
  }

  predicate AllDigits(s: string) {
    forall i :: 0 <= i < |s| ==> IsDigit(s[i])
  }

  function DigitValue(c: char): nat
    requires IsDigit(c)
  {
    c as nat - '0' as nat
  }

  function DecimalValue(s: string): nat
    requires AllDigits(s)
  {
    if s == "" then 0 else 10 * DecimalValue(s[..|s| - 1]) + DigitValue(s[|s| - 1])
  }

  /** What `term.parse::<usize>()` accepts; a sign may precede the digits but never stand alone. */
  function IndexValue(s: string): Option<nat> {
    var digits := if s != "" && s[0] == '+' then s[1..] else s;
    if digits != "" && AllDigits(digits) && DecimalValue(digits) < USIZE_LIMIT
    then Some(DecimalValue(digits)) else None
  }

  lemma {:induction false} PrefixValue(s: string, n: nat)
    requires AllDigits(s) && n <= |s|
    ensures DecimalValue(s[..n]) <= DecimalValue(s)
  {
    if n < |s| {
      PrefixValue(s[..|s| - 1], n);
      assert s[..|s| - 1][..n] == s[..n];
    } else {
      assert s[..n] == s;
    }
  }

  lemma NothingRead(digits: string)
    ensures AllDigits(digits[..0]) && DecimalValue(digits[..0]) == 0
  {
  }

  /** One more digit. */
  lemma NextDigit(digits: string, i: nat)
    requires i < |digits| && AllDigits(digits[..i]) && IsDigit(digits[i])
    ensures AllDigits(digits[..i + 1])
    ensures DecimalValue(digits[..i + 1]) == 10 * DecimalValue(digits[..i]) + DigitValue(digits[i])
  {
    var more := digits[..i + 1];
    assert more[..|more| - 1] == digits[..i] && more[|more| - 1] == digits[i];
    assert more == digits[..i] + [digits[i]];
  }

  /** A character that is no digit, or a prefix that is too large, decides the matter. */
  lemma NoNumber(digits: string, n: nat)
    requires n <= |digits|
    requires (n < |digits| && !IsDigit(digits[n])) ||
             (AllDigits(digits[..n]) && DecimalValue(digits[..n]) >= USIZE_LIMIT)
    ensures !AllDigits(digits) || DecimalValue(digits) >= USIZE_LIMIT
  {
    if AllDigits(digits) { PrefixValue(digits, n); }
  }

  /** Digit by digit with checked multiplication and addition, as the standard library does it. */
  method ParseIndex(s: string) returns (r: Option<nat>)
    ensures r == IndexValue(s)
  {
    hide AllDigits, DecimalValue, IsDigit;
    if s == "" { return None; }
    var digits := if s[0] == '+' then s[1..] else s;
    if digits == "" { return None; }
    NothingRead(digits);
    var value := 0;
    for i := 0 to |digits|
      invariant AllDigits(digits[..i]) && value == DecimalValue(digits[..i]) < USIZE_LIMIT
    {
      if !IsDigit(digits[i]) {
        NoNumber(digits, i);
        return None;
      }
      NextDigit(digits, i);
      if 10 * value >= USIZE_LIMIT || 10 * value + DigitValue(digits[i]) >= USIZE_LIMIT {
        NoNumber(digits, i + 1);
        return None;
      }
      value := 10 * value + DigitValue(digits[i]);
    }
    assert digits[..|digits|] == digits;
    return Some(value);
  }

  // ---------------------------------------------------------------- the parser

  function TermOf(raw: string): Result<Term, ParseError> {
    var term := Trim(raw);
    if term == "" then Err(EmptyTerm)
    else
      var name := Upper(term);
      if name == "P" then Ok(Performance)
      else if name == "E" then Ok(Efficiency)
      else if name == "LPE" || name == "LP-E" then Ok(LowPowerEfficiency)
      else if name == "C" || name == "X3D" then Ok(Cache)
      else match IndexValue(term)
        case Some(index) => Ok(LogicalIndex(index))
        case None => Err(UnsupportedTerm(term))
  }

  /** The terms up to the first piece that is no term. */
  function TermsOf(raws: seq<string>): Result<seq<Term>, ParseError> {
    if raws == [] then Ok([])
    else match TermOf(raws[0])
      case Err(e) => Err(e)
      case Ok(term) =>
        match TermsOf(raws[1..])
        case Err(e) => Err(e)
        case Ok(rest) => Ok([term] + rest)
  }

  /** The meaning of an affinity string. */
  function Meaning(source: string): Result<Expression, ParseError> {
    var trimmed := Trim(source);
    if trimmed == "" then Err(EmptyExpression)
    else match TermsOf(Split(trimmed))
      case Err(e) => Err(e)
      case Ok(terms) => Ok(Expression(trimmed, terms))
  }

  lemma {:induction false} TermsOfPrefix(raws: seq<string>, n: nat)
    requires n < |raws| && TermsOf(raws[..n]).Ok?
    ensures TermOf(raws[n]).Err? ==> TermsOf(raws) == Err(TermOf(raws[n]).error)
    ensures TermOf(raws[n]).Ok? ==> TermsOf(raws[..n + 1]) == Ok(TermsOf(raws[..n]).value + [TermOf(raws[n]).value])
  {
    if n == 0 {
      assert raws[..1] == [raws[0]] && raws[..1][1..] == [];
      if TermOf(raws[0]).Ok? {
        assert [TermOf(raws[0]).value] + [] == [] + [TermOf(raws[0]).value];
      }
    } else {
      assert raws[..n][1..] == raws[1..][..n - 1];
      assert raws[..n + 1][1..] == raws[1..][..n];
      TermsOfPrefix(raws[1..], n - 1);
      if TermOf(raws[n]).Ok? {
        var head := TermOf(raws[0]).value;
        var middle, last := TermsOf(raws[1..][..n - 1]).value, TermOf(raws[n]).value;
        assert TermsOf(raws[..n]) == Ok([head] + middle);
        assert [head] + (middle + [last]) == [head] + middle + [last];
      }
    }
  }

  /** `AffinityExpression::parse`. */
  method Parse(source: string) returns (r: Result<Expression, ParseError>)
    ensures r == Meaning(source)
  {
    var trimmed := Trim(source);
    if trimmed == "" {
      return Err(EmptyExpression);
    }
    var raws := Split(trimmed);
    var terms: seq<Term> := [];
    for i := 0 to |raws|
      invariant TermsOf(raws[..i]) == Ok(terms)
    {
      TermsOfPrefix(raws, i);
      var term := Trim(raws[i]);
      if term == "" {
        return Err(EmptyTerm);
      }
      var name := Upper(term);
      var parsed;
      if name == "P" {
        parsed := Performance;
      } else if name == "E" {
        parsed := Efficiency;
      } else if name == "LPE" || name == "LP-E" {
        parsed := LowPowerEfficiency;
      } else if name == "C" || name == "X3D" {
        parsed := Cache;
      } else {
        var index := ParseIndex(term);
        if index.None? {
          return Err(UnsupportedTerm(term));
        }
        parsed := LogicalIndex(index.value);
      }
      terms := terms + [parsed];
    }
    assert raws[..|raws|] == raws;
    return Ok(Expression(trimmed, terms));
  }

  // ---------------------------------------------------------------- canonical text

  function Decimal(n: nat): string {
    if n < 10 then [('0' as int + n) as char]
    else Decimal(n / 10) + [('0' as int + n % 10) as char]
  }

  function TermName(term: Term): string {
    match term
    case LogicalIndex(index) => Decimal(index)
    case Performance => "P"
    case Efficiency => "E"
    case LowPowerEfficiency => "LPE"
    case Cache => "C"
  }

  function Names(terms: seq<Term>): (names: seq<string>)
    ensures |names| == |terms|
  {
    seq(|terms|, i requires 0 <= i < |terms| => TermName(terms[i]))
  }

  predicate Fits(term: Term) {
    term.LogicalIndex? ==> term.index < USIZE_LIMIT
  }

  lemma {:induction false} DecimalDigits(n: nat)
    ensures Decimal(n) != "" && AllDigits(Decimal(n)) && DecimalValue(Decimal(n)) == n
  {
    var s := Decimal(n);
    if n < 10 {
      assert s[..0] == "" && DigitValue(s[0]) == n;
    } else {
      DecimalDigits(n / 10);
      assert s[..|s| - 1] == Decimal(n / 10);
    }
  }

  /** A piece of text that neither trimming nor splitting touches. */
  predicate Plain(s: string) {
    s != "" && forall i :: 0 <= i < |s| ==> !IsSpace(s[i]) && s[i] != '+'
  }

  lemma PlainTrim(s: string)
    requires s == "" || (!IsSpace(s[0]) && !IsSpace(s[|s| - 1]))
    ensures Trim(s) == s
  {
  }

  lemma DigitsArePlain(s: string)
    requires s != "" && AllDigits(s)
    ensures Plain(s) && Upper(s) == s
    ensures s != "P" && s != "E" && s != "LPE" && s != "LP-E" && s != "C" && s != "X3D"
  {
    assert IsDigit(s[0]);
  }

  lemma TermNameMeaning(term: Term)
    requires Fits(term)
    ensures Plain(TermName(term)) && TermOf(TermName(term)) == Ok(term)
  {
    var name := TermName(term);
    if term.LogicalIndex? {
      DecimalDigits(term.index);
      DigitsArePlain(name);
    } else {
      assert Upper(name) == name;
    }
    PlainTrim(name);
  }

  lemma {:induction false} HeadOfPlain(p: string, rest: string)
    requires '+' !in p
    ensures Head(p + "+" + rest) == p
    ensures Head(p) == p
  {
    if p != "" {
      HeadOfPlain(p[1..], rest);
      assert (p + "+" + rest)[1..] == p[1..] + "+" + rest;
    } else {
      assert (p + "+" + rest)[0] == '+';
    }
  }

  lemma {:induction false} SplitJoin(pieces: seq<string>)
    requires pieces != [] && forall i :: 0 <= i < |pieces| ==> '+' !in pieces[i]
    ensures Split(Join(pieces)) == pieces
  {
    if |pieces| == 1 {
      HeadOfPlain(pieces[0], "");
    } else {
      var rest := Join(pieces[1..]);
      HeadOfPlain(pieces[0], rest);
      SplitJoin(pieces[1..]);
      var s := Join(pieces);
      assert s == pieces[0] + "+" + rest;
      assert s[|pieces[0]| + 1..] == rest;
    }
  }

  lemma {:induction false} JoinEnds(pieces: seq<string>)
    requires pieces != [] && forall i :: 0 <= i < |pieces| ==> Plain(pieces[i])
    ensures var s := Join(pieces); s != "" && !IsSpace(s[0]) && !IsSpace(s[|s| - 1])
  {
    if |pieces| == 1 {
    } else {
      JoinEnds(pieces[1..]);
      var s, rest := Join(pieces), Join(pieces[1..]);
      assert s[0] == pieces[0][0] && s[|s| - 1] == rest[|rest| - 1];
    }
  }

  lemma OneMoreTerm(raws: seq<string>, term: Term, rest: seq<Term>)
    requires raws != [] && TermOf(raws[0]) == Ok(term) && TermsOf(raws[1..]) == Ok(rest)
    ensures TermsOf(raws) == Ok([term] + rest)
  {
    hide TermOf;
  }

  lemma NamesOfTail(terms: seq<Term>)
    requires terms != []
    ensures Names(terms) != [] && Names(terms)[0] == TermName(terms[0]) && Names(terms)[1..] == Names(terms[1..])
  {
    hide TermName;
  }

  lemma {:induction false} TermsOfNames(terms: seq<Term>)
    requires forall i :: 0 <= i < |terms| ==> Fits(terms[i])
    ensures TermsOf(Names(terms)) == Ok(terms)
  {
    if terms == [] {
    } else {
      TermNameMeaning(terms[0]);
      hide TermOf, TermsOf, TermName, Names, Fits;
      TermsOfNames(terms[1..]);
      NamesOfTail(terms);
      OneMoreTerm(Names(terms), terms[0], terms[1..]);
      assert [terms[0]] + terms[1..] == terms;
    }
  }

  /** Round trip: the joined canonical names of any non-empty term list parse back to that list. */
  lemma ParsePrinted(terms: seq<Term>)
    requires terms != [] && forall i :: 0 <= i < |terms| ==> Fits(terms[i])
    ensures var text := Join(Names(terms)); Meaning(text) == Ok(Expression(text, terms))
  {
    var names := Names(terms);
    forall i | 0 <= i < |names| ensures Plain(names[i]) && '+' !in names[i] {
      TermNameMeaning(terms[i]);
    }
    JoinEnds(names);
    PlainTrim(Join(names));
    SplitJoin(names);
    TermsOfNames(terms);
  }

  lemma {:induction false} TrimStartIdempotent(s: string)
    ensures TrimStart(TrimStart(s)) == TrimStart(s)
    ensures TrimStart(s) == "" || !IsSpace(TrimStart(s)[0])
  {
    if s == "" || !IsSpace(s[0]) {
    } else {
      TrimStartIdempotent(s[1..]);
    }
  }

  lemma {:induction false} TrimEndFacts(s: string)
    requires s == "" || !IsSpace(s[0])
    ensures TrimEnd(s) == "" || !IsSpace(TrimEnd(s)[|TrimEnd(s)| - 1])
    ensures TrimEnd(s) == "" || !IsSpace(TrimEnd(s)[0])
  {
    if s == "" || !IsSpace(s[|s| - 1]) {
    } else {
      if |s| > 1 { assert s[..|s| - 1][0] == s[0]; }
      TrimEndFacts(s[..|s| - 1]);
    }
  }

  lemma TrimIdempotent(s: string)
    ensures Trim(Trim(s)) == Trim(s)
  {
    TrimStartIdempotent(s);
    TrimEndFacts(TrimStart(s));
    PlainTrim(Trim(s));
  }

  /** The stored source of an expression parses to that same expression. */
  lemma ReparseStored(source: string)
    requires Meaning(source).Ok?
    ensures Meaning(Meaning(source).value.source) == Meaning(source)
  {
    TrimIdempotent(source);
  }

  // ---------------------------------------------------------------- the importer's grammar

  /** One alternative of `P|E|LPE|C|[0-9]+`. */
  predicate ImporterTerm(s: string) {
    s == "P" || s == "E" || s == "LPE" || s == "C" || (s != "" && AllDigits(s))
  }

  predicate ImporterAccepts(pieces: seq<string>) {
    pieces != [] && forall i :: 0 <= i < |pieces| ==> ImporterTerm(pieces[i])
  }

  predicate PieceFits(s: string) {
    s != "" && AllDigits(s) ==> DecimalValue(s) < USIZE_LIMIT
  }

  lemma ImporterTermMeaning(s: string)
    requires ImporterTerm(s)
    ensures Plain(s) && (TermOf(s).Ok? <==> PieceFits(s))
  {
    if s != "" && AllDigits(s) {
      DigitsArePlain(s);
    } else {
      assert Upper(s) == s;
      assert !AllDigits(s);
    }
    PlainTrim(s);
  }

  lemma {:induction false} TermsOfOk(raws: seq<string>)
    ensures TermsOf(raws).Ok? <==> forall i :: 0 <= i < |raws| ==> TermOf(raws[i]).Ok?
  {
    if raws == [] {
    } else {
      TermsOfOk(raws[1..]);
      if forall i :: 0 <= i < |raws| ==> TermOf(raws[i]).Ok? {
        assert forall i :: 0 <= i < |raws[1..]| ==> raws[1..][i] == raws[i + 1];
      } else {
        var i :| 0 <= i < |raws| && !TermOf(raws[i]).Ok?;
        if i > 0 { assert raws[1..][i - 1] == raws[i]; }
      }
    }
  }

  /** A string of the importer's grammar is accepted exactly when its numbers fit in 64 bits. */
  lemma ImporterTextParses(pieces: seq<string>)
    requires ImporterAccepts(pieces)
    ensures Meaning(Join(pieces)).Ok? <==> forall i :: 0 <= i < |pieces| ==> PieceFits(pieces[i])
  {
    forall i | 0 <= i < |pieces|
      ensures Plain(pieces[i]) && '+' !in pieces[i] && (TermOf(pieces[i]).Ok? <==> PieceFits(pieces[i]))
    {
      ImporterTermMeaning(pieces[i]);
    }
    JoinEnds(pieces);
    PlainTrim(Join(pieces));
    SplitJoin(pieces);
    TermsOfOk(pieces);
  }

  // ---------------------------------------------------------------- the signature text

  function HexDigit(d: nat): char
    requires d < 16
  {
    if d < 10 then ('0' as int + d) as char else ('a' as int + d - 10) as char
  }

  function HexValue(c: char): nat {
    if '0' <= c <= '9' then c as nat - '0' as nat
    else if 'a' <= c <= 'f' then c as nat - 'a' as nat + 10
    else 0
  }

  /** `{:x}` */
  function Hex(n: nat): string {
    if n < 16 then [HexDigit(n)] else Hex(n / 16) + [HexDigit(n % 16)]
  }

  function HexNumber(s: string): nat {
    if s == "" then 0 else 16 * HexNumber(s[..|s| - 1]) + HexValue(s[|s| - 1])
  }

  lemma {:induction false} HexRoundTrip(n: nat)
    ensures HexNumber(Hex(n)) == n
    ensures '+' !in Hex(n) && Hex(n) != "" && forall i :: 0 <= i < |Hex(n)| ==> !IsSpace(Hex(n)[i])
  {
    var s := Hex(n);
    if n < 16 {
      assert s[..0] == "";
    } else {
      HexRoundTrip(n / 16);
      assert s[..|s| - 1] == Hex(n / 16);
    }
  }

  /** `AffinityPolicy::log_value`, with "unchanged" for a rule without affinity. */
  function LogText(affinity: Option<AffinityPolicy>): string {
    match affinity
    case None => "unchanged"
    case Some(Mask(mask)) => "0x" + Hex(mask)
    case Some(Parsed(expression)) => expression.source
  }

  /** An affinity that the service can hold: expressions come from the parser. */
  ghost predicate FromService(affinity: Option<AffinityPolicy>) {
    affinity.Some? && affinity.value.Parsed? ==>
      exists source :: Meaning(source) == Ok(affinity.value.expression)
  }

  lemma PlainNonTermFails(s: string, k: nat)
    requires Plain(s) && s[0] != '+' && k < |s| && !IsDigit(s[k])
    requires Upper(s) != "P" && Upper(s) != "E" && Upper(s) != "LPE" && Upper(s) != "LP-E"
    requires Upper(s) != "C" && Upper(s) != "X3D"
    ensures Meaning(s).Err?
  {
    PlainTrim(s);
    SplitJoin([s]);
    assert Join([s]) == s;
  }

  lemma MaskTextIsNoExpression(mask: nat)
    ensures Meaning("0x" + Hex(mask)).Err?
  {
    HexRoundTrip(mask);
    var s := "0x" + Hex(mask);
    assert s[0] == '0' && s[1] == 'x';
    assert Upper(s)[0] == '0';
    PlainNonTermFails(s, 1);
  }

  lemma UnchangedIsNoExpression()
    ensures Meaning("unchanged").Err?
  {
    var s := "unchanged";
    assert Upper(s)[0] == 'U';
    PlainNonTermFails(s, 0);
  }

  /** The signature text identifies the affinity: two affinities with the same text are the same. */
  lemma LogTextInjective(a: Option<AffinityPolicy>, b: Option<AffinityPolicy>)
    requires FromService(a) && FromService(b) && LogText(a) == LogText(b)
    ensures a == b
  {
    UnchangedIsNoExpression();
    assert forall mask: nat :: ("0x" + Hex(mask))[0] == '0';
    if a.Some? && a.value.Parsed? {
      StoredSourceParses(a.value.expression);
      if b.Some? && b.value.Parsed? {
        StoredSourceParses(b.value.expression);
      } else if b.Some? {
        MaskTextIsNoExpression(b.value.mask);
      }
    } else if a.Some? {
      MaskTextIsNoExpression(a.value.mask);
      if b.Some? && b.value.Parsed? {
        StoredSourceParses(b.value.expression);
      } else if b.Some? {
        HexRoundTrip(a.value.mask);
        HexRoundTrip(b.value.mask);
        assert LogText(a)[2..] == Hex(a.value.mask) && LogText(b)[2..] == Hex(b.value.mask);
      }
    } else if b.Some? && b.value.Parsed? {
      StoredSourceParses(b.value.expression);
    }
  }

  lemma StoredSourceParses(expression: Expression)
    requires exists source :: Meaning(source) == Ok(expression)
    ensures Meaning(expression.source) == Ok(expression)
  {
    var source :| Meaning(source) == Ok(expression);
    ReparseStored(source);
  }
}
