/**
 Which strings the affinity parser accepts, said without its functions: terms in either case, blanks around
 them, `LP-E` and `X3D` as other names, joined by plus signs (src/affinity.rs).
 */
module AffinitySpelling {
  import opened Outcomes
  import opened AffinityText

  predicate Blank(s: string) {
    forall i :: 0 <= i < |s| ==> IsSpace(s[i])
  }

  /** `s` is the name, each letter a capital or not. */
  predicate InAnyCase(s: string, name: string) {
    && |s| == |name|
    && forall i :: 0 <= i < |s| ==>
         s[i] == name[i] || ('A' <= name[i] <= 'Z' && s[i] as int == name[i] as int + 32)
  }

  /** A term without the blanks around it. */
  predicate IsNameOf(s: string, term: Term) {
    match term
    case Performance => InAnyCase(s, "P")
    case Efficiency => InAnyCase(s, "E")
    case LowPowerEfficiency => InAnyCase(s, "LPE") || InAnyCase(s, "LP-E")
    case Cache => InAnyCase(s, "C") || InAnyCase(s, "X3D")
    case LogicalIndex(index) => s != "" && AllDigits(s) && DecimalValue(s) == index < USIZE_LIMIT
  }

  predicate SpellsAs(piece: string, term: Term, before: string, name: string, after: string) {
    piece == before + name + after && Blank(before) && Blank(after) && IsNameOf(name, term)
  }

  ghost predicate Spells(piece: string, term: Term) {
    exists before, name, after :: SpellsAs(piece, term, before, name, after)
  }

  // ---------------------------------------------------------------- trimming

  lemma {:induction false} TrimStartPadded(before: string, rest: string)
    requires Blank(before)
    ensures TrimStart(before + rest) == TrimStart(rest)
  {
    if before == "" {
      assert before + rest == rest;
    } else {
      assert (before + rest)[1..] == before[1..] + rest;
      TrimStartPadded(before[1..], rest);
    }
  }

  lemma {:induction false} TrimEndPadded(rest: string, after: string)
    requires Blank(after)
    ensures TrimEnd(rest + after) == TrimEnd(rest)
  {
    if after == "" {
      assert rest + after == rest;
    } else {
      var n := |after| - 1;
      assert (rest + after)[..|rest + after| - 1] == rest + after[..n];
      assert (rest + after)[|rest + after| - 1] == after[n];
      TrimEndPadded(rest, after[..n]);
    }
  }

  lemma TrimPadded(before: string, core: string, after: string)
    requires Blank(before) && Blank(after) && core != "" && !IsSpace(core[0]) && !IsSpace(core[|core| - 1])
    ensures Trim(before + core + after) == core
  {
    assert before + core + after == before + (core + after);
    TrimStartPadded(before, core + after);
    assert (core + after)[0] == core[0];
    TrimEndPadded(core, after);
  }

  lemma {:induction false} TrimStartSplits(s: string) returns (before: string)
    ensures s == before + TrimStart(s) && Blank(before)
  {
    if s != "" && IsSpace(s[0]) {
      var blanks := TrimStartSplits(s[1..]);
      before := [s[0]] + blanks;
      assert s == [s[0]] + s[1..] == [s[0]] + blanks + TrimStart(s);
    } else {
      before := "";
    }
  }

  lemma {:induction false} TrimEndSplits(s: string) returns (after: string)
    ensures s == TrimEnd(s) + after && Blank(after)
    decreases |s|
  {
    if s != "" && IsSpace(s[|s| - 1]) {
      var rest, last := s[..|s| - 1], s[|s| - 1];
      var blanks := TrimEndSplits(rest);
      after := blanks + [last];
      assert s == rest + [last] == TrimEnd(s) + blanks + [last];
    } else {
      after := "";
    }
  }

  /** Trimming takes blanks off both ends, and no blank is left there. */
  lemma TrimSplits(s: string) returns (before: string, after: string)
    ensures s == before + Trim(s) + after && Blank(before) && Blank(after)
    ensures Trim(s) == "" || (!IsSpace(Trim(s)[0]) && !IsSpace(Trim(s)[|Trim(s)| - 1]))
  {
    before := TrimStartSplits(s);
    after := TrimEndSplits(TrimStart(s));
    TrimStartIdempotent(s);
    TrimEndFacts(TrimStart(s));
  }

  // ---------------------------------------------------------------- one term

  lemma UpperMatches(s: string, name: string)
    requires forall i :: 0 <= i < |name| ==> !('a' <= name[i] <= 'z')
    ensures Upper(s) == name <==> InAnyCase(s, name)
  {
    if Upper(s) == name {
      forall i | 0 <= i < |s| ensures s[i] == name[i] || ('A' <= name[i] <= 'Z' && s[i] as int == name[i] as int + 32) {
        assert Upper(s)[i] == UpperChar(s[i]);
      }
    }
    if InAnyCase(s, name) {
      forall i | 0 <= i < |s| ensures Upper(s)[i] == name[i] {
      }
    }
  }

  lemma AllUpperMatches(s: string)
    ensures Upper(s) == "P" <==> InAnyCase(s, "P")
    ensures Upper(s) == "E" <==> InAnyCase(s, "E")
    ensures Upper(s) == "LPE" <==> InAnyCase(s, "LPE")
    ensures Upper(s) == "LP-E" <==> InAnyCase(s, "LP-E")
    ensures Upper(s) == "C" <==> InAnyCase(s, "C")
    ensures Upper(s) == "X3D" <==> InAnyCase(s, "X3D")
  {
    hide Upper, InAnyCase;
    UpperMatches(s, "P");
    UpperMatches(s, "E");
    UpperMatches(s, "LPE");
    UpperMatches(s, "LP-E");
    UpperMatches(s, "C");
    UpperMatches(s, "X3D");
  }

  lemma NamesHaveNoBlankEnds(name: string, term: Term)
    requires IsNameOf(name, term)
    ensures name != "" && !IsSpace(name[0]) && !IsSpace(name[|name| - 1])
    ensures AllDigits(name) <==> term.LogicalIndex?
  {
    if !term.LogicalIndex? { assert !IsDigit(name[0]); }
  }

  lemma NameIsRead(name: string, term: Term)
    requires Trim(name) == name && '+' !in name
    ensures TermOf(name) == Ok(term) <==> IsNameOf(name, term)
  {
    AllUpperMatches(name);
    if IsNameOf(name, term) {
      NamesHaveNoBlankEnds(name, term);
      if term.LogicalIndex? { DigitsArePlain(name); }
    }
    hide Upper, InAnyCase, DecimalValue, Trim;
  }

  /** A piece between plus signs is read as `term` exactly when it is a name of it with blanks around. */
  lemma PieceIsRead(piece: string, term: Term)
    requires '+' !in piece
    ensures TermOf(piece) == Ok(term) <==> Spells(piece, term)
  {
    hide InAnyCase, Upper, DecimalValue, IsSpace, AllDigits;
    var before, after := TrimSplits(piece);
    var core := Trim(piece);
    TrimIdempotent(piece);
    assert forall c :: c in core ==> c in piece;
    assert TermOf(core) == TermOf(piece);
    NameIsRead(core, term);
    hide Trim, TermOf, IsNameOf;
    if IsNameOf(core, term) { assert SpellsAs(piece, term, before, core, after); }
    if Spells(piece, term) {
      var b, name, a :| SpellsAs(piece, term, b, name, a);
      NamesHaveNoBlankEnds(name, term);
      TrimPadded(b, name, a);
    }
  }

  // ---------------------------------------------------------------- whole expressions

  lemma {:induction false} JoinSplit(s: string)
    ensures Join(Split(s)) == s && forall i :: 0 <= i < |Split(s)| ==> '+' !in Split(s)[i]
    decreases |s|
  {
    HeadLength(s);
    var head := Head(s);
    if |head| == |s| {
      assert head == s;
    } else {
      JoinSplit(s[|head| + 1..]);
      assert Split(s)[1..] == Split(s[|head| + 1..]);
      assert s == head + "+" + s[|head| + 1..];
    }
  }

  lemma JoinPrepend(pieces: seq<string>, before: string)
    requires pieces != []
    ensures Join(pieces[0 := before + pieces[0]]) == before + Join(pieces)
  {
    if |pieces| > 1 { assert pieces[0 := before + pieces[0]][1..] == pieces[1..]; }
  }

  lemma {:induction false} JoinAppend(pieces: seq<string>, after: string)
    requires pieces != []
    ensures Join(pieces[|pieces| - 1 := pieces[|pieces| - 1] + after]) == Join(pieces) + after
  {
    if |pieces| == 1 {
    } else {
      JoinAppend(pieces[1..], after);
      var n := |pieces| - 1;
      assert pieces[n := pieces[n] + after][1..] == pieces[1..][n - 1 := pieces[1..][n - 1] + after];
    }
  }

  /** Blanks around the whole belong to its first and last piece. */
  function Padded(before: string, pieces: seq<string>, after: string): (padded: seq<string>)
    requires pieces != []
    ensures |padded| == |pieces|
  {
    var first := pieces[0 := before + pieces[0]];
    first[|first| - 1 := first[|first| - 1] + after]
  }

  lemma JoinPadded(before: string, pieces: seq<string>, after: string)
    requires pieces != []
    ensures Join(Padded(before, pieces, after)) == before + Join(pieces) + after
  {
    JoinPrepend(pieces, before);
    JoinAppend(pieces[0 := before + pieces[0]], after);
  }

  lemma PaddedSpells(before: string, piece: string, after: string, term: Term)
    requires Blank(before) && Blank(after) && Spells(piece, term)
    ensures Spells(before + piece, term) && Spells(piece + after, term)
  {
    hide IsNameOf;
    var b, name, a :| SpellsAs(piece, term, b, name, a);
    assert before + piece == (before + b) + name + a;
    assert SpellsAs(before + piece, term, before + b, name, a);
    assert piece + after == b + name + (a + after);
    assert SpellsAs(piece + after, term, b, name, a + after);
  }

  /** The pieces spell the terms, one each. */
  ghost predicate SpellOut(pieces: seq<string>, terms: seq<Term>) {
    && |pieces| == |terms| > 0
    && forall i :: 0 <= i < |pieces| ==> '+' !in pieces[i] && Spells(pieces[i], terms[i])
  }

  lemma {:induction false} TermsAreRead(raws: seq<string>, terms: seq<Term>)
    requires forall i :: 0 <= i < |raws| ==> '+' !in raws[i]
    ensures TermsOf(raws) == Ok(terms) <==>
            |raws| == |terms| && forall i :: 0 <= i < |raws| ==> Spells(raws[i], terms[i])
  {
    hide TermOf, Spells;
    if raws == [] {
    } else if terms == [] {
    } else {
      TermsAreRead(raws[1..], terms[1..]);
      PieceIsRead(raws[0], terms[0]);
      assert terms == [terms[0]] + terms[1..];
      if TermsOf(raws) == Ok(terms) {
        assert TermsOf(raws).value[1..] == TermsOf(raws[1..]).value;
        forall i | 0 <= i < |raws| ensures Spells(raws[i], terms[i]) {
          if i > 0 { assert raws[1..][i - 1] == raws[i] && terms[1..][i - 1] == terms[i]; }
        }
      }
      if |raws| == |terms| && forall i :: 0 <= i < |raws| ==> Spells(raws[i], terms[i]) {
        assert forall i :: 0 <= i < |raws[1..]| ==> raws[1..][i] == raws[i + 1] && terms[1..][i] == terms[i + 1];
      }
    }
  }

  lemma StartTrimmedSpells(piece: string, term: Term)
    requires Spells(piece, term)
    ensures TrimStart(piece) != "" && Spells(TrimStart(piece), term)
  {
    var b, name, a :| SpellsAs(piece, term, b, name, a);
    NamesHaveNoBlankEnds(name, term);
    hide IsNameOf, TrimEnd;
    assert piece == b + (name + a);
    TrimStartPadded(b, name + a);
    assert (name + a)[0] == name[0];
    assert TrimStart(piece) == name + a == "" + name + a;
    assert SpellsAs(name + a, term, "", name, a);
  }

  lemma EndTrimmedSpells(piece: string, term: Term)
    requires Spells(piece, term)
    ensures TrimEnd(piece) != "" && Spells(TrimEnd(piece), term)
  {
    var b, name, a :| SpellsAs(piece, term, b, name, a);
    NamesHaveNoBlankEnds(name, term);
    hide IsNameOf, TrimStart;
    var rest := b + name;
    TrimEndPadded(rest, a);
    assert rest[|rest| - 1] == name[|name| - 1];
    assert TrimEnd(piece) == rest == b + name + "";
    assert SpellsAs(rest, term, b, name, "");
  }

  lemma TrimStartJoined(pieces: seq<string>)
    requires pieces != [] && TrimStart(pieces[0]) != ""
    ensures TrimStart(Join(pieces)) == Join(pieces[0 := TrimStart(pieces[0])])
  {
    var before := TrimStartSplits(pieces[0]);
    var rest := pieces[0 := TrimStart(pieces[0])];
    TrimStartIdempotent(pieces[0]);
    JoinPrepend(rest, before);
    assert rest[0 := before + rest[0]] == pieces;
    TrimStartPadded(before, Join(rest));
    assert Join(rest)[0] == rest[0][0];
  }

  lemma {:induction false} JoinLast(pieces: seq<string>)
    requires pieces != [] && pieces[|pieces| - 1] != ""
    ensures Join(pieces) != ""
    ensures Join(pieces)[|Join(pieces)| - 1] == pieces[|pieces| - 1][|pieces[|pieces| - 1]| - 1]
  {
    if |pieces| == 1 {
    } else {
      var rest := pieces[1..];
      assert rest[|rest| - 1] == pieces[|pieces| - 1];
      JoinLast(rest);
      assert Join(pieces) == pieces[0] + "+" + Join(rest);
    }
  }

  lemma {:induction false} TrimEndLeaves(s: string)
    ensures TrimEnd(s) == "" || !IsSpace(TrimEnd(s)[|TrimEnd(s)| - 1])
    decreases |s|
  {
    if s == "" || !IsSpace(s[|s| - 1]) {
    } else {
      TrimEndLeaves(s[..|s| - 1]);
    }
  }

  lemma TrimEndJoined(pieces: seq<string>)
    requires pieces != [] && TrimEnd(pieces[|pieces| - 1]) != ""
    ensures TrimEnd(Join(pieces)) == Join(pieces[|pieces| - 1 := TrimEnd(pieces[|pieces| - 1])])
  {
    var n := |pieces| - 1;
    var after := TrimEndSplits(pieces[n]);
    var rest := pieces[n := TrimEnd(pieces[n])];
    TrimEndLeaves(pieces[n]);
    JoinAppend(rest, after);
    assert rest[n := rest[n] + after] == pieces;
    TrimEndPadded(Join(rest), after);
    JoinLast(rest);
  }

  lemma PlusIsNoBlank(s: string)
    ensures '+' !in s ==> '+' !in TrimStart(s) && '+' !in TrimEnd(s)
    ensures Blank(s) ==> '+' !in s
  {
    var before := TrimStartSplits(s);
    var after := TrimEndSplits(s);
    assert !IsSpace('+');
  }

  /** The pieces make up the source and spell the terms. */
  ghost predicate SpelledBy(source: string, pieces: seq<string>, terms: seq<Term>) {
    SpellOut(pieces, terms) && Join(pieces) == source
  }

  /** Pieces that spell terms, joined, mean those terms. */
  lemma SpelledIsRead(pieces: seq<string>, terms: seq<Term>)
    requires SpellOut(pieces, terms)
    ensures Meaning(Join(pieces)) == Ok(Expression(Trim(Join(pieces)), terms))
  {
    hide Spells, IsSpace, TermsOf, Join, Split, TrimStart, TrimEnd;
    var n := |pieces| - 1;
    StartTrimmedSpells(pieces[0], terms[0]);
    PlusIsNoBlank(pieces[0]);
    TrimStartJoined(pieces);
    var left := pieces[0 := TrimStart(pieces[0])];
    EndTrimmedSpells(left[n], terms[n]);
    PlusIsNoBlank(left[n]);
    TrimEndJoined(left);
    var raws := left[n := TrimEnd(left[n])];
    assert Trim(Join(pieces)) == Join(raws);
    SplitJoin(raws);
    TermsAreRead(raws, terms);
    JoinLast(raws);
  }

  /** A string that means some terms is made of pieces that spell them. */
  lemma ReadIsSpelled(source: string, terms: seq<Term>) returns (pieces: seq<string>)
    requires Meaning(source).Ok? && Meaning(source).value.terms == terms
    ensures SpellOut(pieces, terms) && Join(pieces) == source
  {
    hide Spells, IsSpace, TermsOf, Split, Join;
    var before, after := TrimSplits(source);
    var raws := Split(Trim(source));
    JoinSplit(Trim(source));
    TermsAreRead(raws, terms);
    pieces := Padded(before, raws, after);
    JoinPadded(before, raws, after);
    PlusIsNoBlank(before);
    PlusIsNoBlank(after);
    forall i | 0 <= i < |pieces| ensures '+' !in pieces[i] && Spells(pieces[i], terms[i]) {
      PaddedSpells(before, raws[i], "", terms[i]);
      PaddedSpells("", raws[i], after, terms[i]);
      PaddedSpells("", before + raws[i], after, terms[i]);
    }
  }

  /**
   The grammar of affinity expressions: a string means a list of terms exactly when it is made of pieces, joined by
   plus signs, that spell them in order; what is stored of it is the string without the blanks at its ends.
   */
  lemma Grammar(source: string, terms: seq<Term>)
    ensures Meaning(source).Ok? && Meaning(source).value.terms == terms <==>
            exists pieces :: SpelledBy(source, pieces, terms)
    ensures Meaning(source).Ok? ==>
              exists before, after ::
                Blank(before) && Blank(after) && source == before + Meaning(source).value.source + after
    ensures Meaning(source).Ok? ==>
              var stored := Meaning(source).value.source;
              stored != "" && !IsSpace(stored[0]) && !IsSpace(stored[|stored| - 1])
  {
    var before, after := TrimSplits(source);
    hide IsSpace, TermsOf, Split, Join, SpellOut, Trim;
    if Meaning(source).Ok? && Meaning(source).value.terms == terms {
      var pieces := ReadIsSpelled(source, terms);
      assert SpelledBy(source, pieces, terms);
    }
    if exists pieces :: SpelledBy(source, pieces, terms) {
      var pieces :| SpelledBy(source, pieces, terms);
      SpelledIsRead(pieces, terms);
    }
  }

  lemma BlankTrims(s: string)
    requires Blank(s)
    ensures Trim(s) == ""
  {
    TrimStartPadded(s, "");
    assert s + "" == s;
  }

  /**
   The error names the first piece that spells no term: it is empty, or it is reported without the blanks around it.
   A string of nothing but blanks is an empty expression.
   */
  lemma FirstErrorIsReported(pieces: seq<string>, terms: seq<Term>, before: string, core: string, after: string)
    requires |terms| < |pieces| && forall i :: 0 <= i < |pieces| ==> '+' !in pieces[i]
    requires Join(pieces) != "" && !IsSpace(Join(pieces)[0]) && !IsSpace(Join(pieces)[|Join(pieces)| - 1])
    requires forall i :: 0 <= i < |terms| ==> Spells(pieces[i], terms[i])
    requires forall term :: !Spells(pieces[|terms|], term)
    requires pieces[|terms|] == before + core + after && Blank(before) && Blank(after)
    requires core != "" ==> !IsSpace(core[0]) && !IsSpace(core[|core| - 1])
    ensures Meaning(Join(pieces)) == Err(if core == "" then EmptyTerm else UnsupportedTerm(core))
    ensures forall s :: Blank(s) ==> Meaning(s) == Err(EmptyExpression)
  {
    hide Spells, IsSpace, TermsOf, Split, Join;
    var n := |terms|;
    PlainTrim(Join(pieces));
    SplitJoin(pieces);
    TermsAreRead(pieces[..n], terms);
    TermsOfPrefix(pieces, n);
    if TermOf(pieces[n]).Ok? { PieceIsRead(pieces[n], TermOf(pieces[n]).value); }
    if core == "" { BlankTrims(pieces[n]); } else { TrimPadded(before, core, after); }
    forall s | Blank(s) ensures Meaning(s) == Err(EmptyExpression) { BlankTrims(s); }
  }
}
