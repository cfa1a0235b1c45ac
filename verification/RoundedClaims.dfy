/**
 Quarantine is looser than strict validation: a Claim whose number is a correct rounding of its
 evidence is retained, but the strict validator looks for the number verbatim.
 */
module RoundedClaims {
  import opened Sequences
  import opened Scanner
  import opened Rescan
  import opened Decimals
  import opened Grounding
  import opened Evidence
  import opened Json
  import opened Claims
  import opened Validation
  import opened Survival

  const RENDERED := "1.23457"
  const SOURCE := "1.234568"

  lemma RenderedLiterals()
    ensures Literals(RENDERED) == [RENDERED]
  {
    assert RunEnd(RENDERED, 1, true) == 1;
    assert RunEnd(RENDERED, 2, false) == 7;
    WholeMatch(RENDERED);
  }

  lemma FiveDigits()
    ensures AllDigits("12345") && DigitsValue("12345") == 12345
  {
    assert DigitsValue("") == 0;
    DigitsSnoc("", '1');
    assert "" + ['1'] == "1";
    DigitsSnoc("1", '2');
    assert "1" + ['2'] == "12";
    DigitsSnoc("12", '3');
    assert "12" + ['3'] == "123";
    DigitsSnoc("123", '4');
    assert "123" + ['4'] == "1234";
    DigitsSnoc("1234", '5');
    assert "1234" + ['5'] == "12345";
  }

  lemma AllTheDigits()
    ensures AllDigits("123457") && DigitsValue("123457") == 123457
    ensures AllDigits("1234568") && DigitsValue("1234568") == 1234568
  {
    FiveDigits();
    DigitsSnoc("12345", '7');
    assert "12345" + ['7'] == "123457";
    DigitsSnoc("12345", '6');
    assert "12345" + ['6'] == "123456";
    DigitsSnoc("123456", '8');
    assert "123456" + ['8'] == "1234568";
  }

  lemma ParsedPair()
    ensures Parse(RENDERED) == Some(Decimal(123457, -5))
    ensures Parse(SOURCE) == Some(Decimal(1234568, -6))
  {
    AllTheDigits();
    assert PointIndex(RENDERED) == 1 && PointIndex(SOURCE) == 1;
    assert WholePart(RENDERED) + FractionPart(RENDERED) == "123457";
    assert WholePart(SOURCE) + FractionPart(SOURCE) == "1234568";
  }

  lemma SixShown()
    ensures SignificantDigits(RENDERED) == 6
  {
    PointRemoved("1", "23457");
    assert RENDERED == "1" + "." + "23457";
  }

  lemma PairComparable()
    ensures Comparable(RENDERED, SOURCE, Decimal(123457, -5), Decimal(1234568, -6))
  {
    ParsedPair();
    SixShown();
    assert RENDERED[1] == '.';
  }

  lemma PairRounds()
    ensures Rounds(Decimal(1234568, -6), Decimal(123457, -5))
    ensures !Equal(Decimal(123457, -5), Decimal(1234568, -6))
    ensures Quantize(Decimal(1234568, -6), -5).Some?
  {
    assert Pow10(1) == 10 && Pow10(0) == 1;
    RoundingIsNearestEven(1234568, 10, 123457);
    assert Pow10(6) == 1000000;
    Pow10Monotone(6, PRECISION);
  }

  lemma RenderedMatches()
    ensures MatchToken(RENDERED, "e", SOURCE) == Found(Match(RENDERED, FormattedNumber, "e", SOURCE))
  {
    PairComparable();
    PairRounds();
    RoundingMatchIsRounding(RENDERED, SOURCE, Decimal(123457, -5), Decimal(1234568, -6));
    assert |RENDERED| != |SOURCE|;
  }

  /** A text that is one numeral, in a context without identifiers and calendar windows. */
  predicate LoneNumeral(p: Patterns, text: string) {
    text != "" && Literals(text) == [text] && p.identifiers(text) == [] && p.windowUnits(text, text) == []
  }

  lemma LoneNumeralGrounds(p: Patterns, text: string, e: Entry, token: string)
    requires LoneNumeral(p, text) && e.tokens == [token] && MatchToken(text, e.id, token).Found?
    ensures Ground(p, text, [e]).Ok? && Ground(p, text, [e]).value.ungrounded == []
  {
    assert Literals(text) + [] == [text];
    assert [text][..0] == [];
    assert Dedup([text]) == [text];
    assert ClaimLiterals(p, text, [e]) == [text];
    assert MatchTokens(text, e.id, [token]) == MatchToken(text, e.id, token);
    assert MatchNumericValue(text, [e]) == MatchTokens(text, e.id, [token]);
    var lookup := LiteralLookup(p, text, [e]);
    assert lookup(text).Found?;
    assert Ungrounded(lookup, [text][..0]) == [];
    assert Ungrounded(lookup, [text]) == [];
  }

  lemma SingleEntry(e: Entry)
    ensures Entries([e]) == map[e.id := e]
  {
    assert ById([e], 1) == ById([e], 0)[e.id := e];
  }

  lemma CitedEntry(e: Entry, ids: seq<string>)
    requires ids == [e.id]
    ensures AllIn(ids, Entries([e])) && Lookups(Entries([e]), ids) == [e]
  {
    SingleEntry(e);
  }

  lemma MatchedIsKept(lang: Language, e: Entry, token: string, c: Binding)
    requires c.Valid() && c.evidenceIds == [e.id] && c.intent == Fact
    requires LoneNumeral(lang.patterns, c.text) && lang.intent(c.text, false) == Fact
    requires e.tokens == [token] && MatchToken(c.text, e.id, token).Found?
    ensures EvidenceVerdict(lang, Entries([e]), Record(c)) == Keep(c)
  {
    CitedEntry(e, c.evidenceIds);
    LoneNumeralGrounds(lang.patterns, c.text, e, token);
    KeptWhenGrounded(lang, Entries([e]), [e], c);
  }

  lemma OtherTokenIsNotExact(e: Entry, token: string, c: Binding)
    requires c.evidenceIds == [e.id] && Literals(c.text) == [c.text] && e.tokens == [token] && token != c.text
    ensures !ExactClaim([e], c)
  {
    SingleEntry(e);
    assert !Cites(Entries([e]), c.evidenceIds, c.text) by {
      assert c.evidenceIds == [e.id];
    }
    assert c.text in Literals(c.text);
  }

  /** A numeral that matches its only token without being that token is kept but not exact. */
  lemma MatchedButNotExact(lang: Language, e: Entry, token: string, c: Binding)
    requires c.Valid() && c.evidenceIds == [e.id] && c.intent == Fact
    requires LoneNumeral(lang.patterns, c.text) && lang.intent(c.text, false) == Fact
    requires e.tokens == [token] && token != c.text && MatchToken(c.text, e.id, token).Found?
    ensures EvidenceVerdict(lang, Entries([e]), Record(c)) == Keep(c)
    ensures !ExactClaim([e], c)
  {
    MatchedIsKept(lang, e, token, c);
    OtherTokenIsNotExact(e, token, c);
  }

  lemma SourceLiterals()
    ensures Literals(SOURCE) == [SOURCE]
  {
    assert RunEnd(SOURCE, 1, true) == 1;
    assert RunEnd(SOURCE, 2, false) == 8;
    WholeMatch(SOURCE);
  }

  /** A concrete Claim over a document that quarantine keeps and strict validation refuses. */
  lemma RoundedClaimIsKeptButRefused(lang: Language, source: Source)
    requires lang.patterns.identifiers(RENDERED) == [] && lang.patterns.windowUnits(RENDERED, RENDERED) == []
    requires lang.intent(RENDERED, false) == Fact
    ensures var e := DocumentEntry("e", source, "t", SOURCE);
            var c := Binding("analysis.facts[0]", RENDERED, [RENDERED], ["e"], [], [], None, Fact);
            EvidenceVerdict(lang, Entries([e]), Record(c)) == Keep(c) && !ExactClaim([e], c)
  {
    RenderedLiterals();
    RenderedMatches();
    SourceLiterals();
    assert |RENDERED| != |SOURCE|;
    MatchedButNotExact(lang, DocumentEntry("e", source, "t", SOURCE), SOURCE,
                       Binding("analysis.facts[0]", RENDERED, [RENDERED], ["e"], [], [], None, Fact));
  }
}
