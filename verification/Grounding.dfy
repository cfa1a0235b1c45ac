/** Semantic numeric grounding: which numerals of a Claim are supported by its bound Evidence. */
module Grounding {
  import opened Sequences
  import opened Scanner
  import opened Decimals
  import opened Evidence

  const MINIMUM_ROUNDED_SIGNIFICANT_DIGITS: nat := 6

  /**
   The regular expressions for identifiers and calendar windows, as functions from a text to
   their matches.  `singular` lower-cases a unit and drops a final "s".
   */
  datatype Patterns = Patterns(
    identifiers: string -> seq<string>,
    digitRuns: string -> seq<string>,
    windowUnits: (string, string) -> seq<string>,
    formalWindows: string -> seq<(string, string)>,
    singular: string -> string)

  // ----- one numeral against one token -----

  predicate IsPercent(s: string) { s != "" && s[|s| - 1] == '%' }

  function WithoutPercent(s: string): string {
    if IsPercent(s) then s[..|s| - 1] else s
  }

  predicate DecimalEqual(left: string, right: string) {
    && IsPercent(left) == IsPercent(right)
    && var l, r := Parse(WithoutPercent(left)), Parse(WithoutPercent(right));
       l.Some? && r.Some? && Equal(l.value, r.value)
  }

  datatype Rounding = Same | Different | Overflow

  function SignificantDigits(s: string): nat { |WithoutPoints(LeadingStripped(s))| }

  /** Comparison after `quantize`, which fails when its result does not fit the precision. */
  function RoundingMatch(rendered: string, source: string): Rounding {
    var value, origin := WithoutPercent(rendered), WithoutPercent(source);
    if IsPercent(rendered) != IsPercent(source) then Different
    else if '.' !in value then Different
    else if SignificantDigits(value) < MINIMUM_ROUNDED_SIGNIFICANT_DIGITS then Different
    else match (Parse(value), Parse(origin))
      case (Some(r), Some(s)) =>
        if s.exponent >= r.exponent then Different
        else (match Quantize(s, r.exponent)
              case None => Overflow
              case Some(q) => if Equal(q, r) then Same else Different)
      case _ => Different
  }

  /** The pair of numbers that a rounding comparison reaches, when it gets that far. */
  predicate Comparable(rendered: string, source: string, r: Decimal, s: Decimal) {
    && IsPercent(rendered) == IsPercent(source)
    && '.' in WithoutPercent(rendered)
    && SignificantDigits(WithoutPercent(rendered)) >= MINIMUM_ROUNDED_SIGNIFICANT_DIGITS
    && Parse(WithoutPercent(rendered)) == Some(r)
    && Parse(WithoutPercent(source)) == Some(s)
    && s.exponent < r.exponent
  }

  lemma EqualAtOneExponent(a: Decimal, b: Decimal)
    requires a.exponent == b.exponent
    ensures Equal(a, b) <==> a == b
  {
    assert Pow10(0) == 1;
  }

  /** A rounding match is exactly the half-even rounding of the source at the rendered exponent. */
  lemma RoundingMatchIsRounding(rendered: string, source: string, r: Decimal, s: Decimal)
    requires Comparable(rendered, source, r, s)
    ensures RoundingMatch(rendered, source) == Overflow <==> Quantize(s, r.exponent).None?
    ensures RoundingMatch(rendered, source) != Overflow ==>
              (RoundingMatch(rendered, source) == Same <==> Rounds(s, r))
  {
    var q := Quantize(s, r.exponent);
    if q.Some? {
      EqualAtOneExponent(q.value, r);
      QuantizeRounds(s, r);
    }
  }

  /** One rendered value only per source and exponent. */
  lemma RoundingMatchUnique(rendered: string, rendered': string, source: string, r: Decimal, r': Decimal, s: Decimal)
    requires Comparable(rendered, source, r, s) && Comparable(rendered', source, r', s)
    requires RoundingMatch(rendered, source) == Same && RoundingMatch(rendered', source) == Same
    requires r.exponent == r'.exponent
    ensures r == r'
  {
    RoundingMatchIsRounding(rendered, source, r, s);
    RoundingMatchIsRounding(rendered', source, r', s);
    RoundsUnique(s, r, r');
  }

  lemma PointSplits(body: string)
    requires '.' in body
    ensures body == WholePart(body) + "." + FractionPart(body)
  {
    var k := PointIndex(body);
    assert k < |body|;
    assert body == body[..k] + [body[k]] + body[k + 1..];
  }

  lemma UnsignedPoint(value: string)
    requires '.' in value
    ensures '.' in Unsigned(value)
    ensures LeadingStripped(value) == LeadingStripped(Unsigned(value))
  {
    var i :| 0 <= i < |value| && value[i] == '.';
    if Unsigned(value) != value {
      assert Unsigned(value)[i - 1] == '.';
    }
  }

  lemma PartsOfDigits(a: string, b: string)
    requires AllDigits(a + b)
    ensures AllDigits(a) && AllDigits(b)
  {
    assert forall i :: 0 <= i < |a| ==> a[i] == (a + b)[i];
    assert forall i :: 0 <= i < |b| ==> b[i] == (a + b)[|a| + i];
  }

  lemma PositiveWhole(whole: nat, scale: nat, fraction: nat)
    requires fraction < scale <= whole * scale + fraction
    ensures whole > 0
  {}

  /** A rendered value of magnitude at least one that shows six significant digits has them. */
  lemma SixDigitsShown(value: string, r: Decimal)
    requires Parse(value) == Some(r) && '.' in value
    requires SignificantDigits(value) >= MINIMUM_ROUNDED_SIGNIFICANT_DIGITS
    requires Abs(r.coefficient) >= Pow10(-r.exponent)
    ensures Abs(r.coefficient) >= 100000
  {
    var whole, fraction := WholePart(Unsigned(value)), FractionPart(Unsigned(value));
    UnsignedPoint(value);
    PointSplits(Unsigned(value));
    PartsOfDigits(whole, fraction);
    DigitsConcat(whole, fraction);
    PositiveWhole(DigitsValue(whole), Pow10(|fraction|), DigitsValue(fraction));
    StrippedMagnitude(whole, fraction);
    Pow10Monotone(5, SignificantDigits(value) - 1);
    assert Pow10(5) == 100000;
  }

  lemma {:induction false} Pow10Monotone(a: nat, b: nat)
    requires a <= b
    ensures Pow10(a) <= Pow10(b)
  {
    if a < b {
      Pow10Monotone(a, b - 1);
    }
  }

  /** With a magnitude of at least one, a rounding match is within five millionths of the source. */
  lemma RoundingMatchRelative(rendered: string, source: string, r: Decimal, s: Decimal)
    requires Comparable(rendered, source, r, s) && RoundingMatch(rendered, source) == Same
    requires Abs(r.coefficient) >= Pow10(-r.exponent)
    ensures RelativelyClose(s, r)
  {
    SixDigitsShown(WithoutPercent(rendered), r);
    RoundingMatchIsRounding(rendered, source, r, s);
    SixDigitsClose(s, r);
  }

  // ----- one numeral against the bound entries -----

  datatype MatchKind = NumericFact | StructuredMetadata | FormattedNumber

  datatype Match = Match(literal: string, kind: MatchKind, evidenceId: string, sourceToken: string)

  datatype Lookup = Found(match_: Match) | Missing | QuantizeFailed

  function MatchToken(literal: string, id: string, token: string): Lookup {
    if literal == token || DecimalEqual(literal, token) then Found(Match(literal, NumericFact, id, token))
    else match RoundingMatch(literal, token)
      case Same => Found(Match(literal, FormattedNumber, id, token))
      case Different => Missing
      case Overflow => QuantizeFailed
  }

  /** The first token that decides, in order; a failing comparison ends the search. */
  function MatchTokens(literal: string, id: string, tokens: seq<string>): Lookup {
    if tokens == [] then Missing
    else
      var first := MatchToken(literal, id, tokens[0]);
      if first.Missing? then MatchTokens(literal, id, tokens[1..]) else first
  }

  function MatchNumericValue(literal: string, entries: seq<Entry>): Lookup {
    if entries == [] then Missing
    else
      var first := MatchTokens(literal, entries[0].id, entries[0].tokens);
      if first.Missing? then MatchNumericValue(literal, entries[1..]) else first
  }

  predicate UnitAgrees(p: Patterns, units: seq<string>, unit: string) {
    exists i :: 0 <= i < |units| && p.singular(units[i]) == p.singular(unit)
  }

  predicate IsWindow(p: Patterns, literal: string, units: seq<string>, window: (string, string)) {
    window.0 == literal && UnitAgrees(p, units, window.1)
  }

  predicate HasWindow(p: Patterns, literal: string, units: seq<string>, e: Entry) {
    exists window :: window in p.formalWindows(e.description) && IsWindow(p, literal, units, window)
  }

  /** A window's source token is its value, so only the first entry that has the window matters. */
  function MatchWindow(p: Patterns, literal: string, units: seq<string>, entries: seq<Entry>): Lookup {
    if entries == [] then Missing
    else if HasWindow(p, literal, units, entries[0]) then
      Found(Match(literal, StructuredMetadata, entries[0].id, literal))
    else MatchWindow(p, literal, units, entries[1..])
  }

  function MatchLiteral(p: Patterns, text: string, entries: seq<Entry>, literal: string): Lookup {
    var units := p.windowUnits(text, literal);
    if units != [] then MatchWindow(p, literal, units, entries) else MatchNumericValue(literal, entries)
  }

  /** What a match may rest on: a token of the entry that equals or rounds to the literal, or a window. */
  predicate SupportedBy(p: Patterns, text: string, m: Match, e: Entry) {
    && e.id == m.evidenceId
    && match m.kind
       case NumericFact =>
         m.sourceToken in e.tokens && (m.literal == m.sourceToken || DecimalEqual(m.literal, m.sourceToken))
       case FormattedNumber => m.sourceToken in e.tokens && RoundingMatch(m.literal, m.sourceToken) == Same
       case StructuredMetadata =>
         m.sourceToken == m.literal && HasWindow(p, m.literal, p.windowUnits(text, m.literal), e)
  }

  lemma {:induction false} TokensDecide(literal: string, id: string, tokens: seq<string>)
    ensures MatchTokens(literal, id, tokens).Missing? <==>
              forall t :: t in tokens ==> MatchToken(literal, id, t).Missing?
    ensures MatchTokens(literal, id, tokens).Found? ==>
              exists t :: t in tokens && MatchTokens(literal, id, tokens) == MatchToken(literal, id, t)
  {
    if tokens != [] {
      assert tokens == [tokens[0]] + tokens[1..];
      TokensDecide(literal, id, tokens[1..]);
    }
  }

  lemma {:induction false} NumericDecides(literal: string, entries: seq<Entry>)
    ensures MatchNumericValue(literal, entries).Missing? <==>
              forall e :: e in entries ==> MatchTokens(literal, e.id, e.tokens).Missing?
    ensures MatchNumericValue(literal, entries).Found? ==>
              exists e :: e in entries && MatchNumericValue(literal, entries) == MatchTokens(literal, e.id, e.tokens)
  {
    if entries != [] {
      assert entries == [entries[0]] + entries[1..];
      NumericDecides(literal, entries[1..]);
    }
  }

  lemma {:induction false} WindowDecides(p: Patterns, literal: string, units: seq<string>, entries: seq<Entry>)
    ensures MatchWindow(p, literal, units, entries).Missing? <==>
              forall e :: e in entries ==> !HasWindow(p, literal, units, e)
    ensures MatchWindow(p, literal, units, entries).Found? ==>
              exists e :: e in entries && HasWindow(p, literal, units, e)
                && MatchWindow(p, literal, units, entries) == Found(Match(literal, StructuredMetadata, e.id, literal))
  {
    if entries != [] {
      assert entries == [entries[0]] + entries[1..];
      WindowDecides(p, literal, units, entries[1..]);
    }
  }

  // ----- which token decides -----

  /** The same text, or equal numbers, both percentages or neither. */
  predicate Agrees(literal: string, token: string) { literal == token || DecimalEqual(literal, token) }

  /** The rounding of `s` at the exponent of `r` has more digits than the precision holds. */
  ghost predicate TooWide(s: Decimal, r: Decimal) {
    s.exponent < r.exponent && RoundsBeyond(s.coefficient, Pow10(r.exponent - s.exponent), Pow10(PRECISION))
  }

  /** The literal is a rounded rendering of the token. */
  ghost predicate Renders(literal: string, token: string) {
    exists r, s :: Comparable(literal, token, r, s) && Rounds(s, r) && !TooWide(s, r)
  }

  ghost predicate Decides(literal: string, token: string) { Agrees(literal, token) || Renders(literal, token) }

  /** The comparison with the token cannot be carried out. */
  ghost predicate Overflows(literal: string, token: string) {
    !Agrees(literal, token) && exists r, s :: Comparable(literal, token, r, s) && TooWide(s, r)
  }

  lemma WidthDecides(s: Decimal, r: Decimal)
    requires s.exponent < r.exponent
    ensures Quantize(s, r.exponent).None? <==> TooWide(s, r)
  {
    RoundsBeyondDecides(s.coefficient, Pow10(r.exponent - s.exponent), Pow10(PRECISION));
  }

  lemma ComparisonDecides(literal: string, token: string)
    ensures RoundingMatch(literal, token) == Same <==> Renders(literal, token)
    ensures RoundingMatch(literal, token) == Overflow <==>
              exists r, s :: Comparable(literal, token, r, s) && TooWide(s, r)
  {
    var r, s := Parse(WithoutPercent(literal)), Parse(WithoutPercent(token));
    if r.Some? && s.Some? && Comparable(literal, token, r.value, s.value) {
      RoundingMatchIsRounding(literal, token, r.value, s.value);
      WidthDecides(s.value, r.value);
    }
  }

  lemma TokenDecides(literal: string, id: string, token: string)
    ensures MatchToken(literal, id, token).Found? <==> Decides(literal, token)
    ensures MatchToken(literal, id, token).QuantizeFailed? <==> Overflows(literal, token)
  {
    ComparisonDecides(literal, token);
  }

  /** What comparing a number with a token can do. */
  datatype Test = Test(decides: string -> bool, overflows: string -> bool)

  ghost function TestOf(literal: string): Test {
    Test((token: string) => Decides(literal, token), (token: string) => Overflows(literal, token))
  }

  /** Some token decides, and no comparison before it overflows. */
  predicate Reaches(test: Test, tokens: seq<string>) {
    exists i :: 0 <= i < |tokens| && test.decides(tokens[i]) && forall j :: 0 <= j < i ==> !test.overflows(tokens[j])
  }

  lemma ReachesNext(test: Test, token: string, rest: seq<string>)
    ensures Reaches(test, [token] + rest) <==>
              test.decides(token) || (!test.overflows(token) && Reaches(test, rest))
  {
    var tokens := [token] + rest;
    if test.decides(token) {
      assert tokens[0] == token;
    }
    if !test.overflows(token) && Reaches(test, rest) {
      var i :| 0 <= i < |rest| && test.decides(rest[i]) && forall j :: 0 <= j < i ==> !test.overflows(rest[j]);
      assert tokens[i + 1] == rest[i];
      assert forall j :: 0 < j < i + 1 ==> tokens[j] == rest[j - 1];
    }
    if Reaches(test, tokens) && !test.decides(token) {
      var i :| 0 <= i < |tokens| && test.decides(tokens[i]) && forall j :: 0 <= j < i ==> !test.overflows(tokens[j]);
      assert tokens[i] == rest[i - 1] && tokens[0] == token;
      assert forall j :: 0 <= j < i - 1 ==> rest[j] == tokens[j + 1];
    }
  }

  /** The tokens of the entries in the order of the search. */
  function EntryTokens(entries: seq<Entry>): seq<string> {
    if entries == [] then [] else entries[0].tokens + EntryTokens(entries[1..])
  }

  /** The search with an arbitrary comparison. */
  function FirstOf(look: string -> Lookup, tokens: seq<string>): Lookup {
    if tokens == [] then Missing
    else if look(tokens[0]).Missing? then FirstOf(look, tokens[1..])
    else look(tokens[0])
  }

  function TokenLookup(literal: string, id: string): string -> Lookup {
    (token: string) => MatchToken(literal, id, token)
  }

  lemma {:induction false} TokensAreSearched(literal: string, id: string, tokens: seq<string>)
    ensures MatchTokens(literal, id, tokens) == FirstOf(TokenLookup(literal, id), tokens)
  {
    if tokens != [] {
      TokensAreSearched(literal, id, tokens[1..]);
    }
  }

  /** The test says what each comparison yields. */
  ghost predicate Reports(test: Test, look: string -> Lookup) {
    forall token ::
      (look(token).Found? <==> test.decides(token)) && (look(token).QuantizeFailed? <==> test.overflows(token))
  }

  lemma TestReports(literal: string, id: string)
    ensures Reports(TestOf(literal), TokenLookup(literal, id))
  {
    forall token
      ensures MatchToken(literal, id, token).Found? <==> Decides(literal, token)
      ensures MatchToken(literal, id, token).QuantizeFailed? <==> Overflows(literal, token)
    {
      TokenDecides(literal, id, token);
    }
  }

  lemma {:induction false} SearchReaches(test: Test, look: string -> Lookup, tokens: seq<string>, rest: seq<string>)
    requires Reports(test, look)
    ensures FirstOf(look, tokens).Found? ==> Reaches(test, tokens + rest)
    ensures FirstOf(look, tokens).QuantizeFailed? ==> !Reaches(test, tokens + rest)
    ensures FirstOf(look, tokens).Missing? ==> (Reaches(test, tokens + rest) <==> Reaches(test, rest))
  {
    if tokens == [] {
      assert tokens + rest == rest;
    } else {
      SearchReaches(test, look, tokens[1..], rest);
      ReachesNext(test, tokens[0], tokens[1..] + rest);
      assert tokens + rest == [tokens[0]] + (tokens[1..] + rest);
    }
  }

  lemma TokensReach(literal: string, id: string, tokens: seq<string>, rest: seq<string>)
    ensures MatchTokens(literal, id, tokens).Found? ==> Reaches(TestOf(literal), tokens + rest)
    ensures MatchTokens(literal, id, tokens).QuantizeFailed? ==> !Reaches(TestOf(literal), tokens + rest)
    ensures MatchTokens(literal, id, tokens).Missing? ==>
      (Reaches(TestOf(literal), tokens + rest) <==> Reaches(TestOf(literal), rest))
  {
    TestReports(literal, id);
    TokensAreSearched(literal, id, tokens);
    SearchReaches(TestOf(literal), TokenLookup(literal, id), tokens, rest);
  }

  /** A number is found in the entries exactly when a token decides before any comparison overflows. */
  lemma {:induction false} NumericReaches(literal: string, entries: seq<Entry>)
    ensures MatchNumericValue(literal, entries).Found? <==> Reaches(TestOf(literal), EntryTokens(entries))
  {
    if entries != [] {
      TokensReach(literal, entries[0].id, entries[0].tokens, EntryTokens(entries[1..]));
      NumericReaches(literal, entries[1..]);
    }
  }

  /** Every overflowing comparison comes after a token that decides. */
  predicate Unblocked(test: Test, tokens: seq<string>) {
    forall j :: 0 <= j < |tokens| && test.overflows(tokens[j]) ==> exists i :: 0 <= i < j && test.decides(tokens[i])
  }

  lemma {:induction false} FirstDecision(test: Test, tokens: seq<string>, k: nat) returns (i: nat)
    requires k < |tokens| && test.decides(tokens[k])
    ensures i <= k && test.decides(tokens[i]) && forall j :: 0 <= j < i ==> !test.decides(tokens[j])
  {
    i := k;
    if j :| 0 <= j < k && test.decides(tokens[j]) {
      i := FirstDecision(test, tokens, j);
    }
  }

  lemma DecidedReaches(test: Test, tokens: seq<string>, k: nat)
    requires k < |tokens| && test.decides(tokens[k])
    requires forall token :: !(test.decides(token) && test.overflows(token))
    ensures Reaches(test, tokens) <==> Unblocked(test, tokens)
  {
    if Unblocked(test, tokens) {
      var i := FirstDecision(test, tokens, k);
    }
  }

  /** For a number that stands among the tokens, only an overflow before the first decision matters. */
  lemma PresentReaches(literal: string, tokens: seq<string>)
    requires literal in tokens
    ensures Reaches(TestOf(literal), tokens) <==> Unblocked(TestOf(literal), tokens)
  {
    var k :| 0 <= k < |tokens| && tokens[k] == literal;
    forall token ensures !(Decides(literal, token) && Overflows(literal, token)) {
      TokenDecides(literal, "", token);
    }
    DecidedReaches(TestOf(literal), tokens, k);
  }

  lemma FoundIsSupported(p: Patterns, text: string, entries: seq<Entry>, literal: string)
    requires MatchLiteral(p, text, entries, literal).Found?
    ensures var m := MatchLiteral(p, text, entries, literal).match_;
            m.literal == literal && exists e :: e in entries && SupportedBy(p, text, m, e)
  {
    var units := p.windowUnits(text, literal);
    var m := MatchLiteral(p, text, entries, literal).match_;
    if units != [] {
      WindowDecides(p, literal, units, entries);
      var e :| e in entries && HasWindow(p, literal, units, e)
        && m == Match(literal, StructuredMetadata, e.id, literal);
      assert SupportedBy(p, text, m, e);
    } else {
      NumericDecides(literal, entries);
      var e :| e in entries && Found(m) == MatchTokens(literal, e.id, e.tokens);
      TokensDecide(literal, e.id, e.tokens);
      var t :| t in e.tokens && Found(m) == MatchToken(literal, e.id, t);
      assert SupportedBy(p, text, m, e);
    }
  }

  // ----- all numerals of a Claim -----

  datatype Grounding = Grounding(literals: seq<string>, identifierComponents: seq<string>,
                                 matches: seq<Match>, ungrounded: seq<string>)

  function AllowedIdentifiers(p: Patterns, entries: seq<Entry>): set<string> {
    set e, x | e in entries && x in p.identifiers(e.id) + p.identifiers(e.description) :: x
  }

  /** The digit runs of those identifiers whose membership in `allowed` is `known`. */
  function IdentifierDigits(p: Patterns, identifiers: seq<string>, allowed: set<string>, known: bool): seq<string> {
    if identifiers == [] then []
    else
      var n := |identifiers| - 1;
      IdentifierDigits(p, identifiers[..n], allowed, known)
      + (if (identifiers[n] in allowed) == known then p.digitRuns(identifiers[n]) else [])
  }

  function ClaimLiterals(p: Patterns, text: string, entries: seq<Entry>): seq<string> {
    Dedup(Literals(text) + IdentifierDigits(p, p.identifiers(text), AllowedIdentifiers(p, entries), false))
  }

  predicate Decided(lookup: string -> Lookup, literals: seq<string>) {
    forall literal :: literal in literals ==> !lookup(literal).QuantizeFailed?
  }

  function Matched(lookup: string -> Lookup, literals: seq<string>): seq<Match> {
    if literals == [] then []
    else
      var n := |literals| - 1;
      var found := lookup(literals[n]);
      Matched(lookup, literals[..n]) + if found.Found? then [found.match_] else []
  }

  function Ungrounded(lookup: string -> Lookup, literals: seq<string>): seq<string> {
    if literals == [] then []
    else
      var n := |literals| - 1;
      Ungrounded(lookup, literals[..n]) + if lookup(literals[n]).Missing? then [literals[n]] else []
  }

  datatype GroundingError = QuantizeOverflow

  function LiteralLookup(p: Patterns, text: string, entries: seq<Entry>): string -> Lookup {
    literal => MatchLiteral(p, text, entries, literal)
  }

  function Ground(p: Patterns, text: string, entries: seq<Entry>): Result<Grounding, GroundingError> {
    var literals := ClaimLiterals(p, text, entries);
    var lookup := LiteralLookup(p, text, entries);
    if Decided(lookup, literals) then
      Ok(Grounding(
           literals,
           Dedup(IdentifierDigits(p, p.identifiers(text), AllowedIdentifiers(p, entries), true)),
           Matched(lookup, literals),
           Ungrounded(lookup, literals)))
    else Err(QuantizeOverflow)
  }

  method ValidateNumericGrounding(p: Patterns, text: string, entries: seq<Entry>)
    returns (r: Result<Grounding, GroundingError>)
    ensures r == Ground(p, text, entries)
  {
    var allowed := AllowedIdentifiers(p, entries);
    var identifiers := p.identifiers(text);
    var components, unknown := [], [];
    for i := 0 to |identifiers|
      invariant components == IdentifierDigits(p, identifiers[..i], allowed, true)
      invariant unknown == IdentifierDigits(p, identifiers[..i], allowed, false)
    {
      assert identifiers[..i + 1][..i] == identifiers[..i];
      if identifiers[i] in allowed {
        components := components + p.digitRuns(identifiers[i]);
      } else {
        unknown := unknown + p.digitRuns(identifiers[i]);
      }
    }
    assert identifiers[..|identifiers|] == identifiers;
    var literals := Dedup(Literals(text) + unknown);
    var split := ClassifyLiterals(LiteralLookup(p, text, entries), literals);
    match split {
      case Err(_) => r := Err(QuantizeOverflow);
      case Ok((matches, ungrounded)) => r := Ok(Grounding(literals, Dedup(components), matches, ungrounded));
    }
  }

  method ClassifyLiterals(lookup: string -> Lookup, literals: seq<string>)
    returns (r: Result<(seq<Match>, seq<string>), GroundingError>)
    ensures r.Ok? <==> Decided(lookup, literals)
    ensures r.Ok? ==> r.value == (Matched(lookup, literals), Ungrounded(lookup, literals))
  {
    var matches, ungrounded := [], [];
    for i := 0 to |literals|
      invariant matches == Matched(lookup, literals[..i])
      invariant ungrounded == Ungrounded(lookup, literals[..i])
      invariant Decided(lookup, literals[..i])
    {
      assert literals[..i + 1][..i] == literals[..i];
      match lookup(literals[i]) {
        case QuantizeFailed =>
          return Err(QuantizeOverflow);
        case Missing => ungrounded := ungrounded + [literals[i]];
        case Found(m) => matches := matches + [m];
      }
    }
    assert literals[..|literals|] == literals;
    r := Ok((matches, ungrounded));
  }

  function MatchLiterals(matches: seq<Match>): seq<string> {
    seq(|matches|, i requires 0 <= i < |matches| => matches[i].literal)
  }

  lemma {:induction false} PartitionMembers(lookup: string -> Lookup, literals: seq<string>)
    requires forall literal :: lookup(literal).Found? ==> lookup(literal).match_.literal == literal
    ensures forall m :: m in Matched(lookup, literals) ==> lookup(m.literal) == Found(m)
    ensures forall literal :: literal in Ungrounded(lookup, literals) <==>
      literal in literals && lookup(literal).Missing?
  {
    if literals != [] {
      PartitionMembers(lookup, literals[..|literals| - 1]);
      assert literals == literals[..|literals| - 1] + [literals[|literals| - 1]];
    }
  }

  lemma {:induction false} Partition(lookup: string -> Lookup, literals: seq<string>)
    requires Decided(lookup, literals)
    requires forall literal :: lookup(literal).Found? ==> lookup(literal).match_.literal == literal
    ensures multiset(MatchLiterals(Matched(lookup, literals)))
      + multiset(Ungrounded(lookup, literals)) == multiset(literals)
  {
    if literals != [] {
      var last := literals[|literals| - 1];
      var init := literals[..|literals| - 1];
      assert literals == init + [last];
      assert !lookup(last).QuantizeFailed?;
      Partition(lookup, init);
      if lookup(last).Found? {
        var m := lookup(last).match_;
        assert MatchLiterals(Matched(lookup, init) + [m]) == MatchLiterals(Matched(lookup, init)) + [last];
      } else {
        assert Matched(lookup, literals) == Matched(lookup, init);
        assert Ungrounded(lookup, literals) == Ungrounded(lookup, init) + [last];
      }
    }
  }

  lemma LookupKeepsLiteral(p: Patterns, text: string, entries: seq<Entry>)
    ensures forall literal :: LiteralLookup(p, text, entries)(literal).Found? ==>
              LiteralLookup(p, text, entries)(literal).match_.literal == literal
  {
    forall literal | MatchLiteral(p, text, entries, literal).Found?
      ensures MatchLiteral(p, text, entries, literal).match_.literal == literal
    {
      FoundIsSupported(p, text, entries, literal);
    }
  }

  predicate Supported(p: Patterns, text: string, m: Match, entries: seq<Entry>) {
    exists e :: e in entries && SupportedBy(p, text, m, e)
  }

  /** Grounding splits the literals into matched and ungrounded, and every match has its support. */
  lemma GroundingSplits(p: Patterns, text: string, entries: seq<Entry>)
    requires Ground(p, text, entries).Ok?
    ensures var g := Ground(p, text, entries).value;
            && Distinct(g.literals)
            && (forall literal :: literal in Literals(text) ==> literal in g.literals)
            && multiset(MatchLiterals(g.matches)) + multiset(g.ungrounded) == multiset(g.literals)
            && (forall m :: m in g.matches ==> Supported(p, text, m, entries))
  {
    var g := Ground(p, text, entries).value;
    LookupKeepsLiteral(p, text, entries);
    Partition(LiteralLookup(p, text, entries), g.literals);
    PartitionMembers(LiteralLookup(p, text, entries), g.literals);
    DedupElements(Literals(text) + IdentifierDigits(p, p.identifiers(text), AllowedIdentifiers(p, entries), false));
    forall m | m in g.matches ensures Supported(p, text, m, entries) {
      FoundIsSupported(p, text, entries, m.literal);
    }
  }

  lemma {:induction false} UnknownDigitsShrink(p: Patterns, identifiers: seq<string>, few: set<string>,
                                               many: set<string>)
    requires few <= many
    ensures forall d :: d in IdentifierDigits(p, identifiers, many, false) ==>
              d in IdentifierDigits(p, identifiers, few, false)
  {
    if identifiers != [] {
      UnknownDigitsShrink(p, identifiers[..|identifiers| - 1], few, many);
    }
  }

  lemma MissingShrinks(p: Patterns, text: string, few: seq<Entry>, many: seq<Entry>, literal: string)
    requires forall e :: e in few ==> e in many
    requires MatchLiteral(p, text, many, literal).Missing?
    ensures MatchLiteral(p, text, few, literal).Missing?
  {
    var units := p.windowUnits(text, literal);
    WindowDecides(p, literal, units, few);
    WindowDecides(p, literal, units, many);
    NumericDecides(literal, few);
    NumericDecides(literal, many);
  }

  /**
   Supplying more entries never makes a grounded literal ungrounded, although it also enlarges
   the set of identifiers whose digits need no grounding.
   */
  lemma GroundingMonotone(p: Patterns, text: string, few: seq<Entry>, many: seq<Entry>)
    requires forall e :: e in few ==> e in many
    requires Ground(p, text, few).Ok? && Ground(p, text, many).Ok?
    ensures forall literal :: literal in Ground(p, text, many).value.ungrounded ==>
              literal in Ground(p, text, few).value.ungrounded
  {
    var lessAllowed, allowed := AllowedIdentifiers(p, few), AllowedIdentifiers(p, many);
    UnknownDigitsShrink(p, p.identifiers(text), lessAllowed, allowed);
    DedupElements(Literals(text) + IdentifierDigits(p, p.identifiers(text), lessAllowed, false));
    DedupElements(Literals(text) + IdentifierDigits(p, p.identifiers(text), allowed, false));
    LookupKeepsLiteral(p, text, few);
    LookupKeepsLiteral(p, text, many);
    PartitionMembers(LiteralLookup(p, text, few), ClaimLiterals(p, text, few));
    PartitionMembers(LiteralLookup(p, text, many), ClaimLiterals(p, text, many));
    forall literal | literal in Ground(p, text, many).value.ungrounded
      ensures literal in Ground(p, text, few).value.ungrounded
    {
      MissingShrinks(p, text, few, many, literal);
    }
  }
}
