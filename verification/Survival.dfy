/**
 When a Claim survives quarantine, read off the tokens and windows of its evidence, and two exact
 Claims that do not: one over a document, and one that a role appends itself.
 */
module Survival {
  import opened Sequences
  import opened Scanner
  import opened Evidence
  import opened Grounding
  import opened Json
  import opened Sections
  import opened Claims
  import opened Validation
  import opened Roles
  import opened Canonical

  /** The entries a Claim cites. */
  function Cited(m: Manifest, c: Binding): seq<Entry>
    requires AllIn(c.evidenceIds, Entries(m))
  {
    Lookups(Entries(m), c.evidenceIds)
  }

  /** Grounding finds every number that counts for a text. */
  predicate AllFound(p: Patterns, text: string, es: seq<Entry>) {
    forall literal :: literal in ClaimLiterals(p, text, es) ==> MatchLiteral(p, text, es, literal).Found?
  }

  lemma GroundedWhenFound(p: Patterns, text: string, es: seq<Entry>)
    ensures Ground(p, text, es).Ok? && Ground(p, text, es).value.ungrounded == [] <==> AllFound(p, text, es)
  {
    var lookup, literals := LiteralLookup(p, text, es), ClaimLiterals(p, text, es);
    LookupKeepsLiteral(p, text, es);
    PartitionMembers(lookup, literals);
    if Ungrounded(lookup, literals) != [] {
      assert Ungrounded(lookup, literals)[0] in Ungrounded(lookup, literals);
    }
  }

  predicate Windowed(p: Patterns, text: string, es: seq<Entry>, literal: string) {
    exists e :: e in es && HasWindow(p, literal, p.windowUnits(text, literal), e)
  }

  lemma WindowedIsFound(p: Patterns, text: string, es: seq<Entry>, literal: string)
    requires p.windowUnits(text, literal) != []
    ensures MatchLiteral(p, text, es, literal).Found? <==> Windowed(p, text, es, literal)
  {
    NoWindowOverflow(p, literal, p.windowUnits(text, literal), es);
    WindowDecides(p, literal, p.windowUnits(text, literal), es);
  }

  lemma {:induction false} NoWindowOverflow(p: Patterns, literal: string, units: seq<string>, es: seq<Entry>)
    ensures MatchWindow(p, literal, units, es) != QuantizeFailed
  {
    if es != [] {
      NoWindowOverflow(p, literal, units, es[1..]);
    }
  }

  /**
   What quarantine asks of one number: a formal window where the text uses it with a calendar unit,
   and elsewhere a token that equals it or rounds to it, with no overflowing comparison before.
   */
  ghost predicate Answered(p: Patterns, text: string, es: seq<Entry>, literal: string) {
    if p.windowUnits(text, literal) != [] then Windowed(p, text, es, literal)
    else Reaches(TestOf(literal), EntryTokens(es))
  }

  ghost predicate AllAnswered(p: Patterns, text: string, es: seq<Entry>) {
    forall literal :: literal in ClaimLiterals(p, text, es) ==> Answered(p, text, es, literal)
  }

  lemma FoundWhenAnswered(p: Patterns, text: string, es: seq<Entry>)
    ensures AllFound(p, text, es) <==> AllAnswered(p, text, es)
  {
    forall literal ensures MatchLiteral(p, text, es, literal).Found? <==> Answered(p, text, es, literal) {
      if p.windowUnits(text, literal) != [] {
        WindowedIsFound(p, text, es, literal);
      } else {
        NumericReaches(literal, es);
      }
    }
  }

  lemma KeptWhenGrounded(lang: Language, entries: map<string, Entry>, es: seq<Entry>, c: Binding)
    requires c.Valid() && AllIn(c.evidenceIds, entries) && es == Lookups(entries, c.evidenceIds)
    ensures EvidenceVerdict(lang, entries, Record(c)) == Keep(c) <==>
              && !ProhibitedClaim(lang, c)
              && Ground(lang.patterns, c.text, es).Ok? && Ground(lang.patterns, c.text, es).value.ungrounded == []
  {}

  /** Quarantine of an Analyst Claim, read off its wording and the tokens and windows of its evidence. */
  lemma KeptWhenAnswered(lang: Language, m: Manifest, c: Binding)
    requires c.Valid()
    ensures EvidenceVerdict(lang, Entries(m), Record(c)) == Keep(c) <==>
              && AllIn(c.evidenceIds, Entries(m)) && !ProhibitedClaim(lang, c)
              && AllAnswered(lang.patterns, c.text, Cited(m, c))
  {
    if AllIn(c.evidenceIds, Entries(m)) {
      KeptWhenGrounded(lang, Entries(m), Cited(m, c), c);
      GroundedWhenFound(lang.patterns, c.text, Cited(m, c));
      FoundWhenAnswered(lang.patterns, c.text, Cited(m, c));
    }
  }

  // ----- strictly acceptable Claims -----

  /**
   What an exact Claim still needs.  A number that the text uses with a calendar unit needs that
   window in a cited entry.  Another number of the text is a token already, and needs only that every
   overflowing comparison comes after a deciding token.  A digit run of an unknown identifier needs
   a token that equals it or rounds to it, before any overflowing comparison.
   */
  ghost predicate Survives(p: Patterns, text: string, es: seq<Entry>) {
    forall literal :: literal in ClaimLiterals(p, text, es) ==>
      if p.windowUnits(text, literal) != [] then Windowed(p, text, es, literal)
      else if literal in Literals(text) then Unblocked(TestOf(literal), EntryTokens(es))
      else Reaches(TestOf(literal), EntryTokens(es))
  }

  lemma {:induction false} TokenOfEntry(es: seq<Entry>, e: Entry, token: string)
    requires e in es && token in e.tokens
    ensures token in EntryTokens(es)
  {
    if es[0] != e {
      TokenOfEntry(es[1..], e, token);
    }
  }

  lemma ExactIsToken(m: Manifest, c: Binding, literal: string)
    requires ExactClaim(m, c) && literal in Literals(c.text)
    ensures literal in EntryTokens(Cited(m, c))
  {
    var id :| id in c.evidenceIds && id in Entries(m) && literal in Entries(m)[id].tokens;
    LookupsMembers(Entries(m), c.evidenceIds);
    TokenOfEntry(Cited(m, c), Entries(m)[id], literal);
  }

  lemma ExactSurvives(p: Patterns, m: Manifest, c: Binding)
    requires ExactClaim(m, c)
    ensures AllAnswered(p, c.text, Cited(m, c)) <==> Survives(p, c.text, Cited(m, c))
  {
    var es := Cited(m, c);
    forall literal | literal in Literals(c.text)
      ensures Reaches(TestOf(literal), EntryTokens(es)) <==> Unblocked(TestOf(literal), EntryTokens(es))
    {
      ExactIsToken(m, c, literal);
      PresentReaches(literal, EntryTokens(es));
    }
  }

  /** When a Claim that the strict validator would accept also survives quarantine. */
  lemma ExactClaimKept(lang: Language, m: Manifest, c: Binding)
    requires c.Valid() && ExactClaim(m, c)
    ensures EvidenceVerdict(lang, Entries(m), Record(c)) == Keep(c) <==>
              !ProhibitedClaim(lang, c) && Survives(lang.patterns, c.text, Cited(m, c))
  {
    KeptWhenAnswered(lang, m, c);
    ExactSurvives(lang.patterns, m, c);
  }

  // ----- the appended Claims in quarantine -----

  lemma {:induction false} EntryUnderPath(m: Manifest, n: nat)
    requires n <= |m|
    ensures forall p :: p in ByFieldPath(m, n) ==> Before(ByFieldPath(m, n)[p].description, ' ') == p
  {
    if n > 0 {
      EntryUnderPath(m, n - 1);
    }
  }

  lemma SameIdSameEntry(m: Manifest, e: Entry, f: Entry)
    requires Distinct(Ids(m)) && e in m && f in m && e.id == f.id
    ensures e == f
  {
    var i :| 0 <= i < |m| && m[i] == e;
    var j :| 0 <= j < |m| && m[j] == f;
    assert Ids(m)[i] == Ids(m)[j];
  }

  lemma DifferentIds(m: Manifest, p: string, q: string)
    requires Distinct(Ids(m)) && p != q && p in ByFieldPath(m, |m|) && q in ByFieldPath(m, |m|)
    ensures ByFieldPath(m, |m|)[p].id != ByFieldPath(m, |m|)[q].id
  {
    EntryUnderPath(m, |m|);
    FieldPathEntries(m, |m|);
    if ByFieldPath(m, |m|)[p].id == ByFieldPath(m, |m|)[q].id {
      SameIdSameEntry(m, ByFieldPath(m, |m|)[p], ByFieldPath(m, |m|)[q]);
    }
  }

  lemma IdsNext(es: seq<Entry>, e: Entry)
    ensures Ids(es + [e]) == Ids(es) + [e.id]
  {}

  lemma {:induction false} SelectedUnder(byPath: map<string, Entry>, paths: seq<string>, n: nat)
    requires n <= |paths|
    ensures forall x :: x in Ids(Selected(byPath, paths, n)) ==>
      exists i :: 0 <= i < n && paths[i] in byPath && byPath[paths[i]].id == x
  {
    if n > 0 {
      SelectedUnder(byPath, paths, n - 1);
      if paths[n - 1] in byPath {
        IdsNext(Selected(byPath, paths, n - 1), byPath[paths[n - 1]]);
      } else {
        assert Selected(byPath, paths, n) == Selected(byPath, paths, n - 1);
      }
    }
  }

  lemma DistinctNext<T>(s: seq<T>, x: T)
    requires Distinct(s) && x !in s
    ensures Distinct(s + [x])
  {}

  lemma {:induction false} SelectedIdsDistinct(m: Manifest, paths: seq<string>, n: nat)
    requires n <= |paths| && Distinct(Ids(m)) && Distinct(paths)
    ensures Distinct(Ids(Selected(ByFieldPath(m, |m|), paths, n)))
  {
    if n > 0 {
      var byPath := ByFieldPath(m, |m|);
      SelectedIdsDistinct(m, paths, n - 1);
      if paths[n - 1] in byPath {
        SelectedUnder(byPath, paths, n - 1);
        var before, e := Selected(byPath, paths, n - 1), byPath[paths[n - 1]];
        forall i | 0 <= i < n - 1 && paths[i] in byPath ensures byPath[paths[i]].id != e.id {
          DifferentIds(m, paths[i], paths[n - 1]);
        }
        IdsNext(before, e);
        DistinctNext(Ids(before), e.id);
      } else {
        assert Selected(byPath, paths, n) == Selected(byPath, paths, n - 1);
      }
    }
  }

  lemma ClaimOfEntriesValid(idPrefix: string, g: Group, es: seq<Entry>, index: nat)
    requires Distinct(Ids(es)) && es != []
    ensures CanonicalClaim(idPrefix, g, es, index).Valid()
  {
    LiteralsAreDistinct(CanonicalText(g, es));
    assert |Ids(es)| > 0;
    assert |idPrefix + ":" + g.slug| > 0;
    assert |CanonicalText(g, es)| >= 2;
    assert |FactPath(index)| > 0;
  }

  predicate Unrepeated(groups: seq<Group>) { forall g :: g in groups ==> Distinct(g.paths) }

  /** No group selects an entry id twice. */
  predicate DistinctSelections(byPath: map<string, Entry>, groups: seq<Group>) {
    forall g :: g in groups ==> Distinct(Ids(Selected(byPath, g.paths, |g.paths|)))
  }

  lemma {:induction false} SelectionsAreDistinct(m: Manifest, groups: seq<Group>)
    requires Distinct(Ids(m)) && Unrepeated(groups)
    ensures DistinctSelections(ByFieldPath(m, |m|), groups)
  {
    forall g | g in groups ensures Distinct(Ids(Selected(ByFieldPath(m, |m|), g.paths, |g.paths|))) {
      SelectedIdsDistinct(m, g.paths, |g.paths|);
    }
  }

  predicate Citable(made: (Group, seq<Entry>)) { made.1 != [] && Distinct(Ids(made.1)) }

  lemma {:induction false} FilledAreCitable(byPath: map<string, Entry>, groups: seq<Group>, n: nat)
    requires n <= |groups| && DistinctSelections(byPath, groups)
    ensures forall x :: x in Filled(byPath, groups, n) ==> Citable(x)
  {
    if n > 0 {
      FilledAreCitable(byPath, groups, n - 1);
      assert groups[n - 1] in groups;
    }
  }

  lemma {:induction false} MadeAreValid(idPrefix: string, filled: seq<(Group, seq<Entry>)>, start: nat, c: Binding)
    requires c in CanonicalClaims(idPrefix, filled, start) && forall x :: x in filled ==> Citable(x)
    ensures c.Valid()
  {
    var k :| 0 <= k < |filled| && CanonicalClaims(idPrefix, filled, start)[k] == c;
    assert filled[k] in filled;
    ClaimOfEntriesValid(idPrefix, filled[k].0, filled[k].1, start + k);
  }

  lemma {:induction false} AppendedIsValid(byPath: map<string, Entry>, idPrefix: string, groups: seq<Group>, start: nat,
                                           c: Binding)
    requires DistinctSelections(byPath, groups)
    requires c in CanonicalClaims(idPrefix, Filled(byPath, groups, |groups|), start)
    ensures c.Valid()
  {
    FilledAreCitable(byPath, groups, |groups|);
    MadeAreValid(idPrefix, Filled(byPath, groups, |groups|), start, c);
  }

  /**
   The appended Claims in quarantine: exactness settles the verbatim literals, and the rest of the
   quarantine rules decide.
   */
  lemma AppendedClaimsKept(lang: Language, m: Manifest, idPrefix: string, groups: seq<Group>, retained: seq<Json>,
                           c: Binding)
    requires Distinct(Ids(m)) && Captioned(groups) && Unrepeated(groups) && CoveredGroups(m, groups)
    requires c in Appended(m, idPrefix, groups, retained)
    ensures c.Valid() && ExactClaim(m, c)
    ensures EvidenceVerdict(lang, Entries(m), Record(c)) == Keep(c) <==>
              !ProhibitedClaim(lang, c) && Survives(lang.patterns, c.text, Cited(m, c))
  {
    AppendedClaimsAreExact(m, idPrefix, groups, NextIndex(retained, |retained|));
    SelectionsAreDistinct(m, groups);
    AppendedIsValid(ByFieldPath(m, |m|), idPrefix, groups, NextIndex(retained, |retained|), c);
    ExactClaimKept(lang, m, c);
  }

  lemma FundamentalPaths()
    ensures Unrepeated(GroupsOf(FundamentalAnalyst))
  {}

  lemma TechnicalPaths()
    ensures Unrepeated(GroupsOf(TechnicalTextAnalyst))
  {}

  lemma MacroPaths()
    ensures Unrepeated(GroupsOf(NewsEventAnalyst))
  {}

  lemma GroupsAreUnrepeated(role: Role)
    ensures Unrepeated(GroupsOf(role))
  {
    match role {
      case FundamentalAnalyst => FundamentalPaths();
      case TechnicalTextAnalyst => TechnicalPaths();
      case NewsEventAnalyst => MacroPaths();
      case _ =>
    }
  }

  /** For a role: what it appends is strictly acceptable, and survives quarantine exactly when `Survives` says so. */
  lemma RoleClaimsKept(lang: Language, m: Manifest, role: Role, retained: seq<Json>, c: Binding)
    requires Distinct(Ids(m)) && CoveredGroups(m, GroupsOf(role))
    requires c in Appended(m, CanonicalPrefix(role), GroupsOf(role), retained)
    ensures c.Valid() && ExactClaim(m, c)
    ensures EvidenceVerdict(lang, Entries(m), Record(c)) == Keep(c) <==>
              !ProhibitedClaim(lang, c) && Survives(lang.patterns, c.text, Cited(m, c))
  {
    GroupsAreCaptioned(role);
    GroupsAreUnrepeated(role);
    AppendedClaimsKept(lang, m, CanonicalPrefix(role), GroupsOf(role), retained, c);
  }

  // ----- two exact Claims that quarantine drops -----

  lemma LoneLiteralUngrounded(p: Patterns, text: string, es: seq<Entry>, literal: string)
    requires Literals(text) == [literal] && p.identifiers(text) == []
    requires MatchLiteral(p, text, es, literal).Missing?
    ensures Ground(p, text, es).Ok? && Ground(p, text, es).value.ungrounded == [literal]
    ensures Ground(p, text, es).value.literals == [literal]
  {
    var lookup := LiteralLookup(p, text, es);
    assert Literals(text) + [] == [literal];
    DedupDistinct([literal]);
    assert ClaimLiterals(p, text, es) == [literal];
    assert [literal][..0] == [];
    assert lookup(literal).Missing?;
    assert Ungrounded(lookup, [literal][..0]) == [];
    assert Ungrounded(lookup, [literal]) == [] + [literal];
  }

  lemma UngroundedIsRejected(lang: Language, entries: map<string, Entry>, es: seq<Entry>, c: Binding, literal: string)
    requires c.Valid() && AllIn(c.evidenceIds, entries) && es == Lookups(entries, c.evidenceIds)
    requires Ground(lang.patterns, c.text, es).Ok? && Ground(lang.patterns, c.text, es).value.ungrounded == [literal]
    requires Ground(lang.patterns, c.text, es).value.literals == [literal]
    ensures EvidenceVerdict(lang, entries, Record(c)) == Reject(NotGrounded(literal, [literal]))
  {}

  /** A text with one number, used with a calendar unit, over evidence without that window. */
  lemma UnwindowedIsRejected(lang: Language, m: Manifest, c: Binding, literal: string)
    requires c.Valid() && AllIn(c.evidenceIds, Entries(m))
    requires Literals(c.text) == [literal] && lang.patterns.identifiers(c.text) == []
    requires lang.patterns.windowUnits(c.text, literal) != []
    requires !Windowed(lang.patterns, c.text, Cited(m, c), literal)
    ensures EvidenceVerdict(lang, Entries(m), Record(c)) == Reject(NotGrounded(literal, [literal]))
  {
    WindowedIsFound(lang.patterns, c.text, Cited(m, c), literal);
    NoWindowOverflow(lang.patterns, literal, lang.patterns.windowUnits(c.text, literal), Cited(m, c));
    LoneLiteralUngrounded(lang.patterns, c.text, Cited(m, c), literal);
    UngroundedIsRejected(lang, Entries(m), Cited(m, c), c, literal);
  }

  lemma {:induction false} NoWindowWithoutDescription(p: Patterns, text: string, es: seq<Entry>, literal: string)
    requires forall e :: e in es ==> p.formalWindows(e.description) == []
    ensures !Windowed(p, text, es, literal)
  {}

  const FIVE_DAYS := "5 days"

  lemma FiveDaysLiterals(s: string)
    requires s == FIVE_DAYS
    ensures Literals(s) == ["5"]
  {
    assert MatchEnd(s, 0) == 1;
    forall k | 1 <= k < 6 ensures Ends(s)(k) == k {
      NoMatchWithoutDigit(s, k);
    }
    CutSkip(s, Ends(s), 1, 6);
    assert s[0..1] == "5";
    assert Tokens(s) == ["5"] + Cut(s, Ends(s), 1) == ["5"];
    assert WithoutCommas("5") == "5";
    assert Stripped(Tokens(s)) == ["5"];
    DedupDistinct(["5"]);
  }

  /** A digit-free beginning that ends with a space adds no literals. */
  lemma PrefixedLiterals(opening: string, b: string)
    requires opening != "" && DigitFree(opening) && opening[|opening| - 1] == ' '
    ensures Literals(opening + b) == Literals(b)
  {
    assert forall k :: 0 <= k < |opening| ==> (opening + b)[k] == opening[k];
    SkipDigitFree(opening + b, 0, |opening|);
    TokensShift(opening + b, |opening|, b);
  }

  lemma LoneEntryCited(e: Entry, c: Binding)
    requires c.evidenceIds == [e.id]
    ensures AllIn(c.evidenceIds, Entries([e])) && Cited([e], c) == [e]
    ensures (forall literal :: literal in Literals(c.text) ==> literal in e.tokens) ==> ExactClaim([e], c)
  {
    assert ById([e], 1) == ById([e], 0)[e.id := e];
    assert e.id in c.evidenceIds;
  }

  /** A Claim with one number that its one entry has as a token, but not as a window. */
  lemma WindowlessIsRejected(lang: Language, e: Entry, c: Binding, literal: string)
    requires c.Valid() && c.evidenceIds == [e.id] && Literals(c.text) == [literal] && literal in e.tokens
    requires lang.patterns.windowUnits(c.text, literal) != [] && lang.patterns.identifiers(c.text) == []
    requires lang.patterns.formalWindows(e.description) == []
    ensures ExactClaim([e], c)
    ensures EvidenceVerdict(lang, Entries([e]), Record(c)) == Reject(NotGrounded(literal, [literal]))
  {
    LoneEntryCited(e, c);
    NoWindowWithoutDescription(lang.patterns, c.text, [e], literal);
    UnwindowedIsRejected(lang, [e], c, literal);
  }

  function Repeating(text: string, literal: string): Binding {
    Binding("analysis.facts[0]", text, [literal], ["e"], [], [], None, Fact)
  }

  lemma RepeatedTextIsDropped(lang: Language, e: Entry, text: string, literal: string)
    requires e.id == "e" && e.tokens == [literal] && Literals(text) == [literal] && text != ""
    requires lang.patterns.windowUnits(text, literal) != [] && lang.patterns.identifiers(text) == []
    requires lang.patterns.formalWindows(e.description) == []
    ensures var c := Repeating(text, literal);
            && c.Valid() && ExactClaim([e], c)
            && EvidenceVerdict(lang, Entries([e]), Record(c)) == Reject(NotGrounded(literal, [literal]))
  {
    assert |"analysis.facts[0]"| > 0;
    WindowlessIsRejected(lang, e, Repeating(text, literal), literal);
  }

  /** A document says "5 days", a Claim repeats it word for word, and quarantine drops the Claim. */
  lemma ExactClaimIsDropped(lang: Language, source: Source)
    requires lang.patterns.windowUnits(FIVE_DAYS, "5") == ["days"] && lang.patterns.identifiers(FIVE_DAYS) == []
    requires lang.patterns.formalWindows("note" + ": " + FIVE_DAYS) == []
    ensures var m, c := [DocumentEntry("e", source, "note", FIVE_DAYS)], Repeating(FIVE_DAYS, "5");
            && c.Valid() && ExactClaim(m, c)
            && EvidenceVerdict(lang, Entries(m), Record(c)) == Reject(NotGrounded("5", ["5"]))
  {
    FiveDaysLiterals(FIVE_DAYS);
    RepeatedTextIsDropped(lang, DocumentEntry("e", source, "note", FIVE_DAYS), FIVE_DAYS, "5");
  }

  const MACD_PATH := "technical_features.macd"
  const MACD_FIVE_DAYS := "technical_features.macd 5 days"

  lemma {:induction false} FilledWith(byPath: map<string, Entry>, groups: seq<Group>, n: nat, k: nat)
    requires k < n <= |groups|
    requires Selected(byPath, groups[k].paths, |groups[k].paths|) != []
    ensures (groups[k], Selected(byPath, groups[k].paths, |groups[k].paths|)) in Filled(byPath, groups, n)
    decreases n
  {
    if k < n - 1 {
      FilledWith(byPath, groups, n - 1, k);
    }
  }

  lemma ThirdSelected(byPath: map<string, Entry>, e: Entry, paths: seq<string>, path: string)
    requires byPath == map[path := e] && |paths| == 3
    requires paths[2] == path && paths[0] != path && paths[1] != path
    ensures Selected(byPath, paths, |paths|) == [e]
  {
    assert Selected(byPath, paths, 1) == [] && Selected(byPath, paths, 2) == [];
    assert Selected(byPath, paths, 3) == Selected(byPath, paths, 2) + [byPath[path]];
  }

  lemma OpeningPath(path: string, rest: string)
    requires ' ' !in path
    ensures Before(path + " " + rest, ' ') == path
  {
    FindFirst(path, ' ', rest);
    assert path + " " + rest == path + [' '] + rest;
  }

  lemma LoneIndex(e: Entry, path: string)
    requires Before(e.description, ' ') == path
    ensures ByFieldPath([e], 1) == map[path := e] && Distinct(Ids([e]))
  {
    assert ByFieldPath([e], 1) == ByFieldPath([e], 0)[path := e];
  }

  lemma MacdLiterals(description: string)
    requires description == MACD_FIVE_DAYS
    ensures Literals(description) == ["5"]
  {
    var opening := MACD_PATH + " ";
    assert DigitFree(opening);
    assert opening + FIVE_DAYS == description;
    PrefixedLiterals(opening, FIVE_DAYS);
    FiveDaysLiterals(FIVE_DAYS);
  }

  lemma LoneText(g: Group, e: Entry, literals: seq<string>)
    requires DigitFree(g.caption) && Literals(e.description) == literals && Distinct(literals)
    ensures CanonicalText(g, [e]) == g.caption + ": " + e.description && Literals(CanonicalText(g, [e])) == literals
  {
    assert Descriptions([e]) == [e.description];
    LabelledLiterals(g.caption, [e.description]);
    assert LiteralLists([e.description]) == [literals];
    assert [literals][1..] == [];
    assert Flatten([literals]) == literals + [] == literals;
    DedupDistinct(literals);
  }

  lemma MomentumGroup(g: Group)
    requires g == GroupsOf(TechnicalTextAnalyst)[1]
    ensures g.caption == "Momentum" && DigitFree(g.caption) && |g.paths| == 3
    ensures g.paths[2] == MACD_PATH && g.paths[0] != MACD_PATH && g.paths[1] != MACD_PATH
  {}

  lemma MacdPath(description: string)
    requires description == MACD_FIVE_DAYS
    ensures Before(description, ' ') == MACD_PATH
  {
    assert ' ' !in MACD_PATH;
    OpeningPath(MACD_PATH, FIVE_DAYS);
    assert MACD_PATH + " " + FIVE_DAYS == description;
  }

  /** The Claim that a group makes of the one entry of a manifest, among what is appended. */
  lemma LoneGroupAppended(e: Entry, idPrefix: string, groups: seq<Group>, k: nat, retained: seq<Json>)
    returns (c: Binding, index: nat)
    requires k < |groups| && Selected(ByFieldPath([e], 1), groups[k].paths, |groups[k].paths|) == [e]
    ensures c in Appended([e], idPrefix, groups, retained) && c == CanonicalClaim(idPrefix, groups[k], [e], index)
  {
    var filled, start := Filled(ByFieldPath([e], 1), groups, |groups|), NextIndex(retained, |retained|);
    FilledWith(ByFieldPath([e], 1), groups, |groups|, k);
    var i :| 0 <= i < |filled| && filled[i] == (groups[k], [e]);
    index := start + i;
    c := CanonicalClaims(idPrefix, filled, start)[i];
  }

  lemma EntryAppended(e: Entry, idPrefix: string, groups: seq<Group>, k: nat, retained: seq<Json>, path: string,
                      literals: seq<string>)
    returns (c: Binding)
    requires k < |groups| && |groups[k].paths| == 3 && DigitFree(groups[k].caption)
    requires groups[k].paths[2] == path && groups[k].paths[0] != path && groups[k].paths[1] != path
    requires Before(e.description, ' ') == path && Literals(e.description) == literals && Distinct(literals)
    ensures c in Appended([e], idPrefix, groups, retained)
    ensures c.text == groups[k].caption + ": " + e.description && Literals(c.text) == literals
    ensures c.evidenceIds == [e.id]
  {
    LoneIndex(e, path);
    ThirdSelected(ByFieldPath([e], 1), e, groups[k].paths, path);
    var index;
    c, index := LoneGroupAppended(e, idPrefix, groups, k, retained);
    LoneText(groups[k], e, literals);
    assert Ids([e]) == [e.id];
  }

  lemma MomentumAppended(e: Entry, retained: seq<Json>, groups: seq<Group>) returns (c: Binding)
    requires groups == GroupsOf(TechnicalTextAnalyst) && e.description == MACD_FIVE_DAYS
    ensures c in Appended([e], CanonicalPrefix(TechnicalTextAnalyst), groups, retained)
    ensures c.text == "Momentum" + ": " + e.description && Literals(c.text) == ["5"] && c.evidenceIds == [e.id]
  {
    MomentumGroup(groups[1]);
    MacdPath(e.description);
    MacdLiterals(e.description);
    c := EntryAppended(e, CanonicalPrefix(TechnicalTextAnalyst), groups, 1, retained, MACD_PATH, ["5"]);
  }

  lemma LoneIsCovered(e: Entry, role: Role)
    requires DescriptionCovered(e)
    ensures Distinct(Ids([e])) && CoveredGroups([e], GroupsOf(role))
  {
    FieldPathEntries([e], 1);
  }

  lemma RoleClaimIsRejected(lang: Language, e: Entry, role: Role, retained: seq<Json>, c: Binding, literal: string)
    requires DescriptionCovered(e) && c in Appended([e], CanonicalPrefix(role), GroupsOf(role), retained)
    requires c.evidenceIds == [e.id] && Literals(c.text) == [literal] && literal in Literals(e.description)
    requires lang.patterns.windowUnits(c.text, literal) != [] && lang.patterns.identifiers(c.text) == []
    requires lang.patterns.formalWindows(e.description) == []
    ensures c.Valid() && ExactClaim([e], c)
    ensures EvidenceVerdict(lang, Entries([e]), Record(c)) == Reject(NotGrounded(literal, [literal]))
  {
    LoneIsCovered(e, role);
    RoleClaimsKept(lang, [e], role, retained, c);
    WindowlessIsRejected(lang, e, c, literal);
  }

  lemma EntryClaimIsDropped(lang: Language, e: Entry, role: Role, retained: seq<Json>, text: string)
    returns (c: Binding)
    requires role == TechnicalTextAnalyst && e.id == "e" && e.description == MACD_FIVE_DAYS && DescriptionCovered(e)
    requires text == "Momentum" + ": " + e.description
    requires lang.patterns.windowUnits(text, "5") == ["days"] && lang.patterns.identifiers(text) == []
    requires lang.patterns.formalWindows(e.description) == []
    ensures c in Appended([e], CanonicalPrefix(role), GroupsOf(role), retained)
    ensures c.text == text && c.Valid() && ExactClaim([e], c)
    ensures EvidenceVerdict(lang, Entries([e]), Record(c)) == Reject(NotGrounded("5", ["5"]))
  {
    c := MomentumAppended(e, retained, GroupsOf(role));
    MacdLiterals(e.description);
    RoleClaimIsRejected(lang, e, role, retained, c, "5");
  }

  /**
   A structured entry reports five days under a technical field path.  The Technical Analyst appends
   the Claim for it, whatever the model wrote, and its own quarantine drops that Claim.
   */
  lemma AppendedClaimIsDropped(lang: Language, source: Source, timestamps: seq<string>, retained: seq<Json>,
                               text: string)
    returns (c: Binding)
    requires text == "Momentum" + ": " + MACD_FIVE_DAYS
    requires lang.patterns.windowUnits(text, "5") == ["days"] && lang.patterns.identifiers(text) == []
    requires lang.patterns.formalWindows(MACD_FIVE_DAYS) == []
    ensures var m := [StructuredEntry("e", source, MACD_FIVE_DAYS, timestamps)];
            && c in Appended(m, CanonicalPrefix(TechnicalTextAnalyst), GroupsOf(TechnicalTextAnalyst), retained)
            && c.text == text && c.Valid() && ExactClaim(m, c)
            && EvidenceVerdict(lang, Entries(m), Record(c)) == Reject(NotGrounded("5", ["5"]))
  {
    var e := StructuredEntry("e", source, MACD_FIVE_DAYS, timestamps);
    StructuredIsCovered("e", source, MACD_FIVE_DAYS, timestamps);
    c := EntryClaimIsDropped(lang, e, TechnicalTextAnalyst, retained, text);
  }
}
