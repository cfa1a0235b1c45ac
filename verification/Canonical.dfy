/** Deterministic Claims from canonical evidence entries, which some roles add to the model's Claims. */
module Canonical {
  import opened Sequences
  import opened Scanner
  import opened Decimals
  import opened Evidence
  import opened Json
  import opened Sections
  import opened Claims
  import opened Validation
  import opened Roles

  /** One labelled Claim over the entries of some field paths, in this order. */
  datatype Group = Group(caption: string, slug: string, paths: seq<string>)

  /** The last entry for each leading word of a description. */
  function ByFieldPath(m: Manifest, n: nat): map<string, Entry>
    requires n <= |m|
  {
    if n == 0 then map[] else ByFieldPath(m, n - 1)[Before(m[n - 1].description, ' ') := m[n - 1]]
  }

  function Selected(byPath: map<string, Entry>, paths: seq<string>, n: nat): seq<Entry>
    requires n <= |paths|
  {
    if n == 0 then []
    else Selected(byPath, paths, n - 1) + if paths[n - 1] in byPath then [byPath[paths[n - 1]]] else []
  }

  function Descriptions(es: seq<Entry>): (r: seq<string>)
    ensures |r| == |es|
  {
    seq(|es|, i requires 0 <= i < |es| => es[i].description)
  }

  function Ids(es: seq<Entry>): (r: seq<string>)
    ensures |r| == |es|
  {
    seq(|es|, i requires 0 <= i < |es| => es[i].id)
  }

  function CanonicalText(g: Group, es: seq<Entry>): string { g.caption + ": " + JoinSemicolon(Descriptions(es)) }

  const FACTS_OPENING := "analysis.facts["

  function FactPath(index: nat): string { FACTS_OPENING + Numeral(index) + "]" }

  function CanonicalClaim(idPrefix: string, g: Group, es: seq<Entry>, index: nat): Binding {
    Binding(FactPath(index), CanonicalText(g, es), Literals(CanonicalText(g, es)),
            Ids(es), [], [], Some(idPrefix + ":" + g.slug), Fact)
  }

  /** The groups, among the first `n`, that have entries, with these entries. */
  function Filled(byPath: map<string, Entry>, groups: seq<Group>, n: nat): seq<(Group, seq<Entry>)>
    requires n <= |groups|
  {
    if n == 0 then []
    else
      var es := Selected(byPath, groups[n - 1].paths, |groups[n - 1].paths|);
      Filled(byPath, groups, n - 1) + if es == [] then [] else [(groups[n - 1], es)]
  }

  function CanonicalClaims(idPrefix: string, filled: seq<(Group, seq<Entry>)>, start: nat): (r: seq<Binding>)
    ensures |r| == |filled|
  {
    seq(|filled|, k requires 0 <= k < |filled| => CanonicalClaim(idPrefix, filled[k].0, filled[k].1, start + k))
  }

  predicate Citing(es: seq<Entry>, literal: string) { exists e :: e in es && literal in e.tokens }

  lemma DescriptionLiterals(es: seq<Entry>, literal: string)
    ensures literal in Flatten(LiteralLists(Descriptions(es))) <==>
      exists e :: e in es && literal in Literals(e.description)
  {
    var lists := LiteralLists(Descriptions(es));
    FlattenContains(lists, literal);
    if e :| e in es && literal in Literals(e.description) {
      var i :| 0 <= i < |es| && es[i] == e;
      assert literal in lists[i];
    }
    if i :| 0 <= i < |lists| && literal in lists[i] {
      assert es[i] in es;
    }
  }

  /** The literals of a canonical Claim are those of the descriptions it joins. */
  lemma CanonicalLiterals(g: Group, es: seq<Entry>, literal: string)
    requires DigitFree(g.caption)
    ensures literal in Literals(CanonicalText(g, es)) <==> exists e :: e in es && literal in Literals(e.description)
  {
    LabelledLiterals(g.caption, Descriptions(es));
    DedupElements(Flatten(LiteralLists(Descriptions(es))));
    DescriptionLiterals(es, literal);
  }

  /**
   A canonical Claim passes the exact-literal check against the entries it cites exactly when these
   entries carry, as tokens, every literal of their descriptions.
   */
  lemma CanonicalClaimIsExact(g: Group, es: seq<Entry>)
    requires DigitFree(g.caption)
    ensures (forall literal :: literal in Literals(CanonicalText(g, es)) ==> Citing(es, literal)) <==>
            (forall e, literal :: e in es && literal in Literals(e.description) ==> Citing(es, literal))
  {
    forall literal
      ensures literal in Literals(CanonicalText(g, es)) <==> exists e :: e in es && literal in Literals(e.description)
    {
      CanonicalLiterals(g, es, literal);
    }
  }

  lemma {:induction false} SelectedEntries(m: Manifest, n: nat, paths: seq<string>, k: nat)
    requires n <= |m| && k <= |paths|
    ensures forall e :: e in Selected(ByFieldPath(m, n), paths, k) ==> e in m
  {
    FieldPathEntries(m, n);
    if k > 0 {
      SelectedEntries(m, n, paths, k - 1);
    }
  }

  lemma {:induction false} FieldPathEntries(m: Manifest, n: nat)
    requires n <= |m|
    ensures forall p :: p in ByFieldPath(m, n) ==> ByFieldPath(m, n)[p] in m
  {
    if n > 0 {
      FieldPathEntries(m, n - 1);
    }
  }

  /** Claims appended from structured or memory entries satisfy the strict validator's demand. */
  lemma CanonicalClaimAccepted(m: Manifest, idPrefix: string, g: Group, es: seq<Entry>, index: nat)
    requires DigitFree(g.caption) && Distinct(Ids(m)) && es != []
    requires forall e :: e in es ==> e in m && DescriptionCovered(e)
    ensures ExactClaim(m, CanonicalClaim(idPrefix, g, es, index))
  {
    ByIdMembers(m, |m|);
    var c := CanonicalClaim(idPrefix, g, es, index);
    forall e | e in es ensures e.id in c.evidenceIds && e.id in Entries(m) && Entries(m)[e.id] == e {
      EntryOfId(m, e);
      var i :| 0 <= i < |es| && es[i] == e;
      assert c.evidenceIds[i] == e.id;
    }
    forall literal | literal in Literals(c.text) ensures Cites(Entries(m), c.evidenceIds, literal) {
      CanonicalLiterals(g, es, literal);
    }
    forall id | id in c.evidenceIds ensures id in Entries(m) {
      var i :| 0 <= i < |c.evidenceIds| && c.evidenceIds[i] == id;
      assert es[i] in es;
    }
  }

  lemma EntryOfId(m: Manifest, e: Entry)
    requires Distinct(Ids(m)) && e in m
    ensures e.id in Entries(m) && Entries(m)[e.id] == e
  {
    ByIdMembers(m, |m|);
    var i :| 0 <= i < |m| && m[i] == e;
    var d := Entries(m)[e.id];
    var j :| 0 <= j < |m| && m[j] == d;
    assert Ids(m)[i] == Ids(m)[j];
  }

  /** The canonical field paths of each role, by caption. */
  function GroupsOf(role: Role): seq<Group> {
    match role
    case FundamentalAnalyst => [
      Group("Growth", "growth", ["fundamentals.revenue_yoy", "fundamentals.net_income_yoy"]),
      Group("Margins", "margins",
            ["fundamentals.gross_margin", "fundamentals.operating_margin", "fundamentals.net_margin"]),
      Group("Profitability", "profitability", ["fundamentals.roe", "fundamentals.roa"]),
      Group("Balance Sheet and Liquidity", "balance_sheet_and_liquidity",
            ["fundamentals.debt_to_equity", "fundamentals.current_ratio"]),
      Group("Valuation", "valuation",
            ["fundamentals.eps_ttm", "fundamentals.book_value_per_share", "fundamentals.market_cap",
             "fundamentals.pe_ttm", "fundamentals.pb", "fundamentals.earnings_yield"])]
    case TechnicalTextAnalyst => [
      Group("Trend", "trend",
            ["technical_features.trend_label", "technical_features.sma_20", "technical_features.sma_60"]),
      Group("Momentum", "momentum",
            ["technical_features.return_20d", "technical_features.rsi_14", "technical_features.macd"]),
      Group("Volatility", "volatility",
            ["technical_features.realized_vol_20d", "technical_features.realized_vol_60d",
             "technical_features.atr_14"]),
      Group("Volume", "volume", ["technical_features.volume_ratio_20d"]),
      Group("Relative Strength", "relative_strength",
            ["technical_features.relative_strength_vs_spy", "technical_features.relative_strength_vs_qqq",
             "technical_features.relative_strength_vs_xlk"]),
      Group("Drawdown", "drawdown", ["technical_features.max_drawdown_60d"])]
    case NewsEventAnalyst => [
      Group("Rates", "rates",
            ["macro_indicators.fed_funds", "macro_indicators.yield_2y", "macro_indicators.yield_10y",
             "macro_indicators.yield_spread_10y2y"]),
      Group("Inflation", "inflation", ["macro_indicators.cpi", "macro_indicators.core_pce"]),
      Group("Labor", "labor", ["macro_indicators.unemployment", "macro_indicators.payrolls"]),
      Group("Growth", "growth", ["macro_indicators.gdp", "macro_indicators.industrial_production"]),
      Group("Financial Stress", "financial_stress", ["macro_indicators.vix", "macro_indicators.high_yield_spread"])]
    case _ => []
  }

  function CanonicalPrefix(role: Role): string {
    match role
    case FundamentalAnalyst => "fundamental:canonical"
    case TechnicalTextAnalyst => "technical:canonical"
    case _ => "news_event:macro"
  }

  /** What stands after the last occurrence of a character. */
  function AfterLast(s: string, c: char): string {
    if s == "" then ""
    else if s[|s| - 1] == c then ""
    else AfterLast(s[..|s| - 1], c) + [s[|s| - 1]]
  }

  predicate OpensFacts(path: string) { FACTS_OPENING <= path }

  /** `int(path.rsplit("[", 1)[1][:-1])` of a facts path; `None` where `int` raises. */
  function FactIndexOf(path: string): Option<nat> {
    var tail := AfterLast(path, '[');
    if OpensFacts(path) && |tail| > 1 && AllDigits(tail[..|tail| - 1]) then Some(DigitsValue(tail[..|tail| - 1]))
    else None
  }

  function FactIndex(item: Json): Option<nat> {
    if !IsDict(item) then None
    else match Member(item, "claim_path") case Text(path) => FactIndexOf(path) case _ => None
  }

  /** A facts path whose index cannot be read. */
  predicate Unnumbered(item: Json) {
    IsDict(item) && Member(item, "claim_path").Text? && OpensFacts(Member(item, "claim_path").value)
      && FactIndex(item).None?
  }

  /** One more than the greatest facts index among the first `n` items. */
  function NextIndex(items: seq<Json>, n: nat): nat
    requires n <= |items|
  {
    if n == 0 then 0
    else
      var before, k := NextIndex(items, n - 1), FactIndex(items[n - 1]);
      if k.Some? && k.value + 1 > before then k.value + 1 else before
  }

  predicate CitesAny(item: Json, ids: set<string>)
    requires IsDict(item)
  {
    var raw := Member(item, "evidence_ids");
    raw.Arr? && exists x :: x in raw.items && x.Text? && x.value in ids
  }

  /** The dictionaries among the first `n` items that cite none of the canonical entries. */
  function Uncovered(items: seq<Json>, ids: set<string>, n: nat): seq<Json>
    requires n <= |items|
  {
    if n == 0 then []
    else
      Uncovered(items, ids, n - 1)
      + if IsDict(items[n - 1]) && !CitesAny(items[n - 1], ids) then [items[n - 1]] else []
  }

  /** The roles that append canonical Claims. */
  predicate Appends(role: Role) { role in {FundamentalAnalyst, TechnicalTextAnalyst, NewsEventAnalyst} }

  /** The ids of the entries under the canonical field paths. */
  function CanonicalIds(byPath: map<string, Entry>, groups: seq<Group>): set<string> {
    set g, p | g in groups && p in g.paths && p in byPath :: byPath[p].id
  }

  /** The model's Claims that no canonical Claim replaces. */
  function Retained(m: Manifest, groups: seq<Group>, items: seq<Json>): seq<Json> {
    Uncovered(items, CanonicalIds(ByFieldPath(m, |m|), groups), |items|)
  }

  function Appended(m: Manifest, idPrefix: string, groups: seq<Group>, retained: seq<Json>): seq<Binding> {
    CanonicalClaims(idPrefix, Filled(ByFieldPath(m, |m|), groups, |groups|), NextIndex(retained, |retained|))
  }

  /** The Claims that go into quarantine; `None` when a retained facts path has no readable index. */
  function Enriched(m: Manifest, idPrefix: string, groups: seq<Group>, items: seq<Json>): Option<seq<Json>> {
    var retained := Retained(m, groups, items);
    if exists x :: x in retained && Unnumbered(x) then None
    else Some(retained + Records(Appended(m, idPrefix, groups, retained)))
  }

  function WithCanonicalClaims(m: Manifest, role: Role, items: seq<Json>): Option<seq<Json>> {
    if Appends(role) then Enriched(m, CanonicalPrefix(role), GroupsOf(role), items) else Some(items)
  }

  method AppendDeterministicManifestClaims(m: Manifest, idPrefix: string, groups: seq<Group>, items: seq<Json>)
    returns (r: Option<seq<Json>>)
    ensures r == Enriched(m, idPrefix, groups, items)
  {
    var byPath := ByFieldPath(m, |m|);
    var ids := CanonicalIds(byPath, groups);
    var retained := [];
    for i := 0 to |items|
      invariant retained == Uncovered(items, ids, i)
    {
      if IsDict(items[i]) && !CitesAny(items[i], ids) {
        retained := retained + [items[i]];
      }
    }
    if exists x :: x in retained && Unnumbered(x) {
      return None;
    }
    var appended := AppendGroups(byPath, idPrefix, groups, NextIndex(retained, |retained|));
    r := Some(retained + Records(appended));
  }

  /** The roles' own hook before quarantine. */
  method Enrich(m: Manifest, role: Role, items: seq<Json>) returns (r: Option<seq<Json>>)
    ensures r == WithCanonicalClaims(m, role, items)
  {
    if Appends(role) {
      r := AppendDeterministicManifestClaims(m, CanonicalPrefix(role), GroupsOf(role), items);
    } else {
      r := Some(items);
    }
  }

  method AppendGroups(byPath: map<string, Entry>, idPrefix: string, groups: seq<Group>, start: nat)
    returns (claims: seq<Binding>)
    ensures claims == CanonicalClaims(idPrefix, Filled(byPath, groups, |groups|), start)
  {
    claims := [];
    var next := start;
    for n := 0 to |groups|
      invariant claims == CanonicalClaims(idPrefix, Filled(byPath, groups, n), start)
      invariant next == start + |claims|
    {
      var es := Selected(byPath, groups[n].paths, |groups[n].paths|);
      if es != [] {
        claims := claims + [CanonicalClaim(idPrefix, groups[n], es, next)];
        next := next + 1;
      }
    }
  }

  lemma {:induction false} NextIndexAbove(items: seq<Json>, n: nat, i: nat)
    requires i < n <= |items| && FactIndex(items[i]).Some?
    ensures FactIndex(items[i]).value < NextIndex(items, n)
    decreases n
  {
    if i < n - 1 {
      NextIndexAbove(items, n - 1, i);
    }
  }

  lemma {:induction false} LastSplit(a: string, c: char, b: string)
    requires a != "" && a[|a| - 1] == c && c !in b
    ensures AfterLast(a + b, c) == b
    decreases |b|
  {
    if b == "" {
      assert a + b == a;
    } else {
      LastSplit(a, c, b[..|b| - 1]);
      assert (a + b)[..|a + b| - 1] == a + b[..|b| - 1];
      assert b == b[..|b| - 1] + [b[|b| - 1]];
    }
  }

  lemma NoBracket(digits: string)
    requires AllDigits(digits)
    ensures '[' !in digits + "]"
  {}

  lemma OpenedPathIndex(opening: string, index: nat)
    requires opening == FACTS_OPENING
    ensures FactIndexOf(opening + Numeral(index) + "]") == Some(index)
  {
    var tail := Numeral(index) + "]";
    NoBracket(Numeral(index));
    LastSplit(opening, '[', tail);
    assert opening + Numeral(index) + "]" == opening + tail;
    assert tail[..|tail| - 1] == Numeral(index);
    NumeralValue(index);
  }

  lemma FactPathIndex(index: nat)
    ensures FactIndexOf(FactPath(index)) == Some(index)
  {
    OpenedPathIndex(FACTS_OPENING, index);
  }

  /** No appended Claim takes the path of a retained one, nor of another appended one. */
  lemma CanonicalPathsAreFresh(idPrefix: string, filled: seq<(Group, seq<Entry>)>, retained: seq<Json>)
    ensures var cs := CanonicalClaims(idPrefix, filled, NextIndex(retained, |retained|));
            && (forall j, k :: 0 <= j < k < |cs| ==> cs[j].path != cs[k].path)
            && (forall i, k :: 0 <= i < |retained| && 0 <= k < |cs| ==>
                FactIndex(retained[i]) != FactIndexOf(cs[k].path))
  {
    var start := NextIndex(retained, |retained|);
    var cs := CanonicalClaims(idPrefix, filled, start);
    forall k | 0 <= k < |cs| ensures FactIndexOf(cs[k].path) == Some(start + k) {
      FactPathIndex(start + k);
    }
    forall i, k | 0 <= i < |retained| && 0 <= k < |cs| ensures FactIndex(retained[i]) != FactIndexOf(cs[k].path) {
      if FactIndex(retained[i]).Some? {
        NextIndexAbove(retained, |retained|, i);
      }
    }
  }

  predicate Captioned(groups: seq<Group>) { forall i :: 0 <= i < |groups| ==> DigitFree(groups[i].caption) }

  lemma LongCaption()
    ensures DigitFree("Balance Sheet and Liquidity")
  {}

  lemma FundamentalCaptions()
    ensures Captioned(GroupsOf(FundamentalAnalyst))
  {
    assert DigitFree("Growth") && DigitFree("Margins") && DigitFree("Profitability") && DigitFree("Valuation");
    LongCaption();
  }

  lemma MacroCaptions()
    ensures Captioned(GroupsOf(NewsEventAnalyst))
  {
    assert DigitFree("Rates") && DigitFree("Inflation") && DigitFree("Labor");
    assert DigitFree("Growth") && DigitFree("Financial Stress");
  }

  lemma TechnicalCaptions()
    ensures Captioned(GroupsOf(TechnicalTextAnalyst))
  {
    assert DigitFree("Trend") && DigitFree("Momentum") && DigitFree("Volatility");
    assert DigitFree("Volume") && DigitFree("Relative Strength") && DigitFree("Drawdown");
  }

  lemma GroupsAreCaptioned(role: Role)
    ensures Captioned(GroupsOf(role))
  {
    match role {
      case FundamentalAnalyst => FundamentalCaptions();
      case TechnicalTextAnalyst => TechnicalCaptions();
      case NewsEventAnalyst => MacroCaptions();
      case _ =>
    }
  }

  lemma {:induction false} FilledGroups(byPath: map<string, Entry>, groups: seq<Group>, n: nat)
    requires n <= |groups|
    ensures forall x :: x in Filled(byPath, groups, n) ==>
              x.0 in groups && x.1 != [] && x.1 == Selected(byPath, x.0.paths, |x.0.paths|)
  {
    if n > 0 {
      FilledGroups(byPath, groups, n - 1);
    }
  }

  lemma {:induction false} SelectedFrom(byPath: map<string, Entry>, paths: seq<string>, k: nat)
    requires k <= |paths|
    ensures forall e :: e in Selected(byPath, paths, k) ==> exists p :: p in paths && p in byPath && byPath[p] == e
  {
    if k > 0 {
      SelectedFrom(byPath, paths, k - 1);
    }
  }

  /** The entries under the canonical field paths carry the literals of their descriptions. */
  predicate CoveredPaths(m: Manifest, g: Group) {
    forall p :: p in g.paths && p in ByFieldPath(m, |m|) ==> DescriptionCovered(ByFieldPath(m, |m|)[p])
  }

  lemma SelectedAreCovered(m: Manifest, g: Group)
    requires CoveredPaths(m, g)
    ensures forall e :: e in Selected(ByFieldPath(m, |m|), g.paths, |g.paths|) ==> e in m && DescriptionCovered(e)
  {
    var byPath := ByFieldPath(m, |m|);
    FieldPathEntries(m, |m|);
    SelectedFrom(byPath, g.paths, |g.paths|);
    forall e | e in Selected(byPath, g.paths, |g.paths|) ensures e in m && DescriptionCovered(e) {
      var p :| p in g.paths && p in byPath && byPath[p] == e;
    }
  }

  predicate CoveredGroups(m: Manifest, groups: seq<Group>) { forall g :: g in groups ==> CoveredPaths(m, g) }

  predicate AllExact(m: Manifest, cs: seq<Binding>) { forall c :: c in cs ==> ExactClaim(m, c) }

  lemma ExactByIndex(m: Manifest, cs: seq<Binding>)
    requires forall k :: 0 <= k < |cs| ==> ExactClaim(m, cs[k])
    ensures AllExact(m, cs)
  {}

  lemma FilledClaimsAreExact(m: Manifest, idPrefix: string, filled: seq<(Group, seq<Entry>)>, start: nat)
    requires forall k :: 0 <= k < |filled| ==>
      ExactClaim(m, CanonicalClaim(idPrefix, filled[k].0, filled[k].1, start + k))
    ensures AllExact(m, CanonicalClaims(idPrefix, filled, start))
  {
    var cs := CanonicalClaims(idPrefix, filled, start);
    forall k | 0 <= k < |cs| ensures ExactClaim(m, cs[k]) {
      assert cs[k] == CanonicalClaim(idPrefix, filled[k].0, filled[k].1, start + k);
    }
    ExactByIndex(m, cs);
  }

  /**
   Every appended Claim meets the strict validator's demand, provided that the entries under the
   canonical field paths carry the literals of their descriptions (as structured entries do).
   */
  lemma AppendedClaimsAreExact(m: Manifest, idPrefix: string, groups: seq<Group>, start: nat)
    requires Distinct(Ids(m)) && Captioned(groups) && CoveredGroups(m, groups)
    ensures AllExact(m, CanonicalClaims(idPrefix, Filled(ByFieldPath(m, |m|), groups, |groups|), start))
  {
    var filled := Filled(ByFieldPath(m, |m|), groups, |groups|);
    FilledGroups(ByFieldPath(m, |m|), groups, |groups|);
    forall k | 0 <= k < |filled| ensures ExactClaim(m, CanonicalClaim(idPrefix, filled[k].0, filled[k].1, start + k)) {
      assert filled[k] in filled;
      SelectedAreCovered(m, filled[k].0);
      CanonicalClaimAccepted(m, idPrefix, filled[k].0, filled[k].1, start + k);
    }
    FilledClaimsAreExact(m, idPrefix, filled, start);
  }

  /**
   What a role appends to the model's Claims meets the strict validator's demand, provided that the
   entries under its canonical field paths carry the literals of their descriptions.
   */
  lemma RoleAppendsExactClaims(m: Manifest, role: Role, retained: seq<Json>)
    requires Distinct(Ids(m)) && CoveredGroups(m, GroupsOf(role))
    ensures AllExact(m, Appended(m, CanonicalPrefix(role), GroupsOf(role), retained))
  {
    GroupsAreCaptioned(role);
    AppendedClaimsAreExact(m, CanonicalPrefix(role), GroupsOf(role), NextIndex(retained, |retained|));
  }
}
