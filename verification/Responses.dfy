/**
 Responses that an Agent accepts: two Claims with one text and one evidence route, at the first two
 places of a role's first section, carried through quarantine, regrouping and strict validation.
 */
module Responses {
  import opened Sequences
  import opened Scanner
  import opened Rescan
  import opened Evidence
  import opened Grounding
  import opened Json
  import opened Sections
  import opened Claims
  import opened Validation
  import opened Roles
  import opened Canonical
  import opened Survival
  import opened Agents

  function Candidate(shape: Shape, section: string, text: string, evidenceIds: seq<string>, upstreamIds: seq<string>,
                     i: nat): Binding
  {
    Binding(shape.Path(section, i), text, [], evidenceIds, upstreamIds, [], None, Fact)
  }

  function Pair(shape: Shape, section: string, text: string, evidenceIds: seq<string>,
                upstreamIds: seq<string>): seq<Binding>
  {
    [Candidate(shape, section, text, evidenceIds, upstreamIds, 0),
     Candidate(shape, section, text, evidenceIds, upstreamIds, 1)]
  }

  /** Exactly one route, without repetition. */
  predicate OneRoute(evidenceIds: seq<string>, upstreamIds: seq<string>) {
    Distinct(evidenceIds) && Distinct(upstreamIds) && (evidenceIds != [] <==> upstreamIds == [])
  }

  // ----- the generation schema -----

  lemma SectionPath(shape: Shape, section: string, i: nat)
    requires shape.Valid() && section in shape.sections
    ensures IsPath(shape, shape.Path(section, i), section) && Legal(shape, shape.Path(section, i))
    ensures SectionName(shape, shape.Path(section, i)) == section
  {
    var opening, path := shape.Prefix() + section + "[", shape.Path(section, i);
    assert path == opening + Numeral(i) + "]";
    assert path[|opening|..|path| - 1] == Numeral(i);
    SectionOfPath(shape, path, section);
    var k :| 0 <= k < |shape.sections| && shape.sections[k] == section;
  }

  lemma PairPlaces(shape: Shape, section: string)
    requires shape.Valid() && section in shape.sections
    ensures shape.Path(section, 0) != shape.Path(section, 1)
  {
    if shape.Path(section, 0) == shape.Path(section, 1) {
      PathInjective(shape, section, 0, section, 1);
    }
  }

  lemma CandidateLegal(shape: Shape, section: string, text: string, evidenceIds: seq<string>, upstreamIds: seq<string>,
                       i: nat)
    requires shape.Valid() && section in shape.sections
    ensures var c := Candidate(shape, section, text, evidenceIds, upstreamIds, i);
            Legal(shape, c.path) && NamingOf(shape)(c) == section
  {
    SectionPath(shape, section, i);
  }

  lemma PairLegal(shape: Shape, section: string, text: string, evidenceIds: seq<string>, upstreamIds: seq<string>)
    requires shape.Valid() && section in shape.sections
    ensures var cs := Pair(shape, section, text, evidenceIds, upstreamIds);
            && AllLegal(shape, cs) && Distinct(BindingPaths(cs))
            && NamingOf(shape)(cs[0]) == section == NamingOf(shape)(cs[1])
  {
    CandidateLegal(shape, section, text, evidenceIds, upstreamIds, 0);
    CandidateLegal(shape, section, text, evidenceIds, upstreamIds, 1);
    PairPlaces(shape, section);
    TwoLegal(shape, Candidate(shape, section, text, evidenceIds, upstreamIds, 0),
             Candidate(shape, section, text, evidenceIds, upstreamIds, 1));
  }

  lemma TwoLegal(shape: Shape, a: Binding, b: Binding)
    requires Legal(shape, a.path) && Legal(shape, b.path) && a.path != b.path
    ensures AllLegal(shape, [a, b]) && Distinct(BindingPaths([a, b]))
  {}

  lemma PairPositions(naming: Naming, cs: seq<Binding>)
    requires |cs| == 2 && naming(cs[0]) == naming(cs[1])
    ensures Position(naming, cs, 0) == 0 && Position(naming, cs, 1) == 1
  {
    assert TextsIn(naming, cs, 0, naming(cs[1])) == [];
  }

  lemma PairDraftValid(role: Role, shape: Shape, section: string, text: string, evidenceIds: seq<string>,
                       upstreamIds: seq<string>)
    requires shape == ShapeOf(role) && section == shape.sections[0]
    ensures DraftValid(role, Pair(shape, section, text, evidenceIds, upstreamIds), [])
  {
    var cs := Pair(shape, section, text, evidenceIds, upstreamIds);
    ShapesAreValid(role);
    PairLegal(shape, section, text, evidenceIds, upstreamIds);
    PairPositions(NamingOf(shape), cs);
    assert cs[0] in cs;
  }

  // ----- quarantine -----

  lemma {:induction false} ScreeningKeepsAll(verdict: Json -> Verdict, cs: seq<Binding>, n: nat)
    requires n <= |cs| && forall i :: 0 <= i < |cs| ==> verdict(Record(cs[i])) == Keep(cs[i])
    ensures Screening(verdict, Records(cs), n) == Screened(cs[..n], [])
  {
    if n > 0 {
      ScreeningKeepsAll(verdict, cs, n - 1);
      assert cs[..n] == cs[..n - 1] + [cs[n - 1]];
    }
  }

  lemma QuarantineKeepsAll(verdict: Json -> Verdict, cs: seq<Binding>, minimum: nat)
    requires minimum <= |cs| && forall i :: 0 <= i < |cs| ==> verdict(Record(cs[i])) == Keep(cs[i])
    ensures Quarantine(verdict, Records(cs), minimum) == Ok(Screened(cs, []))
  {
    ScreeningKeepsAll(verdict, cs, |cs|);
    assert cs[..|cs|] == cs;
  }

  lemma PairValid(shape: Shape, section: string, text: string, evidenceIds: seq<string>, upstreamIds: seq<string>)
    requires text != "" && OneRoute(evidenceIds, upstreamIds)
    ensures forall c :: c in Pair(shape, section, text, evidenceIds, upstreamIds) ==> c.Valid()
  {
    assert |shape.Path(section, 0)| > 0 && |shape.Path(section, 1)| > 0;
  }

  // ----- strict validation -----

  predicate Acceptable(role: Role, m: Manifest, payload: Json, c: Binding) {
    if IsAnalyst(role) then ExactClaim(m, c) else DerivedClaim(UpstreamIndex(payload), c)
  }

  predicate AllAcceptable(role: Role, m: Manifest, payload: Json, cs: seq<Binding>) {
    forall i :: 0 <= i < |cs| ==> Acceptable(role, m, payload, cs[i])
  }

  /** The regrouped response passes the evidence checks of its role. */
  lemma RegroupedEvidence(lang: Language, role: Role, m: Manifest, payload: Json, cs: seq<Binding>, metadata: Json,
                          shape: Shape)
    requires shape == ShapeOf(role) && AllLegal(shape, cs) && (forall c :: c in cs ==> c.Valid())
    requires AllAcceptable(role, m, payload, cs)
    ensures var out := Regrouped(shape, Complete(role), cs, [], metadata);
            WellShaped(shape, out) && StrictEvidence(lang, role, m, payload, out).Ok?
  {
    ShapesAreValid(role);
    CompleteCompletes(role);
    if IsAnalyst(role) {
      StrictAcceptsExactClaims(lang, AgentName(role), shape, Complete(role), m, cs, [], metadata);
    } else {
      StrictAcceptsDerivedClaims(lang, AgentName(role), shape, Complete(role), UpstreamIndex(payload), cs, [],
                                 metadata);
    }
  }

  lemma RegroupedNotTrading(lang: Language, role: Role, cs: seq<Binding>, metadata: Json, shape: Shape)
    requires shape == ShapeOf(role) && cs != [] && (forall c :: c in cs ==> !ProhibitedClaim(lang, c))
    ensures !TradingOutput(lang, Regrouped(shape, Complete(role), cs, [], metadata))
  {
    var out := Regrouped(shape, Complete(role), cs, [], metadata);
    CompleteCompletes(role);
    forall i | 0 <= i < |cs| ensures !ProhibitedClaim(lang, out.bindings[i]) {
      ReboundAt(NamingOf(shape), Complete(role), cs, |cs|, i);
      assert cs[i] in cs;
    }
  }

  lemma RegroupedAccepted(lang: Language, role: Role, m: Manifest, payload: Json, cs: seq<Binding>, metadata: Json,
                          shape: Shape)
    requires shape == ShapeOf(role) && cs != [] && AllLegal(shape, cs) && (forall c :: c in cs ==> c.Valid())
    requires AllAcceptable(role, m, payload, cs) && (forall c :: c in cs ==> !ProhibitedClaim(lang, c))
    requires role == FundamentalAnalyst || metadata == Null
    ensures Accepted(lang, role, m, payload, Regrouped(shape, Complete(role), cs, [], metadata)).Ok?
  {
    RegroupedEvidence(lang, role, m, payload, cs, metadata, shape);
    RegroupedNotTrading(lang, role, cs, metadata, shape);
  }

  // ----- the whole way -----

  /** A response of the Agent's own, with nothing around its Claims but metadata. */
  function OwnFrame(role: Role, metadata: seq<Field>): Frame { Frame(Header(AgentName(role), "ok"), [], metadata, []) }

  lemma OwnFrameReads(role: Role, metadata: seq<Field>)
    ensures HeaderReads(role, OwnFrame(role, metadata).header, true) && OwnHeader(role, OwnFrame(role, metadata).header)
  {}

  /** All that carries one Claim through an Agent. */
  predicate Passable(lang: Language, role: Role, m: Manifest, payload: Json, c: Binding) {
    && c.Valid() && !ProhibitedClaim(lang, c) && Acceptable(role, m, payload, c)
    && ItemVerdict(lang, role, m, payload)(Record(c)) == Keep(c)
  }

  predicate AllPassable(lang: Language, role: Role, m: Manifest, payload: Json, cs: seq<Binding>) {
    forall i :: 0 <= i < |cs| ==> Passable(lang, role, m, payload, cs[i])
  }

  /** A list that the generation schema admits as it is. */
  predicate Passes(role: Role, m: Manifest, cs: seq<Binding>) {
    |cs| >= 2 && DraftValid(role, cs, []) && WithCanonicalClaims(m, role, Records(cs)) == Some(Records(cs))
  }

  lemma ListScreened(lang: Language, role: Role, m: Manifest, payload: Json, cs: seq<Binding>)
    requires Passes(role, m, cs) && AllPassable(lang, role, m, payload, cs)
    ensures Screen(lang, role, m, payload, Records(cs)) == Ok(Screened(cs, []))
  {
    forall i | 0 <= i < |cs| ensures ItemVerdict(lang, role, m, payload)(Record(cs[i])) == Keep(cs[i]) {
      assert Passable(lang, role, m, payload, cs[i]);
    }
    QuarantineKeepsAll(ItemVerdict(lang, role, m, payload), cs, MinimumValidClaims(role));
  }

  lemma DraftingOf(role: Role, cs: seq<Binding>, frame: Frame, shape: Shape)
    requires shape == ShapeOf(role) && DraftValid(role, cs, []) && frame.uncertainties == []
    requires HeaderReads(role, frame.header, true)
    ensures Drafting(role, cs, frame) == Ok(Regrouped(shape, Complete(role), cs, [], Assembled(role, frame)))
  {}

  lemma DraftedFrom(lang: Language, role: Role, m: Manifest, payload: Json, items: seq<Json>, frame: Frame,
                    cs: seq<Binding>)
    requires Screen(lang, role, m, payload, items) == Ok(Screened(cs, []))
    ensures Drafted(lang, role, m, payload, ClaimFirst(items, frame)) == Drafting(role, cs, frame)
    ensures RejectedOf(lang, role, m, payload, ClaimFirst(items, frame)) == []
  {}

  lemma ListDrafted(lang: Language, role: Role, m: Manifest, payload: Json, cs: seq<Binding>, frame: Frame,
                    shape: Shape)
    requires shape == ShapeOf(role) && DraftValid(role, cs, []) && frame.uncertainties == []
    requires HeaderReads(role, frame.header, true)
    requires Screen(lang, role, m, payload, Records(cs)) == Ok(Screened(cs, []))
    ensures var raw := ClaimFirst(Records(cs), frame);
            && RejectedOf(lang, role, m, payload, raw) == []
            && Drafted(lang, role, m, payload, raw)
              == Ok(Regrouped(shape, Complete(role), cs, [], Assembled(role, frame)))
  {
    DraftedFrom(lang, role, m, payload, Records(cs), frame, cs);
    DraftingOf(role, cs, frame, shape);
  }

  lemma PassableMembers(lang: Language, role: Role, m: Manifest, payload: Json, cs: seq<Binding>)
    requires AllPassable(lang, role, m, payload, cs)
    ensures AllAcceptable(role, m, payload, cs) && forall c :: c in cs ==> c.Valid() && !ProhibitedClaim(lang, c)
  {
    forall i | 0 <= i < |cs|
      ensures Acceptable(role, m, payload, cs[i]) && cs[i].Valid() && !ProhibitedClaim(lang, cs[i])
    {
      assert Passable(lang, role, m, payload, cs[i]);
    }
  }

  lemma JudgedOwn(lang: Language, role: Role, m: Manifest, payload: Json, raw: RawOutput)
    requires Drafted(lang, role, m, payload, raw).Ok? && OwnHeader(role, HeaderOf(raw))
    ensures AgentResult(lang, role, m, payload, raw)
         == Accepted(lang, role, m, payload, Drafted(lang, role, m, payload, raw).value)
  {}

  /** A passing list of valid and strictly acceptable Claims comes through. */
  lemma ListAccepted(lang: Language, role: Role, m: Manifest, payload: Json, cs: seq<Binding>, frame: Frame,
                     shape: Shape)
    requires shape == ShapeOf(role) && Passes(role, m, cs) && AllPassable(lang, role, m, payload, cs)
    requires frame.uncertainties == [] && HeaderReads(role, frame.header, true) && OwnHeader(role, frame.header)
    ensures var raw := ClaimFirst(Records(cs), frame);
            && AgentResult(lang, role, m, payload, raw).Ok?
            && RejectedOf(lang, role, m, payload, raw) == []
            && AgentResult(lang, role, m, payload, raw)
            == Accepted(lang, role, m, payload, Regrouped(shape, Complete(role), cs, [], Assembled(role, frame)))
  {
    ListScreened(lang, role, m, payload, cs);
    ListDrafted(lang, role, m, payload, cs, frame, shape);
    PassableMembers(lang, role, m, payload, cs);
    RegroupedAccepted(lang, role, m, payload, cs, Assembled(role, frame), shape);
    JudgedOwn(lang, role, m, payload, ClaimFirst(Records(cs), frame));
  }

  // ----- Managers -----

  lemma DerivedIsKept(lang: Language, upstream: map<string, Binding>, c: Binding)
    requires c.Valid() && DerivedClaim(upstream, c) && !ProhibitedClaim(lang, c)
    ensures UpstreamVerdict(lang, upstream, Record(c)) == Keep(c)
  {
    FirstNewDecides(Literals(c.text), Lookups(upstream, c.upstreamIds));
  }

  lemma ManagerAppendsNothing(m: Manifest, role: Role, items: seq<Json>)
    requires !IsAnalyst(role)
    ensures WithCanonicalClaims(m, role, items) == Some(items)
  {}

  predicate Supported(upstream: map<string, Binding>, text: string, ids: seq<string>) {
    && ids != [] && AllIn(ids, upstream) && Inherited(Literals(text), Lookups(upstream, ids))
    && ParentSources(Lookups(upstream, ids)) != []
  }

  lemma PairDerives(lang: Language, upstream: map<string, Binding>, shape: Shape, section: string, text: string,
                    ids: seq<string>, i: nat)
    requires Supported(upstream, text, ids) && i < 2 && text != "" && Distinct(ids)
    requires !Prohibited(lang.intent(text, false))
    ensures var c := Candidate(shape, section, text, [], ids, i);
            && c.Valid() && !ProhibitedClaim(lang, c) && DerivedClaim(upstream, c)
            && UpstreamVerdict(lang, upstream, Record(c)) == Keep(c)
  {
    var c := Candidate(shape, section, text, [], ids, i);
    assert |c.path| > 0;
    DerivedIsKept(lang, upstream, c);
  }

  lemma ManagerVerdict(lang: Language, role: Role, m: Manifest, payload: Json, item: Json)
    requires !IsAnalyst(role)
    ensures ItemVerdict(lang, role, m, payload)(item) == UpstreamVerdict(lang, UpstreamIndex(payload), item)
  {}

  lemma PairCarried(lang: Language, role: Role, m: Manifest, payload: Json, text: string, ids: seq<string>,
                    shape: Shape, section: string, i: nat)
    requires !IsAnalyst(role) && text != "" && Distinct(ids) && i < 2
    requires Supported(UpstreamIndex(payload), text, ids) && !Prohibited(lang.intent(text, false))
    ensures Passable(lang, role, m, payload, Candidate(shape, section, text, [], ids, i))
  {
    PairDerives(lang, UpstreamIndex(payload), shape, section, text, ids, i);
    ManagerVerdict(lang, role, m, payload, Record(Candidate(shape, section, text, [], ids, i)));
  }

  lemma PairPasses(role: Role, m: Manifest, text: string, ids: seq<string>, shape: Shape, section: string)
    requires !IsAnalyst(role) && shape == ShapeOf(role) && section == shape.sections[0]
    ensures Passes(role, m, Pair(shape, section, text, [], ids))
  {
    PairDraftValid(role, shape, section, text, [], ids);
    ManagerAppendsNothing(m, role, Records(Pair(shape, section, text, [], ids)));
  }

  lemma PairPassable(lang: Language, role: Role, m: Manifest, payload: Json, text: string, ids: seq<string>,
                     shape: Shape, section: string)
    requires !IsAnalyst(role) && text != "" && Distinct(ids)
    requires Supported(UpstreamIndex(payload), text, ids) && !Prohibited(lang.intent(text, false))
    ensures AllPassable(lang, role, m, payload, Pair(shape, section, text, [], ids))
  {
    PairCarried(lang, role, m, payload, text, ids, shape, section, 0);
    PairCarried(lang, role, m, payload, text, ids, shape, section, 1);
  }

  /** A text whose literals known Claims carry is accepted from a Manager, citing those Claims. */
  lemma ManagerAccepts(lang: Language, role: Role, m: Manifest, payload: Json, text: string, ids: seq<string>,
                       shape: Shape)
    returns (raw: RawOutput, b: Binding)
    requires !IsAnalyst(role) && shape == ShapeOf(role) && text != "" && Distinct(ids)
    requires Supported(UpstreamIndex(payload), text, ids) && !Prohibited(lang.intent(text, false))
    ensures AgentResult(lang, role, m, payload, raw).Ok? && b in AgentResult(lang, role, m, payload, raw).value.bindings
    ensures RejectedOf(lang, role, m, payload, raw) == []
    ensures b.text == text && b.literals == Literals(text)
    ensures b.sources == ParentSources(Lookups(UpstreamIndex(payload), ids))
  {
    var cs := Pair(shape, shape.sections[0], text, [], ids);
    raw := ClaimFirst(Records(cs), OwnFrame(role, []));
    OwnFrameReads(role, []);
    PairPasses(role, m, text, ids, shape, shape.sections[0]);
    PairPassable(lang, role, m, payload, text, ids, shape, shape.sections[0]);
    ListAccepted(lang, role, m, payload, cs, OwnFrame(role, []), shape);
    b := FirstAccepted(lang, role, m, payload, Regrouped(shape, Complete(role), cs, [], Null), shape);
    CompleteCompletes(role);
    ReboundAt(NamingOf(shape), Complete(role), cs, |cs|, 0);
  }

  /** The first accepted Claim of a response, as the Manager validator derives it. */
  lemma FirstDerived(lang: Language, agent: string, shape: Shape, upstream: map<string, Binding>, out: Output)
    returns (b: Binding)
    requires WellShaped(shape, out) && out.bindings != [] && UpstreamEvidence(lang, agent, shape, upstream, out).Ok?
    ensures b in UpstreamEvidence(lang, agent, shape, upstream, out).value
    ensures AllIn(out.bindings[0].upstreamIds, upstream)
    ensures b.text == out.bindings[0].text && b.literals == Literals(b.text)
    ensures b.sources == ParentSources(Lookups(upstream, out.bindings[0].upstreamIds))
  {
    var accept := UpstreamAcceptor(lang, agent, shape, upstream, out);
    AcceptAllDecides(accept, out.bindings, |out.bindings|);
    b := UpstreamEvidence(lang, agent, shape, upstream, out).value[0];
    assert accept(out.bindings[0]) == Ok(b);
  }

  lemma FirstAccepted(lang: Language, role: Role, m: Manifest, payload: Json, out: Output, shape: Shape)
    returns (b: Binding)
    requires !IsAnalyst(role) && shape == ShapeOf(role) && out.bindings != []
    requires Accepted(lang, role, m, payload, out).Ok?
    ensures b in Accepted(lang, role, m, payload, out).value.bindings
    ensures AllIn(out.bindings[0].upstreamIds, UpstreamIndex(payload))
    ensures b.text == out.bindings[0].text && b.literals == Literals(b.text)
    ensures b.sources == ParentSources(Lookups(UpstreamIndex(payload), out.bindings[0].upstreamIds))
  {
    b := FirstDerived(lang, AgentName(role), shape, UpstreamIndex(payload), out);
  }

  // ----- the Fundamental Analyst -----

  /** No entry stands under a canonical field path, so nothing is appended and nothing replaced. */
  predicate Uncanonical(m: Manifest, groups: seq<Group>) {
    forall g, p :: g in groups && p in g.paths ==> p !in ByFieldPath(m, |m|)
  }

  lemma {:induction false} NothingSelected(byPath: map<string, Entry>, paths: seq<string>, n: nat)
    requires n <= |paths| && forall p :: p in paths ==> p !in byPath
    ensures Selected(byPath, paths, n) == []
  {
    if n > 0 {
      NothingSelected(byPath, paths, n - 1);
    }
  }

  lemma {:induction false} NothingFilled(byPath: map<string, Entry>, groups: seq<Group>, n: nat)
    requires n <= |groups| && forall g, p :: g in groups && p in g.paths ==> p !in byPath
    ensures Filled(byPath, groups, n) == []
  {
    if n > 0 {
      NothingFilled(byPath, groups, n - 1);
      NothingSelected(byPath, groups[n - 1].paths, |groups[n - 1].paths|);
    }
  }

  lemma {:induction false} AllUncovered(cs: seq<Binding>, n: nat)
    requires n <= |cs|
    ensures Uncovered(Records(cs), {}, n) == Records(cs)[..n]
  {
    if n > 0 {
      AllUncovered(cs, n - 1);
      assert Records(cs)[..n] == Records(cs)[..n - 1] + [Records(cs)[n - 1]];
    }
  }

  predicate Numbered(cs: seq<Binding>) { forall i :: 0 <= i < |cs| ==> FactIndexOf(cs[i].path).Some? }

  lemma NoCanonicalIds(m: Manifest, groups: seq<Group>)
    requires Uncanonical(m, groups)
    ensures CanonicalIds(ByFieldPath(m, |m|), groups) == {}
  {
    assert forall g, p :: g in groups && p in g.paths ==> p !in ByFieldPath(m, |m|);
  }

  lemma RecordNumbered(c: Binding)
    requires FactIndexOf(c.path).Some?
    ensures !Unnumbered(Record(c))
  {
    assert Get(RecordFields(c), "claim_path") == Text(c.path);
  }

  lemma NothingAppended(m: Manifest, idPrefix: string, groups: seq<Group>, cs: seq<Binding>)
    requires Uncanonical(m, groups) && Numbered(cs)
    ensures Enriched(m, idPrefix, groups, Records(cs)) == Some(Records(cs))
  {
    var items, byPath := Records(cs), ByFieldPath(m, |m|);
    NoCanonicalIds(m, groups);
    AllUncovered(cs, |cs|);
    assert items[..|items|] == items;
    NothingFilled(byPath, groups, |groups|);
    forall x | x in items ensures !Unnumbered(x) {
      var i :| 0 <= i < |items| && items[i] == x;
      RecordNumbered(cs[i]);
    }
    assert Records(Appended(m, idPrefix, groups, items)) == [];
    assert items + [] == items;
  }

  lemma FundamentalPlaces(i: nat)
    ensures ShapeOf(FundamentalAnalyst).Path(ShapeOf(FundamentalAnalyst).sections[0], i) == FactPath(i)
  {
    assert "analysis." + "facts" + "[" == FACTS_OPENING;
  }

  /** A Claim without numbers and identifiers that cites a known entry is kept and accepted. */
  lemma NumberlessIsPassable(lang: Language, m: Manifest, payload: Json, id: string, c: Binding)
    requires c.Valid() && c.text == "x" && c.evidenceIds == [id] && id in Entries(m) && c.intent == Fact
    requires lang.patterns.identifiers("x") == [] && !Prohibited(lang.intent("x", false))
    ensures Passable(lang, FundamentalAnalyst, m, payload, c)
  {
    NoNumbers();
    assert ExactClaim(m, c);
    assert ClaimLiterals(lang.patterns, "x", Cited(m, c)) == [];
    ExactClaimKept(lang, m, c);
  }

  lemma FundamentalPasses(m: Manifest, id: string, shape: Shape, section: string)
    requires shape == ShapeOf(FundamentalAnalyst) && section == shape.sections[0]
    requires Uncanonical(m, GroupsOf(FundamentalAnalyst))
    ensures Passes(FundamentalAnalyst, m, Pair(shape, section, "x", [id], []))
  {
    var cs := Pair(shape, section, "x", [id], []);
    PairDraftValid(FundamentalAnalyst, shape, section, "x", [id], []);
    FundamentalPlaces(0);
    FundamentalPlaces(1);
    FactPathIndex(0);
    FactPathIndex(1);
    NothingAppended(m, CanonicalPrefix(FundamentalAnalyst), GroupsOf(FundamentalAnalyst), cs);
  }

  predicate LongIds(bs: seq<Binding>) { forall b :: b in bs ==> b.claimId.Some? && |b.claimId.value| > 1 }

  lemma FundamentalPassable(lang: Language, m: Manifest, payload: Json, id: string, shape: Shape, section: string)
    requires id in Entries(m) && lang.patterns.identifiers("x") == [] && !Prohibited(lang.intent("x", false))
    ensures AllPassable(lang, FundamentalAnalyst, m, payload, Pair(shape, section, "x", [id], []))
  {
    var cs := Pair(shape, section, "x", [id], []);
    PairValid(shape, section, "x", [id], []);
    forall i | 0 <= i < 2 ensures Passable(lang, FundamentalAnalyst, m, payload, cs[i]) {
      assert cs[i] in cs;
      NumberlessIsPassable(lang, m, payload, id, cs[i]);
    }
  }

  /** The Fundamental Analyst accepts such Claims with any metadata beside them, and passes it on. */
  lemma FundamentalAccepts(lang: Language, m: Manifest, payload: Json, id: string, metadata: seq<Field>, shape: Shape)
    returns (raw: RawOutput)
    requires shape == ShapeOf(FundamentalAnalyst) && id in Entries(m) && Uncanonical(m, GroupsOf(FundamentalAnalyst))
    requires lang.patterns.identifiers("x") == [] && !Prohibited(lang.intent("x", false))
    ensures AgentResult(lang, FundamentalAnalyst, m, payload, raw).Ok?
    ensures AgentResult(lang, FundamentalAnalyst, m, payload, raw).value.metadata
         == Obj(WithField(metadata, "score_metadata", Obj([])))
    ensures RejectedOf(lang, FundamentalAnalyst, m, payload, raw) == []
    ensures LongIds(AgentResult(lang, FundamentalAnalyst, m, payload, raw).value.bindings)
  {
    var cs := Pair(shape, shape.sections[0], "x", [id], []);
    raw := ClaimFirst(Records(cs), OwnFrame(FundamentalAnalyst, metadata));
    OwnFrameReads(FundamentalAnalyst, metadata);
    FundamentalPasses(m, id, shape, shape.sections[0]);
    FundamentalPassable(lang, m, payload, id, shape, shape.sections[0]);
    FundamentalList(lang, FundamentalAnalyst, m, payload, cs, OwnFrame(FundamentalAnalyst, metadata), shape);
  }

  lemma FundamentalList(lang: Language, role: Role, m: Manifest, payload: Json, cs: seq<Binding>, frame: Frame,
                        shape: Shape)
    requires role == FundamentalAnalyst && shape == ShapeOf(role) && Passes(role, m, cs)
    requires AllPassable(lang, role, m, payload, cs)
    requires frame.uncertainties == [] && HeaderReads(role, frame.header, true) && OwnHeader(role, frame.header)
    requires forall c :: c in cs ==> c.claimId == None
    ensures var raw := ClaimFirst(Records(cs), frame);
            && AgentResult(lang, role, m, payload, raw).Ok? && RejectedOf(lang, role, m, payload, raw) == []
            && AgentResult(lang, role, m, payload, raw).value.metadata == Assembled(role, frame)
            && LongIds(AgentResult(lang, role, m, payload, raw).value.bindings)
  {
    var raw := ClaimFirst(Records(cs), frame);
    ListAccepted(lang, role, m, payload, cs, frame, shape);
    AgentResultMetadata(lang, role, m, payload, raw);
    NewIdsAreLong(shape, cs);
    AnalystIds(lang, m, payload, Regrouped(shape, Complete(role), cs, [], Assembled(role, frame)), shape);
  }

  lemma AnalystIds(lang: Language, m: Manifest, payload: Json, out: Output, shape: Shape)
    requires shape == ShapeOf(FundamentalAnalyst) && Accepted(lang, FundamentalAnalyst, m, payload, out).Ok?
    requires LongIds(out.bindings)
    ensures LongIds(Accepted(lang, FundamentalAnalyst, m, payload, out).value.bindings)
  {
    AcceptedIds(lang, AgentName(FundamentalAnalyst), shape, m, out);
  }

  lemma NewIdsAreLong(shape: Shape, cs: seq<Binding>)
    requires forall c :: c in cs ==> c.claimId == None
    ensures LongIds(Rebound(NamingOf(shape), Complete(FundamentalAnalyst), cs, |cs|))
  {
    var bs := Rebound(NamingOf(shape), Complete(FundamentalAnalyst), cs, |cs|);
    forall b | b in bs ensures b.claimId.Some? && |b.claimId.value| > 1 {
      var i :| 0 <= i < |bs| && bs[i] == b;
      ReboundAt(NamingOf(shape), Complete(FundamentalAnalyst), cs, |cs|, i);
      assert cs[i] in cs;
    }
  }

  lemma AcceptedId(lang: Language, agent: string, entries: map<string, Entry>, b: Binding, path: string, value: Json)
    requires AcceptManifestClaim(lang, agent, entries, b, path, value).Ok? && b.claimId.Some?
    ensures AcceptManifestClaim(lang, agent, entries, b, path, value).value.claimId == b.claimId
  {}

  /** Strict validation keeps the ids that a response's bindings have. */
  lemma AcceptedIds(lang: Language, agent: string, shape: Shape, m: Manifest, out: Output)
    requires WellShaped(shape, out) && ManifestEvidence(lang, agent, shape, m, out).Ok?
    requires LongIds(out.bindings)
    ensures LongIds(ManifestEvidence(lang, agent, shape, m, out).value)
  {
    var accept, paths := ManifestAcceptor(lang, agent, shape, m, out), TextPaths(shape, out.lists);
    AcceptAllDecides(accept, paths, |paths|);
    PathIndexMembers(out.bindings, |out.bindings|);
    var accepted := ManifestEvidence(lang, agent, shape, m, out).value;
    forall b | b in accepted ensures b.claimId.Some? && |b.claimId.value| > 1 {
      var i :| 0 <= i < |accepted| && accepted[i] == b;
      assert accept(paths[i]) == Ok(b);
      AcceptedId(lang, agent, Entries(m), PathIndex(out.bindings, |out.bindings|)[paths[i]], paths[i],
                 ValueAtIndexedPath(OutputJson(agent, shape, out), paths[i]));
    }
  }
}
