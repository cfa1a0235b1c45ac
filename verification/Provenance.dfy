/**
 Exactly which citations and numbers a Manager can bring into an accepted Claim, when these belong
 together, and a run in which a Claim that no Agent accepted reaches a Manager and is cited.
 */
module Provenance {
  import opened Sequences
  import opened Scanner
  import opened Rescan
  import opened Evidence
  import opened Json
  import opened Sections
  import opened Claims
  import opened Validation
  import opened Roles
  import opened Canonical
  import opened Agents
  import opened Responses
  import opened Coordinator

  predicate Derives(upstream: map<string, Binding>, b: Binding) {
    && AllIn(b.upstreamIds, upstream) && Distinct(b.upstreamIds)
    && b.literals == Literals(b.text)
    && b.sources == ParentSources(Lookups(upstream, b.upstreamIds)) && b.sources != []
    && Inherited(b.literals, Lookups(upstream, b.upstreamIds))
  }

  lemma AcceptedOneDerives(lang: Language, upstream: map<string, Binding>, b: Binding, value: Json)
    requires b.Valid() && AcceptUpstreamClaim(lang, upstream, b, value).Ok?
    ensures Derives(upstream, AcceptUpstreamClaim(lang, upstream, b, value).value)
  {}

  lemma AcceptedDerives(lang: Language, agent: string, shape: Shape, upstream: map<string, Binding>, out: Output,
                        b: Binding)
    requires WellShaped(shape, out) && UpstreamEvidence(lang, agent, shape, upstream, out).Ok?
    requires b in UpstreamEvidence(lang, agent, shape, upstream, out).value
    ensures Derives(upstream, b)
  {
    var accept := UpstreamAcceptor(lang, agent, shape, upstream, out);
    AcceptAllDecides(accept, out.bindings, |out.bindings|);
    var accepted := UpstreamEvidence(lang, agent, shape, upstream, out).value;
    var i :| 0 <= i < |accepted| && accepted[i] == b;
    assert out.bindings[i] in out.bindings;
    AcceptedOneDerives(lang, upstream, out.bindings[i],
                       ValueAtIndexedPath(OutputJson(agent, shape, out), out.bindings[i].path));
  }

  // ----- what a Manager's model can achieve -----

  /** Some deliveries of its model make the Agent accept `b`. */
  ghost predicate CanAccept(lang: Language, role: Role, m: Manifest, payload: Json, b: Binding) {
    exists a: Attempt ::
      RunResult(lang, role, m, payload, a).Ok? && b in RunResult(lang, role, m, payload, a).value.bindings
  }

  lemma OutputDerives(lang: Language, role: Role, m: Manifest, payload: Json, raw: RawOutput, b: Binding)
    requires !IsAnalyst(role) && AgentResult(lang, role, m, payload, raw).Ok?
    requires b in AgentResult(lang, role, m, payload, raw).value.bindings
    ensures Derives(UpstreamIndex(payload), b)
  {
    var out := StrictlyAccepted(lang, role, m, payload, raw);
    AcceptedDerives(lang, AgentName(role), ShapeOf(role), UpstreamIndex(payload), out, b);
  }

  lemma RunDerives(lang: Language, role: Role, m: Manifest, payload: Json, a: Attempt, b: Binding)
    requires !IsAnalyst(role) && RunResult(lang, role, m, payload, a).Ok?
    requires b in RunResult(lang, role, m, payload, a).value.bindings
    ensures Derives(UpstreamIndex(payload), b)
  {
    var raw, rejected := SuccessIsOneOutput(lang, role, m, payload, a);
    OutputDerives(lang, role, m, payload, raw, b);
  }

  lemma ManagerDerives(lang: Language, role: Role, m: Manifest, payload: Json, b: Binding)
    requires !IsAnalyst(role) && CanAccept(lang, role, m, payload, b)
    ensures Derives(UpstreamIndex(payload), b)
  {
    var a: Attempt :| RunResult(lang, role, m, payload, a).Ok?
      && b in RunResult(lang, role, m, payload, a).value.bindings;
    RunDerives(lang, role, m, payload, a, b);
  }

  /** One delivery without rejections is passed on as it is. */
  lemma SingleDelivery(lang: Language, role: Role, m: Manifest, payload: Json, raw: RawOutput)
    requires AgentResult(lang, role, m, payload, raw).Ok? && RejectedOf(lang, role, m, payload, raw) == []
    ensures RunResult(lang, role, m, payload, Attempt(Produced(raw), None)) == AgentResult(lang, role, m, payload, raw)
  {
    var t := TrialOf(lang, role, m, payload, Produced(raw), []);
    assert t.rejected == [];
  }

  lemma ManagerCanAccept(lang: Language, role: Role, m: Manifest, payload: Json, text: string, ids: seq<string>)
    returns (b: Binding)
    requires !IsAnalyst(role) && text != "" && Distinct(ids)
    requires Responses.Supported(UpstreamIndex(payload), text, ids) && !Prohibited(lang.intent(text, false))
    ensures CanAccept(lang, role, m, payload, b)
    ensures b.text == text && b.literals == Literals(text)
    ensures b.sources == ParentSources(Lookups(UpstreamIndex(payload), ids))
  {
    var raw;
    raw, b := ManagerAccepts(lang, role, m, payload, text, ids, ShapeOf(role));
    SingleDelivery(lang, role, m, payload, raw);
  }

  ghost predicate CanCite(lang: Language, role: Role, m: Manifest, payload: Json, key: Key) {
    exists b :: CanAccept(lang, role, m, payload, b) && Carries(b.sources, key)
  }

  ghost predicate CanState(lang: Language, role: Role, m: Manifest, payload: Json, literal: string) {
    exists b :: CanAccept(lang, role, m, payload, b) && literal in b.literals
  }

  predicate SomeSource(upstream: map<string, Binding>) { exists id :: id in upstream && upstream[id].sources != [] }

  lemma CitedIsIndexed(upstream: map<string, Binding>, b: Binding, key: Key)
    requires Derives(upstream, b) && Carries(b.sources, key)
    ensures exists id :: id in upstream && Carries(upstream[id].sources, key)
  {
    ParentSourcesCarry(Lookups(upstream, b.upstreamIds), key);
    var i :| 0 <= i < |b.upstreamIds| && Carries(Lookups(upstream, b.upstreamIds)[i].sources, key);
    assert b.upstreamIds[i] in b.upstreamIds;
  }

  lemma IndexedSupports(upstream: map<string, Binding>, id: string, key: Key)
    requires id in upstream && Carries(upstream[id].sources, key)
    ensures Responses.Supported(upstream, "x", [id]) && Carries(ParentSources(Lookups(upstream, [id])), key)
  {
    NoNumbers();
    assert Lookups(upstream, [id]) == [upstream[id]];
    ParentSourcesCarry([upstream[id]], key);
    assert Carries([upstream[id]][0].sources, key);
  }

  /**
   A Manager's model can make a document part of an accepted Claim exactly when an indexed Claim
   carries it, as long as the language admits the text "x".
   */
  lemma CitableExactlyWhenIndexed(lang: Language, role: Role, m: Manifest, payload: Json, key: Key)
    requires !IsAnalyst(role) && !Prohibited(lang.intent("x", false))
    ensures CanCite(lang, role, m, payload, key) <==>
              exists id :: id in UpstreamIndex(payload) && Carries(UpstreamIndex(payload)[id].sources, key)
  {
    var upstream := UpstreamIndex(payload);
    if CanCite(lang, role, m, payload, key) {
      var b :| CanAccept(lang, role, m, payload, b) && Carries(b.sources, key);
      ManagerDerives(lang, role, m, payload, b);
      CitedIsIndexed(upstream, b, key);
    }
    if id :| id in upstream && Carries(upstream[id].sources, key) {
      IndexedSupports(upstream, id, key);
      var b := ManagerCanAccept(lang, role, m, payload, "x", [id]);
    }
  }

  lemma DerivedLiteral(upstream: map<string, Binding>, b: Binding, literal: string)
    requires Derives(upstream, b) && literal in b.literals
    ensures Literals(literal) == [literal]
    ensures (exists id :: id in upstream && literal in upstream[id].literals) && SomeSource(upstream)
  {
    var parents := Lookups(upstream, b.upstreamIds);
    LookupsMembers(upstream, b.upstreamIds);
    assert Carried(literal, parents);
    ParentSourcesCarry(parents, CitationKey(b.sources[0]));
    assert Carries(b.sources, CitationKey(b.sources[0]));
    LiteralsRescan(b.text, literal);
  }

  lemma LiteralSupports(upstream: map<string, Binding>, literal: string, id: string, other: string)
    returns (ids: seq<string>)
    requires Literals(literal) == [literal] && id in upstream && literal in upstream[id].literals
    requires other in upstream && upstream[other].sources != []
    ensures Distinct(ids) && Responses.Supported(upstream, literal, ids) && literal != ""
  {
    ids := if id == other then [id] else [id, other];
    var parents := Lookups(upstream, ids);
    assert ids[0] == id && ids[|ids| - 1] == other;
    assert parents[0] == upstream[id] && parents[|ids| - 1] == upstream[other];
    assert Carried(literal, parents) by { assert parents[0] in parents; }
    var s := upstream[other].sources[0];
    assert Carries(parents[|ids| - 1].sources, CitationKey(s));
    ParentSourcesCarry(parents, CitationKey(s));
    assert Literals("") == [];
  }

  /**
   A Manager's model can state a literal in an accepted Claim exactly when the tokenizer can yield
   it, an indexed Claim lists it, and some indexed Claim has a source, as long as the language admits
   the bare literal as a text.
   */
  lemma StateableExactlyWhenIndexed(lang: Language, role: Role, m: Manifest, payload: Json, literal: string)
    requires !IsAnalyst(role) && !Prohibited(lang.intent(literal, false))
    ensures var upstream := UpstreamIndex(payload);
            CanState(lang, role, m, payload, literal) <==>
              && Literals(literal) == [literal]
              && (exists id :: id in upstream && literal in upstream[id].literals) && SomeSource(upstream)
  {
    var upstream := UpstreamIndex(payload);
    if CanState(lang, role, m, payload, literal) {
      var b :| CanAccept(lang, role, m, payload, b) && literal in b.literals;
      ManagerDerives(lang, role, m, payload, b);
      DerivedLiteral(upstream, b, literal);
    }
    if
      && Literals(literal) == [literal] && SomeSource(upstream)
      && (exists id :: id in upstream && literal in upstream[id].literals)
    {
      var id :| id in upstream && literal in upstream[id].literals;
      var other :| other in upstream && upstream[other].sources != [];
      var ids := LiteralSupports(upstream, literal, id, other);
      var b := ManagerCanAccept(lang, role, m, payload, literal, ids);
    }
  }

  // ----- when everything a Manager can have accepted is faithful -----

  /** Everything that the Agent accepts, whatever its model delivers, is faithful to the roots. */
  ghost predicate AcceptsOnlyFaithful(lang: Language, role: Role, m: Manifest, payload: Json, roots: Roots) {
    forall b :: CanAccept(lang, role, m, payload, b) ==> Faithful(b, roots)
  }

  predicate AllSourced(sources: seq<Source>, roots: Roots) { forall s :: s in sources ==> s in roots.sources }

  /** The sources and the scannable literals of some parents are rooted together. */
  predicate ParentsRooted(parents: seq<Binding>, roots: Roots) {
    && AllSourced(ParentSources(parents), roots)
    && (forall p, literal :: p in parents && literal in p.literals && Literals(literal) == [literal] ==>
          Backed(literal, ParentSources(parents), roots))
  }

  /** Every list of indexed Claims that has sources is rooted. */
  ghost predicate ListsRooted(upstream: map<string, Binding>, roots: Roots) {
    forall ids: seq<string> :: Distinct(ids) && AllIn(ids, upstream) && ParentSources(Lookups(upstream, ids)) != [] ==>
      ParentsRooted(Lookups(upstream, ids), roots)
  }

  /** A literal of an indexed Claim is backed by that Claim's sources, or by any other's if it has none. */
  predicate LiteralSound(upstream: map<string, Binding>, id: string, literal: string, roots: Roots)
    requires id in upstream
  {
    if upstream[id].sources != [] then Backed(literal, upstream[id].sources, roots)
    else forall other :: other in upstream && upstream[other].sources != [] ==>
      Backed(literal, upstream[other].sources, roots)
  }

  predicate ClaimSound(upstream: map<string, Binding>, id: string, roots: Roots)
    requires id in upstream
  {
    && AllSourced(ParentSources([upstream[id]]), roots)
    && (forall literal :: literal in upstream[id].literals && Literals(literal) == [literal] ==>
          LiteralSound(upstream, id, literal, roots))
  }

  /** The index is sound, Claim by Claim. */
  predicate IndexSound(upstream: map<string, Binding>, roots: Roots) {
    forall id :: id in upstream ==> ClaimSound(upstream, id, roots)
  }

  lemma BackedByKeys(literal: string, a: seq<Source>, b: seq<Source>, roots: Roots)
    requires Backed(literal, a, roots) && forall key :: Carries(a, key) ==> Carries(b, key)
    ensures Backed(literal, b, roots)
  {
    var s :| s in a && (literal, CitationKey(s)) in roots.facts;
    assert Carries(a, CitationKey(s));
  }

  lemma ParentBacks(parents: seq<Binding>, p: Binding, literal: string, roots: Roots)
    requires p in parents && Backed(literal, p.sources, roots)
    ensures Backed(literal, ParentSources(parents), roots)
  {
    var i :| 0 <= i < |parents| && parents[i] == p;
    forall key | Carries(p.sources, key) ensures Carries(ParentSources(parents), key) {
      ParentSourcesCarry(parents, key);
      assert Carries(parents[i].sources, key);
    }
    BackedByKeys(literal, p.sources, ParentSources(parents), roots);
  }

  /** With one sourced parent, what the list backs that parent backs. */
  lemma OnlyParentBacks(parents: seq<Binding>, p: Binding, literal: string, roots: Roots)
    requires forall q :: q in parents ==> q == p || q.sources == []
    requires Backed(literal, ParentSources(parents), roots)
    ensures Backed(literal, p.sources, roots)
  {
    forall key | Carries(ParentSources(parents), key) ensures Carries(p.sources, key) {
      ParentSourcesCarry(parents, key);
      var i :| 0 <= i < |parents| && Carries(parents[i].sources, key);
      assert parents[i] in parents;
    }
    BackedByKeys(literal, ParentSources(parents), p.sources, roots);
  }

  lemma NonemptySources(parents: seq<Binding>, p: Binding)
    requires p in parents && p.sources != []
    ensures ParentSources(parents) != []
  {
    var i :| 0 <= i < |parents| && parents[i] == p;
    assert Carries(parents[i].sources, CitationKey(p.sources[0]));
    ParentSourcesCarry(parents, CitationKey(p.sources[0]));
  }

  lemma SomeSourcedParent(parents: seq<Binding>) returns (p: Binding)
    requires ParentSources(parents) != []
    ensures p in parents && p.sources != []
  {
    var key := CitationKey(ParentSources(parents)[0]);
    assert Carries(ParentSources(parents), key);
    ParentSourcesCarry(parents, key);
    var i :| 0 <= i < |parents| && Carries(parents[i].sources, key);
    p := parents[i];
  }

  /** What is unique in a concatenation is unique in one of its parts. */
  lemma {:induction false} UniqueConcat(a: seq<Source>, b: seq<Source>, n: nat, s: Source)
    requires n <= |b| && s in UniqueSources(a + b, |a| + n)
    ensures s in UniqueSources(a, |a|) || s in UniqueSources(b, n)
  {
    if n == 0 {
      UniquePrefix(a, b, |a|);
    } else {
      assert (a + b)[|a| + n - 1] == b[n - 1];
      if s in UniqueSources(a + b, |a| + n - 1) {
        UniqueConcat(a, b, n - 1, s);
      } else {
        NewInSuffix(a, b, n - 1, CitationKey(b[n - 1]));
      }
    }
  }

  /** A key that no source of a concatenation carries is new in its second part. */
  lemma NewInSuffix(a: seq<Source>, b: seq<Source>, n: nat, key: Key)
    requires n <= |b| && !Carries(UniqueSources(a + b, |a| + n), key)
    ensures !Carries(UniqueSources(b, n), key)
  {
    UniqueSourcesCarry(a + b, |a| + n, key);
    UniqueSourcesCarry(b, n, key);
    assert (a + b)[..|a| + n] == a + b[..n];
  }

  lemma {:induction false} UniquePrefix(a: seq<Source>, b: seq<Source>, n: nat)
    requires n <= |a|
    ensures UniqueSources(a + b, n) == UniqueSources(a, n)
  {
    if n > 0 {
      UniquePrefix(a, b, n - 1);
    }
  }

  lemma OneParentSources(p: Binding)
    ensures ParentSources([p]) == UniqueSources(p.sources, |p.sources|)
  {
    assert SourcesOfClaims([p], 1) == SourcesOfClaims([p], 0) + p.sources == p.sources;
  }

  /** A source of a list of parents is a source of one of them alone. */
  lemma {:induction false} SourceOfOneParent(parents: seq<Binding>, n: nat, s: Source)
    requires n <= |parents| && s in UniqueSources(SourcesOfClaims(parents, n), |SourcesOfClaims(parents, n)|)
    ensures exists k :: 0 <= k < n && s in ParentSources([parents[k]])
  {
    if n > 0 {
      var a, b := SourcesOfClaims(parents, n - 1), parents[n - 1].sources;
      UniqueConcat(a, b, |b|, s);
      OneParentSources(parents[n - 1]);
      if s in UniqueSources(a, |a|) {
        SourceOfOneParent(parents, n - 1, s);
      }
    }
  }

  lemma SoundListSourced(upstream: map<string, Binding>, ids: seq<string>, roots: Roots)
    requires IndexSound(upstream, roots) && AllIn(ids, upstream)
    ensures AllSourced(ParentSources(Lookups(upstream, ids)), roots)
  {
    var parents := Lookups(upstream, ids);
    forall s | s in ParentSources(parents) ensures s in roots.sources {
      SourceOfOneParent(parents, |parents|, s);
      var k :| 0 <= k < |parents| && s in ParentSources([parents[k]]);
      assert ids[k] in ids && ClaimSound(upstream, ids[k], roots);
    }
  }

  lemma SoundLiteralBacked(upstream: map<string, Binding>, ids: seq<string>, id: string, literal: string, roots: Roots)
    requires AllIn(ids, upstream) && ParentSources(Lookups(upstream, ids)) != [] && id in ids
    requires LiteralSound(upstream, id, literal, roots)
    ensures Backed(literal, ParentSources(Lookups(upstream, ids)), roots)
  {
    var parents := Lookups(upstream, ids);
    LookupsMembers(upstream, ids);
    if upstream[id].sources != [] {
      ParentBacks(parents, upstream[id], literal, roots);
    } else {
      var q := SomeSourcedParent(parents);
      var other :| other in ids && upstream[other] == q;
      ParentBacks(parents, q, literal, roots);
    }
  }

  /** A sound index makes every list of parents rooted. */
  lemma SoundListRooted(upstream: map<string, Binding>, ids: seq<string>, roots: Roots)
    requires IndexSound(upstream, roots) && AllIn(ids, upstream) && ParentSources(Lookups(upstream, ids)) != []
    ensures ParentsRooted(Lookups(upstream, ids), roots)
  {
    var parents := Lookups(upstream, ids);
    SoundListSourced(upstream, ids, roots);
    LookupsMembers(upstream, ids);
    forall p, literal | p in parents && literal in p.literals && Literals(literal) == [literal]
      ensures Backed(literal, ParentSources(parents), roots)
    {
      var id :| id in ids && upstream[id] == p;
      assert ClaimSound(upstream, id, roots);
      SoundLiteralBacked(upstream, ids, id, literal, roots);
    }
  }

  lemma RootedListsSourced(upstream: map<string, Binding>, id: string, roots: Roots)
    requires ListsRooted(upstream, roots) && id in upstream
    ensures AllSourced(ParentSources([upstream[id]]), roots)
  {
    assert Lookups(upstream, [id]) == [upstream[id]];
    if ParentSources([upstream[id]]) != [] {
      assert ParentsRooted(Lookups(upstream, [id]), roots);
    }
  }

  /** The literal of one indexed Claim, cited with one sourced Claim (or with itself). */
  lemma RootedPair(upstream: map<string, Binding>, id: string, other: string, literal: string, roots: Roots)
    requires ListsRooted(upstream, roots) && id in upstream && other in upstream
    requires literal in upstream[id].literals && Literals(literal) == [literal]
    requires upstream[other].sources != [] && (id == other || upstream[id].sources == [])
    ensures Backed(literal, upstream[other].sources, roots)
  {
    var ids := if id == other then [id] else [id, other];
    var parents := Lookups(upstream, ids);
    assert ids[0] == id && ids[|ids| - 1] == other;
    assert parents[0] == upstream[id] && parents[|ids| - 1] == upstream[other];
    assert upstream[id] in parents && upstream[other] in parents;
    NonemptySources(parents, upstream[other]);
    assert ParentsRooted(parents, roots);
    OnlyParentBacks(parents, upstream[other], literal, roots);
  }

  lemma RootedListsSound(upstream: map<string, Binding>, roots: Roots)
    requires ListsRooted(upstream, roots)
    ensures IndexSound(upstream, roots)
  {
    forall id | id in upstream ensures ClaimSound(upstream, id, roots) {
      RootedListsSourced(upstream, id, roots);
      forall literal | literal in upstream[id].literals && Literals(literal) == [literal]
        ensures LiteralSound(upstream, id, literal, roots)
      {
        if upstream[id].sources != [] {
          RootedPair(upstream, id, id, literal, roots);
        } else {
          forall other | other in upstream && upstream[other].sources != []
            ensures Backed(literal, upstream[other].sources, roots)
          {
            RootedPair(upstream, id, other, literal, roots);
          }
        }
      }
    }
  }

  /** Lists of parents are rooted exactly when the index is sound Claim by Claim. */
  lemma ListsRootedWhenSound(upstream: map<string, Binding>, roots: Roots)
    ensures ListsRooted(upstream, roots) <==> IndexSound(upstream, roots)
  {
    if IndexSound(upstream, roots) {
      forall ids: seq<string> | Distinct(ids) && AllIn(ids, upstream) && ParentSources(Lookups(upstream, ids)) != []
        ensures ParentsRooted(Lookups(upstream, ids), roots)
      {
        SoundListRooted(upstream, ids, roots);
      }
    }
    if ListsRooted(upstream, roots) {
      RootedListsSound(upstream, roots);
    }
  }

  lemma DerivedIsFaithful(upstream: map<string, Binding>, b: Binding, roots: Roots)
    requires Derives(upstream, b) && ListsRooted(upstream, roots)
    ensures Faithful(b, roots)
  {
    var parents := Lookups(upstream, b.upstreamIds);
    assert ParentsRooted(parents, roots);
    forall literal | literal in b.literals ensures Backed(literal, b.sources, roots) {
      LiteralsRescan(b.text, literal);
      assert Carried(literal, parents);
    }
  }

  /** The wording rules admit the text "x" and every bare number. */
  ghost predicate AdmitsNumbers(lang: Language) {
    && !Prohibited(lang.intent("x", false))
    && (forall literal :: Literals(literal) == [literal] ==> !Prohibited(lang.intent(literal, false)))
  }

  lemma ListIsRooted(lang: Language, role: Role, m: Manifest, payload: Json, roots: Roots, ids: seq<string>)
    requires !IsAnalyst(role) && AdmitsNumbers(lang) && AcceptsOnlyFaithful(lang, role, m, payload, roots)
    requires Distinct(ids) && AllIn(ids, UpstreamIndex(payload))
    requires ParentSources(Lookups(UpstreamIndex(payload), ids)) != []
    ensures ParentsRooted(Lookups(UpstreamIndex(payload), ids), roots)
  {
    var parents := Lookups(UpstreamIndex(payload), ids);
    NoNumbers();
    assert Literals("") == [];
    var plain := ManagerCanAccept(lang, role, m, payload, "x", ids);
    assert Faithful(plain, roots);
    forall p, literal | p in parents && literal in p.literals && Literals(literal) == [literal]
      ensures Backed(literal, ParentSources(parents), roots)
    {
      assert Carried(literal, parents);
      var b := ManagerCanAccept(lang, role, m, payload, literal, ids);
      assert Faithful(b, roots) && literal in b.literals;
    }
  }

  /**
   Whatever its model delivers, a Manager accepts only Claims whose numbers are stated by sources
   that the same Claim cites, all from the roots, exactly when the index of its payload is sound: each
   indexed Claim's sources are roots, and each of its numbers is stated by them, or, if it has no
   sources, by those of every other indexed Claim.
   */
  lemma FaithfulExactlyWhenSound(lang: Language, role: Role, m: Manifest, payload: Json, roots: Roots)
    requires !IsAnalyst(role) && AdmitsNumbers(lang)
    ensures AcceptsOnlyFaithful(lang, role, m, payload, roots) <==> IndexSound(UpstreamIndex(payload), roots)
  {
    var upstream := UpstreamIndex(payload);
    ListsRootedWhenSound(upstream, roots);
    if ListsRooted(upstream, roots) {
      forall b | CanAccept(lang, role, m, payload, b) ensures Faithful(b, roots) {
        ManagerDerives(lang, role, m, payload, b);
        DerivedIsFaithful(upstream, b, roots);
      }
    }
    if AcceptsOnlyFaithful(lang, role, m, payload, roots) {
      forall ids: seq<string> | Distinct(ids) && AllIn(ids, upstream) && ParentSources(Lookups(upstream, ids)) != []
        ensures ParentsRooted(Lookups(upstream, ids), roots)
      {
        ListIsRooted(lang, role, m, payload, roots, ids);
      }
    }
  }

  // ----- Claims that come from a response's metadata -----

  lemma ChildVisited(fields: seq<Field>, i: nat, c: Binding)
    requires i < |fields| && c in Visited(fields[i].value)
    ensures c in Visited(Obj(fields))
  {
    FieldVisited(Obj(fields), |fields|, i);
  }

  /** Whatever Claim list stands in a response's metadata is found inside the response. */
  lemma MetadataVisited(agent: string, shape: Shape, out: Output, c: Binding)
    requires WellShaped(shape, out) && c in Visited(out.metadata)
    ensures c in Visited(OutputJson(agent, shape, out))
  {
    var sections := BodyFields(shape, out.lists, |shape.sections|);
    var body := sections + Beside(out);
    assert body[|sections| + 2] == Beside(out)[2];
    ChildVisited(body, |sections| + 2, c);
    if shape.nested {
      ChildVisited([Field("analysis", Obj(body))] + Top(agent), 0, c);
    } else {
      assert (body + Top(agent))[|sections| + 2] == body[|sections| + 2];
      ChildVisited(body + Top(agent), |sections| + 2, c);
    }
  }

  lemma {:induction false} UsableOutputVisited(request: Request, runs: Runs, n: nat, i: nat, c: Binding)
    requires i < n <= |ANALYST_ORDER| && Usable(request, runs, ANALYST_ORDER[i])
    requires c in Visited(OutputOf(runs, ANALYST_ORDER[i]))
    ensures OutputOf(runs, ANALYST_ORDER[i]) in UsableOutputs(request, runs, n)
    decreases n
  {
    if i < n - 1 {
      UsableOutputVisited(request, runs, n - 1, i, c);
    }
  }

  /**
   The limit of the provenance theorem: a Claim that the model wrote into the metadata of a usable
   Analyst response is visited in every later Manager's payload, although no Agent accepted it.
   */
  lemma MetadataReachesManagers(request: Request, runs: Runs, i: nat, role: Role, c: Binding)
    requires i < |ANALYST_ORDER| && !IsAnalyst(role)
    requires Succeeded(runs, ANALYST_ORDER[i]) && request.reparses(ANALYST_ORDER[i])
    requires c in Visited(Downstream(runs[ANALYST_ORDER[i]].out.metadata))
    ensures c in Visited(Payload(request, runs, role))
  {
    var analyst := ANALYST_ORDER[i];
    MetadataVisited(AgentName(analyst), ShapeOf(analyst), Projected(runs[analyst].out), c);
    UsableOutputVisited(request, runs, |ANALYST_ORDER|, i, c);
    var outputs := UsableOutputs(request, runs, |ANALYST_ORDER|);
    var k :| 0 <= k < |outputs| && outputs[k] == OutputOf(runs, analyst);
    ItemVisited(Arr(outputs), |outputs|, k);
    ChildVisited(Payload(request, runs, role).fields, 1, c);
  }

  // ----- a run in which an invented number is accepted -----

  /** A Claim nobody accepted, with a number and a source of its own. */
  function Foreign(source: Source): Binding { Binding("p", "t", ["7"], ["e"], [], [source], Some("z"), Fact) }

  /** Metadata with that Claim in a list under one key. */
  function Hidden(c: Binding): seq<Field> { [Field("notes", Obj([Field("validated_claims", Arr(Records([c])))]))] }

  /** What is left of that metadata in the accepted response: there were no scores. */
  function Smuggled(c: Binding): Json { Obj(Hidden(c) + [Field("score_metadata", Obj([]))]) }

  lemma HiddenIsSmuggled(c: Binding)
    ensures Obj(WithField(Hidden(c), "score_metadata", Obj([]))) == Smuggled(c)
  {
    assert |"notes"| == 5 && |"score_metadata"| == 14;
    assert Hidden(c)[1..] == [];
  }

  lemma SmuggledVisited(c: Binding, ok: Claimed)
    requires c.Valid() && c.claimId.Some? && ok(c)
    ensures c in Visited(Smuggled(c)) && Clean(Smuggled(c), ok) && Downstream(Smuggled(c)) == Smuggled(c)
  {
    var list, fields := [Field("validated_claims", Arr(Records([c])))], Hidden(c) + [Field("score_metadata", Obj([]))];
    CleanRecords([c], ok);
    CleanObj(list, ok);
    CleanObj([], ok);
    CleanObj(fields, ok);
    ListedMembers(Records([c]));
    assert Records([c])[0] in Records([c]);
    assert c in ListedClaims(Records([c]));
    assert Get(list, "validated_claims") == Arr(Records([c]));
    ChildVisited(fields, 0, c);
    NoRecordsToDrop(fields[0], fields[1]);
    assert fields == [fields[0], fields[1]];
  }

  lemma NoRecordsToDrop(f: Field, g: Field)
    requires |f.key| == 5 && |g.key| == 14
    ensures Downstream(Obj([f, g])) == Obj([f, g])
  {
    assert |"rejected_claims"| == 15;
    assert [f, g][1..] == [g] && [g][1..] == [];
    assert WithoutField([g], "rejected_claims") == [g] + [];
    assert WithoutField([f, g], "rejected_claims") == [f] + [g];
  }

  /** A manifest of one entry that stands under no canonical field path. */
  function Lone(source: Source): Manifest { [Entry("e", source, "x", [])] }

  lemma LongPaths(role: Role)
    requires role == FundamentalAnalyst
    ensures forall g, p :: g in GroupsOf(role) && p in g.paths ==> |p| > 1
  {}

  lemma LoneEntry(source: Source)
    ensures Entries(Lone(source)) == map["e" := Lone(source)[0]]
    ensures Uncanonical(Lone(source), GroupsOf(FundamentalAnalyst))
  {
    var m := Lone(source);
    assert ById(m, 1) == ById(m, 0)["e" := m[0]];
    LongPaths(FundamentalAnalyst);
    assert Before("x", ' ') == "x";
    assert ByFieldPath(m, 1) == ByFieldPath(m, 0)["x" := m[0]];
  }

  function Calls(first: RawOutput, fifth: RawOutput): Role -> Attempt {
    (role: Role) =>
      if role == FundamentalAnalyst then Attempt(Produced(first), None)
      else if role == ResearchManager then Attempt(Produced(fifth), None)
      else Attempt(CallFailed, None)
  }

  function BareRequest(source: Source): Request {
    Request((role: Role) => Lone(source), Null, (role: Role) => [], (role: Role) => [], (role: Role) => true)
  }

  /** Only the Fundamental Analyst delivered. */
  function OneAnalyst(out: Output): Runs {
    map[FundamentalAnalyst := Done(out), TechnicalTextAnalyst := Failed, SentimentAnalyst := Failed,
        NewsEventAnalyst := Failed]
  }

  lemma FourSteps(step: Coordinator.Step, out: Output)
    requires step(map[], FundamentalAnalyst) == Done(out)
    requires forall runs, role :: role in {TechnicalTextAnalyst, SentimentAnalyst, NewsEventAnalyst} ==>
      step(runs, role) == Failed
    ensures Replay(step, 4) == OneAnalyst(out)
  {
    assert Replay(step, 1) == map[FundamentalAnalyst := Done(out)];
    assert Replay(step, 2) == Replay(step, 1)[TechnicalTextAnalyst := Failed];
    assert Replay(step, 3) == Replay(step, 2)[SentimentAnalyst := Failed];
  }

  /** No other Claim in the payload has the foreign Claim's id. */
  lemma ForeignIsIndexed(source: Source, foreign: Source, out: Output)
    requires WellShaped(ShapeOf(FundamentalAnalyst), out) && LongIds(out.bindings)
    requires out.metadata == Smuggled(Foreign(foreign))
    ensures var upstream := UpstreamIndex(Payload(BareRequest(source), OneAnalyst(out), ResearchManager));
            "z" in upstream && upstream["z"] == Foreign(foreign)
  {
    var c, runs, request := Foreign(foreign), OneAnalyst(out), BareRequest(source);
    var ok: Claimed := (d: Binding) => d.claimId == Some("z") ==> d == c;
    SmuggledVisited(c, ok);
    assert RunsClean(runs, ok);
    PayloadClean(request, runs, ResearchManager, ok);
    MetadataReachesManagers(request, runs, 0, ResearchManager, c);
    IndexMembers(Visited(Payload(request, runs, ResearchManager)));
  }

  lemma SevenScans()
    ensures Literals("7") == ["7"]
  {
    WholeMatch("7");
  }

  lemma OneParent(c: Binding, foreign: Source)
    requires c.sources == [foreign]
    ensures ParentSources([c]) == [foreign]
  {
    assert SourcesOfClaims([c], 1) == SourcesOfClaims([c], 0) + [foreign] == [foreign];
    assert UniqueSources([foreign], 1) == [foreign];
  }

  lemma ForeignSupports(upstream: map<string, Binding>, foreign: Source)
    requires "z" in upstream && upstream["z"] == Foreign(foreign)
    ensures Responses.Supported(upstream, "7", ["z"]) && ParentSources(Lookups(upstream, ["z"])) == [foreign]
  {
    var c := Foreign(foreign);
    assert Lookups(upstream, ["z"]) == [c];
    OneParent(c, foreign);
    SevenScans();
    assert Carried("7", [c]) by { assert c in [c] && "7" in c.literals; }
  }

  /** The roots of that request: one source, and no fact at all. */
  function BareRoots(source: Source): Roots { Roots({}, {source}) }

  /** The first step: the Fundamental Analyst's response with the Claim list in its metadata is accepted. */
  lemma FirstStep(lang: Language, source: Source, foreign: Source) returns (first: RawOutput, out: Output)
    requires lang.patterns.identifiers("x") == [] && !Prohibited(lang.intent("x", false))
    ensures RunResult(lang, FundamentalAnalyst, Lone(source), Null, Attempt(Produced(first), None)) == Ok(out)
    ensures WellShaped(ShapeOf(FundamentalAnalyst), out) && LongIds(out.bindings)
    ensures out.metadata == Smuggled(Foreign(foreign))
  {
    var m := Lone(source);
    LoneEntry(source);
    first := FundamentalAccepts(lang, m, Null, "e", Hidden(Foreign(foreign)), ShapeOf(FundamentalAnalyst));
    HiddenIsSmuggled(Foreign(foreign));
    SingleDelivery(lang, FundamentalAnalyst, m, Null, first);
    AgentResultShaped(lang, FundamentalAnalyst, m, Null, first);
    out := AgentResult(lang, FundamentalAnalyst, m, Null, first).value;
  }

  /** The fifth step: the Research Manager's number and citation are accepted. */
  lemma FifthStep(lang: Language, source: Source, foreign: Source, out: Output) returns (fifth: RawOutput, b: Binding)
    requires WellShaped(ShapeOf(FundamentalAnalyst), out) && LongIds(out.bindings)
    requires out.metadata == Smuggled(Foreign(foreign))
    requires !Prohibited(lang.intent("7", false))
    ensures var r := RunResult(lang, ResearchManager, Lone(source),
                               Payload(BareRequest(source), OneAnalyst(out), ResearchManager),
                               Attempt(Produced(fifth), None));
            r.Ok? && b in r.value.bindings
    ensures b.text == "7" && b.literals == ["7"] && b.sources == [foreign]
  {
    var payload := Payload(BareRequest(source), OneAnalyst(out), ResearchManager);
    ForeignIsIndexed(source, foreign, out);
    ForeignSupports(UpstreamIndex(payload), foreign);
    SevenScans();
    fifth, b := ManagerAccepts(lang, ResearchManager, Lone(source), payload, "7", ["z"], ShapeOf(ResearchManager));
    SingleDelivery(lang, ResearchManager, Lone(source), payload, fifth);
  }

  lemma StepSucceeds(task: Task, runs: Runs, role: Role, out: Output)
    requires RunResult(task.lang, role, task.request.manifest(role), Payload(task.request, runs, role),
                       task.attempts(role)) == Ok(out)
    ensures StepOf(task)(runs, role) == Done(out)
  {}

  lemma StepFails(task: Task, runs: Runs, role: Role)
    requires task.attempts(role) == Attempt(CallFailed, None)
    ensures StepOf(task)(runs, role) == Failed
  {}

  lemma OthersFail(task: Task, first: RawOutput, fifth: RawOutput)
    requires task.attempts == Calls(first, fifth)
    ensures forall runs, role :: role in {TechnicalTextAnalyst, SentimentAnalyst, NewsEventAnalyst} ==>
      StepOf(task)(runs, role) == Failed
  {
    forall runs, role | role in {TechnicalTextAnalyst, SentimentAnalyst, NewsEventAnalyst}
      ensures StepOf(task)(runs, role) == Failed
    {
      StepFails(task, runs, role);
    }
  }

  lemma FirstFour(task: Task, lang: Language, source: Source, first: RawOutput, fifth: RawOutput, out: Output)
    requires task == Task(lang, BareRequest(source), Calls(first, fifth))
    requires RunResult(lang, FundamentalAnalyst, Lone(source), Null, Attempt(Produced(first), None)) == Ok(out)
    ensures Replay(StepOf(task), 4) == OneAnalyst(out)
  {
    StepSucceeds(task, map[], FundamentalAnalyst, out);
    OthersFail(task, first, fifth);
    FourSteps(StepOf(task), out);
  }

  /** The run of those two responses. */
  lemma RunOfCalls(task: Task, lang: Language, source: Source, first: RawOutput, fifth: RawOutput, out: Output,
                   last: Output)
    requires task == Task(lang, BareRequest(source), Calls(first, fifth))
    requires RunResult(lang, FundamentalAnalyst, Lone(source), Null, Attempt(Produced(first), None)) == Ok(out)
    requires RunResult(lang, ResearchManager, Lone(source),
                       Payload(BareRequest(source), OneAnalyst(out), ResearchManager),
                       Attempt(Produced(fifth), None)) == Ok(last)
    ensures ResearchManager in Replay(StepOf(task), 5) && Replay(StepOf(task), 5)[ResearchManager] == Done(last)
  {
    FirstFour(task, lang, source, first, fifth, out);
    StepSucceeds(task, OneAnalyst(out), ResearchManager, last);
    FifthReplay(StepOf(task), out);
  }

  lemma FifthReplay(step: Coordinator.Step, out: Output)
    requires Replay(step, 4) == OneAnalyst(out)
    ensures Replay(step, 5) == OneAnalyst(out)[ResearchManager := step(OneAnalyst(out), ResearchManager)]
  {}

  lemma BareCovers(source: Source)
    ensures Covers(BareRequest(source), BareRoots(source))
  {}

  /**
   The limit of the provenance theorem at an input.  The Fundamental Analyst returns two numberless
   Claims and a Claim list under one metadata key; the Research Manager then states the number and
   cites the source of that list, and is accepted, although no evidence holds the number.
   */
  lemma InventedNumberIsAccepted(lang: Language, source: Source, foreign: Source) returns (task: Task, b: Binding)
    requires lang.patterns.identifiers("x") == []
    requires !Prohibited(lang.intent("x", false)) && !Prohibited(lang.intent("7", false))
    ensures task.lang == lang && Covers(task.request, BareRoots(source))
    ensures var runs := Replay(StepOf(task), 5);
            && ResearchManager in runs && runs[ResearchManager].Done? && b in runs[ResearchManager].out.bindings
            && !RunRooted(runs[ResearchManager], BareRoots(source))
    ensures b.text == "7" && b.sources == [foreign]
  {
    var first, out := FirstStep(lang, source, foreign);
    var fifth;
    fifth, b := FifthStep(lang, source, foreign, out);
    var payload := Payload(BareRequest(source), OneAnalyst(out), ResearchManager);
    task := Task(lang, BareRequest(source), Calls(first, fifth));
    RunOfCalls(task, lang, source, first, fifth, out,
               RunResult(lang, ResearchManager, Lone(source), payload, Attempt(Produced(fifth), None)).value);
    BareCovers(source);
    NotBacked(b, source);
  }

  lemma NotBacked(b: Binding, source: Source)
    requires b.literals == ["7"]
    ensures !Faithful(b, BareRoots(source))
  {
    assert "7" in b.literals;
  }
}
