/** Strict validation of a role's response, and what the Claims it accepts rest on. */
module Validation {
  import opened Sequences
  import opened Scanner
  import opened Evidence
  import opened Json
  import opened Sections
  import opened Claims

  /** A response: its text lists, its bindings, and what stands beside them. */
  datatype Output = Output(lists: Lists, bindings: seq<Binding>, citations: seq<Source>,
                           uncertainties: seq<string>, metadata: Json)

  predicate WellShaped(shape: Shape, out: Output) {
    && HasSections(shape, out.lists)
    && (forall b :: b in out.bindings ==> b.Valid())
  }

  function Beside(out: Output): seq<Field> {
    [Field("uncertainties", Arr(Texts(out.uncertainties))),
     Field("claim_evidence", Arr(Records(out.bindings))),
     Field("metadata", out.metadata)]
  }

  function Top(agent: string): seq<Field> {
    [Field("agent_name", Text(agent)), Field("status", Text("ok"))]
  }

  function OutputJson(agent: string, shape: Shape, out: Output): Json
    requires WellShaped(shape, out)
  {
    ResponseJson(shape, out.lists, Beside(out), Top(agent))
  }

  /** Claim by claim, in order; the first failure is the failure of the whole. */
  function AcceptAll<T>(accept: T -> Result<Binding, AgentError>, items: seq<T>,
                        n: nat): Result<seq<Binding>, AgentError>
    requires n <= |items|
  {
    if n == 0 then Ok([])
    else match AcceptAll(accept, items, n - 1)
      case Err(e) => Err(e)
      case Ok(bs) =>
        match accept(items[n - 1])
        case Err(e) => Err(e)
        case Ok(b) => Ok(bs + [b])
  }

  lemma {:induction false} AcceptAllDecides<T>(accept: T -> Result<Binding, AgentError>, items: seq<T>, n: nat)
    requires n <= |items|
    ensures AcceptAll(accept, items, n).Ok? <==> forall i :: 0 <= i < n ==> accept(items[i]).Ok?
    ensures AcceptAll(accept, items, n).Ok? ==>
              && |AcceptAll(accept, items, n).value| == n
              && forall i :: 0 <= i < n ==> accept(items[i]) == Ok(AcceptAll(accept, items, n).value[i])
  {
    if n > 0 {
      AcceptAllDecides(accept, items, n - 1);
    }
  }

  lemma {:induction false} AcceptAllFails<T>(accept: T -> Result<Binding, AgentError>, items: seq<T>, i: nat, n: nat)
    requires i <= n <= |items| && AcceptAll(accept, items, i).Err?
    ensures AcceptAll(accept, items, n) == AcceptAll(accept, items, i)
    decreases n
  {
    if i < n {
      AcceptAllFails(accept, items, i, n - 1);
    }
  }

  method AcceptInOrder<T>(accept: T -> Result<Binding, AgentError>, items: seq<T>)
    returns (r: Result<seq<Binding>, AgentError>)
    ensures r == AcceptAll(accept, items, |items|)
  {
    var accepted := [];
    for i := 0 to |items|
      invariant AcceptAll(accept, items, i) == Ok(accepted)
    {
      match accept(items[i]) {
        case Err(e) =>
          AcceptAllFails(accept, items, i + 1, |items|);
          return Err(e);
        case Ok(b) => accepted := accepted + [b];
      }
    }
    r := Ok(accepted);
  }

  // ----- Analysts: exact bindings to the role's manifest -----

  predicate Cites(entries: map<string, Entry>, ids: seq<string>, literal: string) {
    exists id :: id in ids && id in entries && literal in entries[id].tokens
  }

  /** Every literal of the text is, verbatim, a token of a cited entry. */
  predicate ExactlySupported(entries: map<string, Entry>, ids: seq<string>, text: string) {
    forall literal :: literal in Literals(text) ==> Cites(entries, ids, literal)
  }

  function SourcesOf(entries: seq<Entry>): (r: seq<Source>)
    ensures |r| == |entries|
  {
    seq(|entries|, i requires 0 <= i < |entries| => entries[i].source)
  }

  predicate Mentions(path: string, marker: string) { exists i :: 0 <= i <= |path| && marker <= path[i..] }

  predicate IsAnalytical(path: string) {
    || Mentions(path, "key_points") || Mentions(path, "summary_points") || Mentions(path, "conflicts")
    || Mentions(path, "thesis") || Mentions(path, "conditions_required") || Mentions(path, "invalidators")
    || Mentions(path, "scenario_risks") || Mentions(path, "watch_items")
  }

  function PathIndex(bindings: seq<Binding>, n: nat): map<string, Binding>
    requires n <= |bindings|
  {
    if n == 0 then map[] else PathIndex(bindings, n - 1)[bindings[n - 1].path := bindings[n - 1]]
  }

  function ManifestBinding(lang: Language, agent: string, entries: map<string, Entry>, b: Binding,
                           path: string): Binding
    requires AllIn(b.evidenceIds, entries)
  {
    b.(claimId := if b.claimId.Some? then b.claimId else Some(agent + ":" + path),
       literals := Literals(b.text),
       intent := lang.intent(b.text, IsAnalytical(path)),
       sources := SourcesOf(Lookups(entries, b.evidenceIds)))
  }

  /** One text against the binding of its path; an accepted Claim needs at least one citation. */
  function AcceptManifestClaim(lang: Language, agent: string, entries: map<string, Entry>, b: Binding,
                               path: string, value: Json): Result<Binding, AgentError>
  {
    if !AllIn(b.evidenceIds, entries) then Err(CitationUnknown)
    else if value != Text(b.text) then Err(TextMismatch)
    else if !ExactlySupported(entries, b.evidenceIds, b.text) then Err(NumericAbsent)
    else if b.evidenceIds == [] then Err(SchemaError)
    else Ok(ManifestBinding(lang, agent, entries, b, path))
  }

  predicate KnownCitations(m: Manifest, citations: seq<Source>) {
    forall c :: c in citations ==> exists e :: e in m && CitationKey(e.source) == CitationKey(c)
  }

  function BindingPaths(bindings: seq<Binding>): (r: seq<string>)
    ensures |r| == |bindings|
  {
    seq(|bindings|, i requires 0 <= i < |bindings| => bindings[i].path)
  }

  /** Distinct paths that cover every text and otherwise only uncertainties. */
  predicate PathsMatch(shape: Shape, out: Output)
    requires WellShaped(shape, out)
  {
    var paths, texts := BindingPaths(out.bindings), TextPaths(shape, out.lists);
    && Distinct(paths)
    && (forall p :: p in texts ==> p in paths)
    && (forall p :: p in paths ==> p in texts || p in SectionPaths(shape, "uncertainties", |out.uncertainties|))
  }

  function ManifestAcceptor(lang: Language, agent: string, shape: Shape, m: Manifest, out: Output)
    : string -> Result<Binding, AgentError>
    requires WellShaped(shape, out)
  {
    var byPath := PathIndex(out.bindings, |out.bindings|);
    var j := OutputJson(agent, shape, out);
    (path: string) =>
      if path in byPath then
        AcceptManifestClaim(lang, agent, Entries(m), byPath[path], path, ValueAtIndexedPath(j, path))
      else Err(BindingMismatch)
  }

  function ManifestEvidence(lang: Language, agent: string, shape: Shape, m: Manifest, out: Output)
    : Result<seq<Binding>, AgentError>
    requires WellShaped(shape, out)
  {
    if !KnownCitations(m, out.citations) then Err(CitationUnknown)
    else if !PathsMatch(shape, out) then Err(BindingMismatch)
    else if exists b :: b in out.bindings && !AllIn(b.evidenceIds, Entries(m)) then Err(CitationUnknown)
    else
      var paths := TextPaths(shape, out.lists);
      AcceptAll(ManifestAcceptor(lang, agent, shape, m, out), paths, |paths|)
  }

  method BuildManifestEvidence(lang: Language, agent: string, shape: Shape, m: Manifest, out: Output)
    returns (r: Result<seq<Binding>, AgentError>)
    requires WellShaped(shape, out)
    ensures r == ManifestEvidence(lang, agent, shape, m, out)
  {
    if !KnownCitations(m, out.citations) {
      return Err(CitationUnknown);
    }
    if !PathsMatch(shape, out) {
      return Err(BindingMismatch);
    }
    if exists b :: b in out.bindings && !AllIn(b.evidenceIds, Entries(m)) {
      return Err(CitationUnknown);
    }
    r := AcceptInOrder(ManifestAcceptor(lang, agent, shape, m, out), TextPaths(shape, out.lists));
  }

  // ----- Managers: provenance through accepted upstream Claims -----

  function SourcesOfClaims(parents: seq<Binding>, n: nat): seq<Source>
    requires n <= |parents|
  {
    if n == 0 then [] else SourcesOfClaims(parents, n - 1) + parents[n - 1].sources
  }

  /** The first source of each citation key among the first `n`, in order. */
  function UniqueSources(sources: seq<Source>, n: nat): seq<Source>
    requires n <= |sources|
  {
    if n == 0 then []
    else
      var before, s := UniqueSources(sources, n - 1), sources[n - 1];
      if exists t :: t in before && CitationKey(t) == CitationKey(s) then before else before + [s]
  }

  function ParentSources(parents: seq<Binding>): seq<Source> {
    var all := SourcesOfClaims(parents, |parents|);
    UniqueSources(all, |all|)
  }

  function AcceptUpstreamClaim(lang: Language, upstream: map<string, Binding>, b: Binding, value: Json)
    : Result<Binding, AgentError>
  {
    if value != Text(b.text) then Err(TextMismatch)
    else if b.evidenceIds != [] || b.upstreamIds == [] then Err(ProvenanceMissing)
    else if !AllIn(b.upstreamIds, upstream) then Err(ProvenanceMissing)
    else
      var parents := Lookups(upstream, b.upstreamIds);
      if !Inherited(Literals(b.text), parents) then Err(NumericAbsent)
      else if ParentSources(parents) == [] then Err(ProvenanceMissing)
      else Ok(b.(literals := Literals(b.text), sources := ParentSources(parents), intent := lang.intent(b.text, true)))
  }

  function UpstreamAcceptor(lang: Language, agent: string, shape: Shape, upstream: map<string, Binding>, out: Output)
    : Binding -> Result<Binding, AgentError>
    requires WellShaped(shape, out)
  {
    var j := OutputJson(agent, shape, out);
    (b: Binding) => AcceptUpstreamClaim(lang, upstream, b, ValueAtIndexedPath(j, b.path))
  }

  function UpstreamEvidence(lang: Language, agent: string, shape: Shape, upstream: map<string, Binding>, out: Output)
    : Result<seq<Binding>, AgentError>
    requires WellShaped(shape, out)
  {
    if |out.bindings| != |TextPaths(shape, out.lists)| then Err(BindingMismatch)
    else AcceptAll(UpstreamAcceptor(lang, agent, shape, upstream, out), out.bindings, |out.bindings|)
  }

  method BuildUpstreamClaimEvidence(lang: Language, agent: string, shape: Shape, payload: Json, out: Output)
    returns (r: Result<seq<Binding>, AgentError>)
    requires WellShaped(shape, out)
    ensures r == UpstreamEvidence(lang, agent, shape, UpstreamIndex(payload), out)
  {
    var upstream := UpstreamClaimIndex(payload);
    if |out.bindings| != |TextPaths(shape, out.lists)| {
      return Err(BindingMismatch);
    }
    r := AcceptInOrder(UpstreamAcceptor(lang, agent, shape, upstream, out), out.bindings);
  }

  // ----- citation keys of derived Claims -----

  predicate Carries(sources: seq<Source>, key: Key) { exists s :: s in sources && CitationKey(s) == key }

  lemma {:induction false} UniqueSourcesCarry(sources: seq<Source>, n: nat, key: Key)
    requires n <= |sources|
    ensures Carries(UniqueSources(sources, n), key) <==> Carries(sources[..n], key)
  {
    if n > 0 {
      UniqueSourcesCarry(sources, n - 1, key);
      UniqueSourcesCarry(sources, n - 1, CitationKey(sources[n - 1]));
      assert sources[..n] == sources[..n - 1] + [sources[n - 1]];
    }
  }

  lemma {:induction false} SourcesOfClaimsCarry(parents: seq<Binding>, n: nat, key: Key)
    requires n <= |parents|
    ensures Carries(SourcesOfClaims(parents, n), key) <==> exists i :: 0 <= i < n && Carries(parents[i].sources, key)
  {
    if n > 0 {
      SourcesOfClaimsCarry(parents, n - 1, key);
    }
  }

  /** A derived Claim carries the citation keys of its parents, all of them and no others. */
  lemma ParentSourcesCarry(parents: seq<Binding>, key: Key)
    ensures Carries(ParentSources(parents), key) <==> exists i :: 0 <= i < |parents| && Carries(parents[i].sources, key)
  {
    var all := SourcesOfClaims(parents, |parents|);
    UniqueSourcesCarry(all, |all|, key);
    assert all[..|all|] == all;
    SourcesOfClaimsCarry(parents, |parents|, key);
  }

  // ----- provenance of accepted Claims -----

  /**
   Where accepted Claims come from: the sources, and the facts, each a literal together with the key
   of a source that states it.
   */
  datatype Roots = Roots(facts: set<(string, Key)>, sources: set<Source>)

  /** Some of the sources states the literal. */
  predicate Backed(literal: string, sources: seq<Source>, roots: Roots) {
    exists s :: s in sources && (literal, CitationKey(s)) in roots.facts
  }

  /** A Claim has sources, all from the roots, and each of its literals is stated by one of them. */
  predicate Rooted(b: Binding, roots: Roots) {
    && b.sources != []
    && (forall s :: s in b.sources ==> s in roots.sources)
    && (forall literal :: literal in b.literals ==> Backed(literal, b.sources, roots))
  }

  predicate AllRooted(bs: seq<Binding>, roots: Roots) { forall b :: b in bs ==> Rooted(b, roots) }

  /** An accepted Claim is rooted, and its literals are all the numbers of its text. */
  predicate Faithful(b: Binding, roots: Roots) { Rooted(b, roots) && b.literals == Literals(b.text) }

  predicate AllFaithful(bs: seq<Binding>, roots: Roots) { forall b :: b in bs ==> Faithful(b, roots) }

  /** The facts and sources of a manifest are among the roots. */
  predicate RootsCover(m: Manifest, roots: Roots) {
    forall e :: e in m ==> e.source in roots.sources && forall t :: t in e.tokens ==>
      (t, CitationKey(e.source)) in roots.facts
  }

  lemma ManifestClaimFaithful(lang: Language, agent: string, m: Manifest, b: Binding, path: string, value: Json,
                              roots: Roots)
    requires RootsCover(m, roots) && AcceptManifestClaim(lang, agent, Entries(m), b, path, value).Ok?
    ensures Faithful(AcceptManifestClaim(lang, agent, Entries(m), b, path, value).value, roots)
  {
    ByIdMembers(m, |m|);
    var entries := Lookups(Entries(m), b.evidenceIds);
    assert forall i :: 0 <= i < |entries| ==> b.evidenceIds[i] in b.evidenceIds && entries[i] in m;
    forall literal | literal in Literals(b.text) ensures Backed(literal, SourcesOf(entries), roots) {
      var id :| id in b.evidenceIds && id in Entries(m) && literal in Entries(m)[id].tokens;
      var i :| 0 <= i < |b.evidenceIds| && b.evidenceIds[i] == id;
      assert SourcesOf(entries)[i] == Entries(m)[id].source;
    }
  }

  /** Everything an Analyst accepts comes from its manifest, whatever the response was. */
  lemma ManifestEvidenceRooted(lang: Language, agent: string, shape: Shape, m: Manifest, out: Output, roots: Roots)
    requires WellShaped(shape, out) && RootsCover(m, roots)
    requires ManifestEvidence(lang, agent, shape, m, out).Ok?
    ensures AllFaithful(ManifestEvidence(lang, agent, shape, m, out).value, roots)
  {
    var accept, paths := ManifestAcceptor(lang, agent, shape, m, out), TextPaths(shape, out.lists);
    var byPath := PathIndex(out.bindings, |out.bindings|);
    AcceptAllDecides(accept, paths, |paths|);
    forall i | 0 <= i < |paths| ensures Faithful(accept(paths[i]).value, roots) {
      ManifestClaimFaithful(lang, agent, m, byPath[paths[i]], paths[i],
                            ValueAtIndexedPath(OutputJson(agent, shape, out), paths[i]), roots);
    }
  }

  lemma {:induction false} UniqueSourcesMembers(sources: seq<Source>, n: nat)
    requires n <= |sources|
    ensures forall s :: s in UniqueSources(sources, n) ==> s in sources
  {
    if n > 0 {
      UniqueSourcesMembers(sources, n - 1);
    }
  }

  lemma {:induction false} SourcesOfClaimsMembers(parents: seq<Binding>, n: nat)
    requires n <= |parents|
    ensures forall s :: s in SourcesOfClaims(parents, n) ==> exists p :: p in parents && s in p.sources
  {
    if n > 0 {
      SourcesOfClaimsMembers(parents, n - 1);
    }
  }

  /** What backs a parent's literal backs the same literal in the derived Claim. */
  lemma InheritedIsBacked(parents: seq<Binding>, literal: string, roots: Roots)
    requires AllRooted(parents, roots) && Carried(literal, parents)
    ensures Backed(literal, ParentSources(parents), roots)
  {
    var p :| p in parents && literal in p.literals;
    var i :| 0 <= i < |parents| && parents[i] == p;
    var s :| s in p.sources && (literal, CitationKey(s)) in roots.facts;
    ParentSourcesCarry(parents, CitationKey(s));
    assert Carries(parents[i].sources, CitationKey(s));
  }

  lemma UpstreamClaimFaithful(lang: Language, upstream: map<string, Binding>, b: Binding, value: Json, roots: Roots)
    requires forall id :: id in upstream ==> Rooted(upstream[id], roots)
    requires AcceptUpstreamClaim(lang, upstream, b, value).Ok?
    ensures Faithful(AcceptUpstreamClaim(lang, upstream, b, value).value, roots)
  {
    var parents := Lookups(upstream, b.upstreamIds);
    LookupsMembers(upstream, b.upstreamIds);
    var all := SourcesOfClaims(parents, |parents|);
    UniqueSourcesMembers(all, |all|);
    SourcesOfClaimsMembers(parents, |parents|);
    forall literal | literal in Literals(b.text) ensures Backed(literal, ParentSources(parents), roots) {
      InheritedIsBacked(parents, literal, roots);
    }
  }

  /** Everything a Manager accepts comes from the Claims its payload indexes. */
  lemma UpstreamEvidenceRooted(lang: Language, agent: string, shape: Shape, upstream: map<string, Binding>, out: Output,
                               roots: Roots)
    requires WellShaped(shape, out) && forall id :: id in upstream ==> Rooted(upstream[id], roots)
    requires UpstreamEvidence(lang, agent, shape, upstream, out).Ok?
    ensures AllFaithful(UpstreamEvidence(lang, agent, shape, upstream, out).value, roots)
  {
    var accept := UpstreamAcceptor(lang, agent, shape, upstream, out);
    AcceptAllDecides(accept, out.bindings, |out.bindings|);
    forall i | 0 <= i < |out.bindings| ensures Faithful(accept(out.bindings[i]).value, roots) {
      UpstreamClaimFaithful(lang, upstream, out.bindings[i],
                            ValueAtIndexedPath(OutputJson(agent, shape, out), out.bindings[i].path), roots);
    }
  }

  // ----- regrouped responses -----

  function Regrouped(shape: Shape, complete: Completion, claims: seq<Binding>, uncertainties: seq<string>,
                     metadata: Json): Output
  {
    Output(SectionLists(shape.sections, NamingOf(shape), claims),
           Rebound(NamingOf(shape), complete, claims, |claims|), [], uncertainties, metadata)
  }

  /** A completion gives a Claim its new path and a usable id, and leaves its text and route alone. */
  ghost predicate Completes(shape: Shape, complete: Completion) {
    && Relocates(shape, complete)
    && forall c: Binding, section, i :: c.Valid() ==>
         && complete(c, section, i).Valid()
         && complete(c, section, i).evidenceIds == c.evidenceIds
         && complete(c, section, i).upstreamIds == c.upstreamIds
  }

  lemma RegroupedAddressed(agent: string, shape: Shape, complete: Completion, claims: seq<Binding>,
                           uncertainties: seq<string>, metadata: Json)
    requires shape.Valid() && Completes(shape, complete) && AllLegal(shape, claims)
    requires forall c :: c in claims ==> c.Valid()
    ensures var out := Regrouped(shape, complete, claims, uncertainties, metadata);
            && WellShaped(shape, out)
            && Addressed(shape, out.lists, out.bindings, Beside(out), Top(agent))
  {
    var out := Regrouped(shape, complete, claims, uncertainties, metadata);
    forall i | 0 <= i < |claims| ensures out.bindings[i].Valid() {
      ReboundAt(NamingOf(shape), complete, claims, |claims|, i);
      assert claims[i] in claims;
    }
    RegroupingRoundTrip(shape, complete, claims, Beside(out), Top(agent));
  }

  lemma {:induction false} PathIndexAt(bindings: seq<Binding>, n: nat, i: nat)
    requires i < n <= |bindings| && Distinct(BindingPaths(bindings))
    ensures bindings[i].path in PathIndex(bindings, n) && PathIndex(bindings, n)[bindings[i].path] == bindings[i]
    decreases n
  {
    if i < n - 1 {
      PathIndexAt(bindings, n - 1, i);
      assert BindingPaths(bindings)[i] != BindingPaths(bindings)[n - 1];
    }
  }

  /** What the strict validator demands of one Analyst Claim, read off the Claim alone. */
  predicate ExactClaim(m: Manifest, c: Binding) {
    && c.evidenceIds != []
    && AllIn(c.evidenceIds, Entries(m))
    && ExactlySupported(Entries(m), c.evidenceIds, c.text)
  }

  lemma BindingsCover(bindings: seq<Binding>, texts: seq<string>)
    requires forall b :: b in bindings ==> b.path in texts
    requires forall path :: path in texts ==> exists b :: b in bindings && b.path == path
    ensures forall p :: p in BindingPaths(bindings) <==> p in texts
  {
    var paths := BindingPaths(bindings);
    forall p | p in paths ensures p in texts {
      var i :| 0 <= i < |paths| && paths[i] == p;
      assert bindings[i] in bindings;
    }
    forall p | p in texts ensures p in paths {
      var b :| b in bindings && b.path == p;
      var i :| 0 <= i < |bindings| && bindings[i] == b;
      assert paths[i] == p;
    }
  }

  lemma AddressedPathsMatch(agent: string, shape: Shape, out: Output)
    requires WellShaped(shape, out)
    requires Addressed(shape, out.lists, out.bindings, Beside(out), Top(agent))
    ensures PathsMatch(shape, out)
  {
    BindingsCover(out.bindings, TextPaths(shape, out.lists));
  }

  lemma AddressedText(agent: string, shape: Shape, out: Output, i: nat)
    requires WellShaped(shape, out) && i < |out.bindings|
    requires Addressed(shape, out.lists, out.bindings, Beside(out), Top(agent))
    ensures ValueAtIndexedPath(OutputJson(agent, shape, out), out.bindings[i].path) == Text(out.bindings[i].text)
  {
    assert out.bindings[i] in out.bindings;
  }

  lemma AddressedAcceptance(lang: Language, agent: string, shape: Shape, m: Manifest, out: Output, i: nat)
    requires WellShaped(shape, out) && i < |out.bindings| && Distinct(BindingPaths(out.bindings))
    requires ValueAtIndexedPath(OutputJson(agent, shape, out), out.bindings[i].path) == Text(out.bindings[i].text)
    ensures ManifestAcceptor(lang, agent, shape, m, out)(out.bindings[i].path).Ok? <==> ExactClaim(m, out.bindings[i])
  {
    PathIndexAt(out.bindings, |out.bindings|, i);
  }

  /** In an addressed response, texts and bindings correspond. */
  lemma AddressedPaths(agent: string, shape: Shape, out: Output, accept: string -> Result<Binding, AgentError>)
    requires WellShaped(shape, out)
    requires Addressed(shape, out.lists, out.bindings, Beside(out), Top(agent))
    ensures var paths := TextPaths(shape, out.lists);
            AcceptAll(accept, paths, |paths|).Ok? <==>
            forall i :: 0 <= i < |out.bindings| ==> accept(out.bindings[i].path).Ok?
  {
    var paths := TextPaths(shape, out.lists);
    AcceptAllDecides(accept, paths, |paths|);
    forall k | 0 <= k < |paths|
      ensures exists i :: 0 <= i < |out.bindings| && out.bindings[i].path == paths[k]
    {
      assert paths[k] in paths;
      var b :| b in out.bindings && b.path == paths[k];
    }
    forall i | 0 <= i < |out.bindings|
      ensures exists k :: 0 <= k < |paths| && paths[k] == out.bindings[i].path
    {
      assert out.bindings[i] in out.bindings;
    }
  }

  /** With matching paths and no citations of its own, a response is judged text by text. */
  lemma JudgedByText(lang: Language, agent: string, shape: Shape, m: Manifest, out: Output)
    requires WellShaped(shape, out) && out.citations == [] && PathsMatch(shape, out)
    ensures var paths := TextPaths(shape, out.lists);
            ManifestEvidence(lang, agent, shape, m, out).Ok? <==>
              && (forall i :: 0 <= i < |out.bindings| ==> AllIn(out.bindings[i].evidenceIds, Entries(m)))
              && AcceptAll(ManifestAcceptor(lang, agent, shape, m, out), paths, |paths|).Ok?
  {
    if b :| b in out.bindings && !AllIn(b.evidenceIds, Entries(m)) {
      var i :| 0 <= i < |out.bindings| && out.bindings[i] == b;
    }
  }

  /** On an addressed response only the evidence of each binding matters. */
  lemma AddressedStrict(lang: Language, agent: string, shape: Shape, m: Manifest, out: Output)
    requires WellShaped(shape, out) && out.citations == []
    requires Addressed(shape, out.lists, out.bindings, Beside(out), Top(agent))
    ensures ManifestEvidence(lang, agent, shape, m, out).Ok? <==>
              forall i :: 0 <= i < |out.bindings| ==> ExactClaim(m, out.bindings[i])
  {
    AddressedPathsMatch(agent, shape, out);
    JudgedByText(lang, agent, shape, m, out);
    AddressedPaths(agent, shape, out, ManifestAcceptor(lang, agent, shape, m, out));
    forall i | 0 <= i < |out.bindings|
      ensures ManifestAcceptor(lang, agent, shape, m, out)(out.bindings[i].path).Ok? <==> ExactClaim(m, out.bindings[i])
    {
      AddressedText(agent, shape, out, i);
      AddressedAcceptance(lang, agent, shape, m, out, i);
    }
  }

  lemma ReboundExact(shape: Shape, complete: Completion, m: Manifest, claims: seq<Binding>, i: nat)
    requires Completes(shape, complete) && i < |claims| && claims[i].Valid()
    ensures ExactClaim(m, Rebound(NamingOf(shape), complete, claims, |claims|)[i]) <==> ExactClaim(m, claims[i])
  {
    ReboundAt(NamingOf(shape), complete, claims, |claims|, i);
  }

  /**
   The strict validator accepts a regrouped Analyst response exactly when every Claim cites known
   entries that carry all its literals verbatim: its path and text checks cannot fire.
   */
  lemma StrictAcceptsExactClaims(lang: Language, agent: string, shape: Shape, complete: Completion, m: Manifest,
                                 claims: seq<Binding>, uncertainties: seq<string>, metadata: Json)
    requires shape.Valid() && Completes(shape, complete) && AllLegal(shape, claims)
    requires forall c :: c in claims ==> c.Valid()
    ensures var out := Regrouped(shape, complete, claims, uncertainties, metadata);
            && WellShaped(shape, out)
            && (ManifestEvidence(lang, agent, shape, m, out).Ok? <==>
                  forall i :: 0 <= i < |claims| ==> ExactClaim(m, claims[i]))
  {
    var out := Regrouped(shape, complete, claims, uncertainties, metadata);
    RegroupedAddressed(agent, shape, complete, claims, uncertainties, metadata);
    AddressedStrict(lang, agent, shape, m, out);
    forall i | 0 <= i < |claims| ensures ExactClaim(m, out.bindings[i]) <==> ExactClaim(m, claims[i]) {
      assert claims[i] in claims;
      ReboundExact(shape, complete, m, claims, i);
    }
  }

  /** What the strict validator demands of one Manager Claim, read off the Claim and its parents. */
  predicate DerivedClaim(upstream: map<string, Binding>, c: Binding) {
    && c.evidenceIds == [] && c.upstreamIds != []
    && AllIn(c.upstreamIds, upstream)
    && Inherited(Literals(c.text), Lookups(upstream, c.upstreamIds))
    && ParentSources(Lookups(upstream, c.upstreamIds)) != []
  }

  lemma UpstreamAcceptance(lang: Language, agent: string, shape: Shape, upstream: map<string, Binding>, out: Output,
                           i: nat, c: Binding)
    requires WellShaped(shape, out) && i < |out.bindings|
    requires Addressed(shape, out.lists, out.bindings, Beside(out), Top(agent))
    requires var b := out.bindings[i];
             b.text == c.text && b.evidenceIds == c.evidenceIds && b.upstreamIds == c.upstreamIds
    ensures UpstreamAcceptor(lang, agent, shape, upstream, out)(out.bindings[i]).Ok? <==> DerivedClaim(upstream, c)
  {
    AddressedText(agent, shape, out, i);
  }

  /**
   The strict validator accepts a regrouped Manager response exactly when every Claim derives from
   known Claims that carry all its literals and have sources.
   */
  lemma StrictAcceptsDerivedClaims(lang: Language, agent: string, shape: Shape, complete: Completion,
                                   upstream: map<string, Binding>, claims: seq<Binding>,
                                   uncertainties: seq<string>, metadata: Json)
    requires shape.Valid() && Completes(shape, complete) && AllLegal(shape, claims)
    requires forall c :: c in claims ==> c.Valid()
    ensures var out := Regrouped(shape, complete, claims, uncertainties, metadata);
            && WellShaped(shape, out)
            && (UpstreamEvidence(lang, agent, shape, upstream, out).Ok? <==>
                  forall i :: 0 <= i < |claims| ==> DerivedClaim(upstream, claims[i]))
  {
    var out := Regrouped(shape, complete, claims, uncertainties, metadata);
    RegroupedAddressed(agent, shape, complete, claims, uncertainties, metadata);
    OneTextPerClaim(shape, claims);
    var accept := UpstreamAcceptor(lang, agent, shape, upstream, out);
    AcceptAllDecides(accept, out.bindings, |out.bindings|);
    forall i | 0 <= i < |claims| ensures accept(out.bindings[i]).Ok? <==> DerivedClaim(upstream, claims[i]) {
      assert claims[i] in claims;
      ReboundAt(NamingOf(shape), complete, claims, |claims|, i);
      UpstreamAcceptance(lang, agent, shape, upstream, out, i, claims[i]);
    }
  }

  lemma SomeParentSource(parents: seq<Binding>)
    requires parents != [] && forall p :: p in parents ==> p.sources != []
    ensures ParentSources(parents) != []
  {
    var all := SourcesOfClaims(parents, |parents|);
    assert parents[|parents| - 1] in parents;
    assert all != [];
    SomeUniqueSource(all, |all|);
  }

  lemma {:induction false} SomeUniqueSource(sources: seq<Source>, n: nat)
    requires 0 < n <= |sources|
    ensures UniqueSources(sources, n) != []
  {
    if n > 1 {
      SomeUniqueSource(sources, n - 1);
    }
  }

  /** A Manager Claim that survives quarantine is also accepted strictly, when its parents have sources. */
  lemma KeptManagerClaimIsDerived(lang: Language, upstream: map<string, Binding>, item: Json)
    requires UpstreamVerdict(lang, upstream, item).Keep?
    requires forall id :: id in upstream ==> upstream[id].sources != []
    ensures DerivedClaim(upstream, UpstreamVerdict(lang, upstream, item).claim)
  {
    var c := UpstreamVerdict(lang, upstream, item).claim;
    var parents := Lookups(upstream, c.upstreamIds);
    FirstNewDecides(Literals(c.text), parents);
    LookupsMembers(upstream, c.upstreamIds);
    SomeParentSource(parents);
  }

  // ----- accepted bindings satisfy the Claim schema again -----

  lemma {:induction false} PathIndexMembers(bindings: seq<Binding>, n: nat)
    requires n <= |bindings|
    ensures forall p :: p in PathIndex(bindings, n) ==> PathIndex(bindings, n)[p] in bindings
  {
    if n > 0 {
      PathIndexMembers(bindings, n - 1);
    }
  }

  lemma LiteralsAreDistinct(text: string)
    ensures Distinct(Literals(text))
  {
    DedupElements(Stripped(Tokens(text)));
  }

  lemma ManifestEvidenceValid(lang: Language, agent: string, shape: Shape, m: Manifest, out: Output)
    requires WellShaped(shape, out) && agent != "" && ManifestEvidence(lang, agent, shape, m, out).Ok?
    ensures forall b :: b in ManifestEvidence(lang, agent, shape, m, out).value ==> b.Valid()
  {
    var accept, paths := ManifestAcceptor(lang, agent, shape, m, out), TextPaths(shape, out.lists);
    AcceptAllDecides(accept, paths, |paths|);
    PathIndexMembers(out.bindings, |out.bindings|);
    forall i | 0 <= i < |paths| ensures accept(paths[i]).value.Valid() {
      LiteralsAreDistinct(PathIndex(out.bindings, |out.bindings|)[paths[i]].text);
    }
  }

  lemma UpstreamClaimValid(lang: Language, upstream: map<string, Binding>, b: Binding, value: Json)
    requires b.Valid() && AcceptUpstreamClaim(lang, upstream, b, value).Ok?
    ensures AcceptUpstreamClaim(lang, upstream, b, value).value.Valid()
  {
    LiteralsAreDistinct(b.text);
  }

  lemma UpstreamEvidenceValid(lang: Language, agent: string, shape: Shape, upstream: map<string, Binding>, out: Output)
    requires WellShaped(shape, out) && UpstreamEvidence(lang, agent, shape, upstream, out).Ok?
    ensures forall b :: b in UpstreamEvidence(lang, agent, shape, upstream, out).value ==> b.Valid()
  {
    var accept := UpstreamAcceptor(lang, agent, shape, upstream, out);
    AcceptAllDecides(accept, out.bindings, |out.bindings|);
    forall i | 0 <= i < |out.bindings| ensures accept(out.bindings[i]).value.Valid() {
      assert out.bindings[i] in out.bindings;
      UpstreamClaimValid(lang, upstream, out.bindings[i],
                         ValueAtIndexedPath(OutputJson(agent, shape, out), out.bindings[i].path));
    }
  }
}
