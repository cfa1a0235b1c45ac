/**
 Claim ids through an Agent: an accepted response keeps the ids that its Claims have after regrouping,
 so a model that writes one id twice is accepted, and the contract of the next Manager then refuses
 the whole task.
 */
module RepeatedIds {
  import opened Sequences
  import opened Evidence
  import opened Json
  import opened Sections
  import opened Claims
  import opened Validation
  import opened Roles
  import opened Canonical
  import opened Agents
  import opened Responses
  import opened Coordinator
  import opened Outcomes
  import opened Provenance

  // ----- the ids of an accepted response -----

  lemma CrossSections(shape: Shape, lists: Lists, k: nat, path: string, i: nat)
    requires shape.Valid() && HasSections(shape, lists) && k < |shape.sections|
    requires IsTextPath(shape, lists, path, k)
    ensures path != shape.Path(shape.sections[k], i)
  {
    var j, x :| 0 <= j < k && 0 <= x < |lists[shape.sections[j]]| && path == shape.Path(shape.sections[j], x);
    if path == shape.Path(shape.sections[k], i) {
      PathInjective(shape, shape.sections[j], x, shape.sections[k], i);
    }
  }

  lemma SectionPathsDistinct(shape: Shape, section: string, n: nat)
    requires shape.Valid() && section in shape.sections
    ensures Distinct(SectionPaths(shape, section, n))
  {
    forall i, j | 0 <= i < j < n ensures shape.Path(section, i) != shape.Path(section, j) {
      if shape.Path(section, i) == shape.Path(section, j) {
        PathInjective(shape, section, i, section, j);
      }
    }
  }

  lemma DistinctConcat<T>(a: seq<T>, b: seq<T>)
    requires Distinct(a) && Distinct(b) && forall x :: x in a ==> x !in b
    ensures Distinct(a + b)
  {
    forall i, j | 0 <= i < j < |a + b| ensures (a + b)[i] != (a + b)[j] {
      if i < |a| <= j {
        assert a[i] in a && b[j - |a|] in b;
      }
    }
  }

  lemma {:induction false} TextPathsDistinct(shape: Shape, lists: Lists, k: nat)
    requires shape.Valid() && HasSections(shape, lists) && k <= |shape.sections|
    ensures Distinct(PathsUpTo(shape, lists, k))
  {
    if k > 0 {
      var before, section := PathsUpTo(shape, lists, k - 1), shape.sections[k - 1];
      var new_ := SectionPaths(shape, section, |lists[section]|);
      TextPathsDistinct(shape, lists, k - 1);
      SectionPathsDistinct(shape, section, |lists[section]|);
      forall path | path in before ensures path !in new_ {
        PathsUpToMembers(shape, lists, k - 1, path);
        forall i | 0 <= i < |new_| ensures new_[i] != path {
          CrossSections(shape, lists, k - 1, path, i);
        }
      }
      DistinctConcat(before, new_);
    }
  }

  predicate Identified(bs: seq<Binding>) { forall b :: b in bs ==> b.claimId.Some? }

  /** The list has a Claim with the same path and the same id. */
  predicate HasTwin(c: Binding, bs: seq<Binding>) {
    exists j :: 0 <= j < |bs| && bs[j].path == c.path && bs[j].claimId == c.claimId
  }

  predicate AllHaveTwins(cs: seq<Binding>, bs: seq<Binding>) { forall i :: 0 <= i < |cs| ==> HasTwin(cs[i], bs) }

  lemma DistinctIdsCarryOver(a: seq<Binding>, b: seq<Binding>)
    requires Distinct(BindingPaths(a)) && AllHaveTwins(a, b) && Distinct(ClaimIds(b))
    ensures Distinct(ClaimIds(a))
  {
    forall i, k | 0 <= i < k < |a| ensures a[i].claimId != a[k].claimId {
      var j :| 0 <= j < |b| && b[j].path == a[i].path && b[j].claimId == a[i].claimId;
      var l :| 0 <= l < |b| && b[l].path == a[k].path && b[l].claimId == a[k].claimId;
      assert BindingPaths(a)[i] != BindingPaths(a)[k];
      assert ClaimIds(b)[j] != ClaimIds(b)[l];
    }
  }

  lemma AcceptedKeepsId(lang: Language, agent: string, entries: map<string, Entry>, b: Binding, path: string,
                        value: Json)
    requires AcceptManifestClaim(lang, agent, entries, b, path, value).Ok? && b.claimId.Some?
    ensures var c := AcceptManifestClaim(lang, agent, entries, b, path, value).value;
            c.claimId == b.claimId && c.path == b.path
  {}

  /** The accepted Claim of a text has the id of the binding under the text's path. */
  lemma AcceptedAt(lang: Language, agent: string, shape: Shape, m: Manifest, out: Output, i: nat, j: nat)
    requires WellShaped(shape, out) && Distinct(BindingPaths(out.bindings)) && Identified(out.bindings)
    requires ManifestEvidence(lang, agent, shape, m, out).Ok?
    requires i < |TextPaths(shape, out.lists)| && j < |out.bindings|
    requires out.bindings[j].path == TextPaths(shape, out.lists)[i]
    ensures var accepted := ManifestEvidence(lang, agent, shape, m, out).value;
            && |accepted| == |TextPaths(shape, out.lists)|
            && accepted[i].path == out.bindings[j].path && accepted[i].claimId == out.bindings[j].claimId
  {
    var accept, paths := ManifestAcceptor(lang, agent, shape, m, out), TextPaths(shape, out.lists);
    AcceptAllDecides(accept, paths, |paths|);
    PathIndexAt(out.bindings, |out.bindings|, j);
    assert out.bindings[j] in out.bindings;
    AcceptedKeepsId(lang, agent, Entries(m), out.bindings[j], paths[i],
                    ValueAtIndexedPath(OutputJson(agent, shape, out), paths[i]));
  }

  lemma AddressedDistinct(agent: string, shape: Shape, out: Output)
    requires WellShaped(shape, out) && Addressed(shape, out.lists, out.bindings, Beside(out), Top(agent))
    ensures Distinct(BindingPaths(out.bindings))
  {}

  lemma AcceptedCount(lang: Language, agent: string, shape: Shape, m: Manifest, out: Output)
    requires WellShaped(shape, out) && ManifestEvidence(lang, agent, shape, m, out).Ok?
    ensures |ManifestEvidence(lang, agent, shape, m, out).value| == |TextPaths(shape, out.lists)|
  {
    AcceptAllDecides(ManifestAcceptor(lang, agent, shape, m, out), TextPaths(shape, out.lists),
                     |TextPaths(shape, out.lists)|);
  }

  lemma BindingOfText(agent: string, shape: Shape, out: Output, i: nat) returns (j: nat)
    requires WellShaped(shape, out) && i < |TextPaths(shape, out.lists)|
    requires Addressed(shape, out.lists, out.bindings, Beside(out), Top(agent))
    ensures j < |out.bindings| && out.bindings[j].path == TextPaths(shape, out.lists)[i]
  {
    assert TextPaths(shape, out.lists)[i] in TextPaths(shape, out.lists);
    var b :| b in out.bindings && b.path == TextPaths(shape, out.lists)[i];
    j :| 0 <= j < |out.bindings| && out.bindings[j] == b;
  }

  lemma TextOfBinding(agent: string, shape: Shape, out: Output, j: nat) returns (i: nat)
    requires WellShaped(shape, out) && j < |out.bindings|
    requires Addressed(shape, out.lists, out.bindings, Beside(out), Top(agent))
    ensures i < |TextPaths(shape, out.lists)| && out.bindings[j].path == TextPaths(shape, out.lists)[i]
  {
    assert out.bindings[j] in out.bindings;
    i :| 0 <= i < |TextPaths(shape, out.lists)| && TextPaths(shape, out.lists)[i] == out.bindings[j].path;
  }

  lemma AcceptedHasTwin(lang: Language, agent: string, shape: Shape, m: Manifest, out: Output, i: nat)
    requires WellShaped(shape, out) && Identified(out.bindings) && i < |TextPaths(shape, out.lists)|
    requires Addressed(shape, out.lists, out.bindings, Beside(out), Top(agent))
    requires ManifestEvidence(lang, agent, shape, m, out).Ok?
    ensures var accepted := ManifestEvidence(lang, agent, shape, m, out).value;
            && |accepted| == |TextPaths(shape, out.lists)| && accepted[i].path == TextPaths(shape, out.lists)[i]
            && HasTwin(accepted[i], out.bindings) && accepted[i].claimId.Some?
  {
    AddressedDistinct(agent, shape, out);
    var j := BindingOfText(agent, shape, out, i);
    AcceptedAt(lang, agent, shape, m, out, i, j);
    assert out.bindings[j] in out.bindings;
  }

  lemma BindingHasTwin(lang: Language, agent: string, shape: Shape, m: Manifest, out: Output, j: nat)
    requires WellShaped(shape, out) && Identified(out.bindings) && j < |out.bindings|
    requires Addressed(shape, out.lists, out.bindings, Beside(out), Top(agent))
    requires ManifestEvidence(lang, agent, shape, m, out).Ok?
    ensures HasTwin(out.bindings[j], ManifestEvidence(lang, agent, shape, m, out).value)
  {
    AddressedDistinct(agent, shape, out);
    var i := TextOfBinding(agent, shape, out, j);
    AcceptedAt(lang, agent, shape, m, out, i, j);
  }

  lemma PathsAre(bs: seq<Binding>, paths: seq<string>)
    requires |bs| == |paths| && Distinct(paths) && forall i :: 0 <= i < |bs| ==> bs[i].path == paths[i]
    ensures Distinct(BindingPaths(bs))
  {}

  lemma AcceptedTwins(lang: Language, agent: string, shape: Shape, m: Manifest, out: Output)
    requires shape.Valid() && WellShaped(shape, out) && Identified(out.bindings)
    requires Addressed(shape, out.lists, out.bindings, Beside(out), Top(agent))
    requires ManifestEvidence(lang, agent, shape, m, out).Ok?
    ensures var accepted := ManifestEvidence(lang, agent, shape, m, out).value;
            Identified(accepted) && Distinct(BindingPaths(accepted)) && AllHaveTwins(accepted, out.bindings)
  {
    var accepted, paths := ManifestEvidence(lang, agent, shape, m, out).value, TextPaths(shape, out.lists);
    AcceptedCount(lang, agent, shape, m, out);
    TextPathsDistinct(shape, out.lists, |shape.sections|);
    forall i | 0 <= i < |accepted|
      ensures accepted[i].path == paths[i] && HasTwin(accepted[i], out.bindings) && accepted[i].claimId.Some?
    {
      AcceptedHasTwin(lang, agent, shape, m, out, i);
    }
    PathsAre(accepted, paths);
  }

  lemma BindingTwins(lang: Language, agent: string, shape: Shape, m: Manifest, out: Output)
    requires WellShaped(shape, out) && Identified(out.bindings)
    requires Addressed(shape, out.lists, out.bindings, Beside(out), Top(agent))
    requires ManifestEvidence(lang, agent, shape, m, out).Ok?
    ensures AllHaveTwins(out.bindings, ManifestEvidence(lang, agent, shape, m, out).value)
  {
    forall j | 0 <= j < |out.bindings|
      ensures HasTwin(out.bindings[j], ManifestEvidence(lang, agent, shape, m, out).value)
    {
      BindingHasTwin(lang, agent, shape, m, out, j);
    }
  }

  /** Strict validation of an addressed Analyst response neither repeats nor separates ids. */
  lemma AnalystKeepsIds(lang: Language, agent: string, shape: Shape, m: Manifest, out: Output)
    requires shape.Valid() && WellShaped(shape, out) && Identified(out.bindings)
    requires Addressed(shape, out.lists, out.bindings, Beside(out), Top(agent))
    requires ManifestEvidence(lang, agent, shape, m, out).Ok?
    ensures var accepted := ManifestEvidence(lang, agent, shape, m, out).value;
            Identified(accepted) && (Distinct(ClaimIds(accepted)) <==> Distinct(ClaimIds(out.bindings)))
  {
    var accepted := ManifestEvidence(lang, agent, shape, m, out).value;
    AcceptedTwins(lang, agent, shape, m, out);
    BindingTwins(lang, agent, shape, m, out);
    AddressedDistinct(agent, shape, out);
    if Distinct(ClaimIds(accepted)) {
      DistinctIdsCarryOver(out.bindings, accepted);
    }
    if Distinct(ClaimIds(out.bindings)) {
      DistinctIdsCarryOver(accepted, out.bindings);
    }
  }

  lemma UpstreamKeepsId(lang: Language, upstream: map<string, Binding>, b: Binding, value: Json)
    requires AcceptUpstreamClaim(lang, upstream, b, value).Ok?
    ensures AcceptUpstreamClaim(lang, upstream, b, value).value.claimId == b.claimId
  {}

  lemma ManagerKeepsIds(lang: Language, agent: string, shape: Shape, upstream: map<string, Binding>, out: Output)
    requires WellShaped(shape, out) && UpstreamEvidence(lang, agent, shape, upstream, out).Ok?
    ensures ClaimIds(UpstreamEvidence(lang, agent, shape, upstream, out).value) == ClaimIds(out.bindings)
  {
    var accept := UpstreamAcceptor(lang, agent, shape, upstream, out);
    AcceptAllDecides(accept, out.bindings, |out.bindings|);
    forall i | 0 <= i < |out.bindings| ensures accept(out.bindings[i]).value.claimId == out.bindings[i].claimId {
      UpstreamKeepsId(lang, upstream, out.bindings[i],
                      ValueAtIndexedPath(OutputJson(agent, shape, out), out.bindings[i].path));
    }
  }

  // ----- ids after regrouping -----

  /** The ids of a response: those its model wrote, and generated ones for Claims without. */
  function CompletedIds(role: Role, claims: seq<Binding>): seq<Option<string>> {
    ClaimIds(Rebound(Names(role), Complete(role), claims, |claims|))
  }

  ghost predicate Identifies(complete: Completion) { forall c: Binding, s, i :: complete(c, s, i).claimId.Some? }

  lemma CompleteIdentifies(role: Role)
    ensures Identifies(Complete(role))
  {}

  lemma ReboundIdentified(naming: Naming, complete: Completion, claims: seq<Binding>)
    requires Identifies(complete)
    ensures Identified(Rebound(naming, complete, claims, |claims|))
  {
    var bs := Rebound(naming, complete, claims, |claims|);
    forall b | b in bs ensures b.claimId.Some? {
      var i :| 0 <= i < |bs| && bs[i] == b;
      ReboundAt(naming, complete, claims, |claims|, i);
    }
  }

  lemma NoneMissing(bs: seq<Binding>)
    requires Identified(bs)
    ensures None !in ClaimIds(bs)
  {
    assert forall i :: 0 <= i < |bs| ==> bs[i] in bs && ClaimIds(bs)[i] == bs[i].claimId;
  }

  lemma SomeAll(bs: seq<Binding>)
    requires None !in ClaimIds(bs)
    ensures Identified(bs)
  {
    forall b | b in bs ensures b.claimId.Some? {
      var i :| 0 <= i < |bs| && bs[i] == b;
      assert ClaimIds(bs)[i] in ClaimIds(bs);
    }
  }

  lemma AnalystRegrouped(lang: Language, agent: string, shape: Shape, complete: Completion, m: Manifest,
                         claims: seq<Binding>, out: Output)
    requires shape.Valid() && Relocates(shape, complete) && Identifies(complete) && AllLegal(shape, claims)
    requires out == Regrouped(shape, complete, claims, out.uncertainties, out.metadata)
    requires WellShaped(shape, out) && ManifestEvidence(lang, agent, shape, m, out).Ok?
    ensures var accepted := ManifestEvidence(lang, agent, shape, m, out).value;
            Identified(accepted) && (Distinct(ClaimIds(accepted)) <==> Distinct(ClaimIds(out.bindings)))
  {
    ReboundIdentified(NamingOf(shape), complete, claims);
    RegroupingRoundTrip(shape, complete, claims, Beside(out), Top(agent));
    AnalystKeepsIds(lang, agent, shape, m, out);
  }

  lemma ManagerRegrouped(lang: Language, agent: string, shape: Shape, complete: Completion,
                         upstream: map<string, Binding>,
                         claims: seq<Binding>, out: Output)
    requires Identifies(complete) && out == Regrouped(shape, complete, claims, out.uncertainties, out.metadata)
    requires WellShaped(shape, out) && UpstreamEvidence(lang, agent, shape, upstream, out).Ok?
    ensures var accepted := UpstreamEvidence(lang, agent, shape, upstream, out).value;
            Identified(accepted) && (Distinct(ClaimIds(accepted)) <==> Distinct(ClaimIds(out.bindings)))
  {
    ReboundIdentified(NamingOf(shape), complete, claims);
    NoneMissing(out.bindings);
    ManagerKeepsIds(lang, agent, shape, upstream, out);
    SomeAll(UpstreamEvidence(lang, agent, shape, upstream, out).value);
  }

  lemma RegroupedKeepsIds(lang: Language, role: Role, m: Manifest, payload: Json, claims: seq<Binding>, out: Output,
                          shape: Shape, complete: Completion)
    requires shape == ShapeOf(role) && complete == Complete(role) && AllLegal(shape, claims)
    requires out == Regrouped(shape, complete, claims, out.uncertainties, out.metadata)
    requires WellShaped(shape, out) && StrictEvidence(lang, role, m, payload, out).Ok?
    ensures var accepted := StrictEvidence(lang, role, m, payload, out).value;
            Identified(accepted) && (Distinct(ClaimIds(accepted)) <==> Distinct(ClaimIds(out.bindings)))
  {
    CompleteIdentifies(role);
    if IsAnalyst(role) {
      ShapesAreValid(role);
      CompleteCompletes(role);
      AnalystRegrouped(lang, AgentName(role), shape, complete, m, claims, out);
    } else {
      ManagerRegrouped(lang, AgentName(role), shape, complete, UpstreamIndex(payload), claims, out);
    }
  }

  lemma DraftedIsRegrouped(lang: Language, role: Role, m: Manifest, payload: Json, raw: RawOutput, out: Output)
    requires raw.ClaimFirst? && Drafted(lang, role, m, payload, raw) == Ok(out)
    ensures var screened := Screen(lang, role, m, payload, raw.items);
            && screened.Ok? && AllLegal(ShapeOf(role), screened.value.retained)
            && out == Regrouped(ShapeOf(role), Complete(role), screened.value.retained, out.uncertainties, out.metadata)
  {}

  lemma DraftOf(lang: Language, role: Role, m: Manifest, payload: Json, raw: RawOutput)
    returns (claims: seq<Binding>, out: Output)
    requires raw.ClaimFirst? && AgentResult(lang, role, m, payload, raw).Ok?
    ensures var screened := Screen(lang, role, m, payload, raw.items); screened.Ok? && claims == screened.value.retained
    ensures AllLegal(ShapeOf(role), claims)
    ensures out == Regrouped(ShapeOf(role), Complete(role), claims, out.uncertainties, out.metadata)
    ensures WellShaped(ShapeOf(role), out) && StrictEvidence(lang, role, m, payload, out).Ok?
    ensures AgentResult(lang, role, m, payload, raw).value.bindings == StrictEvidence(lang, role, m, payload, out).value
  {
    out := StrictlyAccepted(lang, role, m, payload, raw);
    DraftedIsRegrouped(lang, role, m, payload, raw, out);
    claims := Screen(lang, role, m, payload, raw.items).value.retained;
  }

  /**
   An accepted response has ids that the next contract admits exactly when, among the Claims that
   survived quarantine, no id written by the model occurs twice or coincides with a generated one.
   */
  lemma StableExactlyWhenUnrepeated(lang: Language, role: Role, m: Manifest, payload: Json, raw: RawOutput)
    requires raw.ClaimFirst? && AgentResult(lang, role, m, payload, raw).Ok?
    ensures var screened := Screen(lang, role, m, payload, raw.items);
            && screened.Ok?
            && (StableIds(Done(AgentResult(lang, role, m, payload, raw).value)) <==>
                  Distinct(CompletedIds(role, screened.value.retained)))
  {
    var claims, out := DraftOf(lang, role, m, payload, raw);
    RegroupedKeepsIds(lang, role, m, payload, claims, out, ShapeOf(role), Complete(role));
    NoneMissing(StrictEvidence(lang, role, m, payload, out).value);
  }

  // ----- a response with one id twice -----

  function Named(c: Binding, id: string): Binding { c.(claimId := Some(id)) }

  /** Two numberless Claims over one entry, both under the same id. */
  function Twins(shape: Shape, section: string, evidenceId: string, id: string): seq<Binding> {
    [Named(Candidate(shape, section, "x", [evidenceId], [], 0), id),
     Named(Candidate(shape, section, "x", [evidenceId], [], 1), id)]
  }

  lemma TwinsDraftValid(shape: Shape, section: string, evidenceId: string, id: string)
    requires shape == ShapeOf(FundamentalAnalyst) && section == shape.sections[0]
    ensures DraftValid(FundamentalAnalyst, Twins(shape, section, evidenceId, id), [])
  {
    ShapesAreValid(FundamentalAnalyst);
    CandidateLegal(shape, section, "x", [evidenceId], [], 0);
    CandidateLegal(shape, section, "x", [evidenceId], [], 1);
    PairPlaces(shape, section);
    TwoLegal(shape, Twins(shape, section, evidenceId, id)[0], Twins(shape, section, evidenceId, id)[1]);
  }

  lemma TwinsPass(m: Manifest, shape: Shape, section: string, evidenceId: string, id: string)
    requires shape == ShapeOf(FundamentalAnalyst) && section == shape.sections[0]
    requires Uncanonical(m, GroupsOf(FundamentalAnalyst))
    ensures Passes(FundamentalAnalyst, m, Twins(shape, section, evidenceId, id))
  {
    TwinsDraftValid(shape, section, evidenceId, id);
    FundamentalPlaces(0);
    FundamentalPlaces(1);
    FactPathIndex(0);
    FactPathIndex(1);
    NothingAppended(m, CanonicalPrefix(FundamentalAnalyst), GroupsOf(FundamentalAnalyst),
                    Twins(shape, section, evidenceId, id));
  }

  lemma TwinsPassable(lang: Language, m: Manifest, payload: Json, shape: Shape, section: string, evidenceId: string,
                      id: string)
    requires evidenceId in Entries(m) && id != ""
    requires lang.patterns.identifiers("x") == [] && !Prohibited(lang.intent("x", false))
    ensures AllPassable(lang, FundamentalAnalyst, m, payload, Twins(shape, section, evidenceId, id))
  {
    var cs := Twins(shape, section, evidenceId, id);
    assert |cs[0].path| > 0 && |cs[1].path| > 0;
    forall i | 0 <= i < 2 ensures Passable(lang, FundamentalAnalyst, m, payload, cs[i]) {
      NumberlessIsPassable(lang, m, payload, evidenceId, cs[i]);
    }
  }

  lemma TwinsRepeat(role: Role, shape: Shape, section: string, evidenceId: string, id: string)
    requires role == FundamentalAnalyst
    ensures !Distinct(CompletedIds(role, Twins(shape, section, evidenceId, id)))
  {
    var cs := Twins(shape, section, evidenceId, id);
    ReboundAt(Names(role), Complete(role), cs, 2, 0);
    ReboundAt(Names(role), Complete(role), cs, 2, 1);
    assert CompletedIds(role, cs)[0] == CompletedIds(role, cs)[1];
  }

  /** The Fundamental Analyst accepts a response in which two Claims have the same id. */
  lemma RepeatedIdsAreAccepted(lang: Language, m: Manifest, payload: Json, evidenceId: string, id: string, shape: Shape)
    returns (raw: RawOutput)
    requires shape == ShapeOf(FundamentalAnalyst) && evidenceId in Entries(m) && id != ""
    requires Uncanonical(m, GroupsOf(FundamentalAnalyst))
    requires lang.patterns.identifiers("x") == [] && !Prohibited(lang.intent("x", false))
    ensures RejectedOf(lang, FundamentalAnalyst, m, payload, raw) == []
    ensures var r := AgentResult(lang, FundamentalAnalyst, m, payload, raw); r.Ok? && !StableIds(Done(r.value))
  {
    var cs := Twins(shape, shape.sections[0], evidenceId, id);
    raw := ClaimFirst(Records(cs), OwnFrame(FundamentalAnalyst, []));
    TwinsPass(m, shape, shape.sections[0], evidenceId, id);
    TwinsPassable(lang, m, payload, shape, shape.sections[0], evidenceId, id);
    TwinsAccepted(lang, FundamentalAnalyst, m, payload, cs, shape);
    TwinsRepeat(FundamentalAnalyst, shape, shape.sections[0], evidenceId, id);
    StableExactlyWhenUnrepeated(lang, FundamentalAnalyst, m, payload, raw);
  }

  lemma TwinsAccepted(lang: Language, role: Role, m: Manifest, payload: Json, cs: seq<Binding>, shape: Shape)
    requires shape == ShapeOf(role) && Passes(role, m, cs) && AllPassable(lang, role, m, payload, cs)
    ensures var raw := ClaimFirst(Records(cs), OwnFrame(role, []));
            && AgentResult(lang, role, m, payload, raw).Ok? && RejectedOf(lang, role, m, payload, raw) == []
            && Screen(lang, role, m, payload, Records(cs)) == Ok(Screened(cs, []))
  {
    OwnFrameReads(role, []);
    ListAccepted(lang, role, m, payload, cs, OwnFrame(role, []), shape);
    ListScreened(lang, role, m, payload, cs);
  }

  // ----- what that does to the task -----

  /** Over one Analyst output with unstable ids the first contract fails, and the task with it. */
  lemma RepeatedIdsStopTheTask(step: Coordinator.Step, request: Request, r: Result<TaskResult, ContractError>, a: Role)
    requires Outcome(step, request, r) && AnyAnalystUsable(request, Replay(step, 4))
    requires a in ANALYST_ORDER && a in Replay(step, 4) && !StableIds(Replay(step, 4)[a])
    ensures r == Err(UnstableClaimIds(Replay(step, 4), 4))
  {
    var runs, n := Replay(step, 4), 4;
    ReplayDomain(step, 4);
    assert !SlotValid(runs, a);
    ResearchRefused(step, request, runs, n);
    OutcomeIsDetermined(step, request, r, Err(UnstableClaimIds(runs, n)));
  }

  lemma FirstUsable(request: Request, runs: Runs, out: Output)
    requires runs == OneAnalyst(out) && request.reparses(FundamentalAnalyst)
    ensures AnyAnalystUsable(request, runs)
  {
    assert Usable(request, runs, ANALYST_ORDER[0]);
  }

  lemma TwinsStep(lang: Language, source: Source, id: string) returns (first: RawOutput, out: Output)
    requires lang.patterns.identifiers("x") == [] && !Prohibited(lang.intent("x", false)) && id != ""
    ensures RunResult(lang, FundamentalAnalyst, Lone(source), Null, Attempt(Produced(first), None)) == Ok(out)
    ensures !StableIds(Done(out))
  {
    LoneEntry(source);
    first := RepeatedIdsAreAccepted(lang, Lone(source), Null, "e", id, ShapeOf(FundamentalAnalyst));
    SingleDelivery(lang, FundamentalAnalyst, Lone(source), Null, first);
    out := AgentResult(lang, FundamentalAnalyst, Lone(source), Null, first).value;
  }

  lemma OneAnalystRefused(step: Coordinator.Step, request: Request, out: Output, r: Result<TaskResult, ContractError>)
    requires Replay(step, 4) == OneAnalyst(out) && request.reparses(FundamentalAnalyst) && !StableIds(Done(out))
    requires Outcome(step, request, r)
    ensures r == Err(UnstableClaimIds(OneAnalyst(out), 4))
  {
    FirstUsable(request, Replay(step, 4), out);
    RepeatedIdsStopTheTask(step, request, r, FundamentalAnalyst);
  }

  /**
   A task over one evidence entry: the Fundamental Analyst delivers two numberless Claims under one
   id, is accepted, and every outcome of the task is the refusal of the first Manager's contract.
   */
  lemma OneRepeatedIdRefusesTheTask(lang: Language, source: Source, id: string) returns (task: Task, out: Output)
    requires lang.patterns.identifiers("x") == [] && !Prohibited(lang.intent("x", false)) && id != ""
    ensures task.lang == lang && task.request == BareRequest(source) && Replay(StepOf(task), 4) == OneAnalyst(out)
    ensures forall r :: Outcome(StepOf(task), task.request, r) ==> r == Err(UnstableClaimIds(OneAnalyst(out), 4))
  {
    var first;
    first, out := TwinsStep(lang, source, id);
    task := Task(lang, BareRequest(source), Calls(first, first));
    FirstFour(task, lang, source, first, first, out);
    forall r | Outcome(StepOf(task), task.request, r) ensures r == Err(UnstableClaimIds(OneAnalyst(out), 4)) {
      OneAnalystRefused(StepOf(task), task.request, out, r);
    }
  }
}
