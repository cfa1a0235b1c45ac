/** Promotion of a Sector research draft: fail closed, or a consistent output built from accepted Claims only. */
module SectorPromotion {
  import opened Sequences
  import opened Scanner
  import opened Rescan
  import opened Evidence
  import opened Grounding
  import opened Sections

  datatype DraftClaim = DraftClaim(path: string, text: string, category: string, evidenceIds: seq<string>)

  datatype Draft = Draft(claims: seq<DraftClaim>, support: seq<string>, uncertainties: seq<string>)

  datatype Severity = Low | Medium | High | Critical
  datatype Event = Event(id: string, severity: Severity)

  /** What promotion knows besides the draft: the events, the missing data, and whether input was degraded. */
  datatype SectorInput = SectorInput(sectorId: string, events: seq<Event>, missingData: seq<string>, degraded: bool)

  datatype Judgement = Accepts | Rejects(reason: string) | Raises

  datatype Accepted = Accepted(id: string, path: string, text: string, evidenceIds: seq<string>, literals: seq<string>)
  datatype Rejected = Rejected(path: string, reason: string)

  datatype Output = Output(claims: seq<Accepted>, rejected: seq<Rejected>, supportingIds: seq<string>,
                           droppedSupport: seq<string>, partial: bool, uncertainties: seq<string>)

  datatype PromotionError =
    | DuplicateClaimPath(path: string)
    | UnknownClaimReference(path: string)
    | GroundingRaised
    | ClaimSchema
    | MinimumValidClaims
    | HighEventNotCited(eventId: string)
    | InsufficientCycleSupport
    | MissingUncertainty

  const MINIMUM_VALID_CLAIMS := 3
  const MINIMUM_CYCLE_SUPPORT := 1

  type Judge = DraftClaim -> Judgement

  // ----- what a draft claims, read off the draft -----

  function Paths(claims: seq<DraftClaim>): (r: seq<string>)
    ensures |r| == |claims|
  {
    seq(|claims|, i requires 0 <= i < |claims| => claims[i].path)
  }

  function Kept(judge: Judge, claims: seq<DraftClaim>, n: nat): seq<DraftClaim>
    requires n <= |claims|
  {
    if n == 0 then []
    else
      var before := Kept(judge, claims, n - 1);
      if judge(claims[n - 1]) == Accepts then before + [claims[n - 1]] else before
  }

  function Dropped(judge: Judge, claims: seq<DraftClaim>, n: nat): seq<Rejected>
    requires n <= |claims|
  {
    if n == 0 then []
    else
      var before := Dropped(judge, claims, n - 1);
      match judge(claims[n - 1]) case Rejects(reason) => before + [Rejected(claims[n - 1].path, reason)]
        case _ => before
  }

  function ClaimId(sectorId: string, k: nat): string { "sector:" + sectorId + ":claim:" + Numeral(k) }

  function ClaimPath(k: nat): string { "claims[" + Numeral(k) + "]" }

  function Promoted(sectorId: string, k: nat, c: DraftClaim): Accepted {
    Accepted(ClaimId(sectorId, k), ClaimPath(k), c.text, c.evidenceIds, Literals(c.text))
  }

  function PromotedAll(sectorId: string, kept: seq<DraftClaim>): (r: seq<Accepted>)
    ensures |r| == |kept|
  {
    seq(|kept|, k requires 0 <= k < |kept| => Promoted(sectorId, k, kept[k]))
  }

  /** `path_to_id` after the first `n` kept claims. */
  function PathIds(sectorId: string, kept: seq<DraftClaim>, n: nat): map<string, string>
    requires n <= |kept|
  {
    if n == 0 then map[] else PathIds(sectorId, kept, n - 1)[kept[n - 1].path := ClaimId(sectorId, n - 1)]
  }

  /** The first claim that stops the loop, among the first `n`. */
  function LoopError(judge: Judge, claims: seq<DraftClaim>, n: nat): Option<PromotionError>
    requires n <= |claims|
  {
    if n == 0 then None
    else if LoopError(judge, claims, n - 1).Some? then LoopError(judge, claims, n - 1)
    else match judge(claims[n - 1])
      case Raises => Some(GroundingRaised)
      case Accepts => if Distinct(claims[n - 1].evidenceIds) then None else Some(ClaimSchema)
      case Rejects(_) => None
  }

  lemma {:induction false} LoopErrorDecides(judge: Judge, claims: seq<DraftClaim>, n: nat)
    requires n <= |claims|
    ensures LoopError(judge, claims, n).None? <==>
              forall i :: 0 <= i < n ==>
                judge(claims[i]) != Raises && (judge(claims[i]) == Accepts ==> Distinct(claims[i].evidenceIds))
  {
    if n > 0 {
      LoopErrorDecides(judge, claims, n - 1);
    }
  }

  lemma {:induction false} LoopErrorStays(judge: Judge, claims: seq<DraftClaim>, i: nat, n: nat)
    requires i <= n <= |claims| && LoopError(judge, claims, i).Some?
    ensures LoopError(judge, claims, n) == LoopError(judge, claims, i)
    decreases n
  {
    if i < n {
      LoopErrorStays(judge, claims, i, n - 1);
    }
  }

  lemma {:induction false} KeptMembers(judge: Judge, claims: seq<DraftClaim>, n: nat)
    requires n <= |claims|
    ensures forall c :: c in Kept(judge, claims, n) <==> exists i :: 0 <= i < n && claims[i] == c && judge(c) == Accepts
  {
    if n > 0 {
      KeptMembers(judge, claims, n - 1);
    }
  }

  lemma {:induction false} DroppedMembers(judge: Judge, claims: seq<DraftClaim>, n: nat)
    requires n <= |claims|
    ensures forall r :: r in Dropped(judge, claims, n) <==>
              exists i :: 0 <= i < n && claims[i].path == r.path && judge(claims[i]) == Rejects(r.reason)
  {
    if n > 0 {
      DroppedMembers(judge, claims, n - 1);
    }
  }

  /** The positions of the draft's claims with, or without, a verdict of acceptance. */
  function Positions(judge: Judge, claims: seq<DraftClaim>, accepted: bool, n: nat): seq<nat>
    requires n <= |claims|
  {
    if n == 0 then []
    else
      var before := Positions(judge, claims, accepted, n - 1);
      if (judge(claims[n - 1]) == Accepts) == accepted then before + [n - 1] else before
  }

  predicate Increasing(at: seq<nat>, n: nat) {
    && (forall k :: 0 <= k < |at| ==> at[k] < n)
    && (forall j, k :: 0 <= j < k < |at| ==> at[j] < at[k])
  }

  lemma {:induction false} PositionsIncrease(judge: Judge, claims: seq<DraftClaim>, accepted: bool, n: nat)
    requires n <= |claims|
    ensures Increasing(Positions(judge, claims, accepted, n), n)
    ensures forall i :: i in Positions(judge, claims, accepted, n) <==>
      0 <= i < n && (judge(claims[i]) == Accepts) == accepted
  {
    if n > 0 {
      PositionsIncrease(judge, claims, accepted, n - 1);
    }
  }

  /** `found` are the elements of `whole` at increasing positions, as far as `same` can tell. */
  predicate InOrder<A, B>(same: (A, B) -> bool, found: seq<B>, whole: seq<A>, at: seq<nat>, n: nat)
    requires n <= |whole|
  {
    |found| == |at| && Increasing(at, n) && forall k :: 0 <= k < |at| ==> same(whole[at[k]], found[k])
  }

  lemma InOrderNext<A, B>(same: (A, B) -> bool, found: seq<B>, whole: seq<A>, at: seq<nat>, n: nat, x: B)
    requires n < |whole| && InOrder(same, found, whole, at, n) && same(whole[n], x)
    ensures InOrder(same, found + [x], whole, at + [n], n + 1)
  {}

  lemma InOrderStill<A, B>(same: (A, B) -> bool, found: seq<B>, whole: seq<A>, at: seq<nat>, n: nat)
    requires n < |whole| && InOrder(same, found, whole, at, n)
    ensures InOrder(same, found, whole, at, n + 1)
  {}

  function SameClaim(): (DraftClaim, DraftClaim) -> bool { (c: DraftClaim, kept: DraftClaim) => kept == c }

  /** The record is the claim's own: its path, and the reason of its rejection. */
  function RecordOf(judge: Judge): (DraftClaim, Rejected) -> bool {
    (c: DraftClaim, r: Rejected) => r.path == c.path && judge(c) == Rejects(r.reason)
  }

  /** The kept claims are the draft's, whole and in order. */
  lemma {:induction false} KeptInOrder(judge: Judge, claims: seq<DraftClaim>, n: nat)
    requires n <= |claims|
    ensures InOrder(SameClaim(), Kept(judge, claims, n), claims, Positions(judge, claims, true, n), n)
  {
    if n > 0 {
      KeptInOrder(judge, claims, n - 1);
      var kept, at := Kept(judge, claims, n - 1), Positions(judge, claims, true, n - 1);
      if judge(claims[n - 1]) == Accepts {
        InOrderNext(SameClaim(), kept, claims, at, n - 1, claims[n - 1]);
      } else {
        InOrderStill(SameClaim(), kept, claims, at, n - 1);
      }
    }
  }

  /** The rejection records are those of the other claims, in order. */
  lemma {:induction false} DroppedInOrder(judge: Judge, claims: seq<DraftClaim>, n: nat)
    requires n <= |claims| && LoopError(judge, claims, n).None?
    ensures InOrder(RecordOf(judge), Dropped(judge, claims, n), claims, Positions(judge, claims, false, n), n)
  {
    if n > 0 {
      DroppedInOrder(judge, claims, n - 1);
      var dropped, at := Dropped(judge, claims, n - 1), Positions(judge, claims, false, n - 1);
      var c := claims[n - 1];
      if judge(c).Rejects? {
        InOrderNext(RecordOf(judge), dropped, claims, at, n - 1, Rejected(c.path, judge(c).reason));
      } else {
        InOrderStill(RecordOf(judge), dropped, claims, at, n - 1);
      }
    }
  }

  /**
   Accepted and rejected partition the draft: two increasing position lists that together take every
   claim exactly once, one for the kept claims and one for the rejection records.
   */
  lemma Partition(judge: Judge, claims: seq<DraftClaim>)
    requires LoopError(judge, claims, |claims|).None?
    ensures var at, off := Positions(judge, claims, true, |claims|), Positions(judge, claims, false, |claims|);
            && InOrder(SameClaim(), Kept(judge, claims, |claims|), claims, at, |claims|)
            && InOrder(RecordOf(judge), Dropped(judge, claims, |claims|), claims, off, |claims|)
            && forall i :: 0 <= i < |claims| ==> (i in at <==> i !in off)
  {
    KeptInOrder(judge, claims, |claims|);
    DroppedInOrder(judge, claims, |claims|);
    PositionsIncrease(judge, claims, true, |claims|);
    PositionsIncrease(judge, claims, false, |claims|);
  }

  // ----- event coverage -----

  predicate Mandatory(e: Event) { e.severity == High || e.severity == Critical }

  function EventEvidence(e: Event): string { "event:" + e.id }

  function CandidatePaths(claims: seq<DraftClaim>, e: Event, n: nat): seq<string>
    requires n <= |claims|
  {
    if n == 0 then []
    else
      CandidatePaths(claims, e, n - 1)
      + if EventEvidence(e) in claims[n - 1].evidenceIds then [claims[n - 1].path] else []
  }

  function Known(ids: map<string, string>, paths: seq<string>, n: nat): seq<string>
    requires n <= |paths|
  {
    if n == 0 then []
    else Known(ids, paths, n - 1) + if paths[n - 1] in ids then [ids[paths[n - 1]]] else []
  }

  function Unknown(ids: map<string, string>, paths: seq<string>, n: nat): seq<string>
    requires n <= |paths|
  {
    if n == 0 then []
    else Unknown(ids, paths, n - 1) + if paths[n - 1] in ids then [] else [paths[n - 1]]
  }

  datatype Coverage = Coverage(event: Event, candidates: seq<string>, acceptedIds: seq<string>)

  function CoverageOf(claims: seq<DraftClaim>, ids: map<string, string>, e: Event): Coverage {
    var paths := CandidatePaths(claims, e, |claims|);
    Coverage(e, paths, Dedup(Known(ids, paths, |paths|)))
  }

  function Matrix(claims: seq<DraftClaim>, ids: map<string, string>, events: seq<Event>, n: nat): seq<Coverage>
    requires n <= |events|
  {
    if n == 0 then []
    else
      Matrix(claims, ids, events, n - 1)
      + if Mandatory(events[n - 1]) then [CoverageOf(claims, ids, events[n - 1])] else []
  }

  function FirstUncovered(matrix: seq<Coverage>, n: nat): Option<string>
    requires n <= |matrix|
  {
    if n == 0 then None
    else if FirstUncovered(matrix, n - 1).Some? then FirstUncovered(matrix, n - 1)
    else if matrix[n - 1].acceptedIds == [] then Some(matrix[n - 1].event.id)
    else None
  }

  lemma {:induction false} CandidateMembers(claims: seq<DraftClaim>, e: Event, n: nat)
    requires n <= |claims|
    ensures forall p :: p in CandidatePaths(claims, e, n) <==>
              exists i :: 0 <= i < n && claims[i].path == p && EventEvidence(e) in claims[i].evidenceIds
  {
    if n > 0 {
      CandidateMembers(claims, e, n - 1);
    }
  }

  lemma {:induction false} KnownMembers(ids: map<string, string>, paths: seq<string>, n: nat)
    requires n <= |paths|
    ensures forall id :: id in Known(ids, paths, n) <==>
      exists i :: 0 <= i < n && paths[i] in ids && ids[paths[i]] == id
    ensures forall p :: p in Unknown(ids, paths, n) <==> exists i :: 0 <= i < n && paths[i] == p && p !in ids
  {
    if n > 0 {
      KnownMembers(ids, paths, n - 1);
    }
  }

  lemma {:induction false} MatrixMembers(claims: seq<DraftClaim>, ids: map<string, string>, events: seq<Event>, n: nat)
    requires n <= |events|
    ensures forall row :: row in Matrix(claims, ids, events, n) <==>
              exists i :: 0 <= i < n && Mandatory(events[i]) && row == CoverageOf(claims, ids, events[i])
  {
    if n > 0 {
      MatrixMembers(claims, ids, events, n - 1);
    }
  }

  lemma {:induction false} UncoveredDecides(matrix: seq<Coverage>, n: nat)
    requires n <= |matrix|
    ensures FirstUncovered(matrix, n).None? <==> forall i :: 0 <= i < n ==> matrix[i].acceptedIds != []
  {
    if n > 0 {
      UncoveredDecides(matrix, n - 1);
    }
  }

  lemma {:induction false} PathIdsAt(sectorId: string, kept: seq<DraftClaim>, n: nat)
    requires n <= |kept| && Distinct(Paths(kept))
    ensures forall p :: p in PathIds(sectorId, kept, n) <==> exists k :: 0 <= k < n && kept[k].path == p
    ensures forall k :: 0 <= k < n ==>
              kept[k].path in PathIds(sectorId, kept, n)
                && PathIds(sectorId, kept, n)[kept[k].path] == ClaimId(sectorId, k)
  {
    if n > 0 {
      PathIdsAt(sectorId, kept, n - 1);
      forall k | 0 <= k < n - 1 ensures kept[k].path != kept[n - 1].path {
        assert Paths(kept)[k] != Paths(kept)[n - 1];
      }
    }
  }

  // ----- the promotion -----

  predicate Repeats(paths: seq<string>, i: nat)
    requires i < |paths|
  {
    exists j :: 0 <= j < |paths| && j != i && paths[j] == paths[i]
  }

  /** The first of the first `n` paths that occurs more than once. */
  function FirstRepeated(paths: seq<string>, n: nat): Option<string>
    requires n <= |paths|
  {
    if n == 0 then None
    else if FirstRepeated(paths, n - 1).Some? then FirstRepeated(paths, n - 1)
    else if Repeats(paths, n - 1) then Some(paths[n - 1])
    else None
  }

  lemma {:induction false} RepeatedDecides(paths: seq<string>, n: nat)
    requires n <= |paths|
    ensures FirstRepeated(paths, n).None? <==> forall i :: 0 <= i < n ==> !Repeats(paths, i)
  {
    if n > 0 {
      RepeatedDecides(paths, n - 1);
    }
  }

  lemma NoRepetition(paths: seq<string>)
    ensures FirstRepeated(paths, |paths|).None? <==> Distinct(paths)
  {
    RepeatedDecides(paths, |paths|);
    if i, j :| 0 <= i < j < |paths| && paths[i] == paths[j] {
      assert Repeats(paths, i);
    }
  }

  function FirstForeign(support: seq<string>, paths: seq<string>, n: nat): Option<string>
    requires n <= |support|
  {
    if n == 0 then None
    else if FirstForeign(support, paths, n - 1).Some? then FirstForeign(support, paths, n - 1)
    else if support[n - 1] !in paths then Some(support[n - 1])
    else None
  }

  lemma {:induction false} ForeignDecides(support: seq<string>, paths: seq<string>, n: nat)
    requires n <= |support|
    ensures FirstForeign(support, paths, n).None? <==> forall i :: 0 <= i < n ==> support[i] in paths
  {
    if n > 0 {
      ForeignDecides(support, paths, n - 1);
    }
  }

  /** The output built once every claim has been judged. */
  function Assembled(judge: Judge, input: SectorInput, draft: Draft): Result<Output, PromotionError> {
    var kept := Kept(judge, draft.claims, |draft.claims|);
    var ids := PathIds(input.sectorId, kept, |kept|);
    var matrix := Matrix(draft.claims, ids, input.events, |input.events|);
    var supporting, foreign := Known(ids, draft.support, |draft.support|), Unknown(ids, draft.support, |draft.support|);
    var uncertainties := Dedup(draft.uncertainties + input.missingData);
    if |kept| < MINIMUM_VALID_CLAIMS then Err(MinimumValidClaims)
    else match FirstUncovered(matrix, |matrix|)
      case Some(eventId) => Err(HighEventNotCited(eventId))
      case None =>
        if |supporting| < MINIMUM_CYCLE_SUPPORT then Err(InsufficientCycleSupport)
        else if input.degraded && uncertainties == [] then Err(MissingUncertainty)
        else
          Ok(Output(PromotedAll(input.sectorId, kept), Dropped(judge, draft.claims, |draft.claims|),
                    Dedup(supporting), Dedup(foreign), foreign != [], uncertainties))
  }

  function Promotion(judge: Judge, input: SectorInput, draft: Draft): Result<Output, PromotionError> {
    var paths := Paths(draft.claims);
    match FirstRepeated(paths, |paths|)
    case Some(path) => Err(DuplicateClaimPath(path))
    case None =>
      match FirstForeign(draft.support, paths, |draft.support|)
      case Some(path) => Err(UnknownClaimReference(path))
      case None =>
        match LoopError(judge, draft.claims, |draft.claims|)
        case Some(e) => Err(e)
        case None => Assembled(judge, input, draft)
  }

  method FindRepeated(paths: seq<string>) returns (r: Option<string>)
    ensures r == FirstRepeated(paths, |paths|)
  {
    r := None;
    for i := 0 to |paths|
      invariant r == FirstRepeated(paths, i)
    {
      if r.None? && (exists j :: 0 <= j < |paths| && j != i && paths[j] == paths[i]) {
        r := Some(paths[i]);
      }
    }
  }

  method FindForeign(support: seq<string>, paths: seq<string>) returns (r: Option<string>)
    ensures r == FirstForeign(support, paths, |support|)
  {
    r := None;
    for i := 0 to |support|
      invariant r == FirstForeign(support, paths, i)
    {
      if r.None? && support[i] !in paths {
        r := Some(support[i]);
      }
    }
  }

  lemma PathIdsNext(sectorId: string, kept: seq<DraftClaim>, c: DraftClaim)
    ensures PathIds(sectorId, kept + [c], |kept| + 1)
      == PathIds(sectorId, kept, |kept|)[c.path := ClaimId(sectorId, |kept|)]
  {
    PathIdsPrefix(sectorId, kept, kept + [c], |kept|);
    assert (kept + [c])[|kept|] == c;
  }

  lemma PromotedNext(sectorId: string, kept: seq<DraftClaim>, c: DraftClaim)
    ensures PromotedAll(sectorId, kept + [c]) == PromotedAll(sectorId, kept) + [Promoted(sectorId, |kept|, c)]
  {}

  lemma {:induction false} PathIdsPrefix(sectorId: string, a: seq<DraftClaim>, b: seq<DraftClaim>, n: nat)
    requires n <= |a| <= |b| && forall k :: 0 <= k < n ==> a[k] == b[k]
    ensures PathIds(sectorId, a, n) == PathIds(sectorId, b, n)
  {
    if n > 0 {
      PathIdsPrefix(sectorId, a, b, n - 1);
    }
  }

  datatype Judged = Judged(accepted: seq<Accepted>, rejected: seq<Rejected>, pathToId: map<string, string>)

  /** The loop over the draft's claims. */
  method JudgeClaims(judge: Judge, sectorId: string, claims: seq<DraftClaim>)
    returns (r: Result<Judged, PromotionError>)
    ensures match LoopError(judge, claims, |claims|)
            case Some(e) => r == Err(e)
            case None =>
              var kept := Kept(judge, claims, |claims|);
              r == Ok(Judged(PromotedAll(sectorId, kept), Dropped(judge, claims, |claims|),
                             PathIds(sectorId, kept, |kept|)))
  {
    var accepted, rejected, pathToId := [], [], map[];
    for i := 0 to |claims|
      invariant LoopError(judge, claims, i).None?
      invariant accepted == PromotedAll(sectorId, Kept(judge, claims, i))
      invariant rejected == Dropped(judge, claims, i)
      invariant pathToId == PathIds(sectorId, Kept(judge, claims, i), |accepted|)
    {
      match judge(claims[i]) {
        case Raises =>
          LoopErrorStays(judge, claims, i + 1, |claims|);
          return Err(GroundingRaised);
        case Rejects(reason) => rejected := rejected + [Rejected(claims[i].path, reason)];
        case Accepts =>
          if !Distinct(claims[i].evidenceIds) {
            LoopErrorStays(judge, claims, i + 1, |claims|);
            return Err(ClaimSchema);
          }
          PromotedNext(sectorId, Kept(judge, claims, i), claims[i]);
          PathIdsNext(sectorId, Kept(judge, claims, i), claims[i]);
          pathToId := pathToId[claims[i].path := ClaimId(sectorId, |accepted|)];
          accepted := accepted + [Promoted(sectorId, |accepted|, claims[i])];
      }
    }
    r := Ok(Judged(accepted, rejected, pathToId));
  }

  method Candidates(claims: seq<DraftClaim>, e: Event) returns (paths: seq<string>)
    ensures paths == CandidatePaths(claims, e, |claims|)
  {
    paths := [];
    for i := 0 to |claims|
      invariant paths == CandidatePaths(claims, e, i)
    {
      if EventEvidence(e) in claims[i].evidenceIds {
        paths := paths + [claims[i].path];
      }
    }
  }

  method Resolve(ids: map<string, string>, paths: seq<string>) returns (known: seq<string>, unknown: seq<string>)
    ensures known == Known(ids, paths, |paths|) && unknown == Unknown(ids, paths, |paths|)
  {
    known, unknown := [], [];
    for i := 0 to |paths|
      invariant known == Known(ids, paths, i) && unknown == Unknown(ids, paths, i)
    {
      if paths[i] in ids {
        known := known + [ids[paths[i]]];
      } else {
        unknown := unknown + [paths[i]];
      }
    }
  }

  method MandatoryEventCoverageMatrix(claims: seq<DraftClaim>, ids: map<string, string>, events: seq<Event>)
    returns (matrix: seq<Coverage>)
    ensures matrix == Matrix(claims, ids, events, |events|)
  {
    matrix := [];
    for i := 0 to |events|
      invariant matrix == Matrix(claims, ids, events, i)
    {
      if Mandatory(events[i]) {
        var paths := Candidates(claims, events[i]);
        var known, _ := Resolve(ids, paths);
        matrix := matrix + [Coverage(events[i], paths, Dedup(known))];
      }
    }
  }

  method ValidateRequiredEventCoverage(matrix: seq<Coverage>) returns (uncovered: Option<string>)
    ensures uncovered == FirstUncovered(matrix, |matrix|)
  {
    uncovered := None;
    for i := 0 to |matrix|
      invariant uncovered == FirstUncovered(matrix, i)
    {
      if uncovered.None? && matrix[i].acceptedIds == [] {
        uncovered := Some(matrix[i].event.id);
      }
    }
  }

  method PromoteOutput(judge: Judge, input: SectorInput, draft: Draft) returns (r: Result<Output, PromotionError>)
    ensures r == Promotion(judge, input, draft)
  {
    var repeated := FindRepeated(Paths(draft.claims));
    if repeated.Some? {
      return Err(DuplicateClaimPath(repeated.value));
    }
    var foreign := FindForeign(draft.support, Paths(draft.claims));
    if foreign.Some? {
      return Err(UnknownClaimReference(foreign.value));
    }
    var judged := JudgeClaims(judge, input.sectorId, draft.claims);
    match judged {
      case Err(e) => r := Err(e);
      case Ok(j) => r := Assemble(judge, input, draft, j);
    }
  }

  method Assemble(ghost judge: Judge, input: SectorInput, draft: Draft, j: Judged)
    returns (r: Result<Output, PromotionError>)
    requires var kept := Kept(judge, draft.claims, |draft.claims|);
             j == Judged(PromotedAll(input.sectorId, kept), Dropped(judge, draft.claims, |draft.claims|),
                         PathIds(input.sectorId, kept, |kept|))
    ensures r == Assembled(judge, input, draft)
  {
    if |j.accepted| < MINIMUM_VALID_CLAIMS {
      return Err(MinimumValidClaims);
    }
    var matrix := MandatoryEventCoverageMatrix(draft.claims, j.pathToId, input.events);
    var uncovered := ValidateRequiredEventCoverage(matrix);
    if uncovered.Some? {
      return Err(HighEventNotCited(uncovered.value));
    }
    var supporting, dropped := Resolve(j.pathToId, draft.support);
    if |supporting| < MINIMUM_CYCLE_SUPPORT {
      return Err(InsufficientCycleSupport);
    }
    var uncertainties := Dedup(draft.uncertainties + input.missingData);
    if input.degraded && uncertainties == [] {
      return Err(MissingUncertainty);
    }
    r := Ok(Output(j.accepted, j.rejected, Dedup(supporting), Dedup(dropped), dropped != [], uncertainties));
  }

  // ----- what promotion guarantees -----

  /** A path of the draft whose claim was accepted. */
  predicate AcceptedPath(judge: Judge, draft: Draft, path: string) {
    exists i :: 0 <= i < |draft.claims| && draft.claims[i].path == path && judge(draft.claims[i]) == Accepts
  }

  predicate CitedByAccepted(judge: Judge, draft: Draft, e: Event) {
    exists i ::
      0 <= i < |draft.claims| && judge(draft.claims[i]) == Accepts && EventEvidence(e) in draft.claims[i].evidenceIds
  }

  lemma {:induction false} KeptPathsDistinct(judge: Judge, claims: seq<DraftClaim>, n: nat)
    requires n <= |claims| && Distinct(Paths(claims))
    ensures Distinct(Paths(Kept(judge, claims, n)))
    ensures forall p :: p in Paths(Kept(judge, claims, n)) <==>
              exists i :: 0 <= i < n && claims[i].path == p && judge(claims[i]) == Accepts
  {
    if n > 0 {
      KeptPathsDistinct(judge, claims, n - 1);
      var before, x := Paths(Kept(judge, claims, n - 1)), claims[n - 1].path;
      forall i | 0 <= i < n - 1 ensures claims[i].path != x {
        assert Paths(claims)[i] != Paths(claims)[n - 1];
      }
      assert x !in before;
      if judge(claims[n - 1]) == Accepts {
        assert Paths(Kept(judge, claims, n)) == before + [x];
      }
    }
  }

  /** `path_to_id` knows exactly the paths of accepted claims. */
  lemma IdsOfAccepted(judge: Judge, sectorId: string, draft: Draft, path: string)
    requires Distinct(Paths(draft.claims))
    ensures var kept := Kept(judge, draft.claims, |draft.claims|);
            path in PathIds(sectorId, kept, |kept|) <==> AcceptedPath(judge, draft, path)
  {
    var kept := Kept(judge, draft.claims, |draft.claims|);
    KeptPathsDistinct(judge, draft.claims, |draft.claims|);
    PathIdsAt(sectorId, kept, |kept|);
    assert path in Paths(kept) <==> exists k :: 0 <= k < |kept| && kept[k].path == path by {
      if k :| 0 <= k < |kept| && kept[k].path == path {
        assert Paths(kept)[k] == path;
      }
    }
  }

  ghost function FinalIds(judge: Judge, sectorId: string, draft: Draft): map<string, string> {
    var kept := Kept(judge, draft.claims, |draft.claims|);
    PathIds(sectorId, kept, |kept|)
  }

  lemma RowDecides(judge: Judge, sectorId: string, draft: Draft, e: Event)
    requires Distinct(Paths(draft.claims))
    ensures CoverageOf(draft.claims, FinalIds(judge, sectorId, draft), e).acceptedIds != [] <==>
      CitedByAccepted(judge, draft, e)
  {
    var ids := FinalIds(judge, sectorId, draft);
    var paths := CandidatePaths(draft.claims, e, |draft.claims|);
    var known := Known(ids, paths, |paths|);
    CandidateMembers(draft.claims, e, |draft.claims|);
    KnownMembers(ids, paths, |paths|);
    DedupElements(known);
    if known != [] {
      assert known[0] in known;
      var i :| 0 <= i < |paths| && paths[i] in ids;
      CandidateAccepted(judge, sectorId, draft, e, paths[i]);
    }
    if i :|
      0 <= i < |draft.claims| && judge(draft.claims[i]) == Accepts && EventEvidence(e) in draft.claims[i].evidenceIds
    {
      IdsOfAccepted(judge, sectorId, draft, draft.claims[i].path);
      KnownHas(ids, paths, draft.claims[i].path);
      DedupEmpty(known);
    }
  }

  lemma KnownHas(ids: map<string, string>, paths: seq<string>, path: string)
    requires path in paths && path in ids
    ensures Known(ids, paths, |paths|) != []
  {
    KnownMembers(ids, paths, |paths|);
    var k :| 0 <= k < |paths| && paths[k] == path;
    assert ids[paths[k]] in Known(ids, paths, |paths|);
  }

  lemma CandidateAccepted(judge: Judge, sectorId: string, draft: Draft, e: Event, path: string)
    requires Distinct(Paths(draft.claims)) && path in FinalIds(judge, sectorId, draft)
    requires path in CandidatePaths(draft.claims, e, |draft.claims|)
    ensures CitedByAccepted(judge, draft, e)
  {
    CandidateMembers(draft.claims, e, |draft.claims|);
    IdsOfAccepted(judge, sectorId, draft, path);
    var i :| 0 <= i < |draft.claims| && draft.claims[i].path == path && EventEvidence(e) in draft.claims[i].evidenceIds;
    var j :| 0 <= j < |draft.claims| && draft.claims[j].path == path && judge(draft.claims[j]) == Accepts;
    assert Paths(draft.claims)[i] == Paths(draft.claims)[j];
    assert i == j;
  }

  predicate EventsCovered(judge: Judge, input: SectorInput, draft: Draft) {
    forall i :: 0 <= i < |input.events| && Mandatory(input.events[i]) ==> CitedByAccepted(judge, draft, input.events[i])
  }

  /** The coverage check passes exactly when an accepted claim cites each mandatory event. */
  lemma CoverageDecides(judge: Judge, input: SectorInput, draft: Draft)
    requires Distinct(Paths(draft.claims))
    ensures var matrix := Matrix(draft.claims, FinalIds(judge, input.sectorId, draft), input.events, |input.events|);
            FirstUncovered(matrix, |matrix|).None? <==> EventsCovered(judge, input, draft)
  {
    var ids := FinalIds(judge, input.sectorId, draft);
    var matrix := Matrix(draft.claims, ids, input.events, |input.events|);
    MatrixMembers(draft.claims, ids, input.events, |input.events|);
    UncoveredDecides(matrix, |matrix|);
    forall i | 0 <= i < |input.events| && Mandatory(input.events[i])
      ensures CoverageOf(draft.claims, ids, input.events[i]) in matrix
      ensures CoverageOf(draft.claims, ids, input.events[i]).acceptedIds != [] <==>
        CitedByAccepted(judge, draft, input.events[i])
    {
      RowDecides(judge, input.sectorId, draft, input.events[i]);
    }
    forall k | 0 <= k < |matrix|
      ensures exists i ::
        0 <= i < |input.events| && Mandatory(input.events[i])
          && matrix[k] == CoverageOf(draft.claims, ids, input.events[i])
    {
      assert matrix[k] in matrix;
    }
  }

  predicate SupportSurvives(judge: Judge, draft: Draft) {
    exists i :: 0 <= i < |draft.support| && AcceptedPath(judge, draft, draft.support[i])
  }

  lemma SupportDecides(judge: Judge, sectorId: string, draft: Draft)
    requires Distinct(Paths(draft.claims))
    ensures var ids := FinalIds(judge, sectorId, draft);
            && (forall i :: 0 <= i < |draft.support| ==>
                (draft.support[i] in ids <==> AcceptedPath(judge, draft, draft.support[i])))
            && (Known(ids, draft.support, |draft.support|) != [] <==> SupportSurvives(judge, draft))
  {
    var ids := FinalIds(judge, sectorId, draft);
    var known := Known(ids, draft.support, |draft.support|);
    forall i | 0 <= i < |draft.support|
      ensures draft.support[i] in ids <==> AcceptedPath(judge, draft, draft.support[i])
    {
      IdsOfAccepted(judge, sectorId, draft, draft.support[i]);
    }
    KnownMembers(ids, draft.support, |draft.support|);
    if known != [] {
      assert known[0] in known;
    }
    if i :| 0 <= i < |draft.support| && AcceptedPath(judge, draft, draft.support[i]) {
      assert ids[draft.support[i]] in known;
    }
  }

  lemma {:induction false} DedupEmpty<T(!new)>(s: seq<T>)
    ensures Dedup(s) == [] <==> s == []
  {
    DedupElements(s);
    if s != [] {
      assert s[0] in Dedup(s);
    }
  }

  /** What the draft must satisfy, claim by claim and path by path. */
  predicate Promotable(judge: Judge, input: SectorInput, draft: Draft) {
    && Distinct(Paths(draft.claims))
    && (forall i :: 0 <= i < |draft.support| ==> draft.support[i] in Paths(draft.claims))
    && (forall i :: 0 <= i < |draft.claims| ==>
          judge(draft.claims[i]) != Raises
            && (judge(draft.claims[i]) == Accepts ==> Distinct(draft.claims[i].evidenceIds)))
    && |Kept(judge, draft.claims, |draft.claims|)| >= MINIMUM_VALID_CLAIMS
    && EventsCovered(judge, input, draft)
    && SupportSurvives(judge, draft)
    && (input.degraded ==> draft.uncertainties != [] || input.missingData != [])
  }

  lemma AssembledSucceeds(judge: Judge, input: SectorInput, draft: Draft)
    requires Distinct(Paths(draft.claims))
    ensures Assembled(judge, input, draft).Ok? <==>
              && |Kept(judge, draft.claims, |draft.claims|)| >= MINIMUM_VALID_CLAIMS
              && EventsCovered(judge, input, draft) && SupportSurvives(judge, draft)
              && (input.degraded ==> draft.uncertainties != [] || input.missingData != [])
  {
    CoverageDecides(judge, input, draft);
    SupportDecides(judge, input.sectorId, draft);
    DedupEmpty(draft.uncertainties + input.missingData);
  }

  /** Promotion succeeds on exactly the promotable drafts. */
  lemma PromotionSucceeds(judge: Judge, input: SectorInput, draft: Draft)
    ensures Promotion(judge, input, draft).Ok? <==> Promotable(judge, input, draft)
  {
    NoRepetition(Paths(draft.claims));
    ForeignDecides(draft.support, Paths(draft.claims), |draft.support|);
    LoopErrorDecides(judge, draft.claims, |draft.claims|);
    if Distinct(Paths(draft.claims)) {
      AssembledSucceeds(judge, input, draft);
    }
  }

  // ----- the output -----

  function Ids(claims: seq<Accepted>): (r: seq<string>)
    ensures |r| == |claims|
  {
    seq(|claims|, k requires 0 <= k < |claims| => claims[k].id)
  }

  /** The schema of the output: unique ids, contiguous paths, direct evidence, known support, honest status. */
  predicate SchemaValid(o: Output) {
    && o.claims != [] && Distinct(Ids(o.claims))
    && (forall k :: 0 <= k < |o.claims| ==>
          o.claims[k].path == ClaimPath(k) && o.claims[k].evidenceIds != [] && Distinct(o.claims[k].evidenceIds))
    && o.supportingIds != [] && (forall id :: id in o.supportingIds ==> id in Ids(o.claims))
    && (o.partial <==> o.droppedSupport != [])
  }

  lemma ClaimIdInjective(sectorId: string, j: nat, k: nat)
    requires ClaimId(sectorId, j) == ClaimId(sectorId, k)
    ensures j == k
  {
    var prefix := "sector:" + sectorId + ":claim:";
    assert ClaimId(sectorId, j)[|prefix|..] == Numeral(j);
    assert ClaimId(sectorId, k)[|prefix|..] == Numeral(k);
    NumeralValue(j);
    NumeralValue(k);
  }

  lemma PromotedIds(sectorId: string, kept: seq<DraftClaim>)
    ensures Distinct(Ids(PromotedAll(sectorId, kept)))
    ensures forall k :: 0 <= k < |kept| ==> Ids(PromotedAll(sectorId, kept))[k] == ClaimId(sectorId, k)
  {
    var ids := Ids(PromotedAll(sectorId, kept));
    forall i, j | 0 <= i < j < |ids| ensures ids[i] != ids[j] {
      if ids[i] == ids[j] {
        ClaimIdInjective(sectorId, i, j);
      }
    }
  }

  /** The submitted support, path by path: an accepted claim's id, or a dropped path. */
  ghost predicate SupportExact(judge: Judge, sectorId: string, draft: Draft, o: Output) {
    var ids := FinalIds(judge, sectorId, draft);
    && (forall id :: id in o.supportingIds <==>
        exists i :: 0 <= i < |draft.support| && draft.support[i] in ids && ids[draft.support[i]] == id)
    && (forall p :: p in o.droppedSupport <==> p in draft.support && !AcceptedPath(judge, draft, p))
    && Distinct(o.supportingIds) && Distinct(o.droppedSupport)
  }

  lemma SupportIsExact(judge: Judge, input: SectorInput, draft: Draft)
    requires Promotion(judge, input, draft).Ok?
    ensures SupportExact(judge, input.sectorId, draft, Promotion(judge, input, draft).value)
  {
    PromotionSucceeds(judge, input, draft);
    var ids := FinalIds(judge, input.sectorId, draft);
    SupportDecides(judge, input.sectorId, draft);
    KnownMembers(ids, draft.support, |draft.support|);
    DedupElements(Known(ids, draft.support, |draft.support|));
    DedupElements(Unknown(ids, draft.support, |draft.support|));
  }

  /** Each supporting id is the id of the promoted claim that the support path named. */
  lemma SupportingIdIsPromoted(judge: Judge, sectorId: string, draft: Draft, path: string)
    requires Distinct(Paths(draft.claims)) && path in FinalIds(judge, sectorId, draft)
    ensures var kept := Kept(judge, draft.claims, |draft.claims|);
            exists k ::
              0 <= k < |kept| && kept[k].path == path && FinalIds(judge, sectorId, draft)[path] == ClaimId(sectorId, k)
  {
    var kept := Kept(judge, draft.claims, |draft.claims|);
    KeptPathsDistinct(judge, draft.claims, |draft.claims|);
    PathIdsAt(sectorId, kept, |kept|);
    var k :| 0 <= k < |kept| && kept[k].path == path;
  }

  /** The judge accepts no claim without evidence. */
  ghost predicate Demanding(judge: Judge) { forall c :: judge(c) == Accepts ==> c.evidenceIds != [] }

  /** A promoted output satisfies its own schema, so building it cannot fail after the checks passed. */
  lemma PromotedIsSchemaValid(judge: Judge, input: SectorInput, draft: Draft)
    requires Promotion(judge, input, draft).Ok? && Demanding(judge)
    ensures SchemaValid(Promotion(judge, input, draft).value)
  {
    var o := Promotion(judge, input, draft).value;
    var kept := Kept(judge, draft.claims, |draft.claims|);
    PromotionSucceeds(judge, input, draft);
    SupportIsExact(judge, input, draft);
    PromotedIds(input.sectorId, kept);
    KeptMembers(judge, draft.claims, |draft.claims|);
    forall k | 0 <= k < |kept| ensures kept[k].evidenceIds != [] && Distinct(kept[k].evidenceIds) {
      assert kept[k] in kept;
    }
    var ids := FinalIds(judge, input.sectorId, draft);
    forall id | id in o.supportingIds ensures id in Ids(o.claims) {
      var i :| 0 <= i < |draft.support| && draft.support[i] in ids && ids[draft.support[i]] == id;
      SupportingIdIsPromoted(judge, input.sectorId, draft, draft.support[i]);
    }
    DedupEmpty(Known(ids, draft.support, |draft.support|));
    DedupEmpty(Unknown(ids, draft.support, |draft.support|));
  }

  // ----- the status map -----

  datatype Status = ACCEPTED | QUARANTINED

  function RejectedPaths(rejected: seq<Rejected>): set<string> { set r | r in rejected :: r.path }

  method ClaimStatusMap(claims: seq<DraftClaim>, rejected: seq<Rejected>) returns (m: map<string, Status>)
    ensures m == StatusMap(claims, rejected, |claims|)
  {
    m := map[];
    for i := 0 to |claims|
      invariant m == StatusMap(claims, rejected, i)
    {
      m := m[claims[i].path := if claims[i].path in RejectedPaths(rejected) then QUARANTINED else ACCEPTED];
    }
  }

  function StatusMap(claims: seq<DraftClaim>, rejected: seq<Rejected>, n: nat): map<string, Status>
    requires n <= |claims|
  {
    if n == 0 then map[]
    else
      StatusMap(claims, rejected, n - 1)[claims[n - 1].path :=
        if claims[n - 1].path in RejectedPaths(rejected) then QUARANTINED else ACCEPTED]
  }

  lemma {:induction false} StatusMapAt(claims: seq<DraftClaim>, rejected: seq<Rejected>, n: nat, i: nat)
    requires i < n <= |claims|
    ensures claims[i].path in StatusMap(claims, rejected, n)
    ensures StatusMap(claims, rejected, n)[claims[i].path]
         == if claims[i].path in RejectedPaths(rejected) then QUARANTINED else ACCEPTED
    decreases n
  {
    if i < n - 1 {
      StatusMapAt(claims, rejected, n - 1, i);
    }
  }

  /** After a promotion the map agrees with the partition: accepted exactly when the claim was promoted. */
  lemma StatusAgrees(judge: Judge, input: SectorInput, draft: Draft, i: nat)
    requires Promotion(judge, input, draft).Ok? && i < |draft.claims|
    ensures var m := StatusMap(draft.claims, Promotion(judge, input, draft).value.rejected, |draft.claims|);
            draft.claims[i].path in m && (m[draft.claims[i].path] == ACCEPTED <==> judge(draft.claims[i]) == Accepts)
  {
    var rejected := Dropped(judge, draft.claims, |draft.claims|);
    PromotionSucceeds(judge, input, draft);
    StatusMapAt(draft.claims, rejected, |draft.claims|, i);
    DroppedMembers(judge, draft.claims, |draft.claims|);
    var path := draft.claims[i].path;
    forall j | 0 <= j < |draft.claims| && draft.claims[j].path == path ensures j == i {
      assert Paths(draft.claims)[j] == Paths(draft.claims)[i];
    }
    if judge(draft.claims[i]).Rejects? {
      assert Rejected(path, judge(draft.claims[i]).reason) in rejected;
    }
  }

  // ----- the judge: direct evidence, grounding and wording -----

  datatype SectorEvidence = SectorEvidence(entry: Entry, associationOnly: bool, candidateOnly: bool,
                                           requiresDegradation: bool, anomalyEvent: bool)

  /** The text-matching rules, as far as promotion uses them. */
  datatype Wording = Wording(patterns: Patterns, prohibited: string -> bool, causal: string -> bool,
                             certain: string -> bool, degraded: string -> bool)

  type Index = map<string, SectorEvidence>

  predicate AllIndexed(index: Index, ids: seq<string>) { forall id :: id in ids ==> id in index }

  function Bound(index: Index, ids: seq<string>): (r: seq<SectorEvidence>)
    requires AllIndexed(index, ids)
    ensures |r| == |ids|
  {
    seq(|ids|, i requires 0 <= i < |ids| => assert ids[i] in ids; index[ids[i]])
  }

  function EntriesOf(bound: seq<SectorEvidence>): (r: seq<Entry>)
    ensures |r| == |bound|
  {
    seq(|bound|, i requires 0 <= i < |bound| => bound[i].entry)
  }

  function ClaimRejection(w: Wording, index: Index, c: DraftClaim): Judgement {
    if c.evidenceIds == [] then Rejects("missing_direct_upstream_evidence")
    else if !AllIndexed(index, c.evidenceIds) then Rejects("unknown_direct_upstream_evidence")
    else if w.prohibited(c.text) then Rejects("prohibited_claim_intent")
    else
      var bound := Bound(index, c.evidenceIds);
      match Ground(w.patterns, c.text, EntriesOf(bound))
      case Err(_) => Raises
      case Ok(g) =>
        if g.ungrounded != [] then Rejects("numeric_literal_not_grounded:" + g.ungrounded[0])
        else if (exists b :: b in bound && b.associationOnly) && w.causal(c.text) then
          Rejects("historical_association_misstated_as_causality")
        else if (exists b :: b in bound && b.candidateOnly) && w.certain(c.text) then
          Rejects("propagation_candidate_misstated_as_fact")
        else if (exists b :: b in bound && b.requiresDegradation) && !w.degraded(c.text) then
          Rejects("partial_or_candidate_evidence_not_disclosed")
        else if c.category == "catalysts" && !(exists b :: b in bound && b.anomalyEvent) then
          Rejects("catalyst_requires_upstream_event")
        else Accepts
  }

  function SectorJudge(w: Wording, index: Index): Judge { (c: DraftClaim) => ClaimRejection(w, index, c) }

  /** The literal has a match among the matches of the grounding. */
  predicate HasMatch(w: Wording, text: string, entries: seq<Entry>, literal: string)
    requires Ground(w.patterns, text, entries).Ok?
  {
    exists m ::
      m in Ground(w.patterns, text, entries).value.matches && m.literal == literal
        && Supported(w.patterns, text, m, entries)
  }

  lemma NothingUngrounded(w: Wording, text: string, entries: seq<Entry>, literal: string)
    requires Ground(w.patterns, text, entries).Ok? && Ground(w.patterns, text, entries).value.ungrounded == []
    requires literal in Literals(text)
    ensures HasMatch(w, text, entries, literal)
  {
    var g := Ground(w.patterns, text, entries).value;
    GroundingSplits(w.patterns, text, entries);
    assert literal in multiset(g.literals);
    assert literal in multiset(MatchLiterals(g.matches));
    assert literal in MatchLiterals(g.matches);
    var i :| 0 <= i < |g.matches| && MatchLiterals(g.matches)[i] == literal;
    assert g.matches[i] in g.matches;
  }

  /** Every number of a promoted claim is supported by an evidence item that the claim itself cites. */
  lemma PromotedNumbersAreSupported(w: Wording, index: Index, input: SectorInput, draft: Draft, k: nat, literal: string)
    requires Promotion(SectorJudge(w, index), input, draft).Ok?
    requires k < |Promotion(SectorJudge(w, index), input, draft).value.claims|
    requires literal in Promotion(SectorJudge(w, index), input, draft).value.claims[k].literals
    ensures var c := Promotion(SectorJudge(w, index), input, draft).value.claims[k];
            && c.evidenceIds != [] && AllIndexed(index, c.evidenceIds)
            && Ground(w.patterns, c.text, EntriesOf(Bound(index, c.evidenceIds))).Ok?
            && HasMatch(w, c.text, EntriesOf(Bound(index, c.evidenceIds)), literal)
  {
    var judge := SectorJudge(w, index);
    var kept := Kept(judge, draft.claims, |draft.claims|);
    KeptMembers(judge, draft.claims, |draft.claims|);
    assert kept[k] in kept;
    NothingUngrounded(w, kept[k].text, EntriesOf(Bound(index, kept[k].evidenceIds)), literal);
  }

  lemma JudgeIsDemanding(w: Wording, index: Index)
    ensures Demanding(SectorJudge(w, index))
  {}

  // ----- a repeated evidence id -----

  function Plain(i: nat): DraftClaim { DraftClaim(ClaimPath(i), "x", "trend", ["e"]) }

  /** Three sound claims and a fourth that cites its evidence twice. */
  function Doubled(): Draft {
    Draft([Plain(0), Plain(1), Plain(2), DraftClaim(ClaimPath(3), "x", "trend", ["e", "e"])], [ClaimPath(0)], [])
  }

  /** The same draft without the fourth claim. */
  function Undoubled(): Draft { Draft([Plain(0), Plain(1), Plain(2)], [ClaimPath(0)], []) }

  lemma ClaimPathInjective(j: nat, k: nat)
    requires ClaimPath(j) == ClaimPath(k)
    ensures j == k
  {
    assert ClaimPath(j)[7..|ClaimPath(j)| - 1] == Numeral(j);
    assert ClaimPath(k)[7..|ClaimPath(k)| - 1] == Numeral(k);
    NumeralValue(j);
    NumeralValue(k);
  }

  lemma FourPaths()
    ensures Distinct(Paths(Doubled().claims)) && Distinct(Paths(Undoubled().claims))
  {
    forall j, k | 0 <= j < k < 4 ensures ClaimPath(j) != ClaimPath(k) {
      if ClaimPath(j) == ClaimPath(k) {
        ClaimPathInjective(j, k);
      }
    }
    forall k | 0 <= k < 4 ensures Paths(Doubled().claims)[k] == ClaimPath(k) {}
    forall k | 0 <= k < 3 ensures Paths(Undoubled().claims)[k] == ClaimPath(k) {}
  }

  /** The judge accepts the claims of both drafts. */
  predicate AcceptsBoth(judge: Judge) { forall c :: c in Doubled().claims ==> judge(c) == Accepts }

  /**
   An accepted claim that repeats an evidence id fails the whole promotion, which succeeds without
   that claim; the claim is not quarantined.
   */
  lemma RepeatedEvidenceFailsAll(judge: Judge, input: SectorInput)
    requires AcceptsBoth(judge) && input.events == [] && !input.degraded
    ensures Promotion(judge, input, Doubled()) == Err(ClaimSchema)
    ensures Promotion(judge, input, Undoubled()).Ok?
  {
    FourPaths();
    DoubledFails(judge, input);
    UndoubledSucceeds(judge, input);
  }

  lemma DoubledFails(judge: Judge, input: SectorInput)
    requires AcceptsBoth(judge) && Distinct(Paths(Doubled().claims))
    ensures Promotion(judge, input, Doubled()) == Err(ClaimSchema)
  {
    var cs, paths := Doubled().claims, Paths(Doubled().claims);
    NoRepetition(paths);
    assert paths[0] == ClaimPath(0);
    ForeignDecides(Doubled().support, paths, 1);
    assert cs[0] in cs && cs[1] in cs && cs[2] in cs && cs[3] in cs;
    assert cs[3].evidenceIds[0] == cs[3].evidenceIds[1];
    LoopErrorDecides(judge, cs, 3);
    assert LoopError(judge, cs, 4) == Some(ClaimSchema);
  }

  lemma {:induction false} AllKept(judge: Judge, claims: seq<DraftClaim>, n: nat)
    requires n <= |claims| && forall i :: 0 <= i < n ==> judge(claims[i]) == Accepts
    ensures |Kept(judge, claims, n)| == n
  {
    if n > 0 {
      AllKept(judge, claims, n - 1);
    }
  }

  lemma UndoubledAccepted(judge: Judge)
    requires AcceptsBoth(judge)
    ensures forall i :: 0 <= i < 3 ==> judge(Undoubled().claims[i]) == Accepts
  {
    forall i | 0 <= i < 3 ensures judge(Undoubled().claims[i]) == Accepts {
      assert Doubled().claims[i] == Undoubled().claims[i];
    }
  }

  lemma FirstSurvives(judge: Judge, draft: Draft)
    requires draft.claims != [] && draft.support == [draft.claims[0].path] && judge(draft.claims[0]) == Accepts
    ensures SupportSurvives(judge, draft) && draft.support[0] in Paths(draft.claims)
  {
    assert Paths(draft.claims)[0] == draft.support[0];
    assert AcceptedPath(judge, draft, draft.support[0]);
  }

  lemma UndoubledSucceeds(judge: Judge, input: SectorInput)
    requires AcceptsBoth(judge) && Distinct(Paths(Undoubled().claims)) && input.events == [] && !input.degraded
    ensures Promotion(judge, input, Undoubled()).Ok?
  {
    UndoubledAccepted(judge);
    PlainDraftSucceeds(judge, input, Undoubled());
  }

  /** A draft of accepted claims without repetitions, supported by its first. */
  lemma PlainDraftSucceeds(judge: Judge, input: SectorInput, draft: Draft)
    requires |draft.claims| == 3 && Distinct(Paths(draft.claims)) && draft.support == [draft.claims[0].path]
    requires forall i :: 0 <= i < 3 ==> judge(draft.claims[i]) == Accepts && Distinct(draft.claims[i].evidenceIds)
    requires input.events == [] && !input.degraded
    ensures Promotion(judge, input, draft).Ok?
  {
    AllKept(judge, draft.claims, 3);
    FirstSurvives(judge, draft);
    PromotionSucceeds(judge, input, draft);
  }

  /** The claim rules accept the claims of both drafts, over one plain evidence item. */
  lemma SectorJudgeAccepts(w: Wording, item: SectorEvidence)
    requires !w.prohibited("x") && w.patterns.identifiers("x") == []
    requires !item.associationOnly && !item.candidateOnly && !item.requiresDegradation
    ensures AcceptsBoth(SectorJudge(w, map["e" := item]))
  {
    NoNumbers();
    forall c | c in Doubled().claims ensures ClaimRejection(w, map["e" := item], c) == Accepts {
      PlainAccepted(w, map["e" := item], c);
    }
  }

  lemma PlainAccepted(w: Wording, index: Index, c: DraftClaim)
    requires c.text == "x" && c.category == "trend" && c.evidenceIds != [] && AllIndexed(index, c.evidenceIds)
    requires !w.prohibited("x") && w.patterns.identifiers("x") == [] && Literals("x") == []
    requires forall id :: id in index ==>
      !index[id].associationOnly && !index[id].candidateOnly && !index[id].requiresDegradation
    ensures ClaimRejection(w, index, c) == Accepts
  {
    var bound := Bound(index, c.evidenceIds);
    assert ClaimLiterals(w.patterns, "x", EntriesOf(bound)) == [];
    assert |"trend"| != |"catalysts"|;
    forall b | b in bound ensures !b.associationOnly && !b.candidateOnly && !b.requiresDegradation {
      var i :| 0 <= i < |bound| && bound[i] == b;
      assert c.evidenceIds[i] in c.evidenceIds;
    }
  }
}
