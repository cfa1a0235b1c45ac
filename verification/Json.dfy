/**
 Agent payloads as JSON trees.  A dictionary that has exactly the fields of a Claim binding is a
 `Record`; every other dictionary is an `Obj`.
 */
module Json {
  import opened Sequences
  import opened Evidence

  datatype Intent = Fact | ThirdPartyOpinion | AnalyticalInference | SystemRecommendation | ExecutionInstruction

  /** One Claim with its provenance route: directly to Evidence, or to upstream Claims. */
  datatype Binding = Binding(
    path: string, text: string, literals: seq<string>,
    evidenceIds: seq<string>, upstreamIds: seq<string>, sources: seq<Source>,
    claimId: Option<string>, intent: Intent)
  {
    /** The schema of an accepted Claim. */
    predicate Valid() {
      && path != "" && text != "" && claimId != Some("")
      && Distinct(literals) && Distinct(evidenceIds) && Distinct(upstreamIds)
      && (evidenceIds != [] <==> upstreamIds == [])
    }
  }

  datatype Field = Field(key: string, value: Json)

  datatype Json =
    | Null
    | Text(value: string)
    | Arr(items: seq<Json>)
    | Obj(fields: seq<Field>)
    | Record(claim: Binding)

  /** The accepted Claim that a JSON item holds, if it satisfies the Claim schema. */
  function Validated(item: Json): Option<Binding> {
    if item.Record? && item.claim.Valid() then Some(item.claim) else None
  }

  function Texts(s: seq<string>): seq<Json> {
    seq(|s|, i requires 0 <= i < |s| => Text(s[i]))
  }

  function Records(claims: seq<Binding>): seq<Json> {
    seq(|claims|, i requires 0 <= i < |claims| => Record(claims[i]))
  }

  function RecordFields(c: Binding): seq<Field> {
    [Field("claim_path", Text(c.path)), Field("claim_text", Text(c.text)),
     Field("numeric_literals", Arr(Texts(c.literals))), Field("evidence_ids", Arr(Texts(c.evidenceIds))),
     Field("upstream_claim_ids", Arr(Texts(c.upstreamIds))),
     Field("claim_id", if c.claimId.Some? then Text(c.claimId.value) else Null)]
  }

  function Get(fields: seq<Field>, key: string): Json {
    if fields == [] then Null
    else if fields[0].key == key then fields[0].value
    else Get(fields[1..], key)
  }

  predicate IsDict(j: Json) { j.Obj? || j.Record? }

  /** `value.get(key)` on a dictionary; `Null` for an absent key. */
  function Member(j: Json, key: string): Json
    requires IsDict(j)
  {
    if j.Obj? then Get(j.fields, key) else Get(RecordFields(j.claim), key)
  }

  // ----- the validator's walk: every accepted Claim anywhere in the payload, last one wins -----

  function ListedClaims(items: seq<Json>): seq<Binding> {
    if items == [] then []
    else
      var n := |items| - 1;
      var claim := Validated(items[n]);
      ListedClaims(items[..n])
      + if claim.Some? && claim.value.claimId.Some? then [claim.value] else []
  }

  function ClaimsUnder(j: Json, key: string): seq<Binding>
    requires j.Obj?
  {
    var raw := Get(j.fields, key);
    if raw.Arr? then ListedClaims(raw.items) else []
  }

  /** The Claims in the order in which the walk meets them. */
  function Visited(j: Json): seq<Binding>
    decreases j, 1
  {
    match j
    case Obj(fields) =>
      ClaimLists(j) + VisitedFields(j, |fields|)
    case Arr(items) => VisitedItems(j, |items|)
    case _ => []
  }

  function VisitedFields(j: Json, n: nat): seq<Binding>
    requires j.Obj? && n <= |j.fields|
    decreases j, 0, n
  {
    if n == 0 then [] else VisitedFields(j, n - 1) + Visited(j.fields[n - 1].value)
  }

  function VisitedItems(j: Json, n: nat): seq<Binding>
    requires j.Arr? && n <= |j.items|
    decreases j, 0, n
  {
    if n == 0 then [] else VisitedItems(j, n - 1) + Visited(j.items[n - 1])
  }

  /** A dictionary filled in order, so that the last Claim with an id is the one kept. */
  function Index(start: map<string, Binding>, claims: seq<Binding>): map<string, Binding> {
    if claims == [] then start
    else
      var c := claims[|claims| - 1];
      var before := Index(start, claims[..|claims| - 1]);
      if c.claimId.Some? then before[c.claimId.value := c] else before
  }

  lemma {:induction false} IndexAppend(start: map<string, Binding>, a: seq<Binding>, b: seq<Binding>)
    ensures Index(Index(start, a), b) == Index(start, a + b)
  {
    if b == [] {
      assert a + b == a;
    } else {
      IndexAppend(start, a, b[..|b| - 1]);
      assert (a + b)[..|a + b| - 1] == a + b[..|b| - 1];
    }
  }

  lemma {:induction false} IndexMembers(claims: seq<Binding>)
    ensures forall id :: id in Index(map[], claims) <==> exists c :: c in claims && c.claimId == Some(id)
    ensures forall id :: id in Index(map[], claims) ==>
              Index(map[], claims)[id] in claims && Index(map[], claims)[id].claimId == Some(id)
  {
    if claims != [] {
      IndexMembers(claims[..|claims| - 1]);
      assert claims == claims[..|claims| - 1] + [claims[|claims| - 1]];
    }
  }

  method VisitList(items: seq<Json>, start: map<string, Binding>) returns (found: map<string, Binding>)
    ensures found == Index(start, ListedClaims(items))
  {
    found := start;
    for i := 0 to |items|
      invariant found == Index(start, ListedClaims(items[..i]))
    {
      assert items[..i + 1][..i] == items[..i];
      var claim := Validated(items[i]);
      if claim.Some? && claim.value.claimId.Some? {
        IndexAppend(start, ListedClaims(items[..i]), [claim.value]);
        assert Index(found, [claim.value]) == found[claim.value.claimId.value := claim.value] by {
          assert [claim.value][..0] == [];
        }
        found := found[claim.value.claimId.value := claim.value];
      } else {
        assert ListedClaims(items[..i + 1]) == ListedClaims(items[..i]);
      }
    }
    assert items[..|items|] == items;
  }

  function ClaimLists(j: Json): seq<Binding>
    requires j.Obj?
  {
    ClaimsUnder(j, "validated_claims") + ClaimsUnder(j, "claim_evidence")
  }

  method VisitKey(j: Json, key: string, start: map<string, Binding>) returns (found: map<string, Binding>)
    requires j.Obj?
    ensures found == Index(start, ClaimsUnder(j, key))
  {
    found := start;
    var raw := Get(j.fields, key);
    if raw.Arr? {
      found := VisitList(raw.items, found);
    }
  }

  method VisitFields(j: Json, start: map<string, Binding>) returns (found: map<string, Binding>)
    requires j.Obj?
    ensures found == Index(start, VisitedFields(j, |j.fields|))
    decreases j, 0
  {
    found := start;
    for i := 0 to |j.fields|
      invariant found == Index(start, VisitedFields(j, i))
    {
      IndexAppend(start, VisitedFields(j, i), Visited(j.fields[i].value));
      assert VisitedFields(j, i + 1) == VisitedFields(j, i) + Visited(j.fields[i].value);
      found := Visit(j.fields[i].value, found);
    }
  }

  method VisitItems(j: Json, start: map<string, Binding>) returns (found: map<string, Binding>)
    requires j.Arr?
    ensures found == Index(start, VisitedItems(j, |j.items|))
    decreases j, 0
  {
    found := start;
    for i := 0 to |j.items|
      invariant found == Index(start, VisitedItems(j, i))
    {
      IndexAppend(start, VisitedItems(j, i), Visited(j.items[i]));
      assert VisitedItems(j, i + 1) == VisitedItems(j, i) + Visited(j.items[i]);
      found := Visit(j.items[i], found);
    }
  }

  method Visit(j: Json, start: map<string, Binding>) returns (found: map<string, Binding>)
    ensures found == Index(start, Visited(j))
    decreases j, 1
  {
    found := start;
    if j.Obj? {
      found := VisitKey(j, "validated_claims", found);
      found := VisitKey(j, "claim_evidence", found);
      IndexAppend(start, ClaimsUnder(j, "validated_claims"), ClaimsUnder(j, "claim_evidence"));
      IndexAppend(start, ClaimLists(j), VisitedFields(j, |j.fields|));
      found := VisitFields(j, found);
    } else if j.Arr? {
      found := VisitItems(j, found);
    }
  }

  function UpstreamIndex(payload: Json): map<string, Binding> { Index(map[], Visited(payload)) }

  method UpstreamClaimIndex(payload: Json) returns (found: map<string, Binding>)
    ensures found == UpstreamIndex(payload)
  {
    found := Visit(payload, map[]);
  }

  // ----- the projection's walk: what a Manager is shown, first one wins -----

  function ClaimIdOf(item: Json): Option<string> {
    if !IsDict(item) then None
    else match Member(item, "claim_id") case Text(id) => Some(id) case _ => None
  }

  /** The listed items of a contract in walking order, before duplicates are dropped. */
  function Collected(j: Json): seq<Json>
    decreases j, 1
  {
    match j
    case Obj(fields) =>
      var raw := Get(fields, "validated_claims");
      (if raw.Arr? then raw.items else []) + CollectedFields(j, |fields|)
    case Arr(items) => CollectedItems(j, |items|)
    case _ => []
  }

  function CollectedFields(j: Json, n: nat): seq<Json>
    requires j.Obj? && n <= |j.fields|
    decreases j, 0, n
  {
    if n == 0 then [] else CollectedFields(j, n - 1) + Collected(j.fields[n - 1].value)
  }

  function CollectedItems(j: Json, n: nat): seq<Json>
    requires j.Arr? && n <= |j.items|
    decreases j, 0, n
  {
    if n == 0 then [] else CollectedItems(j, n - 1) + Collected(j.items[n - 1])
  }

  /** Items with an id that no earlier item has. */
  function FirstById(items: seq<Json>): seq<Json> {
    if items == [] then []
    else
      var n := |items| - 1;
      var id := ClaimIdOf(items[n]);
      FirstById(items[..n])
      + if id.Some? && (forall k :: 0 <= k < n ==> ClaimIdOf(items[k]) != id) then [items[n]] else []
  }

  function ShownToManager(contract: Json): seq<Json> { FirstById(Collected(contract)) }

  lemma {:induction false} FirstByIdMembers(items: seq<Json>)
    ensures forall x :: x in FirstById(items) ==> x in items
  {
    if items != [] {
      FirstByIdMembers(items[..|items| - 1]);
    }
  }

  lemma {:induction false} ListedMembers(items: seq<Json>)
    ensures forall c :: c in ListedClaims(items) <==>
      c.claimId.Some? && exists x :: x in items && Validated(x) == Some(c)
  {
    if items != [] {
      var n := |items| - 1;
      ListedMembers(items[..n]);
      assert items == items[..n] + [items[n]];
    }
  }

  lemma {:induction false} FieldVisited(j: Json, n: nat, i: nat)
    requires j.Obj? && i < n <= |j.fields|
    ensures forall c :: c in Visited(j.fields[i].value) ==> c in VisitedFields(j, n)
    decreases n
  {
    if i < n - 1 {
      FieldVisited(j, n - 1, i);
    }
  }

  lemma {:induction false} ItemVisited(j: Json, n: nat, i: nat)
    requires j.Arr? && i < n <= |j.items|
    ensures forall c :: c in Visited(j.items[i]) ==> c in VisitedItems(j, n)
    decreases n
  {
    if i < n - 1 {
      ItemVisited(j, n - 1, i);
    }
  }

  /** Every schema-valid item that the projection's walk meets is met by the validator's walk. */
  lemma {:induction false} CollectedIsVisited(j: Json, item: Json, c: Binding)
    requires item in Collected(j) && Validated(item) == Some(c) && c.claimId.Some?
    ensures c in Visited(j)
    decreases j, 1
  {
    match j {
      case Obj(fields) =>
        var raw := Get(fields, "validated_claims");
        if raw.Arr? && item in raw.items {
          ListedMembers(raw.items);
        } else {
          CollectedFieldVisited(j, |fields|, item, c);
        }
      case Arr(items) => CollectedItemVisited(j, |items|, item, c);
      case _ =>
    }
  }

  lemma {:induction false} CollectedFieldVisited(j: Json, n: nat, item: Json, c: Binding)
    requires j.Obj? && n <= |j.fields| && item in CollectedFields(j, n)
    requires Validated(item) == Some(c) && c.claimId.Some?
    ensures c in VisitedFields(j, n)
    decreases j, 0, n
  {
    if item in Collected(j.fields[n - 1].value) {
      CollectedIsVisited(j.fields[n - 1].value, item, c);
    } else {
      CollectedFieldVisited(j, n - 1, item, c);
    }
  }

  lemma {:induction false} CollectedItemVisited(j: Json, n: nat, item: Json, c: Binding)
    requires j.Arr? && n <= |j.items| && item in CollectedItems(j, n)
    requires Validated(item) == Some(c) && c.claimId.Some?
    ensures c in VisitedItems(j, n)
    decreases j, 0, n
  {
    if item in Collected(j.items[n - 1]) {
      CollectedIsVisited(j.items[n - 1], item, c);
    } else {
      CollectedItemVisited(j, n - 1, item, c);
    }
  }

  /** Equal ids carry equal Claims. */
  predicate Consistent(claims: seq<Binding>) {
    forall c, d :: c in claims && d in claims && c.claimId == d.claimId ==> c == d
  }

  /**
   Every schema-valid Claim shown to a Manager from the contract is known to the validator, which
   indexes the whole payload; and when equal ids carry equal Claims it is the same Claim.
   */
  lemma ShownClaimsAreIndexed(payload: Json, contract: Json, item: Json, c: Binding)
    requires payload.Obj? && Field("research_contract", contract) in payload.fields
    requires item in ShownToManager(contract) && Validated(item) == Some(c) && c.claimId.Some?
    ensures c.claimId.value in UpstreamIndex(payload)
    ensures Consistent(Visited(payload)) ==> UpstreamIndex(payload)[c.claimId.value] == c
  {
    FirstByIdMembers(Collected(contract));
    CollectedIsVisited(contract, item, c);
    var i :| 0 <= i < |payload.fields| && payload.fields[i] == Field("research_contract", contract);
    FieldVisited(payload, |payload.fields|, i);
    IndexMembers(Visited(payload));
  }
}
