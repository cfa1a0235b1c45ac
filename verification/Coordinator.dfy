/** The fixed eight-Agent research chain, and where its accepted Claims come from. */
module Coordinator {
  import opened Sequences
  import opened Scanner
  import opened Evidence
  import opened Json
  import opened Sections
  import opened Claims
  import opened Validation
  import opened Roles
  import opened Agents

  // ----- payload trees whose Claims all have a property -----

  type Claimed = Binding -> bool

  predicate All(bs: seq<Binding>, ok: Claimed) { forall b :: b in bs ==> ok(b) }

  predicate Clean(j: Json, ok: Claimed) { All(Visited(j), ok) }

  predicate ListClean(j: Json, ok: Claimed) { j.Arr? ==> All(ListedClaims(j.items), ok) }

  predicate IsListKey(key: string) { key == "validated_claims" || key == "claim_evidence" }

  predicate CleanField(f: Field, ok: Claimed) {
    Clean(f.value, ok) && (IsListKey(f.key) ==> ListClean(f.value, ok))
  }

  predicate CleanFields(fields: seq<Field>, ok: Claimed) {
    forall i :: 0 <= i < |fields| ==> CleanField(fields[i], ok)
  }

  lemma {:induction false} GetIsField(fields: seq<Field>, key: string)
    ensures Get(fields, key) == Null || exists i :: 0 <= i < |fields| && fields[i] == Field(key, Get(fields, key))
  {
    if fields != [] && fields[0].key != key {
      GetIsField(fields[1..], key);
      if i :| 0 <= i < |fields[1..]| && fields[1..][i] == Field(key, Get(fields[1..], key)) {
        assert fields[i + 1] == Field(key, Get(fields, key));
      }
    } else if fields != [] {
      assert fields[0] == Field(key, Get(fields, key));
    }
  }

  lemma AllConcat(a: seq<Binding>, b: seq<Binding>, ok: Claimed)
    requires All(a, ok) && All(b, ok)
    ensures All(a + b, ok)
  {}

  lemma NextField(j: Json, n: nat)
    requires j.Obj? && 0 < n <= |j.fields|
    ensures VisitedFields(j, n) == VisitedFields(j, n - 1) + Visited(j.fields[n - 1].value)
  {}

  lemma NextItem(j: Json, n: nat)
    requires j.Arr? && 0 < n <= |j.items|
    ensures VisitedItems(j, n) == VisitedItems(j, n - 1) + Visited(j.items[n - 1])
  {}

  lemma CleanStep(before: seq<Binding>, value: Json, after: seq<Binding>, ok: Claimed)
    requires All(before, ok) && Clean(value, ok) && after == before + Visited(value)
    ensures All(after, ok)
  {}

  lemma {:induction false} FieldsVisitedClean(j: Json, n: nat, ok: Claimed)
    requires j.Obj? && n <= |j.fields| && CleanFields(j.fields, ok)
    ensures All(VisitedFields(j, n), ok)
    decreases n
  {
    if n > 0 {
      FieldsVisitedClean(j, n - 1, ok);
      assert CleanField(j.fields[n - 1], ok);
      NextField(j, n);
      CleanStep(VisitedFields(j, n - 1), j.fields[n - 1].value, VisitedFields(j, n), ok);
    }
  }

  lemma ClaimsUnderClean(j: Json, key: string, ok: Claimed)
    requires j.Obj? && IsListKey(key) && CleanFields(j.fields, ok)
    ensures All(ClaimsUnder(j, key), ok)
  {
    GetIsField(j.fields, key);
    if Get(j.fields, key).Arr? {
      var i :| 0 <= i < |j.fields| && j.fields[i] == Field(key, Get(j.fields, key));
      assert CleanField(j.fields[i], ok);
    }
  }

  lemma CleanObj(fields: seq<Field>, ok: Claimed)
    requires CleanFields(fields, ok)
    ensures Clean(Obj(fields), ok)
  {
    var j := Obj(fields);
    ClaimsUnderClean(j, "validated_claims", ok);
    ClaimsUnderClean(j, "claim_evidence", ok);
    FieldsVisitedClean(j, |fields|, ok);
    AllConcat(ClaimsUnder(j, "validated_claims"), ClaimsUnder(j, "claim_evidence"), ok);
    AllConcat(ClaimLists(j), VisitedFields(j, |fields|), ok);
  }

  lemma {:induction false} ItemsVisitedClean(j: Json, n: nat, ok: Claimed)
    requires j.Arr? && n <= |j.items| && forall i :: 0 <= i < |j.items| ==> Clean(j.items[i], ok)
    ensures All(VisitedItems(j, n), ok)
    decreases n
  {
    if n > 0 {
      ItemsVisitedClean(j, n - 1, ok);
      NextItem(j, n);
      CleanStep(VisitedItems(j, n - 1), j.items[n - 1], VisitedItems(j, n), ok);
    }
  }

  lemma CleanArr(items: seq<Json>, ok: Claimed)
    requires forall i :: 0 <= i < |items| ==> Clean(items[i], ok)
    ensures Clean(Arr(items), ok)
  {
    ItemsVisitedClean(Arr(items), |items|, ok);
  }

  lemma CleanTexts(s: seq<string>, ok: Claimed)
    ensures Clean(Arr(Texts(s)), ok) && ListClean(Arr(Texts(s)), ok)
  {
    ListedMembers(Texts(s));
    CleanArr(Texts(s), ok);
  }

  lemma CleanRecords(claims: seq<Binding>, ok: Claimed)
    requires All(claims, ok)
    ensures Clean(Arr(Records(claims)), ok) && ListClean(Arr(Records(claims)), ok)
  {
    ListedMembers(Records(claims));
    forall x | x in Records(claims) ensures exists c :: c in claims && x == Record(c) {
      var i :| 0 <= i < |claims| && Records(claims)[i] == x;
      assert claims[i] in claims;
    }
    CleanArr(Records(claims), ok);
  }

  lemma BodyClean(shape: Shape, lists: Lists, ok: Claimed)
    requires HasSections(shape, lists)
    ensures CleanFields(BodyFields(shape, lists, |shape.sections|), ok)
  {
    BodyFieldsAt(shape, lists, |shape.sections|);
    forall k | 0 <= k < |shape.sections|
      ensures CleanField(Field(shape.sections[k], Arr(Texts(lists[shape.sections[k]]))), ok)
    {
      CleanTexts(lists[shape.sections[k]], ok);
    }
  }

  lemma BesideClean(out: Output, ok: Claimed)
    requires All(out.bindings, ok) && Clean(out.metadata, ok)
    ensures CleanFields(Beside(out), ok)
  {
    CleanTexts(out.uncertainties, ok);
    CleanRecords(out.bindings, ok);
  }

  lemma TopClean(agent: string, ok: Claimed)
    ensures CleanFields(Top(agent), ok)
  {}

  function ResponseBody(shape: Shape, out: Output): Json
    requires WellShaped(shape, out)
  {
    Obj(BodyFields(shape, out.lists, |shape.sections|) + Beside(out))
  }

  lemma ResponseBodyClean(shape: Shape, out: Output, ok: Claimed)
    requires WellShaped(shape, out) && All(out.bindings, ok) && Clean(out.metadata, ok)
    ensures CleanFields(BodyFields(shape, out.lists, |shape.sections|) + Beside(out), ok)
    ensures Clean(ResponseBody(shape, out), ok)
  {
    BodyClean(shape, out.lists, ok);
    BesideClean(out, ok);
    CleanObj(BodyFields(shape, out.lists, |shape.sections|) + Beside(out), ok);
  }

  /** A response whose bindings are rooted brings no other Claims into a payload. */
  lemma OutputClean(agent: string, shape: Shape, out: Output, ok: Claimed)
    requires WellShaped(shape, out) && All(out.bindings, ok) && Clean(out.metadata, ok)
    ensures Clean(OutputJson(agent, shape, out), ok)
  {
    ResponseBodyClean(shape, out, ok);
    TopClean(agent, ok);
    if shape.nested {
      CleanObj([Field("analysis", ResponseBody(shape, out))] + Top(agent), ok);
    } else {
      CleanObj(BodyFields(shape, out.lists, |shape.sections|) + Beside(out) + Top(agent), ok);
    }
  }

  // ----- rejected Claims in the metadata bring no Claims -----

  lemma {:induction false} GetWithField(fields: seq<Field>, key: string, value: Json, other: string)
    requires other != key
    ensures Get(WithField(fields, key, value), other) == Get(fields, other)
  {
    if fields != [] && fields[0].key != key && fields[0].key != other {
      GetWithField(fields[1..], key, value, other);
    }
  }

  lemma {:induction false} WithFieldMembers(fields: seq<Field>, key: string, value: Json)
    ensures forall f :: f in WithField(fields, key, value) ==> f in fields || f == Field(key, value)
  {
    if fields != [] && fields[0].key != key {
      WithFieldMembers(fields[1..], key, value);
    }
  }

  lemma {:induction false} FieldsVisitedMembers(j: Json, n: nat, c: Binding)
    requires j.Obj? && n <= |j.fields|
    ensures c in VisitedFields(j, n) <==> exists i :: 0 <= i < n && c in Visited(j.fields[i].value)
    decreases n
  {
    if n > 0 {
      FieldsVisitedMembers(j, n - 1, c);
    }
  }

  lemma FieldsOfClean(fields: seq<Field>, f: Field, ok: Claimed)
    requires Clean(Obj(fields), ok) && f in fields
    ensures Clean(f.value, ok)
  {
    var i :| 0 <= i < |fields| && fields[i] == f;
    FieldVisited(Obj(fields), |fields|, i);
  }

  lemma FieldSetClean(fields: seq<Field>, key: string, value: Json, ok: Claimed)
    requires Clean(Obj(fields), ok) && Clean(value, ok) && !IsListKey(key)
    ensures Clean(Obj(WithField(fields, key, value)), ok)
  {
    var more := WithField(fields, key, value);
    GetWithField(fields, key, value, "validated_claims");
    GetWithField(fields, key, value, "claim_evidence");
    WithFieldMembers(fields, key, value);
    forall c | c in VisitedFields(Obj(more), |more|) ensures ok(c) {
      FieldsVisitedMembers(Obj(more), |more|, c);
      var i :| 0 <= i < |more| && c in Visited(more[i].value);
      assert more[i] in more;
      if more[i] in fields {
        FieldsOfClean(fields, more[i], ok);
      }
    }
  }

  lemma PlainField(key: string, value: Json, texts: seq<string>, ok: Claimed)
    requires value.Text? || value == Arr(Texts(texts))
    ensures CleanField(Field(key, value), ok)
  {
    CleanTexts(texts, ok);
  }

  lemma SevenFieldsClean(a: Field, b: Field, c: Field, d: Field, e: Field, f: Field, g: Field, ok: Claimed)
    requires CleanField(a, ok) && CleanField(b, ok) && CleanField(c, ok) && CleanField(d, ok)
    requires CleanField(e, ok) && CleanField(f, ok) && CleanField(g, ok)
    ensures Clean(Obj([a, b, c, d, e, f, g]), ok)
  {
    CleanObj([a, b, c, d, e, f, g], ok);
  }

  lemma RecordJsonClean(path: string, text: string, reason: string, evidenceIds: seq<string>, upstreamIds: seq<string>,
                        literals: seq<string>, ok: Claimed)
    ensures Clean(RecordJson(path, text, reason, evidenceIds, upstreamIds, literals), ok)
  {
    PlainField("evidence_ids", Arr(Texts(evidenceIds)), evidenceIds, ok);
    PlainField("upstream_claim_ids", Arr(Texts(upstreamIds)), upstreamIds, ok);
    PlainField("numeric_literals", Arr(Texts(literals)), literals, ok);
    SevenFieldsClean(Field("claim_path", Text(path)), Field("claim_text", Text(text)), Field("reason", Text(reason)),
                     Field("evidence_ids", Arr(Texts(evidenceIds))),
                     Field("upstream_claim_ids", Arr(Texts(upstreamIds))),
                     Field("numeric_literals", Arr(Texts(literals))), Field("status", Text("rejected")), ok);
  }

  lemma RecordClean(role: Role, item: Json, reason: Reason, ok: Claimed)
    ensures Clean(RejectionRecord(role, item, reason), ok)
  {
    var text := TextAt(item, "claim_text", "<invalid claim>");
    RecordJsonClean(TextAt(item, "claim_path", "<unknown>"), text, ReasonText(reason),
                    if IsAnalyst(role) then TextsAt(item, "evidence_ids") else [],
                    if IsAnalyst(role) then [] else TextsAt(item, "upstream_claim_ids"),
                    RecordedLiterals(reason, text), ok);
  }

  /** Attaching rejection records hides no Claim in the metadata. */
  lemma AttachedClean(role: Role, metadata: Json, rejected: Rejections, ok: Claimed)
    requires Clean(metadata, ok)
    ensures Clean(AttachedMetadata(role, metadata, rejected), ok)
  {
    var records := RejectionRecords(role, rejected);
    forall i | 0 <= i < |records| ensures Clean(records[i], ok) {
      RecordClean(role, rejected[i].0, rejected[i].1, ok);
    }
    CleanArr(records, ok);
    var fields := if metadata.Obj? then metadata.fields else [];
    FieldSetClean(fields, "rejected_claims", Arr(records), ok);
    FieldSetClean(WithField(fields, "rejected_claims", Arr(records)), "claim_policy_version", Text("claim_policy_v1"),
                  ok);
  }

  // ----- one task -----

  datatype AgentRun = Done(out: Output) | Failed

  /**
   The evidence and context of one task: a manifest per Analyst, the JSON context of the Managers,
   the further fields of each Manager's contract, and the Sector Claims projected to each Manager.
   `reparses` says which accepted outputs satisfy the schema under which they enter the next request.
   */
  datatype Request = Request(
    manifest: Role -> Manifest,
    context: Json,
    contract: Role -> seq<Field>,
    sector: Role -> seq<Binding>,
    reparses: Role -> bool)

  type Runs = map<Role, AgentRun>

  predicate Succeeded(runs: Runs, role: Role) {
    role in runs && runs[role].Done? && WellShaped(ShapeOf(role), runs[role].out)
  }

  function WithoutField(fields: seq<Field>, key: string): seq<Field> {
    if fields == [] then []
    else if fields[0].key == key then fields[1..]
    else [fields[0]] + WithoutField(fields[1..], key)
  }

  /** Metadata as it goes downstream, without the rejection records. */
  function Downstream(metadata: Json): Json {
    if metadata.Obj? then Obj(WithoutField(metadata.fields, "rejected_claims")) else metadata
  }

  function Projected(out: Output): Output { out.(metadata := Downstream(out.metadata)) }

  function OutputOf(runs: Runs, role: Role): Json {
    if Succeeded(runs, role) then OutputJson(AgentName(role), ShapeOf(role), Projected(runs[role].out)) else Null
  }

  /** The output as the Agent returned it. */
  function WholeOutputOf(runs: Runs, role: Role): Json {
    if Succeeded(runs, role) then OutputJson(AgentName(role), ShapeOf(role), runs[role].out) else Null
  }

  /** An upstream output slot: the output again, and its accepted Claims. */
  function SlotOf(runs: Runs, role: Role): Json {
    Obj([Field("output", OutputOf(runs, role)),
         Field("validated_claims", Arr(Records(if Succeeded(runs, role) then runs[role].out.bindings else [])))])
  }

  function Slots(runs: Runs, roles: seq<Role>): (r: seq<Json>)
    ensures |r| == |roles|
  {
    seq(|roles|, i requires 0 <= i < |roles| => SlotOf(runs, roles[i]))
  }

  predicate Usable(request: Request, runs: Runs, role: Role) {
    role in runs && runs[role].Done? && request.reparses(role)
  }

  /** The outputs of the first `n` Analysts, as far as they are usable. */
  function UsableOutputs(request: Request, runs: Runs, n: nat): seq<Json>
    requires n <= |ANALYST_ORDER|
  {
    if n == 0 then []
    else
      UsableOutputs(request, runs, n - 1)
      + if Usable(request, runs, ANALYST_ORDER[n - 1]) then [OutputOf(runs, ANALYST_ORDER[n - 1])] else []
  }

  function AnalystOutputs(request: Request, runs: Runs): Json { Arr(UsableOutputs(request, runs, |ANALYST_ORDER|)) }

  /** The upstream Managers whose outputs a Manager receives. */
  function UpstreamManagers(role: Role): seq<Role> {
    match role
    case BullManager | BearManager => [ResearchManager]
    case RiskManager => [ResearchManager, BullManager, BearManager]
    case _ => []
  }

  function OutputKey(role: Role): string {
    match role
    case ResearchManager => "research_output"
    case BullManager => "bull_output"
    case _ => "bear_output"
  }

  function ManagerSlots(runs: Runs, roles: seq<Role>): (r: seq<Field>)
    ensures |r| == |roles|
  {
    seq(|roles|, i requires 0 <= i < |roles| => Field(OutputKey(roles[i]), SlotOf(runs, roles[i])))
  }

  /** The outputs beside the contract: the Research analysis alone, and the two theses whole. */
  function OutputsBeside(runs: Runs, role: Role): seq<Field> {
    (if role in {BullManager, BearManager, RiskManager} then [Field("research_summary", SummaryOf(runs))] else [])
    + (if role == RiskManager then
         [Field("bull_output", WholeOutputOf(runs, BullManager)),
          Field("bear_output", WholeOutputOf(runs, BearManager))]
       else [])
  }

  function SummaryOf(runs: Runs): Json {
    if Succeeded(runs, ResearchManager) then ResponseBody(ShapeOf(ResearchManager), runs[ResearchManager].out) else Null
  }

  function SectorContext(request: Request, role: Role): Json {
    Obj([Field("validated_claims", Arr(Records(request.sector(role))))])
  }

  function ManagerContext(request: Request, runs: Runs, role: Role): Json {
    Obj(request.contract(role)
        + [Field("analyst_outputs", Arr(Slots(runs, ANALYST_ORDER))),
           Field("sector_context", SectorContext(request, role))])
  }

  function ContractJson(request: Request, runs: Runs, role: Role): Json {
    Obj([Field("context", ManagerContext(request, runs, role))] + ManagerSlots(runs, UpstreamManagers(role)))
  }

  function Payload(request: Request, runs: Runs, role: Role): Json {
    if IsAnalyst(role) then Null
    else
      Obj([Field("input_context", request.context),
           Field("analyst_outputs", AnalystOutputs(request, runs)),
           Field("research_contract", ContractJson(request, runs, role))]
          + OutputsBeside(runs, role))
  }

  function Execute(lang: Language, request: Request, runs: Runs, role: Role, attempt: Attempt): AgentRun {
    match RunResult(lang, role, request.manifest(role), Payload(request, runs, role), attempt)
    case Err(_) => Failed
    case Ok(out) => Done(out)
  }

  // ----- payloads built from results -----

  lemma {:induction false} GetWithoutField(fields: seq<Field>, key: string, other: string)
    requires other != key
    ensures Get(WithoutField(fields, key), other) == Get(fields, other)
  {
    if fields != [] && fields[0].key != key && fields[0].key != other {
      GetWithoutField(fields[1..], key, other);
    }
  }

  lemma {:induction false} WithoutFieldMembers(fields: seq<Field>, key: string)
    ensures forall f :: f in WithoutField(fields, key) ==> f in fields
  {
    if fields != [] && fields[0].key != key {
      WithoutFieldMembers(fields[1..], key);
    }
  }

  lemma DownstreamClean(metadata: Json, ok: Claimed)
    requires Clean(metadata, ok)
    ensures Clean(Downstream(metadata), ok)
  {
    if metadata.Obj? {
      FieldRemovedClean(metadata.fields, "rejected_claims", ok);
    }
  }

  lemma FieldRemovedClean(fields: seq<Field>, key: string, ok: Claimed)
    requires Clean(Obj(fields), ok) && !IsListKey(key)
    ensures Clean(Obj(WithoutField(fields, key)), ok)
  {
    var less := WithoutField(fields, key);
    GetWithoutField(fields, key, "validated_claims");
    GetWithoutField(fields, key, "claim_evidence");
    WithoutFieldMembers(fields, key);
    forall c | c in VisitedFields(Obj(less), |less|) ensures ok(c) {
      FieldsVisitedMembers(Obj(less), |less|, c);
      var i :| 0 <= i < |less| && c in Visited(less[i].value);
      assert less[i] in less;
      FieldsOfClean(fields, less[i], ok);
    }
  }

  predicate RunClean(run: AgentRun, ok: Claimed) {
    run.Done? ==> All(run.out.bindings, ok) && Clean(run.out.metadata, ok)
  }

  predicate RunsClean(runs: Runs, ok: Claimed) { forall role :: role in runs ==> RunClean(runs[role], ok) }

  lemma OutputOfClean(runs: Runs, role: Role, ok: Claimed)
    requires RunsClean(runs, ok)
    ensures Clean(OutputOf(runs, role), ok)
  {
    if Succeeded(runs, role) {
      assert RunClean(runs[role], ok);
      DownstreamClean(runs[role].out.metadata, ok);
      OutputClean(AgentName(role), ShapeOf(role), Projected(runs[role].out), ok);
    }
  }

  lemma WholeOutputClean(runs: Runs, role: Role, ok: Claimed)
    requires RunsClean(runs, ok)
    ensures Clean(WholeOutputOf(runs, role), ok)
  {
    if Succeeded(runs, role) {
      assert RunClean(runs[role], ok);
      OutputClean(AgentName(role), ShapeOf(role), runs[role].out, ok);
    }
  }

  lemma SlotOfClean(runs: Runs, role: Role, ok: Claimed)
    requires RunsClean(runs, ok)
    ensures Clean(SlotOf(runs, role), ok)
  {
    OutputOfClean(runs, role, ok);
    var claims := if Succeeded(runs, role) then runs[role].out.bindings else [];
    assert Succeeded(runs, role) ==> RunClean(runs[role], ok);
    CleanRecords(claims, ok);
    CleanObj([Field("output", OutputOf(runs, role)), Field("validated_claims", Arr(Records(claims)))], ok);
  }

  lemma SlotsClean(runs: Runs, roles: seq<Role>, ok: Claimed)
    requires RunsClean(runs, ok)
    ensures Clean(Arr(Slots(runs, roles)), ok)
  {
    forall i | 0 <= i < |roles| ensures Clean(SlotOf(runs, roles[i]), ok) {
      SlotOfClean(runs, roles[i], ok);
    }
    CleanArr(Slots(runs, roles), ok);
  }

  lemma {:induction false} UsableOutputsClean(request: Request, runs: Runs, n: nat, ok: Claimed)
    requires n <= |ANALYST_ORDER| && RunsClean(runs, ok)
    ensures forall i :: 0 <= i < |UsableOutputs(request, runs, n)| ==> Clean(UsableOutputs(request, runs, n)[i], ok)
  {
    if n > 0 {
      UsableOutputsClean(request, runs, n - 1, ok);
      OutputOfClean(runs, ANALYST_ORDER[n - 1], ok);
    }
  }

  lemma AnalystOutputsClean(request: Request, runs: Runs, ok: Claimed)
    requires RunsClean(runs, ok)
    ensures Clean(AnalystOutputs(request, runs), ok)
  {
    UsableOutputsClean(request, runs, |ANALYST_ORDER|, ok);
    CleanArr(UsableOutputs(request, runs, |ANALYST_ORDER|), ok);
  }

  lemma ManagerContextClean(request: Request, runs: Runs, role: Role, ok: Claimed)
    requires RunsClean(runs, ok) && All(request.sector(role), ok) && CleanFields(request.contract(role), ok)
    ensures Clean(ManagerContext(request, runs, role), ok)
  {
    CleanRecords(request.sector(role), ok);
    CleanObj([Field("validated_claims", Arr(Records(request.sector(role))))], ok);
    SlotsClean(runs, ANALYST_ORDER, ok);
    var added := [Field("analyst_outputs", Arr(Slots(runs, ANALYST_ORDER))),
                  Field("sector_context", SectorContext(request, role))];
    assert CleanFields(added, ok);
    CleanObj(request.contract(role) + added, ok);
  }

  lemma ManagerSlotsClean(runs: Runs, roles: seq<Role>, ok: Claimed)
    requires RunsClean(runs, ok)
    ensures CleanFields(ManagerSlots(runs, roles), ok)
  {
    forall i | 0 <= i < |roles| ensures CleanField(ManagerSlots(runs, roles)[i], ok) {
      SlotOfClean(runs, roles[i], ok);
    }
  }

  lemma SummaryClean(runs: Runs, role: Role, shape: Shape, ok: Claimed)
    requires RunsClean(runs, ok) && shape == ShapeOf(role) && role == ResearchManager
    ensures Clean(SummaryOf(runs), ok)
  {
    if Succeeded(runs, role) {
      assert RunClean(runs[role], ok);
      ResponseBodyClean(shape, runs[role].out, ok);
    }
  }

  lemma OutputsBesideClean(runs: Runs, role: Role, ok: Claimed)
    requires RunsClean(runs, ok)
    ensures CleanFields(OutputsBeside(runs, role), ok)
  {
    WholeOutputClean(runs, BullManager, ok);
    WholeOutputClean(runs, BearManager, ok);
    SummaryClean(runs, ResearchManager, ShapeOf(ResearchManager), ok);
  }

  lemma ContractClean(request: Request, runs: Runs, role: Role, ok: Claimed)
    requires RunsClean(runs, ok) && All(request.sector(role), ok) && CleanFields(request.contract(role), ok)
    ensures Clean(ContractJson(request, runs, role), ok)
  {
    ManagerContextClean(request, runs, role, ok);
    ManagerSlotsClean(runs, UpstreamManagers(role), ok);
    CleanObj([Field("context", ManagerContext(request, runs, role))] + ManagerSlots(runs, UpstreamManagers(role)), ok);
  }

  lemma HeadClean(context: Json, outputs: seq<Json>, contract: Json, ok: Claimed)
    requires Clean(context, ok) && Clean(Arr(outputs), ok) && Clean(contract, ok)
    ensures CleanFields([Field("input_context", context), Field("analyst_outputs", Arr(outputs)),
                         Field("research_contract", contract)], ok)
  {}

  lemma PayloadClean(request: Request, runs: Runs, role: Role, ok: Claimed)
    requires RunsClean(runs, ok) && All(request.sector(role), ok)
    requires CleanFields(request.contract(role), ok) && Clean(request.context, ok)
    ensures Clean(Payload(request, runs, role), ok)
  {
    if !IsAnalyst(role) {
      ContractClean(request, runs, role, ok);
      OutputsBesideClean(runs, role, ok);
      AnalystOutputsClean(request, runs, ok);
      var contract := ContractJson(request, runs, role);
      HeadClean(request.context, UsableOutputs(request, runs, |ANALYST_ORDER|), contract, ok);
      CleanObj([Field("input_context", request.context), Field("analyst_outputs", AnalystOutputs(request, runs)),
                Field("research_contract", contract)] + OutputsBeside(runs, role), ok);
    }
  }

  // ----- provenance of a whole run -----

  function RootedIn(roots: Roots): Claimed { (b: Binding) => Rooted(b, roots) }

  /** The roots cover every Analyst manifest and every Sector Claim. */
  ghost predicate Covers(request: Request, roots: Roots) {
    forall role :: RootsCover(request.manifest(role), roots) && All(request.sector(role), RootedIn(roots))
  }

  /** No Claim list hides in the free-form JSON around the Claims. */
  ghost predicate NoForeignClaims(request: Request, attempts: Role -> Attempt, roots: Roots) {
    && Clean(request.context, RootedIn(roots))
    && (forall role :: CleanFields(request.contract(role), RootedIn(roots)))
    && (forall role, raw :: Delivers(attempts(role), raw) ==> Clean(KeptMetadata(role, raw), RootedIn(roots)))
  }

  /** The accepted Claims of a result are faithful, and nothing else hides in its metadata. */
  predicate RunRooted(run: AgentRun, roots: Roots) {
    run.Done? ==> AllFaithful(run.out.bindings, roots) && Clean(run.out.metadata, RootedIn(roots))
  }

  predicate RunsRooted(runs: Runs, roots: Roots) { forall role :: role in runs ==> RunRooted(runs[role], roots) }

  lemma RootedRunsClean(runs: Runs, roots: Roots)
    requires RunsRooted(runs, roots)
    ensures RunsClean(runs, RootedIn(roots))
  {
    forall role | role in runs ensures RunClean(runs[role], RootedIn(roots)) {
      assert RunRooted(runs[role], roots);
    }
  }

  /** One more Agent run keeps everything rooted, whatever its model returned. */
  lemma ExecuteRooted(lang: Language, request: Request, runs: Runs, role: Role, attempts: Role -> Attempt, roots: Roots)
    requires Covers(request, roots) && NoForeignClaims(request, attempts, roots) && RunsRooted(runs, roots)
    ensures RunRooted(Execute(lang, request, runs, role, attempts(role)), roots)
    ensures RunsRooted(runs[role := Execute(lang, request, runs, role, attempts(role))], roots)
  {
    if Execute(lang, request, runs, role, attempts(role)).Done? {
      var m, payload := request.manifest(role), Payload(request, runs, role);
      assert RootsCover(m, roots) && All(request.sector(role), RootedIn(roots));
      assert CleanFields(request.contract(role), RootedIn(roots));
      RootedRunsClean(runs, roots);
      PayloadClean(request, runs, role, RootedIn(roots));
      ResultRooted(lang, role, m, payload, attempts(role), roots);
    }
  }

  lemma ResultRooted(lang: Language, role: Role, m: Manifest, payload: Json, a: Attempt, roots: Roots)
    requires RootsCover(m, roots) && Clean(payload, RootedIn(roots))
    requires forall raw :: Delivers(a, raw) ==> Clean(KeptMetadata(role, raw), RootedIn(roots))
    requires RunResult(lang, role, m, payload, a).Ok?
    ensures RunRooted(Done(RunResult(lang, role, m, payload, a).value), roots)
  {
    var raw, rejected := SuccessIsOneOutput(lang, role, m, payload, a);
    OutputRooted(lang, role, m, payload, raw, roots);
    AttachedClean(role, KeptMetadata(role, raw), rejected, RootedIn(roots));
  }

  lemma OutputRooted(lang: Language, role: Role, m: Manifest, payload: Json, raw: RawOutput, roots: Roots)
    requires RootsCover(m, roots) && Clean(payload, RootedIn(roots)) && AgentResult(lang, role, m, payload, raw).Ok?
    ensures AllFaithful(AgentResult(lang, role, m, payload, raw).value.bindings, roots)
    ensures AgentResult(lang, role, m, payload, raw).value.metadata == KeptMetadata(role, raw)
  {
    assert AllRooted(Visited(payload), roots);
    AgentResultRooted(lang, role, m, payload, raw, roots);
    AgentResultMetadata(lang, role, m, payload, raw);
  }

  // ----- the chain -----

  /** The order of invocation; every run invokes a prefix of it. */
  const CHAIN: seq<Role> := ANALYST_ORDER + [ResearchManager, BullManager, BearManager, RiskManager]

  /** One Agent's result on the results before it. */
  type Step = (Runs, Role) -> AgentRun

  /** The results of the first `n` Agents, each run on the results before it. */
  function Replay(step: Step, n: nat): Runs
    requires n <= |CHAIN|
  {
    if n == 0 then map[]
    else Replay(step, n - 1)[CHAIN[n - 1] := step(Replay(step, n - 1), CHAIN[n - 1])]
  }

  /** A request, the rules of the language, and whatever the models deliver. */
  datatype Task = Task(lang: Language, request: Request, attempts: Role -> Attempt)

  /** `step` is the Agents of this request, with these model outputs. */
  ghost predicate Performs(step: Step, lang: Language, request: Request, attempts: Role -> Attempt) {
    forall runs, role {:trigger Execute(lang, request, runs, role, attempts(role))} ::
      step(runs, role) == Execute(lang, request, runs, role, attempts(role))
  }

  function StepOf(task: Task): Step {
    (runs: Runs, role: Role) => Execute(task.lang, task.request, runs, role, task.attempts(role))
  }

  lemma {:induction false} ReplayRooted(step: Step, n: nat, roots: Roots)
    requires n <= |CHAIN|
    requires forall runs, role :: RunsRooted(runs, roots) ==> RunRooted(step(runs, role), roots)
    ensures RunsRooted(Replay(step, n), roots)
  {
    if n > 0 {
      ReplayRooted(step, n - 1, roots);
    }
  }

  /**
   In every run, whatever the models returned, each accepted Claim of each stage has citations, all
   from the roots, and every number of its text is stated by a source that this same Claim cites,
   provided that no Claim list hides in the free-form JSON around the Claims.
   */
  lemma EveryRunIsRooted(step: Step, lang: Language, request: Request, attempts: Role -> Attempt, n: nat, roots: Roots)
    requires n <= |CHAIN| && Performs(step, lang, request, attempts)
    requires Covers(request, roots) && NoForeignClaims(request, attempts, roots)
    ensures RunsRooted(Replay(step, n), roots)
  {
    forall runs, role | RunsRooted(runs, roots) ensures RunRooted(step(runs, role), roots) {
      ExecuteRooted(lang, request, runs, role, attempts, roots);
    }
    ReplayRooted(step, n, roots);
  }

  predicate AnyAnalystUsable(request: Request, runs: Runs) {
    exists i :: 0 <= i < |ANALYST_ORDER| && Usable(request, runs, ANALYST_ORDER[i])
  }

  predicate ThesesUsable(request: Request, runs: Runs) {
    Usable(request, runs, BullManager) && Usable(request, runs, BearManager)
  }

  /** How far the chain goes: it stops where nothing usable is left to build on. */
  function Invocations(request: Request, runs: Runs): nat {
    if !AnyAnalystUsable(request, runs) then 4
    else if !Usable(request, runs, ResearchManager) then 5
    else if !ThesesUsable(request, runs) then 7
    else 8
  }

  function ClaimIds(bs: seq<Binding>): (r: seq<Option<string>>)
    ensures |r| == |bs|
  {
    seq(|bs|, i requires 0 <= i < |bs| => bs[i].claimId)
  }

  /** An output slot is admissible when its accepted Claims have ids, all different. */
  predicate StableIds(run: AgentRun) {
    run.Done? ==> Distinct(ClaimIds(run.out.bindings)) && None !in ClaimIds(run.out.bindings)
  }

  predicate SlotValid(runs: Runs, role: Role) { role in runs && StableIds(runs[role]) }

  predicate SlotSucceeded(runs: Runs, role: Role) { SlotValid(runs, role) && runs[role].Done? }

  /** The validators of a Manager's input contract. */
  predicate ManagerInputValid(runs: Runs, role: Role) {
    && (forall a :: a in ANALYST_ORDER ==> SlotValid(runs, a))
    && (role == ResearchManager ==> exists a :: a in ANALYST_ORDER && SlotSucceeded(runs, a))
    && (forall up :: up in UpstreamManagers(role) ==> SlotSucceeded(runs, up))
  }

  datatype TaskResult = TaskResult(ok: bool, runs: Runs, missing: seq<Role>)

  /** A contract that could not be built, because of the Claim ids of one output. */
  datatype ContractError = UnstableClaimIds(runs: Runs, invoked: nat)

  function MissingAnalysts(request: Request, runs: Runs, n: nat): seq<Role>
    requires n <= |ANALYST_ORDER|
  {
    if n == 0 then []
    else
      MissingAnalysts(request, runs, n - 1)
      + if Usable(request, runs, ANALYST_ORDER[n - 1]) then [] else [ANALYST_ORDER[n - 1]]
  }

  method Invoke(lang: Language, request: Request, runs: Runs, role: Role, attempt: Attempt) returns (run: AgentRun)
    ensures run == Execute(lang, request, runs, role, attempt)
  {
    var r := RunAgent(lang, role, request.manifest(role), Payload(request, runs, role), attempt);
    match r {
      case Err(_) => run := Failed;
      case Ok(out) => run := Done(out);
    }
  }

  function FailedTheses(runs: Runs): seq<Role> {
    (if BullManager in runs && runs[BullManager].Done? then [] else [BullManager])
    + (if BearManager in runs && runs[BearManager].Done? then [] else [BearManager])
  }

  /** The Agents a task reports as missing. */
  function Missing(request: Request, runs: Runs): seq<Role> {
    MissingAnalysts(request, runs, 4)
    + match Invocations(request, runs)
      case 5 => [ResearchManager]
      case 7 => FailedTheses(runs)
      case 8 => if RiskManager in runs && runs[RiskManager].Done? then [] else [RiskManager]
      case _ => []
  }

  lemma {:induction false} MissingUnaffected(request: Request, runs: Runs, role: Role, run: AgentRun, n: nat)
    requires n <= |ANALYST_ORDER| && role !in ANALYST_ORDER[..n]
    ensures MissingAnalysts(request, runs[role := run], n) == MissingAnalysts(request, runs, n)
  {
    if n > 0 {
      assert ANALYST_ORDER[n - 1] in ANALYST_ORDER[..n];
      assert forall r :: r in ANALYST_ORDER[..n - 1] ==> r in ANALYST_ORDER[..n];
      MissingUnaffected(request, runs, role, run, n - 1);
    }
  }

  /** Where a run stands after `n` Agents. */
  ghost predicate Reached(step: Step, runs: Runs, n: nat)
    requires n <= |CHAIN|
  {
    && runs == Replay(step, n)
    && (forall role :: role in runs <==> role in CHAIN[..n])
    && (forall k :: 4 <= k < n ==> ManagerInputValid(runs, CHAIN[k]))
  }

  lemma ChainIsDistinct(n: nat)
    requires n < |CHAIN|
    ensures CHAIN[n] !in CHAIN[..n] && CHAIN[..n + 1] == CHAIN[..n] + [CHAIN[n]]
    ensures n >= 4 ==> !IsAnalyst(CHAIN[n])
  {}

  lemma InputStaysValid(runs: Runs, role: Role, added: Role, run: AgentRun)
    requires ManagerInputValid(runs, role) && added !in runs
    ensures ManagerInputValid(runs[added := run], role)
  {}

  lemma ReachedStep(step: Step, runs: Runs, n: nat, run: AgentRun)
    requires n < |CHAIN| && Reached(step, runs, n)
    requires run == step(runs, CHAIN[n])
    requires n >= 4 ==> ManagerInputValid(runs, CHAIN[n])
    ensures Reached(step, runs[CHAIN[n] := run], n + 1)
  {
    ChainIsDistinct(n);
    forall k | 4 <= k <= n ensures ManagerInputValid(runs[CHAIN[n] := run], CHAIN[k]) {
      InputStaysValid(runs, CHAIN[k], CHAIN[n], run);
    }
  }

  /** Every step of a task is a run of the next Agent on the results so far. */
  method Advance(ghost step: Step, task: Task, runs: Runs, n: nat) returns (run: AgentRun)
    requires Performs(step, task.lang, task.request, task.attempts)
    requires n < |CHAIN| && Reached(step, runs, n)
    requires n >= 4 ==> ManagerInputValid(runs, CHAIN[n])
    ensures Reached(step, runs[CHAIN[n] := run], n + 1)
  {
    run := Invoke(task.lang, task.request, runs, CHAIN[n], task.attempts(CHAIN[n]));
    ReachedStep(step, runs, n, run);
  }

  lemma AnalystAdded(request: Request, runs: Runs, i: nat, run: AgentRun)
    requires i < |ANALYST_ORDER|
    ensures CHAIN[i] == ANALYST_ORDER[i]
    ensures MissingAnalysts(request, runs[CHAIN[i] := run], i) == MissingAnalysts(request, runs, i)
  {
    ChainIsDistinct(i);
    assert ANALYST_ORDER[..i] == CHAIN[..i];
    MissingUnaffected(request, runs, CHAIN[i], run, i);
  }

  method RunAnalysts(ghost step: Step, task: Task) returns (runs: Runs, missing: seq<Role>)
    requires Performs(step, task.lang, task.request, task.attempts)
    ensures Reached(step, runs, |ANALYST_ORDER|)
    ensures missing == MissingAnalysts(task.request, runs, |ANALYST_ORDER|)
  {
    runs, missing := map[], [];
    for i := 0 to |ANALYST_ORDER|
      invariant Reached(step, runs, i)
      invariant missing == MissingAnalysts(task.request, runs, i)
    {
      var run := Advance(step, task, runs, i);
      AnalystAdded(task.request, runs, i, run);
      runs := runs[CHAIN[i] := run];
      if !Usable(task.request, runs, ANALYST_ORDER[i]) {
        missing := missing + [ANALYST_ORDER[i]];
      }
    }
  }

  /** A Manager's result changes nothing about the Analysts. */
  lemma AnalystsUnchanged(request: Request, runs: Runs, role: Role, run: AgentRun)
    requires !IsAnalyst(role)
    ensures MissingAnalysts(request, runs[role := run], 4) == MissingAnalysts(request, runs, 4)
    ensures AnyAnalystUsable(request, runs[role := run]) == AnyAnalystUsable(request, runs)
  {
    assert ANALYST_ORDER[..4] == ANALYST_ORDER;
    MissingUnaffected(request, runs, role, run, 4);
    forall i | 0 <= i < |ANALYST_ORDER|
      ensures Usable(request, runs[role := run], ANALYST_ORDER[i]) == Usable(request, runs, ANALYST_ORDER[i])
    {
      assert ANALYST_ORDER[i] in ANALYST_ORDER;
    }
  }

  /** The Agents whose outputs an input contract shows. */
  predicate Shown(role: Role, r: Role) { r in ANALYST_ORDER || r in UpstreamManagers(role) }

  /**
   An input contract that the results call for fails its validators exactly over the Claim ids of an
   output that it shows.
   */
  lemma OnlyIdsFail(request: Request, runs: Runs, role: Role)
    requires !IsAnalyst(role) && (forall a :: a in CHAIN[..4] ==> a in runs) && AnyAnalystUsable(request, runs)
    requires forall up :: up in UpstreamManagers(role) ==> Usable(request, runs, up)
    ensures !ManagerInputValid(runs, role) <==> exists r :: r in runs && Shown(role, r) && !StableIds(runs[r])
  {
    assert CHAIN[..4] == ANALYST_ORDER;
    if forall r :: r in runs && Shown(role, r) ==> StableIds(runs[r]) {
      var i :| 0 <= i < |ANALYST_ORDER| && Usable(request, runs, ANALYST_ORDER[i]);
      assert SlotSucceeded(runs, ANALYST_ORDER[i]);
    }
  }

  /** What the finished task says about its run. */
  ghost predicate Reports(step: Step, request: Request, t: TaskResult) {
    && Reached(step, t.runs, Invocations(request, t.runs))
    && t.missing == Missing(request, t.runs)
    && (t.ok <==> Invocations(request, t.runs) == |CHAIN| && t.runs[RiskManager].Done?)
  }

  /** The results call for the next Agent, but its contract fails over repeated Claim ids. */
  ghost predicate Refused(step: Step, request: Request, e: ContractError) {
    && 4 <= e.invoked < |CHAIN| && Reached(step, e.runs, e.invoked)
    && e.invoked < Invocations(request, e.runs) && !ManagerInputValid(e.runs, CHAIN[e.invoked])
    && exists r :: r in e.runs && Shown(CHAIN[e.invoked], r) && !StableIds(e.runs[r])
  }

  ghost predicate Outcome(step: Step, request: Request, r: Result<TaskResult, ContractError>) {
    match r
    case Ok(t) => Reports(step, request, t)
    case Err(e) => Refused(step, request, e)
  }

  lemma ReportsOf(step: Step, request: Request, t: TaskResult, n: nat)
    requires n <= |CHAIN| && Reached(step, t.runs, n) && n == Invocations(request, t.runs)
    requires t.missing == Missing(request, t.runs)
    requires t.ok <==> n == |CHAIN| && t.runs[RiskManager].Done?
    ensures Reports(step, request, t)
  {}

  lemma RiskReached(request: Request, runs: Runs, run: AgentRun)
    requires AnyAnalystUsable(request, runs) && Usable(request, runs, ResearchManager) && ThesesUsable(request, runs)
    ensures Invocations(request, runs[RiskManager := run]) == |CHAIN|
    ensures Missing(request, runs[RiskManager := run])
         == MissingAnalysts(request, runs, 4) + if run.Done? then [] else [RiskManager]
  {
    AnalystsUnchanged(request, runs, RiskManager, run);
  }

  lemma StoppedAtTheses(step: Step, request: Request, runs: Runs, missing: seq<Role>, n: nat)
    requires n == 7 && Reached(step, runs, n) && missing == MissingAnalysts(request, runs, 4)
    requires AnyAnalystUsable(request, runs) && Usable(request, runs, ResearchManager) && !ThesesUsable(request, runs)
    ensures Outcome(step, request, Ok(TaskResult(false, runs, missing + FailedTheses(runs))))
  {
    ReportsOf(step, request, TaskResult(false, runs, missing + FailedTheses(runs)), n);
  }

  lemma RefusedAt(step: Step, request: Request, runs: Runs, n: nat, role: Role)
    requires 4 <= n < |CHAIN| && role == CHAIN[n] && Reached(step, runs, n) && n < Invocations(request, runs)
    requires !IsAnalyst(role) && AnyAnalystUsable(request, runs) && !ManagerInputValid(runs, role)
    requires forall a :: a in CHAIN[..4] ==> a in runs
    requires forall up :: up in UpstreamManagers(role) ==> Usable(request, runs, up)
    ensures Outcome(step, request, Err(UnstableClaimIds(runs, n)))
  {
    OnlyIdsFail(request, runs, role);
  }

  lemma FirstFourReached(step: Step, runs: Runs, n: nat)
    requires 4 <= n <= |CHAIN| && Reached(step, runs, n)
    ensures forall a :: a in CHAIN[..4] ==> a in runs
  {
    assert forall i :: 0 <= i < 4 ==> CHAIN[..4][i] == CHAIN[..n][i];
  }

  lemma RiskRefused(step: Step, request: Request, runs: Runs, n: nat)
    requires n == 7 && Reached(step, runs, n) && !ManagerInputValid(runs, RiskManager)
    requires AnyAnalystUsable(request, runs) && Usable(request, runs, ResearchManager) && ThesesUsable(request, runs)
    ensures Outcome(step, request, Err(UnstableClaimIds(runs, n)))
  {
    FirstFourReached(step, runs, n);
    RefusedAt(step, request, runs, n, RiskManager);
  }

  /** Risk review, on the runs of the first `n == 7` Agents. */
  method ReviewRisk(ghost step: Step, task: Task, runs: Runs, missing: seq<Role>, n: nat)
    returns (r: Result<TaskResult, ContractError>)
    requires Performs(step, task.lang, task.request, task.attempts)
    requires n == 7 && Reached(step, runs, n) && missing == MissingAnalysts(task.request, runs, 4)
    requires AnyAnalystUsable(task.request, runs) && Usable(task.request, runs, ResearchManager)
    ensures Outcome(step, task.request, r)
  {
    if !ThesesUsable(task.request, runs) {
      StoppedAtTheses(step, task.request, runs, missing, n);
      return Ok(TaskResult(false, runs, missing + FailedTheses(runs)));
    }
    if !ManagerInputValid(runs, RiskManager) {
      RiskRefused(step, task.request, runs, n);
      return Err(UnstableClaimIds(runs, n));
    }
    var t := CompleteReview(step, task, runs, missing, n);
    return Ok(t);
  }

  method CompleteReview(ghost step: Step, task: Task, runs: Runs, missing: seq<Role>, n: nat) returns (t: TaskResult)
    requires Performs(step, task.lang, task.request, task.attempts)
    requires n == 7 && Reached(step, runs, n) && ManagerInputValid(runs, CHAIN[n])
    requires AnyAnalystUsable(task.request, runs) && Usable(task.request, runs, ResearchManager)
    requires ThesesUsable(task.request, runs)
    requires missing == MissingAnalysts(task.request, runs, 4)
    ensures Reports(step, task.request, t)
  {
    var run := Advance(step, task, runs, n);
    RiskReached(task.request, runs, run);
    t := TaskResult(run.Done?, runs[RiskManager := run], missing + if run.Done? then [] else [RiskManager]);
    ReportsOf(step, task.request, t, n + 1);
  }

  lemma ThesisWritten(request: Request, runs: Runs, role: Role, run: AgentRun)
    requires role in {BullManager, BearManager, RiskManager} && role !in runs
    ensures MissingAnalysts(request, runs[role := run], 4) == MissingAnalysts(request, runs, 4)
    ensures AnyAnalystUsable(request, runs[role := run]) == AnyAnalystUsable(request, runs)
    ensures Usable(request, runs[role := run], ResearchManager) == Usable(request, runs, ResearchManager)
    ensures ManagerInputValid(runs, BearManager) ==> ManagerInputValid(runs[role := run], BearManager)
  {
    AnalystsUnchanged(request, runs, role, run);
    if ManagerInputValid(runs, BearManager) {
      InputStaysValid(runs, BearManager, role, run);
    }
  }

  /** One thesis, on the runs of the first `n` Agents. */
  method WriteThesis(ghost step: Step, task: Task, runs: Runs, role: Role, n: nat) returns (after: Runs)
    requires Performs(step, task.lang, task.request, task.attempts)
    requires 5 <= n < |CHAIN| && role == CHAIN[n] && Reached(step, runs, n) && ManagerInputValid(runs, role)
    ensures Reached(step, after, n + 1)
    ensures MissingAnalysts(task.request, after, 4) == MissingAnalysts(task.request, runs, 4)
    ensures AnyAnalystUsable(task.request, after) == AnyAnalystUsable(task.request, runs)
    ensures Usable(task.request, after, ResearchManager) == Usable(task.request, runs, ResearchManager)
    ensures ManagerInputValid(runs, BearManager) ==> ManagerInputValid(after, BearManager)
  {
    ChainIsDistinct(n);
    var run := Advance(step, task, runs, n);
    ThesisWritten(task.request, runs, role, run);
    after := runs[role := run];
  }

  /** The two theses, on the runs of the first `n == 5` Agents; both see the same Research output. */
  method WriteTheses(ghost step: Step, task: Task, runs: Runs, n: nat) returns (after: Runs)
    requires Performs(step, task.lang, task.request, task.attempts)
    requires n == 5 && Reached(step, runs, n) && ManagerInputValid(runs, BullManager)
    requires ManagerInputValid(runs, BearManager)
    ensures Reached(step, after, n + 2)
    ensures MissingAnalysts(task.request, after, 4) == MissingAnalysts(task.request, runs, 4)
    ensures AnyAnalystUsable(task.request, after) == AnyAnalystUsable(task.request, runs)
    ensures Usable(task.request, after, ResearchManager) == Usable(task.request, runs, ResearchManager)
  {
    after := WriteThesis(step, task, runs, BullManager, n);
    after := WriteThesis(step, task, after, BearManager, n + 1);
  }

  lemma StoppedAtResearch(step: Step, request: Request, runs: Runs, missing: seq<Role>, n: nat)
    requires n == 5 && Reached(step, runs, n) && missing == MissingAnalysts(request, runs, 4)
    requires AnyAnalystUsable(request, runs) && !Usable(request, runs, ResearchManager)
    ensures Outcome(step, request, Ok(TaskResult(false, runs, missing + [ResearchManager])))
  {
    ReportsOf(step, request, TaskResult(false, runs, missing + [ResearchManager]), n);
  }

  lemma BullRefused(step: Step, request: Request, runs: Runs, n: nat)
    requires n == 5 && Reached(step, runs, n) && !ManagerInputValid(runs, BullManager)
    requires AnyAnalystUsable(request, runs) && Usable(request, runs, ResearchManager)
    ensures Outcome(step, request, Err(UnstableClaimIds(runs, n)))
  {
    FirstFourReached(step, runs, n);
    RefusedAt(step, request, runs, n, BullManager);
  }

  /** The debate, on the runs of the first `n == 5` Agents. */
  method DebateTheses(ghost step: Step, task: Task, runs: Runs, missing: seq<Role>, n: nat)
    returns (r: Result<TaskResult, ContractError>)
    requires Performs(step, task.lang, task.request, task.attempts)
    requires n == 5 && Reached(step, runs, n) && missing == MissingAnalysts(task.request, runs, 4)
    requires AnyAnalystUsable(task.request, runs)
    ensures Outcome(step, task.request, r)
  {
    if !Usable(task.request, runs, ResearchManager) {
      StoppedAtResearch(step, task.request, runs, missing, n);
      return Ok(TaskResult(false, runs, missing + [ResearchManager]));
    }
    if !ManagerInputValid(runs, BullManager) {
      BullRefused(step, task.request, runs, n);
      return Err(UnstableClaimIds(runs, n));
    }
    var after := WriteTheses(step, task, runs, n);
    r := ReviewRisk(step, task, after, missing, n + 2);
  }

  lemma ResearchRefused(step: Step, request: Request, runs: Runs, n: nat)
    requires n == 4 && Reached(step, runs, n) && !ManagerInputValid(runs, CHAIN[n]) && AnyAnalystUsable(request, runs)
    ensures Outcome(step, request, Err(UnstableClaimIds(runs, n)))
  {
    FirstFourReached(step, runs, n);
    RefusedAt(step, request, runs, n, ResearchManager);
  }

  method RunChain(ghost step: Step, task: Task) returns (r: Result<TaskResult, ContractError>)
    requires Performs(step, task.lang, task.request, task.attempts)
    ensures Outcome(step, task.request, r)
  {
    var n := |ANALYST_ORDER|;
    var runs, missing := RunAnalysts(step, task);
    if !AnyAnalystUsable(task.request, runs) {
      ReportsOf(step, task.request, TaskResult(false, runs, missing), n);
      return Ok(TaskResult(false, runs, missing));
    }
    ChainIsDistinct(n);
    if !ManagerInputValid(runs, CHAIN[n]) {
      ResearchRefused(step, task.request, runs, n);
      return Err(UnstableClaimIds(runs, n));
    }
    var research := Advance(step, task, runs, n);
    AnalystsUnchanged(task.request, runs, CHAIN[n], research);
    r := DebateTheses(step, task, runs[CHAIN[n] := research], missing, n + 1);
  }

  lemma StepPerforms(task: Task)
    ensures Performs(StepOf(task), task.lang, task.request, task.attempts)
  {}

  /** The whole task: every outcome is a report on a prefix of the chain, or a refused contract. */
  method Run(task: Task) returns (r: Result<TaskResult, ContractError>)
    ensures Outcome(StepOf(task), task.request, r)
  {
    StepPerforms(task);
    r := RunChain(StepOf(task), task);
  }

  /** A task that ends well has all four Managers behind it, and misses at most Analysts. */
  lemma CompleteTask(step: Step, request: Request, t: TaskResult)
    requires Reports(step, request, t) && t.ok
    ensures forall role :: role in [ResearchManager, BullManager, BearManager, RiskManager] ==>
      role in t.runs && t.runs[role].Done?
    ensures AnyAnalystUsable(request, t.runs) && t.missing == MissingAnalysts(request, t.runs, 4)
  {}

  /** The provenance theorem for what a task returns. */
  lemma TaskIsRooted(task: Task, t: TaskResult, roots: Roots)
    requires Reports(StepOf(task), task.request, t)
    requires Covers(task.request, roots) && NoForeignClaims(task.request, task.attempts, roots)
    ensures RunsRooted(t.runs, roots)
  {
    StepPerforms(task);
    EveryRunIsRooted(StepOf(task), task.lang, task.request, task.attempts, Invocations(task.request, t.runs), roots);
  }

  /**
   Read on the text: every number in the text of a Claim that any Agent of the task accepted is
   stated by a source that this same Claim cites, and every source it cites is among the roots.
   */
  lemma AcceptedNumbersAreCited(task: Task, t: TaskResult, roots: Roots, role: Role, b: Binding, literal: string)
    requires Reports(StepOf(task), task.request, t)
    requires Covers(task.request, roots) && NoForeignClaims(task.request, task.attempts, roots)
    requires role in t.runs && t.runs[role].Done? && b in t.runs[role].out.bindings && literal in Literals(b.text)
    ensures b.sources != [] && forall s :: s in b.sources ==> s in roots.sources
    ensures exists s :: s in b.sources && (literal, CitationKey(s)) in roots.facts
  {
    TaskIsRooted(task, t, roots);
    assert RunRooted(t.runs[role], roots);
    assert Faithful(b, roots);
    assert Backed(literal, b.sources, roots);
  }
}
