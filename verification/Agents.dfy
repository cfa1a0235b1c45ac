/** One whole Agent run over arbitrary model outputs. */
module Agents {
  import opened Sequences
  import opened Scanner
  import opened Json
  import opened Sections
  import opened Claims
  import opened Validation
  import opened Roles
  import opened Canonical

  /** How a response presents itself. */
  datatype Header = Header(name: string, status: string)

  /** Provenance of one normalized score. */
  datatype Score = Score(sourceType: string, calculation: Option<string>, evidenceIds: seq<string>)

  /** What surrounds the Claims of a response; only the Fundamental Analyst has metadata and scores. */
  datatype Frame = Frame(header: Header, uncertainties: seq<string>, metadata: seq<Field>, scores: seq<(string, Score)>)

  /** What the model may return: a list of Claim objects, or a response without a Claim list. */
  datatype RawOutput = ClaimFirst(items: seq<Json>, frame: Frame) | Direct(header: Header, out: Output)

  /** The roles whose responses carry a header; the other three are recognised by their fields. */
  predicate HasHeader(role: Role) { IsAnalyst(role) || role == ResearchManager }

  /** Three Analysts share one response schema, which admits the names of all three. */
  predicate NameAdmitted(role: Role, name: string, drafted: bool) {
    if drafted || role in {FundamentalAnalyst, ResearchManager} then name == AgentName(role)
    else exists r :: r in [TechnicalTextAnalyst, SentimentAnalyst, NewsEventAnalyst] && name == AgentName(r)
  }

  /** The header fits the schema of a drafted or of a public response. */
  predicate HeaderReads(role: Role, header: Header, drafted: bool) {
    HasHeader(role) ==> NameAdmitted(role, header.name, drafted) && header.status in ["ok", "error"]
  }

  /** The response is this Agent's own, and a success. */
  predicate OwnHeader(role: Role, header: Header) {
    HasHeader(role) ==> header.name == AgentName(role) && header.status == "ok"
  }

  /** The dictionary with a key set, in place where the key exists already. */
  function WithField(fields: seq<Field>, key: string, value: Json): seq<Field> {
    if fields == [] then [Field(key, value)]
    else if fields[0].key == key then [Field(key, value)] + fields[1..]
    else [fields[0]] + WithField(fields[1..], key, value)
  }

  function ScoreJson(score: Score): Json {
    Obj([Field("source_type", Text(score.sourceType)),
         Field("calculation", if score.calculation.Some? then Text(score.calculation.value) else Null),
         Field("evidence_ids", Arr(Texts(score.evidenceIds)))])
  }

  function ScoreFields(scores: seq<(string, Score)>): (r: seq<Field>)
    ensures |r| == |scores|
  {
    seq(|scores|, i requires 0 <= i < |scores| => Field(scores[i].0, ScoreJson(scores[i].1)))
  }

  /** The metadata of a regrouped response: the model's own, and the provenance of the scores. */
  function Assembled(role: Role, frame: Frame): Json {
    if role == FundamentalAnalyst then Obj(WithField(frame.metadata, "score_metadata", Obj(ScoreFields(frame.scores))))
    else Null
  }

  /** The response schema: all lists, well-formed bindings, and metadata only where a role has it. */
  predicate ResponseValid(role: Role, out: Output) {
    && WellShaped(ShapeOf(role), out)
    && (role in {FundamentalAnalyst, BearManager} || out.metadata == Null)
  }

  predicate TradingOutput(lang: Language, out: Output) {
    if out.bindings != [] then exists b :: b in out.bindings && ProhibitedClaim(lang, b)
    else exists s, text :: s in out.lists && text in out.lists[s] && Prohibited(lang.intent(text, false))
  }

  function ItemVerdict(lang: Language, role: Role, m: Manifest, payload: Json): Json -> Verdict {
    var entries, upstream := Entries(m), UpstreamIndex(payload);
    if IsAnalyst(role) then (item: Json) => EvidenceVerdict(lang, entries, item)
    else (item: Json) => UpstreamVerdict(lang, upstream, item)
  }

  function StrictEvidence(lang: Language, role: Role, m: Manifest, payload: Json,
                          out: Output): Result<seq<Binding>, AgentError>
    requires WellShaped(ShapeOf(role), out)
  {
    if IsAnalyst(role) then ManifestEvidence(lang, AgentName(role), ShapeOf(role), m, out)
    else UpstreamEvidence(lang, AgentName(role), ShapeOf(role), UpstreamIndex(payload), out)
  }

  method ValidateInferenceOutput(lang: Language, role: Role, m: Manifest, payload: Json, header: Header, out: Output)
    returns (r: Result<Output, AgentError>)
    ensures r == Judged(lang, role, m, payload, header, out)
  {
    if !ResponseValid(role, out) {
      return Err(SchemaError);
    }
    if !OwnHeader(role, header) {
      return Err(RoleRefused);
    }
    if TradingOutput(lang, out) {
      return Err(TradingInstruction);
    }
    var evidence;
    if IsAnalyst(role) {
      evidence := BuildManifestEvidence(lang, AgentName(role), ShapeOf(role), m, out);
    } else {
      evidence := BuildUpstreamClaimEvidence(lang, AgentName(role), ShapeOf(role), payload, out);
    }
    match evidence {
      case Err(e) => r := Err(e);
      case Ok(bs) => r := Ok(out.(bindings := bs));
    }
  }

  /** The response made of quarantined Claims. */
  function Drafting(role: Role, claims: seq<Binding>, frame: Frame): Result<Output, AgentError> {
    if HeaderReads(role, frame.header, true) && DraftValid(role, claims, frame.uncertainties) then
      Ok(Regrouped(ShapeOf(role), Complete(role), claims, frame.uncertainties, Assembled(role, frame)))
    else Err(SchemaError)
  }

  method NormalizeGatewayOutput(role: Role, claims: seq<Binding>, frame: Frame) returns (r: Result<Output, AgentError>)
    ensures r == Drafting(role, claims, frame)
  {
    if !HeaderReads(role, frame.header, true) || !DraftValid(role, claims, frame.uncertainties) {
      return Err(SchemaError);
    }
    ShapesAreValid(role);
    SectionsOfLegal(ShapeOf(role), claims);
    var lists, bindings := NormalizeClaimResponse(ShapeOf(role).sections, Names(role), Complete(role), claims);
    r := Ok(Output(lists, bindings, [], frame.uncertainties, Assembled(role, frame)));
  }

  lemma SectionsOfLegal(shape: Shape, claims: seq<Binding>)
    requires shape.Valid() && AllLegal(shape, claims)
    ensures forall c :: c in claims ==> NamingOf(shape)(c) in shape.sections
  {
    forall c | c in claims ensures NamingOf(shape)(c) in shape.sections {
      LegalSection(shape, c.path);
    }
  }

  function Screen(lang: Language, role: Role, m: Manifest, payload: Json,
                  items: seq<Json>): Result<Screened, AgentError>
  {
    match WithCanonicalClaims(m, role, items)
    case None => Err(ExecutionFailed)
    case Some(enriched) => Quarantine(ItemVerdict(lang, role, m, payload), enriched, MinimumValidClaims(role))
  }

  /** The response that a model output turns into before strict validation. */
  function Drafted(lang: Language, role: Role, m: Manifest, payload: Json, raw: RawOutput): Result<Output, AgentError> {
    match raw
    case Direct(header, out) => if HeaderReads(role, header, false) then Ok(out) else Err(SchemaError)
    case ClaimFirst(items, frame) =>
      match Screen(lang, role, m, payload, items)
      case Err(e) => Err(e)
      case Ok(screened) => Drafting(role, screened.retained, frame)
  }

  type Rejections = seq<(Json, Reason)>

  /** What quarantine rejected of a model output, when it got that far. */
  function RejectedOf(lang: Language, role: Role, m: Manifest, payload: Json, raw: RawOutput): Rejections {
    match raw
    case Direct(_, _) => []
    case ClaimFirst(items, _) =>
      match Screen(lang, role, m, payload, items) case Ok(screened) => screened.rejected case Err(_) => []
  }

  function HeaderOf(raw: RawOutput): Header {
    match raw case Direct(header, _) => header case ClaimFirst(_, frame) => frame.header
  }

  /** Strict validation of a response: its schema, trading language, then evidence. */
  function Accepted(lang: Language, role: Role, m: Manifest, payload: Json, out: Output): Result<Output, AgentError> {
    if !ResponseValid(role, out) then Err(SchemaError)
    else if TradingOutput(lang, out) then Err(TradingInstruction)
    else match StrictEvidence(lang, role, m, payload, out)
      case Err(e) => Err(e)
      case Ok(bs) => Ok(out.(bindings := bs))
  }

  /** Between its schema and its wording, a response is checked to be this Agent's own success. */
  function Judged(lang: Language, role: Role, m: Manifest, payload: Json, header: Header, out: Output)
    : Result<Output, AgentError>
  {
    if ResponseValid(role, out) && !OwnHeader(role, header) then Err(RoleRefused)
    else Accepted(lang, role, m, payload, out)
  }

  function AgentResult(lang: Language, role: Role, m: Manifest, payload: Json,
                       raw: RawOutput): Result<Output, AgentError>
  {
    match Drafted(lang, role, m, payload, raw)
    case Err(e) => Err(e)
    case Ok(out) => Judged(lang, role, m, payload, HeaderOf(raw), out)
  }

  /**
   Whatever the model returned, the Claims an Agent accepts are faithful: an Analyst's to its
   manifest, a Manager's to the Claims that its payload indexes.
   */
  lemma AgentResultRooted(lang: Language, role: Role, m: Manifest, payload: Json, raw: RawOutput, roots: Roots)
    requires AgentResult(lang, role, m, payload, raw).Ok?
    requires IsAnalyst(role) ==> RootsCover(m, roots)
    requires !IsAnalyst(role) ==> AllRooted(Visited(payload), roots)
    ensures AllFaithful(AgentResult(lang, role, m, payload, raw).value.bindings, roots)
  {
    var out := Drafted(lang, role, m, payload, raw).value;
    if IsAnalyst(role) {
      ManifestEvidenceRooted(lang, AgentName(role), ShapeOf(role), m, out, roots);
    } else {
      IndexMembers(Visited(payload));
      UpstreamEvidenceRooted(lang, AgentName(role), ShapeOf(role), UpstreamIndex(payload), out, roots);
    }
  }

  /** The response whose strict validation gave an accepted result. */
  lemma StrictlyAccepted(lang: Language, role: Role, m: Manifest, payload: Json, raw: RawOutput) returns (out: Output)
    requires AgentResult(lang, role, m, payload, raw).Ok?
    ensures Drafted(lang, role, m, payload, raw) == Ok(out)
    ensures WellShaped(ShapeOf(role), out) && StrictEvidence(lang, role, m, payload, out).Ok?
    ensures AgentResult(lang, role, m, payload, raw).value.bindings == StrictEvidence(lang, role, m, payload, out).value
  {
    out := Drafted(lang, role, m, payload, raw).value;
  }

  lemma AgentNamed(role: Role)
    ensures AgentName(role) != ""
  {}

  lemma AnalystEvidenceValid(lang: Language, role: Role, m: Manifest, payload: Json, out: Output, agent: string,
                             shape: Shape)
    requires IsAnalyst(role) && shape == ShapeOf(role) && agent == AgentName(role)
    requires WellShaped(shape, out) && StrictEvidence(lang, role, m, payload, out).Ok?
    ensures forall b :: b in StrictEvidence(lang, role, m, payload, out).value ==> b.Valid()
  {
    AgentNamed(role);
    ManifestEvidenceValid(lang, agent, shape, m, out);
  }

  lemma ManagerEvidenceValid(lang: Language, role: Role, m: Manifest, payload: Json, out: Output, agent: string,
                             shape: Shape)
    requires !IsAnalyst(role) && shape == ShapeOf(role) && agent == AgentName(role)
    requires WellShaped(shape, out) && StrictEvidence(lang, role, m, payload, out).Ok?
    ensures forall b :: b in StrictEvidence(lang, role, m, payload, out).value ==> b.Valid()
  {
    UpstreamEvidenceValid(lang, agent, shape, UpstreamIndex(payload), out);
  }

  lemma StrictEvidenceValid(lang: Language, role: Role, m: Manifest, payload: Json, out: Output)
    requires WellShaped(ShapeOf(role), out) && StrictEvidence(lang, role, m, payload, out).Ok?
    ensures forall b :: b in StrictEvidence(lang, role, m, payload, out).value ==> b.Valid()
  {
    if IsAnalyst(role) {
      AnalystEvidenceValid(lang, role, m, payload, out, AgentName(role), ShapeOf(role));
    } else {
      ManagerEvidenceValid(lang, role, m, payload, out, AgentName(role), ShapeOf(role));
    }
  }

  lemma AcceptedShaped(lang: Language, role: Role, m: Manifest, payload: Json, out: Output)
    requires Accepted(lang, role, m, payload, out).Ok?
    ensures WellShaped(ShapeOf(role), Accepted(lang, role, m, payload, out).value)
  {
    StrictEvidenceValid(lang, role, m, payload, out);
  }

  /** An accepted response satisfies the response schema again. */
  lemma AgentResultShaped(lang: Language, role: Role, m: Manifest, payload: Json, raw: RawOutput)
    requires AgentResult(lang, role, m, payload, raw).Ok?
    ensures WellShaped(ShapeOf(role), AgentResult(lang, role, m, payload, raw).value)
  {
    AcceptedShaped(lang, role, m, payload, Drafted(lang, role, m, payload, raw).value);
  }

  /** The metadata that comes of a model output. */
  function KeptMetadata(role: Role, raw: RawOutput): Json {
    match raw
    case ClaimFirst(_, frame) => Assembled(role, frame)
    case Direct(_, out) => out.metadata
  }

  /**
   The metadata of an accepted response is exactly what the model wrote beside its Claim list with the
   provenance of the scores set in it, for the Fundamental Analyst; the other roles drop both.
   */
  lemma AgentResultMetadata(lang: Language, role: Role, m: Manifest, payload: Json, raw: RawOutput)
    requires AgentResult(lang, role, m, payload, raw).Ok?
    ensures AgentResult(lang, role, m, payload, raw).value.metadata == KeptMetadata(role, raw)
  {
    DraftedMetadata(lang, role, m, payload, raw);
    AcceptedMetadata(lang, role, m, payload, Drafted(lang, role, m, payload, raw).value);
  }

  lemma DraftedMetadata(lang: Language, role: Role, m: Manifest, payload: Json, raw: RawOutput)
    requires Drafted(lang, role, m, payload, raw).Ok?
    ensures Drafted(lang, role, m, payload, raw).value.metadata == KeptMetadata(role, raw)
  {}

  lemma AcceptedMetadata(lang: Language, role: Role, m: Manifest, payload: Json, out: Output)
    requires Accepted(lang, role, m, payload, out).Ok?
    ensures Accepted(lang, role, m, payload, out).value.metadata == out.metadata
  {}

  // ----- rejected Claims in the metadata -----

  function ReasonText(reason: Reason): string {
    match reason
    case SchemaInvalid => "claim_schema_invalid"
    case UnknownEvidence => "unknown_or_cross_role_evidence_id"
    case NotGrounded(literal, _) => "numeric_literal_not_grounded:" + literal
    case ProhibitedIntent(_) => "prohibited_claim_intent"
    case NeedsUpstreamIds => "manager_requires_upstream_claim_ids"
    case UnknownUpstream => "invalid_upstream_claim"
    case NewNumeric(literal) => "unsupported_new_numeric:" + literal
  }

  function TextAt(item: Json, key: string, fallback: string): string {
    if !IsDict(item) then fallback
    else match Member(item, key) case Text(value) => if value == "" then fallback else value case _ => fallback
  }

  /** The literals that grounding saw, where it was reached, and otherwise those of the text. */
  function RecordedLiterals(reason: Reason, text: string): seq<string> {
    match reason
    case NotGrounded(_, literals) => literals
    case ProhibitedIntent(literals) => literals
    case _ => Literals(text)
  }

  /** The text elements of a list under a key. */
  function TextsAt(item: Json, key: string): seq<string> {
    if !IsDict(item) then []
    else match Member(item, key) case Arr(items) => TextElements(items, |items|) case _ => []
  }

  function TextElements(items: seq<Json>, n: nat): seq<string>
    requires n <= |items|
  {
    if n == 0 then []
    else TextElements(items, n - 1) + match items[n - 1] case Text(value) => [value] case _ => []
  }

  function RecordJson(path: string, text: string, reason: string, evidenceIds: seq<string>, upstreamIds: seq<string>,
                      literals: seq<string>): Json
  {
    Obj([Field("claim_path", Text(path)), Field("claim_text", Text(text)), Field("reason", Text(reason)),
         Field("evidence_ids", Arr(Texts(evidenceIds))), Field("upstream_claim_ids", Arr(Texts(upstreamIds))),
         Field("numeric_literals", Arr(Texts(literals))), Field("status", Text("rejected"))])
  }

  /** The record of one rejected Claim; only the id list of the role's own route is kept. */
  function RejectionRecord(role: Role, item: Json, reason: Reason): Json {
    var text := TextAt(item, "claim_text", "<invalid claim>");
    RecordJson(TextAt(item, "claim_path", "<unknown>"), text, ReasonText(reason),
               if IsAnalyst(role) then TextsAt(item, "evidence_ids") else [],
               if IsAnalyst(role) then [] else TextsAt(item, "upstream_claim_ids"),
               RecordedLiterals(reason, text))
  }

  function RejectionRecords(role: Role, rejected: Rejections): (r: seq<Json>)
    ensures |r| == |rejected|
  {
    seq(|rejected|, i requires 0 <= i < |rejected| => RejectionRecord(role, rejected[i].0, rejected[i].1))
  }

  /** Two roles expose their rejected Claims in the metadata of the response. */
  function AttachedMetadata(role: Role, metadata: Json, rejected: Rejections): Json {
    if rejected == [] || role !in {FundamentalAnalyst, BearManager} then metadata
    else
      var fields := if metadata.Obj? then metadata.fields else [];
      Obj(WithField(WithField(fields, "rejected_claims", Arr(RejectionRecords(role, rejected))),
                    "claim_policy_version", Text("claim_policy_v1")))
  }

  // ----- attempts -----

  /** What the gateway delivers: an output, a response refused by its schema, or any other failure. */
  datatype Delivery = Produced(raw: RawOutput) | SchemaRefused | CallFailed

  /** The deliveries to one role: the first and, from a gateway that supports it, a repaired one. */
  datatype Attempt = Attempt(first: Delivery, repair: Option<Delivery>)

  /** The result of one delivery, and all Claims rejected so far. */
  datatype Trial = Trial(result: Result<Output, AgentError>, rejected: Rejections)

  function TrialOf(lang: Language, role: Role, m: Manifest, payload: Json, d: Delivery, before: Rejections): Trial {
    match d
    case SchemaRefused => Trial(Err(SchemaError), before)
    case CallFailed => Trial(Err(ExecutionFailed), before)
    case Produced(raw) =>
      var rejected := before + RejectedOf(lang, role, m, payload, raw);
      match AgentResult(lang, role, m, payload, raw)
      case Err(e) => Trial(Err(e), rejected)
      case Ok(out) => Trial(Ok(out.(metadata := AttachedMetadata(role, out.metadata, rejected))), rejected)
  }

  /** A schema failure is repaired once, where the gateway supports that; no other failure is. */
  function RunResult(lang: Language, role: Role, m: Manifest, payload: Json, a: Attempt): Result<Output, AgentError> {
    var t := TrialOf(lang, role, m, payload, a.first, []);
    if t.result == Err(SchemaError) && a.repair.Some?
      then TrialOf(lang, role, m, payload, a.repair.value, t.rejected).result
    else t.result
  }

  method Try(lang: Language, role: Role, m: Manifest, payload: Json, d: Delivery, before: Rejections) returns (t: Trial)
    ensures t == TrialOf(lang, role, m, payload, d, before)
  {
    match d {
      case SchemaRefused => t := Trial(Err(SchemaError), before);
      case CallFailed => t := Trial(Err(ExecutionFailed), before);
      case Produced(raw) =>
        var draft, rejected := Draft(lang, role, m, payload, raw);
        match draft {
          case Err(e) => t := Trial(Err(e), before + rejected);
          case Ok(out) =>
            var accepted := ValidateInferenceOutput(lang, role, m, payload, HeaderOf(raw), out);
            match accepted {
              case Err(e) => t := Trial(Err(e), before + rejected);
              case Ok(final) =>
                t := Trial(Ok(final.(metadata := AttachedMetadata(role, final.metadata, before + rejected))),
                           before + rejected);
            }
        }
    }
  }

  /** Additions, quarantine and regrouping. */
  method Draft(lang: Language, role: Role, m: Manifest, payload: Json, raw: RawOutput)
    returns (r: Result<Output, AgentError>, rejected: Rejections)
    ensures r == Drafted(lang, role, m, payload, raw) && rejected == RejectedOf(lang, role, m, payload, raw)
  {
    match raw {
      case Direct(header, out) =>
        r, rejected := if HeaderReads(role, header, false) then Ok(out) else Err(SchemaError), [];
      case ClaimFirst(items, frame) => r, rejected := DraftClaims(lang, role, m, payload, items, frame);
    }
  }

  method DraftClaims(lang: Language, role: Role, m: Manifest, payload: Json, items: seq<Json>, frame: Frame)
    returns (r: Result<Output, AgentError>, rejected: Rejections)
    ensures r == Drafted(lang, role, m, payload, ClaimFirst(items, frame))
    ensures rejected == RejectedOf(lang, role, m, payload, ClaimFirst(items, frame))
  {
    var screened := ScreenItems(lang, role, m, payload, items);
    match screened {
      case Err(e) => r, rejected := Err(e), [];
      case Ok(s) =>
        rejected := s.rejected;
        r := NormalizeGatewayOutput(role, s.retained, frame);
    }
  }

  method ScreenItems(lang: Language, role: Role, m: Manifest, payload: Json, items: seq<Json>)
    returns (r: Result<Screened, AgentError>)
    ensures r == Screen(lang, role, m, payload, items)
  {
    var enriched := Enrich(m, role, items);
    match enriched {
      case None => r := Err(ExecutionFailed);
      case Some(claims) => r := QuarantineInferenceOutput(ItemVerdict(lang, role, m, payload), claims,
                                                          MinimumValidClaims(role));
    }
  }

  method RunAgent(lang: Language, role: Role, m: Manifest, payload: Json, a: Attempt)
    returns (r: Result<Output, AgentError>)
    ensures r == RunResult(lang, role, m, payload, a)
  {
    var t := Try(lang, role, m, payload, a.first, []);
    if t.result == Err(SchemaError) && a.repair.Some? {
      t := Try(lang, role, m, payload, a.repair.value, t.rejected);
    }
    r := t.result;
  }

  /** The model outputs among the deliveries. */
  predicate Delivers(a: Attempt, raw: RawOutput) {
    a.first == Produced(raw) || a.repair == Some(Produced(raw))
  }

  /** A successful run is the accepted result of one delivered output, with rejections attached. */
  lemma SuccessIsOneOutput(lang: Language, role: Role, m: Manifest, payload: Json, a: Attempt)
    returns (raw: RawOutput, rejected: Rejections)
    requires RunResult(lang, role, m, payload, a).Ok?
    ensures Delivers(a, raw) && AgentResult(lang, role, m, payload, raw).Ok?
    ensures var out := AgentResult(lang, role, m, payload, raw).value;
            RunResult(lang, role, m, payload, a) == Ok(out.(metadata := AttachedMetadata(role, out.metadata, rejected)))
  {
    var t := TrialOf(lang, role, m, payload, a.first, []);
    if t.result.Ok? {
      raw, rejected := a.first.raw, t.rejected;
    } else {
      raw, rejected := a.repair.value.raw, TrialOf(lang, role, m, payload, a.repair.value, t.rejected).rejected;
    }
  }
}
