/** Quarantine: a model's Claims are screened one by one before a response is made of the rest. */
module Claims {
  import opened Sequences
  import opened Scanner
  import opened Evidence
  import opened Grounding
  import opened Json

  /** The text-matching rules: grounding patterns, and the intent of a text read analytically or not. */
  datatype Language = Language(patterns: Patterns, intent: (string, bool) -> Intent)

  predicate Prohibited(intent: Intent) { intent.SystemRecommendation? || intent.ExecutionInstruction? }

  type Manifest = seq<Entry>

  /** `{entry.evidence_id: entry for entry in entries}` over the first `n` entries. */
  function ById(m: Manifest, n: nat): map<string, Entry>
    requires n <= |m|
  {
    if n == 0 then map[] else ById(m, n - 1)[m[n - 1].id := m[n - 1]]
  }

  function Entries(m: Manifest): map<string, Entry> { ById(m, |m|) }

  lemma {:induction false} ByIdMembers(m: Manifest, n: nat)
    requires n <= |m|
    ensures forall id :: id in ById(m, n) ==> ById(m, n)[id] in m && ById(m, n)[id].id == id
    ensures forall i :: 0 <= i < n ==> m[i].id in ById(m, n)
  {
    if n > 0 {
      ByIdMembers(m, n - 1);
    }
  }

  predicate AllIn<T>(ids: seq<string>, index: map<string, T>) { forall id :: id in ids ==> id in index }

  function Lookups<T>(index: map<string, T>, ids: seq<string>): (r: seq<T>)
    requires AllIn(ids, index)
    ensures |r| == |ids|
  {
    seq(|ids|, i requires 0 <= i < |ids| => assert ids[i] in ids; index[ids[i]])
  }

  lemma LookupsMembers<T>(index: map<string, T>, ids: seq<string>)
    requires AllIn(ids, index)
    ensures forall x :: x in Lookups(index, ids) <==> exists id :: id in ids && index[id] == x
  {
    forall x | exists id :: id in ids && index[id] == x ensures x in Lookups(index, ids) {
      var id :| id in ids && index[id] == x;
      var i :| 0 <= i < |ids| && ids[i] == id;
      assert Lookups(index, ids)[i] == x;
    }
  }

  // ----- quarantine -----

  /** Why a Claim is rejected, with its numeric literals where grounding was reached. */
  datatype Reason =
    | SchemaInvalid
    | UnknownEvidence
    | NotGrounded(literal: string, literals: seq<string>)
    | ProhibitedIntent(literals: seq<string>)
    | NeedsUpstreamIds
    | UnknownUpstream
    | NewNumeric(newLiteral: string)

  /** `Broken` is a candidate whose numeric comparison raised. */
  datatype Verdict = Keep(claim: Binding) | Reject(reason: Reason) | Broken

  predicate ProhibitedClaim(lang: Language, b: Binding) {
    Prohibited(lang.intent(b.text, false)) || Prohibited(b.intent)
  }

  function EvidenceVerdict(lang: Language, entries: map<string, Entry>, item: Json): Verdict {
    match Validated(item)
    case None => Reject(SchemaInvalid)
    case Some(b) =>
      if !AllIn(b.evidenceIds, entries) then Reject(UnknownEvidence)
      else match Ground(lang.patterns, b.text, Lookups(entries, b.evidenceIds))
        case Err(_) => Broken
        case Ok(g) =>
          if g.ungrounded != [] then Reject(NotGrounded(g.ungrounded[0], g.literals))
          else if ProhibitedClaim(lang, b) then Reject(ProhibitedIntent(g.literals))
          else Keep(b)
  }

  predicate Carried(literal: string, parents: seq<Binding>) {
    exists p :: p in parents && literal in p.literals
  }

  predicate Inherited(literals: seq<string>, parents: seq<Binding>) {
    forall literal :: literal in literals ==> Carried(literal, parents)
  }

  /** The first literal that no parent Claim carries. */
  function FirstNew(literals: seq<string>, parents: seq<Binding>): Option<string> {
    if literals == [] then None
    else if Carried(literals[0], parents) then FirstNew(literals[1..], parents)
    else Some(literals[0])
  }

  lemma {:induction false} FirstNewDecides(literals: seq<string>, parents: seq<Binding>)
    ensures FirstNew(literals, parents).None? <==> Inherited(literals, parents)
  {
    if literals != [] {
      FirstNewDecides(literals[1..], parents);
      assert forall x :: x in literals <==> x == literals[0] || x in literals[1..];
    }
  }

  function UpstreamVerdict(lang: Language, upstream: map<string, Binding>, item: Json): Verdict {
    match Validated(item)
    case None => Reject(SchemaInvalid)
    case Some(b) =>
      if b.evidenceIds != [] || b.upstreamIds == [] then Reject(NeedsUpstreamIds)
      else if !AllIn(b.upstreamIds, upstream) then Reject(UnknownUpstream)
      else match FirstNew(Literals(b.text), Lookups(upstream, b.upstreamIds))
        case Some(literal) => Reject(NewNumeric(literal))
        case None => if ProhibitedClaim(lang, b) then Reject(ProhibitedIntent(Literals(b.text))) else Keep(b)
  }

  datatype AgentError =
    | ClaimMinimum(rejected: seq<(Json, Reason)>)
    | SchemaError
    | RoleRefused
    | TradingInstruction
    | CitationUnknown
    | BindingMismatch
    | TextMismatch
    | NumericAbsent
    | ProvenanceMissing
    | ExecutionFailed

  datatype Screened = Screened(retained: seq<Binding>, rejected: seq<(Json, Reason)>)

  /** The first `n` items, split by their verdicts; items that are not dictionaries are passed over. */
  function Screening(verdict: Json -> Verdict, items: seq<Json>, n: nat): Screened
    requires n <= |items|
  {
    if n == 0 then Screened([], [])
    else
      var before, item := Screening(verdict, items, n - 1), items[n - 1];
      if !IsDict(item) then before
      else match verdict(item)
        case Keep(c) => before.(retained := before.retained + [c])
        case Reject(reason) => before.(rejected := before.rejected + [(item, reason)])
        case Broken => before
  }

  predicate AnyBroken(verdict: Json -> Verdict, items: seq<Json>, n: nat)
    requires n <= |items|
  {
    exists i :: 0 <= i < n && IsDict(items[i]) && verdict(items[i]).Broken?
  }

  function Quarantine(verdict: Json -> Verdict, items: seq<Json>, minimum: nat): Result<Screened, AgentError> {
    var screened := Screening(verdict, items, |items|);
    if AnyBroken(verdict, items, |items|) then Err(ExecutionFailed)
    else if |screened.retained| < minimum then Err(ClaimMinimum(screened.rejected))
    else Ok(screened)
  }

  method QuarantineInferenceOutput(verdict: Json -> Verdict, items: seq<Json>, minimum: nat)
    returns (r: Result<Screened, AgentError>)
    ensures r == Quarantine(verdict, items, minimum)
  {
    var retained, rejected := [], [];
    for i := 0 to |items|
      invariant Screened(retained, rejected) == Screening(verdict, items, i)
      invariant !AnyBroken(verdict, items, i)
    {
      if IsDict(items[i]) {
        match verdict(items[i]) {
          case Keep(c) => retained := retained + [c];
          case Reject(reason) => rejected := rejected + [(items[i], reason)];
          case Broken => return Err(ExecutionFailed);
        }
      }
    }
    if |retained| < minimum {
      return Err(ClaimMinimum(rejected));
    }
    r := Ok(Screened(retained, rejected));
  }

  function Dictionaries(items: seq<Json>, n: nat): nat
    requires n <= |items|
  {
    if n == 0 then 0 else Dictionaries(items, n - 1) + if IsDict(items[n - 1]) then 1 else 0
  }

  /** Quarantine loses nothing: every dictionary is retained with verdict Keep or recorded with its reason. */
  lemma {:induction false} QuarantineIsExact(verdict: Json -> Verdict, items: seq<Json>, n: nat)
    requires n <= |items| && !AnyBroken(verdict, items, n)
    ensures var s := Screening(verdict, items, n);
            && (forall c :: c in s.retained <==>
                exists i :: 0 <= i < n && IsDict(items[i]) && verdict(items[i]) == Keep(c))
            && (forall x, reason :: (x, reason) in s.rejected <==>
                  exists i :: 0 <= i < n && items[i] == x && IsDict(x) && verdict(x) == Reject(reason))
            && |s.retained| + |s.rejected| == Dictionaries(items, n)
  {
    if n > 0 {
      QuarantineIsExact(verdict, items, n - 1);
    }
  }
}
