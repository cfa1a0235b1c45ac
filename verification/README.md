# Verification of the evidence-grounded research pipeline

The pipeline asks eight Agents, backed by a language model, for a research opinion about one
asset. Its promise is that no number and no citation in an accepted Claim is invented: every one
can be followed to a piece of Evidence. Around that chain stand deterministic parts with promises
of their own: a bounded projection of evidence, the recovery of Claim ancestry, a rate-limited
provider client, a snapshot cache, paged retrieval, the selection of filed facts, and the promotion
of Sector Claims. This project models those parts in Dafny and proves the promises. The language
model is an arbitrary value wherever it appears: each statement about a run holds whatever it
returned.

Check everything with `dafny verify dfyconfig.toml`.

## Reading order

- `Sequences`, `Ordering`: ordered deduplication, string order, stable sorting, `sorted(set)`.
- `Scanner`, `Regex`, `Rescan`: the numeric tokenizer as a scanner, a backtracking matcher for the
  pattern as written that agrees with it on every text (with ASCII digit and word classes), and
  literals as fixed points.
- `Decimals`, `Grounding`: decimals as coefficient and exponent, half-even rounding, and the
  grounding of a text's numbers in evidence entries.
- `Evidence`, `Json`, `Sections`, `Claims`, `Validation`, `Roles`, `Canonical`, `Agents`: the life of
  a Claim inside one Agent: deterministic additions, quarantine, regrouping into sections, strict
  validation, the repair attempt and the rejection records.
- `Survival`, `RoundedClaims`: exactly when a Claim survives quarantine, exact Claims that do not, and
  one that does and is then refused.
- `Coordinator`, `Outcomes`, `Responses`, `Provenance`, `RepeatedIds`: the chain of eight Agents, where
  the text and the citations of its accepted Claims come from, why a task has one outcome, responses
  that are accepted, exactly when a Manager accepts faithful Claims only, a run that accepts an
  invented number, and a task refused over one repeated id.
- `Projection`, `Attribution`: the round-robin projection and the Claim ancestry.
- `HttpClient`, `FmpCache`, `AlpacaNews`, `SecFacts`: the stateful adapters.
- `SectorPromotion`: promotion of a Sector research draft.

Code that changes state step by step is written as methods with loops, or as classes, and each such
method is proved against a specification function or states its new state outright; the properties
are then proved about that specification.

## Findings

Five properties that one might expect do not hold of the code; each has a lemma at a concrete input
and an exact condition.

- Quarantine does not imply strict acceptance. Quarantine grounds a number by rounding, strict
  validation looks for it verbatim, so one retained Claim "1.23457" over a document that says
  "1.234568" fails the whole response (`RoundedClaims.RoundedClaimIsKeptButRefused`). Exactly the
  Claims that cite known entries carrying all their literals pass
  (`Validation.StrictAcceptsExactClaims`).
- Strict acceptance does not imply surviving quarantine either. An exact number that its text uses
  with a calendar unit still needs a formal window in a cited entry: a Claim that repeats the "5 days"
  of a document is dropped (`Survival.ExactClaimIsDropped`), and so is a Claim that the Technical
  Analyst appends itself from a structured entry in days (`Survival.AppendedClaimIsDropped`).
  `Survival.ExactClaimKept` and `Survival.RoleClaimsKept` give the condition over tokens and windows
  of the cited entries, `Survival.KeptWhenAnswered` the one for any Claim.
- A Manager may cite Claims that no Agent accepted. The Fundamental Analyst's free-form `metadata`
  is copied into Manager payloads, and the index of upstream Claims walks the whole payload.
  `Provenance.InventedNumberIsAccepted` builds a run: a Claim list under one metadata key, and a
  Research Claim "7" that is accepted although no evidence holds a number at all. The provenance
  theorem for whole runs therefore carries the condition `NoForeignClaims`. For one Manager the
  exact condition is `Provenance.FaithfulExactlyWhenSound`: whatever its model delivers, all it
  accepts is stated by root sources that the same Claim cites, exactly when the indexed Claims are,
  where numbers of an indexed Claim without sources count as stated by any other's. Which single
  document it can cite and which single number it can state is `Provenance.CitableExactlyWhenIndexed`
  and `Provenance.StateableExactlyWhenIndexed`.
- An Agent accepts a response in which one Claim id occurs twice, and the contract of the next
  Manager then refuses it, so the whole task raises instead of reporting a result
  (`RepeatedIds.OneRepeatedIdRefusesTheTask`). `RepeatedIds.StableExactlyWhenUnrepeated` says which
  responses do that, and `Coordinator.OnlyIdsFail` that nothing else makes a contract fail.
- An accepted Sector Claim with a repeated evidence id makes the whole promotion fail rather than
  being quarantined (`SectorPromotion.RepeatedEvidenceFailsAll`, at a draft of four claims);
  `SectorPromotion.PromotionSucceeds` lists this among its exact conditions.

Two smaller observations. Among equally preferred filed facts the listing order decides
(`SecFacts.TiesKeepTheFirst`). And the "significant digits" that the rounding rule counts are the
characters left after removing the point and leading zeros: when the value is at least one, six of
them do bound the relative error, and below one nothing is claimed
(`Grounding.RoundingMatchRelative`).

## Model

| member | source | states |
|---|---|---|
| Regex.ScannerIsFindAll | src/agents/evidence.py:39-47 | on every text, with ASCII digit and word classes, the scanner lists exactly the matches that a greedy backtracking matcher finds for the numeric pattern as it is written |
| Regex.NumericFirst | src/agents/evidence.py:42-45 | at every position the matcher's first end is the scanner's single end, so giving up an optional sign, fraction, time or zone never finds another match |
| Scanner.TokensOfJoin | src/agents/evidence.py:36-49 | scanning texts joined by "; " is scanning them one after the other: no token spans a joint |
| Scanner.LabelledLiterals | src/agents/evidence.py:36-49 | the literals of "Label: d1; d2; ..." under a digit-free label are exactly the deduplicated literals of d1, d2, ... in order |
| Rescan.LiteralsRescan | src/agents/evidence.py:36-49 | every literal the tokenizer yields is a fixed point: scanned again it is the one literal of itself, also after its commas are gone |
| Evidence.StructuredIsCovered | src/agents/evidence.py:130-145 | a structured entry exposes every literal of its own description as a token |
| Decimals.EqualInAnyUnit | src/agents/numeric_grounding.py:188-194 | decimal equality is equality of the integer counts at any common finer unit, whatever the two exponents |
| Decimals.RoundingIsNearestEven | src/agents/numeric_grounding.py:213-220 | the rounding computed for quantize is the one nearest integer, the even one on a tie, for either sign; and nothing else satisfies that |
| Decimals.QuantizeRounds | src/agents/numeric_grounding.py:213-220 | a quantize that fits 28 digits yields the half-even rounding of its operand at the requested exponent |
| Decimals.RoundsUnique | src/agents/numeric_grounding.py:213-221 | at one exponent a source has one rounding |
| Decimals.RelativeErrorBound | src/agents/numeric_grounding.py:204-206 | a half-unit error stays within five parts in a million for every possible source exactly when the coefficient has at least six digits |
| Grounding.RoundingMatchIsRounding | src/agents/numeric_grounding.py:197-221 | two comparable numerals match exactly when the rendered one is the half-even rounding of the source at its own exponent; the comparison overflows exactly when that rounding needs more than 28 digits |
| Grounding.RoundingMatchUnique | src/agents/numeric_grounding.py:197-221 | two renderings with the same number of decimals that both match one source have equal values |
| Grounding.RoundingMatchRelative | src/agents/numeric_grounding.py:197-221 | a matching numeral of magnitude at least one is within five parts in a million of its source |
| Grounding.ValidateNumericGrounding | src/agents/numeric_grounding.py:68-107 | the classifying loops compute the specified split, or fail exactly when a comparison overflows |
| Grounding.FoundIsSupported | src/agents/numeric_grounding.py:130-185 | a match names one of the supplied entries together with a token or formal window that this entry contains |
| Grounding.GroundingSplits | src/agents/numeric_grounding.py:68-107 | matched and ungrounded literals together are exactly the distinct literals, each once, and every match has its support |
| Grounding.GroundingMonotone | src/agents/numeric_grounding.py:110-117 | adding entries never turns a grounded literal ungrounded, although the set of known identifiers changes too |
| Json.UpstreamClaimIndex | src/agents/base.py:1504-1531 | the recursive visitor fills the index with the last Claim of each id in walking order, over the whole payload |
| Json.IndexMembers | src/agents/base.py:1504-1531 | the index has an id exactly when some visited Claim has it, and holds such a Claim |
| Json.ShownClaimsAreIndexed | src/agents/base.py:945-1009 | every schema-valid Claim shown by the first-wins walk over the contract has its id in the last-wins index over the payload, and is the same Claim when equal ids carry equal Claims |
| Sections.NormalizeClaimResponse | src/agents/analysts.py:412-461 | the regrouping loop with its counters yields the section lists and the relocated bindings of the specification |
| Sections.OneTextPerClaim | src/agents/base.py:788-794 | a regrouped response has as many text paths as Claims |
| Sections.PathInjective | src/agents/base.py:1334-1346 | distinct section positions have distinct paths |
| Sections.TextAtPath | src/agents/base.py:1334-1346 | looking up a section path in the response returns the text at that position, through nested and flat shapes |
| Sections.RegroupingRoundTrip | src/agents/managers.py:113-149 | for any Claims in legal sections, the rebuilt bindings have distinct paths, those are exactly the text paths, and each path leads back to its Claim's text |
| Claims.QuarantineInferenceOutput | src/agents/base.py:415-467 | the quarantine loop computes the specified screening, its minimum and its failure |
| Claims.QuarantineIsExact | src/agents/base.py:415-467 | every dictionary of the response is either retained by verdict or recorded with its reason, and nothing else is |
| Claims.FirstNewDecides | src/agents/base.py:1449-1501 | a Manager Claim is free of new numbers exactly when every literal is carried by a cited parent |
| Validation.BuildManifestEvidence | src/agents/base.py:636-781 | the strict Analyst validator computes its specification, with the errors in the order of the code |
| Validation.BuildUpstreamClaimEvidence | src/agents/base.py:557-634 | the strict Manager validator computes its specification over the indexed payload |
| Validation.ManifestEvidenceRooted | src/agents/base.py:636-781 | whatever the response was, each accepted Analyst Claim lists exactly the numbers of its text, its citations are non-empty and from the manifest, and every number is a token of an entry whose citation the same Claim carries |
| Validation.UpstreamEvidenceRooted | src/agents/base.py:557-634 | whatever the response was, each accepted Manager Claim lists exactly the numbers of its text, its citations come from indexed Claims, and every number keeps the citation that states it |
| Validation.ParentSourcesCarry | src/agents/base.py:1534-1538 | a derived Claim carries the citation keys of its parents, all of them and no others |
| Validation.InheritedIsBacked | src/agents/base.py:590-600 | what backs a literal of a parent Claim backs it in the derived Claim, although equal citation keys are merged |
| Validation.StrictAcceptsExactClaims | src/agents/base.py:676-735 | a regrouped Analyst response is accepted exactly when every Claim cites known entries that carry all its literals verbatim: path and text checks cannot fire |
| Validation.StrictAcceptsDerivedClaims | src/agents/base.py:557-634 | a regrouped Manager response is accepted exactly when every Claim cites known Claims that carry all its literals and have sources |
| Roles.CompleteCompletes | src/agents/analysts.py:412-461 | every role's completion of a Claim moves it to its new path and keeps its text, its evidence route and its validity |
| Validation.KeptManagerClaimIsDerived | src/agents/base.py:1449-1501 | a Manager Claim that survives quarantine meets the strict demand when its parents have sources |
| Validation.ManifestEvidenceValid | src/agents/base.py:736-781 | accepted Analyst Claims satisfy the Claim schema again |
| Validation.UpstreamEvidenceValid | src/agents/base.py:605-634 | accepted Manager Claims satisfy the Claim schema again |
| RoundedClaims.RoundedClaimIsKeptButRefused | src/agents/base.py:1390-1447 | a concrete Claim with a correctly rounded number is kept by quarantine and refused by the strict validator |
| RoundedClaims.MatchedButNotExact | src/agents/base.py:726-735 | so is every Claim whose one numeral matches its only token without being that token |
| Canonical.AppendDeterministicManifestClaims | src/agents/analysts.py:464-546 | the appending loops extend the model's Claims by the specified canonical Claims, or fail exactly when a retained facts path has no readable index |
| Canonical.CanonicalClaimIsExact | src/agents/analysts.py:523-539 | the text of a canonical Claim passes the verbatim check exactly when each cited description's literals are tokens of some cited entry |
| Canonical.AppendedClaimsAreExact | src/agents/analysts.py:464-546 | every Claim appended for a list of captioned groups passes the strict check against the entries it cites, when those entries carry the literals of their descriptions |
| Canonical.RoleAppendsExactClaims | src/agents/analysts.py:151-164 | the same for what each role appends for its own groups |
| Survival.KeptWhenAnswered | src/agents/base.py:1390-1447 | quarantine keeps a valid Analyst Claim exactly when it cites known entries, its wording is not prohibited, and each number that counts has a formal window where the text uses it with a calendar unit, and elsewhere a token that equals it or rounds to it with no overflowing comparison before |
| Survival.ExactClaimKept | src/agents/base.py:1390-1447 | a strictly acceptable Claim survives quarantine exactly when its wording is not prohibited, each number used with a calendar unit has that window in a cited entry, every comparison with another of its numbers that overflows comes after a deciding token, and each digit run of an unknown identifier has a deciding token before any overflow |
| Survival.ExactClaimIsDropped | src/agents/numeric_grounding.py:120-147 | a Claim that repeats "5 days" over a document that says "5 days" passes the strict check, and quarantine rejects it for the number 5 |
| Survival.RoleClaimsKept | src/agents/analysts.py:464-546 | each Claim a role appends satisfies the Claim schema and the strict check, and survives quarantine exactly under the conditions for exact Claims |
| Survival.AppendedClaimIsDropped | src/agents/analysts.py:464-546 | over a structured entry whose value is five days the Technical Analyst appends an exact Claim, whatever its model wrote, and its own quarantine rejects it |
| Grounding.NumericReaches | src/agents/numeric_grounding.py:165-185 | outside calendar windows a number is matched exactly when, in the order of entries and tokens, a token that equals it or rounds to it comes before any comparison whose rounding needs more than 28 digits |
| Canonical.CanonicalPathsAreFresh | src/agents/analysts.py:514-540 | no appended Claim takes the path of a retained Claim or of another appended one |
| Agents.RunAgent | src/agents/base.py:164-398 | an Agent run: additions, quarantine, regrouping, the check of name and status, and strict validation of a delivery, one repair after a schema failure only, and the rejection records of both attempts in the metadata |
| Agents.AgentResultRooted | src/agents/base.py:400-413 | an Analyst's accepted Claims are faithful to its manifest and a Manager's to the Claims its payload indexes, in text, numbers and citations, for every model output |
| Agents.AgentResultShaped | src/agents/base.py:400-413 | an accepted response satisfies its response schema again |
| Agents.AgentResultMetadata | src/agents/analysts.py:177-228 | the metadata of an accepted response is exactly what the Fundamental model wrote beside its Claim list, with the provenance of its scores set under one key; the other roles drop both |
| Agents.SuccessIsOneOutput | src/agents/base.py:203-254 | a successful run is the accepted result of one of the deliveries, changed by rejection records in the metadata only |
| Coordinator.OutputClean | src/agents/coordinator.py:541-583 | only the bindings and the metadata of a response can bring Claims into a later payload |
| Coordinator.AttachedClean | src/agents/analysts.py:230-246 | attaching rejection records brings no Claim into the metadata |
| Coordinator.DownstreamClean | src/agents/coordinator.py:447-460 | dropping them again before an output goes downstream brings none either |
| Coordinator.PayloadClean | src/agents/coordinator.py:415-429 | whatever property the accepted Claims, the Sector Claims and the Claims in free-form JSON have, every Claim found in a Manager payload has it |
| Coordinator.ExecuteRooted | src/agents/coordinator.py:384-399 | one more Agent keeps the whole run rooted, whatever its model delivered, first or repaired |
| Coordinator.EveryRunIsRooted | src/agents/coordinator.py:117-382 | by induction over the chain, after any number of Agents every accepted Claim lists exactly the numbers of its text, and each number is stated by a source that this same Claim cites, provided no Claim list hides in free-form JSON |
| Coordinator.RunAnalysts | src/agents/coordinator.py:132-163 | all four Analysts run in order, and exactly the unusable ones are reported missing |
| Coordinator.OnlyIdsFail | src/agents/input_contracts.py:431-460 | a Manager contract that the results call for is refused exactly when an output it shows has a missing or repeated Claim id |
| Coordinator.ReviewRisk | src/agents/coordinator.py:285-382 | Risk runs exactly when both theses are usable; its contract is refused only when they are, and then over repeated ids |
| Coordinator.DebateTheses | src/agents/coordinator.py:204-284 | Bull and Bear run exactly when Research is usable; a contract is refused only where the results call for its Agent |
| Coordinator.Run | src/agents/coordinator.py:117-382 | every task invokes the prefix of the chain that its results call for, every contract it built satisfies its validators, the missing Agents are reported exactly, and it fails exactly at the first Agent that the results call for while an output it would see has unstable Claim ids |
| Outcomes.OutcomeIsDetermined | src/agents/coordinator.py:117-382 | given what each Agent makes of the results before it, a task has one outcome: the report or the refusal, its length, its results and its missing Agents admit no second choice |
| Coordinator.CompleteTask | src/agents/coordinator.py:352-382 | a task that ends well has all four Managers done and misses at most Analysts |
| Coordinator.TaskIsRooted | src/agents/coordinator.py:117-382 | the same for everything a finished task returns |
| Coordinator.AcceptedNumbersAreCited | src/agents/coordinator.py:117-382 | read on the text: every number in the text of any accepted Claim of a task is stated by a source that this Claim cites, and its citations are non-empty and among the roots |
| Provenance.CitableExactlyWhenIndexed | src/agents/base.py:557-634 | whatever way through quarantine, regrouping and validation, a Manager's model can make a document key part of an accepted Claim exactly when an indexed Claim carries it, as long as a numberless text is not prohibited wording |
| Provenance.StateableExactlyWhenIndexed | src/agents/base.py:557-634 | in the same sense it can state a number exactly when the tokenizer can yield it, an indexed Claim lists it, and some indexed Claim has a source, as long as the bare number is not prohibited wording |
| Provenance.FaithfulExactlyWhenSound | src/agents/base.py:557-634 | over all deliveries of a Manager's model, every accepted Claim lists exactly the numbers of its text, each stated by a root source that this same Claim cites, exactly when each indexed Claim cites roots that state its scannable numbers, or, if it cites nothing, every other sourced Claim's sources state them; as long as a numberless text and bare numbers are not prohibited wording |
| Provenance.ListsRootedWhenSound | src/agents/base.py:1534-1538 | what all lists of parents can give together is decided by single Claims and pairs, although parents are merged by citation key |
| Provenance.MetadataReachesManagers | src/agents/base.py:1504-1531 | a Claim in the metadata that a usable Analyst response passes downstream is visited in every Manager's payload |
| Provenance.InventedNumberIsAccepted | src/agents/analysts.py:177-228 | a run of the chain whose evidence holds no number, in which a Claim list in the Fundamental metadata lets the Research Manager state 7 and cite a foreign source, and be accepted |
| RepeatedIds.StableExactlyWhenUnrepeated | src/agents/base.py:400-413 | an accepted response has ids that the next contract admits exactly when, among the Claims that survived quarantine, no id occurs twice after generated ids are filled in |
| RepeatedIds.RepeatedIdsAreAccepted | src/agents/base.py:400-413 | the Fundamental Analyst accepts a response of two Claims with one id |
| RepeatedIds.RepeatedIdsStopTheTask | src/agents/input_contracts.py:431-460 | with one Analyst usable and one Analyst output with a repeated id, refusing the Research contract is the only outcome of the task |
| RepeatedIds.OneRepeatedIdRefusesTheTask | src/agents/coordinator.py:117-382 | a task over one evidence entry in which that response is delivered and accepted, and whose every outcome is the refusal |
| Responses.ManagerAccepts | src/agents/managers.py:113-149 | for every Manager, a text whose literals known Claims carry passes quarantine, regrouping, wording and evidence checks and cites those Claims |
| Responses.FundamentalAccepts | src/agents/analysts.py:177-228 | the Fundamental Analyst accepts numberless Claims over any known entry with arbitrary metadata beside them, and passes that metadata on |
| Projection.GroupByField | src/agents/input_contracts.py:908-917 | grouping keeps each field's items newest first and lists every field once, in name order |
| Projection.RoundRobin | src/agents/input_contracts.py:919-935 | the allocator selects exactly the limit, of every field its newest items, max-min fairly with ties to earlier names; the break on an empty round is never taken |
| Projection.ProjectDataSection | src/agents/input_contracts.py:896-943 | a section within its limit is unchanged; a longer one becomes a sorted fair projection of exactly the limit |
| Projection.ProjectionIsPart | src/agents/input_contracts.py:896-943 | a projection holds source items only, none more often than the source |
| Projection.KeptAreNewer | src/agents/input_contracts.py:908-935 | no item left out is newer than one kept from its field |
| Projection.ProjectionIsDetermined | src/agents/input_contracts.py:896-943 | prefix, limit and fairness leave no choice: two fair projections of the same items are equal, in whatever order the section lists them |
| Attribution.AncestorIsReached | scripts/build_research_attribution.py:106-119 | each ancestor found lies at the end of an actual path that stops at its first Sector Claim |
| Attribution.ReachedIsAncestor | scripts/build_research_attribution.py:106-119 | whatever a path outside the visited set reaches is found: cutting the path at the last visit of its start keeps it out of its own past |
| Attribution.AncestorsAreReachable | scripts/build_research_attribution.py:106-119 | on every finite graph, cyclic or not, the search finds exactly the Sector Claims within reach |
| Attribution.RecoverLinks | scripts/build_research_attribution.py:73-170 | the nested loops with their identity set list each proposed link once, in order of first proposal |
| Attribution.LinksAreWarranted | scripts/build_research_attribution.py:121-170 | a link is listed exactly when roles match, the role has usage, and a parent of the Claim reaches a used Sector Claim, or one that supports a used event |
| Attribution.IdentitiesAreDistinct | scripts/build_research_attribution.py:145-158 | no two links share run, context and Claim |
| HttpClient.ProviderHTTPClient.WaitForRateLimit | src/adapters/http.py:236-244 | the recorded time is the clock's, and at least one interval after the last one |
| HttpClient.ProviderHTTPClient.SleepBeforeRetry | src/adapters/http.py:246-267 | the pause is the provider's wish or the backoff, capped, and time passes by at least that much |
| HttpClient.ProviderHTTPClient.GetText | src/adapters/http.py:130-234 | refused arguments send nothing; otherwise one to maximum-plus-one sends, all but the last retryable, a pause after each but the last, and the answer belongs to the last; counters balance and the loop never falls through |
| HttpClient.CourseIsDetermined | src/adapters/http.py:183-234 | when a call stops is determined by the replies it met |
| HttpClient.CallPausesAreCapped | src/adapters/http.py:246-267 | the pauses of one call add up to at most one cap per allowed retry |
| HttpClient.WindowHoldsFew | src/adapters/http.py:236-244 | any half-open window of n intervals holds at most n spaced requests |
| HttpClient.ProviderHTTPClient.RateCeiling | src/adapters/http.py:236-244 | the same over everything one client ever sent |
| FmpCache.KeyIgnoresSpelling | src/adapters/fmp.py:195-204 | the key ignores order, repetition and letter case of the requested ids |
| FmpCache.KeySeparatesAssets | src/adapters/fmp.py:195-204 | and ids that differ in more than that get different keys |
| FmpCache.FinancialModelingPrepAdapter.FetchFundamentalsRangeAt | src/adapters/fmp.py:180-231 | a key acquired before delivers its first acquisition in records the caller owns alone; errors come in the code's order and change nothing; acquisitions are stored snapshots plus failures, and with reuses the validated calls |
| FmpCache.FinancialModelingPrepAdapter.AcquisitionSnapshot | src/adapters/fmp.py:233-253 | a snapshot is handed out exactly for acquired contracts, with the contents first acquired |
| FmpCache.FetchTamperFetch | src/adapters/fmp.py:205-231 | after any overwriting of returned records a respelled request still delivers what the first one did |
| SectorPromotion.PromoteOutput | src/agents/sector_research.py:696-903 | the promotion loops compute the specified output or the first error in the code's order |
| SectorPromotion.PromotionSucceeds | src/agents/sector_research.py:696-903 | promotion succeeds exactly on drafts with unique paths, known support, no repeated evidence id in an accepted claim, three accepted claims, every HIGH or CRITICAL event cited by an accepted claim, a surviving support path, and an uncertainty for degraded input |
| SectorPromotion.RepeatedEvidenceFailsAll | src/agents/sector_research.py:750-784 | a draft of four accepted claims of which one repeats an evidence id fails as a whole, and succeeds without that claim |
| SectorPromotion.SectorJudgeAccepts | src/agents/sector_research.py:921-977 | the claim rules do accept these four claims over one plain evidence item |
| SectorPromotion.Partition | src/agents/sector_research.py:742-784 | accepted claims and rejection records are the draft's claims at two increasing lists of positions that together take every claim exactly once; the accepted ones are whole, and each record has its claim's path and the reason of its rejection |
| SectorPromotion.PromotedIds | src/agents/sector_research.py:750-757 | accepted claims have contiguous and pairwise distinct ids |
| SectorPromotion.CoverageDecides | src/agents/sector_research.py:980-1077 | the coverage matrix passes exactly when an accepted claim cites each mandatory event |
| SectorPromotion.SupportIsExact | src/agents/sector_research.py:827-836 | supporting ids and dropped paths exactly cover the submitted support, each once |
| SectorPromotion.SupportingIdIsPromoted | src/agents/sector_research.py:827-831 | a supporting id is the id of the promoted claim that the support path named |
| SectorPromotion.PromotedIsSchemaValid | src/schemas/sector_research.py:257-308 | a promoted output satisfies its own schema: unique ids, contiguous paths, direct evidence, known support, PARTIAL exactly when support was dropped |
| SectorPromotion.PromotedNumbersAreSupported | src/agents/sector_research.py:921-977 | every number of a promoted claim matches a token or window of an evidence item that the claim itself cites |
| SectorPromotion.ClaimStatusMap | src/agents/sector_research.py:906-918 | the map has every submitted path, quarantined exactly when a rejected claim has that path |
| SectorPromotion.JudgeIsDemanding | src/agents/sector_research.py:944-945 | the claim rules accept no claim without evidence |
| SectorPromotion.StatusAgrees | src/agents/sector_research.py:906-918 | the status map says ACCEPTED exactly for the promoted claims |
| AlpacaNews.AlpacaAdapter.FetchPages | src/adapters/providers.py:1066-1181 | the paged loop ends on one page in exactly one of the specified ways, with diagnostics written only on success and rejection |
| AlpacaNews.AlpacaAdapter.FetchDocuments | src/adapters/providers.py:1046-1181 | an inverted window and an empty symbol list are answered without a request, and everything else is a paged retrieval |
| AlpacaNews.PassConcat | src/adapters/providers.py:1090-1158 | screening two lists in turn is screening their concatenation |
| AlpacaNews.PassGoes | src/adapters/providers.py:1087-1145 | a pass goes through exactly when every item is readable and created, then updated, before the cutoff |
| AlpacaNews.PassScreens | src/adapters/providers.py:1090-1158 | it then holds the first in-window article of each id, in order, and its counts balance |
| AlpacaNews.RefusalIsExplained | src/adapters/providers.py:1101-1145 | the article that stops the pass is the first unsound one, refused for inverted timestamps if it has them and for exceeding the cutoff otherwise |
| AlpacaNews.SuccessIsOnePass | src/adapters/providers.py:1066-1172 | on success the result is one pass over all pages together; raw is accepted plus filtered, and the filter reasons sum to filtered |
| AlpacaNews.RejectionIsCounted | src/adapters/providers.py:1100-1145 | a rejection reports raw as accepted plus filtered plus one |
| AlpacaNews.CutsDoNotMatter | src/adapters/providers.py:1074-1181 | a list of articles delivered in few enough readable pages with new tokens is retrieved as one pass over the list says: articles, counts, rejection and the success itself depend on the list alone |
| AlpacaNews.SameListSameResult | src/adapters/providers.py:1074-1181 | two providers that cut one list differently give the same result and counts, and both succeed exactly on sound lists |
| SecFacts.PreferenceIsStrictWeakOrder | src/adapters/providers.py:1829-1839 | within one report type preference is asymmetric and transitive, and its ties are the equal ranks |
| SecFacts.PreferenceNeedsOneReportType | src/adapters/providers.py:1829-1839 | across report types two candidates are each preferred to the other exactly when they have one priority and the annual one is longer; the fold's keys keep such candidates apart |
| SecFacts.FoldChooses | src/adapters/providers.py:1712-1720 | per filing and field the fold keeps the earliest candidate that no other beats, and a slot exactly where some candidate matches |
| SecFacts.RankIgnoresOrder | src/adapters/providers.py:1712-1720 | reordering the facts fills the same slots with equally preferred candidates |
| SecFacts.ChoiceIgnoresOrder | src/adapters/providers.py:1712-1720 | and with the same candidates when no two have equal rank |
| SecFacts.TiesKeepTheFirst | src/adapters/providers.py:1718-1720 | of two tied candidates the first listed is kept, so there the order decides |
| SecFacts.FundamentalRecords | src/adapters/providers.py:1677-1720 | the nested loops yield the fold of every candidate in reading order, or the first error met |

## Left out

- Regex.ScannerIsFindAll: `\d` and `\w` are taken as ASCII; other Unicode digits and letters are not modelled.
- Decimals.Parse: plain numerals with optional sign, point and percent only; exponent notation, infinities and NaN cannot come out of the tokenizer.
- Grounding patterns: the regular expressions for identifiers, calendar windows and singular units are functions of their text that nothing is assumed about.
- Claim intent and prohibited wording: the recommendation and execution patterns are functions of the text.
- Claim fields that no check of the chain reads (claim type, confidence, schema version, derivation type) and the response-level citation list that an accepted Analyst output is given afterwards.
- Evidence manifest construction: the dictionary of entries and its sort are an arbitrary list of entries with their tokens; only the token rules of one entry are modelled.
- Canonical.AppendDeterministicManifestClaims: the index of a facts path is read as plain digits; signs, blanks and underscores, which the source's conversion also reads, count as unreadable here.
- Prompt loading and model calls: what the gateway delivers, first and repaired, is an arbitrary value.
- Fundamental scores: the numeric scores themselves; their provenance is kept in the metadata.
- The legacy citation path without a versioned manifest, and audit logging.
- `_copy_json`, `_set_value_at_path`: JSON is a value here, so copying is the identity and updates in place are not modelled.
- JSON scalars other than text and null (numbers and truth values) carry no Claims and are left out of the trees.
- Coordinator: wording of uncertainties, run ids and sector usage reports; outputs that fail the schema of the next request are an arbitrary set of roles.
- Projection: the table of limits per capability is a parameter; section fields other than the items.
- Attribution: reading the database and the JSON of stored outputs; only Claim ids, upstream ids, events, usage and traces are kept.
- HttpClient: times are reals rather than floating point, the lock is not modelled (one caller at a time), headers are compared in ASCII, and decoding of a payload is an arbitrary result.
- FmpCache: mutation through the shared snapshot that `AcquisitionSnapshot` hands out, the default cutoff of the convenience wrapper, endpoint counters and snapshot hashes.
- AlpacaNews: mapping of one raw article is an arbitrary result; a page token that cannot be put into a set is a malformed token; daily-bar paging, which has the same shape.
- SecFacts: the list of concepts is a parameter, dates are day numbers, values are reals, and the records' other fields and their order are not kept.
- SectorPromotion: confidence, cycle phase, provenance of missing data, and the diagnostic payloads of errors beyond the offending path or event.
- Network, storage, indexing, web and command-line code; evaluation scores; durable jobs.
