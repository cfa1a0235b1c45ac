/** The eight roles: names, response shapes, minimums and the schema of their Claims. */
module Roles {
  import opened Sequences
  import opened Json
  import opened Sections
  import opened Validation

  datatype Role =
    | FundamentalAnalyst | TechnicalTextAnalyst | SentimentAnalyst | NewsEventAnalyst
    | ResearchManager | BullManager | BearManager | RiskManager

  const ANALYST_ORDER: seq<Role> := [FundamentalAnalyst, TechnicalTextAnalyst, SentimentAnalyst, NewsEventAnalyst]

  predicate IsAnalyst(role: Role) { role in ANALYST_ORDER }

  function AgentName(role: Role): string {
    match role
    case FundamentalAnalyst => "fundamental_analyst"
    case TechnicalTextAnalyst => "technical_text_analyst"
    case SentimentAnalyst => "sentiment_analyst"
    case NewsEventAnalyst => "news_event_analyst"
    case ResearchManager => "research_manager"
    case BullManager => "bull_manager"
    case BearManager => "bear_manager"
    case RiskManager => "risk_manager"
  }

  function ShapeOf(role: Role): Shape {
    match role
    case ResearchManager => Shape(true, ["summary_points", "conflicts"])
    case BullManager => Shape(false, ["bull_thesis", "conditions_required", "invalidators"])
    case BearManager => Shape(false, ["bear_thesis", "conditions_required", "invalidators"])
    case RiskManager => Shape(false, ["confirmed_risks", "scenario_risks", "watch_items"])
    case _ => Shape(true, ["facts", "key_points", "risk_points"])
  }

  lemma ShapesAreValid(role: Role)
    ensures ShapeOf(role).Valid()
  {
    match role {
      case ResearchManager => ResearchShape();
      case BullManager => BullShape();
      case BearManager => BearShape();
      case RiskManager => RiskShape();
      case _ => AnalystShape();
    }
  }

  predicate Plain(name: string) { name != "" && forall i :: 0 <= i < |name| ==> name[i] != '.' && name[i] != '[' }

  lemma ShapeOfTwo(nested: bool, a: string, b: string)
    requires Plain(a) && Plain(b) && a != b
    ensures Shape(nested, [a, b]).Valid()
  {}

  lemma ShapeOfThree(nested: bool, a: string, b: string, c: string)
    requires Plain(a) && Plain(b) && Plain(c) && a != b && b != c && a != c
    ensures Shape(nested, [a, b, c]).Valid()
  {}

  lemma AnalystShape()
    ensures ShapeOf(FundamentalAnalyst).Valid()
  {
    ShapeOfThree(true, "facts", "key_points", "risk_points");
  }

  lemma ResearchShape()
    ensures ShapeOf(ResearchManager).Valid()
  {
    ShapeOfTwo(true, "summary_points", "conflicts");
  }

  lemma BullShape()
    ensures ShapeOf(BullManager).Valid()
  {
    ShapeOfThree(false, "bull_thesis", "conditions_required", "invalidators");
  }

  lemma BearShape()
    ensures ShapeOf(BearManager).Valid()
  {
    ShapeOfThree(false, "bear_thesis", "conditions_required", "invalidators");
  }

  lemma RiskShape()
    ensures ShapeOf(RiskManager).Valid()
  {
    ShapeOfThree(false, "confirmed_risks", "scenario_risks", "watch_items");
  }

  function IdPrefix(role: Role): string {
    match role
    case FundamentalAnalyst => "fundamental"
    case ResearchManager => "research"
    case BullManager => "bull"
    case BearManager => "bear"
    case RiskManager => "risk"
    case _ => AgentName(role)
  }

  /** The least number of Claims that must survive quarantine. */
  function MinimumValidClaims(role: Role): nat {
    match role
    case FundamentalAnalyst | BearManager => 2
    case ResearchManager | BullManager | RiskManager => 1
    case _ => 0
  }

  function Complete(role: Role): Completion {
    (c: Binding, section: string, index: nat) =>
      c.(path := ShapeOf(role).Path(section, index),
         claimId := if c.claimId.Some? then c.claimId
                    else Some(IdPrefix(role) + ":" + section + ":" + Numeral(index)),
         intent := if role in {ResearchManager, BullManager, RiskManager} then AnalyticalInference else c.intent)
  }

  function Names(role: Role): Naming { NamingOf(ShapeOf(role)) }

  /** What the role's generation schema demands of the retained Claims. */
  predicate DraftValid(role: Role, claims: seq<Binding>, uncertainties: seq<string>) {
    && AllLegal(ShapeOf(role), claims)
    && (role !in {ResearchManager, RiskManager} ==> Distinct(BindingPaths(claims)))
    && (role in {TechnicalTextAnalyst, SentimentAnalyst, NewsEventAnalyst} ==> claims != [] || uncertainties != [])
    && (role == BullManager ==> forall i :: 0 <= i < |claims| ==>
          claims[i].path == ShapeOf(role).Path(Names(role)(claims[i]), Position(Names(role), claims, i)))
    && (role in {BullManager, BearManager} ==> exists c :: c in claims && Names(role)(c) == ShapeOf(role).sections[0])
  }

  lemma CompleteCompletes(role: Role)
    ensures Completes(ShapeOf(role), Complete(role))
  {}
}
