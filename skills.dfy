/**
 * The keyword rules of `database.ts` that pick the skill category of a mission
 * (`determineSkillCategory`) and the skill a decision earns experience in
 * (`determineSkillForMission`).
 *
 * Both lower-case the space-joined mission fields and walk a fixed list of
 * keyword groups in order: the first group with a keyword occurring in the text
 * decides. The lists are kept here as tables of rules.
 */
module MissionSkills {
  import opened Wrappers
  import opened Text

  /** A group of keywords and what the first group that hits returns. */
  datatype KeywordRule<T> = KeywordRule(keywords: seq<string>, result: T)

  /** Some keyword of `rule` occurs in `text` (the `includes(...) || ...` chain). */
  predicate Hits<T>(text: string, rule: KeywordRule<T>) {
    ContainsAny(text, rule.keywords)
  }

  /** Index of the first rule that hits `text`, or `|rules|` when none does. */
  function FirstHit<T>(rules: seq<KeywordRule<T>>, text: string): (k: nat)
    ensures k <= |rules|
    ensures k < |rules| ==> Hits(text, rules[k])
    ensures forall j :: 0 <= j < k ==> !Hits(text, rules[j])
    decreases |rules|
  {
    if rules == [] then 0
    else if Hits(text, rules[0]) then 0
    else 1 + FirstHit(rules[1..], text)
  }

  /** No two rules return the same thing. */
  predicate DistinctResults<T(==)>(rules: seq<KeywordRule<T>>) {
    forall i, j :: 0 <= i < j < |rules| ==> rules[i].result != rules[j].result
  }

  /** Rule `k` is the one that decides: it hits and no earlier rule does. */
  predicate DecidesAt<T>(rules: seq<KeywordRule<T>>, text: string, k: int) {
    0 <= k < |rules| && Hits(text, rules[k]) && forall j :: 0 <= j < k ==> !Hits(text, rules[j])
  }

  /** With distinct results, the first hit returns rule `k`'s result exactly when rule `k` decides. */
  lemma FirstHitResult<T>(rules: seq<KeywordRule<T>>, text: string, k: int)
    requires DistinctResults(rules) && 0 <= k < |rules|
    ensures var f := FirstHit(rules, text);
      (f < |rules| && rules[f].result == rules[k].result) <==> DecidesAt(rules, text, k)
  {
  }

  // ---------------------------------------------------------------------------
  // determineSkillCategory

  datatype SkillCategory =
    | Technology | Military | Stealth | AssetManagement | IsraelOperations
    | Physical | Social | Financial | Intelligence | General

  /** The category name the source returns. */
  function CategoryName(c: SkillCategory): string {
    match c
    case Technology => "technology"
    case Military => "military"
    case Stealth => "stealth"
    case AssetManagement => "asset_management"
    case IsraelOperations => "israel"
    case Physical => "physical"
    case Social => "social"
    case Financial => "financial"
    case Intelligence => "intelligence"
    case General => "general"
  }

  /** The keyword groups, in the order they are tried. */
  const CategoryRules: seq<KeywordRule<SkillCategory>> := [
    KeywordRule(["cyber", "tech", "hacking", "digital", "computer", "network"], Technology),
    KeywordRule(["military", "combat", "warfare", "tactical", "weapons", "armed"], Military),
    KeywordRule(["stealth", "infiltrat", "covert", "undercover", "surveillance", "reconnaissance"], Stealth),
    KeywordRule(["asset", "recruit", "agent", "operative", "contact", "handler"], AssetManagement),
    KeywordRule(["israel", "mossad", "tel aviv", "jerusalem"], IsraelOperations),
    KeywordRule(["physical", "action", "chase", "pursuit", "escape", "fight"], Physical),
    KeywordRule(["social", "manipulation", "persuasion", "diplomat", "negotiation", "influence"], Social),
    KeywordRule(["financial", "economic", "money", "banking", "funding", "crypto"], Financial),
    KeywordRule(["intelligence", "information", "data", "intel", "source", "report"], Intelligence)
  ]

  /** The lower-cased text the category is read from. */
  function MissionText(category: string, context: string, foreignThreat: string): string {
    ToLower(category + " " + context + " " + foreignThreat)
  }

  function DetermineSkillCategory(category: string, context: string, foreignThreat: string): SkillCategory {
    var k := FirstHit(CategoryRules, MissionText(category, context, foreignThreat));
    if k < |CategoryRules| then CategoryRules[k].result else General
  }

  lemma CategoryResultsDistinct()
    ensures DistinctResults(CategoryRules)
    ensures forall k :: 0 <= k < |CategoryRules| ==> CategoryRules[k].result != General
  {
  }

  /**
   * The category is that of the first keyword group found in the text, and
   * "general" exactly when no keyword of any group occurs.
   */
  lemma SkillCategoryRule(category: string, context: string, foreignThreat: string)
    ensures var text := MissionText(category, context, foreignThreat);
      var c := DetermineSkillCategory(category, context, foreignThreat);
      (c == General <==> forall j :: 0 <= j < |CategoryRules| ==> !Hits(text, CategoryRules[j]))
      && forall k :: 0 <= k < |CategoryRules| ==>
           (c == CategoryRules[k].result <==> DecidesAt(CategoryRules, text, k))
  {
    var text := MissionText(category, context, foreignThreat);
    CategoryResultsDistinct();
    forall k | 0 <= k < |CategoryRules|
      ensures DetermineSkillCategory(category, context, foreignThreat) == CategoryRules[k].result
              <==> DecidesAt(CategoryRules, text, k)
    {
      FirstHitResult(CategoryRules, text, k);
    }
  }

  lemma {:induction false} LowerIdempotent(s: string)
    ensures ToLower(ToLower(s)) == ToLower(s)
  {
  }

  lemma LowerConcat(a: string, b: string)
    ensures ToLower(a + b) == ToLower(a) + ToLower(b)
  {
  }

  /** The category does not depend on the letter case of the mission fields. */
  lemma SkillCategoryIgnoresCase(category: string, context: string, foreignThreat: string)
    ensures DetermineSkillCategory(ToLower(category), ToLower(context), ToLower(foreignThreat))
         == DetermineSkillCategory(category, context, foreignThreat)
  {
    LowerConcat(category, " ");
    LowerConcat(category + " ", context);
    LowerConcat(category + " " + context, " ");
    LowerConcat(category + " " + context + " ", foreignThreat);
    LowerConcat(ToLower(category), " ");
    LowerConcat(ToLower(category) + " ", ToLower(context));
    LowerConcat(ToLower(category) + " " + ToLower(context), " ");
    LowerConcat(ToLower(category) + " " + ToLower(context) + " ", ToLower(foreignThreat));
    LowerIdempotent(category);
    LowerIdempotent(context);
    LowerIdempotent(foreignThreat);
    assert ToLower(" ") == " ";
  }

  // ---------------------------------------------------------------------------
  // determineSkillForMission

  datatype Skill =
    | QTech | Bourne | Brody | Carrie | GreatestAlley
    | HoneyTrap | CryptoKing | DeepThroat | GhostProtocol | RiskTaker

  /** The skill id the source returns. */
  function SkillId(s: Skill): string {
    match s
    case QTech => "q_tech"
    case Bourne => "bourne"
    case Brody => "brody"
    case Carrie => "carrie"
    case GreatestAlley => "greatest_alley"
    case HoneyTrap => "honey_trap"
    case CryptoKing => "crypto_king"
    case DeepThroat => "deep_throat"
    case GhostProtocol => "ghost_protocol"
    case RiskTaker => "risk_taker"
  }

  /** The keyword groups, in the order they are tried; the risk level comes after all of them. */
  const SkillRules: seq<KeywordRule<Skill>> := [
    KeywordRule(["cyber", "tech", "hacking"], QTech),
    KeywordRule(["stealth", "infiltrat", "covert"], Bourne),
    KeywordRule(["military", "combat", "tactical"], Brody),
    KeywordRule(["asset", "recruit", "handler"], Carrie),
    KeywordRule(["israel", "mossad"], GreatestAlley),
    KeywordRule(["social", "manipulation", "seduc"], HoneyTrap),
    KeywordRule(["financial", "crypto", "economic"], CryptoKing),
    KeywordRule(["information", "intelligence", "source"], DeepThroat),
    KeywordRule(["extract", "escape", "disappear"], GhostProtocol)
  ]

  /** The lower-cased text the skill is read from: the mission fields and the decision context. */
  function DecisionText(category: string, context: string, foreignThreat: string, decisionContext: string): string {
    ToLower(category + " " + context + " " + foreignThreat + " " + decisionContext)
  }

  /** `None` stands for the source's `null`: no skill earns experience. */
  function DetermineSkillForMission(
    category: string, context: string, foreignThreat: string, riskLevel: string, decisionContext: string
  ): Option<Skill> {
    var k := FirstHit(SkillRules, DecisionText(category, context, foreignThreat, decisionContext));
    if k < |SkillRules| then Some(SkillRules[k].result)
    else if riskLevel == "HIGH" then Some(RiskTaker)
    else None
  }

  lemma SkillResultsDistinct()
    ensures DistinctResults(SkillRules)
    ensures forall k :: 0 <= k < |SkillRules| ==> SkillRules[k].result != RiskTaker
  {
  }

  /**
   * The skill is that of the first keyword group found in the text; only when
   * no keyword occurs does the risk level count: exactly "HIGH" earns Risk
   * Taker, anything else earns nothing.
   */
  lemma SkillForMissionRule(
    category: string, context: string, foreignThreat: string, riskLevel: string, decisionContext: string)
    ensures var text := DecisionText(category, context, foreignThreat, decisionContext);
      var s := DetermineSkillForMission(category, context, foreignThreat, riskLevel, decisionContext);
      var noKeyword := forall j :: 0 <= j < |SkillRules| ==> !Hits(text, SkillRules[j]);
      (s == Some(RiskTaker) <==> noKeyword && riskLevel == "HIGH")
      && (s == None <==> noKeyword && riskLevel != "HIGH")
      && forall k :: 0 <= k < |SkillRules| ==>
           (s == Some(SkillRules[k].result) <==> DecidesAt(SkillRules, text, k))
  {
    var text := DecisionText(category, context, foreignThreat, decisionContext);
    SkillResultsDistinct();
    forall k | 0 <= k < |SkillRules|
      ensures DetermineSkillForMission(category, context, foreignThreat, riskLevel, decisionContext)
                == Some(SkillRules[k].result)
              <==> DecidesAt(SkillRules, text, k)
    {
      FirstHitResult(SkillRules, text, k);
    }
  }

  /** A keyword in the decision context alone is enough for a keyword skill, whatever the risk level. */
  lemma DecisionKeywordBeatsRisk(
    category: string, context: string, foreignThreat: string, riskLevel: string, decisionContext: string,
    k: nat, keyword: nat)
    requires k < |SkillRules| && keyword < |SkillRules[k].keywords|
    requires Contains(ToLower(decisionContext), SkillRules[k].keywords[keyword])
    ensures var s := DetermineSkillForMission(category, context, foreignThreat, riskLevel, decisionContext);
      s.Some? && s.value != RiskTaker
  {
    var head := category + " " + context + " " + foreignThreat + " ";
    LowerConcat(head, decisionContext);
    ContainsPrepend(ToLower(head), ToLower(decisionContext), SkillRules[k].keywords[keyword]);
    var text := DecisionText(category, context, foreignThreat, decisionContext);
    assert Hits(text, SkillRules[k]);
    SkillResultsDistinct();
  }
}
