/**
 * The plan registry: a constant table of four subscription plans with their
 * prices and limit records, and the pure lookups built on it.
 */
module Plans {
  import opened Wrappers

  datatype PlanId = Free | Agente | Profesional | Unidad

  /** One entry of a plan's limits record. */
  datatype LimitValue =
    | Bool(flag: bool)
    | Int(quota: int)
    | Str(scope: string)
    | List(items: seq<string>)

  /** A daily quota once the -1 sentinel has been turned into a tag. */
  datatype Limit = Finite(n: nat) | Unlimited

  /**
   * A plan as the registry holds it. Prices are in euro cents. The marketing
   * copy (description, feature bullet texts) is not modelled.
   */
  datatype Plan = Plan(id: PlanId, name: string, priceCents: nat, popular: bool, limits: map<string, LimitValue>)

  /** The payment provider's price ids of the three paid plans (deployment configuration). */
  datatype PriceIds = PriceIds(agente: string, profesional: string, unidad: string)

  /** The fallback price ids used when the environment sets none. */
  const DefaultPriceIds := PriceIds("price_AGENTE_MONTHLY", "price_PROFESIONAL_MONTHLY", "price_UNIDAD_MONTHLY")

  predicate DistinctPriceIds(prices: PriceIds) {
    prices.agente != prices.profesional && prices.agente != prices.unidad && prices.profesional != prices.unidad
  }

  // Limit keys.
  const ChatbotDaily := "chatbot_daily"
  const Normativa := "normativa"
  const Jurisprudencia := "jurisprudencia"
  const CasosPracticos := "casos_practicos"
  const Cuestionarios := "cuestionarios"
  const GeneradorAtestados := "generador_atestados"
  const AlertasNormativas := "alertas_normativas"
  const Offline := "offline"
  const TeamFeatures := "team_features"
  const MaxTeamMembers := "max_team_members"
  const SharedAtestados := "shared_atestados"
  const TeamStats := "team_stats"
  const ExportReports := "export_reports"

  /** The keys every plan defines. */
  const CommonKeys: set<string> := {ChatbotDaily, Normativa, Jurisprudencia, CasosPracticos, Cuestionarios,
                                    GeneradorAtestados, AlertasNormativas, Offline, TeamFeatures}

  /** The keys only the team plan defines. */
  const TeamOnlyKeys: set<string> := {MaxTeamMembers, SharedAtestados, TeamStats, ExportReports}

  /** The limits record of each plan. */
  function PlanLimits(id: PlanId): (r: map<string, LimitValue>)
    ensures r.Keys == if id == Unidad then CommonKeys + TeamOnlyKeys else CommonKeys
    ensures r[ChatbotDaily].Int? && r[ChatbotDaily].quota >= -1
  {
    match id
    case Free =>
      map[ChatbotDaily := Int(0), Normativa := List([]), Jurisprudencia := Bool(false),
          CasosPracticos := Bool(false), Cuestionarios := Bool(false), GeneradorAtestados := Bool(false),
          AlertasNormativas := Bool(false), Offline := Bool(false), TeamFeatures := Bool(false)]
    case Agente =>
      map[ChatbotDaily := Int(5), Normativa := List(["cpdcsv", "lsv_basico", "rgc_basico"]),
          Jurisprudencia := Bool(false), CasosPracticos := Bool(false), Cuestionarios := Bool(false),
          GeneradorAtestados := Bool(false), AlertasNormativas := Bool(false), Offline := Str("cp_only"),
          TeamFeatures := Bool(false)]
    case Profesional =>
      map[ChatbotDaily := Int(-1), Normativa := Str("all"), Jurisprudencia := Bool(true),
          CasosPracticos := Bool(true), Cuestionarios := Bool(true), GeneradorAtestados := Bool(true),
          AlertasNormativas := Bool(true), Offline := Str("full"), TeamFeatures := Bool(false)]
    case Unidad =>
      map[ChatbotDaily := Int(-1), Normativa := Str("all"), Jurisprudencia := Bool(true),
          CasosPracticos := Bool(true), Cuestionarios := Bool(true), GeneradorAtestados := Bool(true),
          AlertasNormativas := Bool(true), Offline := Str("full"), TeamFeatures := Bool(true),
          MaxTeamMembers := Int(20), SharedAtestados := Bool(true), TeamStats := Bool(true),
          ExportReports := Bool(true)]
  }

  /** Looks a plan up in the table; every id has an entry whose own id is that id. */
  function GetPlan(id: PlanId): (p: Plan)
    ensures p.id == id
    ensures p.limits == PlanLimits(id)
    ensures p.popular <==> id == Profesional
  {
    match id
    case Free => Plan(Free, "Gratuito", 0, false, PlanLimits(Free))
    case Agente => Plan(Agente, "Agente", 499, false, PlanLimits(Agente))
    case Profesional => Plan(Profesional, "Profesional", 999, true, PlanLimits(Profesional))
    case Unidad => Plan(Unidad, "Unidad", 9999, false, PlanLimits(Unidad))
  }

  /** The provider price id of a plan; the free plan has none. */
  function StripePriceId(prices: PriceIds, id: PlanId): (r: Option<string>)
    ensures r.None? <==> id == Free
  {
    match id
    case Free => None
    case Agente => Some(prices.agente)
    case Profesional => Some(prices.profesional)
    case Unidad => Some(prices.unidad)
  }

  /** The truthiness rule: `true`, the scopes "all" and "full", and positive quotas grant a feature. */
  predicate GrantsFeature(v: LimitValue)
    ensures GrantsFeature(v) ==> !v.List? && v != Str("cp_only") && v != Int(-1) && v != Int(0) && v != Bool(false)
    ensures v.Int? && v.quota > 0 ==> GrantsFeature(v)
  {
    v == Bool(true) || v == Str("all") || v == Str("full") || (v.Int? && v.quota > 0)
  }

  /**
   * Whether a plan includes a feature. A key the plan's record does not
   * define reads as undefined, which grants nothing.
   */
  function PlanHasFeature(id: PlanId, feature: string): (b: bool)
    ensures b ==> feature in GetPlan(id).limits
    ensures feature in PlanLimits(id) && PlanLimits(id)[feature].List? ==> !b
    ensures feature in PlanLimits(id) && PlanLimits(id)[feature] == Str("cp_only") ==> !b
    ensures feature in PlanLimits(id) && PlanLimits(id)[feature] == Int(-1) ==> !b
    ensures (feature in PlanLimits(id) &&
             (PlanLimits(id)[feature] in {Bool(true), Str("all"), Str("full")} ||
              (PlanLimits(id)[feature].Int? && PlanLimits(id)[feature].quota > 0))) ==> b
  {
    var limits := GetPlan(id).limits;
    feature in limits && GrantsFeature(limits[feature])
  }

  /** The daily chatbot quota of a plan, with the -1 sentinel read as Unlimited. */
  function GetChatbotLimit(id: PlanId): (r: Limit)
    ensures r == Unlimited <==> PlanLimits(id)[ChatbotDaily] == Int(-1)
    ensures r.Finite? ==> PlanLimits(id)[ChatbotDaily] == Int(r.n)
  {
    var limit := GetPlan(id).limits[ChatbotDaily].quota;
    if limit == -1 then Unlimited else Finite(limit)
  }

  /** All plans, cheapest first. */
  const PlansOrder: seq<PlanId> := [Free, Agente, Profesional, Unidad]

  /** The position of a plan in PlansOrder. */
  function Rank(id: PlanId): (r: nat)
    ensures r < |PlansOrder| && PlansOrder[r] == id
  {
    match id
    case Free => 0
    case Agente => 1
    case Profesional => 2
    case Unidad => 3
  }

  /** The reverse map from a paid plan's price id to the plan; a later entry wins over an equal earlier key. */
  function StripePriceToPlan(prices: PriceIds): (m: map<string, PlanId>)
    ensures m.Keys == {prices.agente, prices.profesional, prices.unidad}
  {
    map[prices.agente := Agente][prices.profesional := Profesional][prices.unidad := Unidad]
  }

  // ---------------------------------------------------------------------
  // Properties of the table
  // ---------------------------------------------------------------------

  /** The chatbot quota of each plan. */
  lemma ChatbotLimits()
    ensures GetChatbotLimit(Free) == Finite(0)
    ensures GetChatbotLimit(Agente) == Finite(5)
    ensures GetChatbotLimit(Profesional) == Unlimited && GetChatbotLimit(Unidad) == Unlimited
  {
  }

  /** The free plan grants no feature, whatever key is asked about. */
  lemma FreeHasNoFeature(feature: string)
    ensures !PlanHasFeature(Free, feature)
  {
  }

  /** The only feature the agent plan grants is its finite chatbot quota. */
  lemma AgenteFeatures(feature: string)
    ensures PlanHasFeature(Agente, feature) <==> feature == ChatbotDaily
  {
  }

  /** The professional plan grants every common feature except the chatbot quota (stored as -1) and team features. */
  lemma ProfesionalFeatures(feature: string)
    ensures PlanHasFeature(Profesional, feature) <==> feature in CommonKeys - {ChatbotDaily, TeamFeatures}
  {
  }

  /** The team plan grants every key it defines except the chatbot quota (stored as -1). */
  lemma UnidadFeatures(feature: string)
    ensures PlanHasFeature(Unidad, feature) <==> feature in (CommonKeys + TeamOnlyKeys) - {ChatbotDaily}
  {
  }

  /** Team features belong to the team plan only. */
  lemma TeamFeaturesOnlyUnidad(id: PlanId)
    ensures PlanHasFeature(id, TeamFeatures) <==> id == Unidad
  {
  }

  /**
   * Moving up PlansOrder never loses a feature, for every key except the
   * chatbot quota (see UnlimitedChatbotIsNoFeature).
   */
  lemma FeaturesGrowAlongOrder(a: PlanId, b: PlanId, feature: string)
    requires Rank(a) <= Rank(b)
    requires feature != ChatbotDaily
    ensures PlanHasFeature(a, feature) ==> PlanHasFeature(b, feature)
  {
  }

  /**
   * The unlimited quota is stored as -1, which the truthiness rule reads as
   * "no feature": the agent plan has the chatbot feature and the
   * professional plan does not.
   */
  lemma UnlimitedChatbotIsNoFeature()
    ensures PlanHasFeature(Agente, ChatbotDaily)
    ensures !PlanHasFeature(Profesional, ChatbotDaily) && !PlanHasFeature(Unidad, ChatbotDaily)
  {
  }

  /** Prices strictly increase along PlansOrder. */
  lemma PricesIncreaseAlongOrder(i: nat, j: nat)
    requires i < j < |PlansOrder|
    ensures GetPlan(PlansOrder[i]).priceCents < GetPlan(PlansOrder[j]).priceCents
  {
  }

  /** PlansOrder lists every plan exactly once. */
  lemma PlansOrderIsAPermutation(i: nat, j: nat)
    requires i < j < |PlansOrder|
    ensures PlansOrder[i] != PlansOrder[j]
  {
  }

  /** Every entry of PlansOrder sits at its own rank. */
  lemma RankOfOrderEntry(i: nat)
    requires i < |PlansOrder|
    ensures Rank(PlansOrder[i]) == i
  {
  }

  /** The monthly price of each plan, in euro cents. */
  lemma PlanPrices()
    ensures GetPlan(Free).priceCents == 0 && GetPlan(Agente).priceCents == 499
    ensures GetPlan(Profesional).priceCents == 999 && GetPlan(Unidad).priceCents == 9999
  {
  }

  /** With distinct price ids, the reverse map sends each paid plan's price id back to that plan. */
  lemma PriceToPlanInverts(prices: PriceIds, id: PlanId)
    requires DistinctPriceIds(prices)
    requires id != Free
    ensures StripePriceId(prices, id).value in StripePriceToPlan(prices)
    ensures StripePriceToPlan(prices)[StripePriceId(prices, id).value] == id
  {
  }

  /** The reverse map never yields the free plan, whether or not the price ids are distinct. */
  lemma PriceToPlanNeverFree(prices: PriceIds, priceId: string)
    requires priceId in StripePriceToPlan(prices)
    ensures StripePriceToPlan(prices)[priceId] != Free
    ensures StripePriceId(prices, StripePriceToPlan(prices)[priceId]) == Some(priceId) || !DistinctPriceIds(prices)
  {
  }

  /** The fallback price ids are distinct, so the reverse map inverts them. */
  lemma DefaultPriceIdsDistinct()
    ensures DistinctPriceIds(DefaultPriceIds)
  {
  }
}
