/**
 * The client-side subscription view-model: entitlement decisions derived
 * from (plan, usage), and the state the hook keeps and updates from the
 * results of its remote procedure calls.
 */
module SubscriptionView {
  import opened Wrappers
  import opened Plans

  /** Today's usage counters. */
  datatype Usage = Usage(chatbotQueries: int, atestadosCreated: int)

  const NoUsage := Usage(0, 0)

  // ---------------------------------------------------------------------
  // Entitlement decisions
  // ---------------------------------------------------------------------

  /** Whether the plan's feature check passes for the key. */
  function CanUseFeature(plan: PlanId, feature: string): (b: bool)
    ensures b ==> plan != Free
    ensures b && feature != ChatbotDaily ==> plan != Agente
  {
    PlanHasFeature(plan, feature)
  }

  /** Whether one more chatbot query is allowed today. */
  function CanQueryChatbot(plan: PlanId, usage: Usage): (b: bool)
    ensures GetChatbotLimit(plan) == Unlimited ==> b
    ensures GetChatbotLimit(plan) == Finite(0) ==> !b
    ensures GetChatbotLimit(plan).Finite? && GetChatbotLimit(plan).n > 0 ==>
              (b <==> usage.chatbotQueries < GetChatbotLimit(plan).n)
  {
    var limit := GetChatbotLimit(plan);
    if limit == Unlimited then true
    else if limit.n == 0 then false
    else usage.chatbotQueries < limit.n
  }

  /** How many chatbot queries are left today; never negative for a finite quota. */
  function RemainingChatbotQueries(plan: PlanId, usage: Usage): (r: Limit)
    ensures r == Unlimited <==> GetChatbotLimit(plan) == Unlimited
    ensures r.Finite? && usage.chatbotQueries >= 0 ==> r.n <= GetChatbotLimit(plan).n
    ensures r.Finite? && usage.chatbotQueries >= GetChatbotLimit(plan).n ==> r.n == 0
    ensures r.Finite? && 0 <= usage.chatbotQueries <= GetChatbotLimit(plan).n ==>
              r.n + usage.chatbotQueries == GetChatbotLimit(plan).n
  {
    var limit := GetChatbotLimit(plan);
    if limit == Unlimited then Unlimited
    else Finite(Max(0, limit.n - usage.chatbotQueries))
  }

  function Max(a: int, b: int): int {
    if a < b then b else a
  }

  /** For non-negative usage, a query is allowed exactly when some remain. */
  lemma QueryConsistency(plan: PlanId, usage: Usage)
    requires usage.chatbotQueries >= 0
    ensures CanQueryChatbot(plan, usage) <==>
              (RemainingChatbotQueries(plan, usage) == Unlimited || RemainingChatbotQueries(plan, usage).n > 0)
  {
  }

  /**
   * The consistency law needs non-negative usage: on the free plan a
   * negative count leaves queries "remaining" although none is allowed.
   */
  lemma NegativeUsageBreaksConsistency()
    ensures !CanQueryChatbot(Free, Usage(-1, 0))
    ensures RemainingChatbotQueries(Free, Usage(-1, 0)) == Finite(1)
  {
  }

  /** A plan whose quota is zero can never query, whatever the usage. */
  lemma ZeroQuotaNeverQueries(plan: PlanId, usage: Usage)
    requires GetChatbotLimit(plan) == Finite(0)
    ensures !CanQueryChatbot(plan, usage)
    ensures plan == Free
  {
  }

  /** Having used exactly the quota leaves nothing. */
  lemma QuotaExhausted(plan: PlanId, usage: Usage)
    requires GetChatbotLimit(plan).Finite?
    requires usage.chatbotQueries == GetChatbotLimit(plan).n
    ensures !CanQueryChatbot(plan, usage)
    ensures RemainingChatbotQueries(plan, usage) == Finite(0)
  {
  }

  /** The agent plan after five queries. */
  lemma AgenteAfterFiveQueries(atestados: int)
    ensures !CanQueryChatbot(Agente, Usage(5, atestados))
    ensures RemainingChatbotQueries(Agente, Usage(5, atestados)) == Finite(0)
    ensures CanQueryChatbot(Agente, Usage(4, atestados))
    ensures RemainingChatbotQueries(Agente, Usage(4, atestados)) == Finite(1)
  {
  }

  // ---------------------------------------------------------------------
  // Results of the remote procedure calls
  // ---------------------------------------------------------------------

  /** How a remote procedure call ended: with data, with an error value, or by throwing. */
  datatype Rpc<+T> = Returned(data: T) | Errored | Threw

  /** The subscription row the subscription query returns. */
  datatype SubscriptionRecord = SubscriptionRecord(
    plan: PlanId,
    status: string,
    currentPeriodEnd: Option<int>,
    cancelAtPeriodEnd: Option<bool>)

  /** One row of the daily-usage query; a missing counter reads as absent. */
  datatype UsageRecord = UsageRecord(chatbotQueries: Option<int>, atestadosCreated: Option<int>)

  /** Why an increment wrapper failed. */
  datatype IncrementError = NoUserLoggedIn | IncrementRpcFailed

  const SubscriptionLoadError := "Error al cargar suscripción"
  const UnexpectedLoadError := "Error inesperado al cargar datos"

  /** The hook's local state as a value. */
  datatype HookState = HookState(
    plan: PlanId,
    status: string,
    usage: Usage,
    loading: bool,
    error: Option<string>,
    currentPeriodEnd: Option<int>,
    cancelAtPeriodEnd: bool)

  const InitialState := HookState(Free, "active", NoUsage, true, None, None, false)

  /** A missing counter counts as zero. */
  function CounterOrZero(c: Option<int>): (n: int)
    ensures c.Some? ==> n == c.value
    ensures n == 0 <==> c.None? || c == Some(0)
  {
    match c
    case Some(n) => n
    case None => 0
  }

  /** The usage a successful daily-usage query yields: the first row, or zeros when there is none. */
  function UsageFromRows(rows: Option<seq<UsageRecord>>): (u: Usage)
    ensures rows.None? || rows.value == [] ==> u == NoUsage
    ensures rows.Some? && rows.value != [] && rows.value[0].chatbotQueries.Some? ==>
              u.chatbotQueries == rows.value[0].chatbotQueries.value
    ensures rows.Some? && rows.value != [] && rows.value[0].atestadosCreated.Some? ==>
              u.atestadosCreated == rows.value[0].atestadosCreated.value
    ensures rows.Some? && rows.value != [] && rows.value[0].chatbotQueries.None? ==> u.chatbotQueries == 0
    ensures rows.Some? && rows.value != [] && rows.value[0].atestadosCreated.None? ==> u.atestadosCreated == 0
  {
    match rows
    case Some(rs) =>
      if |rs| > 0 then Usage(CounterOrZero(rs[0].chatbotQueries), CounterOrZero(rs[0].atestadosCreated))
      else NoUsage
    case None => NoUsage
  }

  /** Takes over an active subscription row. */
  function AdoptSubscription(s: HookState, row: SubscriptionRecord): (t: HookState)
    ensures t.plan == row.plan && t.status == row.status && t.currentPeriodEnd == row.currentPeriodEnd
    ensures t.cancelAtPeriodEnd <==> row.cancelAtPeriodEnd == Some(true)
    ensures t.usage == s.usage && t.loading == s.loading && t.error == s.error
  {
    s.(plan := row.plan, status := row.status, currentPeriodEnd := row.currentPeriodEnd,
       cancelAtPeriodEnd := match row.cancelAtPeriodEnd case Some(b) => b case None => false)
  }

  /** The effect of the daily-usage query, the last step of a fetch. */
  function AfterUsage(s: HookState, daily: Rpc<Option<seq<UsageRecord>>>): (t: HookState)
    ensures !t.loading
    ensures t.plan == s.plan && t.status == s.status
    ensures t.currentPeriodEnd == s.currentPeriodEnd && t.cancelAtPeriodEnd == s.cancelAtPeriodEnd
    ensures t.usage == if daily.Returned? then UsageFromRows(daily.data) else s.usage
    ensures t.error == if daily.Threw? then Some(UnexpectedLoadError) else s.error
  {
    match daily
    case Threw => s.(error := Some(UnexpectedLoadError), loading := false)
    case Errored => s.(loading := false)
    case Returned(rows) => s.(usage := UsageFromRows(rows), loading := false)
  }

  /**
   * The state after one fetch, given whether a user is signed in and what
   * the two queries returned. The subscription query runs first; when it
   * throws, the usage query never runs.
   */
  function Fetched(s: HookState, signedIn: bool, sub: Rpc<Option<SubscriptionRecord>>,
                   daily: Rpc<Option<seq<UsageRecord>>>): (t: HookState)
    ensures !t.loading
    ensures t.plan != s.plan ==> signedIn && FetchedActiveRow(sub) && t.plan == sub.data.value.plan
    ensures !signedIn ==> t == s.(loading := false)
    ensures signedIn && sub.Errored? && !daily.Threw? ==> t.error == Some(SubscriptionLoadError)
  {
    if !signedIn then s.(loading := false)
    else
      var cleared := s.(error := None);
      match sub
      case Threw => cleared.(error := Some(UnexpectedLoadError), loading := false)
      case Errored => AfterUsage(cleared.(error := Some(SubscriptionLoadError)), daily)
      case Returned(row) =>
        var adopted := if row.Some? && row.value.status == "active" then AdoptSubscription(cleared, row.value) else cleared;
        AfterUsage(adopted, daily)
  }

  /** Whether the fetch returned an active subscription row. */
  predicate FetchedActiveRow(sub: Rpc<Option<SubscriptionRecord>>) {
    sub.Returned? && sub.data.Some? && sub.data.value.status == "active"
  }

  // ---------------------------------------------------------------------
  // Properties of a fetch
  // ---------------------------------------------------------------------

  /**
   * Plan, status, period end and cancellation flag change only when the
   * fetch returned an active row, and then they are that row's values.
   */
  lemma FetchAdoptsOnlyActiveRows(s: HookState, signedIn: bool, sub: Rpc<Option<SubscriptionRecord>>,
                                  daily: Rpc<Option<seq<UsageRecord>>>)
    ensures var t := Fetched(s, signedIn, sub, daily);
      if signedIn && FetchedActiveRow(sub) then
        t.plan == sub.data.value.plan && t.status == "active" &&
        t.currentPeriodEnd == sub.data.value.currentPeriodEnd &&
        t.cancelAtPeriodEnd == (sub.data.value.cancelAtPeriodEnd == Some(true))
      else
        t.plan == s.plan && t.status == s.status &&
        t.currentPeriodEnd == s.currentPeriodEnd && t.cancelAtPeriodEnd == s.cancelAtPeriodEnd
  {
  }

  /**
   * The usage counters after a fetch: replaced by the first usage row (or
   * zeros) when the usage query returned, kept when it failed or never ran.
   */
  lemma FetchUsage(s: HookState, signedIn: bool, sub: Rpc<Option<SubscriptionRecord>>,
                   daily: Rpc<Option<seq<UsageRecord>>>)
    ensures var t := Fetched(s, signedIn, sub, daily);
      if signedIn && !sub.Threw? && daily.Returned? then t.usage == UsageFromRows(daily.data)
      else t.usage == s.usage
  {
  }

  /** Without a user, a fetch only clears the loading flag. */
  lemma FetchWithoutUser(s: HookState, sub: Rpc<Option<SubscriptionRecord>>, daily: Rpc<Option<seq<UsageRecord>>>)
    ensures Fetched(s, false, sub, daily) == s.(loading := false)
  {
  }

  /** Every fetch ends with loading cleared, and the error says which step failed. */
  lemma FetchSettles(s: HookState, signedIn: bool, sub: Rpc<Option<SubscriptionRecord>>,
                     daily: Rpc<Option<seq<UsageRecord>>>)
    ensures !Fetched(s, signedIn, sub, daily).loading
    ensures signedIn ==>
      Fetched(s, signedIn, sub, daily).error ==
        if sub.Threw? || daily.Threw? then Some(UnexpectedLoadError)
        else if sub.Errored? then Some(SubscriptionLoadError)
        else None
  {
  }

  /** Fetching twice from unchanged server data gives the state of fetching once. */
  lemma FetchIdempotent(s: HookState, signedIn: bool, sub: Rpc<Option<SubscriptionRecord>>,
                        daily: Rpc<Option<seq<UsageRecord>>>)
    ensures var once := Fetched(s, signedIn, sub, daily);
      Fetched(once, signedIn, sub, daily) == once
  {
  }

  // ---------------------------------------------------------------------
  // The hook's state
  // ---------------------------------------------------------------------

  /** The state the hook holds for one signed-in user (or none). */
  class SubscriptionHook {
    const user: Option<string>
    var plan: PlanId
    var status: string
    var usage: Usage
    var loading: bool
    var error: Option<string>
    var currentPeriodEnd: Option<int>
    var cancelAtPeriodEnd: bool

    function State(): HookState
      reads this
    {
      HookState(plan, status, usage, loading, error, currentPeriodEnd, cancelAtPeriodEnd)
    }

    constructor (user: Option<string>)
      ensures this.user == user
      ensures State() == InitialState
    {
      this.user := user;
      plan := Free;
      status := "active";
      usage := NoUsage;
      loading := true;
      error := None;
      currentPeriodEnd := None;
      cancelAtPeriodEnd := false;
    }

    /** The limits record of the current plan. */
    function Limits(): (r: map<string, LimitValue>)
      reads this
      ensures CommonKeys <= r.Keys
    {
      GetPlan(plan).limits
    }

    /** Loads the subscription and today's usage, given what the two queries return. */
    method FetchSubscription(sub: Rpc<Option<SubscriptionRecord>>, daily: Rpc<Option<seq<UsageRecord>>>)
      modifies this
      ensures State() == Fetched(old(State()), user.Some?, sub, daily)
      ensures !loading
      ensures plan != old(plan) ==> FetchedActiveRow(sub) && plan == sub.data.value.plan
    {
      if user.None? {
        loading := false;
        return;
      }
      error := None;
      match sub {
        case Threw =>
          error := Some(UnexpectedLoadError);
          loading := false;
          return;
        case Errored =>
          error := Some(SubscriptionLoadError);
        case Returned(row) =>
          if row.Some? && row.value.status == "active" {
            plan := row.value.plan;
            status := row.value.status;
            currentPeriodEnd := row.value.currentPeriodEnd;
            cancelAtPeriodEnd := match row.value.cancelAtPeriodEnd case Some(b) => b case None => false;
          }
      }
      match daily {
        case Threw =>
          error := Some(UnexpectedLoadError);
          loading := false;
          return;
        case Errored =>
        case Returned(rows) =>
          if rows.Some? && |rows.value| > 0 {
            usage := Usage(CounterOrZero(rows.value[0].chatbotQueries), CounterOrZero(rows.value[0].atestadosCreated));
          } else {
            usage := NoUsage;
          }
      }
      loading := false;
    }

    /** Sets the loading flag and fetches again. */
    method Refresh(sub: Rpc<Option<SubscriptionRecord>>, daily: Rpc<Option<seq<UsageRecord>>>)
      modifies this
      ensures State() == Fetched(old(State()).(loading := true), user.Some?, sub, daily)
    {
      loading := true;
      FetchSubscription(sub, daily);
    }

    /**
     * Records one chatbot query through the counter procedure; the local
     * count becomes the count the server returns.
     */
    method IncrementChatbotUsage(rpc: Rpc<int>) returns (r: Result<int, IncrementError>)
      modifies this
      ensures user.None? ==> r == Failure(NoUserLoggedIn)
      ensures user.Some? && rpc.Returned? ==> r == Success(rpc.data)
      ensures user.Some? && !rpc.Returned? ==> r == Failure(IncrementRpcFailed)
      ensures r.Success? ==> usage == old(usage).(chatbotQueries := r.value)
      ensures r.Failure? ==> usage == old(usage)
      ensures State() == old(State()).(usage := usage)
    {
      if user.None? {
        return Failure(NoUserLoggedIn);
      }
      match rpc {
        case Returned(newCount) =>
          usage := usage.(chatbotQueries := newCount);
          r := Success(newCount);
        case _ =>
          r := Failure(IncrementRpcFailed);
      }
    }

    /** Records one generated report; the mirror image of IncrementChatbotUsage. */
    method IncrementAtestadosUsage(rpc: Rpc<int>) returns (r: Result<int, IncrementError>)
      modifies this
      ensures user.None? ==> r == Failure(NoUserLoggedIn)
      ensures user.Some? && rpc.Returned? ==> r == Success(rpc.data)
      ensures user.Some? && !rpc.Returned? ==> r == Failure(IncrementRpcFailed)
      ensures r.Success? ==> usage == old(usage).(atestadosCreated := r.value)
      ensures r.Failure? ==> usage == old(usage)
      ensures State() == old(State()).(usage := usage)
    {
      if user.None? {
        return Failure(NoUserLoggedIn);
      }
      match rpc {
        case Returned(newCount) =>
          usage := usage.(atestadosCreated := newCount);
          r := Success(newCount);
        case _ =>
          r := Failure(IncrementRpcFailed);
      }
    }

    /** The entitlement queries the hook exposes, read against the current state. */
    function CanQuery(): (b: bool)
      reads this
      ensures usage.chatbotQueries >= 0 ==> (b <==> Remaining() == Unlimited || Remaining().n > 0)
    {
      if usage.chatbotQueries >= 0 then QueryConsistency(plan, usage); CanQueryChatbot(plan, usage)
      else CanQueryChatbot(plan, usage)
    }

    function Remaining(): (r: Limit)
      reads this
      ensures r == Unlimited <==> GetChatbotLimit(plan) == Unlimited
    {
      RemainingChatbotQueries(plan, usage)
    }
  }
}
