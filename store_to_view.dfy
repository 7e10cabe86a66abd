/**
 * How the subscription row the webhook writes could reach the client hook.
 * The stored procedure behind the hook's subscription query is not part of
 * this model; these lemmas ASSUME that it returns the caller's stored row
 * unchanged (AsRecord). Under that assumption, the hook adopts the row only
 * while its status reads "active".
 */
module StoreToView {
  import opened Wrappers
  import opened Plans
  import opened SubscriptionView
  import opened StripeWebhook

  /** The subscription query's result for a stored row, assuming the query returns that row unchanged. */
  function AsRecord(row: Row): (rec: SubscriptionRecord)
    ensures rec.plan == row.plan
    ensures rec.status == "active" <==> row.status == Active
  {
    SubscriptionRecord(row.plan, StatusText(row.status), Some(row.periodEnd), Some(row.cancelAtPeriodEnd))
  }

  /**
   * After a completed checkout is stored, a hook that fetches the buyer's
   * row takes over the plan the price maps to, so its entitlements follow
   * the payment.
   */
  lemma CheckoutReachesTheHook(rows: seq<Row>, event: StripeEvent, ctx: Context, userId: string,
                               sub: StripeSubscription, s: HookState, k: nat,
                               daily: Rpc<Option<seq<UsageRecord>>>)
    requires UniqueUsers(rows)
    requires event.kind == CheckoutSessionCompleted && event.payload.metadataUserId == Some(userId)
    requires ctx.retrieved == Some(sub) && sub.priceIds != [] && ctx.writeAccepted
    requires k < |Handle(rows, true, event, ctx).rows| && Handle(rows, true, event, ctx).rows[k].userId == userId
    ensures var t := Fetched(s, true, Returned(Some(AsRecord(Handle(rows, true, event, ctx).rows[k]))), daily);
      && t.plan == PlanForPrice(ctx.prices, sub.priceIds[0])
      && t.plan != Free
      && t.status == "active"
  {
    CheckoutWritesTheUsersRow(rows, event, ctx, userId, sub);
    var row := Handle(rows, true, event, ctx).rows[k];
    FetchAdoptsOnlyActiveRows(s, true, Returned(Some(AsRecord(row))), daily);
  }

  /**
   * A row that a failed payment or a deletion has degraded is not adopted:
   * a hook that refreshes keeps the plan it had, so a client that held a
   * paid plan keeps showing it until it is reset.
   */
  lemma DegradedRowKeepsThePreviousPlan(row: Row, s: HookState, daily: Rpc<Option<seq<UsageRecord>>>)
    requires row.status != Active
    ensures Fetched(s, true, Returned(Some(AsRecord(row))), daily).plan == s.plan
    ensures Fetched(s, true, Returned(Some(AsRecord(row))), daily).status == s.status
  {
    FetchAdoptsOnlyActiveRows(s, true, Returned(Some(AsRecord(row))), daily);
  }

  /** A freshly mounted hook that sees a cancelled row stays on the free plan and cannot query the chatbot. */
  lemma FreshHookOnCancelledRow(row: Row, daily: Rpc<Option<seq<UsageRecord>>>)
    requires row.status == Cancelled
    ensures var t := Fetched(InitialState, true, Returned(Some(AsRecord(row))), daily);
      t.plan == Free && !CanQueryChatbot(t.plan, t.usage)
  {
    DegradedRowKeepsThePreviousPlan(row, InitialState, daily);
  }
}
