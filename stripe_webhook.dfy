/**
 * The payment-provider webhook: a signature gate, then a dispatch over the
 * event kind that writes the `subscriptions` table. The provider's
 * signature check and subscription lookup, the store and the clock are
 * inputs; the table is a sequence of rows held by a class.
 */
module StripeWebhook {
  import opened Wrappers
  import opened Plans

  datatype SubStatus = Active | PastDue | Cancelled

  /** The text the store keeps in the status column. */
  function StatusText(s: SubStatus): (t: string)
    ensures t == "active" <==> s == Active
  {
    match s
    case Active => "active"
    case PastDue => "past_due"
    case Cancelled => "cancelled"
  }

  /**
   * One row of the subscriptions table. Times are seconds, as the provider
   * gives them; `updatedAt` is the handler's clock.
   */
  datatype Row = Row(
    userId: string,
    plan: PlanId,
    status: SubStatus,
    customerId: string,
    subscriptionId: string,
    periodStart: int,
    periodEnd: int,
    cancelAtPeriodEnd: bool,
    updatedAt: int)

  /** The store's uniqueness constraint: at most one row per user. */
  ghost predicate UniqueUsers(rows: seq<Row>) {
    forall i, j | 0 <= i < j < |rows| :: rows[i].userId != rows[j].userId
  }

  predicate HasUser(rows: seq<Row>, userId: string) {
    exists k | 0 <= k < |rows| :: rows[k].userId == userId
  }

  // ---------------------------------------------------------------------
  // Inputs of one delivery
  // ---------------------------------------------------------------------

  /** What the provider returns when asked for a subscription. */
  datatype StripeSubscription = StripeSubscription(priceIds: seq<string>, periodStart: int, periodEnd: int)

  /**
   * The fields of an event's object the handler reads: a checkout
   * session's metadata user id, customer and subscription; an invoice's
   * subscription; a subscription's own id.
   */
  datatype EventObject = EventObject(metadataUserId: Option<string>, customer: string, subscription: string, id: string)

  datatype StripeEvent = StripeEvent(kind: string, payload: EventObject)

  const CheckoutSessionCompleted := "checkout.session.completed"
  const InvoicePaymentSucceeded := "invoice.payment_succeeded"
  const InvoicePaymentFailed := "invoice.payment_failed"
  const CustomerSubscriptionDeleted := "customer.subscription.deleted"

  /**
   * What one delivery sees of the world: the configured price ids, what
   * the provider returned for the subscription (None when the lookup
   * threw), the clock, and whether the store accepts the write.
   */
  datatype Context = Context(prices: PriceIds, retrieved: Option<StripeSubscription>, now: int, writeAccepted: bool)

  datatype ResponseBody = ReceivedTrue | ErrorMessage(error: string)

  /** The three replies of the endpoint. */
  datatype Response = Received | InvalidSignature | HandlerFailed {
    function Status(): (code: int)
      ensures code == 200 <==> this == Received
      ensures 400 <= code < 500 <==> this == InvalidSignature
      ensures code == 500 <==> this == HandlerFailed
    {
      match this
      case Received => 200
      case InvalidSignature => 400
      case HandlerFailed => 500
    }

    function Body(): (b: ResponseBody)
      ensures b == ReceivedTrue <==> this == Received
      ensures this == InvalidSignature ==> b == ErrorMessage("Invalid signature")
      ensures this == HandlerFailed ==> b == ErrorMessage("Webhook handler failed")
    {
      match this
      case Received => ReceivedTrue
      case InvalidSignature => ErrorMessage("Invalid signature")
      case HandlerFailed => ErrorMessage("Webhook handler failed")
    }
  }

  datatype Outcome = Outcome(response: Response, rows: seq<Row>)

  // ---------------------------------------------------------------------
  // The writes
  // ---------------------------------------------------------------------

  /** The plan a paid price id stands for; an unknown price id falls back to the agent plan. */
  function PlanForPrice(prices: PriceIds, priceId: string): (p: PlanId)
    ensures p != Free
    ensures priceId !in StripePriceToPlan(prices) ==> p == Agente
    ensures DistinctPriceIds(prices) && priceId in StripePriceToPlan(prices) ==> StripePriceId(prices, p) == Some(priceId)
  {
    var m := StripePriceToPlan(prices);
    if priceId in m then PriceToPlanNeverFree(prices, priceId); m[priceId] else Agente
  }

  /** The row a completed checkout writes; cancelAtPeriodEnd is the column's default. */
  function CheckoutRow(userId: string, obj: EventObject, plan: PlanId, sub: StripeSubscription, now: int): (r: Row)
    ensures r.userId == userId && r.plan == plan && r.status == Active
    ensures r.customerId == obj.customer && r.subscriptionId == obj.subscription
    ensures r.periodStart == sub.periodStart && r.periodEnd == sub.periodEnd
    ensures !r.cancelAtPeriodEnd && r.updatedAt == now
  {
    Row(userId, plan, Active, obj.customer, obj.subscription, sub.periodStart, sub.periodEnd, false, now)
  }

  /** An insert that meets an existing user's row overwrites the columns it sets and keeps the rest. */
  function Merged(existing: Row, incoming: Row): (r: Row)
    ensures r.cancelAtPeriodEnd == existing.cancelAtPeriodEnd
    ensures r.(cancelAtPeriodEnd := incoming.cancelAtPeriodEnd) == incoming
  {
    incoming.(cancelAtPeriodEnd := existing.cancelAtPeriodEnd)
  }

  /** The table after an upsert keyed by user id. */
  function Upserted(rows: seq<Row>, r: Row): (u: seq<Row>)
    ensures |u| == if HasUser(rows, r.userId) then |rows| else |rows| + 1
    ensures forall k | 0 <= k < |rows| :: u[k].userId == rows[k].userId
    ensures !HasUser(rows, r.userId) ==> u[|rows|] == r
  {
    if HasUser(rows, r.userId) then
      seq(|rows|, k requires 0 <= k < |rows| => if rows[k].userId == r.userId then Merged(rows[k], r) else rows[k])
    else
      rows + [r]
  }

  datatype Period = Period(start: int, end: int)

  /** The columns an update sets: a status, maybe a plan, maybe new period bounds, and the time. */
  datatype Patch = Patch(status: SubStatus, plan: Option<PlanId>, period: Option<Period>, updatedAt: int)

  function Patched(r: Row, p: Patch): Row {
    r.(status := p.status,
       plan := if p.plan.Some? then p.plan.value else r.plan,
       periodStart := if p.period.Some? then p.period.value.start else r.periodStart,
       periodEnd := if p.period.Some? then p.period.value.end else r.periodEnd,
       updatedAt := p.updatedAt)
  }

  /** The table after an update of every row whose provider subscription id matches. */
  function UpdatedWhere(rows: seq<Row>, subscriptionId: string, p: Patch): (u: seq<Row>)
    ensures |u| == |rows|
    ensures forall k | 0 <= k < |rows| ::
      && u[k].userId == rows[k].userId && u[k].subscriptionId == rows[k].subscriptionId
      && u[k].customerId == rows[k].customerId && u[k].cancelAtPeriodEnd == rows[k].cancelAtPeriodEnd
      && (rows[k].subscriptionId != subscriptionId ==> u[k] == rows[k])
      && (rows[k].subscriptionId == subscriptionId ==> u[k].status == p.status && u[k].updatedAt == p.updatedAt)
  {
    seq(|rows|, k requires 0 <= k < |rows| => if rows[k].subscriptionId == subscriptionId then Patched(rows[k], p) else rows[k])
  }

  /** The store keeps a write it accepts; the handler never looks at the store's reply. */
  function Stored(ctx: Context, before: seq<Row>, after: seq<Row>): seq<Row> {
    if ctx.writeAccepted then after else before
  }

  function PaymentSucceededPatch(sub: StripeSubscription, now: int): (p: Patch)
    ensures p.status == Active && p.plan.None? && p.updatedAt == now
    ensures p.period == Some(Period(sub.periodStart, sub.periodEnd))
  {
    Patch(Active, None, Some(Period(sub.periodStart, sub.periodEnd)), now)
  }

  function PaymentFailedPatch(now: int): (p: Patch)
    ensures p.status == PastDue && p.plan.None? && p.period.None? && p.updatedAt == now
  {
    Patch(PastDue, None, None, now)
  }

  function SubscriptionDeletedPatch(now: int): (p: Patch)
    ensures p.status == Cancelled && p.plan == Some(Free) && p.period.None? && p.updatedAt == now
  {
    Patch(Cancelled, Some(Free), None, now)
  }

  // ---------------------------------------------------------------------
  // One handler per event kind, and the endpoint
  // ---------------------------------------------------------------------

  /**
   * Checkout completed: look the subscription up (a failed lookup or a
   * subscription without items throws), map its first price to a plan
   * and upsert the user's row. A session without a user id gives a row
   * the store rejects.
   */
  function CheckoutOutcome(rows: seq<Row>, obj: EventObject, ctx: Context): (o: Outcome)
    ensures o.response != InvalidSignature
    ensures o.response == HandlerFailed <==> ctx.retrieved.None? || ctx.retrieved.value.priceIds == []
    ensures o.response == HandlerFailed || obj.metadataUserId.None? || !ctx.writeAccepted ==> o.rows == rows
    ensures |o.rows| >= |rows|
    ensures obj.metadataUserId.Some? ==> forall k | 0 <= k < |rows| && rows[k].userId != obj.metadataUserId.value :: o.rows[k] == rows[k]
  {
    match ctx.retrieved
    case None => Outcome(HandlerFailed, rows)
    case Some(sub) =>
      if |sub.priceIds| == 0 then Outcome(HandlerFailed, rows)
      else
        var plan := PlanForPrice(ctx.prices, sub.priceIds[0]);
        match obj.metadataUserId
        case None => Outcome(Received, rows)
        case Some(userId) => Outcome(Received, Stored(ctx, rows, Upserted(rows, CheckoutRow(userId, obj, plan, sub, ctx.now))))
  }

  /** Payment succeeded: look the subscription up again and renew the matching rows. */
  function PaymentSucceededOutcome(rows: seq<Row>, obj: EventObject, ctx: Context): (o: Outcome)
    ensures o.response == HandlerFailed <==> ctx.retrieved.None?
    ensures o.response == Received <==> ctx.retrieved.Some?
    ensures |o.rows| == |rows|
    ensures forall k | 0 <= k < |rows| :: o.rows[k].plan == rows[k].plan
    ensures ctx.retrieved.Some? && ctx.writeAccepted ==> forall k | 0 <= k < |rows| && rows[k].subscriptionId == obj.subscription ::
      o.rows[k].status == Active && o.rows[k].periodStart == ctx.retrieved.value.periodStart && o.rows[k].periodEnd == ctx.retrieved.value.periodEnd
  {
    match ctx.retrieved
    case None => Outcome(HandlerFailed, rows)
    case Some(sub) => Outcome(Received, Stored(ctx, rows, UpdatedWhere(rows, obj.subscription, PaymentSucceededPatch(sub, ctx.now))))
  }

  /** Payment failed: the matching rows become past due. */
  function PaymentFailedOutcome(rows: seq<Row>, obj: EventObject, ctx: Context): (o: Outcome)
    ensures o.response == Received
    ensures |o.rows| == |rows|
    ensures forall k | 0 <= k < |rows| ::
      o.rows[k].plan == rows[k].plan && o.rows[k].periodStart == rows[k].periodStart && o.rows[k].periodEnd == rows[k].periodEnd
    ensures ctx.writeAccepted ==> forall k | 0 <= k < |rows| && rows[k].subscriptionId == obj.subscription :: o.rows[k].status == PastDue
  {
    Outcome(Received, Stored(ctx, rows, UpdatedWhere(rows, obj.subscription, PaymentFailedPatch(ctx.now))))
  }

  /** Subscription deleted: the matching rows are cancelled and fall back to the free plan. */
  function SubscriptionDeletedOutcome(rows: seq<Row>, obj: EventObject, ctx: Context): (o: Outcome)
    ensures o.response == Received
    ensures |o.rows| == |rows|
    ensures forall k | 0 <= k < |rows| :: o.rows[k].periodStart == rows[k].periodStart && o.rows[k].periodEnd == rows[k].periodEnd
    ensures ctx.writeAccepted ==> forall k | 0 <= k < |rows| && rows[k].subscriptionId == obj.id ::
      o.rows[k].status == Cancelled && o.rows[k].plan == Free
  {
    Outcome(Received, Stored(ctx, rows, UpdatedWhere(rows, obj.id, SubscriptionDeletedPatch(ctx.now))))
  }

  /** The endpoint: reject a bad signature, then dispatch on the event kind; other kinds are acknowledged. */
  function Handle(rows: seq<Row>, signatureValid: bool, event: StripeEvent, ctx: Context): (o: Outcome)
    ensures o.response == InvalidSignature <==> !signatureValid
    ensures o.response != Received ==> o.rows == rows
    ensures signatureValid && !HandledKind(event.kind) ==> o == Outcome(Received, rows)
    ensures |o.rows| >= |rows|
  {
    if !signatureValid then Outcome(InvalidSignature, rows)
    else if event.kind == CheckoutSessionCompleted then CheckoutOutcome(rows, event.payload, ctx)
    else if event.kind == InvoicePaymentSucceeded then PaymentSucceededOutcome(rows, event.payload, ctx)
    else if event.kind == InvoicePaymentFailed then PaymentFailedOutcome(rows, event.payload, ctx)
    else if event.kind == CustomerSubscriptionDeleted then SubscriptionDeletedOutcome(rows, event.payload, ctx)
    else Outcome(Received, rows)
  }

  predicate HandledKind(kind: string) {
    kind in {CheckoutSessionCompleted, InvoicePaymentSucceeded, InvoicePaymentFailed, CustomerSubscriptionDeleted}
  }

  // ---------------------------------------------------------------------
  // The table
  // ---------------------------------------------------------------------

  class SubscriptionTable {
    var rows: seq<Row>

    ghost predicate Valid()
      reads this
    {
      UniqueUsers(rows)
    }

    constructor (initial: seq<Row>)
      requires UniqueUsers(initial)
      ensures Valid() && rows == initial
    {
      rows := initial;
    }

    /** The position of the user's row, if the table has one. */
    method FindUser(userId: string) returns (found: Option<nat>)
      ensures found.Some? ==> found.value < |rows| && rows[found.value].userId == userId
      ensures found.None? <==> !HasUser(rows, userId)
    {
      var k := 0;
      while k < |rows|
        invariant k <= |rows|
        invariant forall j | 0 <= j < k :: rows[j].userId != userId
      {
        if rows[k].userId == userId {
          return Some(k);
        }
        k := k + 1;
      }
      return None;
    }

    /** Inserts the row, or merges it into the existing row of the same user. */
    method Upsert(r: Row)
      requires Valid()
      modifies this
      ensures Valid()
      ensures rows == Upserted(old(rows), r)
    {
      var found := FindUser(r.userId);
      match found {
        case None =>
          rows := rows + [r];
          assert rows[|rows| - 1] == r;
        case Some(i) =>
          ghost var expected := Upserted(rows, r);
          rows := rows[i := Merged(rows[i], r)];
          assert rows == expected;
      }
      UpsertedKeepsUsersUnique(old(rows), r);
    }

    /** Applies the patch to every row whose provider subscription id matches. */
    method UpdateWhere(subscriptionId: string, p: Patch)
      requires Valid()
      modifies this
      ensures Valid()
      ensures rows == UpdatedWhere(old(rows), subscriptionId, p)
    {
      var k := 0;
      while k < |rows|
        invariant k <= |rows| == |old(rows)|
        invariant forall j | 0 <= j < k :: rows[j] == UpdatedWhere(old(rows), subscriptionId, p)[j]
        invariant forall j | k <= j < |rows| :: rows[j] == old(rows)[j]
      {
        if rows[k].subscriptionId == subscriptionId {
          rows := rows[k := Patched(rows[k], p)];
        }
        k := k + 1;
      }
      UpdatedWhereKeepsUsersUnique(old(rows), subscriptionId, p);
    }

    method OnCheckoutCompleted(obj: EventObject, ctx: Context) returns (resp: Response)
      requires Valid()
      modifies this
      ensures Valid()
      ensures Outcome(resp, rows) == CheckoutOutcome(old(rows), obj, ctx)
    {
      match ctx.retrieved {
        case None =>
          return HandlerFailed;
        case Some(sub) =>
          if |sub.priceIds| == 0 {
            return HandlerFailed;
          }
          var plan := PlanForPrice(ctx.prices, sub.priceIds[0]);
          if obj.metadataUserId.Some? && ctx.writeAccepted {
            Upsert(CheckoutRow(obj.metadataUserId.value, obj, plan, sub, ctx.now));
          }
          return Received;
      }
    }

    method OnPaymentSucceeded(obj: EventObject, ctx: Context) returns (resp: Response)
      requires Valid()
      modifies this
      ensures Valid()
      ensures Outcome(resp, rows) == PaymentSucceededOutcome(old(rows), obj, ctx)
      ensures forall k | 0 <= k < |rows| :: rows[k].plan == old(rows)[k].plan
    {
      match ctx.retrieved {
        case None =>
          return HandlerFailed;
        case Some(sub) =>
          if ctx.writeAccepted {
            UpdateWhere(obj.subscription, PaymentSucceededPatch(sub, ctx.now));
          }
          return Received;
      }
    }

    method OnPaymentFailed(obj: EventObject, ctx: Context) returns (resp: Response)
      requires Valid()
      modifies this
      ensures Valid()
      ensures Outcome(resp, rows) == PaymentFailedOutcome(old(rows), obj, ctx)
    {
      if ctx.writeAccepted {
        UpdateWhere(obj.subscription, PaymentFailedPatch(ctx.now));
      }
      return Received;
    }

    method OnSubscriptionDeleted(obj: EventObject, ctx: Context) returns (resp: Response)
      requires Valid()
      modifies this
      ensures Valid()
      ensures Outcome(resp, rows) == SubscriptionDeletedOutcome(old(rows), obj, ctx)
    {
      if ctx.writeAccepted {
        UpdateWhere(obj.id, SubscriptionDeletedPatch(ctx.now));
      }
      return Received;
    }

    /** The POST endpoint. */
    method Post(signatureValid: bool, event: StripeEvent, ctx: Context) returns (resp: Response)
      requires Valid()
      modifies this
      ensures Valid()
      ensures Outcome(resp, rows) == Handle(old(rows), signatureValid, event, ctx)
      ensures resp != Received ==> rows == old(rows)
    {
      if !signatureValid {
        return InvalidSignature;
      }
      if event.kind == CheckoutSessionCompleted {
        resp := OnCheckoutCompleted(event.payload, ctx);
      } else if event.kind == InvoicePaymentSucceeded {
        resp := OnPaymentSucceeded(event.payload, ctx);
      } else if event.kind == InvoicePaymentFailed {
        resp := OnPaymentFailed(event.payload, ctx);
      } else if event.kind == CustomerSubscriptionDeleted {
        resp := OnSubscriptionDeleted(event.payload, ctx);
      } else {
        resp := Received;
      }
    }
  }

  // ---------------------------------------------------------------------
  // Properties of the writes
  // ---------------------------------------------------------------------

  lemma UpsertedKeepsUsersUnique(rows: seq<Row>, r: Row)
    requires UniqueUsers(rows)
    ensures UniqueUsers(Upserted(rows, r))
  {
    var u := Upserted(rows, r);
    if !HasUser(rows, r.userId) {
      forall i, j | 0 <= i < j < |u| ensures u[i].userId != u[j].userId {
        if j == |rows| {
          assert u[i] == rows[i];
        }
      }
    }
  }

  /**
   * After an upsert the user has exactly one row, carrying the written
   * columns; every other user's row is where and what it was, and no row
   * disappears.
   */
  lemma UpsertedRowForUser(rows: seq<Row>, r: Row)
    requires UniqueUsers(rows)
    ensures var u := Upserted(rows, r);
      && |u| == (if HasUser(rows, r.userId) then |rows| else |rows| + 1)
      && HasUser(u, r.userId)
      && (forall k | 0 <= k < |u| && u[k].userId == r.userId ::
            u[k] == r.(cancelAtPeriodEnd := u[k].cancelAtPeriodEnd))
      && (forall k | 0 <= k < |rows| && rows[k].userId != r.userId :: u[k] == rows[k])
      && (forall k | 0 <= k < |rows| && rows[k].userId == r.userId :: u[k].cancelAtPeriodEnd == rows[k].cancelAtPeriodEnd)
      && (!HasUser(rows, r.userId) ==> u[|rows|] == r)
  {
    var u := Upserted(rows, r);
    if HasUser(rows, r.userId) {
      var k :| 0 <= k < |rows| && rows[k].userId == r.userId;
      assert u[k].userId == r.userId;
    } else {
      assert u[|rows|] == r;
    }
  }

  lemma UpsertedIdempotent(rows: seq<Row>, r: Row)
    ensures Upserted(Upserted(rows, r), r) == Upserted(rows, r)
  {
    var u := Upserted(rows, r);
    if HasUser(rows, r.userId) {
      var k :| 0 <= k < |rows| && rows[k].userId == r.userId;
      assert u[k].userId == r.userId;
    } else {
      assert u[|rows|].userId == r.userId;
      var uu := Upserted(u, r);
      assert |uu| == |u|;
      forall k | 0 <= k < |u| ensures uu[k] == u[k] {
        if k < |rows| {
          assert u[k] == rows[k];
        }
      }
    }
  }

  lemma UpdatedWhereKeepsUsersUnique(rows: seq<Row>, subscriptionId: string, p: Patch)
    requires UniqueUsers(rows)
    ensures UniqueUsers(UpdatedWhere(rows, subscriptionId, p))
  {
    var u := UpdatedWhere(rows, subscriptionId, p);
    forall i, j | 0 <= i < j < |u| ensures u[i].userId != u[j].userId {
      assert u[i].userId == rows[i].userId && u[j].userId == rows[j].userId;
    }
  }

  lemma UpdatedWhereIdempotent(rows: seq<Row>, subscriptionId: string, p: Patch)
    ensures UpdatedWhere(UpdatedWhere(rows, subscriptionId, p), subscriptionId, p) == UpdatedWhere(rows, subscriptionId, p)
  {
  }

  // ---------------------------------------------------------------------
  // Properties of the endpoint
  // ---------------------------------------------------------------------

  /** A bad signature is answered with 400 before anything is written. */
  lemma InvalidSignatureWritesNothing(rows: seq<Row>, event: StripeEvent, ctx: Context)
    ensures Handle(rows, false, event, ctx) == Outcome(InvalidSignature, rows)
    ensures Handle(rows, false, event, ctx).response.Status() == 400
  {
  }

  /** An event kind the handler does not know is acknowledged and changes nothing. */
  lemma UnknownKindIsAcknowledged(rows: seq<Row>, event: StripeEvent, ctx: Context)
    requires !HandledKind(event.kind)
    ensures Handle(rows, true, event, ctx) == Outcome(Received, rows)
  {
  }

  /**
   * With a valid signature the only failure is a provider lookup that
   * throws (or yields no items) on the two kinds that look the
   * subscription up; every other delivery is acknowledged, whether or not
   * the store kept the write. A failed delivery changes nothing.
   */
  lemma FailuresComeFromTheLookup(rows: seq<Row>, signatureValid: bool, event: StripeEvent, ctx: Context)
    ensures var o := Handle(rows, signatureValid, event, ctx);
      && (o.response.Status() == 500 <==>
            signatureValid &&
            ((event.kind == CheckoutSessionCompleted && (ctx.retrieved.None? || ctx.retrieved.value.priceIds == [])) ||
             (event.kind == InvoicePaymentSucceeded && ctx.retrieved.None?)))
      && (o.response == InvalidSignature <==> !signatureValid)
      && (o.response != Received ==> o.rows == rows)
      && (!ctx.writeAccepted ==> o.rows == rows)
  {
  }

  /**
   * A completed checkout leaves the buyer with exactly one row: the plan
   * of the first price (the agent plan for an unknown price), active, the
   * session's customer and subscription, the provider's period and the
   * clock. Other users' rows are untouched.
   */
  lemma CheckoutWritesTheUsersRow(rows: seq<Row>, event: StripeEvent, ctx: Context, userId: string, sub: StripeSubscription)
    requires UniqueUsers(rows)
    requires event.kind == CheckoutSessionCompleted && event.payload.metadataUserId == Some(userId)
    requires ctx.retrieved == Some(sub) && sub.priceIds != [] && ctx.writeAccepted
    ensures var o := Handle(rows, true, event, ctx);
      && o.response == Received
      && UniqueUsers(o.rows)
      && HasUser(o.rows, userId)
      && (forall k | 0 <= k < |o.rows| && o.rows[k].userId == userId ::
            && o.rows[k].plan == PlanForPrice(ctx.prices, sub.priceIds[0])
            && o.rows[k].status == Active
            && o.rows[k].customerId == event.payload.customer
            && o.rows[k].subscriptionId == event.payload.subscription
            && o.rows[k].periodStart == sub.periodStart && o.rows[k].periodEnd == sub.periodEnd
            && o.rows[k].updatedAt == ctx.now)
      && (forall k | 0 <= k < |rows| && rows[k].userId != userId :: o.rows[k] == rows[k])
  {
    var r := CheckoutRow(userId, event.payload, PlanForPrice(ctx.prices, sub.priceIds[0]), sub, ctx.now);
    UpsertedRowForUser(rows, r);
    UpsertedKeepsUsersUnique(rows, r);
  }

  /**
   * An update event touches exactly the rows carrying its subscription id:
   * payment succeeded makes them active with the provider's period,
   * payment failed makes them past due, a deletion cancels them and moves
   * them to the free plan. Nothing else in any row changes.
   */
  lemma UpdateEventsTouchMatchingRows(rows: seq<Row>, event: StripeEvent, ctx: Context)
    requires event.kind in {InvoicePaymentSucceeded, InvoicePaymentFailed, CustomerSubscriptionDeleted}
    requires ctx.writeAccepted && (event.kind == InvoicePaymentSucceeded ==> ctx.retrieved.Some?)
    ensures var o := Handle(rows, true, event, ctx);
      var key := if event.kind == CustomerSubscriptionDeleted then event.payload.id else event.payload.subscription;
      && o.response == Received
      && |o.rows| == |rows|
      && forall k | 0 <= k < |rows| ::
           if rows[k].subscriptionId != key then o.rows[k] == rows[k]
           else
             && o.rows[k].userId == rows[k].userId
             && o.rows[k].customerId == rows[k].customerId
             && o.rows[k].subscriptionId == key
             && o.rows[k].cancelAtPeriodEnd == rows[k].cancelAtPeriodEnd
             && o.rows[k].updatedAt == ctx.now
             && (event.kind == InvoicePaymentSucceeded ==>
                   o.rows[k].status == Active && o.rows[k].plan == rows[k].plan &&
                   o.rows[k].periodStart == ctx.retrieved.value.periodStart &&
                   o.rows[k].periodEnd == ctx.retrieved.value.periodEnd)
             && (event.kind == InvoicePaymentFailed ==>
                   o.rows[k].status == PastDue && o.rows[k].plan == rows[k].plan &&
                   o.rows[k].periodStart == rows[k].periodStart && o.rows[k].periodEnd == rows[k].periodEnd)
             && (event.kind == CustomerSubscriptionDeleted ==>
                   o.rows[k].status == Cancelled && o.rows[k].plan == Free &&
                   o.rows[k].periodStart == rows[k].periodStart && o.rows[k].periodEnd == rows[k].periodEnd)
  {
  }

  /** Every delivery keeps the one-row-per-user constraint and never removes a user's row. */
  lemma HandleKeepsTheTableWellFormed(rows: seq<Row>, signatureValid: bool, event: StripeEvent, ctx: Context, userId: string)
    requires UniqueUsers(rows)
    ensures UniqueUsers(Handle(rows, signatureValid, event, ctx).rows)
    ensures HasUser(rows, userId) ==> HasUser(Handle(rows, signatureValid, event, ctx).rows, userId)
  {
    var o := Handle(rows, signatureValid, event, ctx);
    if signatureValid && event.kind == CheckoutSessionCompleted && o.rows != rows {
      var sub := ctx.retrieved.value;
      var r := CheckoutRow(event.payload.metadataUserId.value, event.payload, PlanForPrice(ctx.prices, sub.priceIds[0]), sub, ctx.now);
      UpsertedKeepsUsersUnique(rows, r);
      UpsertedRowForUser(rows, r);
      if HasUser(rows, userId) && userId != r.userId {
        var k :| 0 <= k < |rows| && rows[k].userId == userId;
        assert o.rows[k] == rows[k];
      }
    } else if o.rows != rows {
      var key := if event.kind == CustomerSubscriptionDeleted then event.payload.id else event.payload.subscription;
      var p :| o.rows == UpdatedWhere(rows, key, p);
      UpdatedWhereKeepsUsersUnique(rows, key, p);
      if HasUser(rows, userId) {
        var k :| 0 <= k < |rows| && rows[k].userId == userId;
        assert o.rows[k].userId == userId;
      }
    }
  }

  /**
   * Replaying a delivery with the same provider data and the same clock
   * gives the reply and the table of delivering it once.
   */
  lemma ReplayIsIdempotent(rows: seq<Row>, signatureValid: bool, event: StripeEvent, ctx: Context)
    ensures var once := Handle(rows, signatureValid, event, ctx);
      Handle(once.rows, signatureValid, event, ctx) == once
  {
    var once := Handle(rows, signatureValid, event, ctx);
    if signatureValid && event.kind == CheckoutSessionCompleted && once.rows != rows {
      var sub := ctx.retrieved.value;
      UpsertedIdempotent(rows, CheckoutRow(event.payload.metadataUserId.value, event.payload,
                                           PlanForPrice(ctx.prices, sub.priceIds[0]), sub, ctx.now));
    } else if signatureValid && once.rows != rows {
      var key := if event.kind == CustomerSubscriptionDeleted then event.payload.id else event.payload.subscription;
      var p :| once.rows == UpdatedWhere(rows, key, p);
      UpdatedWhereIdempotent(rows, key, p);
    }
  }

  /**
   * Delivery order matters: a renewal that arrives after the deletion
   * leaves an active row on the free plan, while the other order leaves a
   * cancelled one.
   */
  lemma DeliveryOrderMatters(ctx: Context)
    requires ctx.writeAccepted && ctx.retrieved.Some?
    ensures var row := Row("u1", Profesional, Active, "cus_1", "sub_1", 0, 10, false, 0);
      var obj := EventObject(None, "cus_1", "sub_1", "sub_1");
      var deleted := StripeEvent(CustomerSubscriptionDeleted, obj);
      var renewed := StripeEvent(InvoicePaymentSucceeded, obj);
      var deleteFirst := Handle(Handle([row], true, deleted, ctx).rows, true, renewed, ctx).rows;
      var renewFirst := Handle(Handle([row], true, renewed, ctx).rows, true, deleted, ctx).rows;
      && deleteFirst[0].status == Active && deleteFirst[0].plan == Free
      && renewFirst[0].status == Cancelled && renewFirst[0].plan == Free
  {
  }
}
