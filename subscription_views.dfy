/**
 * The subscription handlers: the guards of `subscribe` in front of the
 * provider's checkout, the success page, the payment webhook and
 * `fulfill_subscription`. Dates are day numbers; `now` is the clock reading.
 */
module SubscriptionViews {
  import opened Keys
  import opened Wrappers
  import opened Money
  import opened Payments
  import opened SubscriptionModels

  // ------------------------------------------------------------------ subscribe

  /** `SubscriptionPlan.objects.get(id=plan_id, is_active=True)` finds it. */
  predicate Offered(plans: map<PlanId, SubscriptionPlan>, planId: PlanId)
  {
    planId in plans && plans[planId].isActive
  }

  /** The session's single line item: the plan's name and price in cents, quantity 1. */
  function PlanLineItem(plan: SubscriptionPlan): (item: LineItem)
    ensures item == LineItem(Currency, plan.name, plan.price, 1)
  {
    UnitAmountOfHundredths(plan.price);
    LineItem(Currency, plan.name, UnitAmount(FromHundredths(plan.price)), 1)
  }

  datatype SubscribeResponse =
    | PlanNotFound                            // error notice, back to the plan list
    | AlreadySubscribed                       // warning, redirect to the profile
    | SessionCreated(request: SessionRequest) // redirect to the provider
    | SessionFailed(request: SessionRequest)  // the provider raised: error notice, back to the plan list

  /**
   * subscribe: a missing or inactive plan, then an existing active
   * subscription, are refused before the provider is asked for a session.
   */
  function Subscribe(plans: map<PlanId, SubscriptionPlan>, rows: seq<SubscriptionRow>, planId: PlanId,
                     user: UserId, providerFails: bool): (r: SubscribeResponse)
    ensures r.PlanNotFound? <==> !Offered(plans, planId)
    ensures r.AlreadySubscribed? <==> Offered(plans, planId) && HasActive(rows, user)
    ensures (r.SessionCreated? || r.SessionFailed?) <==> Offered(plans, planId) && !HasActive(rows, user)
    ensures r.SessionCreated? <==> Offered(plans, planId) && !HasActive(rows, user) && !providerFails
    ensures (r.SessionCreated? || r.SessionFailed?) ==>
      r.request == SessionRequest([LineItem(Currency, plans[planId].name, plans[planId].price, 1)],
                                  SessionMetadata(Some(user), None, Some(planId)))
  {
    if !Offered(plans, planId) then PlanNotFound
    else if HasActive(rows, user) then AlreadySubscribed
    else
      var request := SessionRequest([PlanLineItem(plans[planId])], SessionMetadata(Some(user), None, Some(planId)));
      if providerFails then SessionFailed(request) else SessionCreated(request)
  }

  // ------------------------------------------------------- subscription_success

  datatype SuccessResponse = BackToPlans | ToProfile(planFound: bool)

  /**
   * subscription_success: without a plan id, back to the plans; otherwise to
   * the profile, with a notice that depends on whether the plan exists. It
   * reads the plan table only and writes nothing.
   */
  function SubscriptionSuccess(plans: map<PlanId, SubscriptionPlan>, planId: Option<PlanId>): (r: SuccessResponse)
    ensures r.BackToPlans? <==> planId.None?
    ensures r.ToProfile? ==> (r.planFound <==> planId.value in plans)
  {
    match planId
    case None => BackToPlans
    case Some(id) => ToProfile(id in plans)
  }

  // ------------------------------------------------------- fulfill_subscription

  datatype FulfilResult =
    | Dropped                       // unknown plan or user: returns quietly
    | IntegrityError                // the insert is refused and the exception escapes
    | Created(row: SubscriptionRow)

  /**
   * What fulfill_subscription does: nothing for an unknown plan or user;
   * otherwise one active subscription from `now` for the plan's duration,
   * which the database refuses when the payment intent is null or the user
   * already has an active subscription. The function itself checks neither.
   */
  function FulfilSubscriptionSpec(plans: map<PlanId, SubscriptionPlan>, users: set<UserId>, rows: seq<SubscriptionRow>,
                                  planId: PlanId, userId: UserId, paymentIntent: Option<string>, now: int): (f: FulfilResult)
    ensures f.Created? <==> planId in plans && userId in users && paymentIntent.Some? && !HasActive(rows, userId)
    ensures f.Created? ==> f.row.user == userId && f.row.isActive && InsertSubscription(rows, f.row) == Some(rows + [f.row])
  {
    if planId !in plans || userId !in users then Dropped
    else if paymentIntent.None? then IntegrityError
    else
      var row := SubscriptionRow(userId, plans[planId].id, now, Some(now + plans[planId].durationDays), true, paymentIntent.value);
      if InsertSubscription(rows, row).Some? then Created(row) else IntegrityError
  }

  method FulfilSubscription(plans: map<PlanId, SubscriptionPlan>, users: set<UserId>, table: SubscriptionTable,
                            planId: PlanId, userId: UserId, paymentIntent: Option<string>, now: int)
    returns (r: FulfilResult)
    requires table.Valid()
    modifies table
    ensures table.Valid()
    ensures r == FulfilSubscriptionSpec(plans, users, old(table.rows), planId, userId, paymentIntent, now)
    ensures table.rows == if r.Created? then old(table.rows) + [r.row] else old(table.rows)
  {
    if planId !in plans || userId !in users {
      return Dropped;
    }
    var plan := plans[planId];
    var startDate := now;
    var endDate := startDate + plan.durationDays;
    // is_active=True is passed explicitly, as the field's default would give
    var subscription := new UserSubscription(userId, Some(plan), Some(startDate), Some(endDate), paymentIntent);
    var saved := subscription.Save(table, now);
    if saved == Saved {
      r := Created(subscription.Row());
    } else {
      r := IntegrityError;
    }
  }

  // ------------------------------------------------------------- stripe_webhook

  datatype SubscriptionAction =
    | Rejected                                                   // construct_event raised
    | Ignored                                                    // another event type
    | KeyMissing                                                 // metadata lacks 'plan_id' or 'user_id'
    | FulfilPlan(plan: PlanId, user: UserId, paymentIntent: Option<string>)

  /** The subscription webhook's dispatch on the verified event. */
  function SubscriptionDispatch(event: Option<Event>): (a: SubscriptionAction)
    ensures a.Rejected? <==> event.None?
    ensures a.Ignored? <==> event.Some? && event.value.kind != CheckoutCompleted
    ensures a.FulfilPlan? <==>
      event.Some? && event.value.kind == CheckoutCompleted
      && event.value.metadata.planId.Some? && event.value.metadata.userId.Some?
    ensures a.FulfilPlan? ==>
      a == FulfilPlan(event.value.metadata.planId.value, event.value.metadata.userId.value, event.value.paymentIntent)
  {
    match event
    case None => Rejected
    case Some(e) =>
      if e.kind != CheckoutCompleted then Ignored
      else if e.metadata.planId.None? || e.metadata.userId.None? then KeyMissing
      else FulfilPlan(e.metadata.planId.value, e.metadata.userId.value, e.paymentIntent)
  }

  /** stripe_webhook (subscriptions). */
  method SubscriptionWebhook(plans: map<PlanId, SubscriptionPlan>, users: set<UserId>, table: SubscriptionTable,
                             event: Option<Event>, now: int) returns (status: int)
    requires table.Valid()
    modifies table
    ensures table.Valid()
    ensures var a := SubscriptionDispatch(event);
      && (a.Rejected? ==> status == BadRequest && table.rows == old(table.rows))
      && (a.Ignored? ==> status == Ok && table.rows == old(table.rows))
      && (a.KeyMissing? ==> status == ServerError && table.rows == old(table.rows))
      && (a.FulfilPlan? ==>
            var f := FulfilSubscriptionSpec(plans, users, old(table.rows), a.plan, a.user, a.paymentIntent, now);
            && status == (if f.IntegrityError? then ServerError else Ok)
            && table.rows == if f.Created? then old(table.rows) + [f.row] else old(table.rows))
  {
    var action := SubscriptionDispatch(event);
    match action
    case Rejected => status := BadRequest;
    case Ignored => status := Ok;
    case KeyMissing => status := ServerError;
    case FulfilPlan(plan, user, paymentIntent) =>
      var f := FulfilSubscription(plans, users, table, plan, user, paymentIntent, now);
      status := if f.IntegrityError? then ServerError else Ok;
  }
}

/** What subscription fulfilment promises, and what only the database guarantees. */
module SubscriptionFulfilment {
  import opened Keys
  import opened Wrappers
  import opened Payments
  import opened SubscriptionModels
  import opened SubscriptionViews

  /**
   * The created subscription is for the plan looked up, active, runs from
   * `now` for the plan's duration and records the payment intent. In a valid
   * plan table that plan is the one paid for, and the period never ends
   * before it starts.
   */
  lemma FulfilSubscriptionPeriod(plans: map<PlanId, SubscriptionPlan>, users: set<UserId>, rows: seq<SubscriptionRow>,
                                 planId: PlanId, userId: UserId, paymentIntent: Option<string>, now: int)
    requires FulfilSubscriptionSpec(plans, users, rows, planId, userId, paymentIntent, now).Created?
    ensures var row := FulfilSubscriptionSpec(plans, users, rows, planId, userId, paymentIntent, now).row;
      && row.user == userId && row.plan == plans[planId].id && row.isActive
      && row.startDate == now && row.endDate == Some(now + plans[planId].durationDays)
      && paymentIntent == Some(row.stripeSubscriptionId)
      && (ValidPlanTable(plans) ==> row.plan == planId && row.endDate.value >= row.startDate)
  {
  }

  /**
   * The outcome is decided by the lookups and the database alone: an unknown
   * plan or user drops the event, and an existing active subscription (or a
   * null payment intent) surfaces only as the insert's IntegrityError.
   */
  lemma FulfilSubscriptionOutcomes(plans: map<PlanId, SubscriptionPlan>, users: set<UserId>, rows: seq<SubscriptionRow>,
                                   planId: PlanId, userId: UserId, paymentIntent: Option<string>, now: int)
    ensures var f := FulfilSubscriptionSpec(plans, users, rows, planId, userId, paymentIntent, now);
      && (f.Dropped? <==> planId !in plans || userId !in users)
      && (f.IntegrityError? <==> planId in plans && userId in users && (paymentIntent.None? || HasActive(rows, userId)))
  {
  }

  /** Fulfilment never breaks the one-active-subscription rule. */
  lemma FulfilSubscriptionKeepsOneActive(plans: map<PlanId, SubscriptionPlan>, users: set<UserId>, rows: seq<SubscriptionRow>,
                                         planId: PlanId, userId: UserId, paymentIntent: Option<string>, now: int)
    requires AtMostOneActive(rows)
    requires FulfilSubscriptionSpec(plans, users, rows, planId, userId, paymentIntent, now).Created?
    ensures AtMostOneActive(rows + [FulfilSubscriptionSpec(plans, users, rows, planId, userId, paymentIntent, now).row])
  {
  }

  lemma CreatedRowIsActive(rows: seq<SubscriptionRow>, row: SubscriptionRow)
    requires row.isActive
    ensures HasActive(rows + [row], row.user)
  {
    assert (rows + [row])[|rows|] == row;
  }

  /**
   * The guard in `subscribe` looks only at the present: two checkouts opened
   * before either is paid both pass it, and the second payment then ends in
   * the database's IntegrityError rather than in a second subscription.
   */
  lemma ConcurrentCheckoutsSecondRefused(plans: map<PlanId, SubscriptionPlan>, users: set<UserId>, rows: seq<SubscriptionRow>,
                                         p1: PlanId, p2: PlanId, user: UserId, pi1: string, pi2: string, now1: int, now2: int)
    requires Offered(plans, p1) && Offered(plans, p2) && user in users && !HasActive(rows, user)
    ensures Subscribe(plans, rows, p1, user, false).SessionCreated?
    ensures Subscribe(plans, rows, p2, user, false).SessionCreated?
    ensures var f1 := FulfilSubscriptionSpec(plans, users, rows, p1, user, Some(pi1), now1);
      && f1.Created?
      && FulfilSubscriptionSpec(plans, users, rows + [f1.row], p2, user, Some(pi2), now2).IntegrityError?
  {
    var f1 := FulfilSubscriptionSpec(plans, users, rows, p1, user, Some(pi1), now1);
    CreatedRowIsActive(rows, f1.row);
  }

  /**
   * Unlike an order, a replayed subscription payment does not duplicate: the
   * second delivery is refused by the database and answered with 500.
   */
  lemma ReplayedSubscriptionRefused(plans: map<PlanId, SubscriptionPlan>, users: set<UserId>, rows: seq<SubscriptionRow>,
                                    planId: PlanId, userId: UserId, paymentIntent: Option<string>, now: int, later: int)
    requires FulfilSubscriptionSpec(plans, users, rows, planId, userId, paymentIntent, now).Created?
    ensures var f := FulfilSubscriptionSpec(plans, users, rows, planId, userId, paymentIntent, now);
      FulfilSubscriptionSpec(plans, users, rows + [f.row], planId, userId, paymentIntent, later).IntegrityError?
  {
    var f := FulfilSubscriptionSpec(plans, users, rows, planId, userId, paymentIntent, now);
    CreatedRowIsActive(rows, f.row);
  }
}
