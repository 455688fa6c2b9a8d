/**
 * Subscription plans and user subscriptions: the field bounds, the
 * conditional uniqueness of active subscriptions, and `UserSubscription.save`,
 * which fills in a missing end date before the row is written. Dates are day
 * numbers.
 */
module SubscriptionModels {
  import opened Keys
  import opened Wrappers
  import opened Money

  datatype SubscriptionPlan = SubscriptionPlan(id: PlanId, name: string, price: int, durationDays: int, isActive: bool)

  /** price: DecimalField(max_digits = 6, decimal_places = 2); duration_days: PositiveIntegerField, so zero is allowed. */
  predicate ValidPlan(p: SubscriptionPlan)
  {
    FitsDecimal(p.price, 6) && p.durationDays >= 0
  }

  /** The plan table, keyed by id: every row is filed under its own id and fits its column bounds. */
  predicate ValidPlanTable(plans: map<PlanId, SubscriptionPlan>)
  {
    forall k | k in plans :: plans[k].id == k && ValidPlan(plans[k])
  }

  /** A plan's price is below 10,000.00 in magnitude. */
  lemma PlanPriceBound(p: SubscriptionPlan)
    requires ValidPlan(p)
    ensures -1_000_000 < p.price < 1_000_000
  {
    FitsDecimalRange(p.price, 6);
    assert Pow10(6) == 1_000_000 by {
      assert Pow10(3) == 1000 by { assert Pow10(2) == 100 by { assert Pow10(1) == 10; } }
    }
  }

  /** A row of the subscription table; `endDate` is None where the column is null. */
  datatype SubscriptionRow = SubscriptionRow(
    user: UserId, plan: PlanId, startDate: int, endDate: Option<int>,
    isActive: bool, stripeSubscriptionId: string)

  predicate HasActive(rows: seq<SubscriptionRow>, user: UserId)
  {
    exists i | 0 <= i < |rows| :: rows[i].user == user && rows[i].isActive
  }

  /** `unique_active_subscription`: `user` is unique among the rows with is_active = true. */
  predicate AtMostOneActive(rows: seq<SubscriptionRow>)
  {
    forall i, j | 0 <= i < j < |rows| && rows[i].isActive && rows[j].isActive :: rows[i].user != rows[j].user
  }

  /**
   * The database's INSERT under `unique_active_subscription`: an active row
   * for a user who already has one raises IntegrityError (None here).
   */
  function InsertSubscription(rows: seq<SubscriptionRow>, row: SubscriptionRow): (r: Option<seq<SubscriptionRow>>)
    ensures r.Some? <==> !(row.isActive && HasActive(rows, row.user))
    ensures r.Some? ==> r.value == rows + [row]
    ensures AtMostOneActive(rows) && r.Some? ==> AtMostOneActive(r.value)
  {
    if row.isActive && HasActive(rows, row.user) then None else Some(rows + [row])
  }

  /** The subscription table. */
  class SubscriptionTable {
    var rows: seq<SubscriptionRow>

    ghost predicate Valid()
      reads this
    {
      AtMostOneActive(rows)
    }

    constructor ()
      ensures Valid() && rows == []
    {
      rows := [];
    }

    method Insert(row: SubscriptionRow) returns (ok: bool)
      requires Valid()
      modifies this
      ensures Valid()
      ensures ok == InsertSubscription(old(rows), row).Some?
      ensures rows == if ok then old(rows) + [row] else old(rows)
    {
      var r := InsertSubscription(rows, row);
      ok := r.Some?;
      if ok {
        rows := r.value;
      }
    }
  }

  /** How a save ends: written, or the exception that stopped it. */
  datatype SaveResult =
    | Saved
    | PlanMissing       // `self.plan` with no plan raises RelatedObjectDoesNotExist
    | StartDateMissing  // `None + timedelta` raises TypeError
    | NotNullViolation  // plan or stripe_subscription_id null at INSERT
    | ActiveConflict    // IntegrityError from unique_active_subscription

  /** A UserSubscription model instance, before and while it is saved. */
  class UserSubscription {
    var user: UserId
    var plan: Option<SubscriptionPlan>
    var startDate: Option<int>
    var endDate: Option<int>
    var isActive: bool
    var stripeSubscriptionId: Option<string>

    /** `UserSubscription(...)`; is_active takes its default, true. */
    constructor (user: UserId, plan: Option<SubscriptionPlan>, startDate: Option<int>, endDate: Option<int>,
                 stripeSubscriptionId: Option<string>)
      ensures this.user == user && this.plan == plan && this.startDate == startDate && this.endDate == endDate
      ensures this.stripeSubscriptionId == stripeSubscriptionId
      ensures isActive
    {
      this.user := user;
      this.plan := plan;
      this.startDate := startDate;
      this.endDate := endDate;
      this.stripeSubscriptionId := stripeSubscriptionId;
      isActive := true;
    }

    /** The row an INSERT of this instance writes. */
    function Row(): SubscriptionRow
      reads this
      requires plan.Some? && startDate.Some? && stripeSubscriptionId.Some?
    {
      SubscriptionRow(user, plan.value.id, startDate.value, endDate, isActive, stripeSubscriptionId.value)
    }

    /**
     * save: a missing end date becomes start date + plan.duration_days (an end
     * date already set is kept); then the framework stamps start_date with the
     * insert time `now` (auto_now_add) while it prepares the INSERT, so the
     * stamp is on the instance even when the database then refuses a null
     * column.
     */
    method Save(table: SubscriptionTable, now: int) returns (r: SaveResult)
      requires table.Valid()
      modifies this, table
      ensures table.Valid()
      ensures user == old(user) && plan == old(plan) && isActive == old(isActive)
      ensures stripeSubscriptionId == old(stripeSubscriptionId)
      ensures old(endDate).Some? ==> endDate == old(endDate)
      ensures old(endDate).None? && plan.Some? && old(startDate).Some? ==>
        endDate == Some(old(startDate).value + plan.value.durationDays)
      ensures old(endDate).None? && plan.None? <==> r == PlanMissing
      ensures old(endDate).None? && plan.Some? && old(startDate).None? <==> r == StartDateMissing
      ensures r == PlanMissing || r == StartDateMissing ==> endDate == old(endDate) && startDate == old(startDate)
      ensures r == NotNullViolation <==>
        (old(endDate).Some? && (plan.None? || stripeSubscriptionId.None?))
        || (old(endDate).None? && plan.Some? && old(startDate).Some? && stripeSubscriptionId.None?)
      ensures r == NotNullViolation ==> startDate == Some(now)
      ensures r == Saved || r == ActiveConflict ==>
        && startDate == Some(now)
        && plan.Some? && stripeSubscriptionId.Some?
        && (r == Saved <==> InsertSubscription(old(table.rows), Row()).Some?)
      ensures table.rows == if r == Saved then old(table.rows) + [Row()] else old(table.rows)
    {
      if endDate.None? {
        if plan.None? {
          return PlanMissing;
        }
        if startDate.None? {
          return StartDateMissing;
        }
        endDate := Some(startDate.value + plan.value.durationDays);
      }
      startDate := Some(now);
      if plan.None? || stripeSubscriptionId.None? {
        return NotNullViolation;
      }
      var ok := table.Insert(Row());
      r := if ok then Saved else ActiveConflict;
    }
  }
}
