/**
 * Invoice creation for one subscription at one reference moment: the billing
 * period and issuing date, the subscription-fee gate, find-or-create of the
 * invoice keyed by subscription and dates, fee creation in plan order with
 * all-or-nothing semantics, and the invoice totals.
 */
module Invoices {
  import opened Wrappers
  import opened Calendar

  datatype Interval = Monthly | Yearly | OtherInterval(name: string)

  datatype Status = Pending | Active | Terminated

  datatype Charge = Charge(id: nat)

  datatype Plan = Plan(interval: Interval, payInAdvance: bool, charges: seq<Charge>)
  {
    predicate PayInArrear()
    {
      !payInAdvance
    }
  }

  datatype Subscription = Subscription(id: nat, plan: Plan, startedAt: Moment, status: Status)

  datatype Error = UnsupportedInterval | FeeCreationFailed(reason: string)

  datatype Period = Period(fromDate: CalendarDate, toDate: CalendarDate, issuingDate: CalendarDate)

  /** The identity of an invoice: at most one invoice exists per key. */
  datatype InvoiceKey = InvoiceKey(
    subscriptionId: nat,
    fromDate: CalendarDate,
    toDate: CalendarDate,
    issuingDate: CalendarDate)

  datatype Fee = Fee(amountCents: int, vatAmountCents: int)

  datatype Invoice = Invoice(
    key: InvoiceKey,
    fees: seq<Fee>,
    amountCents: int,
    vatAmountCents: int,
    totalAmountCents: int)

  /** A fee-creation collaborator for the subscription fee: a fee or a failure reason. */
  type SubscriptionFeeService = InvoiceKey -> Result<Fee, string>

  /** A fee-creation collaborator for one plan charge: a fee or a failure reason. */
  type ChargeFeeService = (InvoiceKey, Charge) -> Result<Fee, string>

  // Billing period

  /**
   * Raises `date` to the day the subscription started when the date's midnight
   * is earlier than `started_at`; the result is the later of the two days.
   */
  function ClampToStart(date: CalendarDate, startedAt: Moment): (r: CalendarDate)
    ensures r == Later(date, startedAt.date)
  {
    if DateBeforeMoment(date, startedAt) then startedAt.date else date
  }

  /** `from_date`: one interval before the reference day, never before the start day. */
  function FromDate(subscription: Subscription, timestamp: Moment): (r: Result<CalendarDate, Error>)
    ensures r.Failure? <==> subscription.plan.interval.OtherInterval?
    ensures r.Failure? ==> r.error == UnsupportedInterval
    ensures subscription.plan.interval == Monthly
      ==> r == Success(Later(MonthsEarlier(timestamp.date, 1), subscription.startedAt.date))
    ensures subscription.plan.interval == Yearly
      ==> r == Success(Later(MonthsEarlier(timestamp.date, 12), subscription.startedAt.date))
  {
    match subscription.plan.interval
    case Monthly => Success(ClampToStart(MonthsEarlier(timestamp.date, 1), subscription.startedAt))
    case Yearly => Success(ClampToStart(MonthsEarlier(timestamp.date, 12), subscription.startedAt))
    case OtherInterval(_) => Failure(UnsupportedInterval)
  }

  /** `to_date`: the day before the reference day, never before the start day. */
  function ToDate(subscription: Subscription, timestamp: Moment): (r: CalendarDate)
    ensures r == Later(PreviousDay(timestamp.date), subscription.startedAt.date)
  {
    ClampToStart(PreviousDay(timestamp.date), subscription.startedAt)
  }

  /** `issuing_date`: the reference day for a pay-in-advance plan, the period's last day otherwise. */
  function IssuingDate(subscription: Subscription, timestamp: Moment): (r: CalendarDate)
    ensures subscription.plan.payInAdvance ==> r == timestamp.date
    ensures !subscription.plan.payInAdvance ==> r == ToDate(subscription, timestamp)
  {
    if subscription.plan.payInAdvance then timestamp.date else ToDate(subscription, timestamp)
  }

  function ResolvePeriod(subscription: Subscription, timestamp: Moment): (r: Result<Period, Error>)
    ensures r.Failure? <==> subscription.plan.interval.OtherInterval?
    ensures r.Success? ==> r.value == Period(
      FromDate(subscription, timestamp).value,
      ToDate(subscription, timestamp),
      IssuingDate(subscription, timestamp))
  {
    match FromDate(subscription, timestamp)
    case Failure(e) => Failure(e)
    case Success(fromDate) =>
      Success(Period(fromDate, ToDate(subscription, timestamp), IssuingDate(subscription, timestamp)))
  }

  /** A resolved period never starts after it ends, and neither end precedes the start day. */
  lemma PeriodIsOrdered(subscription: Subscription, timestamp: Moment)
    requires ResolvePeriod(subscription, timestamp).Success?
    ensures !Before(ResolvePeriod(subscription, timestamp).value.toDate, ResolvePeriod(subscription, timestamp).value.fromDate)
    ensures !Before(ResolvePeriod(subscription, timestamp).value.fromDate, subscription.startedAt.date)
    ensures !Before(ResolvePeriod(subscription, timestamp).value.toDate, subscription.startedAt.date)
  {
    var today := timestamp.date;
    var months := if subscription.plan.interval == Monthly then 1 else 12;
    var computed := MonthsEarlier(today, months);
    MonthsEarlierIsBefore(today, months);
    BeforeMeansAtMostPreviousDay(today, computed);
  }

  /**
   * A pay-in-advance subscription billed on the day it starts gets a one-day
   * period on that day, issued that day.
   */
  lemma FirstPayInAdvancePeriod(subscription: Subscription, timestamp: Moment)
    requires !subscription.plan.interval.OtherInterval?
    requires subscription.plan.payInAdvance
    requires timestamp.date == subscription.startedAt.date
    ensures ResolvePeriod(subscription, timestamp)
      == Success(Period(timestamp.date, timestamp.date, timestamp.date))
  {
    var months := if subscription.plan.interval == Monthly then 1 else 12;
    MonthsEarlierIsBefore(timestamp.date, months);
  }

  // Subscription fee gate

  /** The subscription fee is due for an active subscription, or a terminated one on a pay-in-arrear plan. */
  predicate ShouldCreateSubscriptionFee(subscription: Subscription): (due: bool)
    ensures subscription.status == Pending ==> !due
    ensures subscription.status == Active ==> due
    ensures subscription.status == Terminated ==> (due <==> !subscription.plan.payInAdvance)
  {
    subscription.status == Active
    || (subscription.status == Terminated && subscription.plan.PayInArrear())
  }

  // Totals

  function SumAmount(fees: seq<Fee>): int
  {
    if fees == [] then 0 else SumAmount(fees[..|fees| - 1]) + fees[|fees| - 1].amountCents
  }

  function SumVat(fees: seq<Fee>): int
  {
    if fees == [] then 0 else SumVat(fees[..|fees| - 1]) + fees[|fees| - 1].vatAmountCents
  }

  lemma {:induction false} SumsAppend(a: seq<Fee>, b: seq<Fee>)
    ensures SumAmount(a + b) == SumAmount(a) + SumAmount(b)
    ensures SumVat(a + b) == SumVat(a) + SumVat(b)
  {
    if b == [] {
      assert a + b == a;
    } else {
      var init := b[..|b| - 1];
      assert (a + b)[..|a + b| - 1] == a + init;
      SumsAppend(a, init);
    }
  }

  /** The invoice's totals agree with its fees. */
  predicate TotalsConsistent(invoice: Invoice)
  {
    invoice.amountCents == SumAmount(invoice.fees)
    && invoice.vatAmountCents == SumVat(invoice.fees)
    && invoice.totalAmountCents == invoice.amountCents + invoice.vatAmountCents
  }

  /** The invoice with its totals recomputed from its fees. */
  function WithTotals(invoice: Invoice): (r: Invoice)
    ensures TotalsConsistent(r)
    ensures r.key == invoice.key && r.fees == invoice.fees
  {
    var amount := SumAmount(invoice.fees);
    var vat := SumVat(invoice.fees);
    invoice.(amountCents := amount, vatAmountCents := vat, totalAmountCents := amount + vat)
  }

  function AddFees(invoice: Invoice, fees: seq<Fee>): Invoice
  {
    invoice.(fees := invoice.fees + fees)
  }

  lemma AddFeesInSteps(invoice: Invoice, first: seq<Fee>, second: seq<Fee>)
    ensures AddFees(invoice, []) == invoice
    ensures AddFees(AddFees(invoice, first), second) == AddFees(invoice, first + second)
  {
    assert invoice.fees + [] == invoice.fees;
    assert invoice.fees + first + second == invoice.fees + (first + second);
  }

  /** Appending two batches of fees to the invoice under `key`, one after the other, appends their concatenation. */
  lemma StoreAddsInSteps(store: map<InvoiceKey, Invoice>, key: InvoiceKey, first: seq<Fee>, second: seq<Fee>, middle: map<InvoiceKey, Invoice>)
    requires key in store
    requires middle == store[key := AddFees(store[key], first)]
    ensures middle[key := AddFees(middle[key], second)] == store[key := AddFees(store[key], first + second)]
  {
    AddFeesInSteps(store[key], first, second);
  }

  /** Every stored invoice sits under its own key and has consistent totals. */
  predicate StoreValid(store: map<InvoiceKey, Invoice>)
  {
    forall key :: key in store ==> store[key].key == key && TotalsConsistent(store[key])
  }

  // Find-or-create and fee creation

  function KeyFor(subscription: Subscription, period: Period): InvoiceKey
  {
    InvoiceKey(subscription.id, period.fromDate, period.toDate, period.issuingDate)
  }

  function NewInvoice(key: InvoiceKey): Invoice
  {
    Invoice(key, [], 0, 0, 0)
  }

  /** The stored invoice under `key`, or a new empty one. */
  function FindOrNew(store: map<InvoiceKey, Invoice>, key: InvoiceKey): Invoice
  {
    if key in store then store[key] else NewInvoice(key)
  }

  /**
   * The fees created for the plan's charges, one per charge in plan order, or
   * the failure of the first charge whose fee could not be created.
   */
  function ChargeFees(key: InvoiceKey, charges: seq<Charge>, chargeFee: ChargeFeeService): (r: Result<seq<Fee>, Error>)
    ensures r.Success? <==> forall i :: 0 <= i < |charges| ==> chargeFee(key, charges[i]).Success?
    ensures r.Success? ==>
      |r.value| == |charges|
      && forall i :: 0 <= i < |charges| ==> chargeFee(key, charges[i]) == Success(r.value[i])
    ensures r.Failure? ==>
      exists i :: 0 <= i < |charges| && FirstFailure(key, charges, chargeFee, i)
        && r.error == FeeCreationFailed(chargeFee(key, charges[i]).error)
  {
    if charges == [] then Success([])
    else
      var init := charges[..|charges| - 1];
      var last := charges[|charges| - 1];
      var earlier := ChargeFees(key, init, chargeFee);
      if earlier.Failure? then
        assert forall i :: 0 <= i < |init| ==> init[i] == charges[i];
        earlier
      else
        match chargeFee(key, last)
        case Failure(reason) => Failure(FeeCreationFailed(reason))
        case Success(fee) => Success(earlier.value + [fee])
  }

  /** Charge `i` is the first whose fee creation fails. */
  predicate FirstFailure(key: InvoiceKey, charges: seq<Charge>, chargeFee: ChargeFeeService, i: int)
    requires 0 <= i < |charges|
  {
    chargeFee(key, charges[i]).Failure?
    && forall j :: 0 <= j < i ==> chargeFee(key, charges[j]).Success?
  }

  lemma {:induction false} PrefixFailurePropagates(key: InvoiceKey, charges: seq<Charge>, chargeFee: ChargeFeeService, n: nat)
    requires n <= |charges|
    requires ChargeFees(key, charges[..n], chargeFee).Failure?
    ensures ChargeFees(key, charges, chargeFee) == ChargeFees(key, charges[..n], chargeFee)
  {
    if n < |charges| {
      var init := charges[..|charges| - 1];
      assert init[..n] == charges[..n];
      PrefixFailurePropagates(key, init, chargeFee, n);
    } else {
      assert charges[..n] == charges;
    }
  }

  /** The subscription fee an invocation adds before the charges' fees: the created fee when it is due. */
  function DueSubscriptionFees(subscription: Subscription, key: InvoiceKey, subscriptionFee: SubscriptionFeeService): seq<Fee>
  {
    if ShouldCreateSubscriptionFee(subscription) && subscriptionFee(key).Success? then [subscriptionFee(key).value] else []
  }

  /**
   * All fees an invocation creates: the subscription fee first when it is due,
   * then one fee per charge in plan order; creation fails exactly when one of
   * the attempts fails.
   */
  function NewFees(subscription: Subscription, key: InvoiceKey, subscriptionFee: SubscriptionFeeService, chargeFee: ChargeFeeService): (r: Result<seq<Fee>, Error>)
    ensures var charges := subscription.plan.charges;
      var due := ShouldCreateSubscriptionFee(subscription);
      (r.Failure? <==> (due && subscriptionFee(key).Failure?)
                       || exists i :: 0 <= i < |charges| && chargeFee(key, charges[i]).Failure?)
      && (r.Success? ==>
            var offset := if due then 1 else 0;
            |r.value| == offset + |charges|
            && (due ==> subscriptionFee(key) == Success(r.value[0]))
            && forall i :: 0 <= i < |charges| ==> chargeFee(key, charges[i]) == Success(r.value[offset + i]))
  {
    var charged := ChargeFees(key, subscription.plan.charges, chargeFee);
    if ShouldCreateSubscriptionFee(subscription) then
      match subscriptionFee(key)
      case Failure(reason) => Failure(FeeCreationFailed(reason))
      case Success(fee) => if charged.Failure? then charged else Success([fee] + charged.value)
    else
      charged
  }

  /** Once the due subscription fee is created, a failing charge fee is the failure of the whole step. */
  lemma NewFeesWhenChargesFail(subscription: Subscription, key: InvoiceKey, subscriptionFee: SubscriptionFeeService, chargeFee: ChargeFeeService)
    requires ShouldCreateSubscriptionFee(subscription) ==> subscriptionFee(key).Success?
    requires ChargeFees(key, subscription.plan.charges, chargeFee).Failure?
    ensures NewFees(subscription, key, subscriptionFee, chargeFee) == ChargeFees(key, subscription.plan.charges, chargeFee)
  {
  }

  /** The whole invocation on a store of invoices: the invoice or the error, and the store afterwards. */
  function CreateOutcome(store: map<InvoiceKey, Invoice>, subscription: Subscription, timestamp: Moment, subscriptionFee: SubscriptionFeeService, chargeFee: ChargeFeeService): (r: (Result<Invoice, Error>, map<InvoiceKey, Invoice>))
    ensures r.0.Failure? ==> r.1 == store
    ensures r.0.Success? ==>
      ResolvePeriod(subscription, timestamp).Success?
      && var key := KeyFor(subscription, ResolvePeriod(subscription, timestamp).value);
      r.1 == store[key := r.0.value] && TotalsConsistent(r.0.value)
  {
    match ResolvePeriod(subscription, timestamp)
    case Failure(e) => (Failure(e), store)
    case Success(period) =>
      var key := KeyFor(subscription, period);
      match NewFees(subscription, key, subscriptionFee, chargeFee)
      case Failure(e) => (Failure(e), store)
      case Success(fees) =>
        var invoice := WithTotals(AddFees(FindOrNew(store, key), fees));
        (Success(invoice), store[key := invoice])
  }

  /**
   * All or nothing: an unsupported interval or any failed fee creation fails
   * the invocation and leaves the store as it was.
   */
  lemma CreateAllOrNothing(store: map<InvoiceKey, Invoice>, subscription: Subscription, timestamp: Moment, subscriptionFee: SubscriptionFeeService, chargeFee: ChargeFeeService)
    ensures CreateOutcome(store, subscription, timestamp, subscriptionFee, chargeFee).0.Failure?
      ==> CreateOutcome(store, subscription, timestamp, subscriptionFee, chargeFee).1 == store
    ensures subscription.plan.interval.OtherInterval?
      ==> CreateOutcome(store, subscription, timestamp, subscriptionFee, chargeFee).0 == Failure(UnsupportedInterval)
    ensures ResolvePeriod(subscription, timestamp).Success? ==>
      var key := KeyFor(subscription, ResolvePeriod(subscription, timestamp).value);
      (CreateOutcome(store, subscription, timestamp, subscriptionFee, chargeFee).0.Failure?
       <==> NewFees(subscription, key, subscriptionFee, chargeFee).Failure?)
  {
  }

  /**
   * Find-or-create: the invoice lives under the period's key; an invoice
   * already there is reused, otherwise exactly one is added, and no other
   * invoice changes.
   */
  lemma CreateFindsOrCreatesOne(store: map<InvoiceKey, Invoice>, subscription: Subscription, timestamp: Moment, subscriptionFee: SubscriptionFeeService, chargeFee: ChargeFeeService, period: Period)
    requires ResolvePeriod(subscription, timestamp) == Success(period)
    requires CreateOutcome(store, subscription, timestamp, subscriptionFee, chargeFee).0.Success?
    ensures var (r, after) := CreateOutcome(store, subscription, timestamp, subscriptionFee, chargeFee);
      var key := KeyFor(subscription, period);
      after.Keys == store.Keys + {key}
      && |after.Keys| == |store.Keys| + (if key in store then 0 else 1)
      && r.value == after[key]
      && (forall k :: k in store && k != key ==> after[k] == store[k])
  {
    var key := KeyFor(subscription, period);
    if key in store {
      assert store.Keys + {key} == store.Keys;
    }
  }

  /**
   * Totals: the invoice carries its earlier fees followed by the new ones, and
   * its amounts are the earlier amounts plus the sums over the new fees.
   */
  lemma CreateTotals(store: map<InvoiceKey, Invoice>, subscription: Subscription, timestamp: Moment, subscriptionFee: SubscriptionFeeService, chargeFee: ChargeFeeService, period: Period, fees: seq<Fee>)
    requires StoreValid(store)
    requires ResolvePeriod(subscription, timestamp) == Success(period)
    requires NewFees(subscription, KeyFor(subscription, period), subscriptionFee, chargeFee) == Success(fees)
    ensures var invoice := CreateOutcome(store, subscription, timestamp, subscriptionFee, chargeFee).0.value;
      var key := KeyFor(subscription, period);
      var earlier := FindOrNew(store, key);
      invoice.key == key
      && invoice.fees == earlier.fees + fees
      && invoice.amountCents == earlier.amountCents + SumAmount(fees)
      && invoice.vatAmountCents == earlier.vatAmountCents + SumVat(fees)
      && invoice.totalAmountCents == invoice.amountCents + invoice.vatAmountCents
  {
    var key := KeyFor(subscription, period);
    SumsAppend(FindOrNew(store, key).fees, fees);
  }

  /** Every invocation keeps every stored invoice under its key and its totals consistent. */
  lemma CreatePreservesValid(store: map<InvoiceKey, Invoice>, subscription: Subscription, timestamp: Moment, subscriptionFee: SubscriptionFeeService, chargeFee: ChargeFeeService)
    requires StoreValid(store)
    ensures StoreValid(CreateOutcome(store, subscription, timestamp, subscriptionFee, chargeFee).1)
  {
  }

  /** Running the same invocation again never adds a second invoice for the period. */
  lemma CreateTwiceAddsNoInvoice(store: map<InvoiceKey, Invoice>, subscription: Subscription, timestamp: Moment, subscriptionFee: SubscriptionFeeService, chargeFee: ChargeFeeService)
    ensures var once := CreateOutcome(store, subscription, timestamp, subscriptionFee, chargeFee).1;
      CreateOutcome(once, subscription, timestamp, subscriptionFee, chargeFee).1.Keys == once.Keys
  {
  }

  lemma OutcomeWhenFeesFail(store: map<InvoiceKey, Invoice>, subscription: Subscription, timestamp: Moment, subscriptionFee: SubscriptionFeeService, chargeFee: ChargeFeeService, period: Period, e: Error)
    requires ResolvePeriod(subscription, timestamp) == Success(period)
    requires NewFees(subscription, KeyFor(subscription, period), subscriptionFee, chargeFee) == Failure(e)
    ensures CreateOutcome(store, subscription, timestamp, subscriptionFee, chargeFee) == (Failure(e), store)
  {
  }

  lemma OutcomeWhenFeesCreated(store: map<InvoiceKey, Invoice>, subscription: Subscription, timestamp: Moment, subscriptionFee: SubscriptionFeeService, chargeFee: ChargeFeeService, period: Period, fees: seq<Fee>)
    requires ResolvePeriod(subscription, timestamp) == Success(period)
    requires NewFees(subscription, KeyFor(subscription, period), subscriptionFee, chargeFee) == Success(fees)
    ensures var key := KeyFor(subscription, period);
      var invoice := WithTotals(AddFees(FindOrNew(store, key), fees));
      CreateOutcome(store, subscription, timestamp, subscriptionFee, chargeFee) == (Success(invoice), store[key := invoice])
  {
  }

  /** The persisted invoices, keyed by subscription and period dates. */
  class InvoiceStore
  {
    var invoices: map<InvoiceKey, Invoice>

    ghost predicate Valid()
      reads this
    {
      StoreValid(invoices)
    }

    constructor ()
      ensures Valid() && invoices == map[]
    {
      invoices := map[];
    }

    /** `Invoice.find_or_create_by!` on the key. */
    method FindOrCreateBy(key: InvoiceKey) returns (invoice: Invoice)
      modifies this
      ensures invoice == FindOrNew(old(invoices), key)
      ensures invoices == old(invoices)[key := invoice]
    {
      if key in invoices {
        invoice := invoices[key];
      } else {
        invoice := NewInvoice(key);
      }
      invoices := invoices[key := invoice];
    }

    /** `create_subscription_fee`: asks the collaborator for the fee and records it under the invoice. */
    method CreateSubscriptionFee(key: InvoiceKey, subscriptionFee: SubscriptionFeeService) returns (r: Result<Fee, Error>)
      requires key in invoices
      modifies this
      ensures subscriptionFee(key).Failure? ==> r == Failure(FeeCreationFailed(subscriptionFee(key).error))
      ensures subscriptionFee(key).Success? ==> r == Success(subscriptionFee(key).value)
      ensures r.Failure? ==> invoices == old(invoices)
      ensures r.Success? ==> invoices == old(invoices)[key := AddFees(old(invoices)[key], [r.value])]
    {
      var created := subscriptionFee(key);
      if created.Failure? {
        return Failure(FeeCreationFailed(created.error));
      }
      invoices := invoices[key := AddFees(invoices[key], [created.value])];
      r := Success(created.value);
    }

    /** `create_charges_fees`: one fee per plan charge, in plan order, stopping at the first failure. */
    method CreateChargesFees(key: InvoiceKey, charges: seq<Charge>, chargeFee: ChargeFeeService) returns (r: Result<seq<Fee>, Error>)
      requires key in invoices
      modifies this
      ensures r == ChargeFees(key, charges, chargeFee)
      ensures r.Success? ==> invoices == old(invoices)[key := AddFees(old(invoices)[key], r.value)]
      ensures r.Failure? ==>
        exists i :: 0 <= i < |charges| && FirstFailure(key, charges, chargeFee, i)
          && ChargeFees(key, charges[..i], chargeFee).Success?
          && invoices == old(invoices)[key := AddFees(old(invoices)[key], ChargeFees(key, charges[..i], chargeFee).value)]
    {
      var added: seq<Fee> := [];
      var i := 0;
      AddFeesInSteps(invoices[key], [], []);
      while i < |charges|
        invariant 0 <= i <= |charges|
        invariant ChargeFees(key, charges[..i], chargeFee) == Success(added)
        invariant invoices == old(invoices)[key := AddFees(old(invoices)[key], added)]
      {
        assert charges[..i + 1][..i] == charges[..i];
        var created := chargeFee(key, charges[i]);
        if created.Failure? {
          PrefixFailurePropagates(key, charges, chargeFee, i + 1);
          assert FirstFailure(key, charges, chargeFee, i);
          return Failure(FeeCreationFailed(created.error));
        }
        StoreAddsInSteps(old(invoices), key, added, [created.value], invoices);
        invoices := invoices[key := AddFees(invoices[key], [created.value])];
        added := added + [created.value];
        i := i + 1;
      }
      assert charges[..i] == charges;
      r := Success(added);
    }

    /** `compute_amounts`: sums the invoice's fees into its totals and saves it. */
    method ComputeAmounts(key: InvoiceKey)
      requires key in invoices
      modifies this
      ensures invoices == old(invoices)[key := WithTotals(old(invoices)[key])]
    {
      var invoice := invoices[key];
      var amount, vat := 0, 0;
      for i := 0 to |invoice.fees|
        invariant amount == SumAmount(invoice.fees[..i])
        invariant vat == SumVat(invoice.fees[..i])
      {
        assert invoice.fees[..i + 1][..i] == invoice.fees[..i];
        amount := amount + invoice.fees[i].amountCents;
        vat := vat + invoice.fees[i].vatAmountCents;
      }
      assert invoice.fees[..|invoice.fees|] == invoice.fees;
      invoice := invoice.(amountCents := amount, vatAmountCents := vat, totalAmountCents := amount + vat);
      invoices := invoices[key := invoice];
    }

    /**
     * The two fee-creation steps of `create`: the subscription fee when due,
     * then the charges' fees; stops at the first failure.
     */
    method CreateFees(subscription: Subscription, key: InvoiceKey, subscriptionFee: SubscriptionFeeService, chargeFee: ChargeFeeService) returns (r: Result<seq<Fee>, Error>)
      requires key in invoices
      modifies this
      ensures r == NewFees(subscription, key, subscriptionFee, chargeFee)
      ensures r.Success? ==> invoices == old(invoices)[key := AddFees(old(invoices)[key], r.value)]
      ensures r.Failure? && ShouldCreateSubscriptionFee(subscription) && subscriptionFee(key).Failure?
        ==> invoices == old(invoices)
      ensures r.Failure? && !(ShouldCreateSubscriptionFee(subscription) && subscriptionFee(key).Failure?) ==>
        var charges := subscription.plan.charges;
        exists i :: 0 <= i < |charges| && FirstFailure(key, charges, chargeFee, i)
          && ChargeFees(key, charges[..i], chargeFee).Success?
          && invoices == old(invoices)[key := AddFees(old(invoices)[key],
               DueSubscriptionFees(subscription, key, subscriptionFee) + ChargeFees(key, charges[..i], chargeFee).value)]
    {
      var subscriptionFees: seq<Fee> := [];
      if ShouldCreateSubscriptionFee(subscription) {
        var created := CreateSubscriptionFee(key, subscriptionFee);
        if created.Failure? {
          return Failure(created.error);
        }
        subscriptionFees := [created.value];
      } else {
        AddFeesInSteps(old(invoices)[key], [], []);
      }
      assert invoices == old(invoices)[key := AddFees(old(invoices)[key], subscriptionFees)];
      assert subscriptionFees == DueSubscriptionFees(subscription, key, subscriptionFee);
      ghost var afterSubscriptionFee := invoices;
      var charged := CreateChargesFees(key, subscription.plan.charges, chargeFee);
      if charged.Failure? {
        var charges := subscription.plan.charges;
        ghost var i :| 0 <= i < |charges| && FirstFailure(key, charges, chargeFee, i)
          && ChargeFees(key, charges[..i], chargeFee).Success?
          && invoices == afterSubscriptionFee[key := AddFees(afterSubscriptionFee[key], ChargeFees(key, charges[..i], chargeFee).value)];
        StoreAddsInSteps(old(invoices), key, subscriptionFees, ChargeFees(key, charges[..i], chargeFee).value, afterSubscriptionFee);
        NewFeesWhenChargesFail(subscription, key, subscriptionFee, chargeFee);
        return Failure(charged.error);
      }
      StoreAddsInSteps(old(invoices), key, subscriptionFees, charged.value, afterSubscriptionFee);
      assert [] + charged.value == charged.value;
      r := Success(subscriptionFees + charged.value);
    }

    /**
     * `create`: resolves the period, then inside one transaction finds or
     * creates the invoice, creates its fees and computes its totals; on any
     * failure the store is rolled back to its state at the start.
     */
    method Create(subscription: Subscription, timestamp: Moment, subscriptionFee: SubscriptionFeeService, chargeFee: ChargeFeeService) returns (r: Result<Invoice, Error>)
      requires Valid()
      modifies this
      ensures Valid()
      ensures (r, invoices) == CreateOutcome(old(invoices), subscription, timestamp, subscriptionFee, chargeFee)
    {
      var period := ResolvePeriod(subscription, timestamp);
      if period.Failure? {
        return Failure(period.error);
      }
      var key := KeyFor(subscription, period.value);
      var snapshot := invoices;
      var invoice := FindOrCreateBy(key);
      var fees := CreateFees(subscription, key, subscriptionFee, chargeFee);
      if fees.Failure? {
        invoices := snapshot;
        OutcomeWhenFeesFail(snapshot, subscription, timestamp, subscriptionFee, chargeFee, period.value, fees.error);
        return Failure(fees.error);
      }
      assert invoices == snapshot[key := AddFees(invoice, fees.value)];
      ComputeAmounts(key);
      assert invoices == snapshot[key := WithTotals(AddFees(FindOrNew(snapshot, key), fees.value))];
      r := Success(invoices[key]);
      OutcomeWhenFeesCreated(snapshot, subscription, timestamp, subscriptionFee, chargeFee, period.value, fees.value);
      CreatePreservesValid(snapshot, subscription, timestamp, subscriptionFee, chargeFee);
    }
  }
}
