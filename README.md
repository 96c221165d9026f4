# Subscription invoicing core: graduated-percentage pricing and invoice creation

This project models two pieces of a billing platform's invoicing core and proves properties about them.

- **The graduated-percentage charge model** (`Charges::ChargeModels::GraduatedPercentageService`). It prices metered usage (`units`, plus the event `count`) against an ordered list of pricing tiers. Each tier has a lower and an upper bound, a flat fee, a fixed fee per event and a percentage rate. The walk over the tiers adds each visited tier's flat fee when there is any usage. It adds the tier's rate applied to the units the tier bills. It stops at the first tier that is open-ended or whose upper bound reaches the usage, and there it adds `count` times that tier's fixed fee. The per-tier unit count is reproduced exactly, including its boundary arithmetic: a tier that starts at 0 counts from unit 1, and a later tier counts its lower bound as well, so every crossed boundary unit is billed twice (`BoundaryUnitsCountedTwice`).
- **Invoice creation** (`Invoices::CreateService`). It covers:
  - the billing period (`from_date`, `to_date`, `issuing_date`), derived from the reference moment, the plan interval, the pay-in-advance flag and the subscription's start;
  - the rule for when the subscription fee is due;
  - find-or-create of the invoice keyed by subscription and the three dates;
  - fee creation: the subscription fee, then one fee per plan charge in plan order;
  - the invoice totals;
  - all-or-nothing behaviour inside one transaction.

Files:

- `wrappers.dfy` — `Option` and `Result`.
- `graduated_percentage.dfy` — module `GraduatedPercentage`. It holds the tier-walking reduction as a recursive function (`Amount`) and the loop with early exit (`ComputeAmount`) proved equal to it. It also holds a closed form of the amount and the properties derived from it.
- `calendar.dfy` — module `Calendar`. Gregorian dates, with the date arithmetic the period relies on:
  - months back, with the day clamped to the end of a shorter month (ActiveSupport's `- 1.month` and `- 1.year`);
  - the previous day;
  - comparing a date with a moment, where a date stands for its midnight, as Ruby does when a `Date` meets a time.
- `invoices.dfy` — module `Invoices`. It holds the period resolver and the subscription-fee gate as functions. It holds the invoice store as the class `InvoiceStore`. That class's methods `Create`, `FindOrCreateBy`, `CreateSubscriptionFee`, `CreateChargesFees` and `ComputeAmounts` follow the service's methods. `Create` is proved against the specification function `CreateOutcome`, and the lemmas about `CreateOutcome` state the promises of the service.

Modelling decisions:

- Usage, rates and money in the charge model are exact `real`s. Fee amounts in cents are `int`s.
- Dates are `Calendar.Date` values (year, month, day). The reference timestamp and `started_at` are `Calendar.Moment`s: a date and a second of the day, in one fixed time zone.
- The persisted invoices are a `map` from `InvoiceKey` (subscription id, `from_date`, `to_date`, `issuing_date`) to `Invoice`. An invoice row holds its fees and its three totals. The map makes "at most one invoice per key" structural. `Create` keeps the invariant that every stored invoice's totals agree with its fees (`InvoiceStore.Valid`).
- The transaction is modelled by saving the map at its start and restoring it on every failure path.
- The two fee-creation services are parameters. Each one is a function from the invoice's key (and, for charge fees, the charge) to either a `Fee` or a failure reason.
- `pay_in_arrear?` is taken to be the negation of `pay_in_advance` (`Plan.PayInArrear`). The plan model is not part of this model.

Behaviours of the code that the model keeps as written:

- Usage above every finite tier bound is not rejected: the reduction runs over every tier and adds no fixed fee (`NoTerminatingTier`).
- The clamp compares the computed `Date` with the `started_at` moment, then assigns `started_at.to_date`; `ClampToStart` proves the result is the later of the two days.
- The unreachable second `return` of `compute_range_units` (line 43) is kept in `RangeUnits` as a branch that carries `assert false`. The verifier thereby proves that it is dead.

## Model

| member | source | states |
|---|---|---|
| `GraduatedPercentage.RangeUnits` | app/services/charges/charge_models/graduated_percentage_service.rb:36-48 | A tier bills the inclusive span from its first billable unit (its lower bound, or 1 when the bound is 0) to the highest unit reached in it (its upper bound, or the usage when that is lower); the duplicated guard of line 43 is proved unreachable |
| `GraduatedPercentage.TerminatingIndex` | app/services/charges/charge_models/graduated_percentage_service.rb:25-30 | The walk stops at the first tier that is open-ended or whose upper bound is at least the usage; every earlier tier does not stop it; when none stops it the index is the number of tiers |
| `GraduatedPercentage.Amount` | app/services/charges/charge_models/graduated_percentage_service.rb:13-33 | The reduction over the tiers with its early exit equals the closed form: the flat fees of the visited tiers (only with non-zero usage), plus each visited tier's rate on its units, plus `count` times the terminating tier's fixed fee and no other fixed fee |
| `GraduatedPercentage.ComputeAmount` | app/services/charges/charge_models/graduated_percentage_service.rb:12-34 | The loop with early exit over the tiers returns exactly the reduction `Amount` |
| `GraduatedPercentage.ZeroUsageAddsNoFlatFee` | app/services/charges/charge_models/graduated_percentage_service.rb:18-19 | With zero usage no flat amount is added; only the rates and the terminating tier's fixed fee contribute |
| `GraduatedPercentage.UsageAddsEachVisitedFlatFee` | app/services/charges/charge_models/graduated_percentage_service.rb:18-19 | With non-zero usage every visited tier's flat amount, the terminating tier's included, is added exactly once |
| `GraduatedPercentage.NoTerminatingTier` | app/services/charges/charge_models/graduated_percentage_service.rb:13-33 | When no tier stops the walk, the amount is the flat and rate contributions of all tiers and no fixed fee |
| `GraduatedPercentage.LaterTiersIgnored` | app/services/charges/charge_models/graduated_percentage_service.rb:25-30 | Appending any tiers after a terminating tier does not change the amount |
| `GraduatedPercentage.FreeTiersCostNothing` | app/services/charges/charge_models/graduated_percentage_service.rb:13-33 | Tiers with zero flat amount, fixed amount and rate give an amount of 0 |
| `GraduatedPercentage.BoundaryUnitsCountedTwice` | app/services/charges/charge_models/graduated_percentage_service.rb:37-47 | For contiguous tiers starting at 0 and ending open-ended, the units billed over the visited tiers are the usage plus one for every tier boundary crossed |
| `GraduatedPercentage.WorkedExample` | app/services/charges/charge_models/graduated_percentage_service.rb:22-23 | Tiers 0..10 at 5% and 10.. at 3% with 15 units and one event bill 10 and 6 units and cost 0.68 |
| `Calendar.MonthsEarlier` | app/services/invoices/create_service.rb:43-48 | Going back k months lands exactly k months earlier, on the same day of the month or on the last day of a shorter month |
| `Calendar.MonthsEarlierIsBefore` | app/services/invoices/create_service.rb:43-48 | Going back one or more months gives a strictly earlier date |
| `Calendar.YearEarlier` | app/services/invoices/create_service.rb:46-47 | One year back is the same month of the previous year, on the same day except that 29 February becomes 28 February |
| `Calendar.PreviousDay` | app/services/invoices/create_service.rb:63 | The previous day is strictly earlier than the day |
| `Calendar.PreviousDayIsImmediate` | app/services/invoices/create_service.rb:63 | No date lies strictly between the previous day and the day |
| `Calendar.BeforeMeansAtMostPreviousDay` | app/services/invoices/create_service.rb:63 | Every date earlier than a day is no later than that day's previous day |
| `Invoices.ClampToStart` | app/services/invoices/create_service.rb:52-55 | Comparing the date's midnight with the `started_at` moment and raising it to the start day yields the later of the date and the start day |
| `Invoices.FromDate` | app/services/invoices/create_service.rb:40-58 | `from_date` is the later of the start day and the reference day one month (monthly) or one year (yearly) back; any other interval fails with an unsupported-interval error and yields no date |
| `Invoices.ToDate` | app/services/invoices/create_service.rb:60-71 | `to_date` is the later of the start day and the day before the reference day, independently of the `from_date` clamp |
| `Invoices.IssuingDate` | app/services/invoices/create_service.rb:73-83 | The invoice is issued on the reference day for a pay-in-advance plan and on `to_date` otherwise |
| `Invoices.ResolvePeriod` | app/services/invoices/create_service.rb:14-19 | The period fails exactly for an unsupported interval; otherwise it is the three resolved dates |
| `Invoices.PeriodIsOrdered` | app/services/invoices/create_service.rb:40-71 | A resolved `from_date` is never after `to_date`, and neither precedes the start day |
| `Invoices.FirstPayInAdvancePeriod` | app/services/invoices/create_service.rb:65-68 | A pay-in-advance subscription billed on its start day gets a one-day period on that day, issued that day |
| `Invoices.ShouldCreateSubscriptionFee` | app/services/invoices/create_service.rb:111-116 | The subscription fee is due for an active subscription, never for a pending one, and for a terminated one exactly when the plan is pay-in-arrear |
| `Invoices.WithTotals` | app/services/invoices/create_service.rb:85-93 | The recomputed invoice keeps its key and fees, its amount and VAT are the sums over its fees, and its total is their sum |
| `Invoices.SumsAppend` | app/services/invoices/create_service.rb:88-90 | The amount and VAT sums over two fee lists together are the sums over each list added |
| `Invoices.ChargeFees` | app/services/invoices/create_service.rb:104-109 | One fee per plan charge, in plan order; the whole step fails exactly when some charge's fee fails, with the error of the first failing charge |
| `Invoices.NewFees` | app/services/invoices/create_service.rb:21-22 | The subscription fee, when due, comes first, then one fee per charge in plan order; fee creation fails exactly when one attempt fails |
| `Invoices.CreateOutcome` | app/services/invoices/create_service.rb:12-32 | A failed invocation leaves the stored invoices as they were; a successful one has a resolved period and stores the returned invoice, with totals consistent with its fees, under that period's key and changes nothing else |
| `Invoices.CreateAllOrNothing` | app/services/invoices/create_service.rb:12-32 | An unsupported interval or any failed fee creation fails the whole invocation and leaves the stored invoices unchanged |
| `Invoices.CreateFindsOrCreatesOne` | app/services/invoices/create_service.rb:14-19 | After success the invoice is stored under the period's key; an existing invoice there is reused and none is added, otherwise exactly one is added, and no other invoice changes |
| `Invoices.CreateTotals` | app/services/invoices/create_service.rb:85-97 | The invoice keeps its earlier fees followed by the new ones; its amount and VAT are the earlier totals plus the sums over the new fees, and the total is amount plus VAT |
| `Invoices.CreatePreservesValid` | app/services/invoices/create_service.rb:85-97 | Every stored invoice stays under its key with totals equal to the sums of its fees |
| `Invoices.CreateTwiceAddsNoInvoice` | app/services/invoices/create_service.rb:14-19 | Running the same invocation again adds no second invoice |
| `Invoices.InvoiceStore.FindOrCreateBy` | app/services/invoices/create_service.rb:14-19 | Returns the stored invoice under the key or a new empty one, which is then stored under the key |
| `Invoices.InvoiceStore.CreateSubscriptionFee` | app/services/invoices/create_service.rb:99-102 | On success the fee is appended to the invoice; on failure the store is unchanged and the failure is returned |
| `Invoices.InvoiceStore.CreateChargesFees` | app/services/invoices/create_service.rb:104-109 | The loop over the plan's charges returns `ChargeFees`; on success the invoice carries the created fees in plan order, and on failure it carries the fees of the charges before the first failing one, which the enclosing transaction then discards |
| `Invoices.InvoiceStore.CreateFees` | app/services/invoices/create_service.rb:21-22 | Creates the subscription fee when due and then the charges' fees, returning `NewFees`; a failed subscription fee leaves the store unchanged, and a failed charge fee leaves the due subscription fee and the fees of the earlier charges on the invoice until the transaction is rolled back |
| `Invoices.InvoiceStore.ComputeAmounts` | app/services/invoices/create_service.rb:85-97 | The invoice's amount and VAT become the sums over its fees and the total their sum; nothing else changes |
| `Invoices.InvoiceStore.Create` | app/services/invoices/create_service.rb:12-32 | The result and the new store are exactly `CreateOutcome` of the old store, and the totals invariant of every stored invoice is kept |

## Left out

- Time zones and `Time.zone.at`: the timestamp and `started_at` are moments in one fixed zone, and daylight-saving shifts are not modelled. Comparing a date with a moment treats the date as its midnight in that same zone. Ruby compares a `Date` with a time through `Date#to_datetime`, which is midnight at UTC offset 0, so this reading matches the code only when the application time zone is UTC.
- Floating-point rounding of `fdiv(100)`: the division is exact over reals.
- Parsing of the tier fields with `BigDecimal(...)`, and its failure on malformed strings.
- The missing `graduated_percentage_ranges` case (`nil` ranges).
- The database transaction, the race handling of `find_or_create_by!` and the database's uniqueness enforcement: the store is a single-threaded map, and the transaction is a snapshot restored on failure.
- Validation failures of `save!` itself (`ActiveRecord::RecordInvalid` from the invoice). The invoice's validations are not part of this model, so saving always succeeds.
- The internals of the subscription-fee and charge-fee services: they are abstract functions returning a fee or a failure. They see the invoice's key and, for charge fees, the charge, but not the stored fees.
- CreateTwiceAddsNoInvoice: proves idempotence of the invoice count only, not of the totals, because whether the fee services guard against billing a period twice is not shown, so the model counts every success as one new fee.
- ChargeFees: a failed fee is taken to abort the invocation, because the code calls `result.throw_error` on the service's own result (create_service.rb:101 and 107) and the base service that defines it is not part of this model. The failure reason carried in the error is the model's choice: the code does not pass the fee service's error on.
- NewFees: the same assumption about `throw_error`, and the same caveat about the carried failure reason, hold for the subscription fee.
- Currency assignment on the invoice.
- The result object, `throw_error` and `fail_with_validations!`: a failure is an `Error` value.
- Memoization of the three dates: each date is a function computed once per call.
- The ClickHouse event table definitions: they are schema with no behaviour.
