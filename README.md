# Billing engine of a billiard point-of-sale backend

This project models the billing core of a billiard-hall POS backend and proves
properties of that model in Dafny. The core has three parts.

- **Time and billing arithmetic.** `HH:MM` parsing, time windows that may run
  past midnight, the choice of an hourly rate (the table's own rate, else the
  first matching day/time band of its type, else the type's base rate), the
  active rounding setting, raw and billed minutes (grace period, then a step
  rounded up, down or to nearest), and the play amount in whole dong.
- **The session record and its lifecycle.** The session's status set, line
  items and frozen snapshots; the `amount`, `serviceAmount` and `isOpen`
  virtuals; the model-level minute computation and close preview; and the
  service operations over an in-memory store of tables, products, sessions
  and bills: check-in, adding, re-quantifying and removing items, the close
  preview and checkout. The partial unique index "one open session per table"
  is the store's `openByTable` map, kept in step with the sessions by the
  store invariant.
- **The promotion engine.** Activity windows of a rule, product and category
  eligibility with combos, the discount of one rule, the three "remaining"
  pools (play, service, bill), and the ordered walk over the rules that stops
  after the first non-stackable rule giving a discount; plus the context the
  engine is fed from a session.

Modules, one per concern: `Common` (Option, Result, min/max), `Money` (JS
`Math.round`/`Math.ceil` of a quotient as exact integer division, `clamp`,
`roundVND`), `TimeRules` (`HH:MM` text, windows, days and minutes of an
instant), `BillingRules` (rate, settings, minutes, play amount), `SessionModel`
(the session document), `Promotions` (the promotion service) and
`SessionLifecycle` (the billing service's session operations as a `Store`
class).

Conventions of the model:

- Money is a Dafny `int`. The dong has no minor unit, so `Math.round(a/b)` becomes
  exact round-half-up division (`RoundDiv`). The only fractional amounts are the
  percentage discounts of `previewClose`; those are exact `real`s.
- An instant is a whole number of local milliseconds since 1970-01-01 00:00 on the
  hall's clock. Its weekday is `(day + 4) % 7`, since that date was a Thursday. Its
  minute of the day and the last millisecond of its date follow from the same number.
- A JavaScript field that may be missing is an `Option` where the code tests it
  with `??`, `!= null` or truthiness. Where the code writes `x || d` on a number or
  string, 0 or `""` stands for the missing value.
- `Number(text)` is read as: `""` is 0, a run of decimal digits is its value, and
  anything else is NaN (`None`).
- The clock (`new Date()`), the table-type lookup and the catalogue's category map
  are parameters. So are the loaded promotion list and the setting documents.

Where the code and its design commentary disagree, the model follows the code:

- The stored rounding snapshot has no `roundingMode` field
  (models/session.model.js:27-33). A snapshot read back therefore always rounds up,
  even when the setting asks for `floor` or `round` (`SessionModel.RuleOf`,
  `SessionModel.StoredRuleRoundsUp`, `SessionModel.FloorSettingIsBilledUp`).
- The pricing snapshot accepts only the source `table`. A table's own rate is
  required to be at least 0, so check-in always takes the table's rate and never
  consults the type's bands. The store invariant carries this.
- Raw minutes are rounded up to a whole minute before `floor` or `round` acts on them.

## Model

| member | source | states |
|---|---|---|
| Money.Clamp | services/promotion.service.js:28-30 | the result lies in [lo, hi] when lo ≤ hi; a value already inside is kept; values above hi give max(lo, hi) and below lo give lo |
| Money.RoundVnd | services/promotion.service.js:31-33 | a whole amount is kept when it is at least 0, a negative one becomes 0 |
| Money.RoundDiv | services/billing.service.js:128 | `Math.round(n/d)`: the result r is the integer nearest n/d with halves rounded up, 2dr − d ≤ 2n < 2dr + d |
| Money.CeilDiv | services/billing.service.js:107 | `Math.ceil(n/d)`: the least r with n ≤ d·r |
| Money.RoundReal | services/billing.service.js:263 | `Math.round(x)` on an exact rational: r − ½ ≤ x < r + ½ |
| Money.RoundDivMonotone | services/billing.service.js:126-129 | rounding a quotient to nearest never decreases as the numerator grows |
| Money.PercentShare | services/promotion.service.js:203-205 | `Math.round(n·p/100)`: the integer r nearest p percent of n (halves up), 200r − 100 ≤ 2np < 200r + 100; for 0 ≤ p ≤ 100 and n ≥ 0 it lies in [0, n] |
| Money.RoundedShareAtMostWhole | services/promotion.service.js:203-205 | a rounded percentage (0..100) of a non-negative base lies between 0 and the base |
| TimeRules.HhmmToMinutes | services/billing.service.js:20-23 | `hhmmToMinutes`: a parsed time is ≥ 0; a colon-free digit string reads as that many whole hours, any other colon-free text as NaN; `HhmmRoundTrip` shows it inverts `HhmmString` |
| TimeRules.HhmmString | services/billing.service.js:15-19 | the zero-padded `HH:MM` text of a minute of the day is five characters with the colon in the middle |
| TimeRules.HhmmRoundTrip | services/billing.service.js:15-23 | parsing the `HH:MM` text of a minute of the day gives that minute back |
| TimeRules.InTimeRange | services/billing.service.js:24-32 | a malformed bound (NaN) admits every time; with valid bounds a malformed current time is outside |
| TimeRules.InTimeRangeAt | services/billing.service.js:24-32 | with valid bounds, a time is in range exactly when from ≤ cur ≤ to (from ≤ to), or cur ≥ from or cur ≤ to (overnight window) |
| TimeRules.OvernightBounds | services/billing.service.js:20-23 | the bounds "22:00" and "03:00" parse to 1320 and 180 minutes |
| TimeRules.OvernightWindowExample | services/billing.service.js:29-31 | the overnight window 22:00–03:00 holds 23:30 and 02:00 but not 12:00 |
| TimeRules.Weekday | services/billing.service.js:74 | the weekday of an instant is in 0..6 |
| TimeRules.MinuteOfDay | services/billing.service.js:15-19 | the minute of the day is in 0..1439 and is the minute of the day's start the instant falls in |
| TimeRules.EndOfDay | services/promotion.service.js:81-83 | the last millisecond of an instant's date is on that date, not before the instant, and the next millisecond starts the next date |
| TimeRules.AfterEndOfDay | services/promotion.service.js:80-84 | an instant is after the end of a date exactly when its own date is later |
| BillingRules.FindDayRate | services/billing.service.js:76-80 | the first band whose day set (empty = any day) and window (missing bound = any time) match, or none when no band matches |
| BillingRules.ResolveRatePerHour | services/billing.service.js:69-83 | a table rate ≥ 0 wins with source `table` whatever the bands say; otherwise the source is `type` |
| BillingRules.RateFromFirstMatchingBand | services/billing.service.js:75-81 | without a usable table rate, the first matching band's rate is returned with source `type` |
| BillingRules.RateFallsBackToBase | services/billing.service.js:82 | without a usable table rate or matching band, the type's base rate (0 without a type) is returned |
| BillingRules.BandTimeWindow | services/billing.service.js:76-79 | a band with valid bounds matches a time exactly when its day set admits the weekday and its window holds the minute |
| BillingRules.GetActiveSetting | services/billing.service.js:37-57 | the branch's setting when a non-empty branch id has one, else the global one, else the built-in default (step 5, mode ceil, grace 0); an empty branch id counts as none |
| BillingRules.BuildBillingRuleSnapshot | services/billing.service.js:86-91 | step defaults to 5 and grace to 0 only when missing (0 is kept); an empty mode becomes ceil |
| BillingRules.RawMinutes | services/billing.service.js:107 | raw minutes are ≥ 0, 0 exactly when no time elapsed, else the least whole minutes covering the elapsed milliseconds |
| BillingRules.ComputeMinutes | services/billing.service.js:102-123 | no start gives 0/0; nothing is billed within the grace period; a step ≤ 1 bills the raw minutes; else the bill is a multiple of the step, within one step above raw (ceil, any unknown mode), below raw (floor), or within half a step (round) |
| BillingRules.FloorToStep | services/billing.service.js:117 | flooring to a step gives a non-negative multiple of it more than one step below raw at most |
| BillingRules.RoundToStep | services/billing.service.js:118 | rounding to a step gives a non-negative multiple of it within half a step of raw |
| BillingRules.CeilToStep | services/billing.service.js:119 | rounding up to a step gives a multiple of it at least raw and less than raw plus a step |
| BillingRules.ComputePlayAmount | services/billing.service.js:126-129 | the amount is ≥ 0 and is rate/60 × minutes rounded to the nearest dong |
| BillingRules.PlayAmountMonotone | services/billing.service.js:126-129 | for a fixed non-negative rate the amount never decreases as the billed minutes grow |
| BillingRules.PlayAmountWholeHours | services/billing.service.js:126-129 | whole hours cost exactly rate × hours |
| SessionModel.PersistRule | models/session.model.js:27-33 | a stored rule snapshot keeps step and grace |
| SessionModel.RuleOf | models/session.model.js:27-33 | a stored snapshot read back has no mode, so it rounds up, and storing it again gives the same snapshot |
| SessionModel.StoredRuleRoundsUp | services/billing.service.js:242-246 | a snapshot taken from any setting and read back computes minutes exactly as mode ceil would |
| SessionModel.FloorSettingIsBilledUp | services/billing.service.js:115-120 | a floor setting of step 15 would bill 47 minutes as 45; the stored snapshot bills them as 60 |
| SessionModel.IsOpen | models/session.model.js:102-104 | the `isOpen` virtual, defined as status open with no end time; `CheckInSession` ensures the new session is open and `ClosedSession` that a checked-out one is not |
| SessionModel.ItemAmount | models/session.model.js:22-24 | the item `amount` virtual: non-negative for a non-negative price and quantity, 0 when either is 0; `ItemAmountBump` gives its growth with the quantity |
| SessionModel.ServiceAmount | models/session.model.js:97-99 | the `serviceAmount` virtual: 0 for no items, the line's amount for one item; the four `ServiceAmount…` lemmas give its laws under append, update, delete and schema bounds |
| SessionModel.ServiceAmountAppend | models/session.model.js:97-99 | the service amount of two baskets joined is the sum of their amounts |
| SessionModel.ServiceAmountUpdate | models/session.model.js:97-99 | changing one line changes the service amount by that line's difference |
| SessionModel.ServiceAmountDelete | models/session.model.js:97-99 | deleting one line lowers the service amount by its amount |
| SessionModel.ServiceAmountNonNegative | models/session.model.js:97-99 | on items within the schema (price ≥ 0, qty ≥ 1) the service amount is ≥ 0 |
| SessionModel.ModelComputeMinutes | models/session.model.js:107-120 | the stored end time, else `now`, is used; nothing is billed within grace; a step > 1 rounds raw up to a multiple; the result equals the service computation under the stored rule |
| SessionModel.ModelComputePlayAmount | models/session.model.js:123-128 | returns the billed minutes with the service's play amount for the snapshot rate |
| SessionModel.ClosePreview | models/session.model.js:131-137 | a copy with endTime = endAt and durationMinutes = the billed minutes, equal to the session in every other field, with the model's minutes |
| SessionModel.ClosePreviewIsStable | models/session.model.js:131-137 | the previewed copy of an open session gives the previewed minutes at any later time |
| Promotions.PromoIsActiveAt | services/promotion.service.js:75-100 | `promoIsActiveAt`: a rule is never active before its validFrom, and a rule with no dates, weekdays or ranges is always active; `PromoIsActiveAtMeaning` gives the full iff |
| Promotions.IncludesId | services/promotion.service.js:102-106 | `includesObjectId`: a missing or empty id is in no list, and an empty list includes no id |
| Promotions.IncludesIdExtend | services/promotion.service.js:102-106 | an included id stays included when the list grows on either side |
| Promotions.UntypedContextFailsTypedRules | services/promotion.service.js:102-106 | with no table type in the context, a `time` or `bill` rule listing table types fails its gate and gives no line |
| Promotions.PromoIsActiveAtMeaning | services/promotion.service.js:75-100 | a rule is active exactly when not before validFrom, on or before validTo's date, on a listed weekday (if any) and inside a listed range with both bounds (if any), overnight ranges included |
| Promotions.NormalizeItem | services/promotion.service.js:146-170 | keeps qty, and the product id unless it is missing or empty; a given non-empty category wins, else the catalogue's non-empty category of a given product, else none; the price is the given one, or the snapshot when it is 0 or missing; the amount is the given one or price × qty, rounded and ≥ 0 |
| Promotions.EmptyIdsReadAsMissing | services/promotion.service.js:146-162 | an item with a product and an empty category takes the catalogue's category, and an empty product id comes out missing |
| Promotions.NormalizeServiceItems | services/promotion.service.js:144-171 | one normalized item per input item, in order |
| Promotions.EligibleItems | services/promotion.service.js:179-183 | an item is kept exactly when it passes the product and category allow-lists, and never more items than given |
| Promotions.EligibleItemsAppend | services/promotion.service.js:179-183 | the filter distributes over concatenation, so the kept items stay in their order with their repetitions |
| Promotions.EligibleItemsSingle | services/promotion.service.js:179-183 | a single item is kept exactly when it is eligible |
| Promotions.EmptyAllowListsAdmitAll | services/promotion.service.js:175-183 | with both allow-lists empty every item is eligible |
| Promotions.FindByProduct | services/promotion.service.js:188 | the first eligible item of the combo's product, or none |
| Promotions.EligibleSumAtMostTotal | services/promotion.service.js:194 | the eligible items never total more than all items |
| Promotions.SumEligibleProductAmount | services/promotion.service.js:174-195 | 0 when a listed combo product is missing or short of its quantity (default 1); otherwise the eligible items' total; never above the total of all items |
| Promotions.ComputeDiscountValue | services/promotion.service.js:198-213 | within [0, base]; the amount is `PercentShare` of the base at the percentage clamped to 0..100 for a percent rule, else roundVND(value); it is then limited to max(0, cap) when a cap is given, and to the base |
| Promotions.BuildBaseAmounts | services/promotion.service.js:114-120 | each pool starts at its rounded amount, so no pool is negative |
| Promotions.PickTargetBase | services/promotion.service.js:122-126 | `play` and `service` select their pools, anything else the bill pool |
| Promotions.DeductTargetBase | services/promotion.service.js:128-136 | only the selected pool changes, to its old value less the amount but never below 0 |
| Promotions.ScopeGate | services/promotion.service.js:265-299 | a `time` or `bill` scope bases on the whole target; a `time` gate passes exactly when the table type is allowed (empty list: all) and known play minutes reach minMinutes; a `bill` gate exactly when the table type is allowed and subtotal, service amount and play minutes (missing: 0) reach their minimums; a product scope on `play` never applies and on `service`/`bill` bases on min(target, eligible product amount); an unknown scope fails |
| Promotions.Evaluate | services/promotion.service.js:249-312 | a line targets the rule's `applyTo` (default `bill`); its amount is `ComputeDiscountValue` of the scope's eligible base, positive and at most what is left in its pool; it carries the rule's name, discount type and value and the rule's id, scope, code and eligible service base; a product rule on `play` gives no line |
| Promotions.EvaluateGivesLineIff | services/promotion.service.js:249-312 | a rule gives a line exactly when it is active, its pool is positive, its scope's gates pass with a positive base and its cut is positive |
| Promotions.ApplyFrom | services/promotion.service.js:251-324 | the reference walk of the loop (rules in order, a line charged to its pool, a stop after a non-stackable rule's line): one line per picked rule, at most one per rule left, none and the pools untouched from past the end; `ApplyFromSkip`, `ApplyFromTake`, `ApplyFromPicks` and `ApplyFromConservesPools` state the rest |
| Promotions.DiscountTotal | services/promotion.service.js:327 | `discountTotal`: never negative, and for one line its amount rounded to whole VND; `DiscountTotalByPool` splits it by pool |
| Promotions.ApplyFromPicks | services/promotion.service.js:249-324 | lines come from rules in list order, one per applied rule, each positive and targeted as its rule says; only the last applied rule may be non-stackable |
| Promotions.ApplyFromStep | services/promotion.service.js:249-324 | one loop pass: a rule without a line leaves the rest of the walk to the next rule; a line moves onto the emitted prefix, charged to its pool, and a non-stackable rule's line ends the walk |
| Promotions.ApplyFromConservesPools | services/promotion.service.js:249-312 | every pool ends at its start less the lines taken from it, and no pool goes below 0 |
| Promotions.DiscountTotalByPool | services/promotion.service.js:327 | with positive lines the discount total is the sum of the three pools' shares |
| Promotions.ApplyFromTotals | services/promotion.service.js:240-328 | a whole walk keeps pools ≥ 0, emits positive lines, conserves each pool and totals the lines |
| Promotions.WalkPromotions | services/promotion.service.js:249-324 | the `for` loop over the rules yields exactly the lines and the pools of the reference walk `ApplyFrom` from the first rule |
| Promotions.ApplyPromotions | services/promotion.service.js:230-329 | the result is the walk over the normalized items from the pools built by `buildBaseAmounts`; pools end ≥ 0 and at their start less the lines charged to them, so no pool's lines exceed its initial amount; the total is the sum of the lines |
| Promotions.SessionServiceItem | services/promotion.service.js:357-363 | a session line becomes a service item with the snapshot price, quantity and amount and no category |
| Promotions.SessionServiceItems | services/promotion.service.js:357-363 | one service item per session line, in order |
| Promotions.BuildContextFromSession | services/promotion.service.js:337-386 | the preview's figures when given (a missing subtotal is play + service), else the stored duration and service amount with no play amount |
| Promotions.SessionItemsSumToServiceAmount | services/promotion.service.js:357-363 | the normalized service items of a session add up to its `serviceAmount` |
| Promotions.ProductRuleWithoutListsSeesAllService | services/promotion.service.js:174-195 | a product rule without lists or combo, fed from a session, bases on the whole service amount |
| SessionLifecycle.CheckInSession | services/billing.service.js:147-163 | the new session is open, empty and starts at the check-in time; a non-negative table rate is frozen with source `table`; the rule is the stored form of the active setting |
| SessionLifecycle.CheckInBillsNothing | services/billing.service.js:147-163 | a session closed at the instant it was opened bills no minutes |
| SessionLifecycle.FindProductLine | services/billing.service.js:187 | the first line of the product, or none |
| SessionLifecycle.FindItem | services/billing.service.js:211 | the basket's `id()` lookup: the first line with the id, or none; the same first-match search as `FindProductLine`, on the line id |
| SessionLifecycle.AddToItems | services/billing.service.js:187-199 | an existing line of the product gains the quantity (and a non-empty note) and no other line changes; otherwise exactly one line with the product's name and price is appended |
| SessionLifecycle.AddToItemsServiceAmount | services/billing.service.js:187-199 | adding grows the service amount by qty at the line's price snapshot, the old snapshot for an existing line |
| SessionLifecycle.AddToItemsValidation | services/billing.service.js:192-202 | saving after an add is rejected exactly when a new line would have an empty name or a negative price |
| SessionLifecycle.RemoveAt | services/billing.service.js:229-231 | deleting one line keeps the other lines in order and lowers the service amount by its amount |
| SessionLifecycle.UpdateQtyItems | services/billing.service.js:214-218 | a quantity ≤ 0 deletes the line; another sets it, leaves every other line as it was and moves the service amount accordingly |
| SessionLifecycle.EditsKeepItemsOk | services/billing.service.js:214-218 | quantity edits and deletions keep every line within the item schema |
| SessionLifecycle.ProductLineOf | services/billing.service.js:303-311 | a bill product line carries the item's product, name, price, qty and note, and its amount rounded and ≥ 0 |
| SessionLifecycle.ProductLines | services/billing.service.js:303-311 | one bill product line per session item, in basket order |
| SessionLifecycle.BillServiceAmountIsSessionServiceAmount | services/billing.service.js:335 | on items within the schema, the bill's service amount equals the session's `serviceAmount` |
| SessionLifecycle.CheckoutMinutes | services/billing.service.js:298 | checkout's minutes are the service computation under the stored rule, and the model's own computation on the session ended at that time |
| SessionLifecycle.CheckoutBill | services/billing.service.js:298-346 | the bill carries the session's id and table, the table name, the discount lines, the paid flag and the payment method as passed; the play line first (billed minutes, snapshot rate, play amount), then the product lines in order; service amount is their sum; surcharge ≥ 0; totals left 0; paidAt only when paid; staff falls back to the opener |
| SessionLifecycle.ClosedSession | services/billing.service.js:348-352 | the session is closed at endAt with the billed minutes and closing staff, otherwise unchanged, and its model minutes at any later time are the bill's |
| SessionLifecycle.LineDiscount | services/billing.service.js:255-261 | a percent line is the lesser of the percentage of the subtotal and its cap (the subtotal when the cap is 0 or missing), so at most each; a value line is its value; other types add nothing |
| SessionLifecycle.PreviewOf | services/billing.service.js:238-276 | the checkout minutes, the play amount, the session's service amount, their subtotal, the summed discount lines, and a total ≥ 0: subtotal − discount + surcharge rounded to nearest, or 0 when that is negative |
| SessionLifecycle.PreviewDiscountNonNegative | services/billing.service.js:253-262 | non-negative values and caps on a non-negative subtotal give a non-negative discount total |
| SessionLifecycle.PreviewTotalAtMostGross | services/billing.service.js:263 | with non-negative discounts and surcharge the total lies between 0 and subtotal plus surcharge |
| SessionLifecycle.PreviewMatchesCheckout | services/billing.service.js:242-250 | the preview at the checkout time shows the bill's minutes, play amount and service amount |
| SessionLifecycle.PreviewExample | services/billing.service.js:238-276 | 47 minutes on step 15 at 60 000/h with 50 000 of service and 10% off capped at 20 000: 60 minutes, 60 000, discount 11 000, total 99 000 |
| SessionLifecycle.CheckInKeepsStoreOk | models/session.model.js:91-94 | checking in a table with no open session keeps the one-open-session index and every session well formed |
| SessionLifecycle.EditKeepsStoreOk | models/session.model.js:8-19 | replacing a basket with well-formed items keeps the store invariant |
| SessionLifecycle.CheckoutKeepsStoreOk | models/session.model.js:91-94 | closing an open session and dropping its table from the index keeps the store invariant |
| SessionLifecycle.Store.constructor | models/table.model.js:35-39 | a store over tables with rates ≥ 0 and no sessions satisfies the invariant |
| SessionLifecycle.Store.IndexedIffOpen | models/session.model.js:91-94 | a table is in the open index exactly when some session of it is open |
| SessionLifecycle.Store.OneOpenPerTable | models/session.model.js:91-94 | at most one session per table is open |
| SessionLifecycle.Store.OpenSession | services/billing.service.js:138-173 | fails with no effect on a missing or inactive table, an open session on it, no type, or (the schema's required `staffStart`) no staff id, in that order; else records the check-in session under a fresh id, indexes it and marks the table playing, nothing else; a table without a type always gets `TableTypeNotFound` |
| SessionLifecycle.Store.AddItem | services/billing.service.js:176-203 | fails with no effect on qty ≤ 0, a missing or non-open session, a missing or inactive product, or a basket the schema rejects; else the basket becomes AddToItems of the old one and nothing else changes |
| SessionLifecycle.Store.UpdateItemQty | services/billing.service.js:206-221 | fails with no effect on a missing or non-open session or a missing item; else only that line is re-quantified or deleted |
| SessionLifecycle.Store.RemoveItem | services/billing.service.js:224-235 | fails with no effect on a missing or non-open session or a missing item; else only that line is deleted |
| SessionLifecycle.Store.PreviewClose | services/billing.service.js:238-276 | the loop over the discount lines computes PreviewOf for a session in any status; a missing session is an error; nothing changes |
| SessionLifecycle.Store.Checkout | services/billing.service.js:283-363 | fails with no effect unless the session is open; else appends the checkout bill, closes the session, unindexes it and frees its table, all at once |

## Left out

- The service's default arguments are not modelled: `qty = 1` and `note = ''` of `addItem`, `startAt = new Date()` of `openSession`, and the `discountLines`, `surcharge`, `paymentMethod` and `paid` defaults of `checkoutSession`. Every method takes each argument explicitly, and a caller gets the default behaviour by passing the default value.
- Persistence is left out: Mongo queries, `findById`, `save` and `populate`. The store is in-memory maps, and the loaded records are passed in as arguments.
- `getActivePromotions` (services/promotion.service.js:41-71) is left out: it is a database query. `ApplyPromotions` takes rules already loaded in apply order.
- The `Product` lookup in `normalizeServiceItems` is a parameter `categoryOf`, the catalogue's category per product.
- The `Table` lookup in `buildContextFromSession` is a parameter `tableType`. The snapshot `typeId` fields it tests first are declared by neither snapshot schema, so they are always missing.
- `withTransaction` and the concurrent check-in race are left out. Each service operation is one method that either fails with no change or applies all of its effects.
- JS `Date`, the local time zone and daylight saving are left out. An instant is local milliseconds, and `new Date()` is a parameter.
- Floating point is left out. Amounts are exact integers, and the preview's percentages are exact rationals.
- `Number()` on text beyond plain digit strings is not modelled: signs, decimals, whitespace, hex. Fractional or NaN quantities are not modelled either.
- Mongoose's string trimming (`trim: true`) is not modelled, nor object-id string conversion. Product ids are strings.
- The spread `{ ...s.billingRuleSnapshot }` (services/billing.service.js:245, 298) is taken to copy the sub-document's declared fields. If it copied the document's internal state instead, `computeMinutes` would find neither field and bill the raw minutes (step 1, grace 0); the model does not capture that reading.
- The table schema (models/table.model.js) declares neither `type` nor `branchId`, yet `openSession` reads both. The model gives `Table` these two optional fields as the service reads them. Under the declared schema `table.type` is missing for every table, so `TableType.findById` of it finds nothing. As written, every check-in would then end in 'TableType not found', unless `populate('type')` on the undeclared path rejects the call first (plausible, not executed). The model captures this outcome: `Store.OpenSession` returns `TableTypeNotFound` whenever the table's `tableType` is `None`. Its successful check-in and the type-band rates apply only to a table that carries a type, which the declared schema cannot store.
- The session schema has no `branchId`, so the `branchId` that sessions and bills are created with is dropped.
- `Store.Checkout` leaves the bill's subtotal, discount total and total at 0, as the service writes them. bill.model.js, whose hooks may fill them in, is not part of this model.
- `Store.Checkout` does not model rejections by the bill schema, because bill.model.js is not part of this model.
- `Store.OpenSession` has no path for the pricing snapshot rejecting source `type`. With table rates ≥ 0 (the table schema's bound, kept by the store invariant), that path cannot occur.
- `Store.AddItem` and `Store.UpdateItemQty` model the session schema's validation on save only through the item constraints (non-empty name, price ≥ 0, qty ≥ 1).
- Promotions.SumEligibleProductAmount: the `!productRule` branch is not modelled. A missing product rule is the rule with empty lists, as `promo.productRule || {}` at services/promotion.service.js:277 passes it.
- Promotions.Promotion: `stackable` is a `bool`. A rule whose flag is missing is stackable, because only `false` stops the walk.
- `hhmm`/`hhmmString` on a `Date` are left out: this is the time-zone rendering of the instant. `TimeRules.HhmmString` renders the minute of the day instead.
- The controllers, routes, validators, the QR service and models/area.model.js are not part of this model.
