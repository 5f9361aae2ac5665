/**
 * The promotion engine: time-window gates, product eligibility and combos,
 * the discount of one rule, the three "remaining" pools, and the ordered
 * walk over the rules that stops after the first non-stackable rule that
 * gives a discount.
 */
module Promotions {
  import opened Common
  import opened Money
  import opened TimeRules
  import opened SessionModel

  /* ------------------------------------------------------------- rule data */

  datatype TimeRange = TimeRange(from: string, to: string)   // "" is a missing bound

  datatype TimeRule = TimeRule(
    validFrom: Option<int>,
    validTo: Option<int>,
    daysOfWeek: seq<int>,
    timeRanges: seq<TimeRange>,
    tableTypes: seq<string>,
    minMinutes: int)

  /** A product required by a combo; a quantity of 0 is a missing one (1). */
  datatype ComboPart = ComboPart(product: string, qty: int)

  datatype ProductRule = ProductRule(categories: seq<string>, products: seq<string>, combo: seq<ComboPart>)

  datatype BillRule = BillRule(tableTypes: seq<string>, minSubtotal: int, minServiceAmount: int, minPlayMinutes: int)

  /** The discount spec; an empty kind is "value", an empty target is "bill". */
  datatype Discount = Discount(kind: string, value: int, maxAmount: Option<int>, applyTo: string)

  /** A rule as loaded; `stackable` is false only where the rule says `false`. */
  datatype Promotion = Promotion(
    id: string,
    name: string,
    code: string,
    scope: string,
    stackable: bool,
    timeRule: TimeRule,
    productRule: ProductRule,
    billRule: BillRule,
    discount: Discount)

  /* ---------------------------------------------------------- time gating */

  /** A time range with both bounds that holds the minute of the day. */
  predicate RangeHit(r: TimeRange, minuteOfDay: int)
    requires 0 <= minuteOfDay < MinutesPerDay
  {
    r.from != "" && r.to != "" && InTimeRange(HhmmString(minuteOfDay), r.from, r.to)
  }

  /**
   * `promoIsActiveAt`: not before `validFrom`, not after the last
   * millisecond of `validTo`'s date, on one of `daysOfWeek` if any are
   * listed, and inside one of `timeRanges` if any are listed.
   */
  predicate PromoIsActiveAt(tr: TimeRule, at: int)
    ensures tr.validFrom.Some? && at < tr.validFrom.value ==> !PromoIsActiveAt(tr, at)
    ensures tr.validFrom.None? && tr.validTo.None? && |tr.daysOfWeek| == 0 && |tr.timeRanges| == 0 ==> PromoIsActiveAt(tr, at)
  {
    && (tr.validFrom.None? || at >= tr.validFrom.value)
    && (tr.validTo.None? || at <= EndOfDay(tr.validTo.value))
    && (|tr.daysOfWeek| == 0 || Weekday(at) in tr.daysOfWeek)
    && (|tr.timeRanges| == 0 || exists i :: 0 <= i < |tr.timeRanges| && RangeHit(tr.timeRanges[i], MinuteOfDay(at)))
  }

  /** Window membership of a range read from its bounds (a malformed bound admits all). */
  predicate RangeAdmits(r: TimeRange, minuteOfDay: int)
  {
    && r.from != "" && r.to != ""
    && (HhmmToMinutes(r.from).None? || HhmmToMinutes(r.to).None? ||
        WindowContains(HhmmToMinutes(r.from).value, HhmmToMinutes(r.to).value, minuteOfDay))
  }

  /**
   * The gates in calendar terms: the date is no later than `validTo`'s date,
   * and a listed range admits the minute of the day, overnight ranges
   * included.
   */
  lemma {:induction false} PromoIsActiveAtMeaning(tr: TimeRule, at: int)
    ensures PromoIsActiveAt(tr, at) <==>
      && (tr.validFrom.None? || at >= tr.validFrom.value)
      && (tr.validTo.None? || LocalDay(at) <= LocalDay(tr.validTo.value))
      && (|tr.daysOfWeek| == 0 || Weekday(at) in tr.daysOfWeek)
      && (|tr.timeRanges| == 0 || exists i :: 0 <= i < |tr.timeRanges| && RangeAdmits(tr.timeRanges[i], MinuteOfDay(at)))
  {
    if tr.validTo.Some? {
      AfterEndOfDay(at, tr.validTo.value);
    }
    var m := MinuteOfDay(at);
    forall i | 0 <= i < |tr.timeRanges|
      ensures RangeHit(tr.timeRanges[i], m) <==> RangeAdmits(tr.timeRanges[i], m)
    {
      var r := tr.timeRanges[i];
      if r.from != "" && r.to != "" && HhmmToMinutes(r.from).Some? && HhmmToMinutes(r.to).Some? {
        InTimeRangeAt(m, r.from, r.to);
      }
    }
  }

  /**
   * `includesObjectId`: whether a given id is one of the list's ids. A
   * missing or empty id is in no list, and an empty list holds no id.
   */
  predicate IncludesId(ids: seq<string>, id: Option<string>)
    ensures !IsGiven(id) ==> !IncludesId(ids, id)
    ensures ids == [] ==> !IncludesId(ids, id)
  {
    IsGiven(id) && id.value in ids
  }

  /** Membership survives a longer list, on either side. */
  lemma IncludesIdExtend(ids: seq<string>, more: seq<string>, id: Option<string>)
    ensures IncludesId(ids, id) ==> IncludesId(ids + more, id) && IncludesId(more + ids, id)
  {
  }

  /* ---------------------------------------------------------- service items */

  /** A service item as handed to the engine; `None` fields are missing. */
  datatype RawServiceItem = RawServiceItem(
    productId: Option<string>,
    categoryId: Option<string>,
    price: int,             // 0 is missing
    priceSnapshot: int,     // 0 is missing
    qty: int,
    amount: Option<int>)

  datatype ServiceItem = ServiceItem(
    productId: Option<string>,
    categoryId: Option<string>,
    price: int,
    qty: int,
    amount: int)

  /**
   * The mapping of `normalizeServiceItems` for one item. `categoryOf` is
   * the category of each product the catalogue lookup found; a given
   * category wins over it. A missing or empty id, and an empty category
   * from the catalogue, all come out missing, as the truthiness tests read them.
   */
  function NormalizeItem(it: RawServiceItem, categoryOf: map<string, string>): (n: ServiceItem)
    ensures IsGiven(it.productId) ==> n.productId == it.productId
    ensures !IsGiven(it.productId) ==> n.productId.None?
    ensures n.qty == it.qty && n.amount >= 0
    ensures IsGiven(it.categoryId) ==> n.categoryId == it.categoryId
    ensures var found := IsGiven(it.productId) && it.productId.value in categoryOf && categoryOf[it.productId.value] != "";
      && (!IsGiven(it.categoryId) && found ==> n.categoryId == Some(categoryOf[it.productId.value]))
      && (!IsGiven(it.categoryId) && !found ==> n.categoryId.None?)
    ensures it.amount.Some? ==> n.amount == RoundVnd(it.amount.value)
    ensures n.price == if it.price != 0 then it.price else it.priceSnapshot
    ensures it.amount.None? ==> n.amount == RoundVnd(n.price * it.qty)
  {
    var price := if it.price != 0 then it.price else it.priceSnapshot;
    var product := if IsGiven(it.productId) then it.productId else None;
    var looked := if product.Some? && product.value in categoryOf then Some(categoryOf[product.value]) else None;
    var category := if IsGiven(it.categoryId) then it.categoryId
                    else if IsGiven(looked) then looked
                    else None;
    ServiceItem(product, category, price, it.qty, RoundVnd(if it.amount.Some? then it.amount.value else price * it.qty))
  }

  /**
   * An empty category on an item with a product sends it to the catalogue,
   * and an empty product id comes out missing.
   */
  lemma EmptyIdsReadAsMissing()
    ensures NormalizeItem(RawServiceItem(Some("p"), Some(""), 10000, 0, 1, None), map["p" := "c"]).categoryId == Some("c")
    ensures NormalizeItem(RawServiceItem(Some(""), Some("c"), 10000, 0, 1, None), map[]).productId.None?
  {
  }

  function NormalizeServiceItems(raw: seq<RawServiceItem>, categoryOf: map<string, string>): (items: seq<ServiceItem>)
    ensures |items| == |raw|
    ensures forall i :: 0 <= i < |raw| ==> items[i] == NormalizeItem(raw[i], categoryOf)
  {
    seq(|raw|, i requires 0 <= i < |raw| => NormalizeItem(raw[i], categoryOf))
  }

  /** The filter of `sumEligibleProductAmount`: empty allow-lists admit everything. */
  predicate ItemEligible(it: ServiceItem, rule: ProductRule)
  {
    && (|rule.products| == 0 || IncludesId(rule.products, it.productId))
    && (|rule.categories| == 0 || IncludesId(rule.categories, it.categoryId))
  }

  function EligibleItems(items: seq<ServiceItem>, rule: ProductRule): (e: seq<ServiceItem>)
    ensures |e| <= |items|
    ensures forall x :: x in e <==> x in items && ItemEligible(x, rule)
  {
    if items == [] then []
    else
      var rest := EligibleItems(items[1..], rule);
      assert items == [items[0]] + items[1..];
      if ItemEligible(items[0], rule) then [items[0]] + rest else rest
  }

  /** Filtering keeps the eligible items in order, with their repetitions: it distributes over `+`. */
  lemma {:induction false} EligibleItemsAppend(a: seq<ServiceItem>, b: seq<ServiceItem>, rule: ProductRule)
    ensures EligibleItems(a + b, rule) == EligibleItems(a, rule) + EligibleItems(b, rule)
    decreases |a|
  {
    if a != [] {
      assert (a + b)[0] == a[0] && (a + b)[1..] == a[1..] + b;
      EligibleItemsAppend(a[1..], b, rule);
      if ItemEligible(a[0], rule) {
        assert [a[0]] + (EligibleItems(a[1..], rule) + EligibleItems(b, rule))
            == ([a[0]] + EligibleItems(a[1..], rule)) + EligibleItems(b, rule);
      }
    } else {
      assert a + b == b;
    }
  }

  /** One item is kept exactly when it is eligible. */
  lemma EligibleItemsSingle(x: ServiceItem, rule: ProductRule)
    ensures EligibleItems([x], rule) == if ItemEligible(x, rule) then [x] else []
  {
    assert [x][1..] == [];
  }

  lemma {:induction false} EmptyAllowListsAdmitAll(items: seq<ServiceItem>, rule: ProductRule)
    requires |rule.products| == 0 && |rule.categories| == 0
    ensures EligibleItems(items, rule) == items
  {
    if items != [] {
      EmptyAllowListsAdmitAll(items[1..], rule);
      assert items == [items[0]] + items[1..];
    }
  }

  /** The first eligible item of the given product, if any. */
  function FindByProduct(items: seq<ServiceItem>, product: string): (i: Option<nat>)
    ensures i.Some? ==> i.value < |items| && items[i.value].productId == Some(product)
    ensures i.Some? ==> forall j :: 0 <= j < i.value ==> items[j].productId != Some(product)
    ensures i.None? ==> forall j :: 0 <= j < |items| ==> items[j].productId != Some(product)
  {
    if items == [] then None
    else if items[0].productId == Some(product) then Some(0)
    else
      var r := FindByProduct(items[1..], product);
      if r.Some? then Some(r.value + 1) else None
  }

  /** One combo requirement: the first eligible line of that product has enough quantity. */
  predicate ComboPartMet(eligible: seq<ServiceItem>, c: ComboPart)
  {
    var f := FindByProduct(eligible, c.product);
    f.Some? && eligible[f.value].qty >= (if c.qty == 0 then 1 else c.qty)
  }

  predicate ComboMet(eligible: seq<ServiceItem>, combo: seq<ComboPart>)
  {
    forall i :: 0 <= i < |combo| ==> ComboPartMet(eligible, combo[i])
  }

  /** The items' amounts, each rounded to whole VND, summed in order. */
  function SumItemAmounts(items: seq<ServiceItem>): (total: int)
    ensures total >= 0
  {
    if items == [] then 0 else SumItemAmounts(items[..|items| - 1]) + RoundVnd(items[|items| - 1].amount)
  }

  /** Filtering items never raises their total. */
  lemma {:induction false} EligibleSumAtMostTotal(items: seq<ServiceItem>, rule: ProductRule)
    ensures SumItemAmounts(EligibleItems(items, rule)) <= SumItemAmounts(items)
  {
    if items != [] {
      EligibleSumAtMostTotal(items[1..], rule);
      assert items == [items[0]] + items[1..];
      SumItemAmountsCons(items[0], items[1..]);
      var rest := EligibleItems(items[1..], rule);
      if ItemEligible(items[0], rule) {
        assert EligibleItems(items, rule) == [items[0]] + rest;
        SumItemAmountsCons(items[0], rest);
      } else {
        assert EligibleItems(items, rule) == rest;
      }
    }
  }

  lemma {:induction false} SumItemAmountsCons(x: ServiceItem, xs: seq<ServiceItem>)
    ensures SumItemAmounts([x] + xs) == RoundVnd(x.amount) + SumItemAmounts(xs)
    decreases |xs|
  {
    if xs == [] {
      assert ([x] + xs)[..0] == [];
    } else {
      var ys := [x] + xs;
      assert ys[..|ys| - 1] == [x] + xs[..|xs| - 1];
      SumItemAmountsCons(x, xs[..|xs| - 1]);
    }
  }

  /**
   * `sumEligibleProductAmount`: the summed amounts of the items allowed by
   * the product and category lists, or 0 when a combo is listed and one of
   * its products is missing among them or short of its quantity.
   */
  function SumEligibleProductAmount(items: seq<ServiceItem>, rule: ProductRule): (total: int)
    ensures 0 <= total <= SumItemAmounts(items)
    ensures |rule.combo| > 0 && !ComboMet(EligibleItems(items, rule), rule.combo) ==> total == 0
    ensures (|rule.combo| == 0 || ComboMet(EligibleItems(items, rule), rule.combo)) ==>
      total == SumItemAmounts(EligibleItems(items, rule))
  {
    var eligible := EligibleItems(items, rule);
    EligibleSumAtMostTotal(items, rule);
    if |rule.combo| > 0 && !ComboMet(eligible, rule.combo) then 0
    else SumItemAmounts(eligible)
  }

  /* -------------------------------------------------------- discount value */

  predicate IsPercent(d: Discount) { d.kind == "percent" }

  /**
   * `computeDiscountValue`: a percentage (clamped to 0..100) of the base,
   * rounded, or the fixed value; capped by a given `maxAmount` (at least 0);
   * and finally clamped into [0, base].
   */
  function ComputeDiscountValue(d: Discount, base: int): (cut: int)
    ensures base >= 0 ==> 0 <= cut <= base
    ensures base < 0 ==> cut == 0
    ensures d.maxAmount.Some? ==> cut <= Max(0, d.maxAmount.value)
    ensures IsPercent(d) && d.maxAmount.None? && base >= 0 ==> cut == PercentShare(base, Clamp(d.value, 0, 100))
    ensures !IsPercent(d) && d.maxAmount.None? && base >= 0 ==> cut == Min(base, RoundVnd(d.value))
    ensures base >= 0 && d.maxAmount.Some? ==>
      var amt := if IsPercent(d) then PercentShare(base, Clamp(d.value, 0, 100)) else RoundVnd(d.value);
      cut == Min(base, Min(amt, Max(0, d.maxAmount.value)))
  {
    var p := Clamp(d.value, 0, 100);
    var amt := if !IsPercent(d) then RoundVnd(d.value) else PercentShare(base, p);
    var capped := if d.maxAmount.Some? then Min(amt, Max(0, d.maxAmount.value)) else amt;
    Clamp(capped, 0, base)
  }

  /* ------------------------------------------------------------------ pools */

  datatype Pools = Pools(playRemaining: int, serviceRemaining: int, billRemaining: int)

  datatype Pool = PlayPool | ServicePool | BillPool

  /** The pool a target names: "play" and "service" their own, anything else the bill. */
  function PoolOf(applyTo: string): Pool
  {
    if applyTo == "play" then PlayPool else if applyTo == "service" then ServicePool else BillPool
  }

  function Get(rem: Pools, q: Pool): int
  {
    match q
    case PlayPool => rem.playRemaining
    case ServicePool => rem.serviceRemaining
    case BillPool => rem.billRemaining
  }

  predicate PoolsNonNegative(rem: Pools)
  {
    rem.playRemaining >= 0 && rem.serviceRemaining >= 0 && rem.billRemaining >= 0
  }

  /** `buildBaseAmounts`: each pool starts at its whole, non-negative amount. */
  function BuildBaseAmounts(playAmount: int, serviceAmount: int, subTotal: int): (rem: Pools)
    ensures PoolsNonNegative(rem)
    ensures rem == Pools(RoundVnd(playAmount), RoundVnd(serviceAmount), RoundVnd(subTotal))
  {
    Pools(RoundVnd(playAmount), RoundVnd(serviceAmount), RoundVnd(subTotal))
  }

  /** `pickTargetBase`. */
  function PickTargetBase(rem: Pools, applyTo: string): (b: int)
    ensures b == Get(rem, PoolOf(applyTo))
  {
    if applyTo == "play" then rem.playRemaining
    else if applyTo == "service" then rem.serviceRemaining
    else rem.billRemaining
  }

  /**
   * `deductTargetBase`: the targeted pool drops by the amount, never below
   * 0, and the other two pools stay as they were.
   */
  function DeductTargetBase(rem: Pools, applyTo: string, amount: int): (r: Pools)
    ensures Get(r, PoolOf(applyTo)) == Max(0, Get(rem, PoolOf(applyTo)) - amount)
    ensures forall q :: q != PoolOf(applyTo) ==> Get(r, q) == Get(rem, q)
  {
    if applyTo == "play" then rem.(playRemaining := Max(0, rem.playRemaining - amount))
    else if applyTo == "service" then rem.(serviceRemaining := Max(0, rem.serviceRemaining - amount))
    else rem.(billRemaining := Max(0, rem.billRemaining - amount))
  }

  /* ------------------------------------------------------------ evaluation */

  /** The billing context the engine works on. */
  datatype Context = Context(
    at: int,
    tableTypeId: Option<string>,
    playMinutes: Option<int>,
    playAmount: int,
    serviceItems: seq<RawServiceItem>,
    serviceAmount: int,
    subTotal: int)

  datatype LineMeta = LineMeta(promoId: string, scope: string, code: string, eligibleServiceBase: Option<int>)

  datatype DiscountLine = DiscountLine(name: string, kind: string, value: int, amount: int, applyTo: string, meta: LineMeta)

  function ApplyTo(p: Promotion): string
  {
    if p.discount.applyTo == "" then "bill" else p.discount.applyTo
  }

  /** The scope's gates and the eligible base it lets the discount work on. */
  datatype Gate = Gate(ok: bool, eligibleBase: int, eligibleServiceBase: Option<int>)

  function ScopeGate(p: Promotion, ctx: Context, items: seq<ServiceItem>, applyTo: string, targetBase: int): (g: Gate)
    ensures g.ok ==> g.eligibleBase <= targetBase
    ensures p.scope == "time" || p.scope == "bill" ==> g.eligibleBase == targetBase
    ensures p.scope == "product" && applyTo != "service" && applyTo != "bill" ==> !g.ok
    ensures p.scope == "product" && (applyTo == "service" || applyTo == "bill") ==>
      g.ok && g.eligibleBase == Min(targetBase, SumEligibleProductAmount(items, p.productRule))
    ensures p.scope != "time" && p.scope != "product" && p.scope != "bill" ==> !g.ok
    ensures p.scope == "time" ==>
      (g.ok <==> (|p.timeRule.tableTypes| == 0 || IncludesId(p.timeRule.tableTypes, ctx.tableTypeId)) &&
                 (ctx.playMinutes.None? || ctx.playMinutes.value >= p.timeRule.minMinutes))
    ensures p.scope == "bill" ==>
      (g.ok <==> (|p.billRule.tableTypes| == 0 || IncludesId(p.billRule.tableTypes, ctx.tableTypeId)) &&
                 ctx.subTotal >= p.billRule.minSubtotal && ctx.serviceAmount >= p.billRule.minServiceAmount &&
                 ctx.playMinutes.GetOr(0) >= p.billRule.minPlayMinutes)
  {
    if p.scope == "time" then
      var tt := p.timeRule.tableTypes;
      var typeOk := !(|tt| > 0 && !IncludesId(tt, ctx.tableTypeId));
      var minutesOk := !(ctx.playMinutes.Some? && ctx.playMinutes.value < p.timeRule.minMinutes);
      Gate(typeOk && minutesOk, targetBase, None)
    else if p.scope == "product" then
      var base := SumEligibleProductAmount(items, p.productRule);
      if applyTo == "service" || applyTo == "bill" then Gate(true, Min(targetBase, base), Some(base))
      else Gate(false, 0, Some(base))
    else if p.scope == "bill" then
      var br := p.billRule;
      var typeOk := !(|br.tableTypes| > 0 && !IncludesId(br.tableTypes, ctx.tableTypeId));
      var ok := typeOk && ctx.subTotal >= br.minSubtotal && ctx.serviceAmount >= br.minServiceAmount
                && ctx.playMinutes.GetOr(0) >= br.minPlayMinutes;
      Gate(ok, targetBase, None)
    else
      Gate(false, 0, None)
  }

  /**
   * One pass of the loop body of `applyPromotions` for one rule: `None`
   * when the rule is skipped (inactive at the instant, nothing left in its
   * pool, a failed gate, no eligible base or no cut), else the line it adds.
   */
  function Evaluate(p: Promotion, ctx: Context, items: seq<ServiceItem>, rem: Pools): (l: Option<DiscountLine>)
    ensures l.Some? ==> l.value.applyTo == ApplyTo(p)
    ensures l.Some? ==> 0 < l.value.amount <= Get(rem, PoolOf(l.value.applyTo))
    ensures p.scope == "product" && ApplyTo(p) == "play" ==> l.None?
    ensures l.Some? ==>
      var g := ScopeGate(p, ctx, items, ApplyTo(p), PickTargetBase(rem, ApplyTo(p)));
      && l.value.amount == ComputeDiscountValue(p.discount, g.eligibleBase)
      && l.value.name == p.name && l.value.kind == p.discount.kind && l.value.value == p.discount.value
      && l.value.meta == LineMeta(p.id, p.scope, p.code, g.eligibleServiceBase)
  {
    if !PromoIsActiveAt(p.timeRule, ctx.at) then None
    else
      var applyTo := ApplyTo(p);
      var targetBase := PickTargetBase(rem, applyTo);
      if targetBase <= 0 then None
      else
        var g := ScopeGate(p, ctx, items, applyTo, targetBase);
        if !g.ok || g.eligibleBase <= 0 then None
        else
          var cut := ComputeDiscountValue(p.discount, g.eligibleBase);
          if cut <= 0 then None
          else Some(DiscountLine(p.name, p.discount.kind, p.discount.value, cut, applyTo,
                                 LineMeta(p.id, p.scope, p.code, g.eligibleServiceBase)))
  }

  /** The conditions under which a rule gives a line, all of them needed. */
  lemma EvaluateGivesLineIff(p: Promotion, ctx: Context, items: seq<ServiceItem>, rem: Pools)
    ensures var applyTo := ApplyTo(p);
      var target := PickTargetBase(rem, applyTo);
      var g := ScopeGate(p, ctx, items, applyTo, target);
      Evaluate(p, ctx, items, rem).Some? <==>
        PromoIsActiveAt(p.timeRule, ctx.at) && target > 0 && g.ok && g.eligibleBase > 0 &&
        ComputeDiscountValue(p.discount, g.eligibleBase) > 0
  {
  }

  /**
   * With no table type in the context, a `time` or `bill` rule that lists
   * table types never passes its gate, so it gives no line.
   */
  lemma UntypedContextFailsTypedRules(p: Promotion, ctx: Context, items: seq<ServiceItem>, rem: Pools)
    requires !IsGiven(ctx.tableTypeId)
    requires (p.scope == "time" && |p.timeRule.tableTypes| > 0) || (p.scope == "bill" && |p.billRule.tableTypes| > 0)
    ensures !ScopeGate(p, ctx, items, ApplyTo(p), PickTargetBase(rem, ApplyTo(p))).ok
    ensures Evaluate(p, ctx, items, rem).None?
  {
    EvaluateGivesLineIff(p, ctx, items, rem);
  }

  /** The lines produced, the index of the rule behind each, and the pools left. */
  datatype Run = Run(lines: seq<DiscountLine>, picked: seq<nat>, remaining: Pools)

  /** The walk over promos[k..], as a specification of `applyPromotions`' loop. */
  function ApplyFrom(promos: seq<Promotion>, k: nat, ctx: Context, items: seq<ServiceItem>, rem: Pools): (r: Run)
    ensures |r.lines| == |r.picked| <= if k < |promos| then |promos| - k else 0
    ensures k >= |promos| ==> r.lines == [] && r.remaining == rem
    decreases |promos| - k
  {
    if k >= |promos| then Run([], [], rem)
    else
      match Evaluate(promos[k], ctx, items, rem)
      case None => ApplyFrom(promos, k + 1, ctx, items, rem)
      case Some(l) =>
        var rem' := DeductTargetBase(rem, l.applyTo, l.amount);
        if !promos[k].stackable then Run([l], [k], rem')
        else
          var r := ApplyFrom(promos, k + 1, ctx, items, rem');
          Run([l] + r.lines, [k] + r.picked, r.remaining)
  }

  /** A rule without a line leaves the walk to the rules after it, with the same pools. */
  lemma ApplyFromSkip(promos: seq<Promotion>, k: nat, ctx: Context, items: seq<ServiceItem>, rem: Pools)
    requires k < |promos| && Evaluate(promos[k], ctx, items, rem).None?
    ensures ApplyFrom(promos, k, ctx, items, rem) == ApplyFrom(promos, k + 1, ctx, items, rem)
  {
  }

  /** A rule with a line charges it to its pool and, when not stackable, ends the walk. */
  lemma ApplyFromTake(promos: seq<Promotion>, k: nat, ctx: Context, items: seq<ServiceItem>, rem: Pools, l: DiscountLine)
    requires k < |promos| && Evaluate(promos[k], ctx, items, rem) == Some(l)
    ensures var rem' := DeductTargetBase(rem, l.applyTo, l.amount);
      var r := ApplyFrom(promos, k + 1, ctx, items, rem');
      ApplyFrom(promos, k, ctx, items, rem) ==
        if promos[k].stackable then Run([l] + r.lines, [k] + r.picked, r.remaining) else Run([l], [k], rem')
  {
  }

  /** A walk's result behind lines and picks already made. */
  function Joined(lines: seq<DiscountLine>, picked: seq<nat>, r: Run): (j: Run)
    ensures |j.lines| == |lines| + |r.lines| && j.remaining == r.remaining
  {
    Run(lines + r.lines, picked + r.picked, r.remaining)
  }

  /**
   * One step of the walk behind a prefix: the rule at k either gives no
   * line, or adds its line to the prefix and charges its pool, and the
   * walk ends there when the rule is not stackable.
   */
  lemma ApplyFromStep(promos: seq<Promotion>, k: nat, ctx: Context, items: seq<ServiceItem>, rem: Pools,
                      lines: seq<DiscountLine>, picked: seq<nat>, spec: Run)
    requires k < |promos|
    requires spec == Joined(lines, picked, ApplyFrom(promos, k, ctx, items, rem))
    ensures match Evaluate(promos[k], ctx, items, rem)
      case None => spec == Joined(lines, picked, ApplyFrom(promos, k + 1, ctx, items, rem))
      case Some(l) =>
        var rem' := DeductTargetBase(rem, l.applyTo, l.amount);
        if promos[k].stackable then spec == Joined(lines + [l], picked + [k], ApplyFrom(promos, k + 1, ctx, items, rem'))
        else spec == Run(lines + [l], picked + [k], rem')
  {
    match Evaluate(promos[k], ctx, items, rem)
    case None =>
    case Some(l) =>
      var rem' := DeductTargetBase(rem, l.applyTo, l.amount);
      JoinedCons(lines, picked, l, k, ApplyFrom(promos, k + 1, ctx, items, rem'));
  }

  /** Moving a walk's first line and pick onto the prefix leaves the joined result as it was. */
  lemma JoinedCons(lines: seq<DiscountLine>, picked: seq<nat>, l: DiscountLine, k: nat, r: Run)
    ensures Joined(lines, picked, Run([l] + r.lines, [k] + r.picked, r.remaining)) == Joined(lines + [l], picked + [k], r)
  {
    assert lines + ([l] + r.lines) == (lines + [l]) + r.lines;
    assert picked + ([k] + r.picked) == (picked + [k]) + r.picked;
  }

  /** The total of the line amounts that went to one pool. */
  function SumFor(lines: seq<DiscountLine>, q: Pool): int
  {
    if lines == [] then 0
    else (if PoolOf(lines[0].applyTo) == q then lines[0].amount else 0) + SumFor(lines[1..], q)
  }

  /** `discountTotal`: every line's amount rounded to whole VND, summed in order. */
  function DiscountTotal(lines: seq<DiscountLine>): (t: int)
    ensures t >= 0
    ensures |lines| == 1 ==> t == RoundVnd(lines[0].amount)
  {
    if lines == [] then 0 else RoundVnd(lines[0].amount) + DiscountTotal(lines[1..])
  }

  /** The picks lie in [k, n) in increasing order. */
  predicate PicksInOrder(picked: seq<nat>, k: nat, n: nat)
  {
    && (forall j :: 0 <= j < |picked| ==> k <= picked[j] < n)
    && (forall i, j :: 0 <= i < j < |picked| ==> picked[i] < picked[j])
  }

  /** Each line is positive and targeted as its rule says; every picked rule but the last is stackable. */
  predicate LinesMatchPicks(promos: seq<Promotion>, lines: seq<DiscountLine>, picked: seq<nat>)
    requires |lines| == |picked| && forall j :: 0 <= j < |picked| ==> picked[j] < |promos|
  {
    && (forall j :: 0 <= j < |lines| ==> lines[j].amount > 0)
    && (forall j :: 0 <= j < |lines| ==> lines[j].applyTo == ApplyTo(promos[picked[j]]))
    && (forall j :: 0 <= j < |picked| - 1 ==> promos[picked[j]].stackable)
  }

  predicate PicksOk(promos: seq<Promotion>, k: nat, r: Run)
  {
    && |r.picked| == |r.lines|
    && PicksInOrder(r.picked, k, |promos|)
    && LinesMatchPicks(promos, r.lines, r.picked)
  }

  lemma PicksInOrderCons(k: nat, ps: seq<nat>, n: nat)
    requires k < n && PicksInOrder(ps, k + 1, n)
    ensures PicksInOrder([k] + ps, k, n)
  {
    assert forall j :: 1 <= j < |[k] + ps| ==> ([k] + ps)[j] == ps[j - 1];
  }

  lemma LinesMatchPicksCons(promos: seq<Promotion>, l: DiscountLine, k: nat, lines: seq<DiscountLine>, picked: seq<nat>)
    requires k < |promos| && promos[k].stackable
    requires l.amount > 0 && l.applyTo == ApplyTo(promos[k])
    requires |lines| == |picked| && forall j :: 0 <= j < |picked| ==> picked[j] < |promos|
    requires LinesMatchPicks(promos, lines, picked)
    ensures LinesMatchPicks(promos, [l] + lines, [k] + picked)
  {
    assert forall j :: 1 <= j < |[k] + picked| ==> ([k] + picked)[j] == picked[j - 1];
    assert forall j :: 1 <= j < |[l] + lines| ==> ([l] + lines)[j] == lines[j - 1];
  }

  /** A stackable rule's line in front of a walk that starts after it. */
  lemma PicksOkCons(promos: seq<Promotion>, k: nat, l: DiscountLine, r: Run)
    requires k < |promos| && promos[k].stackable
    requires l.amount > 0 && l.applyTo == ApplyTo(promos[k])
    requires PicksOk(promos, k + 1, r)
    ensures PicksOk(promos, k, Run([l] + r.lines, [k] + r.picked, r.remaining))
  {
    PicksInOrderCons(k, r.picked, |promos|);
    LinesMatchPicksCons(promos, l, k, r.lines, r.picked);
  }

  /** Picks made from the rules after k are picks from k on. */
  lemma PicksOkLater(promos: seq<Promotion>, k: nat, r: Run)
    requires PicksOk(promos, k + 1, r)
    ensures PicksOk(promos, k, r)
  {
  }

  /** One positive line from the rule at k, targeted as that rule says. */
  lemma PicksOkSingle(promos: seq<Promotion>, k: nat, l: DiscountLine, rem: Pools)
    requires k < |promos| && l.amount > 0 && l.applyTo == ApplyTo(promos[k])
    ensures PicksOk(promos, k, Run([l], [k], rem))
  {
  }

  /**
   * Which rules gave lines: one applied rule per line, in list order, each
   * with a positive amount taken from the pool its rule targets; every rule
   * but the last applied one is stackable, so nothing after a
   * non-stackable rule that fired gives a line.
   */
  lemma {:induction false} ApplyFromPicks(promos: seq<Promotion>, k: nat, ctx: Context, items: seq<ServiceItem>, rem: Pools)
    ensures PicksOk(promos, k, ApplyFrom(promos, k, ctx, items, rem))
    decreases |promos| - k
  {
    if k < |promos| {
      match Evaluate(promos[k], ctx, items, rem)
      case None =>
        ApplyFromSkip(promos, k, ctx, items, rem);
        ApplyFromPicks(promos, k + 1, ctx, items, rem);
        PicksOkLater(promos, k, ApplyFrom(promos, k + 1, ctx, items, rem));
      case Some(l) =>
        ApplyFromTake(promos, k, ctx, items, rem, l);
        var rem' := DeductTargetBase(rem, l.applyTo, l.amount);
        if promos[k].stackable {
          ApplyFromPicks(promos, k + 1, ctx, items, rem');
          PicksOkCons(promos, k, l, ApplyFrom(promos, k + 1, ctx, items, rem'));
        } else {
          PicksOkSingle(promos, k, l, rem');
        }
    }
  }

  /** Charging a line no larger than its pool keeps every pool at 0 or more and moves the amount. */
  lemma DeductKeepsPools(rem: Pools, l: DiscountLine, q: Pool)
    requires PoolsNonNegative(rem) && 0 < l.amount <= Get(rem, PoolOf(l.applyTo))
    ensures var rem' := DeductTargetBase(rem, l.applyTo, l.amount);
      PoolsNonNegative(rem') && Get(rem, q) == Get(rem', q) + (if PoolOf(l.applyTo) == q then l.amount else 0)
  {
    var rem' := DeductTargetBase(rem, l.applyTo, l.amount);
    assert forall q' :: Get(rem', q') >= 0;
  }

  /**
   * Each pool ends at its start minus the lines taken from it, never below
   * zero; a discount never exceeds what is left in its pool.
   */
  lemma {:induction false} ApplyFromConservesPools(promos: seq<Promotion>, k: nat, ctx: Context, items: seq<ServiceItem>, rem: Pools, q: Pool)
    requires PoolsNonNegative(rem)
    ensures var r := ApplyFrom(promos, k, ctx, items, rem);
      PoolsNonNegative(r.remaining) && Get(rem, q) == Get(r.remaining, q) + SumFor(r.lines, q)
    decreases |promos| - k
  {
    if k < |promos| {
      match Evaluate(promos[k], ctx, items, rem)
      case None =>
        ApplyFromSkip(promos, k, ctx, items, rem);
        ApplyFromConservesPools(promos, k + 1, ctx, items, rem, q);
      case Some(l) =>
        ApplyFromTake(promos, k, ctx, items, rem, l);
        var rem' := DeductTargetBase(rem, l.applyTo, l.amount);
        DeductKeepsPools(rem, l, q);
        if promos[k].stackable {
          ApplyFromConservesPools(promos, k + 1, ctx, items, rem', q);
          var r := ApplyFrom(promos, k + 1, ctx, items, rem');
          assert ([l] + r.lines)[1..] == r.lines;
        } else {
          assert [l][1..] == [];
        }
    }
  }

  /** With positive amounts, the discount total is the sum over the three pools. */
  lemma {:induction false} DiscountTotalByPool(lines: seq<DiscountLine>)
    requires forall j :: 0 <= j < |lines| ==> lines[j].amount > 0
    ensures DiscountTotal(lines) == SumFor(lines, PlayPool) + SumFor(lines, ServicePool) + SumFor(lines, BillPool)
  {
    if lines != [] {
      DiscountTotalByPool(lines[1..]);
    }
  }

  /**
   * The facts of a whole walk from the context's pools: pools end at 0 or
   * more and at their start less the lines charged to them, every line is
   * positive, and the discount total is the sum of the three pools' lines.
   */
  lemma ApplyFromTotals(promos: seq<Promotion>, ctx: Context, items: seq<ServiceItem>)
    ensures var r := ApplyFrom(promos, 0, ctx, items, BuildBaseAmounts(ctx.playAmount, ctx.serviceAmount, ctx.subTotal));
      && PoolsNonNegative(r.remaining)
      && (forall j :: 0 <= j < |r.lines| ==> r.lines[j].amount > 0)
      && RoundVnd(ctx.playAmount) == r.remaining.playRemaining + SumFor(r.lines, PlayPool)
      && RoundVnd(ctx.serviceAmount) == r.remaining.serviceRemaining + SumFor(r.lines, ServicePool)
      && RoundVnd(ctx.subTotal) == r.remaining.billRemaining + SumFor(r.lines, BillPool)
      && DiscountTotal(r.lines) == SumFor(r.lines, PlayPool) + SumFor(r.lines, ServicePool) + SumFor(r.lines, BillPool)
  {
    var rem := BuildBaseAmounts(ctx.playAmount, ctx.serviceAmount, ctx.subTotal);
    var r := ApplyFrom(promos, 0, ctx, items, rem);
    ApplyFromPicks(promos, 0, ctx, items, rem);
    ApplyFromConservesPools(promos, 0, ctx, items, rem, PlayPool);
    ApplyFromConservesPools(promos, 0, ctx, items, rem, ServicePool);
    ApplyFromConservesPools(promos, 0, ctx, items, rem, BillPool);
    DiscountTotalByPool(r.lines);
  }

  datatype Summary = Summary(playRemaining: int, serviceRemaining: int, billRemaining: int, discountTotal: int)

  /**
   * `applyPromotions` over rules already loaded in apply order. The result
   * is the walk `ApplyFrom`; each pool ends at its start less the lines
   * charged to it, never below zero; every line is positive; the total is
   * the sum of the lines; after a non-stackable rule fires, no later rule
   * gives a line.
   */
  method ApplyPromotions(ctx: Context, promotions: seq<Promotion>, categoryOf: map<string, string>)
    returns (lines: seq<DiscountLine>, summary: Summary)
    ensures var items := NormalizeServiceItems(ctx.serviceItems, categoryOf);
      var run := ApplyFrom(promotions, 0, ctx, items, BuildBaseAmounts(ctx.playAmount, ctx.serviceAmount, ctx.subTotal));
      lines == run.lines &&
      summary == Summary(run.remaining.playRemaining, run.remaining.serviceRemaining, run.remaining.billRemaining, DiscountTotal(lines))
    ensures forall j :: 0 <= j < |lines| ==> lines[j].amount > 0
    ensures summary.playRemaining >= 0 && summary.serviceRemaining >= 0 && summary.billRemaining >= 0
    ensures RoundVnd(ctx.playAmount) == summary.playRemaining + SumFor(lines, PlayPool)
    ensures RoundVnd(ctx.serviceAmount) == summary.serviceRemaining + SumFor(lines, ServicePool)
    ensures RoundVnd(ctx.subTotal) == summary.billRemaining + SumFor(lines, BillPool)
    ensures summary.discountTotal == SumFor(lines, PlayPool) + SumFor(lines, ServicePool) + SumFor(lines, BillPool)
    ensures SumFor(lines, PlayPool) <= RoundVnd(ctx.playAmount) && SumFor(lines, ServicePool) <= RoundVnd(ctx.serviceAmount)
    ensures SumFor(lines, BillPool) <= RoundVnd(ctx.subTotal)
  {
    var items := NormalizeServiceItems(ctx.serviceItems, categoryOf);
    var remaining := BuildBaseAmounts(ctx.playAmount, ctx.serviceAmount, ctx.subTotal);
    lines, remaining := WalkPromotions(promotions, ctx, items, remaining);
    summary := Summary(remaining.playRemaining, remaining.serviceRemaining, remaining.billRemaining, DiscountTotal(lines));
    ApplyFromTotals(promotions, ctx, items);
  }

  /**
   * The loop of `applyPromotions`: each rule in order is evaluated against
   * the pools left, a line is kept and charged to its pool, and the loop
   * stops after the line of a non-stackable rule.
   */
  method WalkPromotions(promotions: seq<Promotion>, ctx: Context, items: seq<ServiceItem>, rem0: Pools)
    returns (lines: seq<DiscountLine>, remaining: Pools)
    ensures lines == ApplyFrom(promotions, 0, ctx, items, rem0).lines
    ensures remaining == ApplyFrom(promotions, 0, ctx, items, rem0).remaining
  {
    remaining := rem0;
    ghost var picked: seq<nat> := [];
    lines := [];
    var stopDueToNonStackable := false;
    ghost var spec := ApplyFrom(promotions, 0, ctx, items, rem0);

    for i := 0 to |promotions|
      invariant stopDueToNonStackable ==> spec == Run(lines, picked, remaining)
      invariant !stopDueToNonStackable ==> spec == Joined(lines, picked, ApplyFrom(promotions, i, ctx, items, remaining))
    {
      if stopDueToNonStackable { break; }
      ApplyFromStep(promotions, i, ctx, items, remaining, lines, picked, spec);
      var promo := promotions[i];
      var evaluated := Evaluate(promo, ctx, items, remaining);
      if evaluated.Some? {
        var line := evaluated.value;
        remaining := DeductTargetBase(remaining, line.applyTo, line.amount);
        lines := lines + [line];
        picked := picked + [i];
        if !promo.stackable {
          stopDueToNonStackable := true;
        }
      }
    }
    if !stopDueToNonStackable {
      assert ApplyFrom(promotions, |promotions|, ctx, items, remaining) == Run([], [], remaining);
    }
    assert lines + [] == lines && picked + [] == picked;
  }

  /* ------------------------------------------------- context from a session */

  /** The figures of a close preview, 0 standing for a missing one. */
  datatype PreviewFigures = PreviewFigures(billMinutes: int, playAmount: int, serviceAmount: int, subTotal: int)

  /** A session line as a service item: its snapshot price, quantity and amount. */
  function SessionServiceItem(it: SessionItem): (r: RawServiceItem)
    ensures r.categoryId.None? && r.price == it.priceSnapshot && r.qty == it.qty
    ensures r.amount == Some(ItemAmount(it))
    ensures r.productId.Some? <==> it.product != ""
  {
    RawServiceItem(if it.product != "" then Some(it.product) else None, None, it.priceSnapshot, 0, it.qty,
                   Some(it.priceSnapshot * it.qty))
  }

  function SessionServiceItems(items: seq<SessionItem>): (raw: seq<RawServiceItem>)
    ensures |raw| == |items|
    ensures forall i :: 0 <= i < |items| ==> raw[i] == SessionServiceItem(items[i])
  {
    seq(|items|, i requires 0 <= i < |items| => SessionServiceItem(items[i]))
  }

  /**
   * `buildContextFromSession`: the preview's figures when there is one
   * (a missing subtotal is play plus service), else the session's own
   * duration and service amount with no play amount. `tableType` is the
   * type looked up from the session's table, if any.
   */
  function BuildContextFromSession(s: Session, preview: Option<PreviewFigures>, endAt: int, tableType: Option<string>): (ctx: Context)
    ensures ctx.at == endAt && ctx.tableTypeId == tableType
    ensures ctx.serviceItems == SessionServiceItems(s.items)
    ensures preview.Some? ==>
      var p := preview.value;
      && ctx.playMinutes == Some(p.billMinutes) && ctx.playAmount == p.playAmount
      && ctx.serviceAmount == p.serviceAmount
      && ctx.subTotal == (if p.subTotal != 0 then p.subTotal else p.playAmount + p.serviceAmount)
    ensures preview.None? ==>
      && ctx.playMinutes == Some(s.durationMinutes.GetOr(0)) && ctx.playAmount == 0
      && ctx.serviceAmount == ServiceAmount(s.items) && ctx.subTotal == ctx.serviceAmount
  {
    var items := SessionServiceItems(s.items);
    match preview
    case Some(p) =>
      Context(endAt, tableType, Some(p.billMinutes), p.playAmount, items, p.serviceAmount,
              if p.subTotal != 0 then p.subTotal else p.playAmount + p.serviceAmount)
    case None =>
      var service := ServiceAmount(s.items);
      Context(endAt, tableType, Some(s.durationMinutes.GetOr(0)), 0, items, service, service)
  }

  /**
   * The service items the engine builds from a session add up to the
   * session's service amount, so a product rule with empty allow-lists
   * and no combo sees the whole service bill.
   */
  lemma {:induction false} SessionItemsSumToServiceAmount(items: seq<SessionItem>, categoryOf: map<string, string>)
    requires ItemsOk(items)
    ensures SumItemAmounts(NormalizeServiceItems(SessionServiceItems(items), categoryOf)) == ServiceAmount(items)
  {
    if items != [] {
      var n := |items| - 1;
      var front := items[..n];
      assert ItemsOk(front) by {
        forall j | 0 <= j < |front| ensures ItemOk(front[j]) {
          assert front[j] == items[j];
        }
      }
      SessionItemsSumToServiceAmount(front, categoryOf);
      var all := NormalizeServiceItems(SessionServiceItems(items), categoryOf);
      assert all[..n] == NormalizeServiceItems(SessionServiceItems(front), categoryOf);
      assert ItemOk(items[n]);
      assert all[n].amount == ItemAmount(items[n]);
    }
  }

  /** With no preview, a product rule without lists or combo can use the whole service amount. */
  lemma ProductRuleWithoutListsSeesAllService(s: Session, endAt: int, tableType: Option<string>, categoryOf: map<string, string>, rule: ProductRule)
    requires ItemsOk(s.items)
    requires |rule.products| == 0 && |rule.categories| == 0 && |rule.combo| == 0
    ensures var ctx := BuildContextFromSession(s, None, endAt, tableType);
      SumEligibleProductAmount(NormalizeServiceItems(ctx.serviceItems, categoryOf), rule) == ctx.serviceAmount
  {
    var items := NormalizeServiceItems(SessionServiceItems(s.items), categoryOf);
    EmptyAllowListsAdmitAll(items, rule);
    SessionItemsSumToServiceAmount(s.items, categoryOf);
  }
}
