/**
 * The session lifecycle of the billing service over an in-memory store:
 * check-in, the basket edits, the close preview and checkout. Every
 * operation either fails with an error and changes nothing or applies all
 * of its effects, as the service's transactions do.
 */
module SessionLifecycle {
  import opened Common
  import opened Money
  import opened BillingRules
  import opened SessionModel

  /** The errors the service throws, one per message. */
  datatype Error =
    | QuantityNotPositive   // "Quantity must be > 0"
    | SessionNotFound
    | SessionNotOpen
    | ProductUnavailable    // "Product not found or inactive"
    | ItemNotFound
    | TableNotFound
    | TableInactive
    | TableHasOpenSession
    | TableTypeNotFound
    | SessionAlreadyClosed
    | ValidationFailed      // a save the session schema rejects

  /** `TABLE_STATUS`. */
  datatype TableStatus = Available | Playing | Reserved | Maintenance

  /** A table as the billing service reads it: its own rate, activity, branch and type. */
  datatype Table = Table(
    name: string,
    status: TableStatus,
    ratePerHour: int,
    active: bool,
    branchId: Option<string>,
    tableType: Option<TableType>)

  datatype Product = Product(name: string, price: int, active: bool)

  /* ------------------------------------------------------------ check-in */

  /**
   * The record `openSession` creates: open, empty, started at `startAt`,
   * with the table's own rate (a table rate is never negative) and the
   * stored form of the active setting's rounding rule.
   */
  function CheckInSession(table: Table, tableId: TableId, staffId: StaffId, startAt: int, setting: Setting): (s: Session)
    ensures IsOpen(s) && s.table == tableId && s.startTime == startAt && s.items == []
    ensures s.staffStart == staffId && s.staffEnd.None? && s.durationMinutes.None?
    ensures table.ratePerHour >= 0 ==> s.pricing == PricingSnapshot(table.ratePerHour, FromTable)
    ensures s.billingRule == PersistRule(BuildBillingRuleSnapshot(setting.billing))
  {
    var q := ResolveRatePerHour(Some(table.ratePerHour), table.tableType, startAt);
    var rule := BuildBillingRuleSnapshot(setting.billing);
    Session(tableId, startAt, None, None, [], staffId, None, Open,
            PricingSnapshot(q.ratePerHour, q.source), PersistRule(rule))
  }

  /** A session closed at the instant it opened bills no minutes. */
  lemma CheckInBillsNothing(table: Table, tableId: TableId, staffId: StaffId, startAt: int, setting: Setting)
    ensures ModelComputeMinutes(CheckInSession(table, tableId, staffId, startAt, setting), startAt).billMinutes == 0
  {
    assert RawMinutes(startAt, startAt) == 0;
  }

  /* ---------------------------------------------------------- basket edits */

  /** The first basket line of the given product, if any. */
  function FindProductLine(items: seq<SessionItem>, product: ProductId): (i: Option<nat>)
    ensures i.Some? ==> i.value < |items| && items[i.value].product == product
    ensures i.Some? ==> forall j :: 0 <= j < i.value ==> items[j].product != product
    ensures i.None? ==> forall j :: 0 <= j < |items| ==> items[j].product != product
  {
    if items == [] then None
    else if items[0].product == product then Some(0)
    else
      var r := FindProductLine(items[1..], product);
      if r.Some? then Some(r.value + 1) else None
  }

  /**
   * The basket's `id()` lookup: the first line whose own id is `id`, if
   * any. It is the search of `FindProductLine` keyed on the line id rather
   * than on the product.
   */
  function FindItem(items: seq<SessionItem>, id: ItemId): (i: Option<nat>)
    ensures i.Some? ==> i.value < |items| && items[i.value].id == id
    ensures i.Some? ==> forall j :: 0 <= j < i.value ==> items[j].id != id
    ensures i.None? ==> forall j :: 0 <= j < |items| ==> items[j].id != id
  {
    if items == [] then None
    else if items[0].id == id then Some(0)
    else
      var r := FindItem(items[1..], id);
      if r.Some? then Some(r.value + 1) else None
  }

  /**
   * The basket after `addItem`: the first line of the product gets the
   * extra quantity (and the note, when one is given) and no other line
   * changes; without such a line one new line with the product's name and
   * price is appended.
   */
  function AddToItems(items: seq<SessionItem>, productId: ProductId, p: Product, qty: int, note: string, newId: ItemId): (r: seq<SessionItem>)
    ensures FindProductLine(items, productId).Some? ==>
      var i := FindProductLine(items, productId).value;
      && |r| == |items|
      && r[i] == items[i].(qty := items[i].qty + qty, note := if note != "" then note else items[i].note)
      && (forall j :: 0 <= j < |items| && j != i ==> r[j] == items[j])
    ensures FindProductLine(items, productId).None? ==>
      r == items + [SessionItem(newId, productId, p.name, p.price, qty, note)]
  {
    match FindProductLine(items, productId)
    case Some(i) =>
      items[i := items[i].(qty := items[i].qty + qty, note := if note != "" then note else items[i].note)]
    case None =>
      items + [SessionItem(newId, productId, p.name, p.price, qty, note)]
  }

  /** Raising a line's quantity by n raises its amount by n at its price snapshot. */
  lemma ItemAmountBump(it: SessionItem, it': SessionItem, n: int)
    requires it'.priceSnapshot == it.priceSnapshot && it'.qty == it.qty + n
    ensures ItemAmount(it') == ItemAmount(it) + it.priceSnapshot * n
  {
    MulAddDistributes(it.priceSnapshot, it.qty, n);
  }

  /**
   * Adding grows the service amount by the added quantity at the line's
   * price snapshot: the product's current price for a new line, the price
   * frozen at the first add for an existing one.
   */
  lemma AddToItemsServiceAmount(items: seq<SessionItem>, productId: ProductId, p: Product, qty: int, note: string, newId: ItemId)
    ensures var f := FindProductLine(items, productId);
      var price := if f.Some? then items[f.value].priceSnapshot else p.price;
      ServiceAmount(AddToItems(items, productId, p, qty, note, newId)) == ServiceAmount(items) + price * qty
  {
    var f := FindProductLine(items, productId);
    if f.Some? {
      var i := f.value;
      var it := items[i].(qty := items[i].qty + qty, note := if note != "" then note else items[i].note);
      assert AddToItems(items, productId, p, qty, note, newId) == items[i := it];
      ServiceAmountUpdate(items, i, it);
      ItemAmountBump(items[i], it, qty);
    } else {
      var line := SessionItem(newId, productId, p.name, p.price, qty, note);
      assert AddToItems(items, productId, p, qty, note, newId) == items + [line];
      ServiceAmountAppend(items, [line]);
      assert [line][..0] == [];
    }
  }

  /**
   * Saving after an add of a positive quantity is rejected exactly when a
   * new line would carry an empty name or a negative price.
   */
  lemma AddToItemsValidation(items: seq<SessionItem>, productId: ProductId, p: Product, qty: int, note: string, newId: ItemId)
    requires ItemsOk(items) && qty > 0
    ensures ItemsOk(AddToItems(items, productId, p, qty, note, newId)) <==>
      FindProductLine(items, productId).Some? || (p.name != "" && p.price >= 0)
  {
    var r := AddToItems(items, productId, p, qty, note, newId);
    if FindProductLine(items, productId).None? {
      assert r[|items|] == SessionItem(newId, productId, p.name, p.price, qty, note);
    }
  }

  /** Deleting the line at `i`: the others keep their order and values. */
  function RemoveAt(items: seq<SessionItem>, i: nat): (r: seq<SessionItem>)
    requires i < |items|
    ensures |r| == |items| - 1
    ensures forall j :: 0 <= j < i ==> r[j] == items[j]
    ensures forall j :: i <= j < |r| ==> r[j] == items[j + 1]
    ensures ServiceAmount(r) == ServiceAmount(items) - ItemAmount(items[i])
  {
    ServiceAmountDelete(items, i);
    items[..i] + items[i + 1..]
  }

  /** `updateItemQty` on the line at `i`: a quantity of 0 or less deletes it, any other sets it. */
  function UpdateQtyItems(items: seq<SessionItem>, i: nat, qty: int): (r: seq<SessionItem>)
    requires i < |items|
    ensures qty <= 0 ==> r == RemoveAt(items, i)
    ensures qty > 0 ==> (|r| == |items| && r[i] == items[i].(qty := qty) &&
                         forall j :: 0 <= j < |items| && j != i ==> r[j] == items[j])
    ensures qty > 0 ==> ServiceAmount(r) == ServiceAmount(items) - ItemAmount(items[i]) + items[i].priceSnapshot * qty
  {
    if qty <= 0 then RemoveAt(items, i)
    else
      ServiceAmountUpdate(items, i, items[i].(qty := qty));
      items[i := items[i].(qty := qty)]
  }

  /** Quantity edits and deletions never break the item constraints. */
  lemma EditsKeepItemsOk(items: seq<SessionItem>, i: nat, qty: int)
    requires ItemsOk(items) && i < |items|
    ensures ItemsOk(UpdateQtyItems(items, i, qty)) && ItemsOk(RemoveAt(items, i))
  {
    var r := RemoveAt(items, i);
    assert forall j :: 0 <= j < |r| ==> ItemOk(r[j]) by {
      forall j | 0 <= j < |r| ensures ItemOk(r[j]) {
        if j >= i { assert r[j] == items[j + 1]; }
      }
    }
  }

  /* ------------------------------------------------------------- the bill */

  datatype BillItem =
    | PlayLine(minutes: int, ratePerHour: int, amount: int)
    | ProductLine(product: ProductId, productName: string, priceSnapshot: int, qty: int, amount: int, note: string)

  /** A discount line handed to preview or checkout; 0 is a missing value or cap. */
  datatype DiscountInput = DiscountInput(name: string, kind: string, value: int, maxAmount: int)

  datatype Bill = Bill(
    session: SessionId,
    table: TableId,
    tableName: string,
    items: seq<BillItem>,
    playMinutes: int,
    playAmount: int,
    serviceAmount: int,
    subtotal: int,
    discountLines: seq<Option<DiscountInput>>,
    surcharge: int,
    discountTotal: int,
    total: int,
    paid: bool,
    paidAt: Option<int>,
    paymentMethod: string,
    staff: StaffId)

  /** A session line as a bill line, its amount rounded and at least 0. */
  function ProductLineOf(it: SessionItem): (l: BillItem)
    ensures l.ProductLine? && l.product == it.product && l.productName == it.nameSnapshot
    ensures l.priceSnapshot == it.priceSnapshot && l.qty == it.qty && l.note == it.note
    ensures l.amount == RoundVnd(ItemAmount(it))
  {
    ProductLine(it.product, it.nameSnapshot, it.priceSnapshot, it.qty, RoundVnd(it.priceSnapshot * it.qty), it.note)
  }

  function ProductLines(items: seq<SessionItem>): (ls: seq<BillItem>)
    ensures |ls| == |items| && forall i :: 0 <= i < |items| ==> ls[i] == ProductLineOf(items[i])
  {
    seq(|items|, i requires 0 <= i < |items| => ProductLineOf(items[i]))
  }

  /** The bill lines' amounts summed in order. */
  function SumBillAmounts(ls: seq<BillItem>): int
  {
    if ls == [] then 0 else SumBillAmounts(ls[..|ls| - 1]) + ls[|ls| - 1].amount
  }

  /** The bill's service amount is the session's `serviceAmount` on well-formed items. */
  lemma {:induction false} BillServiceAmountIsSessionServiceAmount(items: seq<SessionItem>)
    requires ItemsOk(items)
    ensures SumBillAmounts(ProductLines(items)) == ServiceAmount(items)
  {
    if items != [] {
      var n := |items| - 1;
      assert ItemsOk(items[..n]) by {
        forall j | 0 <= j < n ensures ItemOk(items[..n][j]) { assert items[..n][j] == items[j]; }
      }
      BillServiceAmountIsSessionServiceAmount(items[..n]);
      assert ProductLines(items)[..n] == ProductLines(items[..n]);
      assert ItemOk(items[n]);
      MulMonotone(items[n].priceSnapshot, 0, items[n].qty);
    }
  }

  /** The minutes checkout and preview bill: the stored rule, read back without a mode. */
  function CheckoutMinutes(s: Session, endAt: int): (m: Minutes)
    ensures m == ComputeMinutes(Some(s.startTime), endAt, RuleOf(s.billingRule))
    ensures m == ModelComputeMinutes(s.(endTime := Some(endAt)), endAt)
  {
    ComputeMinutes(Some(s.startTime), endAt, RuleOf(s.billingRule))
  }

  /**
   * The bill `checkoutSession` creates: the play line first, then one
   * product line per session item in basket order; the service amount is
   * the sum of the product lines; the surcharge is at least 0; subtotal,
   * discount total and total are left at 0; paid bills carry the time of
   * payment; the staff is the closing one, else the opening one.
   */
  function CheckoutBill(id: SessionId, s: Session, tableName: string, staffEnd: Option<StaffId>, endAt: int,
                        discountLines: seq<Option<DiscountInput>>, surcharge: int, paymentMethod: string,
                        paid: bool, now: int): (b: Bill)
    ensures var m := CheckoutMinutes(s, endAt);
      && |b.items| == |s.items| + 1
      && b.items[0] == PlayLine(m.billMinutes, s.pricing.ratePerHour, ComputePlayAmount(s.pricing.ratePerHour, m.billMinutes))
      && b.items[1..] == ProductLines(s.items)
      && b.playMinutes == m.billMinutes && b.playAmount == b.items[0].amount
    ensures b.serviceAmount == SumBillAmounts(b.items[1..])
    ensures b.surcharge == RoundVnd(surcharge) && b.subtotal == 0 && b.discountTotal == 0 && b.total == 0
    ensures b.paidAt == (if paid then Some(now) else None)
    ensures b.staff == staffEnd.GetOr(s.staffStart)
    ensures b.session == id && b.table == s.table && b.tableName == tableName
    ensures b.discountLines == discountLines && b.paid == paid && b.paymentMethod == paymentMethod
  {
    var m := CheckoutMinutes(s, endAt);
    var rate := s.pricing.ratePerHour;
    var play := PlayLine(m.billMinutes, rate, ComputePlayAmount(rate, m.billMinutes));
    var svc := ProductLines(s.items);
    assert ([play] + svc)[1..] == svc;
    Bill(id, s.table, tableName, [play] + svc, m.billMinutes, play.amount, SumBillAmounts(svc), 0,
         discountLines, Max(0, surcharge), 0, 0, paid, if paid then Some(now) else None, paymentMethod,
         staffEnd.GetOr(s.staffStart))
  }

  /**
   * The session after checkout: closed at `endAt` with the billed
   * minutes; its model-level `computeMinutes` at any later time gives the
   * same minutes as the bill.
   */
  function ClosedSession(s: Session, staffEnd: Option<StaffId>, endAt: int): (c: Session)
    ensures c.status == Closed && !IsOpen(c) && c.endTime == Some(endAt)
    ensures c.durationMinutes == Some(CheckoutMinutes(s, endAt).billMinutes)
    ensures c.staffEnd == Some(staffEnd.GetOr(s.staffStart))
    ensures c.(endTime := s.endTime, durationMinutes := s.durationMinutes, status := s.status, staffEnd := s.staffEnd) == s
    ensures forall later :: ModelComputeMinutes(c, later) == CheckoutMinutes(s, endAt)
  {
    s.(endTime := Some(endAt), durationMinutes := Some(CheckoutMinutes(s, endAt).billMinutes), status := Closed,
       staffEnd := Some(staffEnd.GetOr(s.staffStart)))
  }

  /* ---------------------------------------------------------- the preview */

  function RealMin(a: real, b: real): real { if a <= b then a else b }

  /**
   * One discount line of `previewClose`: a percentage of the subtotal
   * capped by `maxAmount` (or by the subtotal when no cap is given), a
   * fixed value, or nothing for any other type.
   */
  function LineDiscount(d: DiscountInput, subtotal: int): (r: real)
    ensures d.kind == "percent" ==> r <= (if d.maxAmount != 0 then d.maxAmount else subtotal) as real
    ensures d.kind == "percent" ==> r <= (subtotal * d.value) as real / 100.0
    ensures d.kind == "percent" && d.value >= 0 && subtotal >= 0 && d.maxAmount >= 0 ==> r >= 0.0
    ensures d.kind == "percent" ==>
      r == RealMin((subtotal * d.value) as real / 100.0, (if d.maxAmount != 0 then d.maxAmount else subtotal) as real)
    ensures d.kind == "value" ==> r == d.value as real
    ensures d.kind != "percent" && d.kind != "value" ==> r == 0.0
  {
    if d.kind == "percent" then
      assert subtotal >= 0 && d.value >= 0 ==> subtotal * d.value >= 0 by {
        if subtotal >= 0 && d.value >= 0 { MulMonotone(subtotal, 0, d.value); }
      }
      RealMin((subtotal * d.value) as real / 100.0, (if d.maxAmount != 0 then d.maxAmount else subtotal) as real)
    else if d.kind == "value" then d.value as real
    else 0.0
  }

  /** The running total of the preview's loop; missing lines add nothing. */
  function PreviewDiscountTotal(lines: seq<Option<DiscountInput>>, subtotal: int): real
  {
    if lines == [] then 0.0
    else
      var last := lines[|lines| - 1];
      PreviewDiscountTotal(lines[..|lines| - 1], subtotal) + (if last.Some? then LineDiscount(last.value, subtotal) else 0.0)
  }

  /** What `previewClose` returns. */
  datatype Preview = Preview(
    rawMinutes: int,
    billMinutes: int,
    playAmount: int,
    serviceAmount: int,
    subtotal: int,
    discountTotal: real,
    surcharge: int,
    total: int,
    items: seq<SessionItem>)

  /** The preview of closing `s` at `endAt` with the given discounts and surcharge. */
  function PreviewOf(s: Session, endAt: int, lines: seq<Option<DiscountInput>>, surcharge: int): (p: Preview)
    ensures Minutes(p.rawMinutes, p.billMinutes) == CheckoutMinutes(s, endAt)
    ensures p.playAmount == ComputePlayAmount(s.pricing.ratePerHour, p.billMinutes)
    ensures p.serviceAmount == ServiceAmount(s.items) && p.subtotal == p.playAmount + p.serviceAmount
    ensures p.discountTotal == PreviewDiscountTotal(lines, p.subtotal) && p.surcharge == surcharge
    ensures p.total >= 0
    ensures var gross := p.subtotal as real - p.discountTotal + surcharge as real;
      gross >= 0.0 ==> p.total as real - 0.5 <= gross < p.total as real + 0.5
    ensures p.subtotal as real - p.discountTotal + surcharge as real < 0.0 ==> p.total == 0
    ensures p.items == s.items
  {
    var m := CheckoutMinutes(s, endAt);
    var play := ComputePlayAmount(s.pricing.ratePerHour, m.billMinutes);
    var service := ServiceAmount(s.items);
    var discount := PreviewDiscountTotal(lines, play + service);
    var total := Max(0, RoundReal((play + service) as real - discount + surcharge as real));
    Preview(m.rawMinutes, m.billMinutes, play, service, play + service, discount, surcharge, total, s.items)
  }

  /** Non-negative discounts never raise the preview's total above the subtotal plus the surcharge. */
  lemma {:induction false} PreviewDiscountNonNegative(lines: seq<Option<DiscountInput>>, subtotal: int)
    requires subtotal >= 0
    requires forall i :: 0 <= i < |lines| && lines[i].Some? ==> lines[i].value.value >= 0 && lines[i].value.maxAmount >= 0
    ensures PreviewDiscountTotal(lines, subtotal) >= 0.0
  {
    if lines != [] {
      PreviewDiscountNonNegative(lines[..|lines| - 1], subtotal);
    }
  }

  lemma PreviewTotalAtMostGross(s: Session, endAt: int, lines: seq<Option<DiscountInput>>, surcharge: int)
    requires ItemsOk(s.items) && s.pricing.ratePerHour >= 0 && surcharge >= 0
    requires forall i :: 0 <= i < |lines| && lines[i].Some? ==> lines[i].value.value >= 0 && lines[i].value.maxAmount >= 0
    ensures var p := PreviewOf(s, endAt, lines, surcharge);
      0 <= p.total <= p.subtotal + surcharge
  {
    var p := PreviewOf(s, endAt, lines, surcharge);
    ServiceAmountNonNegative(s.items);
    PreviewDiscountNonNegative(lines, p.subtotal);
  }

  /**
   * Previewing at the checkout instant shows the minutes and play amount
   * the bill will carry, and on well-formed items its service amount.
   */
  lemma PreviewMatchesCheckout(id: SessionId, s: Session, tableName: string, staffEnd: Option<StaffId>, endAt: int,
                               lines: seq<Option<DiscountInput>>, surcharge: int, paymentMethod: string, paid: bool, now: int)
    requires ItemsOk(s.items)
    ensures var p := PreviewOf(s, endAt, lines, surcharge);
      var b := CheckoutBill(id, s, tableName, staffEnd, endAt, lines, surcharge, paymentMethod, paid, now);
      p.billMinutes == b.playMinutes && p.playAmount == b.playAmount && p.serviceAmount == b.serviceAmount
  {
    var b := CheckoutBill(id, s, tableName, staffEnd, endAt, lines, surcharge, paymentMethod, paid, now);
    BillServiceAmountIsSessionServiceAmount(s.items);
  }

  /**
   * A worked close: 47 minutes on a step of 15 bill 60 minutes, 60 000
   * at 60 000 an hour; with 50 000 of service, 10% off capped at 20 000
   * takes 11 000, leaving 99 000.
   */
  lemma PreviewExample()
    ensures var item := SessionItem(1, "beer", "Beer", 25000, 2, "");
      var s := Session(7, 0, None, None, [item], 3, None, Open, PricingSnapshot(60000, FromTable), StoredBillingRule(15, 0));
      var p := PreviewOf(s, 47 * 60000, [Some(DiscountInput("happy hour", "percent", 10, 20000)), None], 0);
      p.billMinutes == 60 && p.playAmount == 60000 && p.subtotal == 110000 && p.discountTotal == 11000.0 && p.total == 99000
  {
    var item := SessionItem(1, "beer", "Beer", 25000, 2, "");
    var s := Session(7, 0, None, None, [item], 3, None, Open, PricingSnapshot(60000, FromTable), StoredBillingRule(15, 0));
    assert RawMinutes(0, 47 * 60000) == 47;
    assert CeilDiv(47, 15) == 4;
    assert ServiceAmount([item]) == 50000 by { assert [item][..0] == []; }
    var lines := [Some(DiscountInput("happy hour", "percent", 10, 20000)), None];
    assert lines[..1][..0] == [];
    assert PreviewDiscountTotal(lines, 110000) == 11000.0 by {
      assert lines[..1] == [lines[0]];
      assert PreviewDiscountTotal(lines[..1], 110000) == 11000.0;
    }
  }

  /* ------------------------------------------------------------ the store */

  /** What the schemas and the service keep true of a stored session. */
  predicate SessionOk(s: Session)
  {
    && ItemsOk(s.items)
    && s.pricing.ratePerHour >= 0 && s.pricing.rateSource == FromTable
    && (s.status == Open ==> s.endTime.None? && s.durationMinutes.None?)
    && (s.status == Closed ==> s.endTime.Some? && s.durationMinutes.Some?)
    && (s.durationMinutes.Some? ==> s.durationMinutes.value >= 0)
  }

  /** The query `Session.findOne({ table, status: 'open' })` finds something. */
  ghost predicate HasOpenSession(sessions: map<SessionId, Session>, t: TableId)
  {
    exists id :: id in sessions && sessions[id].table == t && sessions[id].status == Open
  }

  /**
   * The store's invariant: table rates are at least 0 (the table schema's
   * bound), every session is well formed under an id already handed out,
   * and `openByTable` indexes exactly the open sessions by their table.
   */
  ghost predicate StoreOk(tables: map<TableId, Table>, sessions: map<SessionId, Session>,
                          openByTable: map<TableId, SessionId>, nextSessionId: nat)
  {
    && (forall t :: t in tables ==> tables[t].ratePerHour >= 0)
    && (forall id :: id in sessions ==> id < nextSessionId && SessionOk(sessions[id]))
    && (forall t :: t in openByTable ==>
          openByTable[t] in sessions && sessions[openByTable[t]].table == t && sessions[openByTable[t]].status == Open)
    && (forall id :: id in sessions && sessions[id].status == Open ==>
          sessions[id].table in openByTable && openByTable[sessions[id].table] == id)
  }

  /** Check-in of a table without an open session keeps the invariant. */
  lemma CheckInKeepsStoreOk(tables: map<TableId, Table>, sessions: map<SessionId, Session>,
                            openByTable: map<TableId, SessionId>, next: nat, tableId: TableId, s: Session)
    requires StoreOk(tables, sessions, openByTable, next)
    requires tableId in tables && tableId !in openByTable
    requires SessionOk(s) && s.table == tableId && s.status == Open
    ensures StoreOk(tables[tableId := tables[tableId].(status := Playing)], sessions[next := s],
                    openByTable[tableId := next], next + 1)
  {
  }

  /** Replacing a session's basket by well-formed items keeps the invariant. */
  lemma EditKeepsStoreOk(tables: map<TableId, Table>, sessions: map<SessionId, Session>,
                         openByTable: map<TableId, SessionId>, next: nat, id: SessionId, items: seq<SessionItem>)
    requires StoreOk(tables, sessions, openByTable, next)
    requires id in sessions && ItemsOk(items)
    ensures StoreOk(tables, sessions[id := sessions[id].(items := items)], openByTable, next)
  {
  }

  /** Closing an open session and dropping its table from the index keeps the invariant. */
  lemma CheckoutKeepsStoreOk(tables: map<TableId, Table>, sessions: map<SessionId, Session>,
                             openByTable: map<TableId, SessionId>, next: nat, id: SessionId, c: Session)
    requires StoreOk(tables, sessions, openByTable, next)
    requires id in sessions && sessions[id].status == Open
    requires c.table == sessions[id].table && c.status == Closed && SessionOk(c)
    ensures var t := c.table;
      StoreOk(if t in tables then tables[t := tables[t].(status := Available)] else tables,
              sessions[id := c], openByTable - {t}, next)
  {
  }

  /**
   * The tables, products, sessions and bills the service reads and
   * writes, with the settings it consults. `openByTable` is the partial
   * unique index on (table, status = open).
   */
  class Store {
    var tables: map<TableId, Table>
    var products: map<ProductId, Product>
    var sessions: map<SessionId, Session>
    var openByTable: map<TableId, SessionId>
    var bills: seq<Bill>
    var branchSettings: map<string, Setting>
    var globalSetting: Option<Setting>
    var nextSessionId: SessionId
    var nextItemId: ItemId

    ghost predicate Valid()
      reads this
    {
      StoreOk(tables, sessions, openByTable, nextSessionId)
    }

    constructor (tables0: map<TableId, Table>, products0: map<ProductId, Product>,
                 branchSettings0: map<string, Setting>, global0: Option<Setting>)
      requires forall t :: t in tables0 ==> tables0[t].ratePerHour >= 0
      ensures Valid()
      ensures tables == tables0 && products == products0 && branchSettings == branchSettings0 && globalSetting == global0
      ensures sessions == map[] && openByTable == map[] && bills == [] && nextSessionId == 0 && nextItemId == 0
    {
      tables := tables0;
      products := products0;
      sessions := map[];
      openByTable := map[];
      bills := [];
      branchSettings := branchSettings0;
      globalSetting := global0;
      nextSessionId := 0;
      nextItemId := 0;
    }

    /** The index agrees with the records: a table is indexed exactly when it has an open session. */
    lemma IndexedIffOpen(t: TableId)
      requires Valid()
      ensures t in openByTable <==> HasOpenSession(sessions, t)
    {
      if HasOpenSession(sessions, t) {
        var id :| id in sessions && sessions[id].table == t && sessions[id].status == Open;
      }
    }

    /** At most one open session per table. */
    lemma OneOpenPerTable()
      requires Valid()
      ensures OneOpenSessionPerTable(sessions)
    {
    }

    /**
     * `openSession`: fails on a missing or inactive table, a table with an
     * open session or a table without a type, and then, when no staff id is
     * given, on the session schema's required `staffStart`; otherwise
     * records the check-in session under a fresh id and marks the table as
     * playing.
     */
    method OpenSession(tableId: TableId, staffId: Option<StaffId>, startAt: int) returns (r: Result<SessionId, Error>)
      requires Valid()
      modifies this
      ensures Valid()
      ensures tableId !in old(tables) ==> r == Err(TableNotFound)
      ensures tableId in old(tables) && !old(tables)[tableId].active ==> r == Err(TableInactive)
      ensures tableId in old(tables) && old(tables)[tableId].active && HasOpenSession(old(sessions), tableId) ==>
        r == Err(TableHasOpenSession)
      ensures (tableId in old(tables) && old(tables)[tableId].active && !HasOpenSession(old(sessions), tableId) &&
               old(tables)[tableId].tableType.None?) ==> r == Err(TableTypeNotFound)
      ensures (tableId in old(tables) && old(tables)[tableId].active && !HasOpenSession(old(sessions), tableId) &&
               old(tables)[tableId].tableType.Some? && staffId.None?) ==> r == Err(ValidationFailed)
      ensures r.Ok? <==> (tableId in old(tables) && old(tables)[tableId].active &&
                          !HasOpenSession(old(sessions), tableId) && old(tables)[tableId].tableType.Some? &&
                          staffId.Some?)
      ensures r.Err? ==> unchanged(this)
      ensures r.Ok? ==>
        var table := old(tables)[tableId];
        var setting := GetActiveSetting(table.branchId, branchSettings, globalSetting);
        && r.value == old(nextSessionId) && r.value !in old(sessions)
        && sessions == old(sessions)[r.value := CheckInSession(table, tableId, staffId.value, startAt, setting)]
        && tables == old(tables)[tableId := table.(status := Playing)]
        && openByTable == old(openByTable)[tableId := r.value]
        && nextSessionId == old(nextSessionId) + 1
        && products == old(products) && bills == old(bills) && nextItemId == old(nextItemId)
        && branchSettings == old(branchSettings) && globalSetting == old(globalSetting)
    {
      IndexedIffOpen(tableId);
      if tableId !in tables { return Err(TableNotFound); }
      var table := tables[tableId];
      if !table.active { return Err(TableInactive); }
      if tableId in openByTable { return Err(TableHasOpenSession); }
      var setting := GetActiveSetting(table.branchId, branchSettings, globalSetting);
      if table.tableType.None? { return Err(TableTypeNotFound); }
      if staffId.None? { return Err(ValidationFailed); }

      var id := InsertOpenSession(tableId, CheckInSession(table, tableId, staffId.value, startAt, setting));
      r := Ok(id);
    }

    /** The writes of a successful `openSession`: the new record under a fresh id, the index and the table. */
    method InsertOpenSession(tableId: TableId, s: Session) returns (id: SessionId)
      requires Valid()
      requires tableId in tables && tableId !in openByTable
      requires SessionOk(s) && s.table == tableId && s.status == Open
      modifies this
      ensures Valid()
      ensures id == old(nextSessionId) && id !in old(sessions)
      ensures sessions == old(sessions)[id := s]
      ensures tables == old(tables)[tableId := old(tables)[tableId].(status := Playing)]
      ensures openByTable == old(openByTable)[tableId := id]
      ensures nextSessionId == old(nextSessionId) + 1
      ensures products == old(products) && bills == old(bills) && nextItemId == old(nextItemId)
      ensures branchSettings == old(branchSettings) && globalSetting == old(globalSetting)
    {
      id := nextSessionId;
      CheckInKeepsStoreOk(tables, sessions, openByTable, nextSessionId, tableId, s);
      sessions := sessions[id := s];
      openByTable := openByTable[tableId := id];
      nextSessionId := nextSessionId + 1;
      tables := tables[tableId := tables[tableId].(status := Playing)];
    }

    /**
     * `addItem`: fails on a quantity of 0 or less, a missing or closed
     * session, a missing or inactive product, or a basket the session
     * schema rejects; otherwise the basket becomes `AddToItems` of the old
     * one and nothing else changes but the item id counter.
     */
    method AddItem(sessionId: SessionId, productId: ProductId, qty: int, note: string) returns (r: Result<Session, Error>)
      requires Valid()
      modifies this
      ensures Valid()
      ensures qty <= 0 ==> r == Err(QuantityNotPositive)
      ensures qty > 0 && sessionId !in old(sessions) ==> r == Err(SessionNotFound)
      ensures qty > 0 && sessionId in old(sessions) && old(sessions)[sessionId].status != Open ==> r == Err(SessionNotOpen)
      ensures (qty > 0 && sessionId in old(sessions) && old(sessions)[sessionId].status == Open &&
               (productId !in products || !products[productId].active)) ==> r == Err(ProductUnavailable)
      ensures r.Ok? <==> (qty > 0 && sessionId in old(sessions) && old(sessions)[sessionId].status == Open &&
                          productId in products && products[productId].active &&
                          ItemsOk(AddToItems(old(sessions)[sessionId].items, productId, products[productId], qty, note, old(nextItemId))))
      ensures r.Err? ==> unchanged(this)
      ensures r.Ok? ==>
        var s := old(sessions)[sessionId];
        && sessions == old(sessions)[sessionId := s.(items := AddToItems(s.items, productId, products[productId], qty, note, old(nextItemId)))]
        && r.value == sessions[sessionId]
        && nextItemId == old(nextItemId) + 1
        && tables == old(tables) && products == old(products) && openByTable == old(openByTable) && bills == old(bills)
        && nextSessionId == old(nextSessionId) && branchSettings == old(branchSettings) && globalSetting == old(globalSetting)
    {
      if qty <= 0 { return Err(QuantityNotPositive); }
      if sessionId !in sessions { return Err(SessionNotFound); }
      var s := sessions[sessionId];
      if s.status != Open { return Err(SessionNotOpen); }
      if productId !in products || !products[productId].active { return Err(ProductUnavailable); }
      var items := AddToItems(s.items, productId, products[productId], qty, note, nextItemId);
      if !ItemsOk(items) { return Err(ValidationFailed); }
      var s' := StoreItems(sessionId, items);
      nextItemId := nextItemId + 1;
      r := Ok(s');
    }

    /** Saving a session with a new, well-formed basket; nothing else changes. */
    method StoreItems(sessionId: SessionId, items: seq<SessionItem>) returns (s': Session)
      requires Valid()
      requires sessionId in sessions && ItemsOk(items)
      modifies this
      ensures Valid()
      ensures s' == old(sessions)[sessionId].(items := items)
      ensures sessions == old(sessions)[sessionId := s']
      ensures tables == old(tables) && products == old(products) && openByTable == old(openByTable) && bills == old(bills)
      ensures nextSessionId == old(nextSessionId) && nextItemId == old(nextItemId)
      ensures branchSettings == old(branchSettings) && globalSetting == old(globalSetting)
    {
      EditKeepsStoreOk(tables, sessions, openByTable, nextSessionId, sessionId, items);
      s' := sessions[sessionId].(items := items);
      sessions := sessions[sessionId := s'];
    }

    /**
     * `updateItemQty`: fails on a missing or closed session or a missing
     * item; otherwise the first line with the id is deleted (quantity 0 or
     * less) or gets the new quantity, and nothing else changes.
     */
    method UpdateItemQty(sessionId: SessionId, itemId: ItemId, qty: int) returns (r: Result<Session, Error>)
      requires Valid()
      modifies this
      ensures Valid()
      ensures sessionId !in old(sessions) ==> r == Err(SessionNotFound)
      ensures sessionId in old(sessions) && old(sessions)[sessionId].status != Open ==> r == Err(SessionNotOpen)
      ensures (sessionId in old(sessions) && old(sessions)[sessionId].status == Open &&
               FindItem(old(sessions)[sessionId].items, itemId).None?) ==> r == Err(ItemNotFound)
      ensures r.Ok? <==> (sessionId in old(sessions) && old(sessions)[sessionId].status == Open &&
                          FindItem(old(sessions)[sessionId].items, itemId).Some?)
      ensures r.Err? ==> unchanged(this)
      ensures r.Ok? ==>
        var s := old(sessions)[sessionId];
        var i := FindItem(s.items, itemId).value;
        && sessions == old(sessions)[sessionId := s.(items := UpdateQtyItems(s.items, i, qty))]
        && r.value == sessions[sessionId]
        && tables == old(tables) && products == old(products) && openByTable == old(openByTable) && bills == old(bills)
        && nextSessionId == old(nextSessionId) && nextItemId == old(nextItemId)
        && branchSettings == old(branchSettings) && globalSetting == old(globalSetting)
    {
      if sessionId !in sessions { return Err(SessionNotFound); }
      var s := sessions[sessionId];
      if s.status != Open { return Err(SessionNotOpen); }
      var found := FindItem(s.items, itemId);
      if found.None? { return Err(ItemNotFound); }
      EditsKeepItemsOk(s.items, found.value, qty);
      var s' := StoreItems(sessionId, UpdateQtyItems(s.items, found.value, qty));
      r := Ok(s');
    }

    /**
     * `removeItem`: fails on a missing or closed session or a missing
     * item; otherwise deletes the first line with the id and nothing else.
     */
    method RemoveItem(sessionId: SessionId, itemId: ItemId) returns (r: Result<Session, Error>)
      requires Valid()
      modifies this
      ensures Valid()
      ensures sessionId !in old(sessions) ==> r == Err(SessionNotFound)
      ensures sessionId in old(sessions) && old(sessions)[sessionId].status != Open ==> r == Err(SessionNotOpen)
      ensures (sessionId in old(sessions) && old(sessions)[sessionId].status == Open &&
               FindItem(old(sessions)[sessionId].items, itemId).None?) ==> r == Err(ItemNotFound)
      ensures r.Ok? <==> (sessionId in old(sessions) && old(sessions)[sessionId].status == Open &&
                          FindItem(old(sessions)[sessionId].items, itemId).Some?)
      ensures r.Err? ==> unchanged(this)
      ensures r.Ok? ==>
        var s := old(sessions)[sessionId];
        var i := FindItem(s.items, itemId).value;
        && sessions == old(sessions)[sessionId := s.(items := RemoveAt(s.items, i))]
        && r.value == sessions[sessionId]
        && tables == old(tables) && products == old(products) && openByTable == old(openByTable) && bills == old(bills)
        && nextSessionId == old(nextSessionId) && nextItemId == old(nextItemId)
        && branchSettings == old(branchSettings) && globalSetting == old(globalSetting)
    {
      if sessionId !in sessions { return Err(SessionNotFound); }
      var s := sessions[sessionId];
      if s.status != Open { return Err(SessionNotOpen); }
      var found := FindItem(s.items, itemId);
      if found.None? { return Err(ItemNotFound); }
      EditsKeepItemsOk(s.items, found.value, 0);
      var s' := StoreItems(sessionId, RemoveAt(s.items, found.value));
      r := Ok(s');
    }

    /**
     * `previewClose`: the totals of closing at `endAt` with the given
     * discount lines and surcharge, for a session in any status; nothing
     * changes.
     */
    method PreviewClose(sessionId: SessionId, endAt: int, discountLines: seq<Option<DiscountInput>>, surcharge: int)
      returns (r: Result<Preview, Error>)
      ensures sessionId !in sessions ==> r == Err(SessionNotFound)
      ensures sessionId in sessions ==> r == Ok(PreviewOf(sessions[sessionId], endAt, discountLines, surcharge))
    {
      if sessionId !in sessions { return Err(SessionNotFound); }
      var s := sessions[sessionId];
      var m := ComputeMinutes(Some(s.startTime), endAt, RuleOf(s.billingRule));
      var playAmount := ComputePlayAmount(s.pricing.ratePerHour, m.billMinutes);
      var serviceAmount := ServiceAmount(s.items);
      var subtotal := playAmount + serviceAmount;

      var discountTotal: real := 0.0;
      for i := 0 to |discountLines|
        invariant discountTotal == PreviewDiscountTotal(discountLines[..i], subtotal)
      {
        assert discountLines[..i + 1][..i] == discountLines[..i];
        var d := discountLines[i];
        if d.Some? {
          var val := d.value.value as real;
          if d.value.kind == "percent" {
            var cap := (if d.value.maxAmount != 0 then d.value.maxAmount else subtotal) as real;
            var share := (subtotal * d.value.value) as real / 100.0;
            discountTotal := discountTotal + (if share <= cap then share else cap);
          } else if d.value.kind == "value" {
            discountTotal := discountTotal + val;
          }
        }
      }
      assert discountLines[..|discountLines|] == discountLines;

      var total := Max(0, RoundReal(subtotal as real - discountTotal + surcharge as real));
      r := Ok(Preview(m.rawMinutes, m.billMinutes, playAmount, serviceAmount, subtotal, discountTotal, surcharge, total, s.items));
    }

    /**
     * `checkoutSession`: fails with no effect unless the session exists and
     * is open; otherwise appends the checkout bill, closes the session,
     * drops it from the open index and marks its table (if it still
     * exists) as available, all at once.
     */
    method Checkout(sessionId: SessionId, staffEnd: Option<StaffId>, endAt: int, discountLines: seq<Option<DiscountInput>>,
                    surcharge: int, paymentMethod: string, paid: bool, now: int)
      returns (r: Result<(Bill, Session), Error>)
      requires Valid()
      modifies this
      ensures Valid()
      ensures sessionId !in old(sessions) ==> r == Err(SessionNotFound)
      ensures sessionId in old(sessions) && old(sessions)[sessionId].status != Open ==> r == Err(SessionAlreadyClosed)
      ensures r.Ok? <==> sessionId in old(sessions) && old(sessions)[sessionId].status == Open
      ensures r.Err? ==> unchanged(this)
      ensures r.Ok? ==>
        var s := old(sessions)[sessionId];
        var tableName := if s.table in old(tables) then old(tables)[s.table].name else "";
        && r.value.0 == CheckoutBill(sessionId, s, tableName, staffEnd, endAt, discountLines, surcharge, paymentMethod, paid, now)
        && r.value.1 == ClosedSession(s, staffEnd, endAt)
        && bills == old(bills) + [r.value.0]
        && sessions == old(sessions)[sessionId := r.value.1]
        && openByTable == old(openByTable) - {s.table}
        && tables == (if s.table in old(tables) then old(tables)[s.table := old(tables)[s.table].(status := Available)] else old(tables))
        && products == old(products) && nextSessionId == old(nextSessionId) && nextItemId == old(nextItemId)
        && branchSettings == old(branchSettings) && globalSetting == old(globalSetting)
    {
      if sessionId !in sessions { return Err(SessionNotFound); }
      var s := sessions[sessionId];
      if s.status != Open { return Err(SessionAlreadyClosed); }

      var closed := ClosedSession(s, staffEnd, endAt);
      var tableName := if s.table in tables then tables[s.table].name else "";
      var bill := CheckoutBill(sessionId, s, tableName, staffEnd, endAt, discountLines, surcharge, paymentMethod, paid, now);
      StoreClosedSession(sessionId, closed, bill);
      r := Ok((bill, closed));
    }

    /** The writes of a successful checkout: the bill, the closed record, the index and the table. */
    method StoreClosedSession(sessionId: SessionId, closed: Session, bill: Bill)
      requires Valid()
      requires sessionId in sessions && sessions[sessionId].status == Open
      requires closed.table == sessions[sessionId].table && closed.status == Closed && SessionOk(closed)
      modifies this
      ensures Valid()
      ensures bills == old(bills) + [bill]
      ensures sessions == old(sessions)[sessionId := closed]
      ensures openByTable == old(openByTable) - {closed.table}
      ensures tables == (if closed.table in old(tables)
                         then old(tables)[closed.table := old(tables)[closed.table].(status := Available)]
                         else old(tables))
      ensures products == old(products) && nextSessionId == old(nextSessionId) && nextItemId == old(nextItemId)
      ensures branchSettings == old(branchSettings) && globalSetting == old(globalSetting)
    {
      CheckoutKeepsStoreOk(tables, sessions, openByTable, nextSessionId, sessionId, closed);
      bills := bills + [bill];
      sessions := sessions[sessionId := closed];
      openByTable := openByTable - {closed.table};
      if closed.table in tables {
        tables := tables[closed.table := tables[closed.table].(status := Available)];
      }
    }
  }
}
