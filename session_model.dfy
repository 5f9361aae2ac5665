/**
 * The session record of the session model: its status set, line items and
 * frozen snapshots, the derived amounts, the model's own minute and play
 * amount computation, and the non-mutating close preview.
 */
module SessionModel {
  import opened Common
  import opened Money
  import opened BillingRules

  type TableId = nat
  type SessionId = nat
  type ItemId = nat
  type StaffId = nat
  type ProductId = string

  /** `SESSION_STATUS`. */
  datatype Status = Open | Closed | Void

  /** One line of the session's service basket. */
  datatype SessionItem = SessionItem(
    id: ItemId,
    product: ProductId,
    nameSnapshot: string,
    priceSnapshot: int,
    qty: int,
    note: string)

  /** The item schema's constraints: a name, a price of at least 0, a quantity of at least 1. */
  predicate ItemOk(it: SessionItem)
  {
    it.nameSnapshot != "" && it.priceSnapshot >= 0 && it.qty >= 1
  }

  predicate ItemsOk(items: seq<SessionItem>)
  {
    forall i :: 0 <= i < |items| ==> ItemOk(items[i])
  }

  /** The rate frozen at check-in. */
  datatype PricingSnapshot = PricingSnapshot(ratePerHour: int, rateSource: RateSource)

  /**
   * The rounding rule as the session stores it. The stored schema has a
   * step and a grace period and no rounding mode.
   */
  datatype StoredBillingRule = StoredBillingRule(roundingStep: int, graceMinutes: int)

  datatype Session = Session(
    table: TableId,
    startTime: int,
    endTime: Option<int>,
    durationMinutes: Option<int>,
    items: seq<SessionItem>,
    staffStart: StaffId,
    staffEnd: Option<StaffId>,
    status: Status,
    pricing: PricingSnapshot,
    billingRule: StoredBillingRule)

  /** Saving a rule snapshot keeps only the fields the stored schema declares. */
  function PersistRule(r: BillingRule): (st: StoredBillingRule)
    ensures st.roundingStep == r.roundingStep && st.graceMinutes == r.graceMinutes
  {
    StoredBillingRule(r.roundingStep, r.graceMinutes)
  }

  /** The rule the billing service reads back from a stored snapshot: no mode. */
  function RuleOf(st: StoredBillingRule): (r: BillingRule)
    ensures r.roundingMode == "" && RoundsUp(r)
    ensures PersistRule(r) == st
  {
    BillingRule(st.roundingStep, "", st.graceMinutes)
  }

  /**
   * Whatever mode the settings ask for, a snapshot taken from them and
   * read back bills exactly as the "ceil" mode would.
   */
  lemma StoredRuleRoundsUp(b: BillingSetting, start: Option<int>, end: int)
    ensures ComputeMinutes(start, end, RuleOf(PersistRule(BuildBillingRuleSnapshot(b))))
         == ComputeMinutes(start, end, BuildBillingRuleSnapshot(b).(roundingMode := "ceil"))
  {
  }

  /** A floor-mode setting of step 15 would bill 47 minutes as 45, the stored snapshot bills 60. */
  lemma FloorSettingIsBilledUp()
    ensures var b := BillingSetting(Some(15), "floor", Some(0));
      ComputeMinutes(Some(0), 47 * 60000, BuildBillingRuleSnapshot(b)) == Minutes(47, 45) &&
      ComputeMinutes(Some(0), 47 * 60000, RuleOf(PersistRule(BuildBillingRuleSnapshot(b)))) == Minutes(47, 60)
  {
    var b := BillingSetting(Some(15), "floor", Some(0));
    assert RawMinutes(0, 47 * 60000) == 47;
    assert CeilDiv(47, 15) == 4;
  }

  /** The `amount` virtual of an item: `priceSnapshot * qty`. */
  function ItemAmount(it: SessionItem): (a: int)
    ensures it.priceSnapshot >= 0 && it.qty >= 0 ==> a >= 0
    ensures it.priceSnapshot == 0 || it.qty == 0 ==> a == 0
  {
    it.priceSnapshot * it.qty
  }

  /** The `serviceAmount` virtual: the items' amounts summed left to right. */
  function ServiceAmount(items: seq<SessionItem>): (t: int)
    ensures items == [] ==> t == 0
    ensures |items| == 1 ==> t == ItemAmount(items[0])
  {
    if items == [] then 0 else ServiceAmount(items[..|items| - 1]) + ItemAmount(items[|items| - 1])
  }

  lemma {:induction false} ServiceAmountAppend(a: seq<SessionItem>, b: seq<SessionItem>)
    ensures ServiceAmount(a + b) == ServiceAmount(a) + ServiceAmount(b)
    decreases |b|
  {
    if b == [] {
      assert a + b == a;
    } else {
      var b' := b[..|b| - 1];
      assert (a + b)[..|a + b| - 1] == a + b';
      ServiceAmountAppend(a, b');
    }
  }

  /** Changing one line changes the service amount by that line's difference. */
  lemma {:induction false} ServiceAmountUpdate(items: seq<SessionItem>, i: nat, it: SessionItem)
    requires i < |items|
    ensures ServiceAmount(items[i := it]) == ServiceAmount(items) - ItemAmount(items[i]) + ItemAmount(it)
  {
    assert items == items[..i] + [items[i]] + items[i + 1..];
    assert items[i := it] == items[..i] + [it] + items[i + 1..];
    ServiceAmountAppend(items[..i] + [items[i]], items[i + 1..]);
    ServiceAmountAppend(items[..i] + [it], items[i + 1..]);
    ServiceAmountAppend(items[..i], [items[i]]);
    ServiceAmountAppend(items[..i], [it]);
    assert ServiceAmount([it]) == ItemAmount(it) by { assert [it][..0] == []; }
    assert ServiceAmount([items[i]]) == ItemAmount(items[i]) by { assert [items[i]][..0] == []; }
  }

  /** Deleting one line lowers the service amount by that line's amount. */
  lemma {:induction false} ServiceAmountDelete(items: seq<SessionItem>, i: nat)
    requires i < |items|
    ensures ServiceAmount(items[..i] + items[i + 1..]) == ServiceAmount(items) - ItemAmount(items[i])
  {
    assert items == items[..i] + [items[i]] + items[i + 1..];
    ServiceAmountAppend(items[..i] + [items[i]], items[i + 1..]);
    ServiceAmountAppend(items[..i], [items[i]]);
    ServiceAmountAppend(items[..i], items[i + 1..]);
    assert ServiceAmount([items[i]]) == ItemAmount(items[i]) by { assert [items[i]][..0] == []; }
  }

  lemma {:induction false} ServiceAmountNonNegative(items: seq<SessionItem>)
    requires ItemsOk(items)
    ensures ServiceAmount(items) >= 0
  {
    if items != [] {
      ServiceAmountNonNegative(items[..|items| - 1]);
      MulMonotone(items[|items| - 1].priceSnapshot, 0, items[|items| - 1].qty);
    }
  }

  /** The `isOpen` virtual. */
  predicate IsOpen(s: Session) { s.status == Open && s.endTime.None? }

  /**
   * The model's `computeMinutes(now)`: the stored end time when there is
   * one, else `now`; raw minutes rounded up; nothing billed up to the
   * grace period; a step above 1 always rounds up to a multiple of it.
   */
  function ModelComputeMinutes(s: Session, now: int): (m: Minutes)
    ensures m == ComputeMinutes(Some(s.startTime), s.endTime.GetOr(now), RuleOf(s.billingRule))
    ensures m.rawMinutes <= s.billingRule.graceMinutes ==> m.billMinutes == 0
    ensures m.rawMinutes > s.billingRule.graceMinutes && s.billingRule.roundingStep > 1 ==>
      m.billMinutes % s.billingRule.roundingStep == 0 &&
      m.rawMinutes <= m.billMinutes < m.rawMinutes + s.billingRule.roundingStep
  {
    var end := s.endTime.GetOr(now);
    var raw := Max(0, CeilDiv(end - s.startTime, 60000));
    var step := if s.billingRule.roundingStep == 0 then 1 else s.billingRule.roundingStep;
    var grace := s.billingRule.graceMinutes;
    if raw <= grace then Minutes(raw, 0)
    else if step > 1 then
      CeilToStep(raw, step);
      Minutes(raw, CeilDiv(raw, step) * step)
    else Minutes(raw, raw)
  }

  /** The model's `computePlayAmount(now)`: billed minutes and their amount. */
  function ModelComputePlayAmount(s: Session, now: int): (r: (int, int))
    ensures r.0 == ModelComputeMinutes(s, now).billMinutes
    ensures r.1 == ComputePlayAmount(s.pricing.ratePerHour, r.0)
  {
    var bill := ModelComputeMinutes(s, now).billMinutes;
    (bill, Max(0, RoundDiv(s.pricing.ratePerHour * bill, 60)))
  }

  datatype ClosePreviewResult = ClosePreviewResult(session: Session, rawMinutes: int, billMinutes: int)

  /**
   * `closePreview(endAt)`: a copy of the session carrying the end time and
   * the billed duration; the session itself is a value and stays as it was.
   */
  function ClosePreview(s: Session, endAt: int): (r: ClosePreviewResult)
    ensures r.session.endTime == Some(endAt) && r.session.durationMinutes == Some(r.billMinutes)
    ensures r.session.(endTime := s.endTime, durationMinutes := s.durationMinutes) == s
    ensures Minutes(r.rawMinutes, r.billMinutes) == ModelComputeMinutes(s, endAt)
  {
    var m := ModelComputeMinutes(s, endAt);
    ClosePreviewResult(s.(endTime := Some(endAt), durationMinutes := Some(m.billMinutes)), m.rawMinutes, m.billMinutes)
  }

  /**
   * Previewing the close of a session still open freezes its minutes: the
   * copy's own minutes, at any later time, are the previewed ones.
   */
  lemma ClosePreviewIsStable(s: Session, endAt: int, later: int)
    requires s.endTime.None?
    ensures var r := ClosePreview(s, endAt);
      ModelComputeMinutes(r.session, later) == Minutes(r.rawMinutes, r.billMinutes)
  {
  }

  /** The partial unique index on (table, status = open). */
  ghost predicate OneOpenSessionPerTable(sessions: map<SessionId, Session>)
  {
    forall a, b ::
      (a in sessions && b in sessions && sessions[a].status == Open && sessions[b].status == Open &&
       sessions[a].table == sessions[b].table) ==> a == b
  }
}
