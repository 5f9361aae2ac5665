/**
 * The pure part of the billing service: choosing the hourly rate, the
 * three-tier settings fallback, the billing-rule snapshot, billable
 * minutes under a rounding policy, and the play amount.
 */
module BillingRules {
  import opened Common
  import opened Money
  import opened TimeRules

  /** One day/time band of a table type's rate schedule. */
  datatype DayRate = DayRate(
    days: seq<int>,     // weekdays 0..6; empty means every day
    from: string,       // "HH:MM"; empty means no time bound
    to: string,
    ratePerHour: int)

  datatype TableType = TableType(baseRatePerHour: int, dayRates: seq<DayRate>)

  datatype RateSource = FromTable | FromType

  datatype RateQuote = RateQuote(ratePerHour: int, source: RateSource)

  /** The match test of `rates.find(...)` in `resolveRatePerHour`. */
  predicate DayRateMatches(r: DayRate, day: int, cur: string)
  {
    && (|r.days| == 0 || day in r.days)
    && (r.from == "" || r.to == "" || InTimeRange(cur, r.from, r.to))
  }

  /** `Array.prototype.find` over rates[k..]: the first matching band. */
  function FindDayRate(rates: seq<DayRate>, k: nat, day: int, cur: string): (i: Option<nat>)
    ensures i.Some? ==> k <= i.value < |rates| && DayRateMatches(rates[i.value], day, cur)
    ensures i.Some? ==> forall j :: k <= j < i.value ==> !DayRateMatches(rates[j], day, cur)
    ensures i.None? ==> forall j :: k <= j < |rates| ==> !DayRateMatches(rates[j], day, cur)
    decreases |rates| - k
  {
    if k >= |rates| then None
    else if DayRateMatches(rates[k], day, cur) then Some(k)
    else FindDayRate(rates, k + 1, day, cur)
  }

  /**
   * `resolveRatePerHour`: a numeric, non-negative table rate always wins;
   * otherwise the first day/time band of the table type that matches the
   * instant; otherwise the type's base rate (0 without a type).
   */
  function ResolveRatePerHour(tableRate: Option<int>, tableType: Option<TableType>, at: int): (q: RateQuote)
    ensures tableRate.Some? && tableRate.value >= 0 ==> q == RateQuote(tableRate.value, FromTable)
    ensures !(tableRate.Some? && tableRate.value >= 0) ==> q.source == FromType
  {
    if tableRate.Some? && tableRate.value >= 0 then
      RateQuote(tableRate.value, FromTable)
    else
      var rates := if tableType.Some? then tableType.value.dayRates else [];
      var matched := FindDayRate(rates, 0, Weekday(at), HhmmString(MinuteOfDay(at)));
      if matched.Some? then RateQuote(rates[matched.value].ratePerHour, FromType)
      else RateQuote(if tableType.Some? then tableType.value.baseRatePerHour else 0, FromType)
  }

  /**
   * Without a usable table rate, the band at index i is the one charged
   * exactly when it is the first band matching the instant's weekday and
   * minute of the day; when no band matches, the base rate is charged.
   */
  lemma {:induction false} RateFromFirstMatchingBand(tableRate: Option<int>, tt: TableType, at: int, i: nat)
    requires !(tableRate.Some? && tableRate.value >= 0)
    requires i < |tt.dayRates|
    requires DayRateMatches(tt.dayRates[i], Weekday(at), HhmmString(MinuteOfDay(at)))
    requires forall j :: 0 <= j < i ==> !DayRateMatches(tt.dayRates[j], Weekday(at), HhmmString(MinuteOfDay(at)))
    ensures ResolveRatePerHour(tableRate, Some(tt), at) == RateQuote(tt.dayRates[i].ratePerHour, FromType)
  {
  }

  lemma {:induction false} RateFallsBackToBase(tableRate: Option<int>, tt: Option<TableType>, at: int)
    requires !(tableRate.Some? && tableRate.value >= 0)
    requires tt.Some? ==> forall j :: 0 <= j < |tt.value.dayRates| ==>
      !DayRateMatches(tt.value.dayRates[j], Weekday(at), HhmmString(MinuteOfDay(at)))
    ensures ResolveRatePerHour(tableRate, tt, at)
      == RateQuote(if tt.Some? then tt.value.baseRatePerHour else 0, FromType)
  {
  }

  /** A band's time window, when both bounds parse, agrees with window membership. */
  lemma BandTimeWindow(r: DayRate, at: int)
    requires r.from != "" && r.to != ""
    requires HhmmToMinutes(r.from).Some? && HhmmToMinutes(r.to).Some?
    ensures DayRateMatches(r, Weekday(at), HhmmString(MinuteOfDay(at))) <==>
      ((|r.days| == 0 || Weekday(at) in r.days) &&
       WindowContains(HhmmToMinutes(r.from).value, HhmmToMinutes(r.to).value, MinuteOfDay(at)))
  {
    InTimeRangeAt(MinuteOfDay(at), r.from, r.to);
  }

  /* ---------------------------------------------------------------- settings */

  /** The billing part of a settings document; `None` is an absent field. */
  datatype BillingSetting = BillingSetting(roundingStep: Option<int>, roundingMode: string, graceMinutes: Option<int>)

  datatype Setting = Setting(billing: BillingSetting)

  /** The settings used when none is stored: step 5, mode ceil, grace 0. */
  const DefaultSetting := Setting(BillingSetting(Some(5), "ceil", Some(0)))

  /**
   * `getActiveSetting`: the branch's own settings when a branch is given and
   * has them, else the global settings, else the hard-coded default. An
   * empty branch id counts as none, as the truthiness test reads it.
   */
  function GetActiveSetting(branchId: Option<string>, branchSettings: map<string, Setting>, global: Option<Setting>): (s: Setting)
    ensures IsGiven(branchId) && branchId.value in branchSettings ==> s == branchSettings[branchId.value]
    ensures !(IsGiven(branchId) && branchId.value in branchSettings) && global.Some? ==> s == global.value
    ensures !(IsGiven(branchId) && branchId.value in branchSettings) && global.None? ==> s == DefaultSetting
  {
    var first := if IsGiven(branchId) then
                   (if branchId.value in branchSettings then Some(branchSettings[branchId.value]) else None)
                 else global;
    if first.Some? then first.value
    else if global.Some? then global.value
    else DefaultSetting
  }

  /**
   * A rounding rule as `computeMinutes` reads it. A zero step, an empty
   * mode and a zero grace stand for missing fields, which JavaScript's `||`
   * replaces by 1, "ceil" and 0.
   */
  datatype BillingRule = BillingRule(roundingStep: int, roundingMode: string, graceMinutes: int)

  /**
   * `buildBillingRuleSnapshot`: an absent step is 5 and an absent grace 0
   * (a stored 0 is kept, as `??` keeps it); an empty mode is "ceil".
   */
  function BuildBillingRuleSnapshot(b: BillingSetting): (r: BillingRule)
    ensures r.roundingMode != ""
    ensures b.roundingStep.Some? ==> r.roundingStep == b.roundingStep.value
    ensures b.roundingStep.None? ==> r.roundingStep == 5
    ensures r.graceMinutes == b.graceMinutes.GetOr(0)
  {
    BillingRule(b.roundingStep.GetOr(5), if b.roundingMode == "" then "ceil" else b.roundingMode, b.graceMinutes.GetOr(0))
  }

  /* ------------------------------------------------------ minutes and amount */

  datatype Minutes = Minutes(rawMinutes: int, billMinutes: int)

  function EffectiveStep(rule: BillingRule): int { if rule.roundingStep == 0 then 1 else rule.roundingStep }

  /** Any mode other than "floor" and "round" (including a missing one) rounds up. */
  predicate RoundsUp(rule: BillingRule) { rule.roundingMode != "floor" && rule.roundingMode != "round" }

  /** `Math.max(0, Math.ceil((end - start) / 60000))`. */
  function RawMinutes(start: int, end: int): (raw: int)
    ensures raw >= 0
    ensures raw == 0 <==> end - start <= 0
    ensures raw > 0 ==> MsPerMinute * (raw - 1) < end - start <= MsPerMinute * raw
  {
    Max(0, CeilDiv(end - start, MsPerMinute))
  }

  /**
   * `computeMinutes` in the billing service. Raw minutes are the elapsed
   * time rounded up to a whole minute; up to the grace period nothing is
   * billed; a step of 1 or less bills the raw minutes; otherwise the raw
   * minutes are rounded to a multiple of the step by the rule's mode.
   */
  function ComputeMinutes(start: Option<int>, end: int, rule: BillingRule): (m: Minutes)
    ensures start.None? ==> m == Minutes(0, 0)
    ensures start.Some? ==> m.rawMinutes == RawMinutes(start.value, end)
    ensures m.billMinutes >= 0
    ensures m.rawMinutes <= rule.graceMinutes ==> m.billMinutes == 0
    ensures m.rawMinutes > rule.graceMinutes && EffectiveStep(rule) <= 1 ==> m.billMinutes == m.rawMinutes
    ensures m.rawMinutes > rule.graceMinutes && EffectiveStep(rule) > 1 ==>
      m.billMinutes % EffectiveStep(rule) == 0
    ensures m.rawMinutes > rule.graceMinutes && EffectiveStep(rule) > 1 && RoundsUp(rule) ==>
      m.rawMinutes <= m.billMinutes < m.rawMinutes + EffectiveStep(rule)
    ensures m.rawMinutes > rule.graceMinutes && EffectiveStep(rule) > 1 && rule.roundingMode == "floor" ==>
      m.rawMinutes - EffectiveStep(rule) < m.billMinutes <= m.rawMinutes
    ensures m.rawMinutes > rule.graceMinutes && EffectiveStep(rule) > 1 && rule.roundingMode == "round" ==>
      2 * (m.billMinutes - m.rawMinutes) <= EffectiveStep(rule) && 2 * (m.rawMinutes - m.billMinutes) < EffectiveStep(rule)
  {
    if start.None? then Minutes(0, 0)
    else
      var raw := RawMinutes(start.value, end);
      var step := EffectiveStep(rule);
      if raw <= rule.graceMinutes then Minutes(raw, 0)
      else if step <= 1 then Minutes(raw, raw)
      else
        if rule.roundingMode == "floor" then
          FloorToStep(raw, step);
          Minutes(raw, (raw / step) * step)
        else if rule.roundingMode == "round" then
          RoundToStep(raw, step);
          Minutes(raw, RoundDiv(raw, step) * step)
        else
          CeilToStep(raw, step);
          Minutes(raw, CeilDiv(raw, step) * step)
  }

  lemma {:induction false} FloorToStep(raw: int, step: int)
    requires raw >= 0 && step > 1
    ensures var b := (raw / step) * step; b >= 0 && b % step == 0 && raw - step < b <= raw
  {
    DivBounds(raw, step);
    MulModZero(raw / step, step);
    MulMonotone(step, 0, raw / step);
  }

  lemma {:induction false} RoundToStep(raw: int, step: int)
    requires raw >= 0 && step > 1
    ensures var b := RoundDiv(raw, step) * step;
      b >= 0 && b % step == 0 && 2 * (b - raw) <= step && 2 * (raw - b) < step
  {
    var q := RoundDiv(raw, step);
    MulModZero(q, step);
    assert 2 * step * q - step <= 2 * raw < 2 * step * q + step;
    if q < 0 {
      MulMonotone(step, q, -1);
      assert false;
    }
    MulMonotone(step, 0, q);
  }

  lemma {:induction false} CeilToStep(raw: int, step: int)
    requires raw >= 0 && step > 1
    ensures var b := CeilDiv(raw, step) * step; b >= 0 && b % step == 0 && raw <= b < raw + step
  {
    var q := CeilDiv(raw, step);
    MulModZero(q, step);
    if q < 0 {
      MulMonotone(step, q, -1);
      assert false;
    }
    MulMonotone(step, 0, q);
  }

  /**
   * `computePlayAmount`: `Math.max(0, Math.round(rate / 60 * minutes))`,
   * the hourly rate pro rata for the billed minutes, to the nearest dong.
   */
  function ComputePlayAmount(ratePerHour: int, billMinutes: int): (a: int)
    ensures a >= 0
    ensures ratePerHour * billMinutes >= 0 ==>
      120 * a - 60 <= 2 * ratePerHour * billMinutes < 120 * a + 60
    ensures ratePerHour * billMinutes < 0 ==> a == 0
  {
    Max(0, RoundDiv(ratePerHour * billMinutes, 60))
  }

  /** For a fixed non-negative rate, more billed minutes never cost less. */
  lemma {:induction false} PlayAmountMonotone(ratePerHour: int, m1: int, m2: int)
    requires ratePerHour >= 0 && m1 <= m2
    ensures ComputePlayAmount(ratePerHour, m1) <= ComputePlayAmount(ratePerHour, m2)
  {
    MulMonotone(ratePerHour, m1, m2);
    RoundDivMonotone(ratePerHour * m1, ratePerHour * m2, 60);
  }

  /** A whole number of hours costs exactly that many times the hourly rate. */
  lemma {:induction false} PlayAmountWholeHours(ratePerHour: int, hours: nat)
    requires ratePerHour >= 0
    ensures ComputePlayAmount(ratePerHour, 60 * hours) == ratePerHour * hours
  {
    var n := ratePerHour * (60 * hours);
    assert n == 60 * (ratePerHour * hours);
    assert RoundDiv(n, 60) == ratePerHour * hours by {
      var r := RoundDiv(n, 60);
      assert 120 * r - 60 <= 120 * (ratePerHour * hours) < 120 * r + 60;
    }
  }
}
