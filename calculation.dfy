/**
  The arithmetic of `CalculationBaseSalary` (`services.py`), one function per calculation
  step, each a function of the record and the tables. Every step that quantises rounds
  half-up to whole cents, and later steps read the rounded values, so an amount is an
  `int` number of cents; the values in between are exact rationals.
 */
module Calculation {
  import opened Text
  import opened Sorting
  import opened Rounding
  import opened Constants
  import opened Validators
  import opened ValidatorProperties
  import opened Models

  // ---------------------------------------------------------------------------
  // Small facts about real arithmetic

  lemma MulNonNegative(a: real, b: real)
    requires a >= 0.0 && b >= 0.0
    ensures a * b >= 0.0
  {
  }

  lemma MulMonotone(a: real, x: real, y: real)
    requires a >= 0.0 && x <= y
    ensures a * x <= a * y
  {
  }

  lemma DivMonotone(x: real, y: real, n: real)
    requires x <= y && n > 0.0
    ensures x / n <= y / n
  {
  }

  lemma MulDivCancel(a: real, n: real)
    requires n != 0.0
    ensures a * n / n == a
  {
  }

  lemma MulAtMost(a: real, b: real)
    requires a >= 0.0 && 0.0 <= b <= 1.0
    ensures a * b <= a
  {
  }

  /** A fraction between 0 and 1 of `c` cents lies between nothing and all of it. */
  lemma FractionBetween(c: int, fraction: real)
    requires c >= 0 && 0.0 <= fraction <= 1.0
    ensures Amount(0) <= Amount(c) * fraction <= Amount(c)
  {
    MulNonNegative(Amount(c), fraction);
    MulAtMost(Amount(c), fraction);
  }

  /** At most a hundred per cent of `c` cents lies between nothing and all of it. */
  lemma PercentBetween(c: int, percent: real)
    requires c >= 0 && 0.0 <= percent <= 100.0
    ensures Amount(0) <= Amount(c) * percent / 100.0 <= Amount(c)
  {
    MulNonNegative(Amount(c), percent);
    MulMonotone(Amount(c), percent, 100.0);
    DivMonotone(0.0, Amount(c) * percent, 100.0);
    DivMonotone(Amount(c) * percent, Amount(c) * 100.0, 100.0);
    MulDivCancel(Amount(c), 100.0);
  }

  // ---------------------------------------------------------------------------
  // `(amount * percent / 100).quantize(Decimal("0.01"), rounding=ROUND_HALF_UP)`

  /** `percent` per cent of the amount `x`, rounded to the nearest cent. */
  function PercentOfAmount(x: real, percent: real): (r: int)
    ensures x >= 0.0 && percent >= 0.0 ==> r >= 0
  {
    if x >= 0.0 && percent >= 0.0 then
      MulNonNegative(x, percent / 100.0);
      RoundNonNegative(x * percent / 100.0);
      RoundHalfUpCents(x * percent / 100.0)
    else
      RoundHalfUpCents(x * percent / 100.0)
  }

  /** `percent` per cent of `c` cents, rounded to the nearest cent. */
  function PercentOf(c: int, percent: real): (r: int)
    ensures c >= 0 && percent >= 0.0 ==> r >= 0
    ensures c >= 0 && 0.0 <= percent <= 100.0 ==> r <= c
    ensures c == 0 ==> r == 0
  {
    if c >= 0 && 0.0 <= percent <= 100.0 then
      PercentBetween(c, percent);
      RoundBetween(0, Amount(c) * percent / 100.0, c);
      PercentOfAmount(Amount(c), percent)
    else
      PercentOfAmount(Amount(c), percent)
  }

  // ---------------------------------------------------------------------------
  // calculation_base_salary

  /** The unrounded salary for `sumDays` shifts: the base salary times the shifts over the norm. */
  function ShiftShare(baseSalary: nat, sumDays: nat, normDays: real): (q: real)
    requires normDays > 0.0
    ensures q >= 0.0
    ensures sumDays == 0 ==> q == 0.0
  {
    MulNonNegative(baseSalary as real, sumDays as real);
    baseSalary as real * sumDays as real / normDays
  }

  /** At exactly the norm the share is the whole base salary. */
  lemma ShiftShareOfNorm(baseSalary: nat, sumDays: nat, normDays: real)
    requires normDays > 0.0 && sumDays as real == normDays
    ensures ShiftShare(baseSalary, sumDays, normDays) == baseSalary as real
  {
    MulDivCancel(baseSalary as real, normDays);
  }

  lemma ShiftShareMonotone(baseSalary: nat, fewer: nat, more: nat, normDays: real)
    requires normDays > 0.0 && fewer <= more
    ensures ShiftShare(baseSalary, fewer, normDays) <= ShiftShare(baseSalary, more, normDays)
  {
    MulMonotone(baseSalary as real, fewer as real, more as real);
    DivMonotone(baseSalary as real * fewer as real, baseSalary as real * more as real, normDays);
  }

  lemma ShiftShareAgainstNorm(baseSalary: nat, sumDays: nat, normDays: real)
    requires normDays > 0.0
    ensures sumDays as real <= normDays ==> ShiftShare(baseSalary, sumDays, normDays) <= baseSalary as real
    ensures sumDays as real >= normDays ==> ShiftShare(baseSalary, sumDays, normDays) >= baseSalary as real
  {
    var b := baseSalary as real;
    MulDivCancel(b, normDays);
    if sumDays as real <= normDays {
      MulMonotone(b, sumDays as real, normDays);
      DivMonotone(b * sumDays as real, b * normDays, normDays);
    }
    if sumDays as real >= normDays {
      MulMonotone(b, normDays, sumDays as real);
      DivMonotone(b * normDays, b * sumDays as real, normDays);
    }
  }

  /**
    The formula on the three numbers it reads: salary times shifts over the norm of the
    month, rounded half-up to cents.
   */
  function ProRated(baseSalary: nat, sumDays: nat, normDays: real): (r: int)
    requires normDays > 0.0
    ensures r >= 0
    ensures sumDays == 0 ==> r == 0
    ensures r as real - 0.5 <= 100.0 * ShiftShare(baseSalary, sumDays, normDays) < r as real + 0.5
  {
    RoundNonNegative(ShiftShare(baseSalary, sumDays, normDays));
    RoundHalfUpCents(ShiftShare(baseSalary, sumDays, normDays))
  }

  /** The whole base salary, in cents, rounds to itself. */
  lemma RoundBaseSalary(baseSalary: nat)
    ensures RoundHalfUpCents(baseSalary as real) == 100 * baseSalary
  {
    RoundWholeCents(100 * baseSalary);
    assert Amount(100 * baseSalary) == baseSalary as real;
  }

  /** Working exactly the norm of the month earns exactly the base salary. */
  lemma ProRatedFullMonth(baseSalary: nat, sumDays: nat, normDays: real)
    requires normDays > 0.0 && sumDays as real == normDays
    ensures ProRated(baseSalary, sumDays, normDays) == 100 * baseSalary
  {
    ShiftShareOfNorm(baseSalary, sumDays, normDays);
    RoundBaseSalary(baseSalary);
  }

  /** More shifts never earn less. */
  lemma ProRatedMonotone(baseSalary: nat, fewer: nat, more: nat, normDays: real)
    requires normDays > 0.0 && fewer <= more
    ensures ProRated(baseSalary, fewer, normDays) <= ProRated(baseSalary, more, normDays)
  {
    ShiftShareMonotone(baseSalary, fewer, more, normDays);
    RoundMonotone(ShiftShare(baseSalary, fewer, normDays), ShiftShare(baseSalary, more, normDays));
  }

  /** Up to the norm the salary is at most the base salary; from the norm on, at least. */
  lemma ProRatedAgainstNorm(baseSalary: nat, sumDays: nat, normDays: real)
    requires normDays > 0.0
    ensures sumDays as real <= normDays ==> ProRated(baseSalary, sumDays, normDays) <= 100 * baseSalary
    ensures sumDays as real >= normDays ==> ProRated(baseSalary, sumDays, normDays) >= 100 * baseSalary
  {
    var q := ShiftShare(baseSalary, sumDays, normDays);
    ShiftShareAgainstNorm(baseSalary, sumDays, normDays);
    RoundBaseSalary(baseSalary);
    if sumDays as real <= normDays {
      RoundMonotone(q, baseSalary as real);
    }
    if sumDays as real >= normDays {
      RoundMonotone(baseSalary as real, q);
    }
  }

  /** The salary for the shifts worked, to the nearest cent. */
  function ProRatedSalary(d: SalaryData, t: Tables): (r: int)
    requires Covers(t, d.month)
    ensures r >= 0
    ensures d.sumDays == 0 ==> r == 0
  {
    ProRated(d.baseSalary, d.sumDays, t.daysNorm[d.month])
  }

  // ---------------------------------------------------------------------------
  // calculation_night_shifts

  /** `base_salary / monthly_hours_norm`, unrounded. */
  function HourlyRate(baseSalary: nat, hoursNorm: real): (r: real)
    requires hoursNorm > 0.0
    ensures r >= 0.0
  {
    baseSalary as real / hoursNorm
  }

  /** The pay for `days` shifts of `hoursPerShift` hours at `rate`, rounded to cents, or 0 for no shifts. */
  function NightPayment(rate: real, days: nat, hoursPerShift: real): (r: int)
    ensures days == 0 ==> r == 0
    ensures rate >= 0.0 && hoursPerShift >= 0.0 ==> r >= 0
  {
    if days != 0 then
      var x := rate * (days as real * hoursPerShift);
      if rate >= 0.0 && hoursPerShift >= 0.0 then
        MulNonNegative(days as real, hoursPerShift);
        MulNonNegative(rate, days as real * hoursPerShift);
        RoundNonNegative(x);
        RoundHalfUpCents(x)
      else
        RoundHalfUpCents(x)
    else 0
  }

  /** The same for evening shifts, left unrounded. */
  function EveningPayment(rate: real, days: nat, hoursPerShift: real): (r: real)
    ensures days == 0 ==> r == 0.0
    ensures rate >= 0.0 && hoursPerShift >= 0.0 ==> r >= 0.0
  {
    if days != 0 then
      if rate >= 0.0 && hoursPerShift >= 0.0 then
        MulNonNegative(days as real, hoursPerShift);
        MulNonNegative(rate, days as real * hoursPerShift);
        rate * (days as real * hoursPerShift)
      else
        rate * (days as real * hoursPerShift)
    else 0.0
  }

  /** Night pay: the night-pay percentage of the night part (rounded) and the evening part together. */
  function NightPay(d: SalaryData, t: Tables): (r: int)
    requires Covers(t, d.month)
    ensures d.nightShifts == 0 && d.eveningShifts == 0 ==> r == 0
    ensures NonNegative(t.factors) ==> r >= 0
  {
    var f := t.factors;
    var rate := HourlyRate(d.baseSalary, t.hoursNorm[d.month]);
    var total := Amount(NightPayment(rate, d.nightShifts, f.nightShiftHours)) +
                 EveningPayment(rate, d.eveningShifts, f.eveningShiftHours);
    assert NonNegative(f) ==> total >= 0.0;
    PercentOfAmount(total, f.nightPayPercent)
  }

  /** Night pay from the numbers it reads, as the engine computes it step by step. */
  lemma NightPayFrom(d: SalaryData, t: Tables, baseSalary: nat, hoursNorm: real, nightDays: nat, eveningDays: nat)
    requires Covers(t, d.month)
    requires baseSalary == d.baseSalary && hoursNorm == t.hoursNorm[d.month]
    requires nightDays == d.nightShifts && eveningDays == d.eveningShifts
    ensures hoursNorm > 0.0
    ensures NightPay(d, t) ==
      PercentOfAmount(Amount(NightPayment(HourlyRate(baseSalary, hoursNorm), nightDays, t.factors.nightShiftHours)) +
                      EveningPayment(HourlyRate(baseSalary, hoursNorm), eveningDays, t.factors.eveningShiftHours),
                      t.factors.nightPayPercent)
  {
  }

  // ---------------------------------------------------------------------------
  // calculation_underground, calculation_bonus

  /** The hazard surcharge: a percentage of the pro-rated salary. */
  function UndergroundPay(d: SalaryData, t: Tables): (r: int)
    requires Covers(t, d.month)
    ensures NonNegative(t.factors) ==> r >= 0
  {
    PercentOf(ProRatedSalary(d, t), t.factors.undergroundPercent)
  }

  /** The bonus: a percentage of salary, hazard surcharge and night pay together. */
  function BonusPay(d: SalaryData, t: Tables): (r: int)
    requires Covers(t, d.month)
    ensures NonNegative(t.factors) ==> r >= 0
  {
    PercentOf(ProRatedSalary(d, t) + UndergroundPay(d, t) + NightPay(d, t), t.factors.bonusPercent)
  }

  // ---------------------------------------------------------------------------
  // calculation_working_in_temperature

  /** The pay for `hours` hours at `rate`, rounded to cents. */
  function HoursPay(hours: real, rate: real): (r: int)
    ensures hours == 0.0 ==> r == 0
    ensures hours >= 0.0 && rate >= 0.0 ==> r >= 0
  {
    if hours >= 0.0 && rate >= 0.0 then
      MulNonNegative(hours, rate);
      RoundNonNegative(hours * rate);
      RoundHalfUpCents(hours * rate)
    else
      RoundHalfUpCents(hours * rate)
  }

  /** Five hours per temperature day at the hourly rate, rounded to cents. */
  function TemperatureBase(d: SalaryData, t: Tables): (r: int)
    requires Covers(t, d.month)
    ensures d.temperatureWork == 0 ==> r == 0
    ensures r >= 0
  {
    HoursPay(d.temperatureWork as real * 5.0, HourlyRate(d.baseSalary, t.hoursNorm[d.month]))
  }

  /** The temperature surcharge: a percentage of that amount, rounded again. */
  function TemperaturePay(d: SalaryData, t: Tables): (r: int)
    requires Covers(t, d.month)
    ensures d.temperatureWork == 0 ==> r == 0
    ensures NonNegative(t.factors) ==> r >= 0
  {
    PercentOf(TemperatureBase(d, t), t.factors.temperaturePercent)
  }

  // ---------------------------------------------------------------------------
  // calculation_base, calculation_district_allowance, calculation_north_allowance

  /** The base sum: its `quantize` meets amounts already in cents, so it is their exact sum. */
  function BaseTotal(d: SalaryData, t: Tables): (r: int)
    requires Covers(t, d.month)
    ensures r == ProRatedSalary(d, t) + BonusPay(d, t) + UndergroundPay(d, t) + NightPay(d, t) + TemperaturePay(d, t)
  {
    var sum := ProRatedSalary(d, t) + BonusPay(d, t) + UndergroundPay(d, t) + NightPay(d, t) + TemperaturePay(d, t);
    RoundWholeCents(sum);
    RoundHalfUpCents(Amount(sum))
  }

  function DistrictPay(d: SalaryData, t: Tables): (r: int)
    requires Covers(t, d.month)
    ensures NonNegative(t.factors) ==> r >= 0
  {
    PercentOf(BaseTotal(d, t), t.factors.districtPercent)
  }

  function NorthPay(d: SalaryData, t: Tables): (r: int)
    requires Covers(t, d.month)
    ensures NonNegative(t.factors) ==> r >= 0
  {
    PercentOf(BaseTotal(d, t), t.factors.northPercent)
  }

  // ---------------------------------------------------------------------------
  // calculation_total_accruals

  /**
    All accruals: the seven rounded components added without rounding again, which is the
    base sum plus the two regional allowances.
   */
  function Accruals(d: SalaryData, t: Tables): (r: int)
    requires Covers(t, d.month)
    ensures r == BaseTotal(d, t) + DistrictPay(d, t) + NorthPay(d, t)
    ensures NonNegative(t.factors) ==> r >= 0
  {
    BonusPay(d, t) + UndergroundPay(d, t) + ProRatedSalary(d, t) + NightPay(d, t) +
    DistrictPay(d, t) + NorthPay(d, t) + TemperaturePay(d, t)
  }

  // ---------------------------------------------------------------------------
  // calculation_deduction_for_children

  /** `[Decimal(x.strip()) for x in parts if x.strip().isdigit()]`. */
  function ChildNumbers(parts: seq<string>): (r: seq<nat>)
    ensures |r| <= |parts|
  {
    if parts == [] then []
    else
      var rest := ChildNumbers(parts[1..]);
      var part := Strip(parts[0]);
      if IsDigits(part) then [DigitsValue(part)] + rest else rest
  }

  /** `len([x for x in children if x >= 4])`. */
  function CountFromFourth(kids: seq<nat>): (r: nat)
    ensures r <= |kids|
  {
    if kids == [] then 0
    else CountFromFourth(kids[..|kids| - 1]) + (if kids[|kids| - 1] >= 4 then 1 else 0)
  }

  /** The untaxed deduction in roubles: 1400, 2800 and 6000 for children 1, 2, 3, then 6000 each. */
  function DeductionBase(kids: seq<nat>): (r: nat)
    ensures r <= 1400 + 2800 + 6000 + 6000 * |kids|
  {
    (if 1 in kids then 1400 else 0) + (if 2 in kids then 2800 else 0) + (if 3 in kids then 6000 else 0) +
    6000 * CountFromFourth(kids)
  }

  /** What one child adds to the deduction, by its number. */
  function Tier(k: nat): nat {
    if k == 0 then 0
    else if k == 1 then 1400
    else if k == 2 then 2800
    else 6000
  }

  function TierSum(kids: seq<nat>): nat {
    if kids == [] then 0 else TierSum(kids[..|kids| - 1]) + Tier(kids[|kids| - 1])
  }

  /**
    For a list without repeats, the deduction is the sum over the children of what each
    one adds: child 0 nothing, child 1 1400, child 2 2800, child 3 and every later one 6000.
   */
  lemma {:induction false} DeductionIsPerChildSum(kids: seq<nat>)
    requires Distinct(kids)
    ensures DeductionBase(kids) == TierSum(kids)
    decreases |kids|
  {
    if kids != [] {
      var init := kids[..|kids| - 1];
      var last := kids[|kids| - 1];
      assert kids == init + [last];
      assert Distinct(init);
      assert last !in init;
      DeductionIsPerChildSum(init);
      forall k ensures k in kids <==> k in init || k == last {
      }
    }
  }

  /** The child tax deduction in cents: 0 when no children are recorded. */
  function ChildDeduction(d: SalaryData, t: Tables): (r: int)
    ensures d.children == "" ==> r == 0
    ensures NonNegative(t.factors) ==> r >= 0
  {
    var deduction := DeductionBase(ChildNumbers(Split(d.children, ',')));
    var result := PercentOf(100 * deduction, t.factors.incomeTaxPercent);
    if d.children == "" then 0 else result
  }

  /** Reading back rendered numbers gives the numbers. */
  lemma {:induction false} ChildNumbersOfRendering(ns: seq<nat>)
    ensures ChildNumbers(NatStrings(ns)) == ns
    decreases |ns|
  {
    if ns != [] {
      PartValueOfRendering(ns[0]);
      assert NatStrings(ns)[1..] == NatStrings(ns[1..]);
      ChildNumbersOfRendering(ns[1..]);
      assert [ns[0]] + ns[1..] == ns;
    }
  }

  /**
    On a children list the setter accepted, the engine reads exactly the validated child
    numbers, and the deduction is the per-child sum over them.
   */
  lemma ValidatedChildrenDeduction(children: string)
    requires ChildrenOutcome(children) == Ok(children)
    ensures var kids := ChildNumbers(Split(children, ','));
      kids == Sort(PartValues(Split(children, ','))) && Increasing(kids) &&
      DeductionBase(kids) == TierSum(kids)
  {
    ChildrenOutcomeValue(children);
    var ks := Sort(PartValues(Split(children, ',')));
    SplitJoinNats(ks);
    ChildNumbersOfRendering(ks);
    IncreasingDistinct(ks);
    DeductionIsPerChildSum(ks);
  }

  // ---------------------------------------------------------------------------
  // calculation_withholding_tax

  /**
    The income tax: the tax percentage of all accruals, less the child deduction. The source
    returns the product alone when the deduction is zero, which is the same amount.
   */
  function IncomeTax(d: SalaryData, t: Tables): (r: int)
    requires Covers(t, d.month)
    ensures r == PercentOf(Accruals(d, t), t.factors.incomeTaxPercent) - ChildDeduction(d, t)
  {
    var deduction := ChildDeduction(d, t);
    var resultZero := PercentOf(Accruals(d, t), t.factors.incomeTaxPercent);
    var result := resultZero - deduction;
    if deduction == 0 then resultZero else result
  }

  /** With a tax rate of at most 100%, accruals less tax are never negative. */
  lemma NetNonNegative(d: SalaryData, t: Tables)
    requires Covers(t, d.month) && NonNegative(t.factors) && t.factors.incomeTaxPercent <= 100.0
    ensures Accruals(d, t) - IncomeTax(d, t) >= 0
  {
  }

  // ---------------------------------------------------------------------------
  // calculation_alimony

  /** `alimony_rates`: 16, 25, 33 and 50 per cent stand for 1/6, 1/4, 1/3 and 1/2 of the net pay. */
  const AlimonyRates: map<nat, real> := map[16 := 1.0 / 6.0, 25 := 1.0 / 4.0, 33 := 1.0 / 3.0, 50 := 1.0 / 2.0]

  /** The fraction a rate stands for; a rate missing from the table adds nothing. */
  function RateFraction(rate: nat): (r: real)
    ensures 0.0 <= r <= 0.5
    ensures r > 0.0 <==> rate in {16, 25, 33, 50}
  {
    if rate in AlimonyRates then AlimonyRates[rate] else 0.0
  }

  /** One part of the alimony text: its rate fraction once stripped, or 0 when it is not digits. */
  function PartShare(part: string): (r: real)
    ensures 0.0 <= r <= 0.5
  {
    var rate := Strip(part);
    if IsDigits(rate) then RateFraction(DigitsValue(rate)) else 0.0
  }

  /** The sum of the fractions over the parts, taken in order. */
  function AlimonyShare(parts: seq<string>): (r: real)
    ensures 0.0 <= r <= 0.5 * |parts| as real
  {
    if parts == [] then 0.0 else AlimonyShare(parts[..|parts| - 1]) + PartShare(parts[|parts| - 1])
  }

  /** One more part adds its own fraction to the sum. */
  lemma AlimonyShareStep(parts: seq<string>, i: nat)
    requires i < |parts|
    ensures AlimonyShare(parts[..i + 1]) == AlimonyShare(parts[..i]) + PartShare(parts[i])
  {
    assert parts[..i + 1][..i] == parts[..i];
  }

  /** `(net_salary * total_deduction).quantize(...)`: a share of `net` cents, to the nearest cent. */
  function ShareOf(net: int, share: real): (r: int)
    ensures net >= 0 && 0.0 <= share <= 1.0 ==> 0 <= r <= net
    ensures share == 0.0 ==> r == 0
  {
    if net >= 0 && 0.0 <= share <= 1.0 then
      FractionBetween(net, share);
      RoundBetween(0, Amount(net) * share, net);
      RoundHalfUpCents(Amount(net) * share)
    else
      RoundHalfUpCents(Amount(net) * share)
  }

  /**
    Alimony: the share of accruals less tax, rounded to cents; 0 when no children are
    recorded (the check reads the children field, not the alimony field).
   */
  function AlimonyAmount(d: SalaryData, t: Tables): (r: int)
    requires Covers(t, d.month)
    ensures d.children == "" ==> r == 0
  {
    var net := Accruals(d, t) - IncomeTax(d, t);
    var amount := ShareOf(net, AlimonyShare(Split(d.alimony, ',')));
    if d.children == "" then 0 else amount
  }

  /** When the shares add up to at most one, alimony takes no more than what is left after tax. */
  lemma AlimonyWithinNet(d: SalaryData, t: Tables)
    requires Covers(t, d.month)
    requires Accruals(d, t) - IncomeTax(d, t) >= 0
    requires AlimonyShare(Split(d.alimony, ',')) <= 1.0
    ensures 0 <= AlimonyAmount(d, t) <= Accruals(d, t) - IncomeTax(d, t)
    ensures NetAnswer(d, t) >= 0
  {
  }

  // ---------------------------------------------------------------------------
  // calculation_answer, calculation_base_month

  /** The net pay: accruals less tax less alimony, without rounding. */
  function NetAnswer(d: SalaryData, t: Tables): (r: int)
    requires Covers(t, d.month)
    ensures r + IncomeTax(d, t) + AlimonyAmount(d, t) == Accruals(d, t)
  {
    Accruals(d, t) - IncomeTax(d, t) - AlimonyAmount(d, t)
  }

  /**
    The answer is never negative when the factors are, the tax rate is at most 100% and the
    alimony shares add up to at most the whole net pay; alimony then takes at most that net.
   */
  lemma NetAnswerNonNegative(d: SalaryData, t: Tables)
    requires Covers(t, d.month) && NonNegative(t.factors) && t.factors.incomeTaxPercent <= 100.0
    requires AlimonyShare(Split(d.alimony, ',')) <= 1.0
    ensures 0 <= AlimonyAmount(d, t) <= Accruals(d, t) - IncomeTax(d, t)
    ensures NetAnswer(d, t) >= 0
  {
    NetNonNegative(d, t);
    AlimonyWithinNet(d, t);
  }

  /**
    The quarterly overtime differential: the pro-rated salary less the base salary. Both
    are whole cents already, so the rounding changes nothing.
   */
  function OvertimeDifferential(d: SalaryData, t: Tables): (r: int)
    requires Covers(t, d.month)
    ensures r == ProRatedSalary(d, t) - 100 * d.baseSalary
  {
    var diff := ProRatedSalary(d, t) - 100 * d.baseSalary;
    assert Amount(ProRatedSalary(d, t)) - d.baseSalary as real == Amount(diff);
    RoundWholeCents(diff);
    RoundHalfUpCents(Amount(ProRatedSalary(d, t)) - d.baseSalary as real)
  }

  /**
    The differential is negative only for fewer shifts than the norm, positive only for more,
    and zero at exactly the norm.
   */
  lemma OvertimeSign(d: SalaryData, t: Tables)
    requires Covers(t, d.month)
    ensures d.sumDays as real <= t.daysNorm[d.month] ==> OvertimeDifferential(d, t) <= 0
    ensures d.sumDays as real >= t.daysNorm[d.month] ==> OvertimeDifferential(d, t) >= 0
    ensures d.sumDays as real == t.daysNorm[d.month] ==> OvertimeDifferential(d, t) == 0
  {
    ProRatedAgainstNorm(d.baseSalary, d.sumDays, t.daysNorm[d.month]);
    if d.sumDays as real == t.daysNorm[d.month] {
      ProRatedFullMonth(d.baseSalary, d.sumDays, t.daysNorm[d.month]);
    }
  }

  // ---------------------------------------------------------------------------
  // month_quarter_payment_calculation

  const UnknownMonth: string := "неизвестный месяц"

  /** When the differential for a quarter's months is paid: the month after the quarter ends. */
  const PaymentMonths: seq<string> := [
    "апреле текущего года", "июле текущего года", "октябре текущего года", "январе следующего года"
  ]

  /** `quarter_to_payment`. */
  const QuarterToPayment: map<string, string> := map[
    "январь" := "апреле текущего года", "февраль" := "апреле текущего года", "март" := "апреле текущего года",
    "апрель" := "июле текущего года", "май" := "июле текущего года", "июнь" := "июле текущего года",
    "июль" := "октябре текущего года", "август" := "октябре текущего года", "сентябрь" := "октябре текущего года",
    "октябрь" := "январе следующего года", "ноябрь" := "январе следующего года", "декабрь" := "январе следующего года"
  ]

  /** `quarter_to_payment.get(month, "неизвестный месяц")`. */
  function QuarterPayoutMonth(month: string): (r: string)
    ensures r == UnknownMonth || r in PaymentMonths
  {
    if month in QuarterToPayment then QuarterToPayment[month] else UnknownMonth
  }

  /** Month `i` of the year (counting January as 0) is paid in the month after its quarter. */
  lemma QuarterOfEachMonth()
    ensures forall i :: 0 <= i < 12 ==> QuarterPayoutMonth(MonthNames[i]) == PaymentMonths[i / 3]
  {
    forall i | 0 <= i < 12
      ensures QuarterPayoutMonth(MonthNames[i]) == PaymentMonths[i / 3]
    {
      assert MonthNames[i] in QuarterToPayment;
    }
  }

  /** A name that is not one of the twelve lower-case month names gets the fallback text. */
  lemma UnknownMonthFallback(month: string)
    requires month !in MonthNames
    ensures QuarterPayoutMonth(month) == UnknownMonth
  {
    assert MonthNames == [
      "январь", "февраль", "март", "апрель", "май", "июнь",
      "июль", "август", "сентябрь", "октябрь", "ноябрь", "декабрь"
    ];
    assert month != "январь" && month != "февраль" && month != "март" && month != "апрель";
    assert month != "май" && month != "июнь" && month != "июль" && month != "август";
    assert month != "сентябрь" && month != "октябрь" && month != "ноябрь" && month != "декабрь";
  }

  /**
    Month `i` of the year (counting January as 0) is paid in the month after its quarter;
    anything that is not one of the twelve lower-case month names gets the fallback text.
   */
  lemma QuarterGrouping(month: string)
    ensures forall i :: 0 <= i < 12 ==> QuarterPayoutMonth(MonthNames[i]) == PaymentMonths[i / 3]
    ensures month !in MonthNames ==> QuarterPayoutMonth(month) == UnknownMonth
  {
    QuarterOfEachMonth();
    if month !in MonthNames {
      UnknownMonthFallback(month);
    }
  }
}
