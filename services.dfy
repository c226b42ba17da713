/**
  `services.py`: `CalculationBaseSalary`, the engine. It holds the input record and a
  result cache; every calculation step is a method that first looks up its own name in the
  cache, and otherwise reads the record and the steps it depends on, computes its amount
  and stores it. Each method is proved to return the value the matching function of
  `Calculation` gives for the record, and the cache only ever holds such values.
 */
module Services {
  import opened Wrappers
  import opened Text
  import opened Rounding
  import opened Constants
  import opened Calculation
  import opened CacheDecorator
  import Models

  // The cache keys: the decorated method names.
  const BaseSalaryKey: string := "calculation_base_salary"
  const NightShiftsKey: string := "calculation_night_shifts"
  const UndergroundKey: string := "calculation_underground"
  const BonusKey: string := "calculation_bonus"
  const TemperatureKey: string := "calculation_working_in_temperature"
  const BaseKey: string := "calculation_base"
  const DistrictKey: string := "calculation_district_allowance"
  const NorthKey: string := "calculation_north_allowance"
  const TotalAccrualsKey: string := "calculation_total_accruals"
  const DeductionKey: string := "calculation_deduction_for_children"
  const TaxKey: string := "calculation_withholding_tax"
  const AlimonyKey: string := "calculation_alimony"
  const AnswerKey: string := "calculation_answer"
  const BaseMonthKey: string := "calculation_base_month"

  /** The amount the step cached under `key` stands for, or `None` for a name no step uses. */
  function StepValue(key: string, d: Models.SalaryData, t: Tables): Option<int>
    requires Covers(t, d.month)
  {
    if key == BaseSalaryKey then Some(ProRatedSalary(d, t))
    else if key == NightShiftsKey then Some(NightPay(d, t))
    else if key == UndergroundKey then Some(UndergroundPay(d, t))
    else if key == BonusKey then Some(BonusPay(d, t))
    else if key == TemperatureKey then Some(TemperaturePay(d, t))
    else if key == BaseKey then Some(BaseTotal(d, t))
    else if key == DistrictKey then Some(DistrictPay(d, t))
    else if key == NorthKey then Some(NorthPay(d, t))
    else if key == TotalAccrualsKey then Some(Accruals(d, t))
    else if key == DeductionKey then Some(ChildDeduction(d, t))
    else if key == TaxKey then Some(IncomeTax(d, t))
    else if key == AlimonyKey then Some(AlimonyAmount(d, t))
    else if key == AnswerKey then Some(NetAnswer(d, t))
    else if key == BaseMonthKey then Some(OvertimeDifferential(d, t))
    else None
  }

  /** Every cached amount is the one its step computes for `d` and `t`. */
  ghost predicate Cached(entries: map<string, int>, d: Models.SalaryData, t: Tables)
    requires Covers(t, d.month)
  {
    forall k :: k in entries ==> StepValue(k, d, t) == Some(entries[k])
  }

  /** What each step name stands for. */
  lemma StepValues(d: Models.SalaryData, t: Tables)
    requires Covers(t, d.month)
    ensures StepValue(BaseSalaryKey, d, t) == Some(ProRatedSalary(d, t))
    ensures StepValue(NightShiftsKey, d, t) == Some(NightPay(d, t))
    ensures StepValue(UndergroundKey, d, t) == Some(UndergroundPay(d, t))
    ensures StepValue(BonusKey, d, t) == Some(BonusPay(d, t))
    ensures StepValue(TemperatureKey, d, t) == Some(TemperaturePay(d, t))
    ensures StepValue(BaseKey, d, t) == Some(BaseTotal(d, t))
    ensures StepValue(DistrictKey, d, t) == Some(DistrictPay(d, t))
    ensures StepValue(NorthKey, d, t) == Some(NorthPay(d, t))
    ensures StepValue(TotalAccrualsKey, d, t) == Some(Accruals(d, t))
    ensures StepValue(DeductionKey, d, t) == Some(ChildDeduction(d, t))
    ensures StepValue(TaxKey, d, t) == Some(IncomeTax(d, t))
    ensures StepValue(AlimonyKey, d, t) == Some(AlimonyAmount(d, t))
    ensures StepValue(AnswerKey, d, t) == Some(NetAnswer(d, t))
    ensures StepValue(BaseMonthKey, d, t) == Some(OvertimeDifferential(d, t))
  {
  }

  lemma CachedStore(entries: map<string, int>, key: string, v: int, d: Models.SalaryData, t: Tables)
    requires Covers(t, d.month) && Cached(entries, d, t) && StepValue(key, d, t) == Some(v)
    ensures Cached(entries[key := v], d, t)
  {
  }

  // The steps that read other steps, stated on the amounts those steps returned.

  /** The arithmetic of `calculation_bonus`, on the three amounts it read. */
  method BonusOnTotal(ghost d: Models.SalaryData, t: Tables, baseSalary: int, underground: int, nightShifts: int)
    returns (r: int)
    requires Covers(t, d.month)
    requires baseSalary == ProRatedSalary(d, t) && underground == UndergroundPay(d, t) && nightShifts == NightPay(d, t)
    ensures r == BonusPay(d, t)
  {
    var totalAmount := baseSalary + underground + nightShifts;
    r := PercentOf(totalAmount, t.factors.bonusPercent);
  }

  /** The arithmetic of `calculation_base`: the five amounts summed and quantized to cents. */
  method BaseOnParts(ghost d: Models.SalaryData, t: Tables, baseSalary: int, bonus: int, underground: int,
                     nightShifts: int, temperature: int)
    returns (r: int)
    requires Covers(t, d.month)
    requires baseSalary == ProRatedSalary(d, t) && bonus == BonusPay(d, t) && underground == UndergroundPay(d, t)
    requires nightShifts == NightPay(d, t) && temperature == TemperaturePay(d, t)
    ensures r == BaseTotal(d, t)
  {
    var sum := baseSalary + bonus + underground + nightShifts + temperature;
    RoundWholeCents(sum);
    r := RoundHalfUpCents(Amount(sum));
  }

  /** `calculation_night_shifts`'s arithmetic on the numbers read back from the record. */
  method NightPayOn(ghost d: Models.SalaryData, t: Tables, baseSalary: nat, month: string, nightDays: nat, eveningDays: nat)
    returns (r: int)
    requires Covers(t, d.month)
    requires baseSalary == d.baseSalary && month == d.month
    requires nightDays == d.nightShifts && eveningDays == d.eveningShifts
    ensures r == NightPay(d, t)
  {
    var f := t.factors;
    var hourlyRate := HourlyRate(baseSalary, t.hoursNorm[month]);
    var nightPayment := NightPayment(hourlyRate, nightDays, f.nightShiftHours);
    var eveningPayment := EveningPayment(hourlyRate, eveningDays, f.eveningShiftHours);
    r := PercentOfAmount(Amount(nightPayment) + eveningPayment, f.nightPayPercent);
    NightPayFrom(d, t, baseSalary, t.hoursNorm[month], nightDays, eveningDays);
  }

  /** `calculation_working_in_temperature`'s arithmetic on the numbers read back from the record. */
  method TemperatureOn(ghost d: Models.SalaryData, t: Tables, baseSalary: nat, month: string, workingInTemperature: nat)
    returns (r: int)
    requires Covers(t, d.month)
    requires baseSalary == d.baseSalary && month == d.month && workingInTemperature == d.temperatureWork
    ensures r == TemperaturePay(d, t)
  {
    var convertedDaysInHours := workingInTemperature as real * 5.0;
    var payPerHour := HourlyRate(baseSalary, t.hoursNorm[month]);
    var withoutInterest := HoursPay(convertedDaysInHours, payPerHour);
    r := PercentOf(withoutInterest, t.factors.temperaturePercent);
  }

  /** `calculation_base_month`'s arithmetic on the salary step's amount and the base salary read back. */
  method DifferentialOn(ghost d: Models.SalaryData, t: Tables, baseSalary: int, salary: nat) returns (r: int)
    requires Covers(t, d.month)
    requires baseSalary == ProRatedSalary(d, t) && salary == d.baseSalary
    ensures r == OvertimeDifferential(d, t)
  {
    r := RoundHalfUpCents(Amount(baseSalary) - salary as real);
  }

  lemma AccrualsFrom(d: Models.SalaryData, t: Tables, bonus: int, underground: int, baseSalary: int, night: int,
                     district: int, north: int, temperature: int)
    requires Covers(t, d.month)
    requires bonus == BonusPay(d, t) && underground == UndergroundPay(d, t) && baseSalary == ProRatedSalary(d, t)
    requires night == NightPay(d, t) && district == DistrictPay(d, t) && north == NorthPay(d, t)
    requires temperature == TemperaturePay(d, t)
    ensures Accruals(d, t) == bonus + underground + baseSalary + night + district + north + temperature
  {
  }

  lemma ChildDeductionFrom(d: Models.SalaryData, t: Tables, kids: seq<nat>, deduction: int)
    requires kids == ChildNumbers(Split(d.children, ','))
    requires deduction == DeductionBase(kids)
    ensures ChildDeduction(d, t) == if d.children == "" then 0 else PercentOf(100 * deduction, t.factors.incomeTaxPercent)
  {
  }

  lemma AlimonyFrom(d: Models.SalaryData, t: Tables, net: int, share: real)
    requires Covers(t, d.month)
    requires net == Accruals(d, t) - IncomeTax(d, t) && share == AlimonyShare(Split(d.alimony, ','))
    ensures AlimonyAmount(d, t) == if d.children == "" then 0 else ShareOf(net, share)
  {
  }

  /** What one part of the alimony text adds, as the loop computes it. */
  lemma PartShareOf(part: string)
    ensures PartShare(part) ==
      if IsDigits(Strip(part)) && DigitsValue(Strip(part)) in AlimonyRates then AlimonyRates[DigitsValue(Strip(part))] else 0.0
  {
  }

  /**
    The loop of `calculation_alimony`: for every part that is digits once stripped, the
    fraction its rate stands for, if the rate is in the table, is added to the total.
   */
  method AlimonyRateSum(parts: seq<string>) returns (totalDeduction: real)
    ensures totalDeduction == AlimonyShare(parts)
  {
    totalDeduction := 0.0;
    var i := 0;
    while i < |parts|
      invariant 0 <= i <= |parts|
      invariant totalDeduction == AlimonyShare(parts[..i])
    {
      AlimonyShareStep(parts, i);
      PartShareOf(parts[i]);
      var rate := Strip(parts[i]);
      if IsDigits(rate) {
        var rateInt := DigitsValue(rate);
        if rateInt in AlimonyRates {
          totalDeduction := totalDeduction + AlimonyRates[rateInt];
        }
      }
      i := i + 1;
    }
    assert parts[..|parts|] == parts;
  }

  class CalculationBaseSalary {
    /** `self.salary_data`. */
    const salaryData: Models.BaseSalary
    /** The month norms and factors, which the source reads from module constants. */
    const tables: Tables
    /** `self._cache`. */
    const cache: ResultCache<int>
    /** What the getters of `salaryData` return. */
    ghost const data: Models.SalaryData

    /** The record is complete, readable and unchanged since the engine was made, and the tables cover its month. */
    ghost predicate RecordValid()
      reads this, salaryData
    {
      salaryData.Readable() && salaryData.Complete() && salaryData.Data() == data &&
      Covers(tables, data.month)
    }

    /** ... and every cached amount is the one its step computes for the record. */
    ghost predicate Valid()
      reads this, salaryData, cache
    {
      RecordValid() && Cached(cache.entries, data, tables)
    }

    /** `__init__`: an engine over a filled-in record, with an empty cache. */
    constructor(salaryData: Models.BaseSalary, tables: Tables)
      requires salaryData.Valid() && salaryData.Complete()
      requires Covers(tables, salaryData.Data().month)
      ensures this.salaryData == salaryData && this.tables == tables && data == salaryData.Data()
      ensures fresh(cache) && cache.entries == map[]
      ensures Valid()
    {
      this.salaryData := salaryData;
      this.tables := tables;
      this.data := salaryData.Data();
      this.cache := new ResultCache<int>();
    }

    /**
      Stores the amount a step computed under its name. `before` is the cache as the step
      found it, without its own name; the steps it ran since only added entries.
     */
    method Remember(ghost before: map<string, int>, key: string, r: int)
      requires Valid() && StepValue(key, data, tables) == Some(r)
      requires key !in before && Extends(before, cache.entries)
      modifies cache
      ensures Valid()
      ensures cache.entries == old(cache.entries)[key := r]
      ensures Memoised(before, cache.entries, key, r)
    {
      CachedStore(cache.entries, key, r, data, tables);
      cache.Store(key, r);
    }

    /** `calculation_base_salary`: the salary for the shifts worked. */
    method BaseSalary() returns (r: int)
      requires Valid()
      modifies cache
      ensures Valid()
      ensures r == ProRatedSalary(data, tables)
      ensures Memoised(old(cache.entries), cache.entries, BaseSalaryKey, r)
    {
      var hit := cache.Lookup(BaseSalaryKey);
      if hit.Some? {
        return hit.value;
      }
      var baseSalary := salaryData.GetBaseSalary();
      var month := salaryData.GetMonth();
      var sumDays := salaryData.GetSumDays();
      assert baseSalary == data.baseSalary && month == data.month && sumDays == data.sumDays;
      var normalDaysInMonth := tables.daysNorm[month];
      var exact := ShiftShare(baseSalary, sumDays, normalDaysInMonth);
      r := RoundHalfUpCents(exact);
      assert r == ProRatedSalary(data, tables);
      StepValues(data, tables);
      Remember(old(cache.entries), BaseSalaryKey, r);
    }

    /** `calculation_night_shifts`: the night-time surcharge. */
    method NightShifts() returns (r: int)
      requires Valid()
      modifies cache
      ensures Valid()
      ensures r == NightPay(data, tables)
      ensures Memoised(old(cache.entries), cache.entries, NightShiftsKey, r)
    {
      var hit := cache.Lookup(NightShiftsKey);
      if hit.Some? {
        return hit.value;
      }
      var baseSalary := salaryData.GetBaseSalary();
      var month := salaryData.GetMonth();
      var nightDays := salaryData.GetNightShifts();
      var eveningDays := salaryData.GetEveningShifts();
      assert baseSalary == data.baseSalary && month == data.month;
      assert nightDays == data.nightShifts && eveningDays == data.eveningShifts;
      r := NightPayOn(data, tables, baseSalary, month, nightDays, eveningDays);
      StepValues(data, tables);
      Remember(old(cache.entries), NightShiftsKey, r);
    }

    /** `calculation_underground`: the hazard surcharge on the pro-rated salary. */
    method Underground() returns (r: int)
      requires Valid()
      modifies cache
      ensures Valid()
      ensures r == UndergroundPay(data, tables)
      ensures Memoised(old(cache.entries), cache.entries, UndergroundKey, r)
    {
      var hit := cache.Lookup(UndergroundKey);
      if hit.Some? {
        return hit.value;
      }
      var baseSalary := BaseSalary();
      r := PercentOf(baseSalary, tables.factors.undergroundPercent);
      assert r == UndergroundPay(data, tables);
      StepValues(data, tables);
      Remember(old(cache.entries), UndergroundKey, r);
    }

    /** `calculation_bonus`: the bonus on salary, hazard surcharge and night pay. */
    method Bonus() returns (r: int)
      requires Valid()
      modifies cache
      ensures Valid()
      ensures r == BonusPay(data, tables)
      ensures Memoised(old(cache.entries), cache.entries, BonusKey, r)
    {
      var hit := cache.Lookup(BonusKey);
      if hit.Some? {
        return hit.value;
      }
      var baseSalary := BaseSalary();
      var underground := Underground();
      var nightShifts := NightShifts();
      r := BonusOnTotal(data, tables, baseSalary, underground, nightShifts);
      StepValues(data, tables);
      Remember(old(cache.entries), BonusKey, r);
    }

    /** `calculation_working_in_temperature`: the surcharge for high-temperature days. */
    method WorkingInTemperature() returns (r: int)
      requires Valid()
      modifies cache
      ensures Valid()
      ensures r == TemperaturePay(data, tables)
      ensures Memoised(old(cache.entries), cache.entries, TemperatureKey, r)
    {
      var hit := cache.Lookup(TemperatureKey);
      if hit.Some? {
        return hit.value;
      }
      var baseSalary := salaryData.GetBaseSalary();
      var month := salaryData.GetMonth();
      var workingInTemperature := salaryData.GetTemperatureWork();
      assert baseSalary == data.baseSalary && month == data.month && workingInTemperature == data.temperatureWork;
      r := TemperatureOn(data, tables, baseSalary, month, workingInTemperature);
      StepValues(data, tables);
      Remember(old(cache.entries), TemperatureKey, r);
    }

    /** `calculation_base`: the sum the regional allowances are reckoned on. */
    method Base() returns (r: int)
      requires Valid()
      modifies cache
      ensures Valid()
      ensures r == BaseTotal(data, tables)
      ensures Memoised(old(cache.entries), cache.entries, BaseKey, r)
    {
      var hit := cache.Lookup(BaseKey);
      if hit.Some? {
        return hit.value;
      }
      var baseSalary := BaseSalary();
      var bonus := Bonus();
      var underground := Underground();
      var nightShifts := NightShifts();
      var temperature := WorkingInTemperature();
      r := BaseOnParts(data, tables, baseSalary, bonus, underground, nightShifts, temperature);
      StepValues(data, tables);
      Remember(old(cache.entries), BaseKey, r);
    }

    /** `calculation_district_allowance`. */
    method DistrictAllowance() returns (r: int)
      requires Valid()
      modifies cache
      ensures Valid()
      ensures r == DistrictPay(data, tables)
      ensures Memoised(old(cache.entries), cache.entries, DistrictKey, r)
    {
      var hit := cache.Lookup(DistrictKey);
      if hit.Some? {
        return hit.value;
      }
      var base := Base();
      r := PercentOf(base, tables.factors.districtPercent);
      assert r == DistrictPay(data, tables);
      StepValues(data, tables);
      Remember(old(cache.entries), DistrictKey, r);
    }

    /** `calculation_north_allowance`. */
    method NorthAllowance() returns (r: int)
      requires Valid()
      modifies cache
      ensures Valid()
      ensures r == NorthPay(data, tables)
      ensures Memoised(old(cache.entries), cache.entries, NorthKey, r)
    {
      var hit := cache.Lookup(NorthKey);
      if hit.Some? {
        return hit.value;
      }
      var base := Base();
      r := PercentOf(base, tables.factors.northPercent);
      assert r == NorthPay(data, tables);
      StepValues(data, tables);
      Remember(old(cache.entries), NorthKey, r);
    }

    /** `calculation_total_accruals`: the seven components, added as they are. */
    method TotalAccruals() returns (r: int)
      requires Valid()
      modifies cache
      ensures Valid()
      ensures r == Accruals(data, tables)
      ensures Memoised(old(cache.entries), cache.entries, TotalAccrualsKey, r)
    {
      var hit := cache.Lookup(TotalAccrualsKey);
      if hit.Some? {
        return hit.value;
      }
      var bonus := Bonus();
      var underground := Underground();
      var baseSalary := BaseSalary();
      var nightShifts := NightShifts();
      var district := DistrictAllowance();
      var north := NorthAllowance();
      var temperature := WorkingInTemperature();
      r := bonus + underground + baseSalary + nightShifts + district + north + temperature;
      AccrualsFrom(data, tables, bonus, underground, baseSalary, nightShifts, district, north, temperature);
      assert r == Accruals(data, tables);
      StepValues(data, tables);
      Remember(old(cache.entries), TotalAccrualsKey, r);
    }

    /**
      `calculation_deduction_for_children`. The total accruals are computed (and so cached)
      but play no part in the result.
     */
    method DeductionForChildren() returns (r: int)
      requires Valid()
      modifies cache
      ensures Valid()
      ensures r == ChildDeduction(data, tables)
      ensures Memoised(old(cache.entries), cache.entries, DeductionKey, r)
    {
      var hit := cache.Lookup(DeductionKey);
      if hit.Some? {
        return hit.value;
      }
      var children := ChildNumbers(Split(salaryData.GetChildren(), ','));
      assert salaryData.GetChildren() == data.children;
      var _ := TotalAccruals();
      var deduction := 0;
      if 1 in children {
        deduction := deduction + 1400;
      }
      if 2 in children {
        deduction := deduction + 2800;
      }
      if 3 in children {
        deduction := deduction + 6000;
      }
      var extraChildren := CountFromFourth(children);
      deduction := deduction + extraChildren * 6000;
      assert deduction == DeductionBase(children);
      var childrenRaw := salaryData.GetChildren();
      var result := PercentOf(100 * deduction, tables.factors.incomeTaxPercent);
      r := if childrenRaw == "" then 0 else result;
      ChildDeductionFrom(data, tables, children, deduction);
      assert r == ChildDeduction(data, tables);
      StepValues(data, tables);
      Remember(old(cache.entries), DeductionKey, r);
    }

    /** `calculation_withholding_tax`. */
    method WithholdingTax() returns (r: int)
      requires Valid()
      modifies cache
      ensures Valid()
      ensures r == IncomeTax(data, tables)
      ensures Memoised(old(cache.entries), cache.entries, TaxKey, r)
    {
      var hit := cache.Lookup(TaxKey);
      if hit.Some? {
        return hit.value;
      }
      var totalAccruals := TotalAccruals();
      var deductionForChildren := DeductionForChildren();
      var resultZero := PercentOf(totalAccruals, tables.factors.incomeTaxPercent);
      var result := resultZero - deductionForChildren;
      r := if deductionForChildren == 0 then resultZero else result;
      assert r == IncomeTax(data, tables);
      StepValues(data, tables);
      Remember(old(cache.entries), TaxKey, r);
    }

    /** `calculation_alimony`: the rates are summed part by part, as the source's loop does. */
    method Alimony() returns (r: int)
      requires Valid()
      modifies cache
      ensures Valid()
      ensures r == AlimonyAmount(data, tables)
      ensures Memoised(old(cache.entries), cache.entries, AlimonyKey, r)
    {
      var hit := cache.Lookup(AlimonyKey);
      if hit.Some? {
        return hit.value;
      }
      var withholdingTax := WithholdingTax();
      var totalAccruals := TotalAccruals();
      var parts := Split(salaryData.GetAlimony(), ',');
      assert salaryData.GetAlimony() == data.alimony && salaryData.GetChildren() == data.children;
      var totalDeduction := AlimonyRateSum(parts);
      var netSalary := totalAccruals - withholdingTax;
      var alimonyAmount := ShareOf(netSalary, totalDeduction);
      var alimonyRaw := salaryData.GetChildren();
      r := if alimonyRaw == "" then 0 else alimonyAmount;
      AlimonyFrom(data, tables, netSalary, totalDeduction);
      assert r == AlimonyAmount(data, tables);
      StepValues(data, tables);
      Remember(old(cache.entries), AlimonyKey, r);
    }

    /** `calculation_answer`: the net pay. */
    method Answer() returns (r: int)
      requires Valid()
      modifies cache
      ensures Valid()
      ensures r == NetAnswer(data, tables)
      ensures Memoised(old(cache.entries), cache.entries, AnswerKey, r)
    {
      var hit := cache.Lookup(AnswerKey);
      if hit.Some? {
        return hit.value;
      }
      var totalAccruals := TotalAccruals();
      var withholdingTax := WithholdingTax();
      var alimony := Alimony();
      r := totalAccruals - withholdingTax - alimony;
      assert r == NetAnswer(data, tables);
      StepValues(data, tables);
      Remember(old(cache.entries), AnswerKey, r);
    }

    /** `calculation_base_month`: the quarterly overtime differential. */
    method BaseMonth() returns (r: int)
      requires Valid()
      modifies cache
      ensures Valid()
      ensures r == OvertimeDifferential(data, tables)
      ensures Memoised(old(cache.entries), cache.entries, BaseMonthKey, r)
    {
      var hit := cache.Lookup(BaseMonthKey);
      if hit.Some? {
        return hit.value;
      }
      var baseSalary := BaseSalary();
      var salary := salaryData.GetBaseSalary();
      r := DifferentialOn(data, tables, baseSalary, salary);
      StepValues(data, tables);
      Remember(old(cache.entries), BaseMonthKey, r);
    }

    /** `month_quarter_payment_calculation`: not cached, and it changes nothing. */
    method MonthQuarterPayment() returns (r: string)
      requires Valid()
      ensures r == QuarterPayoutMonth(data.month)
      ensures r == UnknownMonth || r in PaymentMonths
    {
      var month := salaryData.GetMonth();
      r := QuarterPayoutMonth(month);
    }
  }
}
