/**
  `models.py`: the input record. `BaseSalary` keeps eight text fields, each unset (`None`)
  until its validated setter succeeds; `GetDataSalary` reads them back as numbers. Dafny
  classes do not inherit, so the getters live on the same class.
 */
module Models {
  import opened Wrappers
  import opened Text
  import opened Validators
  import opened ValidatorProperties

  /** The record as the engine reads it through the getters, every field set. */
  datatype SalaryData = SalaryData(
    baseSalary: nat,       // get_base_salary: the monthly salary for the full norm
    month: string,         // get_month: a key of the month tables
    sumDays: nat,          // get_sum_days: shifts worked
    nightShifts: nat,      // get_night_shifts
    eveningShifts: nat,    // get_evening_shifts
    temperatureWork: nat,  // get_temperature_work: days in high temperature
    children: string,      // get_children: the canonical list of child numbers
    alimony: string        // get_alimony: the canonical list of alimony percentages
  )

  /** The eight private fields of the record, each `None` until its setter succeeds. */
  datatype Stored = Stored(
    baseSalary: Option<string>, month: Option<string>, sumDays: Option<string>, nightShifts: Option<string>,
    eveningShifts: Option<string>, temperatureWork: Option<string>, children: Option<string>, alimony: Option<string>
  )

  /** A stored day count: digits with a value of at most 31. */
  predicate DayCount(field: Option<string>) {
    field.Some? ==> IsDigits(field.value) && DigitsValue(field.value) <= 31
  }

  class BaseSalary {
    /** The keys of `MONTHS_IN_YEAR_DAYS`, which `validate_month` checks against. */
    const months: set<string>

    var baseSalary: Option<string>
    var month: Option<string>
    var sumDays: Option<string>
    var nightShifts: Option<string>
    var eveningShifts: Option<string>
    var temperatureWork: Option<string>
    var children: Option<string>
    var alimony: Option<string>

    /** All eight fields as one value. */
    ghost function Fields(): Stored
      reads this
    {
      Stored(baseSalary, month, sumDays, nightShifts, eveningShifts, temperatureWork, children, alimony)
    }

    /**
      What the getters need of the fields that are set: the base salary is digits, the month
      is a table key and the day counts are digit strings up to 31.
     */
    predicate Readable()
      reads this
    {
      (baseSalary.Some? ==> IsDigits(baseSalary.value)) &&
      (month.Some? ==> month.value in months) &&
      DayCount(sumDays) && DayCount(nightShifts) && DayCount(eveningShifts) && DayCount(temperatureWork)
    }

    /**
      What the setters guarantee about every field that is set: it is readable, and the two
      lists are in the canonical form their validators produce.
     */
    ghost predicate Valid()
      reads this
    {
      Readable() &&
      (children.Some? ==> ChildrenOutcome(children.value) == Ok(children.value)) &&
      (alimony.Some? ==> AlimonyOutcome(alimony.value) == Ok(alimony.value))
    }

    /** Every field has been set. */
    predicate Complete()
      reads this
    {
      baseSalary.Some? && month.Some? && sumDays.Some? && nightShifts.Some? &&
      eveningShifts.Some? && temperatureWork.Some? && children.Some? && alimony.Some?
    }

    /** A fresh record: every field unset. */
    constructor(months: set<string>)
      ensures this.months == months && Valid()
      ensures Fields() == Stored(None, None, None, None, None, None, None, None)
    {
      this.months := months;
      baseSalary, month, sumDays, nightShifts := None, None, None, None;
      eveningShifts, temperatureWork, children, alimony := None, None, None, None;
    }

    // -------------------------------------------------------------------------
    // Setters. Each runs its validator first; on an error nothing is written.

    method SetBaseSalary(value: string) returns (outcome: Result<string>)
      requires Valid()
      modifies this
      ensures outcome == ValidateBaseSalary(value)
      ensures outcome.Ok? ==> Fields() == old(Fields()).(baseSalary := Some(Strip(value))) && Strip(value) == value
      ensures outcome.Err? ==> Fields() == old(Fields())
      ensures Valid()
    {
      outcome := ValidateBaseSalary(value);
      if outcome.Ok? {
        StripDigits(value);
        baseSalary := Some(Strip(value));
      }
    }

    method SetMonth(value: string) returns (outcome: Result<string>)
      requires Valid()
      modifies this
      ensures outcome == ValidateMonth(months, value)
      ensures outcome.Ok? ==> Fields() == old(Fields()).(month := Some(Lower(Strip(value))))
      ensures outcome.Err? ==> Fields() == old(Fields())
      ensures Valid()
    {
      outcome := ValidateMonth(months, value);
      if outcome.Ok? {
        month := Some(Lower(Strip(value)));
      }
    }

    method SetSumDays(value: string) returns (outcome: Result<string>)
      requires Valid()
      modifies this
      ensures outcome == ValidateDays(value)
      ensures outcome.Ok? ==> Fields() == old(Fields()).(sumDays := Some(Strip(value))) && Strip(value) == value
      ensures outcome.Err? ==> Fields() == old(Fields())
      ensures Valid()
    {
      outcome := ValidateDays(value);
      if outcome.Ok? {
        StripDigits(value);
        sumDays := Some(Strip(value));
      }
    }

    /** Checks only the format and the bound of 31: the night count is not compared with the total. */
    method SetNightShifts(value: string) returns (outcome: Result<string>)
      requires Valid()
      modifies this
      ensures outcome == ValidateDays(value)
      ensures outcome.Ok? ==> Fields() == old(Fields()).(nightShifts := Some(Strip(value))) && Strip(value) == value
      ensures outcome.Err? ==> Fields() == old(Fields())
      ensures Valid()
    {
      outcome := ValidateDays(value);
      if outcome.Ok? {
        StripDigits(value);
        nightShifts := Some(Strip(value));
      }
    }

    /** The format check runs first, then the check against the stored total and night counts. */
    method SetEveningShifts(value: string) returns (outcome: Result<string>)
      requires Valid()
      modifies this
      ensures ValidateDays(value).Err? ==> outcome == ValidateDays(value)
      ensures ValidateDays(value).Ok? ==> outcome == ValidateEveningShifts(old(sumDays), old(nightShifts), value)
      ensures outcome.Ok? ==> Fields() == old(Fields()).(eveningShifts := Some(Strip(value))) && Strip(value) == value
      ensures outcome.Ok? ==>
                sumDays.Some? && nightShifts.Some? && eveningShifts.Some? &&
                DigitsValue(nightShifts.value) + DigitsValue(eveningShifts.value) <= DigitsValue(sumDays.value)
      ensures outcome.Err? ==> Fields() == old(Fields())
      ensures Valid()
    {
      outcome := ValidateDays(value);
      if outcome.Err? {
        return;
      }
      outcome := ValidateEveningShifts(sumDays, nightShifts, value);
      if outcome.Ok? {
        StripDigits(value);
        eveningShifts := Some(Strip(value));
      }
    }

    method SetTemperatureWork(value: string) returns (outcome: Result<string>)
      requires Valid()
      modifies this
      ensures outcome == ValidateTemperatureWork(old(sumDays), value)
      ensures outcome.Ok? ==> Fields() == old(Fields()).(temperatureWork := Some(Strip(value))) && Strip(value) == value
      ensures outcome.Ok? ==>
                sumDays.Some? && temperatureWork.Some? &&
                DigitsValue(temperatureWork.value) <= DigitsValue(sumDays.value)
      ensures outcome.Err? ==> Fields() == old(Fields())
      ensures Valid()
    {
      outcome := ValidateTemperatureWork(sumDays, value);
      if outcome.Ok? {
        StripDigits(value);
        temperatureWork := Some(Strip(value));
      }
    }

    /** Stores the canonical list the validator passes on, not the text that was typed. */
    method SetChildren(value: string) returns (outcome: Result<string>)
      requires Valid()
      modifies this
      ensures outcome == ChildrenOutcome(value)
      ensures outcome.Ok? ==> Fields() == old(Fields()).(children := Some(outcome.value))
      ensures outcome.Err? ==> Fields() == old(Fields())
      ensures Valid()
    {
      outcome := ValidateChildren(value);
      if outcome.Err? {
        return;
      }
      ChildrenCanonical(value);
      var stored := Strip(outcome.value);
      assert stored == outcome.value;
      children := Some(stored);
    }

    /** Stores the canonical list the validator passes on, not the text that was typed. */
    method SetAlimony(value: string) returns (outcome: Result<string>)
      requires Valid()
      modifies this
      ensures outcome == AlimonyOutcome(value)
      ensures outcome.Ok? ==> Fields() == old(Fields()).(alimony := Some(outcome.value))
      ensures outcome.Err? ==> Fields() == old(Fields())
      ensures Valid()
    {
      outcome := ValidateAlimony(value);
      if outcome.Err? {
        return;
      }
      AlimonyCanonical(value);
      var stored := Strip(outcome.value);
      assert stored == outcome.value;
      alimony := Some(stored);
    }

    // -------------------------------------------------------------------------
    // GetDataSalary. `Decimal(...)` and `.quantize(Decimal("0.01"))` keep the value, so a
    // count reads back as the integer `int()` gives for the stored text.

    function GetBaseSalary(): (r: nat)
      requires Readable() && baseSalary.Some?
      reads this
      ensures PyInt(baseSalary.value) == Some(r)
    {
      DigitsValue(baseSalary.value)
    }

    function GetMonth(): (r: string)
      requires Readable() && month.Some?
      reads this
      ensures r in months
    {
      month.value
    }

    function GetSumDays(): (r: nat)
      requires Readable() && sumDays.Some?
      reads this
      ensures PyInt(sumDays.value) == Some(r) && r <= 31
    {
      DigitsValue(sumDays.value)
    }

    function GetNightShifts(): (r: nat)
      requires Readable() && nightShifts.Some?
      reads this
      ensures PyInt(nightShifts.value) == Some(r) && r <= 31
    {
      DigitsValue(nightShifts.value)
    }

    function GetEveningShifts(): (r: nat)
      requires Readable() && eveningShifts.Some?
      reads this
      ensures PyInt(eveningShifts.value) == Some(r) && r <= 31
    {
      DigitsValue(eveningShifts.value)
    }

    function GetTemperatureWork(): (r: nat)
      requires Readable() && temperatureWork.Some?
      reads this
      ensures PyInt(temperatureWork.value) == Some(r) && r <= 31
    {
      DigitsValue(temperatureWork.value)
    }

    /** The raw text, unconverted. */
    function GetChildren(): (r: string)
      requires children.Some?
      reads this
    {
      children.value
    }

    /** The raw text, unconverted. */
    function GetAlimony(): (r: string)
      requires alimony.Some?
      reads this
    {
      alimony.value
    }

    /** On a record the setters filled in, both raw lists are the canonical text, which validates to itself. */
    lemma CanonicalLists()
      requires Valid() && children.Some? && alimony.Some?
      ensures ChildrenOutcome(GetChildren()) == Ok(GetChildren())
      ensures AlimonyOutcome(GetAlimony()) == Ok(GetAlimony())
    {
    }

    /** Everything the getters return, as one value. */
    function Data(): (d: SalaryData)
      requires Readable() && Complete()
      reads this
      ensures d.month in months
      ensures d.sumDays <= 31 && d.nightShifts <= 31 && d.eveningShifts <= 31 && d.temperatureWork <= 31
    {
      SalaryData(GetBaseSalary(), GetMonth(), GetSumDays(), GetNightShifts(), GetEveningShifts(),
                 GetTemperatureWork(), GetChildren(), GetAlimony())
    }
  }
}
