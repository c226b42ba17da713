/**
  The input checks of `validate_dekarators.py`. Each decorator looks at the raw text of
  one field (and, for the cross-field checks, at fields set earlier) and either raises
  `ValueError` or hands a value on to the setter it wraps. Here a check returns
  `Err(reason)` for the raise and `Ok(v)` for the value passed on.
 */
module Validators {
  import opened Wrappers
  import opened Text
  import opened Sorting

  /** One constructor per distinct `ValueError` message. */
  datatype ValidationError =
    | EmptyValue                                                  // "Значение не может быть пустым."
    | NotANumber                                                  // "Значение должно быть числом."
    | NotAMonth                                                   // "Значение должно быть месяцем года."
    | AboveThirtyOne                                              // "Значение должно быть не больше 31."
    | SumDaysUnset                                                // "Сначала укажите общее количество дней"
    | NightShiftsUnset                                            // "Сначала укажите количество ночных смен"
    | NotAllNumbers                                               // "Все значения должны быть числами"
    | InvalidLiteral                                              // `int()` of the stored total raised, uncaught
    | EveningExceedsTotal(night: int, evening: int, sumDays: int) // night + evening above the total
    | TemperatureExceedsTotal(temperature: int, sumDays: int)     // temperature days above the total
    | NotAnInteger(part: string)                                  // "Некорректное значение ..."
    | ChildNumberTooLarge(child: nat)                             // "Слишком большой номер ребенка ..."
    | ChildRepeated(child: nat)                                   // "Номер ребенка ... указан повторно."
    | ChildrenGap(before: nat, after: nat)                        // "... Обнаружен пропуск между ..."
    | PercentTooSmall(percent: nat)                               // "Слишком маленький процент ..."
    | PercentTooLarge(percent: nat)                               // "Слишком большой процент ..."

  datatype Result<T> = Ok(value: T) | Err(error: ValidationError)

  // ---------------------------------------------------------------------------
  // validate_base_salary

  /** The base salary must be a non-empty string of decimal digits; it is passed on unchanged. */
  function ValidateBaseSalary(value: string): (r: Result<string>)
    ensures r.Ok? <==> |value| > 0 && forall i :: 0 <= i < |value| ==> '0' <= value[i] <= '9'
    ensures r.Ok? ==> r.value == value
    ensures value == "" ==> r == Err(EmptyValue)
    ensures value != "" && r.Err? ==> r == Err(NotANumber)
  {
    if value == "" then Err(EmptyValue)
    else if !IsDigits(value) then Err(NotANumber)
    else Ok(value)
  }

  // ---------------------------------------------------------------------------
  // validate_month(MONTHS_IN_YEAR_DAYS)

  /**
    The month must be non-empty and, lower-cased and stripped, a key of the month table.
    The key the setter then stores, `value.strip().lower()`, is that same key.
   */
  function ValidateMonth(months: set<string>, value: string): (r: Result<string>)
    ensures r.Ok? <==> value != "" && Strip(Lower(value)) in months
    ensures r.Ok? ==> r.value == value && Lower(Strip(value)) in months
    ensures value == "" ==> r == Err(EmptyValue)
    ensures value != "" && r.Err? ==> r == Err(NotAMonth)
  {
    StripLowerCommute(value);
    if value == "" then Err(EmptyValue)
    else if Strip(Lower(value)) !in months then Err(NotAMonth)
    else Ok(value)
  }

  // ---------------------------------------------------------------------------
  // validate_days_night_evening_temperature

  /** A day count must be a non-empty digit string whose value is at most 31. */
  function ValidateDays(value: string): (r: Result<string>)
    ensures r.Ok? <==> IsDigits(value) && DigitsValue(value) <= 31
    ensures r.Ok? ==> r.value == value
    ensures value == "" ==> r == Err(EmptyValue)
    ensures value != "" && !IsDigits(value) ==> r == Err(NotANumber)
    ensures IsDigits(value) && DigitsValue(value) > 31 ==> r == Err(AboveThirtyOne)
  {
    if value == "" then Err(EmptyValue)
    else if !IsDigits(value) then Err(NotANumber)
    else if !(DigitsValue(value) <= 31) then Err(AboveThirtyOne)
    else Ok(value)
  }

  /** The canonical rendering of a count is accepted exactly when the count is at most 31. */
  lemma DaysAcceptsUpToThirtyOne(n: nat)
    ensures ValidateDays(NatToString(n)).Ok? <==> n <= 31
  {
  }

  // ---------------------------------------------------------------------------
  // validate_evening_shifts

  /**
    The evening check reads the stored total and night counts: both must be set and
    readable by `int()`, and night plus evening shifts may not exceed the total.
   */
  function ValidateEveningShifts(sumDays: Option<string>, nightShifts: Option<string>, value: string): (r: Result<string>)
    ensures sumDays.None? ==> r == Err(SumDaysUnset)
    ensures sumDays.Some? && nightShifts.None? ==> r == Err(NightShiftsUnset)
    ensures r.Ok? <==>
      sumDays.Some? && nightShifts.Some? &&
      PyInt(sumDays.value).Some? && PyInt(nightShifts.value).Some? && PyInt(value).Some? &&
      PyInt(nightShifts.value).value + PyInt(value).value <= PyInt(sumDays.value).value
    ensures r.Ok? ==> r.value == value
    ensures sumDays.Some? && nightShifts.Some? &&
            IsDigits(sumDays.value) && IsDigits(nightShifts.value) && IsDigits(value) ==>
              (r.Ok? <==> DigitsValue(nightShifts.value) + DigitsValue(value) <= DigitsValue(sumDays.value))
  {
    if sumDays.None? then Err(SumDaysUnset)
    else if nightShifts.None? then Err(NightShiftsUnset)
    else
      var total, night, evening := PyInt(sumDays.value), PyInt(nightShifts.value), PyInt(value);
      if total.None? || night.None? || evening.None? then Err(NotAllNumbers)
      else if night.value + evening.value > total.value then
        Err(EveningExceedsTotal(night.value, evening.value, total.value))
      else Ok(value)
  }

  // ---------------------------------------------------------------------------
  // validate_days_temperature_work

  /**
    Temperature days get the day-count checks first, then need a stored total that
    `int()` can read, and may not exceed it.
   */
  function ValidateTemperatureWork(sumDays: Option<string>, value: string): (r: Result<string>)
    ensures r.Ok? <==>
      IsDigits(value) && DigitsValue(value) <= 31 && sumDays.Some? &&
      PyInt(sumDays.value).Some? && DigitsValue(value) <= PyInt(sumDays.value).value
    ensures r.Ok? ==> r.value == value
    ensures ValidateDays(value).Err? ==> r == ValidateDays(value)
    ensures ValidateDays(value).Ok? && sumDays.None? ==> r == Err(SumDaysUnset)
    ensures sumDays.Some? && IsDigits(sumDays.value) && IsDigits(value) && DigitsValue(value) <= 31 ==>
              (r.Ok? <==> DigitsValue(value) <= DigitsValue(sumDays.value))
  {
    if value == "" then Err(EmptyValue)
    else if !IsDigits(value) then Err(NotANumber)
    else if !(DigitsValue(value) <= 31) then Err(AboveThirtyOne)
    else if sumDays.None? then Err(SumDaysUnset)
    else
      match PyInt(sumDays.value)
      case None => Err(InvalidLiteral)
      case Some(total) =>
        var temperatureWork := DigitsValue(value);
        if temperatureWork > total then Err(TemperatureExceedsTotal(temperatureWork, total))
        else Ok(value)
  }

  // ---------------------------------------------------------------------------
  // Shared by validate_children and validate_alimony

  /** `int(part.strip())` for one comma-separated part. */
  function PartValue(part: string): nat {
    DigitsValue(Strip(part))
  }

  /** The values of all parts, in order. */
  function PartValues(parts: seq<string>): (r: seq<nat>)
    ensures |r| == |parts| && forall i :: 0 <= i < |parts| ==> r[i] == PartValue(parts[i])
  {
    if parts == [] then [] else [PartValue(parts[0])] + PartValues(parts[1..])
  }

  /** The value of a rendered number, read back as a part, is that number. */
  lemma PartValueOfRendering(n: nat)
    ensures Strip(NatToString(n)) == NatToString(n) && PartValue(NatToString(n)) == n
  {
    StripDigits(NatToString(n));
  }

  // ---------------------------------------------------------------------------
  // validate_children

  /** A part that names a child: digits once stripped, and at most 10. */
  predicate ChildPartOk(part: string) {
    IsDigits(Strip(part)) && PartValue(part) <= 10
  }

  /**
    The first loop of `validate_children`: each part, stripped, must be digits, at most 10,
    and not already in the list; `children` is the list built so far.
   */
  function ScanChildren(parts: seq<string>, children: seq<nat>): Result<seq<nat>>
    decreases |parts|
  {
    if parts == [] then Ok(children)
    else
      var part := Strip(parts[0]);
      if !IsDigits(part) then Err(NotAnInteger(part))
      else
        var childNum := DigitsValue(part);
        if childNum > 10 then Err(ChildNumberTooLarge(childNum))
        else if childNum in children then Err(ChildRepeated(childNum))
        else ScanChildren(parts[1..], children + [childNum])
  }

  /** The second loop: the first position `k` (from `from` on) where `s[k] != s[k - 1] + 1`. */
  function FirstGap(s: seq<nat>, from: nat): Option<(nat, nat)>
    requires from >= 1
    decreases |s| - from
  {
    if from >= |s| then None
    else if s[from] != s[from - 1] + 1 then Some((s[from - 1], s[from]))
    else FirstGap(s, from + 1)
  }

  /** What `validate_children` does with `value`: the error it raises, or the text it passes on. */
  function ChildrenOutcome(value: string): Result<string> {
    if Strip(value) == "" then Err(EmptyValue)
    else
      match ScanChildren(Split(value, ','), [])
      case Err(e) => Err(e)
      case Ok(children) =>
        var sortedChildren := Sort(children);
        if |children| > 1 && FirstGap(sortedChildren, 1).Some? then
          var gap := FirstGap(sortedChildren, 1).value;
          Err(ChildrenGap(gap.0, gap.1))
        else Ok(JoinNats(sortedChildren))
  }

  /** The first loop of `validate_children`, over the comma-separated parts. */
  method CollectChildren(parts: seq<string>) returns (r: Result<seq<nat>>)
    ensures r == ScanChildren(parts, [])
  {
    var children: seq<nat> := [];
    var i := 0;
    while i < |parts|
      invariant 0 <= i <= |parts|
      invariant ScanChildren(parts[i..], children) == ScanChildren(parts, [])
    {
      assert parts[i..][1..] == parts[i + 1..];
      var part := Strip(parts[i]);
      if !IsDigits(part) {
        return Err(NotAnInteger(part));
      }
      var childNum := DigitsValue(part);
      if childNum > 10 {
        return Err(ChildNumberTooLarge(childNum));
      }
      if childNum in children {
        return Err(ChildRepeated(childNum));
      }
      children := children + [childNum];
      i := i + 1;
    }
    assert parts[i..] == [];
    return Ok(children);
  }

  /** The second loop of `validate_children`, over the sorted child numbers. */
  method FindGap(sortedChildren: seq<nat>) returns (gap: Option<(nat, nat)>)
    ensures gap == FirstGap(sortedChildren, 1)
  {
    var k := 1;
    while k < |sortedChildren|
      invariant 1 <= k
      invariant FirstGap(sortedChildren, k) == FirstGap(sortedChildren, 1)
    {
      if sortedChildren[k] != sortedChildren[k - 1] + 1 {
        return Some((sortedChildren[k - 1], sortedChildren[k]));
      }
      k := k + 1;
    }
    return None;
  }

  /** `validate_children`: blank check, the loop over the parts, then the gap check on the sorted list. */
  method ValidateChildren(value: string) returns (r: Result<string>)
    ensures r == ChildrenOutcome(value)
  {
    if Strip(value) == "" {
      return Err(EmptyValue);
    }
    var collected := CollectChildren(Split(value, ','));
    if collected.Err? {
      return Err(collected.error);
    }
    var children := collected.value;
    var sortedChildren := Sort(children);
    if |children| > 1 {
      var gap := FindGap(sortedChildren);
      if gap.Some? {
        return Err(ChildrenGap(gap.value.0, gap.value.1));
      }
    }
    return Ok(JoinNats(sortedChildren));
  }

  // ---------------------------------------------------------------------------
  // validate_alimony

  /** A part that names an alimony percentage: digits once stripped, within 16..70. */
  predicate AlimonyPartOk(part: string) {
    IsDigits(Strip(part)) && 16 <= PartValue(part) <= 70
  }

  /** The loop of `validate_alimony`: each part, stripped, must be digits within 16..70. */
  function ScanAlimony(parts: seq<string>, alimonyList: seq<nat>): Result<seq<nat>>
    decreases |parts|
  {
    if parts == [] then Ok(alimonyList)
    else
      var part := Strip(parts[0]);
      if !IsDigits(part) then Err(NotAnInteger(part))
      else
        var alimonyNum := DigitsValue(part);
        if alimonyNum < 16 then Err(PercentTooSmall(alimonyNum))
        else if alimonyNum > 70 then Err(PercentTooLarge(alimonyNum))
        else ScanAlimony(parts[1..], alimonyList + [alimonyNum])
  }

  /** What `validate_alimony` does with `value`: the error it raises, or the text it passes on. */
  function AlimonyOutcome(value: string): Result<string> {
    if Strip(value) == "" then Err(EmptyValue)
    else
      match ScanAlimony(Split(value, ','), [])
      case Err(e) => Err(e)
      case Ok(alimonyList) => Ok(JoinNats(Sort(alimonyList)))
  }

  /** `validate_alimony`, loop by loop. */
  method ValidateAlimony(value: string) returns (r: Result<string>)
    ensures r == AlimonyOutcome(value)
  {
    if Strip(value) == "" {
      return Err(EmptyValue);
    }
    var parts := Split(value, ',');
    var alimonyList: seq<nat> := [];
    var i := 0;
    while i < |parts|
      invariant 0 <= i <= |parts|
      invariant ScanAlimony(parts[i..], alimonyList) == ScanAlimony(parts, [])
    {
      assert parts[i..][1..] == parts[i + 1..];
      var part := Strip(parts[i]);
      if !IsDigits(part) {
        return Err(NotAnInteger(part));
      }
      var alimonyNum := DigitsValue(part);
      if alimonyNum < 16 {
        return Err(PercentTooSmall(alimonyNum));
      }
      if alimonyNum > 70 {
        return Err(PercentTooLarge(alimonyNum));
      }
      alimonyList := alimonyList + [alimonyNum];
      i := i + 1;
    }
    assert parts[i..] == [];
    return Ok(JoinNats(Sort(alimonyList)));
  }
}
