# salary_dgs — a Dafny model of the salary calculation core

`salary_dgs` is a chat bot that computes a shift worker's monthly pay. It asks for eight
inputs in turn:

- the base salary and the month;
- the number of shifts worked, of which some are night shifts and some evening shifts;
- the number of days worked in high temperature;
- the list of child numbers that give a tax deduction;
- the list of alimony percentages.

It then runs a fixed chain of steps. The steps are the pro-rated salary, night pay,
underground pay, the bonus, the temperature pay, the base total, the district and
northern allowances, the total accruals, the child deduction, income tax, alimony, the
net answer, the overtime differential and the quarter payout month.

This project models four parts of that system:

- **The input checks** (`validate_dekarators.py`). Each decorator checks one raw text
  field before the setter it wraps may store it. Some checks compare against fields that
  were set earlier.
- **The input record** (`models.py`). `BaseSalary` holds eight optional text fields.
  `GetDataSalary` reads them back as numbers.
- **The engine** (`services.py`). `CalculationBaseSalary` computes each step from the
  record and from earlier steps, with `Decimal` half-up rounding to the cent.
- **The result cache** (`cache_decorator.py`). `cache_result` memoises each step under
  its method name.

Modules:

| file | module | what it holds |
|---|---|---|
| `wrappers.dfy` | `Wrappers` | `Option` |
| `text.dfy` | `Text` | the Python string operations the checks use: `strip`, `isdigit`, `lower`, `split`, `join`, `int()` |
| `sorting.dfy` | `Sorting` | `sorted()` on lists of numbers, as insertion sort |
| `rounding.dfy` | `Rounding` | amounts in whole cents; `quantize(Decimal("0.01"), ROUND_HALF_UP)` |
| `constants.dfy` | `Constants` | the month tables and percentage factors, taken as a parameter |
| `validators.dfy` | `Validators` | one function or method per decorator, returning the error it raises or the value it passes on |
| `validator_properties.dfy` | `ValidatorProperties` | what the children and alimony checks accept, and the canonical text they produce |
| `validator_examples.dfy` | `ValidatorExamples` | concrete inputs for the children and alimony checks |
| `models.dfy` | `Models` | the record, as a class with validated setters and getters |
| `cache_decorator.dfy` | `CacheDecorator` | the cache, as a class over a `map` |
| `calculation.dfy` | `Calculation` | every step of the engine as a function of the record and the tables, with its properties |
| `services.dfy` | `Services` | the engine, as a class whose methods go through the cache and return the step functions' values |
| `scenario.dfy` | `Scenario` | the children and alimony lists of the sample record in `proba.py`, and two edge cases of the alimony step |

Money is modelled as follows:

- A quantised amount is an `int` number of cents.
- An intermediate value is an exact Dafny `real`.
- `RoundHalfUpCents` is `ROUND_HALF_UP` to the cent. Ties go away from zero.

The month tables and factors come from `constant.py`, which is not part of this model.
`Tables` stands in for them. `NonNegative` says that every percentage factor is at least
zero.

Where the repository's own comments, docstrings or prompts disagree with its code, this
model follows the code:

- `validate_children`'s docstring gives the range of child numbers as 1-10
  (`validate_dekarators.py:118`). The bound of 1 is commented out (`:137-138`), so the code
  accepts "0". It also accepts lists that do not start at 1, such as the sample record's
  "2,3" (`ValidatorExamples.ChildrenAcceptedAsWritten`).
- The bot tells the user to type 0 for no alimony (`src/bot/handlers.py:269`) and for no
  tax deduction (`src/bot/handlers.py:240`, `src/main.py:70`). `validate_alimony` rejects
  0 as below 16 (`validate_dekarators.py:187-188`; `ValidatorExamples.AlimonyOutOfRange`).
  For the children field, "0" is accepted and gives no deduction tier.
- The comments of the child deduction speak of "2800 total for first two", "6000 total
  for first three" and "+3000 each" from the fourth child on (`services.py:223-227`). The
  code adds 1400 for child 1, 2800 for child 2, 6000 for child 3 and 6000 for each child
  numbered four or more (`Calculation.DeductionIsPerChildSum`).
- The bot's help text gives the deduction for the second child as 1600 ₽
  (`src/bot/commands.py:60`, `main_bot.py:94`, `bot/main_bot.py:176`). The code adds 2800
  for child 2 (`services.py:223`; `Calculation.DeductionIsPerChildSum`).

Two further points about what the code checks:

- The night-shift setter checks only the format and the bound of 31
  (`models.py:57-60`). The night count is compared with the total only later, by the
  evening check, as night plus evening shifts.
- The alimony step returns zero when the children field is empty
  (`services.py:291-293`). It tests the children field, not the alimony field. The model
  does the same (`Calculation.AlimonyAmount`).

## Model

| member | source | states |
|---|---|---|
| Text.TrimLeftSpec | src/salary_dgs/validate_dekarators.py:130 | the left trim removes exactly the leading run of whitespace: the result is a suffix that is empty or starts with a non-space |
| Text.TrimRightSpec | src/salary_dgs/validate_dekarators.py:130 | the right trim removes exactly the trailing run of whitespace: the result is a prefix that is empty or ends with a non-space |
| Text.StripLowerCommute | src/salary_dgs/validate_dekarators.py:24 | stripping then lower-casing gives the same key as lower-casing then stripping, so the key the month check tests is the key the setter stores |
| Text.PyInt | src/salary_dgs/validate_dekarators.py:61-63 | `int()` of a digit string is that string's decimal value |
| Text.Split | src/salary_dgs/validate_dekarators.py:129 | `split(",")` gives at least one part, no part holds a comma, and joining the parts with commas gives back the text |
| Text.SplitJoin | src/salary_dgs/validate_dekarators.py:129 | splitting a comma-joined list of comma-free parts gives back the parts |
| Text.SplitJoinNats | src/salary_dgs/validate_dekarators.py:159 | splitting the comma-joined rendering of numbers gives the renderings of those numbers |
| Text.NatToString | src/salary_dgs/validate_dekarators.py:159 | `str(n)` is a digit string whose value is `n` and which starts with `0` only for zero |
| Sorting.Sort | src/salary_dgs/validate_dekarators.py:151 | `sorted()` returns a permutation of its input in ascending order, and keeps distinct values distinct |
| Sorting.SortSorted | src/salary_dgs/validate_dekarators.py:159 | sorting a list that is already sorted returns it unchanged |
| Sorting.InsertSorted | src/salary_dgs/validate_dekarators.py:151 | inserting into a sorted list keeps it sorted |
| Validators.ValidateBaseSalary | src/salary_dgs/validate_dekarators.py:7-12 | accepts exactly the non-empty all-digit strings and passes them on unchanged; "" fails as empty, anything else as not a number |
| Validators.ValidateMonth | src/salary_dgs/validate_dekarators.py:21-26 | accepts exactly the non-empty values whose stripped lower-case form is a month key; that key is the one the setter stores |
| Validators.ValidateDays | src/salary_dgs/validate_dekarators.py:36-43 | accepts exactly the digit strings of value at most 31, with the empty, not-a-number and above-31 errors each on its own inputs |
| Validators.DaysAcceptsUpToThirtyOne | src/salary_dgs/validate_dekarators.py:36-43 | the rendering of a count is accepted if and only if the count is at most 31 |
| Validators.ValidateEveningShifts | src/salary_dgs/validate_dekarators.py:51-74 | an unset total fails first, then an unset night count; otherwise it accepts exactly when all three values read as integers and night plus evening is at most the total |
| Validators.ValidateTemperatureWork | src/salary_dgs/validate_dekarators.py:82-107 | the day-count errors come first, then an unset total; otherwise it accepts exactly when the total reads as an integer and the temperature days do not exceed it |
| Validators.CollectChildren | src/salary_dgs/validate_dekarators.py:128-147 | the loop over the parts returns what `ScanChildren` defines: the first bad, too large or repeated part, or the list of child numbers |
| Validators.FindGap | src/salary_dgs/validate_dekarators.py:150-157 | the loop over the sorted numbers returns the first neighbouring pair that is not one apart, or none |
| Validators.ValidateChildren | src/salary_dgs/validate_dekarators.py:124-159 | the whole check returns `ChildrenOutcome(value)`: the error raised, or the sorted comma-joined list |
| Validators.ValidateAlimony | src/salary_dgs/validate_dekarators.py:174-196 | the whole check returns `AlimonyOutcome(value)`: the error raised, or the sorted comma-joined list |
| ValidatorProperties.FirstGapNone | src/salary_dgs/validate_dekarators.py:152-157 | the gap loop finds nothing if and only if every element is one more than the one before it |
| ValidatorProperties.IncreasingConsecutiveInterval | src/salary_dgs/validate_dekarators.py:150-157 | a strictly ascending list steps by one if and only if its elements form one run with no holes |
| ValidatorProperties.GapFreeInterval | src/salary_dgs/validate_dekarators.py:150-157 | distinct numbers sort into a list without gaps if and only if they form one run |
| ValidatorProperties.ScanChildrenMeaning | src/salary_dgs/validate_dekarators.py:128-147 | the parts loop succeeds if and only if every part is a digit string of at most 10 and no number repeats; it then returns the part values in input order |
| ValidatorProperties.ChildrenOutcomeMeaning | src/salary_dgs/validate_dekarators.py:124-159 | the check accepts exactly the non-blank inputs whose parts are all numbers 0..10, none repeated, forming one run |
| ValidatorProperties.ChildrenOutcomeValue | src/salary_dgs/validate_dekarators.py:159 | an accepted list is passed on as the comma-joined rendering of the numbers sorted: strictly ascending, consecutive, each at most 10 |
| ValidatorProperties.ChildrenFixpoint | src/salary_dgs/validate_dekarators.py:159 | the text the check passes on is accepted again and passed on unchanged |
| ValidatorProperties.ChildrenCanonical | src/salary_dgs/models.py:85-88 | what the setter stores, `value.strip()` of the checked text, is that text itself, and it validates to itself |
| ValidatorProperties.ScanAlimonyMeaning | src/salary_dgs/validate_dekarators.py:178-194 | the parts loop succeeds if and only if every part is a digit string within 16..70; it then returns the part values in input order |
| ValidatorProperties.AlimonyOutcomeMeaning | src/salary_dgs/validate_dekarators.py:174-196 | the check accepts exactly the non-blank inputs whose parts are all percentages within 16..70 |
| ValidatorProperties.AlimonyRatesInRange | src/salary_dgs/validate_dekarators.py:187-192 | every rate of an accepted list lies within 16..70 |
| ValidatorProperties.AlimonyOutcomeValue | src/salary_dgs/validate_dekarators.py:196 | an accepted list is passed on as the comma-joined rendering of its rates sorted |
| ValidatorProperties.AlimonyFixpoint | src/salary_dgs/validate_dekarators.py:196 | the text the check passes on is accepted again and passed on unchanged |
| ValidatorProperties.AlimonyCanonical | src/salary_dgs/models.py:94-97 | what the setter stores is the checked text itself, and it validates to itself |
| ValidatorExamples.ChildrenDescending | src/salary_dgs/validate_dekarators.py:159 | "3,2,1" is accepted and passed on as "1,2,3" |
| ValidatorExamples.ChildrenAscending | src/salary_dgs/validate_dekarators.py:159 | "1,2,3" is accepted unchanged |
| ValidatorExamples.ChildrenWithGap | src/salary_dgs/validate_dekarators.py:150-157 | "1,3" fails with the gap between 1 and 3 |
| ValidatorExamples.ChildrenRepeated | src/salary_dgs/validate_dekarators.py:144-145 | "2,2" fails with child 2 repeated |
| ValidatorExamples.ChildrenAcceptedAsWritten | src/salary_dgs/validate_dekarators.py:136-159 | "0" and "2,3" are accepted, because the code has no lower bound and no start at 1 |
| ValidatorExamples.AlimonyOutOfRange | src/salary_dgs/validate_dekarators.py:187-192 | "0" fails as too small and "80" as too large |
| ValidatorExamples.AlimonySorted | src/salary_dgs/validate_dekarators.py:196 | "50,25" is accepted and passed on as "25,50" |
| Models.BaseSalary.constructor | src/salary_dgs/models.py:15-24 | a new record has all eight fields unset |
| Models.BaseSalary.SetBaseSalary | src/salary_dgs/models.py:30-33 | the result is the base-salary check's; on success only the base salary changes, to the stripped text (which is the text); on failure nothing changes |
| Models.BaseSalary.SetMonth | src/salary_dgs/models.py:39-42 | the result is the month check's; on success only the month changes, to the stripped lower-case key; on failure nothing changes |
| Models.BaseSalary.SetSumDays | src/salary_dgs/models.py:48-51 | the result is the day-count check's; on success only the total changes; on failure nothing changes |
| Models.BaseSalary.SetNightShifts | src/salary_dgs/models.py:57-60 | the result is the day-count check's alone; on success only the night count changes; on failure nothing changes |
| Models.BaseSalary.SetEveningShifts | src/salary_dgs/models.py:66-70 | the day-count check runs first, then the cross-field check; on success only the evening count changes, and night plus evening is at most the total |
| Models.BaseSalary.SetTemperatureWork | src/salary_dgs/models.py:76-79 | the result is the temperature check's; on success only the temperature days change, and they are at most the total |
| Models.BaseSalary.SetChildren | src/salary_dgs/models.py:85-88 | the result is the children check's; on success only the children field changes, to the canonical sorted list; on failure nothing changes |
| Models.BaseSalary.SetAlimony | src/salary_dgs/models.py:94-97 | the result is the alimony check's; on success only the alimony field changes, to the canonical sorted list; on failure nothing changes |
| Models.BaseSalary.GetBaseSalary | src/salary_dgs/models.py:101-102 | the number read back is what `int()` gives for the stored text |
| Models.BaseSalary.GetMonth | src/salary_dgs/models.py:104-105 | the month read back is a key of the month tables |
| Models.BaseSalary.GetSumDays | src/salary_dgs/models.py:107-108 | the total read back is what `int()` gives for the stored text, and at most 31 |
| Models.BaseSalary.GetNightShifts | src/salary_dgs/models.py:110-111 | the night count read back is what `int()` gives for the stored text, and at most 31 |
| Models.BaseSalary.GetEveningShifts | src/salary_dgs/models.py:113-114 | the evening count read back is what `int()` gives for the stored text, and at most 31 |
| Models.BaseSalary.GetTemperatureWork | src/salary_dgs/models.py:119-120 | the temperature days read back are what `int()` gives for the stored text, and at most 31 |
| Models.BaseSalary.CanonicalLists | src/salary_dgs/models.py:122-126 | on a record the setters filled in, both raw lists the getters return validate to themselves |
| Models.BaseSalary.Data | src/salary_dgs/models.py:100-126 | everything the getters return, with the month a table key and every day count at most 31 |
| CacheDecorator.ResultCache.constructor | src/salary_dgs/services.py:24 | a new cache is empty |
| CacheDecorator.ResultCache.Lookup | src/salary_dgs/cache_decorator.py:5-6 | a hit if and only if the key is stored, with the stored value |
| CacheDecorator.ResultCache.Store | src/salary_dgs/cache_decorator.py:8 | the key now maps to the result, and every other entry is unchanged |
| CacheDecorator.ResultCache.Call | src/salary_dgs/cache_decorator.py:3-9 | a stored key returns its value and leaves the cache alone; otherwise the body runs on the arguments and its result is stored and returned |
| CacheDecorator.CallTwice | src/salary_dgs/cache_decorator.py:4-9 | two calls under one name return the same value, whatever the second call's arguments |
| CacheDecorator.FirstCallComputes | src/salary_dgs/cache_decorator.py:4-9 | on a fresh cache both calls return the body's value on the first call's arguments |
| Rounding.RoundHalfUpCents | src/salary_dgs/services.py:37 | the result is within half a cent of the amount, with ties going away from zero |
| Rounding.RoundHalfUpUnique | src/salary_dgs/services.py:37 | exactly one number of cents meets that bound |
| Rounding.RoundWholeCents | src/salary_dgs/services.py:146 | an amount already in whole cents is unchanged by the rounding |
| Rounding.RoundHalfCentAwayFromZero | src/salary_dgs/services.py:317 | a positive half cent rounds up and a negative one rounds down |
| Rounding.RoundNegate | src/salary_dgs/services.py:317 | rounding a negated amount gives the negated rounding |
| Rounding.RoundMonotone | src/salary_dgs/services.py:37 | rounding preserves order |
| Rounding.RoundBetween | src/salary_dgs/services.py:289 | an amount between two whole-cent bounds rounds to a value between them |
| Calculation.PercentOf | src/salary_dgs/services.py:81-83 | a percentage of at most 100 of a non-negative amount lies between zero and the amount; zero gives zero |
| Calculation.ShiftShareOfNorm | src/salary_dgs/services.py:33-35 | working the month's norm of days earns exactly the base salary |
| Calculation.ShiftShareMonotone | src/salary_dgs/services.py:33-35 | more days worked never earn less |
| Calculation.ProRated | src/salary_dgs/services.py:33-37 | the pro-rated salary is the base salary times days over the norm, to the nearest cent; zero days earn zero |
| Calculation.ProRatedFullMonth | src/salary_dgs/services.py:33-37 | at the norm, the rounded salary is the base salary exactly |
| Calculation.ProRatedMonotone | src/salary_dgs/services.py:33-37 | the rounded salary never falls as the days worked grow |
| Calculation.ProRatedAgainstNorm | src/salary_dgs/services.py:33-37 | below the norm it is at most the base salary, above it at least the base salary |
| Calculation.ProRatedSalary | src/salary_dgs/services.py:27-40 | the salary step is never negative, and zero days give zero |
| Calculation.HourlyRate | src/salary_dgs/services.py:60 | the hourly rate is never negative |
| Calculation.NightPayment | src/salary_dgs/services.py:62-64 | no night shifts pay zero; otherwise the payment is never negative |
| Calculation.EveningPayment | src/salary_dgs/services.py:65-67 | no evening shifts pay zero; otherwise the payment is never negative |
| Calculation.NightPay | src/salary_dgs/services.py:43-73 | with neither night nor evening shifts the step is zero, and with non-negative factors it is never negative |
| Calculation.UndergroundPay | src/salary_dgs/services.py:76-89 | with non-negative factors the underground pay is never negative |
| Calculation.BonusPay | src/salary_dgs/services.py:92-107 | with non-negative factors the bonus is never negative |
| Calculation.HoursPay | src/salary_dgs/services.py:124-126 | no hours pay zero; otherwise the pay is never negative |
| Calculation.TemperatureBase | src/salary_dgs/services.py:119-124 | no temperature days give zero, and the base is never negative |
| Calculation.TemperaturePay | src/salary_dgs/services.py:110-129 | no temperature days pay zero; with non-negative factors the pay is never negative |
| Calculation.BaseTotal | src/salary_dgs/services.py:140-146 | the base total is exactly the sum of salary, bonus, underground, night and temperature pay, because rounding a whole-cent sum changes nothing |
| Calculation.DistrictPay | src/salary_dgs/services.py:158-168 | with non-negative factors the district allowance is never negative |
| Calculation.NorthPay | src/salary_dgs/services.py:171-181 | with non-negative factors the northern allowance is never negative |
| Calculation.Accruals | src/salary_dgs/services.py:187-205 | the total accruals are the base total plus both allowances, and never negative with non-negative factors |
| Calculation.ChildNumbers | src/salary_dgs/services.py:210-214 | a bound only: at most one child number per part; what the numbers are is stated by `ChildNumbersOfRendering` |
| Calculation.CountFromFourth | src/salary_dgs/services.py:228 | a bound only: the count of children numbered four or more is at most the number of children; the tiers are stated by `DeductionIsPerChildSum` |
| Calculation.DeductionBase | src/salary_dgs/services.py:219-229 | the deduction base is at most 1400 + 2800 + 6000 plus 6000 per child |
| Calculation.DeductionIsPerChildSum | src/salary_dgs/services.py:219-229 | for distinct child numbers the base is the sum of one tier per child: 1400 for child 1, 2800 for child 2, 6000 for child 3 and each one after |
| Calculation.ChildDeduction | src/salary_dgs/services.py:231-238 | no children give zero; with non-negative factors the deduction is never negative |
| Calculation.ChildNumbersOfRendering | src/salary_dgs/services.py:210-214 | reading back a comma-joined list of numbers gives those numbers |
| Calculation.ValidatedChildrenDeduction | src/salary_dgs/services.py:210-229 | on a list the setter accepted, the engine reads exactly the validated numbers, ascending, and the base is the per-child tier sum |
| Calculation.IncomeTax | src/salary_dgs/services.py:247-255 | income tax is the tax percentage of the accruals less the child deduction, in both branches of the source |
| Calculation.NetNonNegative | src/salary_dgs/services.py:285 | with a tax rate of at most 100% and non-negative factors, the accruals less the tax are never negative |
| Calculation.RateFraction | src/salary_dgs/services.py:270-275 | a rate takes a share between 0 and 1/2, and a non-zero share exactly for 16, 25, 33 and 50 |
| Calculation.PartShare | src/salary_dgs/services.py:279-282 | each part contributes a share between 0 and 1/2 |
| Calculation.AlimonyShare | src/salary_dgs/services.py:278-282 | the summed share is between 0 and half the number of parts |
| Calculation.ShareOf | src/salary_dgs/services.py:286-289 | a share of at most the whole of a non-negative net lies between zero and the net; a zero share gives zero |
| Calculation.AlimonyAmount | src/salary_dgs/services.py:291-293 | an empty children field gives zero alimony |
| Calculation.AlimonyWithinNet | src/salary_dgs/services.py:285-295 | when the shares add up to at most the whole, alimony lies between zero and the net, and the answer is never negative |
| Calculation.NetAnswerNonNegative | src/salary_dgs/services.py:301-307 | with non-negative factors, a tax rate of at most 100% and alimony shares adding up to at most the whole, alimony takes at most the net pay and the answer is never negative |
| Calculation.OvertimeDifferential | src/salary_dgs/services.py:312-319 | the differential is the pro-rated salary less the base salary |
| Calculation.OvertimeSign | src/salary_dgs/services.py:312-319 | it is at most zero below the norm, at least zero above it, and zero at it |
| Calculation.QuarterPayoutMonth | src/salary_dgs/services.py:323-341 | the payout month is one of the four quarter payout months, or the unknown-month text |
| Calculation.QuarterGrouping | src/salary_dgs/services.py:323-341 | each month maps to its quarter's payout month, and a name that is not a month maps to the unknown-month text |
| Services.AlimonyRateSum | src/salary_dgs/services.py:278-283 | the loop over the rates adds up exactly the summed alimony share |
| Services.CalculationBaseSalary.constructor | src/salary_dgs/services.py:22-24 | the engine holds the record and an empty cache |
| Services.CalculationBaseSalary.Remember | src/salary_dgs/cache_decorator.py:8 | storing a step's value keeps every cache entry equal to its step's value |
| Services.CalculationBaseSalary.BaseSalary | src/salary_dgs/services.py:26-40 | returns the salary step of the record, and leaves it memoised under its method name |
| Services.CalculationBaseSalary.NightShifts | src/salary_dgs/services.py:42-73 | returns the night-pay step of the record, memoised |
| Services.CalculationBaseSalary.Underground | src/salary_dgs/services.py:75-89 | returns the underground step of the record, memoised |
| Services.CalculationBaseSalary.Bonus | src/salary_dgs/services.py:91-107 | returns the bonus step of the record, memoised |
| Services.CalculationBaseSalary.WorkingInTemperature | src/salary_dgs/services.py:109-129 | returns the temperature step of the record, memoised |
| Services.CalculationBaseSalary.Base | src/salary_dgs/services.py:131-155 | returns the base total of the record, memoised |
| Services.CalculationBaseSalary.DistrictAllowance | src/salary_dgs/services.py:157-168 | returns the district allowance of the record, memoised |
| Services.CalculationBaseSalary.NorthAllowance | src/salary_dgs/services.py:170-181 | returns the northern allowance of the record, memoised |
| Services.CalculationBaseSalary.TotalAccruals | src/salary_dgs/services.py:183-205 | returns the total accruals of the record, memoised |
| Services.CalculationBaseSalary.DeductionForChildren | src/salary_dgs/services.py:207-238 | returns the child deduction of the record, memoised |
| Services.CalculationBaseSalary.WithholdingTax | src/salary_dgs/services.py:240-255 | returns the income tax of the record, memoised |
| Services.CalculationBaseSalary.Alimony | src/salary_dgs/services.py:257-295 | returns the alimony of the record, memoised |
| Services.CalculationBaseSalary.Answer | src/salary_dgs/services.py:297-307 | returns the net answer of the record, memoised |
| Services.CalculationBaseSalary.BaseMonth | src/salary_dgs/services.py:309-319 | returns the overtime differential of the record, memoised |
| Services.CalculationBaseSalary.MonthQuarterPayment | src/salary_dgs/services.py:321-341 | returns the quarter payout month of the record's month: a payout month or the unknown-month text |
| Scenario.ChildNumbersTwoThree | src/salary_dgs/services.py:210-214 | the children "2,3" are read as the numbers 2 and 3 |
| Scenario.SampleChildDeduction | src/salary_dgs/proba.py:12 | the sample children "2,3" give a base of 2800 + 6000, and at 13% a deduction of 1144.00 |
| Scenario.SampleAlimonyShare | src/salary_dgs/proba.py:13 | the sample alimony "25,50" takes a quarter plus a half of the net |
| Scenario.AcceptedRateWithoutShare | src/salary_dgs/services.py:270-282 | 70% passes the alimony check but has no share in the table, so it takes nothing |
| Scenario.ThreeFiftiesAccepted | src/salary_dgs/validate_dekarators.py:178-194 | the alimony loop accepts 50 three times |
| Scenario.ThreeFiftiesShare | src/salary_dgs/services.py:279-282 | three rates of 50 add up to a share of 1.5 |
| Scenario.SharesAboveWhole | src/salary_dgs/services.py:279-289 | "50,50,50" passes the alimony loop and asks for one and a half times the net, because the shares are not capped |

## Left out

- Decimal precision: `Decimal` works with the default context of 28 significant digits,
  which the source never changes (`services.py:3` imports `getcontext` and does not call
  it). The model computes with exact rationals and whole cents without bound. So it can
  round differently on an exact half-cent tie. One example: rates 25 and 33 give
  1/4 + 1/3 = 7/12 of the net, and 1/3 is cut at the 28th digit in the source. It also
  differs on very large amounts.
  - From 10^25 roubles on, 28 digits reach no further down than the cent. So a division
    is already rounded there, half to even, before the `quantize`.
  - From 10^26 roubles on, `quantize(Decimal("0.01"))` raises `InvalidOperation`.
- Amount size: the base salary check has no upper bound (`validate_dekarators.py:7-12`).
  So the source raises `InvalidOperation` on salaries large enough that a quantised
  amount needs more than 28 digits, for example "1" followed by 26 zeros at the month's
  norm (`services.py:37`). The model has no bound and returns that amount in cents.
- Unicode digits: `str.isdigit` also accepts non-ASCII digits, and the model accepts only
  `0`–`9`. `str.lower` is modelled for ASCII and the Russian alphabet only.
- The values of `constant.py` are not part of this model. The month norms, the hour norms
  and the percentage factors are the `Tables` parameter.
- Logging, `async`/`await` and the event loop are not modelled. Each step runs to
  completion in order.
- The chat bot, its handlers and keyboards, `main.py`, and `proba.py` as a script are
  outside the core. Only the sample record's lists appear, in `Scenario`.
- `from_dict`, `to_dict` and `from_base_salary` are not modelled. They copy fields and
  compute nothing.
- `get_sum_evening_shifts` (`models.py:116-117`) is not modelled. It repeats the evening
  getter, and the engine never calls it.
- A step run on a record with an unset field raises an exception in the source. The
  engine here requires a complete record, filled in by the setters.
- The source cache keeps its results if the record changes after the engine is built, so
  later calls can return stale amounts. The engine invariant requires that the record is
  unchanged.
- `InvalidOperation` on text that `Decimal` cannot read does not arise: every field the
  engine converts passed a digit check first. The overflow case is the "Amount size" line
  above.
- Calculation.AlimonyWithinNet: the bound needs the shares to add up to at most 1. The
  source does not cap them (see `Scenario.SharesAboveWhole`).
- Calculation.NetAnswerNonNegative: needs the same condition on the shares, for the same
  reason.
- Models.BaseSalary.GetChildren: no contract of its own. It returns the stored text
  unchanged. `CanonicalLists` states what that text satisfies.
- Models.BaseSalary.GetAlimony: no contract of its own, for the same reason.
- Services.CalculationBaseSalary.Valid: the engine invariant needs only the readable part
  of the record invariant (`Readable`). The canonical-list part is in
  `Models.BaseSalary.Valid`.
- Covers: the engine requires `Covers(t, month)`: the record's month has a positive day
  norm and a positive hour norm in the tables. This stands in for what `constant.py` is
  assumed to hold. The source would raise `KeyError` on a missing month or a division
  error on a zero norm, and the model has no such error path. Nothing ties the record's
  `months` set to the keys of the tables. In the source, the month check uses the keys of
  `MONTHS_IN_YEAR_DAYS` (`models.py:40`), and the engine reads norms from the constant
  tables.
