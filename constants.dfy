/**
  The lookup tables and percentage factors the calculation reads: the month norms
  `MONTHS_IN_YEAR_DAYS` and `MONTHS_IN_YEAR_HOURS` and the `FACTORS` table. The module
  `salary_dgs/constant.py` that defines them is not part of this model, so they are a
  parameter of every calculation; `HelpTextFactors` holds the values the bot's help text quotes.
 */
module Constants {

  /** The entries of `FACTORS` the engine reads, each under its own name. */
  datatype Factors = Factors(
    nightShiftHours: real,      // "Ночные 1 смена": hours counted per night shift
    eveningShiftHours: real,    // "Ночные 3 смена": hours counted per evening shift
    nightPayPercent: real,      // "Процент оплаты ночных"
    undergroundPercent: real,   // "Подземные условия"
    bonusPercent: real,         // "Премия"
    temperaturePercent: real,   // "Доплата за температуру"
    districtPercent: real,      // "Районный коэффициент"
    northPercent: real,         // "Северная надбавка"
    incomeTaxPercent: real      // "НДФЛ"
  )

  /** `MONTHS_IN_YEAR_DAYS`, `MONTHS_IN_YEAR_HOURS` and `FACTORS`, keyed by lower-case month name. */
  datatype Tables = Tables(daysNorm: map<string, real>, hoursNorm: map<string, real>, factors: Factors)

  /** Both norms exist for `month` and are positive, so the engine can divide by them. */
  predicate Covers(t: Tables, month: string) {
    month in t.daysNorm && month in t.hoursNorm && t.daysNorm[month] > 0.0 && t.hoursNorm[month] > 0.0
  }

  /** No factor is negative: every surcharge adds to the pay and the tax takes a share. */
  predicate NonNegative(f: Factors) {
    f.nightShiftHours >= 0.0 && f.eveningShiftHours >= 0.0 && f.nightPayPercent >= 0.0 &&
    f.undergroundPercent >= 0.0 && f.bonusPercent >= 0.0 && f.temperaturePercent >= 0.0 &&
    f.districtPercent >= 0.0 && f.northPercent >= 0.0 && f.incomeTaxPercent >= 0.0
  }

  /**
    The factors the bot's help text quotes (src/bot/commands.py): 6 hours per night shift,
    1.3 hours per evening shift, night pay 20%, hazard 4%, bonus 40%, temperature 10%,
    district 30%, north 50%, income tax 13%.
   */
  const HelpTextFactors: Factors := Factors(6.0, 1.3, 20.0, 4.0, 40.0, 10.0, 30.0, 50.0, 13.0)

  /** The twelve month names, lower case, January first. */
  const MonthNames: seq<string> := [
    "январь", "февраль", "март", "апрель", "май", "июнь",
    "июль", "август", "сентябрь", "октябрь", "ноябрь", "декабрь"
  ]
}
