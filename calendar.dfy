/** Local calendar fields of an instant, as `getFullYear`, `getMonth` and
    `getDate` give them, for a fixed offset from UTC. */
module Calendar {

  const MsPerDay := 24 * 60 * 60 * 1000

  /** `month` counts from 0, as `getMonth` does; `day` from 1. */
  datatype CivilDate = CivilDate(year: int, month: int, day: int)

  /** The proleptic Gregorian date of a day count from 1970-01-01. */
  function FromDays(days: int): CivilDate {
    var z := days + 719468;
    var era := z / 146097;
    var doe := z - era * 146097;
    var yoe := (doe - doe / 1460 + doe / 36524 - doe / 146096) / 365;
    var doy := doe - (365 * yoe + yoe / 4 - yoe / 100);
    var mp := (5 * doy + 2) / 153;
    var day := doy - (153 * mp + 2) / 5 + 1;
    var month := if mp < 10 then mp + 3 else mp - 9;
    var year := yoe + era * 400 + (if month <= 2 then 1 else 0);
    CivilDate(year, month - 1, day)
  }

  /** The local date of instant `t` (milliseconds) at offset `offsetMs`. */
  function LocalDate(t: int, offsetMs: int): CivilDate {
    FromDays((t + offsetMs) / MsPerDay)
  }
}
