/** Wall-clock readings. A reading is a count of microseconds since
    1970-01-01 00:00:00 local time, the value `datetime.now()` stands for. */
module Clock {
  import opened Common

  const MicrosPerSecond: int := 1_000_000
  const SecondsPerDay: int := 86_400
  const MicrosPerDay: int := 86_400_000_000

  /** The proleptic Gregorian (year, month, day) of a day count since
      1970-01-01, by eras of 400 years. */
  function CivilFromDays(days: int): (int, int, int) {
    var z := days + 719_468;
    var era := z / 146_097;
    var doe := z % 146_097;
    var yoe := (doe - doe / 1_460 + doe / 36_524 - doe / 146_096) / 365;
    var doy := doe - (365 * yoe + yoe / 4 - yoe / 100);
    var mp := (5 * doy + 2) / 153;
    var d := doy - (153 * mp + 2) / 5 + 1;
    var m := if mp < 10 then mp + 3 else mp - 9;
    var y := yoe + era * 400 + (if m <= 2 then 1 else 0);
    (y, m, d)
  }

  /** `strftime('%Y%m%d_%H%M%S')` of the whole second `secs`. */
  function SecondStamp(secs: int): (s: string)
    ensures |s| == 15 && s[8] == '_'
  {
    var (y, m, d) := CivilFromDays(secs / SecondsPerDay);
    var sod := secs % SecondsPerDay;
    Pad(y % 10_000, 4) + Pad(m % 100, 2) + Pad(d % 100, 2) + "_" +
    Pad(sod / 3600, 2) + Pad(sod % 3600 / 60, 2) + Pad(sod % 60, 2)
  }

  /** `datetime.now().strftime('%Y%m%d_%H%M%S')` for the reading `t`. */
  function Stamp(t: int): (s: string)
    ensures |s| == 15 && s[8] == '_'
  {
    SecondStamp(t / MicrosPerSecond)
  }
}
