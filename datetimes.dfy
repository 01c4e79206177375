/** Python datetimes as the schema validators compare them: an instant in microseconds
    since the epoch, and whether the value carries a time zone. Comparing an aware value
    with a naive one raises TypeError. */
module DateTimes {

  import opened Wrappers

  datatype Moment = Moment(micros: int, aware: bool)

  const MicrosPerDay: int := 86_400_000_000

  /** `timedelta(days=n)`. */
  function Days(n: int): int
  {
    n * MicrosPerDay
  }

  /** `m + timedelta(micros)`: the same kind of value, shifted. */
  function Shift(m: Moment, micros: int): (r: Moment)
    ensures r.aware == m.aware && r.micros - m.micros == micros
  {
    Moment(m.micros + micros, m.aware)
  }

  const CompareError: string := "can't compare offset-naive and offset-aware datetimes"

  /** `a < b`: None where Python raises TypeError. */
  function Less(a: Moment, b: Moment): (r: Option<bool>)
    ensures r.Some? <==> a.aware == b.aware
    ensures r.Some? ==> (r.value <==> a.micros < b.micros)
  {
    if a.aware != b.aware then None else Some(a.micros < b.micros)
  }
}
