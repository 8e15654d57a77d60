/** `TimeUnitEnum`: the rate-limit window units, their codes and their length
    in seconds. */
module TimeUnits {
  import opened JavaLang

  datatype TimeUnit = Second | Minute | Hour | Day
  {
    function Code(): string
    {
      match this
      case Second => "SECOND"
      case Minute => "MINUTE"
      case Hour => "HOUR"
      case Day => "DAY"
    }

    function DisplayName(): string
    {
      match this
      case Second => "秒"
      case Minute => "分钟"
      case Hour => "小时"
      case Day => "天"
    }

    /** Length of one unit in seconds. */
    function Seconds(): (n: int)
      ensures n > 0
    {
      match this
      case Second => 1
      case Minute => 60
      case Hour => 3600
      case Day => 86400
    }

    /** `toSeconds(window)`: the product is taken in `long`, so for every `int`
        window it is exact. */
    function ToSeconds(window: int): (r: int)
      ensures IsInt32(window) ==> IsInt64(r)
      ensures r / Seconds() == window && r % Seconds() == 0
    {
      window * Seconds()
    }
  }

  /** `values()`, in declaration order. */
  function Values(): seq<TimeUnit>
  {
    [Second, Minute, Hour, Day]
  }

  /** The first of `units` whose code equals `code`. */
  function FirstWithCode(units: seq<TimeUnit>, code: Option<string>): (r: Option<TimeUnit>)
    ensures r.Some? <==> exists i :: 0 <= i < |units| && Some(units[i].Code()) == code
    ensures r.Some? ==> r.value in units && Some(r.value.Code()) == code
  {
    if units == [] then None
    else if Some(units[0].Code()) == code then Some(units[0])
    else FirstWithCode(units[1..], code)
  }

  /** `getByCode(code)`: the unit with that code, `Second` for any other code
      or for null. */
  function GetByCode(code: Option<string>): (u: TimeUnit)
  {
    match FirstWithCode(Values(), code)
    case Some(u) => u
    case None => Second
  }

  /** Looking a unit up by its own code gives it back, and the seconds table is
      the one the enum declares. */
  lemma {:induction false} GetByCodeRoundTrip(u: TimeUnit)
    ensures GetByCode(Some(u.Code())) == u
    ensures Second.Seconds() == 1 && Minute.Seconds() == 60
    ensures Hour.Seconds() == 3600 && Day.Seconds() == 86400
  {
    var vs := Values();
    assert vs[1..] == [Minute, Hour, Day] && vs[2..] == [Hour, Day] && vs[3..] == [Day];
    match u
    case Second =>
    case Minute => assert FirstWithCode(vs, Some("MINUTE")) == FirstWithCode(vs[1..], Some("MINUTE"));
    case Hour => assert FirstWithCode(vs[1..], Some("HOUR")) == FirstWithCode(vs[2..], Some("HOUR"));
    case Day => assert FirstWithCode(vs[2..], Some("DAY")) == FirstWithCode(vs[3..], Some("DAY"));
  }

  /** A code that names no unit, and a null code, give `Second`. */
  lemma GetByCodeDefault(code: Option<string>)
    requires forall u: TimeUnit :: code != Some(u.Code())
    ensures GetByCode(code) == Second
  {
  }
}
