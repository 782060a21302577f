/**
 * The relative time a client card shows under its name
 * (`timeSinceUpdate` in components/ClientCard.tsx): the elapsed time in
 * the largest unit it exceeds, rounded down.
 */
module ClientCard {

  import opened Seqs
  import opened Strings

  datatype TimeUnit = Year | Month | Day | Hour | Minute | Second

  /** How many seconds one unit lasts (a year of 365 days, a month of 30). */
  function UnitSeconds(u: TimeUnit): nat
  {
    match u
    case Year => 31536000
    case Month => 2592000
    case Day => 86400
    case Hour => 3600
    case Minute => 60
    case Second => 1
  }

  function Suffix(u: TimeUnit): string
  {
    match u
    case Year => "y ago"
    case Month => "mo ago"
    case Day => "d ago"
    case Hour => "h ago"
    case Minute => "m ago"
    case Second => "s ago"
  }

  /** The units tried, largest first; seconds are the fallback. */
  const UNITS_TRIED: seq<TimeUnit> := [Year, Month, Day, Hour, Minute]

  /** `seconds / unit > 1`: the unit is exceeded strictly. */
  function Exceeds(seconds: nat): TimeUnit -> bool
  {
    (u: TimeUnit) => seconds > UnitSeconds(u)
  }

  /** The first unit tried that `seconds` exceeds, or seconds when there is none. */
  function ChosenUnit(seconds: nat): (u: TimeUnit)
    ensures u == Second <==> forall i :: 0 <= i < |UNITS_TRIED| ==> seconds <= UnitSeconds(UNITS_TRIED[i])
    ensures u != Second ==> seconds > UnitSeconds(u)
    ensures u != Second ==>
      exists k :: 0 <= k < |UNITS_TRIED| && u == UNITS_TRIED[k] && (forall j :: 0 <= j < k ==> seconds <= UnitSeconds(UNITS_TRIED[j]))
  {
    var k := FindIndex(UNITS_TRIED, Exceeds(seconds));
    if k == -1 then Second else UNITS_TRIED[k]
  }

  /** `Math.floor((now - date) / 1000)` for a date that is not in the future. */
  function ElapsedSeconds(nowMs: int, dateMs: int): (s: nat)
    requires dateMs <= nowMs
    ensures s * 1000 <= nowMs - dateMs < (s + 1) * 1000
  {
    (nowMs - dateMs) / 1000
  }

  /** `timeSinceUpdate`, written as the chain of early returns of the source. */
  function TimeSinceUpdate(seconds: nat): string
  {
    if seconds > 31536000 then DecimalString(seconds / 31536000) + "y ago"
    else if seconds > 2592000 then DecimalString(seconds / 2592000) + "mo ago"
    else if seconds > 86400 then DecimalString(seconds / 86400) + "d ago"
    else if seconds > 3600 then DecimalString(seconds / 3600) + "h ago"
    else if seconds > 60 then DecimalString(seconds / 60) + "m ago"
    else DecimalString(seconds) + "s ago"
  }

  /** The text is the whole number of the chosen unit followed by that unit's suffix. */
  lemma TimeSinceUpdateShowsChosenUnit(seconds: nat)
    ensures var u := ChosenUnit(seconds);
      TimeSinceUpdate(seconds) == DecimalString(seconds / UnitSeconds(u)) + Suffix(u)
  {
    var u := ChosenUnit(seconds);
    if seconds > 31536000 {
      assert Exceeds(seconds)(UNITS_TRIED[0]);
      assert u == Year;
    } else if seconds > 2592000 {
      assert Exceeds(seconds)(UNITS_TRIED[1]);
      assert u == Month;
    } else if seconds > 86400 {
      assert Exceeds(seconds)(UNITS_TRIED[2]);
      assert u == Day;
    } else if seconds > 3600 {
      assert Exceeds(seconds)(UNITS_TRIED[3]);
      assert u == Hour;
    } else if seconds > 60 {
      assert Exceeds(seconds)(UNITS_TRIED[4]);
      assert u == Minute;
    } else {
      assert u == Second;
    }
  }

  /**
   * `timeSinceUpdate(date)` read at the instant `nowMs`: the whole seconds
   * elapsed since `dateMs`, shown in the chosen unit with that unit's suffix.
   */
  function TimeAgo(nowMs: int, dateMs: int): (r: string)
    requires dateMs <= nowMs
    ensures var s := ElapsedSeconds(nowMs, dateMs); var u := ChosenUnit(s);
      r == DecimalString(s / UnitSeconds(u)) + Suffix(u)
  {
    var s := ElapsedSeconds(nowMs, dateMs);
    TimeSinceUpdateShowsChosenUnit(s);
    TimeSinceUpdate(s)
  }

  /** The amount shown in a unit other than seconds is at least one. */
  lemma AmountAtLeastOne(seconds: nat)
    ensures var u := ChosenUnit(seconds);
      u != Second ==> seconds / UnitSeconds(u) >= 1
  {
  }

  /** Up to a minute the card counts seconds; the boundary itself is still seconds. */
  lemma SecondsUpToAMinute(seconds: nat)
    ensures seconds <= 60 <==> ChosenUnit(seconds) == Second
  {
  }

  lemma ExactlyAMinute()
    ensures TimeSinceUpdate(60) == "60s ago"
  {
    assert DecimalString(60) == "60" by {
      assert DecimalString(6) == "6";
    }
  }

  lemma JustOverAMinute()
    ensures TimeSinceUpdate(61) == "1m ago"
  {
    assert DecimalString(1) == "1";
  }
}
