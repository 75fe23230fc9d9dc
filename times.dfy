/**
 * Calendar arithmetic and the timestamp generators of qstrader/utils/times.py.
 *
 * A timestamp is a whole number of minutes since a Monday 00:00 UTC, so the
 * date of a timestamp is `t / MinutesPerDay` days after that Monday and its
 * weekday is that day count modulo seven (0 is Monday, 4 is Friday).
 */
module Times {

  type Timestamp = nat

  const MinutesPerHour: nat := 60
  const MinutesPerDay: nat := 1440
  const DaysPerWeek: nat := 7
  const WeekdaysPerWeek: nat := 5

  /** Minutes after midnight of the date of `t`. */
  function TimeOfDay(t: Timestamp): nat { t % MinutesPerDay }

  /** Midnight of the date of `t`: `datetime(t.year, t.month, t.day)`. */
  function DateOf(t: Timestamp): Timestamp { t - t % MinutesPerDay }

  /** Day of the week of `t`, 0 = Monday ... 6 = Sunday. */
  function Weekday(t: Timestamp): nat { (t / MinutesPerDay) % DaysPerWeek }

  predicate IsMidnight(t: Timestamp) { t % MinutesPerDay == 0 }

  predicate IsWholeHour(t: Timestamp) { t % MinutesPerHour == 0 }

  /** Monday to Friday; there is no holiday calendar. */
  predicate IsWeekday(t: Timestamp) { Weekday(t) < WeekdaysPerWeek }

  predicate StrictlyIncreasing(s: seq<Timestamp>)
  {
    forall i, j :: 0 <= i < j < |s| ==> s[i] < s[j]
  }

  /** `t` is the midnight of a Monday-to-Friday date lying in `[start, end]`. */
  predicate IsBusinessDayIn(t: Timestamp, start: Timestamp, end: Timestamp)
  {
    IsMidnight(t) && IsWeekday(t) && start <= t <= end
  }

  /** A timestamp `x` minutes after a midnight `d`, with `x` less than a day, lies on the date of `d`. */
  lemma WithinDay(d: Timestamp, x: nat)
    requires IsMidnight(d) && x < MinutesPerDay
    ensures DateOf(d + x) == d && TimeOfDay(d + x) == x
    ensures Weekday(d + x) == Weekday(d)
    ensures (d + x) / MinutesPerDay == d / MinutesPerDay
  {
    var q := d / MinutesPerDay;
    assert d == q * MinutesPerDay;
    assert (d + x) / MinutesPerDay == q && (d + x) % MinutesPerDay == x by {
      assert d + x == q * MinutesPerDay + x;
    }
  }

  /** Two distinct midnights are at least a day apart. */
  lemma MidnightGap(a: Timestamp, b: Timestamp)
    requires IsMidnight(a) && IsMidnight(b) && a < b
    ensures a + MinutesPerDay <= b
  {
    var qa, qb := a / MinutesPerDay, b / MinutesPerDay;
    assert a == qa * MinutesPerDay && b == qb * MinutesPerDay;
    assert qa < qb;
  }

  /**
   * `pd.date_range(start=day, end=end, freq="B")` for a midnight `day`: every
   * Monday-to-Friday midnight in `[day, end]`, in ascending order.
   */
  function BusinessDateRange(day: Timestamp, end: Timestamp): (days: seq<Timestamp>)
    requires IsMidnight(day)
    ensures StrictlyIncreasing(days)
    ensures forall t :: t in days ==> IsBusinessDayIn(t, day, end)
    ensures forall t :: IsBusinessDayIn(t, day, end) ==> t in days
    decreases if day <= end then end - day + 1 else 0
  {
    if day > end then []
    else
      var rest := BusinessDateRange(day + MinutesPerDay, end);
      assert forall t :: IsBusinessDayIn(t, day, end) && t != day ==> IsBusinessDayIn(t, day + MinutesPerDay, end) by {
        forall t | IsBusinessDayIn(t, day, end) && t != day
          ensures day + MinutesPerDay <= t
        {
          MidnightGap(day, t);
        }
      }
      assert forall k :: 0 <= k < |rest| ==> day < rest[k] by {
        forall k | 0 <= k < |rest| ensures day < rest[k] { assert rest[k] in rest; }
      }
      if IsWeekday(day) then [day] + rest else rest
  }

  /**
   * `BusinessDays(start_date, end_date, pre_market, post_market).rebalances`.
   * The two flags are accepted and ignored.
   */
  function BusinessDays(startDate: Timestamp, endDate: Timestamp,
                        preMarket: bool := false, postMarket: bool := false): (days: seq<Timestamp>)
    requires IsMidnight(startDate)
    ensures StrictlyIncreasing(days)
    ensures forall t :: t in days <==> IsBusinessDayIn(t, startDate, endDate)
  {
    BusinessDateRange(startDate, endDate)
  }

  /** The generated dates are the same whatever the flags say. */
  lemma BusinessDaysIgnoresFlags(startDate: Timestamp, endDate: Timestamp, preMarket: bool, postMarket: bool)
    requires IsMidnight(startDate)
    ensures BusinessDays(startDate, endDate, preMarket, postMarket) == BusinessDays(startDate, endDate)
  {
  }

  /** An empty or reversed range has no business days. */
  lemma BusinessDaysEmptyRange(startDate: Timestamp, endDate: Timestamp)
    requires IsMidnight(startDate) && endDate < startDate
    ensures BusinessDays(startDate, endDate) == []
  {
  }

  // ---------------------------------------------------------------------------
  // BusinessHours

  /** 14:30 UTC, the market open. */
  const MarketOpenTime: nat := 14 * MinutesPerHour + 30

  /** `Timedelta.ceil("1h")`: the least whole hour not before `m`. */
  function CeilToHour(m: nat): (r: nat)
    ensures r % MinutesPerHour == 0 && m <= r < m + MinutesPerHour
  {
    ((m + MinutesPerHour - 1) / MinutesPerHour) * MinutesPerHour
  }

  /** First hour of each business day: 00:00 with pre-market, otherwise 14:30 rounded up. */
  function DayStartTime(preMarket: bool): (m: nat)
    ensures m == if preMarket then 0 else 15 * MinutesPerHour
  {
    if preMarket then 0 else CeilToHour(MarketOpenTime)
  }

  /** Last hour of each business day: 21:00 WITH post-market and 23:00 without, as written. */
  function DayEndTime(postMarket: bool): (m: nat)
    ensures m % MinutesPerHour == 0 && m < MinutesPerDay
  {
    if postMarket then 21 * MinutesPerHour else 23 * MinutesPerHour
  }

  /** Number of whole hours from the first to the last hour of a business day, both included. */
  function HoursPerDay(preMarket: bool, postMarket: bool): nat
  {
    (DayEndTime(postMarket) - DayStartTime(preMarket)) / MinutesPerHour + 1
  }

  /** `pd.date_range(start=from, end=to, freq=Hour())`: `from`, `from` + 1h, ... while not after `to`. */
  function HourRange(from: Timestamp, to: Timestamp): (r: seq<Timestamp>)
    ensures |r| == if from <= to then (to - from) / MinutesPerHour + 1 else 0
    decreases if from <= to then to - from + 1 else 0
  {
    if from > to then [] else [from] + HourRange(from + MinutesPerHour, to)
  }

  /** The k-th entry of an hourly range is k hours after its first. */
  lemma {:induction false} HourRangeEntries(from: Timestamp, to: Timestamp)
    ensures forall k :: 0 <= k < |HourRange(from, to)| ==> HourRange(from, to)[k] == from + k * MinutesPerHour
    decreases if from <= to then to - from + 1 else 0
  {
    if from <= to {
      var rest := HourRange(from + MinutesPerHour, to);
      HourRangeEntries(from + MinutesPerHour, to);
      forall k | 0 < k < |HourRange(from, to)|
        ensures HourRange(from, to)[k] == from + k * MinutesPerHour
      {
        assert HourRange(from, to)[k] == rest[k - 1];
      }
    }
  }

  /** The hours one business day `day` contributes. */
  function HoursOfDay(day: Timestamp, preMarket: bool, postMarket: bool): seq<Timestamp>
  {
    HourRange(day + DayStartTime(preMarket), day + DayEndTime(postMarket))
  }

  /** The hours of `days`, day after day, as `hourly.extend` accumulates them. */
  function HoursOfDays(days: seq<Timestamp>, preMarket: bool, postMarket: bool): seq<Timestamp>
  {
    if days == [] then []
    else HoursOfDays(days[..|days| - 1], preMarket, postMarket) + HoursOfDay(days[|days| - 1], preMarket, postMarket)
  }

  /** `BusinessHours(start_date, end_date, pre_market, post_market).rebalances`. */
  function BusinessHoursOf(startDate: Timestamp, endDate: Timestamp, preMarket: bool, postMarket: bool): seq<Timestamp>
    requires IsMidnight(startDate)
  {
    HoursOfDays(BusinessDateRange(startDate, endDate), preMarket, postMarket)
  }

  lemma HoursOfDaysStep(days: seq<Timestamp>, i: nat, preMarket: bool, postMarket: bool)
    requires i < |days|
    ensures HoursOfDays(days[..i + 1], preMarket, postMarket)
         == HoursOfDays(days[..i], preMarket, postMarket) + HoursOfDay(days[i], preMarket, postMarket)
  {
    assert days[..i + 1][..i] == days[..i];
  }

  /** `BusinessHours._generate`: one whole-hour range per business day, appended in date order. */
  method GenerateBusinessHours(startDate: Timestamp, endDate: Timestamp, preMarket: bool := false, postMarket: bool := false)
    returns (hourly: seq<Timestamp>)
    requires IsMidnight(startDate)
    ensures hourly == BusinessHoursOf(startDate, endDate, preMarket, postMarket)
  {
    var businessDays := BusinessDateRange(startDate, endDate);
    var startTime := DayStartTime(preMarket);
    var endTime := DayEndTime(postMarket);
    hourly := [];
    for i := 0 to |businessDays|
      invariant hourly == HoursOfDays(businessDays[..i], preMarket, postMarket)
    {
      var day := businessDays[i];
      HoursOfDaysStep(businessDays, i, preMarket, postMarket);
      hourly := hourly + HourRange(day + startTime, day + endTime);
    }
    assert businessDays[..|businessDays|] == businessDays;
  }

  // ---------------------------------------------------------------------------
  // Properties of the business-hours schedule

  /** A timestamp is in an hourly range iff it lies between the bounds a whole number of hours after the first. */
  lemma HourRangeMembership(from: Timestamp, to: Timestamp, t: Timestamp)
    ensures t in HourRange(from, to) <==> from <= t <= to && (t - from) % MinutesPerHour == 0
  {
    var r := HourRange(from, to);
    HourRangeEntries(from, to);
    if from <= t <= to && (t - from) % MinutesPerHour == 0 {
      var k := (t - from) / MinutesPerHour;
      assert t == from + k * MinutesPerHour;
      assert k <= (to - from) / MinutesPerHour;
      assert r[k] == t;
    }
    if t in r {
      var k :| 0 <= k < |r| && r[k] == t;
      assert t - from == k * MinutesPerHour;
    }
  }

  /** The hours of one business day `d` are the whole hours of date `d` from its first to its last hour. */
  lemma HoursOfDayMembership(d: Timestamp, preMarket: bool, postMarket: bool, t: Timestamp)
    requires IsMidnight(d)
    ensures t in HoursOfDay(d, preMarket, postMarket) <==>
              DateOf(t) == d && IsWholeHour(t) && DayStartTime(preMarket) <= TimeOfDay(t) <= DayEndTime(postMarket)
  {
    WholeHoursOfDay(d, DayStartTime(preMarket), DayEndTime(postMarket), t);
  }

  /** For a midnight `d` and whole-hour offsets `s <= e` within the day: the hourly range from `d + s` to `d + e`. */
  lemma WholeHoursOfDay(d: Timestamp, s: nat, e: nat, t: Timestamp)
    requires IsMidnight(d) && s % MinutesPerHour == 0 && e < MinutesPerDay
    ensures t in HourRange(d + s, d + e) <==> DateOf(t) == d && IsWholeHour(t) && s <= TimeOfDay(t) <= e
  {
    var base := 24 * (d / MinutesPerDay) + s / MinutesPerHour;
    assert d + s == MinutesPerHour * base;
    HourRangeMembership(d + s, d + e, t);
    if t in HourRange(d + s, d + e) {
      WholeHourFromRange(d, s, e, t, base);
    }
    if DateOf(t) == d && IsWholeHour(t) && s <= TimeOfDay(t) <= e {
      RangeFromWholeHour(d, s, e, t, base);
    }
  }

  lemma WholeHourFromRange(d: Timestamp, s: nat, e: nat, t: Timestamp, base: nat)
    requires IsMidnight(d) && d + s == MinutesPerHour * base && e < MinutesPerDay
    requires d + s <= t <= d + e && (t - (d + s)) % MinutesPerHour == 0
    ensures DateOf(t) == d && IsWholeHour(t) && s <= TimeOfDay(t) <= e
  {
    ShiftMod(base, t - (d + s));
    WithinDay(d, t - d);
  }

  lemma RangeFromWholeHour(d: Timestamp, s: nat, e: nat, t: Timestamp, base: nat)
    requires d + s == MinutesPerHour * base
    requires DateOf(t) == d && IsWholeHour(t) && s <= TimeOfDay(t) <= e
    ensures d + s <= t <= d + e && (t - (d + s)) % MinutesPerHour == 0
  {
    assert t == d + TimeOfDay(t);
    ShiftMod(base, t - (d + s));
  }

  /** Adding a whole number of hours does not change the minutes past the hour. */
  lemma ShiftMod(k: nat, x: nat)
    ensures (MinutesPerHour * k + x) % MinutesPerHour == x % MinutesPerHour
  {
    var a, b := x / MinutesPerHour, x % MinutesPerHour;
    assert MinutesPerHour * k + x == MinutesPerHour * (k + a) + b;
  }

  /** A timestamp is in the hours of `days` iff it is in the hours of one of them. */
  lemma {:induction false} HoursOfDaysMembership(days: seq<Timestamp>, preMarket: bool, postMarket: bool, t: Timestamp)
    ensures t in HoursOfDays(days, preMarket, postMarket) <==>
              exists i :: 0 <= i < |days| && t in HoursOfDay(days[i], preMarket, postMarket)
  {
    if days != [] {
      var init := days[..|days| - 1];
      HoursOfDaysMembership(init, preMarket, postMarket, t);
      assert forall i :: 0 <= i < |init| ==> init[i] == days[i];
    }
  }

  /** `t` is a scheduled business hour: a whole hour between the day's first and last hour of a business date in range. */
  predicate IsBusinessHourIn(t: Timestamp, startDate: Timestamp, endDate: Timestamp, preMarket: bool, postMarket: bool)
  {
    && IsWholeHour(t)
    && DayStartTime(preMarket) <= TimeOfDay(t) <= DayEndTime(postMarket)
    && IsBusinessDayIn(DateOf(t), startDate, endDate)
  }

  /** Exactly the business hours of the range are generated. */
  lemma BusinessHoursMembership(startDate: Timestamp, endDate: Timestamp, preMarket: bool, postMarket: bool, t: Timestamp)
    requires IsMidnight(startDate)
    ensures t in BusinessHoursOf(startDate, endDate, preMarket, postMarket) <==>
              IsBusinessHourIn(t, startDate, endDate, preMarket, postMarket)
  {
    var days := BusinessDateRange(startDate, endDate);
    HoursOfDaysMembership(days, preMarket, postMarket, t);
    if t in BusinessHoursOf(startDate, endDate, preMarket, postMarket) {
      var i :| 0 <= i < |days| && t in HoursOfDay(days[i], preMarket, postMarket);
      assert days[i] in days;
      HoursOfDayMembership(days[i], preMarket, postMarket, t);
    }
    if IsBusinessHourIn(t, startDate, endDate, preMarket, postMarket) {
      var d := DateOf(t);
      assert d in days;
      var i :| 0 <= i < |days| && days[i] == d;
      HoursOfDayMembership(d, preMarket, postMarket, t);
    }
  }

  lemma HoursOfDayLength(d: Timestamp, preMarket: bool, postMarket: bool)
    ensures |HoursOfDay(d, preMarket, postMarket)| == HoursPerDay(preMarket, postMarket)
  {
    var s, e := DayStartTime(preMarket), DayEndTime(postMarket);
    assert (d + e) - (d + s) == e - s;
  }

  lemma MulSucc(n: nat, k: nat)
    ensures (n + 1) * k == n * k + k
  {
  }

  /** Each business day contributes `HoursPerDay` hours. */
  lemma {:induction false} HoursOfDaysLength(days: seq<Timestamp>, preMarket: bool, postMarket: bool)
    ensures |HoursOfDays(days, preMarket, postMarket)| == |days| * HoursPerDay(preMarket, postMarket)
  {
    if days != [] {
      var init, k := days[..|days| - 1], HoursPerDay(preMarket, postMarket);
      HoursOfDaysLength(init, preMarket, postMarket);
      HoursOfDayLength(days[|days| - 1], preMarket, postMarket);
      MulSucc(|init|, k);
    }
  }

  /** The schedule has (business days) x (hours per day) entries. */
  lemma BusinessHoursLength(startDate: Timestamp, endDate: Timestamp, preMarket: bool, postMarket: bool)
    requires IsMidnight(startDate)
    ensures |BusinessHoursOf(startDate, endDate, preMarket, postMarket)| ==
              |BusinessDays(startDate, endDate)| * HoursPerDay(preMarket, postMarket)
  {
    HoursOfDaysLength(BusinessDateRange(startDate, endDate), preMarket, postMarket);
  }

  lemma ConcatIncreasing(a: seq<Timestamp>, b: seq<Timestamp>)
    requires StrictlyIncreasing(a) && StrictlyIncreasing(b)
    requires forall i, j :: 0 <= i < |a| && 0 <= j < |b| ==> a[i] < b[j]
    ensures StrictlyIncreasing(a + b)
  {
  }

  /** The hours of a business day all precede any later midnight. */
  lemma HoursBeforeLaterDay(d: Timestamp, later: Timestamp, preMarket: bool, postMarket: bool, t: Timestamp)
    requires IsMidnight(d) && IsMidnight(later) && d < later
    requires t in HoursOfDay(d, preMarket, postMarket)
    ensures t < later
  {
    HoursOfDayMembership(d, preMarket, postMarket, t);
    MidnightGap(d, later);
  }

  /** The hours of one day are increasing and none is before its midnight. */
  lemma HoursOfDayIncreasing(d: Timestamp, preMarket: bool, postMarket: bool)
    ensures StrictlyIncreasing(HoursOfDay(d, preMarket, postMarket))
    ensures forall t :: t in HoursOfDay(d, preMarket, postMarket) ==> d <= t
  {
    HourRangeEntries(d + DayStartTime(preMarket), d + DayEndTime(postMarket));
  }

  /** Every hour of ascending midnights `days` precedes a later midnight. */
  lemma HoursOfDaysBefore(days: seq<Timestamp>, later: Timestamp, preMarket: bool, postMarket: bool)
    requires forall i :: 0 <= i < |days| ==> IsMidnight(days[i]) && days[i] < later
    requires IsMidnight(later)
    ensures forall t :: t in HoursOfDays(days, preMarket, postMarket) ==> t < later
  {
    forall t | t in HoursOfDays(days, preMarket, postMarket) ensures t < later {
      HoursOfDaysMembership(days, preMarket, postMarket, t);
      var m :| 0 <= m < |days| && t in HoursOfDay(days[m], preMarket, postMarket);
      HoursBeforeLaterDay(days[m], later, preMarket, postMarket, t);
    }
  }

  /** Over ascending midnights, the hours come out strictly increasing. */
  lemma {:induction false} HoursOfDaysIncreasing(days: seq<Timestamp>, preMarket: bool, postMarket: bool)
    requires StrictlyIncreasing(days)
    requires forall i :: 0 <= i < |days| ==> IsMidnight(days[i])
    ensures StrictlyIncreasing(HoursOfDays(days, preMarket, postMarket))
  {
    if days != [] {
      var init, last := days[..|days| - 1], days[|days| - 1];
      HoursOfDaysIncreasing(init, preMarket, postMarket);
      var a, b := HoursOfDays(init, preMarket, postMarket), HoursOfDay(last, preMarket, postMarket);
      HoursOfDayIncreasing(last, preMarket, postMarket);
      HoursOfDaysBefore(init, last, preMarket, postMarket);
      forall i, j | 0 <= i < |a| && 0 <= j < |b| ensures a[i] < b[j] {
        assert a[i] in a && b[j] in b;
      }
      ConcatIncreasing(a, b);
    }
  }

  /** The business-hours schedule is strictly increasing, so it has no duplicates. */
  lemma BusinessHoursIncreasing(startDate: Timestamp, endDate: Timestamp, preMarket: bool, postMarket: bool)
    requires IsMidnight(startDate)
    ensures StrictlyIncreasing(BusinessHoursOf(startDate, endDate, preMarket, postMarket))
  {
    var days := BusinessDateRange(startDate, endDate);
    assert forall i :: 0 <= i < |days| ==> days[i] in days;
    HoursOfDaysIncreasing(days, preMarket, postMarket);
  }

  /**
   * Hours are not clipped to the end of the range: when the end is itself a
   * business-day midnight, that day still contributes its last hour, which lies after the end.
   */
  lemma BusinessHoursNotClipped(startDate: Timestamp, endDate: Timestamp, preMarket: bool, postMarket: bool)
    requires IsMidnight(startDate) && IsBusinessDayIn(endDate, startDate, endDate)
    ensures endDate + DayEndTime(postMarket) in BusinessHoursOf(startDate, endDate, preMarket, postMarket)
    ensures endDate < endDate + DayEndTime(postMarket)
  {
    WithinDay(endDate, DayEndTime(postMarket));
    assert IsWholeHour(endDate + DayEndTime(postMarket)) by {
      var q := endDate / MinutesPerDay;
      assert endDate + DayEndTime(postMarket) == MinutesPerHour * (24 * q + DayEndTime(postMarket) / MinutesPerHour);
    }
    BusinessHoursMembership(startDate, endDate, preMarket, postMarket, endDate + DayEndTime(postMarket));
  }
}
