/** The hourly rebalance schedule of qstrader/system/rebalance/hourly.py. */
module HourlyRebalance {
  import opened Times

  /**
   * `HourlyRebalance(start_date, end_date, pre_market, post_market).rebalances`: a copy of the
   * business-hours schedule, so strictly increasing with (business days) x (hours per day) entries.
   */
  method GenerateRebalances(startDate: Timestamp, endDate: Timestamp,
                            preMarket: bool := false, postMarket: bool := false)
    returns (rebalances: seq<Timestamp>)
    requires IsMidnight(startDate)
    ensures rebalances == BusinessHoursOf(startDate, endDate, preMarket, postMarket)
    ensures StrictlyIncreasing(rebalances)
    ensures |rebalances| == |BusinessDays(startDate, endDate)| * HoursPerDay(preMarket, postMarket)
  {
    var hours := GenerateBusinessHours(startDate, endDate, preMarket, postMarket);
    rebalances := seq(|hours|, i requires 0 <= i < |hours| => hours[i]);
    BusinessHoursIncreasing(startDate, endDate, preMarket, postMarket);
    BusinessHoursLength(startDate, endDate, preMarket, postMarket);
  }

  /**
   * With the default flags the schedule holds, for every business day of the range,
   * each whole hour from 15:00 to 23:00: nine hours a day.
   */
  lemma DefaultSchedule(startDate: Timestamp, endDate: Timestamp, t: Timestamp)
    requires IsMidnight(startDate)
    ensures t in BusinessHoursOf(startDate, endDate, false, false) <==>
              IsWholeHour(t) && 15 * MinutesPerHour <= TimeOfDay(t) <= 23 * MinutesPerHour &&
              IsBusinessDayIn(DateOf(t), startDate, endDate)
    ensures |BusinessHoursOf(startDate, endDate, false, false)| == 9 * |BusinessDays(startDate, endDate)|
  {
    BusinessHoursMembership(startDate, endDate, false, false, t);
    BusinessHoursLength(startDate, endDate, false, false);
  }

  /**
   * With `post_market` set the day ends at 21:00, two hours EARLIER than without it:
   * the schedule holds each whole hour from the day's first hour to 21:00.
   */
  lemma PostMarketSchedule(startDate: Timestamp, endDate: Timestamp, preMarket: bool, t: Timestamp)
    requires IsMidnight(startDate)
    ensures t in BusinessHoursOf(startDate, endDate, preMarket, true) <==>
              IsWholeHour(t) && DayStartTime(preMarket) <= TimeOfDay(t) <= 21 * MinutesPerHour &&
              IsBusinessDayIn(DateOf(t), startDate, endDate)
  {
    BusinessHoursMembership(startDate, endDate, preMarket, true, t);
  }
}
