/**
  The event record of the planner (types/event.ts). A JavaScript `Date` is represented by the
  facets of it that the program reads: the calendar date and the time of day of its UTC ISO
  text (`toISOString()`), its epoch milliseconds (`getTime()`), and its local hour and minute
  (`getHours()`, `getMinutes()`). They are kept as independent fields: time zones are not
  modelled, so nothing ties the UTC date to the local hour.
 */
module EventTypes {
  import opened Wrappers

  type Hour = h: int | 0 <= h < 24
  type Minute = m: int | 0 <= m < 60

  datatype Timestamp = Timestamp(
    utcDate: string,   // "YYYY-MM-DD", the part of the ISO text before 'T'
    utcTime: string,   // "HH:mm:ss.sssZ", the part after 'T'
    millis: int,       // milliseconds since the epoch; negative before 1970
    hour: Hour,        // local hour of day
    minute: Minute)    // local minute of hour

  /** `toISOString()`: date, the letter 'T', time of day. */
  function IsoString(t: Timestamp): (s: string)
    ensures |s| == |t.utcDate| + 1 + |t.utcTime|
    ensures s[|t.utcDate|] == 'T' && s[..|t.utcDate|] == t.utcDate
    ensures s[|t.utcDate| + 1..] == t.utcTime
  {
    t.utcDate + "T" + t.utcTime
  }

  /**
    A timestamp whose ISO date is the usual ten characters with no 'T' in it: every year
    from 0000 to 9999 (later years are written with six digits and a sign).
   */
  predicate WellFormed(t: Timestamp) {
    |t.utcDate| == 10 && 'T' !in t.utcDate
  }

  datatype Category = Category(name: string, color: string, icon: string)

  /** The three repeat kinds, written 매일 (daily), 매주 (weekly) and 매월 (monthly). */
  datatype RepeatType = Daily | Weekly | Monthly

  function RepeatTypeName(k: RepeatType): (s: string)
    ensures s == "매일" <==> k == Daily
    ensures s == "매주" <==> k == Weekly
    ensures s == "매월" <==> k == Monthly
  {
    match k
    case Daily => "매일"
    case Weekly => "매주"
    case Monthly => "매월"
  }

  datatype RepeatOption = RepeatOption(
    kind: RepeatType,
    days: Option<seq<string>>,   // weekday names
    dates: Option<seq<int>>)     // days of the month

  datatype EventItem = EventItem(
    title: string,
    startDate: Timestamp,
    endDate: Timestamp,
    location: Option<string>,
    memo: Option<string>,
    category: Option<Category>,
    repeatOption: Option<RepeatOption>)
}
