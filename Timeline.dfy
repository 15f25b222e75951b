/**
  Geometry and labels of the daily timeline (components/Timeline.tsx). The column is 24 hour
  blocks of HOUR_HEIGHT pixels; a time of day is placed at its minutes since midnight times
  MINUTE_HEIGHT. With HOUR_HEIGHT = 60 every offset is an exact integer.
 */
module Timeline {
  import opened Wrappers
  import opened EventTypes
  import opened Text
  import Decimal

  const HOURS_PER_DAY: int := 24
  const HOUR_HEIGHT: int := 60
  const MINUTE_HEIGHT: int := HOUR_HEIGHT / 60
  const CIRCLE_DIAMETER: int := 12
  const LINE_THICKNESS: int := 2
  const DEFAULT_EVENT_COLOR := "#e0e0e0"

  /** `getHours() * 60 + getMinutes()`. */
  function MinutesOfDay(t: Timestamp): (m: int)
    ensures 0 <= m < HOURS_PER_DAY * 60
    ensures m / 60 == t.hour && m % 60 == t.minute
  {
    t.hour * 60 + t.minute
  }

  /** Vertical offset of a time of day in the column. */
  function Offset(t: Timestamp): (y: int)
    ensures 0 <= y < HOURS_PER_DAY * HOUR_HEIGHT
    ensures HourLineTop(t.hour) <= y < HourLineTop(t.hour) + HOUR_HEIGHT
  {
    MinutesOfDay(t) * MINUTE_HEIGHT
  }

  /** Offsets respect the order of times within a day. */
  lemma OffsetMonotone(a: Timestamp, b: Timestamp)
    ensures Offset(a) < Offset(b) <==> a.hour < b.hour || (a.hour == b.hour && a.minute < b.minute)
  {
  }

  /**
    `calculateCurrentTimeOffset()` for the wall-clock time `now`: within [0, 1439], and where an
    event starting now would be drawn.
   */
  function CurrentTimeOffset(now: Timestamp): (y: int)
    ensures y == Offset(now)
    ensures 0 <= y <= 1439
    ensures HourLineTop(now.hour) <= y < HourLineTop(now.hour) + HOUR_HEIGHT
  {
    var totalMinutes := now.hour * 60 + now.minute;
    totalMinutes * MINUTE_HEIGHT
  }

  lemma CurrentTimeOffsetBounds(now: Timestamp)
    ensures now.hour == 0 && now.minute == 0 ==> CurrentTimeOffset(now) == 0
    ensures now.hour == 23 && now.minute == 59 ==> CurrentTimeOffset(now) == 1439
  {
  }

  /** Top offset of an event's box: the offset of its start time, e.g. 09:00 gives 540. */
  function EventTop(e: EventItem): (y: int)
    ensures y == Offset(e.startDate)
    ensures e.startDate.hour == 9 && e.startDate.minute == 0 ==> y == 540
  {
    var startMinutes := e.startDate.hour * 60 + e.startDate.minute;
    startMinutes * MINUTE_HEIGHT
  }

  /**
    Height of an event's box: its bottom is the offset of its end time, e.g. 09:00 to 10:30
    gives 90. It is zero or negative when the end is not later in the day than the start.
   */
  function EventHeight(e: EventItem): (h: int)
    ensures EventTop(e) + h == Offset(e.endDate)
    ensures h <= 0 <==> MinutesOfDay(e.endDate) <= MinutesOfDay(e.startDate)
    ensures (e.startDate.hour == 9 && e.startDate.minute == 0 &&
             e.endDate.hour == 10 && e.endDate.minute == 30) ==> h == 90
  {
    var startMinutes := e.startDate.hour * 60 + e.startDate.minute;
    var endMinutes := e.endDate.hour * 60 + e.endDate.minute;
    (endMinutes - startMinutes) * MINUTE_HEIGHT
  }

  /** `event.category?.color || '#e0e0e0'`: an absent or empty colour falls back to grey. */
  function EventColor(e: EventItem): (c: string)
    ensures c != ""
    ensures e.category.Some? && e.category.value.color != "" ==> c == e.category.value.color
    ensures e.category.None? || e.category.value.color == "" ==> c == DEFAULT_EVENT_COLOR
  {
    match e.category
    case Some(cat) => if cat.color != "" then cat.color else DEFAULT_EVENT_COLOR
    case None => DEFAULT_EVENT_COLOR
  }

  /** The shape of `H:MM`: one or two hour digits, a colon, two minute digits. */
  predicate IsClockText(s: string) {
    4 <= |s| <= 5 && s[|s| - 3] == ':' &&
    Decimal.AllDigits(s[..|s| - 3]) && Decimal.AllDigits(s[|s| - 2..])
  }

  /** `H:MM` for one time: the hour unpadded, the minute always two digits. */
  function ClockText(t: Timestamp): (s: string)
    ensures IsClockText(s)
    ensures |s| == 4 <==> t.hour < 10
  {
    var hh := Decimal.NatToString(t.hour);
    var mm := Decimal.PadStart(Decimal.NatToString(t.minute), 2, '0');
    Decimal.ValueOfTwoDigits(t.minute);
    ClockTextShape(hh, mm);
    hh + ":" + mm
  }

  lemma ClockTextShape(hh: string, mm: string)
    requires Decimal.AllDigits(hh) && 1 <= |hh| <= 2 && Decimal.AllDigits(mm) && |mm| == 2
    ensures var s := hh + ":" + mm;
            IsClockText(s) && s[..|s| - 3] == hh && s[|s| - 2..] == mm
  {
    var s := hh + ":" + mm;
    assert s[..|s| - 3] == hh && s[|s| - 2..] == mm;
  }

  /** The time line of an event's box: `H:MM ~ H:MM`, 11 to 13 characters. */
  function EventTimeText(e: EventItem): (s: string)
    ensures 11 <= |s| <= 13
    ensures |s| == 11 <==> e.startDate.hour < 10 && e.endDate.hour < 10
    ensures |s| == 13 <==> e.startDate.hour >= 10 && e.endDate.hour >= 10
  {
    ClockText(e.startDate) + " ~ " + ClockText(e.endDate)
  }

  /** Reads `H:MM` (one or more hour digits, a colon, exactly two minute digits). */
  function ParseClock(s: string): Option<(nat, nat)> {
    var h := BeforeFirst(s, ':');
    if h == [] || |h| == |s| || !Decimal.AllDigits(h) then None
    else
      var mm := s[|h| + 1..];
      if |mm| == 2 && Decimal.AllDigits(mm) then Some((Decimal.ValueOf(h), Decimal.ValueOf(mm)))
      else None
  }

  /** Reads `H:MM ~ H:MM` into start hour, start minute, end hour, end minute. */
  function ParseTimeText(s: string): Option<(nat, nat, nat, nat)> {
    var left := BeforeFirst(s, '~');
    if |left| == 0 || |left| + 1 >= |s| || left[|left| - 1] != ' ' || s[|left| + 1] != ' ' then None
    else
      match (ParseClock(left[..|left| - 1]), ParseClock(s[|left| + 2..]))
      case (Some((sh, sm)), Some((eh, em))) => Some((sh, sm, eh, em))
      case _ => None
  }

  lemma ParseClockOfJoin(hh: string, mm: string)
    requires Decimal.AllDigits(hh) && |hh| >= 1 && Decimal.AllDigits(mm) && |mm| == 2
    ensures ParseClock(hh + ":" + mm) == Some((Decimal.ValueOf(hh), Decimal.ValueOf(mm)))
  {
    var s := hh + ":" + mm;
    assert s == hh + [':'] + mm;
    Decimal.NonDigitAbsent(hh, ':');
    BeforeFirstOfJoin(hh, ':', mm);
    assert s[|hh| + 1..] == mm;
  }

  lemma ParseClockText(t: Timestamp)
    ensures ParseClock(ClockText(t)) == Some((t.hour as nat, t.minute as nat))
  {
    var hh := Decimal.NatToString(t.hour);
    var mm := Decimal.PadStart(Decimal.NatToString(t.minute), 2, '0');
    assert ClockText(t) == hh + ":" + mm;
    Decimal.ValueOfTwoDigits(t.minute);
    ParseClockOfJoin(hh, mm);
    Decimal.ValueOfNatToString(t.hour);
  }

  /** No character but digits and ':' occurs in a clock text. */
  lemma ClockTextOnly(s: string, c: char)
    requires IsClockText(s) && c != ':' && !Decimal.IsDigit(c)
    ensures c !in s
  {
    forall i | 0 <= i < |s|
      ensures s[i] != c
    {
      if i < |s| - 3 {
        assert s[i] == s[..|s| - 3][i];
      } else if i > |s| - 3 {
        assert s[i] == s[|s| - 2..][i - (|s| - 2)];
      }
    }
  }

  lemma ParseTimeTextOfJoin(a: string, b: string, x: (nat, nat), y: (nat, nat))
    requires IsClockText(a) && ParseClock(a) == Some(x) && ParseClock(b) == Some(y)
    ensures ParseTimeText(a + " ~ " + b) == Some((x.0, x.1, y.0, y.1))
  {
    var s := a + " ~ " + b;
    ClockTextOnly(a, '~');
    assert '~' !in a + " ";
    assert s == (a + " ") + ['~'] + (" " + b);
    BeforeFirstOfJoin(a + " ", '~', " " + b);
    var left := BeforeFirst(s, '~');
    assert left == a + " ";
    assert left[..|left| - 1] == a;
    assert s[|left| + 2..] == b;
  }

  /** The time text of an event reads back as its start and end hours and minutes. */
  lemma TimeTextRoundTrip(e: EventItem)
    ensures ParseTimeText(EventTimeText(e)) ==
            Some((e.startDate.hour as nat, e.startDate.minute as nat,
                  e.endDate.hour as nat, e.endDate.minute as nat))
  {
    ParseClockText(e.startDate);
    ParseClockText(e.endDate);
    ParseTimeTextOfJoin(ClockText(e.startDate), ClockText(e.endDate),
      (e.startDate.hour as nat, e.startDate.minute as nat),
      (e.endDate.hour as nat, e.endDate.minute as nat));
  }

  /** Two events show the same time text exactly when their hours and minutes agree. */
  lemma TimeTextInjective(e1: EventItem, e2: EventItem)
    requires EventTimeText(e1) == EventTimeText(e2)
    ensures e1.startDate.hour == e2.startDate.hour && e1.startDate.minute == e2.startDate.minute
    ensures e1.endDate.hour == e2.endDate.hour && e1.endDate.minute == e2.endDate.minute
  {
    TimeTextRoundTrip(e1);
    TimeTextRoundTrip(e2);
  }

  /** One rendered event box. */
  datatype EventBox = EventBox(
    top: int,
    height: int,
    backgroundColor: string,
    title: string,
    location: Option<string>,
    times: string,
    memo: Option<string>)

  /** The geometry and text `renderEvents` gives each event, in the order of `events`. */
  function RenderEvents(events: seq<EventItem>): (r: seq<EventBox>)
    ensures |r| == |events|
    ensures forall i :: 0 <= i < |r| ==>
      r[i].top == Offset(events[i].startDate) &&
      r[i].top + r[i].height == Offset(events[i].endDate) &&
      r[i].backgroundColor != "" && r[i].backgroundColor == EventColor(events[i]) &&
      r[i].title == events[i].title && r[i].times == EventTimeText(events[i]) &&
      r[i].location == events[i].location && r[i].memo == events[i].memo
  {
    seq(|events|, i requires 0 <= i < |events| =>
      var e := events[i];
      EventBox(EventTop(e), EventHeight(e), EventColor(e), e.title, e.location, EventTimeText(e), e.memo))
  }

  /** Label of hour block `hour`: `0H:00` below ten, `HH:00` otherwise. */
  function TimeLabel(hour: nat): (s: string)
    requires hour < HOURS_PER_DAY
    ensures |s| == 5 && s[2..] == ":00"
    ensures Decimal.AllDigits(s[..2]) && Decimal.ValueOf(s[..2]) == hour
  {
    TimeLabelDigits(hour);
    Decimal.ValueOfTwo(Decimal.DigitChar(hour / 10), Decimal.DigitChar(hour % 10));
    if hour < 10 then "0" + Decimal.NatToString(hour) + ":00" else Decimal.NatToString(hour) + ":00"
  }

  lemma TimeLabelDigits(hour: nat)
    requires hour < HOURS_PER_DAY
    ensures (if hour < 10 then "0" + Decimal.NatToString(hour) + ":00" else Decimal.NatToString(hour) + ":00")
            == [Decimal.DigitChar(hour / 10), Decimal.DigitChar(hour % 10), ':', '0', '0']
  {
    if hour >= 10 {
      assert Decimal.NatToString(hour) == Decimal.NatToString(hour / 10) + [Decimal.DigitChar(hour % 10)];
    }
  }

  /** `renderTimeLabels`: the 24 labels, top to bottom. */
  function TimeLabels(): (r: seq<string>)
    ensures |r| == HOURS_PER_DAY
    ensures forall h :: 0 <= h < HOURS_PER_DAY ==> r[h] == TimeLabel(h)
  {
    seq(HOURS_PER_DAY, h requires 0 <= h < HOURS_PER_DAY => TimeLabel(h))
  }

  /** The labels are strictly increasing as strings, so in particular pairwise distinct keys. */
  lemma TimeLabelsIncreasing(i: nat, j: nat)
    requires i < j < HOURS_PER_DAY
    ensures LexLess(TimeLabels()[i], TimeLabels()[j])
    ensures TimeLabels()[i] != TimeLabels()[j]
  {
    TimeLabelLess(i, j);
  }

  lemma TimeLabelLess(i: nat, j: nat)
    requires i < j < HOURS_PER_DAY
    ensures LexLess(TimeLabel(i), TimeLabel(j))
  {
    TimeLabelDigits(i);
    TimeLabelDigits(j);
    var a := [Decimal.DigitChar(i / 10), Decimal.DigitChar(i % 10), ':', '0', '0'];
    var b := [Decimal.DigitChar(j / 10), Decimal.DigitChar(j % 10), ':', '0', '0'];
    assert TimeLabel(i) == a && TimeLabel(j) == b;
    if i / 10 < j / 10 {
      Decimal.DigitCharMonotone(i / 10, j / 10);
    } else {
      Decimal.DigitCharMonotone(i % 10, j % 10);
      assert a[1..][0] < b[1..][0];
      assert LexLess(a[1..], b[1..]);
    }
  }

  /** One horizontal hour line: its React key and its top offset. */
  datatype HourLine = HourLine(key: string, top: int)

  /** Top of hour line `index`: the start of the `index`-th block of HOUR_HEIGHT pixels. */
  function HourLineTop(index: int): (y: int)
    ensures y / HOUR_HEIGHT == index && y % HOUR_HEIGHT == 0
  {
    index * HOUR_HEIGHT
  }

  /** `renderHourLines`: a line at the top of every hour block. */
  function HourLines(): (r: seq<HourLine>)
    ensures |r| == HOURS_PER_DAY
    ensures forall i :: 0 <= i < HOURS_PER_DAY ==> r[i].key == "line-" + Decimal.NatToString(i)
  {
    seq(HOURS_PER_DAY, i requires 0 <= i < HOURS_PER_DAY =>
      HourLine("line-" + Decimal.NatToString(i), HourLineTop(i)))
  }

  /**
    Hour line i lies at i * HOUR_HEIGHT, which is where label block i begins (the blocks before
    it are HOUR_HEIGHT tall each) and where a time of i:00 is placed. The line keys are distinct.
   */
  lemma HourLinesAlign(i: nat, j: nat, t: Timestamp)
    requires i < HOURS_PER_DAY && j < HOURS_PER_DAY
    ensures HourLines()[i].top == i * HOUR_HEIGHT
    ensures t.hour == i && t.minute == 0 ==> HourLines()[i].top == Offset(t)
    ensures i != j ==> HourLines()[i].key != HourLines()[j].key
  {
    var pre := "line-";
    if HourLines()[i].key == HourLines()[j].key {
      assert Decimal.NatToString(i) == HourLines()[i].key[|pre|..];
      assert Decimal.NatToString(j) == HourLines()[j].key[|pre|..];
      Decimal.NatToStringInjective(i, j);
    }
  }

  /** Top of the current-time line: its midpoint is on the offset. */
  function IndicatorLineTop(offset: int): (y: int)
    ensures 2 * y + LINE_THICKNESS == 2 * offset
  {
    offset - LINE_THICKNESS / 2
  }

  /** Top of the current-time circle: its centre is on the offset. */
  function IndicatorCircleTop(offset: int): (y: int)
    ensures 2 * y + CIRCLE_DIAMETER == 2 * offset
  {
    offset - CIRCLE_DIAMETER / 2
  }

  /** The line and the circle of the indicator share their centre, the current-time offset. */
  lemma IndicatorCentred(now: Timestamp)
    ensures var y := CurrentTimeOffset(now);
            IndicatorLineTop(y) + LINE_THICKNESS / 2 == IndicatorCircleTop(y) + CIRCLE_DIAMETER / 2 == y
    ensures IndicatorLineTop(CurrentTimeOffset(now)) == CurrentTimeOffset(now) - 1
    ensures IndicatorCircleTop(CurrentTimeOffset(now)) == CurrentTimeOffset(now) - 6
  {
  }
}
