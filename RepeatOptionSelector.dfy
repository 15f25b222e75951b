/**
  The repeat-rule picker (components/RepeatOptionSelector.tsx): which rule is chosen
  (매일 daily, 매주 weekly, 매월 monthly), the weekdays ticked for a weekly rule and the
  calendar dates marked for a monthly one, with the handlers that change them, the payload
  handed to `onComplete`, and what is drawn for each rule.
 */
module RepeatOptionSelector {
  import opened Text
  import EventTypes

  const DAILY := "매일"
  const WEEKLY := "매주"
  const MONTHLY := "매월"
  const OPTIONS: seq<string> := [DAILY, WEEKLY, MONTHLY]
  const WEEKDAYS: seq<string> := ["월", "화", "수", "목", "금", "토", "일"]
  const DAILY_TEXT := "매일 반복됩니다."

  /** The three option buttons are, in order, the names of the three repeat kinds of an event. */
  lemma OptionsAreRepeatKinds()
    ensures OPTIONS == [EventTypes.RepeatTypeName(EventTypes.Daily),
                        EventTypes.RepeatTypeName(EventTypes.Weekly),
                        EventTypes.RepeatTypeName(EventTypes.Monthly)]
    ensures forall k :: EventTypes.RepeatTypeName(k) in OPTIONS
  {
  }

  /** The marking object stored for a selected date. */
  datatype DateMark = DateMark(selected: bool, marked: bool, selectedColor: string)

  const SELECTED_MARK := DateMark(true, true, "#000")

  /**
    `s.filter(d => d !== x)`: every occurrence of `x` dropped, every other element kept as
    often as before and in its order.
   */
  function RemoveAll(s: seq<string>, x: string): (r: seq<string>)
    ensures forall y :: y in r <==> y in s && y != x
    ensures forall y :: y != x ==> Count(r, y) == Count(s, y)
    ensures IsSubsequence(r, s)
  {
    if s == [] then []
    else
      var rest := RemoveAll(s[1..], x);
      if s[0] == x then
        assert rest != [] ==> rest[0] in rest;
        rest
      else
        assert ([s[0]] + rest)[1..] == rest;
        [s[0]] + rest
  }

  lemma {:induction false} RemoveAllAbsent(s: seq<string>, x: string)
    requires x !in s
    ensures RemoveAll(s, x) == s
  {
    if s != [] {
      RemoveAllAbsent(s[1..], x);
      assert [s[0]] + s[1..] == s;
    }
  }

  lemma {:induction false} RemoveAllConcat(a: seq<string>, b: seq<string>, x: string)
    ensures RemoveAll(a + b, x) == RemoveAll(a, x) + RemoveAll(b, x)
  {
    if a != [] {
      assert (a + b)[1..] == a[1..] + b;
      RemoveAllConcat(a[1..], b, x);
    } else {
      assert a + b == b;
    }
  }

  lemma {:induction false} RemoveAllNoDup(s: seq<string>, x: string)
    requires NoDup(s)
    ensures NoDup(RemoveAll(s, x))
  {
    if s != [] {
      RemoveAllNoDup(s[1..], x);
      var rest := RemoveAll(s[1..], x);
      assert s[0] !in s[1..] by {
        forall j | 0 <= j < |s[1..]| ensures s[1..][j] != s[0] {
          assert s[j + 1] != s[0];
        }
      }
      if s[0] != x {
        var r := [s[0]] + rest;
        forall i, j | 0 <= i < j < |r| ensures r[i] != r[j] {
          if i == 0 {
            assert r[j] == rest[j - 1];
          } else {
            assert r[i] == rest[i - 1] && r[j] == rest[j - 1];
          }
        }
      }
    }
  }

  /**
    `toggleDay`'s state update: an absent day is appended at the end; a present day is removed
    wherever it occurs, the other days keeping their order.
   */
  function ToggledDays(prev: seq<string>, day: string): (r: seq<string>)
    ensures day in r <==> day !in prev
    ensures forall d :: d != day ==> (d in r <==> d in prev)
    ensures day !in prev ==> r == prev + [day]
    ensures day in prev ==> IsSubsequence(r, prev) && forall d :: d != day ==> Count(r, d) == Count(prev, d)
  {
    if day in prev then RemoveAll(prev, day) else prev + [day]
  }

  /** A list of days without repetitions stays so. */
  lemma ToggleDayKeepsNoDup(prev: seq<string>, day: string)
    requires NoDup(prev)
    ensures NoDup(ToggledDays(prev, day))
  {
    if day in prev {
      RemoveAllNoDup(prev, day);
    }
  }

  /** Ticking a day twice, when it was not ticked, restores the list. */
  lemma ToggleDayTwiceAbsent(prev: seq<string>, day: string)
    requires day !in prev
    ensures ToggledDays(ToggledDays(prev, day), day) == prev
  {
    RemoveAllConcat(prev, [day], day);
    RemoveAllAbsent(prev, day);
    assert RemoveAll([day], day) == [];
  }

  /**
    Unticking and re-ticking a day restores the set of days, but moves that day to the end:
    the list is restored only when the day was already last.
   */
  lemma ToggleDayTwicePresent(prev: seq<string>, day: string)
    requires NoDup(prev) && day in prev
    ensures forall d :: d in ToggledDays(ToggledDays(prev, day), day) <==> d in prev
    ensures ToggledDays(ToggledDays(prev, day), day) == RemoveAll(prev, day) + [day]
    ensures ToggledDays(ToggledDays(prev, day), day) == prev <==> prev[|prev| - 1] == day
  {
    var once := RemoveAll(prev, day);
    assert ToggledDays(prev, day) == once && day !in once;
    var twice := once + [day];
    assert ToggledDays(once, day) == twice;
    if prev[|prev| - 1] == day {
      RemoveLastDay(prev, day);
    } else {
      assert twice[|twice| - 1] == day;
    }
  }

  lemma RemoveLastDay(prev: seq<string>, day: string)
    requires NoDup(prev) && |prev| > 0 && prev[|prev| - 1] == day
    ensures RemoveAll(prev, day) + [day] == prev
  {
    var n := |prev|;
    assert prev == prev[..n - 1] + [day];
    assert day !in prev[..n - 1] by {
      forall i | 0 <= i < n - 1 ensures prev[i] != day {
        assert prev[i] != prev[n - 1];
      }
    }
    RemoveAllConcat(prev[..n - 1], [day], day);
    RemoveAllAbsent(prev[..n - 1], day);
    assert RemoveAll([day], day) == [];
  }

  /** For instance, with 월 and 화 ticked, unticking and re-ticking 월 gives 화, 월. */
  lemma ToggleDayReorders()
    ensures ToggledDays(ToggledDays(["월", "화"], "월"), "월") == ["화", "월"]
  {
    assert "월" != "화";
    assert ["월", "화"][1..] == ["화"];
    assert RemoveAll(["월", "화"], "월") == ["화"];
  }

  /** Every stored date carries the selected-date mark: the only value `toggleDate` writes. */
  ghost predicate AllMarked(dates: map<string, DateMark>) {
    forall k :: k in dates ==> dates[k] == SELECTED_MARK
  }

  /**
    `toggleDate`'s state update: a marked date is unmarked, an unmarked one is marked; every
    other date keeps its membership and its mark.
   */
  function ToggledDates(prev: map<string, DateMark>, date: string): (r: map<string, DateMark>)
    ensures date in r <==> date !in prev
    ensures date in r ==> r[date] == SELECTED_MARK
    ensures forall k :: k != date ==> (k in r <==> k in prev)
    ensures forall k :: k != date && k in r ==> r[k] == prev[k]
    ensures AllMarked(prev) ==> AllMarked(r)
  {
    if date in prev then prev - {date} else prev[date := SELECTED_MARK]
  }

  /** Toggling a date twice restores the set of dates, and the whole map when all marks are the usual one. */
  lemma ToggleDateTwice(prev: map<string, DateMark>, date: string)
    ensures ToggledDates(ToggledDates(prev, date), date).Keys == prev.Keys
    ensures AllMarked(prev) ==> ToggledDates(ToggledDates(prev, date), date) == prev
  {
    var twice := ToggledDates(ToggledDates(prev, date), date);
    assert twice.Keys == prev.Keys;
  }

  /** One weekday box of the weekly grid. */
  datatype DayCell = DayCell(day: string, selected: bool)

  /** What `renderContent` draws below the option buttons. */
  datatype Content =
    | DailyText(text: string)
    | WeeklyGrid(cells: seq<DayCell>)
    | MonthlyCalendar(markedDates: map<string, DateMark>)
    | NoContent

  function WeekdayCells(days: seq<string>): (cells: seq<DayCell>)
    ensures |cells| == |WEEKDAYS|
    ensures forall i :: 0 <= i < |cells| ==>
      cells[i].day == WEEKDAYS[i] && (cells[i].selected <==> WEEKDAYS[i] in days)
  {
    seq(|WEEKDAYS|, i requires 0 <= i < |WEEKDAYS| => DayCell(WEEKDAYS[i], WEEKDAYS[i] in days))
  }

  /** `renderContent`: text for 매일, the weekday grid for 매주, the calendar for 매월, nothing otherwise. */
  function RenderContent(option: string, days: seq<string>, dates: map<string, DateMark>): (c: Content)
    ensures option == DAILY <==> c == DailyText(DAILY_TEXT)
    ensures option == WEEKLY <==> c.WeeklyGrid?
    ensures option == MONTHLY <==> c == MonthlyCalendar(dates)
    ensures option !in OPTIONS <==> c == NoContent
    ensures c.WeeklyGrid? ==>
      (|c.cells| == 7 &&
       forall i :: 0 <= i < 7 ==> c.cells[i].day == WEEKDAYS[i] && (c.cells[i].selected <==> WEEKDAYS[i] in days))
  {
    if option == DAILY then DailyText(DAILY_TEXT)
    else if option == WEEKLY then WeeklyGrid(WeekdayCells(days))
    else if option == MONTHLY then MonthlyCalendar(dates)
    else NoContent
  }

  /** One of the three option buttons: its label and whether it shows the check mark. */
  datatype OptionButton = OptionButton(caption: string, checked: bool)

  function OptionButtons(option: string): (r: seq<OptionButton>)
    ensures |r| == |OPTIONS|
    ensures forall i :: 0 <= i < |r| ==> r[i].caption == OPTIONS[i] && (r[i].checked <==> OPTIONS[i] == option)
  {
    seq(|OPTIONS|, i requires 0 <= i < |OPTIONS| => OptionButton(OPTIONS[i], OPTIONS[i] == option))
  }

  /** At most one button is checked, and one is exactly when the option is one of the three. */
  lemma OneButtonChecked(option: string)
    ensures forall i, j :: 0 <= i < j < 3 ==> !(OptionButtons(option)[i].checked && OptionButtons(option)[j].checked)
    ensures (exists i :: 0 <= i < 3 && OptionButtons(option)[i].checked) <==> option in OPTIONS
  {
    var b := OptionButtons(option);
    assert DAILY != WEEKLY && DAILY != MONTHLY && WEEKLY != MONTHLY;
    if option in OPTIONS {
      var i :| 0 <= i < 3 && OPTIONS[i] == option;
      assert b[i].checked;
    }
  }

  /** The payload of `onComplete`: the option, the ticked days and the marked dates. */
  datatype Selection = Selection(option: string, days: seq<string>, dates: set<string>)

  /** The picker's state, changed only through its handlers. */
  class Selector {
    var selectedOption: string
    var selectedDays: seq<string>
    var selectedDates: map<string, DateMark>

    ghost predicate Valid()
      reads this
    {
      NoDup(selectedDays) && AllMarked(selectedDates)
    }

    /** The initial state: 매일, no days, no dates. */
    constructor ()
      ensures Valid()
      ensures selectedOption == DAILY && selectedDays == [] && selectedDates == map[]
    {
      selectedOption := DAILY;
      selectedDays := [];
      selectedDates := map[];
    }

    method HandleOptionSelect(option: string)
      requires Valid()
      modifies this
      ensures Valid()
      ensures selectedOption == option
      ensures selectedDays == old(selectedDays) && selectedDates == old(selectedDates)
    {
      selectedOption := option;
    }

    method ToggleDay(day: string)
      requires Valid()
      modifies this
      ensures Valid()
      ensures selectedDays == ToggledDays(old(selectedDays), day)
      ensures selectedOption == old(selectedOption) && selectedDates == old(selectedDates)
    {
      ToggleDayKeepsNoDup(selectedDays, day);
      selectedDays := if day in selectedDays then RemoveAll(selectedDays, day) else selectedDays + [day];
    }

    /** Copies the dates, then deletes or adds the one date, and stores the copy. */
    method ToggleDate(date: string)
      requires Valid()
      modifies this
      ensures Valid()
      ensures selectedDates == ToggledDates(old(selectedDates), date)
      ensures selectedOption == old(selectedOption) && selectedDays == old(selectedDays)
    {
      var newDates := selectedDates;
      if date in newDates {
        newDates := newDates - {date};
      } else {
        newDates := newDates[date := SELECTED_MARK];
      }
      selectedDates := newDates;
    }

    /** What `onComplete` receives after every change of the state. */
    function Payload(): (p: Selection)
      reads this
      ensures p.option == selectedOption && p.days == selectedDays
      ensures forall d :: d in p.dates <==> d in selectedDates
    {
      Selection(selectedOption, selectedDays, selectedDates.Keys)
    }

    /** What is drawn below the buttons for the current state. */
    function Content(): (c: Content)
      reads this
      ensures selectedOption == DAILY ==> c == DailyText(DAILY_TEXT)
      ensures selectedOption == WEEKLY ==>
        c.WeeklyGrid? && |c.cells| == 7 &&
        forall i :: 0 <= i < 7 ==> (c.cells[i].selected <==> WEEKDAYS[i] in selectedDays)
      ensures selectedOption == MONTHLY ==> c == MonthlyCalendar(selectedDates)
      ensures selectedOption !in OPTIONS ==> c == NoContent
    {
      RenderContent(selectedOption, selectedDays, selectedDates)
    }

    /** What is ticked on screen is what the payload reports. */
    lemma PayloadMatchesContent()
      ensures Content().WeeklyGrid? ==>
        forall i :: 0 <= i < 7 ==> (Content().cells[i].selected <==> WEEKDAYS[i] in Payload().days)
      ensures Content().MonthlyCalendar? ==> Content().markedDates.Keys == Payload().dates
    {
    }
  }
}
