/**
 * The chronology validator of the tracking editor: dates and clock times of
 * a timeline must not go backwards from one milestone to the next.
 */
module Chronology {
  import opened Wrappers
  import opened Strings
  import opened Orders
  import TimelineEngine

  // ---------------------------------------------------------------------
  // The two unanchored patterns `\d{4}-\d{2}-\d{2}` and `\d{2}:\d{2}`
  // ---------------------------------------------------------------------

  predicate DateAt(s: string, k: int) {
    && 0 <= k && k + 10 <= |s|
    && IsDigit(s[k]) && IsDigit(s[k + 1]) && IsDigit(s[k + 2]) && IsDigit(s[k + 3])
    && s[k + 4] == '-' && IsDigit(s[k + 5]) && IsDigit(s[k + 6])
    && s[k + 7] == '-' && IsDigit(s[k + 8]) && IsDigit(s[k + 9])
  }

  /** The string contains a `YYYY-MM-DD` shaped substring somewhere. */
  predicate HasDatePattern(s: string) {
    exists k :: 0 <= k <= |s| - 10 && DateAt(s, k)
  }

  predicate ClockAt(s: string, k: int) {
    && 0 <= k && k + 5 <= |s|
    && IsDigit(s[k]) && IsDigit(s[k + 1]) && s[k + 2] == ':' && IsDigit(s[k + 3]) && IsDigit(s[k + 4])
  }

  /** The string contains an `HH:MM` shaped substring somewhere. */
  predicate HasClockPattern(s: string) {
    exists k :: 0 <= k <= |s| - 5 && ClockAt(s, k)
  }

  /** The combined date-time a milestone is compared by; `HH:MM` gains `:00`. */
  function DateTime(date: string, time: string): string {
    date + DateTail(time)
  }

  function DateTail(time: string): string {
    "T" + (if |time| == 5 then time + ":00" else time)
  }

  // ---------------------------------------------------------------------
  // The specification: marks carried along the timeline, and violations
  // ---------------------------------------------------------------------

  /** The last well-formed date and the last combined date-time seen so far. */
  datatype Marks = Marks(lastDate: Option<string>, lastDateTime: Option<string>)

  datatype Regression = DateRegression | TimeRegression

  /** The regression milestone `e` shows against the marks of the milestones before it. */
  function Violation(m: Marks, e: Milestone): Option<Regression> {
    if !HasDatePattern(e.date) then None
    else if m.lastDate.Some? && Less(e.date, m.lastDate.value) then Some(DateRegression)
    else if HasClockPattern(e.time) && m.lastDateTime.Some?
            && Less(DateTime(e.date, e.time), m.lastDateTime.value) then Some(TimeRegression)
    else None
  }

  /** The marks once milestone `e` has been accepted. */
  function Advance(m: Marks, e: Milestone): Marks {
    if !HasDatePattern(e.date) then m
    else Marks(Some(e.date),
               if HasClockPattern(e.time) then Some(DateTime(e.date, e.time)) else m.lastDateTime)
  }

  /** The marks after the first `n` milestones. */
  function MarksAfter(tl: Timeline, n: nat): Marks
    requires n <= |tl|
  {
    if n == 0 then Marks(None, None) else Advance(MarksAfter(tl, n - 1), tl[n - 1])
  }

  function ViolationAt(tl: Timeline, i: nat): Option<Regression>
    requires i < |tl|
  {
    Violation(MarksAfter(tl, i), tl[i])
  }

  /** The validator's verdict; `index` is 0-based and the message names step index+1. */
  datatype Validation = Ok | Fail(index: nat, message: string)

  /** The word of the message that says what regressed. */
  function RegressionWord(kind: Regression): string {
    match kind
    case DateRegression => "fecha"
    case TimeRegression => "hora"
  }

  /** `La fecha del paso N es anterior a un paso previo`, or `La hora ...`, with N = index + 1. */
  function Message(kind: Regression, index: nat): string {
    "La " + RegressionWord(kind) + " del paso " + NatToString(index + 1) + " es anterior a un paso previo"
  }

  /** The verdict on the milestones from `n` on, reporting the first violation. */
  function ValidateFrom(tl: Timeline, n: nat): (r: Validation)
    requires n <= |tl|
    ensures r.Ok? <==> forall i :: n <= i < |tl| ==> ViolationAt(tl, i).None?
    ensures r.Fail? ==>
      && n <= r.index < |tl|
      && ViolationAt(tl, r.index).Some?
      && r.message == Message(ViolationAt(tl, r.index).value, r.index)
      && forall j :: n <= j < r.index ==> ViolationAt(tl, j).None?
    decreases |tl| - n
  {
    if n == |tl| then Ok
    else match ViolationAt(tl, n)
      case Some(kind) => Fail(n, Message(kind, n))
      case None => ValidateFrom(tl, n + 1)
  }

  /**
   * The verdict on a whole timeline: ok exactly when no milestone regresses;
   * otherwise the first regressing milestone, within the timeline.
   */
  function Validate(tl: Timeline): (r: Validation)
    ensures r.Ok? <==> forall i :: 0 <= i < |tl| ==> ViolationAt(tl, i).None?
    ensures r.Fail? ==>
      && r.index < |tl|
      && ViolationAt(tl, r.index).Some?
      && r.message == Message(ViolationAt(tl, r.index).value, r.index)
      && forall j :: 0 <= j < r.index ==> ViolationAt(tl, j).None?
  {
    ValidateFrom(tl, 0)
  }

  // ---------------------------------------------------------------------
  // The validator as the source runs it: one pass with two running marks
  // ---------------------------------------------------------------------

  method ValidateTimelineChronology(tl: Timeline) returns (v: Validation)
    ensures v == Validate(tl)
  {
    var lastDate: Option<string> := None;
    var lastDateTime: Option<string> := None;
    for i := 0 to |tl|
      invariant Marks(lastDate, lastDateTime) == MarksAfter(tl, i)
      invariant ValidateFrom(tl, i) == Validate(tl)
    {
      var d := tl[i].date;
      var time := tl[i].time;
      if d != "" && HasDatePattern(d) {
        if lastDate.Some? && Less(d, lastDate.value) {
          return Fail(i, Message(DateRegression, i));
        }
        lastDate := Some(d);
        if time != "" && HasClockPattern(time) {
          var currentDT := d + "T" + (if |time| == 5 then time + ":00" else time);
          assert currentDT == DateTime(d, time);
          if lastDateTime.Some? && Less(currentDT, lastDateTime.value) {
            return Fail(i, Message(TimeRegression, i));
          }
          lastDateTime := Some(currentDT);
        }
      }
    }
    return Ok;
  }

  // ---------------------------------------------------------------------
  // Properties
  // ---------------------------------------------------------------------

  lemma {:induction false} MarksAfterPrefix(tl: Timeline, n: nat, m: nat)
    requires m <= n <= |tl|
    ensures MarksAfter(tl[..n], m) == MarksAfter(tl, m)
    decreases m
  {
    if m > 0 {
      MarksAfterPrefix(tl, n, m - 1);
      assert tl[..n][m - 1] == tl[m - 1];
    }
  }

  /** Everything before the reported milestone passes the validator. */
  lemma FailurePrefixIsValid(tl: Timeline)
    requires Validate(tl).Fail?
    ensures Validate(tl[..Validate(tl).index]) == Ok
  {
    var i := Validate(tl).index;
    forall j | 0 <= j < i
      ensures ViolationAt(tl[..i], j).None?
    {
      MarksAfterPrefix(tl, i, j);
      assert tl[..i][j] == tl[j];
      assert ViolationAt(tl[..i], j) == ViolationAt(tl, j);
      assert ViolationAt(tl, j).None?;
    }
  }

  /** A date regression is reported with a "fecha" message, a time regression with "hora"; both name step index+1. */
  lemma MessageWording(kind: Regression, index: nat)
    ensures Contains(Message(kind, index), NatToString(index + 1))
    ensures Contains(Message(kind, index), RegressionWord(kind))
    ensures RegressionWord(DateRegression) == "fecha" && RegressionWord(TimeRegression) == "hora"
  {
    var w, n := RegressionWord(kind), NatToString(index + 1);
    var tail := " es anterior a un paso previo";
    ContainsSuffix("La ", w);
    ContainsExtend("La " + w, w, " del paso ");
    ContainsExtend("La " + w + " del paso ", w, n);
    ContainsExtend("La " + w + " del paso " + n, w, tail);
    ContainsSuffix("La " + w + " del paso ", n);
    ContainsExtend("La " + w + " del paso " + n, n, tail);
  }

  /**
   * A milestone whose date has no `YYYY-MM-DD` shape is skipped: it neither
   * fails nor moves the marks. A time without an `HH:MM` shape, such as
   * `Estimado`, is never compared and leaves the last date-time in place.
   */
  lemma SkippedFields(m: Marks, e: Milestone)
    ensures !HasDatePattern(e.date) ==> Violation(m, e).None? && Advance(m, e) == m
    ensures !HasClockPattern(e.time) ==>
      Violation(m, e) != Some(TimeRegression) && Advance(m, e).lastDateTime == m.lastDateTime
  {
  }

  /** A timeline with no date-like field always passes. */
  lemma NoDatesIsValid(tl: Timeline)
    requires forall i :: 0 <= i < |tl| ==> !HasDatePattern(tl[i].date)
    ensures Validate(tl) == Ok
  {
  }

  lemma EstimadoIsNoClock()
    ensures !HasClockPattern("Estimado")
  {
    forall k | 0 <= k <= 3 ensures !ClockAt("Estimado", k) {
      assert !IsDigit("Estimado"[k + 1]);
    }
  }

  lemma BuiltClocks(d0: string, d1: string)
    ensures HasClockPattern("09:00") && HasClockPattern("14:15") && HasClockPattern("11:45")
    ensures DateTime(d0, "09:00") == d0 + "T09:00:00"
    ensures DateTime(d0, "14:15") == d0 + "T14:15:00"
    ensures DateTime(d1, "11:45") == d1 + "T11:45:00"
  {
    assert ClockAt("09:00", 0) && ClockAt("14:15", 0) && ClockAt("11:45", 0);
    assert "T" + ("09:00" + ":00") == "T09:00:00";
    assert "T" + ("14:15" + ":00") == "T14:15:00";
    assert "T" + ("11:45" + ":00") == "T11:45:00";
  }

  /** The combined date-times of the first three built stages increase. */
  lemma BuiltDateTimesIncrease(d0: string, d1: string)
    requires |d0| == |d1| && Less(d0, d1)
    ensures !Less(d0 + "T14:15:00", d0 + "T09:00:00")
    ensures !Less(d1 + "T11:45:00", d0 + "T14:15:00")
  {
    LessCommonPrefix(d0, "T14:15:00", "T09:00:00");
    assert !Less("T14:15:00", "T09:00:00");
    LessSameLengthAppend(d0, d1, "T14:15:00", "T11:45:00");
    LessAsymmetric(d0 + "T14:15:00", d1 + "T11:45:00");
  }

  /**
   * The default timeline passes the validator whenever the calendar gives
   * ISO dates of one length that increase with the day offset.
   */
  lemma BuiltTimelineIsChronological(o: Order, addDays: Calendar)
    requires HasDatePattern(addDays(o.date, 0)) && HasDatePattern(addDays(o.date, 1))
    requires HasDatePattern(addDays(o.date, 2))
    requires |addDays(o.date, 0)| == |addDays(o.date, 1)|
    requires Less(addDays(o.date, 0), addDays(o.date, 1))
    requires Less(addDays(o.date, 1), addDays(o.date, 2))
    ensures Validate(TimelineEngine.BuildInitialTimeline(o, addDays)) == Ok
  {
    var tl := TimelineEngine.BuildInitialTimeline(o, addDays);
    var d0, d1, d2 := addDays(o.date, 0), addDays(o.date, 1), addDays(o.date, 2);
    BuiltClocks(d0, d1);
    EstimadoIsNoClock();
    BuiltDateTimesIncrease(d0, d1);
    LessIrreflexive(d0);
    LessIrreflexive(d2);
    LessAsymmetric(d0, d1);
    LessAsymmetric(d1, d2);
    var t0, t1, t2 := d0 + "T09:00:00", d0 + "T14:15:00", d1 + "T11:45:00";
    var m1 := Marks(Some(d0), Some(t0));
    var m2 := Marks(Some(d0), Some(t1));
    var m3 := Marks(Some(d1), Some(t2));
    var m4 := Marks(Some(d2), Some(t2));
    assert MarksAfter(tl, 1) == m1;
    assert MarksAfter(tl, 2) == m2;
    assert MarksAfter(tl, 3) == m3;
    assert MarksAfter(tl, 4) == m4;
    assert ViolationAt(tl, 0).None?;
    assert ViolationAt(tl, 1).None?;
    assert ViolationAt(tl, 2).None?;
    assert ViolationAt(tl, 3).None?;
    assert ViolationAt(tl, 4).None?;
  }

  /**
   * The failure index is 0-based: when the third milestone is dated before
   * the second, the validator reports index 2 and a date message naming step 3.
   */
  lemma ThirdStepDateRegression(a: Milestone, b: Milestone, c: Milestone)
    requires HasDatePattern(a.date) && HasDatePattern(b.date) && HasDatePattern(c.date)
    requires |a.date| == |b.date| && Less(a.date, b.date) && Less(c.date, b.date)
    ensures Validate([a, b, c]) == Fail(2, Message(DateRegression, 2))
    ensures NatToString(2 + 1) == "3"
  {
    var tl := [a, b, c];
    LessAsymmetric(a.date, b.date);
    if HasClockPattern(a.time) && HasClockPattern(b.time) {
      LessSameLengthAppend(a.date, b.date, DateTail(a.time), DateTail(b.time));
      LessAsymmetric(DateTime(a.date, a.time), DateTime(b.date, b.time));
    }
    assert ViolationAt(tl, 0).None?;
    assert ViolationAt(tl, 1).None?;
    assert MarksAfter(tl, 2).lastDate == Some(b.date);
    assert ViolationAt(tl, 2) == Some(DateRegression);
    assert NatToString(3) == "3" by {
      assert DigitChar(3) == '3';
    }
  }

  /** "Not before" is transitive on the validator's string order. */
  lemma NotBeforeTransitive(a: string, b: string, c: string)
    requires !Less(b, a) && !Less(c, b)
    ensures !Less(c, a)
  {
    LessTrichotomy(a, b);
    if Less(c, a) && Less(a, b) {
      LessTransitive(c, a, b);
    }
  }

  /** The date mark after an accepted prefix is not before any well-formed date of that prefix. */
  lemma {:induction false} MarksDominate(tl: Timeline, n: nat)
    requires n <= |tl|
    requires forall i :: 0 <= i < n ==> ViolationAt(tl, i).None?
    ensures forall i :: 0 <= i < n && HasDatePattern(tl[i].date) ==>
      MarksAfter(tl, n).lastDate.Some? && !Less(MarksAfter(tl, n).lastDate.value, tl[i].date)
  {
    if n > 0 {
      MarksDominate(tl, n - 1);
      var m := MarksAfter(tl, n - 1);
      var e := tl[n - 1];
      if HasDatePattern(e.date) {
        LessIrreflexive(e.date);
        forall i | 0 <= i < n - 1 && HasDatePattern(tl[i].date)
          ensures !Less(e.date, tl[i].date)
        {
          assert ViolationAt(tl, n - 1).None?;
          NotBeforeTransitive(tl[i].date, m.lastDate.value, e.date);
        }
      }
    }
  }

  /**
   * What a passing timeline means without the running marks: no well-formed
   * date comes before the well-formed date of any earlier milestone.
   */
  lemma ValidDatesNeverRegress(tl: Timeline)
    requires Validate(tl) == Ok
    ensures forall i, j :: 0 <= i < j < |tl| && HasDatePattern(tl[i].date) && HasDatePattern(tl[j].date) ==>
      !Less(tl[j].date, tl[i].date)
  {
    forall i, j | 0 <= i < j < |tl| && HasDatePattern(tl[i].date) && HasDatePattern(tl[j].date)
      ensures !Less(tl[j].date, tl[i].date)
    {
      MarksDominate(tl, j);
      assert ViolationAt(tl, j).None?;
      NotBeforeTransitive(tl[i].date, MarksAfter(tl, j).lastDate.value, tl[j].date);
    }
  }
}
