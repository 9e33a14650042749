/** utils.ts: the period-to-session mapping, the conflict checker, subject progress and
    the clock-based status resolver. */
module Utils {
  import opened Types
  import Seqs
  import Calendar

  // ----- getSessionFromPeriod -----

  /** Periods up to 5 are in the morning, 6..10 in the afternoon, later ones in the evening. */
  function GetSessionFromPeriod(startPeriod: int): (part: DayPart)
    ensures part == Morning <==> startPeriod <= 5
    ensures part == Afternoon <==> 5 < startPeriod <= 10
    ensures part == Evening <==> 10 < startPeriod
  {
    if startPeriod <= 5 then Morning
    else if startPeriod <= 10 then Afternoon
    else Evening
  }

  // ----- checkConflict -----

  datatype Reason =
    | RoomTaken(roomId: string)
    | TeacherBusy
    | ClassBusy
    | ClassHasExam
    | ClassHasLesson

  /** The { hasConflict, message } result of checkConflict. */
  datatype Verdict = NoConflict | Conflict(reason: Reason)
  {
    predicate HasConflict()
    {
      Conflict?
    }

    function Message(): string
    {
      match this
      case NoConflict => ""
      case Conflict(RoomTaken(room)) => "Trùng phòng học: " + room + " đã có lớp."
      case Conflict(TeacherBusy) => "Trùng giáo viên: GV này đang dạy lớp khác."
      case Conflict(ClassBusy) => "Trùng lịch học của lớp: Lớp này đang học môn khác."
      case Conflict(ClassHasExam) => "Lớp có lịch thi vào giờ này."
      case Conflict(ClassHasLesson) => "Lớp có lịch học vào giờ này."
    }
  }

  /** An existing item the checker passes over: the one being edited (an empty
      excludeId is JavaScript-falsy and excludes nothing) and cancelled sessions. */
  predicate Skipped(item: ScheduleItem, excludeId: string)
  {
    (excludeId != "" && item.id == excludeId) || item.status == Off
  }

  /** Half-open overlap of [start1, start1 + count1) and [start2, start2 + count2). */
  predicate Overlap(start1: int, count1: int, start2: int, count2: int)
  {
    start1 < start2 + count2 && start1 + count1 > start2
  }

  /** Same calendar day and overlapping periods. */
  predicate Clashes(d: Draft, item: ScheduleItem)
  {
    item.date == d.date && Overlap(d.startPeriod, d.periodCount, item.startPeriod, item.periodCount)
  }

  predicate SharesResource(d: Draft, item: ScheduleItem)
  {
    item.roomId == d.roomId || item.teacherId == d.teacherId || item.classId == d.classId
  }

  /** An existing item that makes the candidate conflict. */
  predicate Blocks(d: Draft, item: ScheduleItem, excludeId: string)
  {
    !Skipped(item, excludeId) && Clashes(d, item) && SharesResource(d, item)
  }

  /** Room is tested before teacher, teacher before class. */
  function ReasonFor(d: Draft, item: ScheduleItem): Reason
  {
    if item.roomId == d.roomId then RoomTaken(item.roomId)
    else if item.teacherId == d.teacherId then TeacherBusy
    else ClassBusy
  }

  /** checkConflict: scan the existing items in order and report the first clash. */
  function CheckConflict(d: Draft, items: seq<ScheduleItem>, excludeId: string): (v: Verdict)
    ensures v.HasConflict() <==> exists i :: 0 <= i < |items| && Blocks(d, items[i], excludeId)
    ensures v.Conflict? ==> !v.reason.ClassHasExam? && !v.reason.ClassHasLesson?
  {
    if items == [] then NoConflict
    else
      var item := items[0];
      var rest := CheckConflict(d, items[1..], excludeId);
      assert forall i :: 0 < i < |items| ==> items[i] == items[1..][i - 1];
      if !Skipped(item, excludeId) && item.date == d.date then
        if Overlap(d.startPeriod, d.periodCount, item.startPeriod, item.periodCount) then
          if item.roomId == d.roomId then Conflict(RoomTaken(item.roomId))
          else if item.teacherId == d.teacherId then Conflict(TeacherBusy)
          else if item.classId == d.classId then Conflict(ClassBusy)
          else if item.kind == Exam && d.kind == Lesson && item.classId == d.classId then Conflict(ClassHasExam)
          else if item.kind == Lesson && d.kind == Exam && item.classId == d.classId then Conflict(ClassHasLesson)
          else rest
        else rest
      else rest
  }

  /** The first blocking item in list order decides the verdict. */
  lemma {:induction false} FirstBlockerDecides(d: Draft, items: seq<ScheduleItem>, excludeId: string, i: int)
    requires 0 <= i < |items| && Blocks(d, items[i], excludeId)
    requires forall j :: 0 <= j < i ==> !Blocks(d, items[j], excludeId)
    ensures CheckConflict(d, items, excludeId) == Conflict(ReasonFor(d, items[i]))
  {
    if i > 0 {
      FirstBlockerDecides(d, items[1..], excludeId, i - 1);
    }
  }

  /** Only the items that are not skipped, fall on the same day and overlap matter:
      dropping all others (keep is that test) leaves the verdict unchanged. */
  lemma {:induction false} OnlyClashingItemsMatter(d: Draft, items: seq<ScheduleItem>, excludeId: string,
                                                   keep: ScheduleItem -> bool)
    requires forall it :: keep(it) == (!Skipped(it, excludeId) && Clashes(d, it))
    ensures CheckConflict(d, items, excludeId) == CheckConflict(d, Seqs.Filter(items, keep), excludeId)
  {
    if items != [] {
      var x := items[0];
      var tail := Seqs.Filter(items[1..], keep);
      OnlyClashingItemsMatter(d, items[1..], excludeId, keep);
      assert items == [x] + items[1..];
      if keep(x) {
        assert Seqs.Filter(items, keep) == [x] + tail;
        SameHeadSameVerdict(d, x, items[1..], excludeId, tail, excludeId);
      } else {
        assert Seqs.Filter(items, keep) == tail;
        IgnoredHead(d, x, items[1..], excludeId);
      }
    }
  }

  /** A head that is skipped or does not clash leaves the verdict to the rest. */
  lemma IgnoredHead(d: Draft, x: ScheduleItem, rest: seq<ScheduleItem>, excludeId: string)
    requires Skipped(x, excludeId) || !Clashes(d, x)
    ensures CheckConflict(d, [x] + rest, excludeId) == CheckConflict(d, rest, excludeId)
  {
    assert ([x] + rest)[0] == x && ([x] + rest)[1..] == rest;
  }

  /** Two scans that treat the head alike and agree on their tails agree. */
  lemma SameHeadSameVerdict(d: Draft, x: ScheduleItem, rest1: seq<ScheduleItem>, ex1: string,
                            rest2: seq<ScheduleItem>, ex2: string)
    requires Skipped(x, ex1) == Skipped(x, ex2)
    requires CheckConflict(d, rest1, ex1) == CheckConflict(d, rest2, ex2)
    ensures CheckConflict(d, [x] + rest1, ex1) == CheckConflict(d, [x] + rest2, ex2)
  {
    assert ([x] + rest1)[0] == x && ([x] + rest1)[1..] == rest1;
    assert ([x] + rest2)[0] == x && ([x] + rest2)[1..] == rest2;
  }

  /** Passing an id to exclude is the same as checking against the list without the
      items that carry that id. */
  lemma {:induction false} ExcludingIsRemoving(d: Draft, items: seq<ScheduleItem>, excludeId: string,
                                               keep: ScheduleItem -> bool)
    requires excludeId != ""
    requires forall it :: keep(it) == (it.id != excludeId)
    ensures CheckConflict(d, items, excludeId) == CheckConflict(d, Seqs.Filter(items, keep), "")
  {
    if items != [] {
      var x := items[0];
      var tail := Seqs.Filter(items[1..], keep);
      ExcludingIsRemoving(d, items[1..], excludeId, keep);
      assert items == [x] + items[1..];
      if keep(x) {
        assert Seqs.Filter(items, keep) == [x] + tail;
        SameHeadSameVerdict(d, x, items[1..], excludeId, tail, "");
      } else {
        assert Seqs.Filter(items, keep) == tail;
        IgnoredHead(d, x, items[1..], excludeId);
      }
    }
  }

  /** Placing a before b conflicts exactly when placing b before a does. */
  lemma ConflictSymmetric(a: Draft, b: Draft, idA: string, idB: string, statusA: ScheduleStatus, statusB: ScheduleStatus)
    requires statusA != Off && statusB != Off
    ensures CheckConflict(a, [Stamp(b, idB, statusB)], "").HasConflict()
        <==> CheckConflict(b, [Stamp(a, idA, statusA)], "").HasConflict()
  {
    assert [Stamp(b, idB, statusB)][0] == Stamp(b, idB, statusB);
    assert [Stamp(a, idA, statusA)][0] == Stamp(a, idA, statusA);
  }

  /** Blocks that only touch (one ends where the other starts) never conflict. */
  lemma TouchingBlocksDoNotConflict(d: Draft, item: ScheduleItem, excludeId: string)
    requires d.startPeriod + d.periodCount == item.startPeriod || item.startPeriod + item.periodCount == d.startPeriod
    ensures CheckConflict(d, [item], excludeId) == NoConflict
  {
    assert [item][0] == item;
  }

  // ----- calculateSubjectProgress -----

  predicate CountsFor(s: ScheduleItem, subjectId: string, classId: string)
  {
    s.subjectId == subjectId && s.classId == classId && s.status != Off
  }

  /** Sum of periodCount over the non-cancelled sessions of the (subject, class) pair. */
  function Learned(subjectId: string, classId: string, items: seq<ScheduleItem>): (r: int)
    ensures (forall s :: s in items && CountsFor(s, subjectId, classId) ==> s.periodCount >= 0) ==> r >= 0
    ensures (forall s :: s in items ==> !CountsFor(s, subjectId, classId)) ==> r == 0
  {
    if items == [] then 0
    else (if CountsFor(items[0], subjectId, classId) then items[0].periodCount else 0)
         + Learned(subjectId, classId, items[1..])
  }

  lemma {:induction false} LearnedConcat(subjectId: string, classId: string, a: seq<ScheduleItem>, b: seq<ScheduleItem>)
    ensures Learned(subjectId, classId, a + b) == Learned(subjectId, classId, a) + Learned(subjectId, classId, b)
  {
    if a == [] {
      assert a + b == b;
    } else {
      assert (a + b)[1..] == a[1..] + b;
      LearnedConcat(subjectId, classId, a[1..], b);
    }
  }

  /** The result of a JavaScript percentage that may be NaN or -Infinity. */
  datatype Percent = Percent(value: int) | NotANumber | NegativeInfinity

  /** Math.floor(a / b). */
  function FloorDiv(a: int, b: int): (q: int)
    requires b != 0
    ensures b > 0 ==> b * q <= a < b * q + b
    ensures b < 0 ==> b * q >= a > b * q + b
  {
    if b > 0 then a / b else (-a) / (-b)
  }

  /** Math.min(100, Math.round(part / whole * 100)) with exact arithmetic;
      Math.round(x) is floor(x + 1/2). */
  function RoundedPercent(part: int, whole: int): (r: Percent)
    ensures whole > 0 ==> r.Percent? && r.value <= 100
    ensures whole > 0 && r.value < 100 ==> (2 * r.value - 1) * whole <= 200 * part < (2 * r.value + 1) * whole
    ensures whole > 0 && r.value == 100 ==> 199 * whole <= 200 * part
    ensures whole > 0 && part >= 0 ==> r.value >= 0
    ensures whole == 0 ==> r == (if part > 0 then Percent(100) else if part == 0 then NotANumber else NegativeInfinity)
  {
    if whole == 0 then
      if part > 0 then Percent(100) else if part == 0 then NotANumber else NegativeInfinity
    else
      var rounded := FloorDiv(200 * part + whole, 2 * whole);
      Percent(if rounded < 100 then rounded else 100)
  }

  datatype Progress = Progress(learned: int, total: int, percentage: Percent, remaining: int)

  /** calculateSubjectProgress. */
  function CalculateSubjectProgress(subjectId: string, classId: string, totalPeriods: int,
                                    items: seq<ScheduleItem>): (p: Progress)
    ensures p.learned == Learned(subjectId, classId, items) && p.total == totalPeriods
    ensures p.remaining >= 0 && p.learned + p.remaining >= totalPeriods
    ensures p.remaining > 0 ==> p.learned + p.remaining == totalPeriods
    ensures totalPeriods > 0 && p.learned >= totalPeriods ==> p.remaining == 0
  {
    var learned := Learned(subjectId, classId, items);
    Progress(learned, totalPeriods, RoundedPercent(learned, totalPeriods),
             if totalPeriods - learned > 0 then totalPeriods - learned else 0)
  }

  lemma MulCancel(c: int, x: int, y: int)
    requires c > 0 && c * x > c * y
    ensures x > y
  {
    assert c * (x - y) == c * x - c * y;
  }

  /** A pair that has learned all its periods shows exactly 100%. */
  lemma FullPercent(part: int, whole: int)
    requires whole > 0 && part >= whole
    ensures RoundedPercent(part, whole) == Percent(100)
  {
    var a := 200 * part + whole;
    var q := FloorDiv(a, 2 * whole);
    assert a < 2 * whole * q + 2 * whole;
    assert 200 * part >= 200 * whole;
    assert (2 * whole) * (q + 1) > (2 * whole) * 100;
    MulCancel(2 * whole, q + 1, 100);
  }

  /** The percentage of a subject with a positive total is a number of at most 100, and
      it is exactly 100 once the learned periods reach the total. */
  lemma ProgressPercentage(subjectId: string, classId: string, totalPeriods: int, items: seq<ScheduleItem>)
    ensures var p := CalculateSubjectProgress(subjectId, classId, totalPeriods, items);
            && p.percentage == RoundedPercent(p.learned, totalPeriods)
            && (totalPeriods > 0 ==> p.percentage.Percent? && p.percentage.value <= 100)
            && (totalPeriods > 0 && p.learned >= totalPeriods ==> p.percentage == Percent(100))
  {
    var learned := Learned(subjectId, classId, items);
    if totalPeriods > 0 && learned >= totalPeriods {
      FullPercent(learned, totalPeriods);
    }
  }

  // ----- determineStatus -----

  const MsPerMinute := 60000

  /** Hour of day a period starts at: period 1 at 7:00, period 6 at 13:00, one hour apart. */
  function StartHour(startPeriod: int): (h: int)
    ensures 1 <= startPeriod <= 5 ==> 7 <= h <= 11
    ensures 6 <= startPeriod <= 10 ==> 13 <= h <= 17
    ensures 11 <= startPeriod ==> 18 <= h
  {
    if startPeriod > 5 then 13 + (startPeriod - 6) else 7 + (startPeriod - 1)
  }

  /** Start of the session in milliseconds since day 0 (setHours on a local midnight). */
  function ClassStartTime(date: int, startPeriod: int): int
  {
    (date * Calendar.MinutesPerDay + StartHour(startPeriod) * 60) * MsPerMinute
  }

  /** determineStatus at the instant `now` (milliseconds since day 0): OFF and MAKEUP are
      kept; otherwise the one-hour window of the start period decides. */
  function DetermineStatus(date: int, startPeriod: int, current: ScheduleStatus, now: int): (r: ScheduleStatus)
    ensures current == Off || current == Makeup ==> r == current
    ensures current != Off && current != Makeup ==>
      var start := ClassStartTime(date, startPeriod);
      var end := start + 60 * MsPerMinute;
      && (r == Completed <==> now > end)
      && (r == Ongoing <==> start <= now <= end)
      && (r == Pending <==> now < start)
  {
    if current == Off || current == Makeup then current
    else
      var start := ClassStartTime(date, startPeriod);
      var end := start + 60 * MsPerMinute;
      if now > end then Completed
      else if now >= start && now <= end then Ongoing
      else if now < start then Pending
      else assert false; current
  }

  function StatusRank(s: ScheduleStatus): int
  {
    match s
    case Pending => 0
    case Ongoing => 1
    case Completed => 2
    case _ => 3
  }

  /** A stored PENDING, ONGOING or COMPLETED is recomputed: only OFF and MAKEUP stick. */
  lemma StoredStatusIgnored(date: int, startPeriod: int, s1: ScheduleStatus, s2: ScheduleStatus, now: int)
    requires s1 in {Pending, Ongoing, Completed} && s2 in {Pending, Ongoing, Completed}
    ensures DetermineStatus(date, startPeriod, s1, now) == DetermineStatus(date, startPeriod, s2, now)
  {
  }

  /** As time passes the computed status only moves forward: Pending, Ongoing, Completed. */
  lemma StatusAdvancesWithTime(date: int, startPeriod: int, current: ScheduleStatus, now1: int, now2: int)
    requires now1 <= now2
    ensures StatusRank(DetermineStatus(date, startPeriod, current, now1))
         <= StatusRank(DetermineStatus(date, startPeriod, current, now2))
  {
  }

  /** The clock window agrees with the period's part of the day: morning periods
      start before noon, afternoon ones between 13:00 and 17:00, evening ones at 18:00 or later. */
  lemma StartHourMatchesSession(startPeriod: int)
    requires 1 <= startPeriod
    ensures GetSessionFromPeriod(startPeriod) == Morning <==> StartHour(startPeriod) < 12
    ensures GetSessionFromPeriod(startPeriod) == Afternoon <==> 13 <= StartHour(startPeriod) <= 17
    ensures GetSessionFromPeriod(startPeriod) == Evening <==> 18 <= StartHour(startPeriod)
  {
  }
}
