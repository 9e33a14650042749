/** components/ScheduleManager.tsx: the week view's start date, the "continue next week"
    planner, saving, drag-copying, the period-count clamp and the grid cell rules. */
module Scheduling {
  import opened Types
  import Seqs
  import Calendar
  import opened Utils
  import Store

  // ----- getStartOfWeek -----

  /** The Monday on or before `day`; a Sunday belongs to the week that started six days earlier. */
  function StartOfWeek(day: int): (monday: int)
    ensures Calendar.Weekday(monday) == 1
    ensures monday <= day < monday + 7
    ensures Calendar.Weekday(day) == 0 ==> monday == day - 6
  {
    var w := Calendar.Weekday(day);
    day - w + (if w == 0 then -6 else 1)
  }

  // ----- the sessions a continuation works on -----

  /** A session of the class dated Monday to Saturday of the week (Sunday is not included). */
  predicate InWeek(s: ScheduleItem, classId: string, weekStart: int)
    ensures InWeek(s, classId, weekStart) && Calendar.Weekday(weekStart) == 1 ==>
              Calendar.Weekday(s.date) != 0 && s.date - StartOfWeek(s.date) == s.date - weekStart
  {
    s.classId == classId && weekStart <= s.date < weekStart + 6
  }

  function DateKey(s: ScheduleItem): (int, int)
  {
    (s.date, s.startPeriod)
  }

  /** The week's sessions of the class in ascending (date, startPeriod) order. */
  function WeekItems(schedules: seq<ScheduleItem>, classId: string, weekStart: int): (r: seq<ScheduleItem>)
    ensures forall s :: s in r <==> s in schedules && InWeek(s, classId, weekStart)
    ensures multiset(r) == multiset(Seqs.Filter(schedules, (s: ScheduleItem) => InWeek(s, classId, weekStart)))
    ensures Seqs.SortedBy(r, DateKey)
  {
    var inWeek := Seqs.Filter(schedules, (s: ScheduleItem) => InWeek(s, classId, weekStart));
    var r := Seqs.SortBy(inWeek, DateKey);
    assert forall s :: (s in r <==> s in multiset(r)) && (s in inWeek <==> s in multiset(inWeek));
    r
  }

  // ----- the continuation planner, as a fold over the week's sessions -----

  /** The planner's variables: addedPeriodsMap, the copies passed to addSchedule, the warnings. */
  datatype PlanState = PlanState(added: map<string, int>, copies: seq<Draft>, warnings: seq<string>)

  function Added(m: map<string, int>, key: string): int
  {
    if key in m then m[key] else 0
  }

  function FindSubject(subjects: seq<Subject>, id: string): Option<Subject>
  {
    Seqs.Find(subjects, (s: Subject) => s.id == id)
  }

  /** Whether the snapshot already has a session of the class at that date and start period. */
  predicate SlotFilled(schedules: seq<ScheduleItem>, classId: string, date: int, startPeriod: int)
  {
    exists s :: s in schedules && s.classId == classId && s.date == date && s.startPeriod == startPeriod
  }

  /** The session one week later with `count` periods. */
  function CopyOf(item: ScheduleItem, count: int): (c: Draft)
    ensures c.date == item.date + 7 && c.periodCount == count
  {
    ToDraft(item).(date := item.date + 7, periodCount := count)
  }

  function Digit(n: int): char
    requires 0 <= n <= 9
  {
    "0123456789"[n]
  }

  /** The near-end warning; the count it shows is a single digit (1..4). */
  function WarningFor(name: string, remaining: int): string
    requires 1 <= remaining <= 4
  {
    "Môn " + name + " sắp kết thúc (còn " + [Digit(remaining)] + " tiết)"
  }

  function Remaining(schedules: seq<ScheduleItem>, subject: Subject, classId: string): int
  {
    CalculateSubjectProgress(subject.id, classId, subject.totalPeriods, schedules).remaining
  }

  /** The copy made for a lesson if its pair still has periods left, its target slot is
      free and the copy does not conflict with the snapshot. */
  function TryCopy(schedules: seq<ScheduleItem>, st: PlanState, item: ScheduleItem, remaining: int): (r: PlanState)
    ensures r.warnings == st.warnings
    ensures r == st || (|r.copies| == |st.copies| + 1 && r.copies[..|st.copies|] == st.copies)
    ensures r != st ==>
              var key := PairKey(item.subjectId, item.classId);
              var c := r.copies[|st.copies|];
              && c.date == item.date + 7 && c.startPeriod == item.startPeriod && c.classId == item.classId
              && c.periodCount <= item.periodCount
              && Added(r.added, key) == Added(st.added, key) + c.periodCount <= remaining
              && Added(st.added, key) < remaining
              && !SlotFilled(schedules, c.classId, c.date, c.startPeriod)
              && !CheckConflict(c, schedules, "").HasConflict()
  {
    var key := PairKey(item.subjectId, item.classId);
    var prev := Added(st.added, key);
    var current := remaining - prev;
    if current > 0 && !SlotFilled(schedules, item.classId, item.date + 7, item.startPeriod) then
      var count := if item.periodCount < current then item.periodCount else current;
      var copy := CopyOf(item, count);
      if !CheckConflict(copy, schedules, "").HasConflict() then
        PlanState(st.added[key := prev + count], st.copies + [copy], st.warnings)
      else st
    else st
  }

  /** Adds the near-end warning for the pair if it is not already listed. */
  function Warn(st: PlanState, item: ScheduleItem, name: string, remaining: int): (r: PlanState)
    ensures r.copies == st.copies && r.added == st.added
    ensures r.warnings == st.warnings || (|r.warnings| == |st.warnings| + 1 && r.warnings[..|st.warnings|] == st.warnings
                                          && r.warnings[|st.warnings|] !in st.warnings)
    ensures Seqs.NoDuplicates(st.warnings) ==> Seqs.NoDuplicates(r.warnings)
  {
    var final := remaining - Added(st.added, PairKey(item.subjectId, item.classId));
    if 0 < final <= 4 && WarningFor(name, final) !in st.warnings then
      st.(warnings := st.warnings + [WarningFor(name, final)])
    else st
  }

  /** One iteration of the forEach. Exams and sessions of unknown subjects are skipped. */
  function Step(schedules: seq<ScheduleItem>, subjects: seq<Subject>, st: PlanState, item: ScheduleItem): (r: PlanState)
    ensures item.kind == Exam || FindSubject(subjects, item.subjectId).None? ==> r == st
    ensures |st.copies| <= |r.copies| <= |st.copies| + 1 && r.copies[..|st.copies|] == st.copies
    ensures Seqs.NoDuplicates(st.warnings) ==> Seqs.NoDuplicates(r.warnings)
  {
    if item.kind == Exam then st
    else
      match FindSubject(subjects, item.subjectId)
      case None => st
      case Some(subject) =>
        var remaining := CalculateSubjectProgress(item.subjectId, item.classId, subject.totalPeriods, schedules).remaining;
        Warn(TryCopy(schedules, st, item, remaining), item, subject.name, remaining)
  }

  /** After a lesson of a known subject the near-end warning for its final remaining count
      is listed exactly when that count is between 1 and 4; otherwise the warnings are kept. */
  lemma StepWarns(schedules: seq<ScheduleItem>, subjects: seq<Subject>, st: PlanState, item: ScheduleItem, subject: Subject)
    requires item.kind == Lesson && FindSubject(subjects, item.subjectId) == Some(subject)
    ensures var next := Step(schedules, subjects, st, item);
            var final := Remaining(schedules, subject, item.classId) - Added(next.added, PairKey(item.subjectId, item.classId));
            && (0 < final <= 4 ==> WarningFor(subject.name, final) in next.warnings)
            && (0 < final <= 4 ==> next.warnings == st.warnings || next.warnings == st.warnings + [WarningFor(subject.name, final)])
            && (!(0 < final <= 4) ==> next.warnings == st.warnings)
  {
  }

  /** The planner's state after processing `items` in order, every check reading the snapshot. */
  function Plan(schedules: seq<ScheduleItem>, subjects: seq<Subject>, items: seq<ScheduleItem>): (p: PlanState)
    ensures |p.copies| <= |items|
  {
    if items == [] then PlanState(map[], [], [])
    else Step(schedules, subjects, Plan(schedules, subjects, items[..|items| - 1]), items[|items| - 1])
  }

  lemma PlanPrefix(schedules: seq<ScheduleItem>, subjects: seq<Subject>, items: seq<ScheduleItem>, i: int)
    requires 0 <= i < |items|
    ensures Plan(schedules, subjects, items[..i + 1]) == Step(schedules, subjects, Plan(schedules, subjects, items[..i]), items[i])
  {
    assert items[..i + 1][..i] == items[..i];
  }

  /** Processing one more session appends its copy, and records the copied periods under
      the pair's key, exactly when it is a lesson of a known subject whose pair still has
      periods left after this run's earlier copies, whose slot one week later is free and
      whose copy does not conflict; the copy has min(periodCount, what is left) periods.
      In every other case the copies and addedPeriodsMap are unchanged. */
  lemma PlanCopyStep(schedules: seq<ScheduleItem>, subjects: seq<Subject>, items: seq<ScheduleItem>, i: int)
    requires 0 <= i < |items|
    ensures CopyStep(schedules, subjects, Plan(schedules, subjects, items[..i]), items[i],
                     Plan(schedules, subjects, items[..i + 1]))
  {
    var before := Plan(schedules, subjects, items[..i]);
    PlanPrefix(schedules, subjects, items, i);
    StepCopyCases(schedules, subjects, before, items[i]);
  }

  /** The change one processed session makes to the copies and to addedPeriodsMap. */
  predicate CopyStep(schedules: seq<ScheduleItem>, subjects: seq<Subject>, before: PlanState, item: ScheduleItem,
                     after: PlanState)
  {
    if item.kind == Lesson && FindSubject(subjects, item.subjectId).Some? then
      var total := FindSubject(subjects, item.subjectId).value.totalPeriods;
      CopyAttempt(schedules, before, item, CalculateSubjectProgress(item.subjectId, item.classId, total, schedules).remaining,
                  after.copies, after.added)
    else after.copies == before.copies && after.added == before.added
  }

  /** The copies and addedPeriodsMap after one copy attempt with `remaining` periods left. */
  predicate CopyAttempt(schedules: seq<ScheduleItem>, before: PlanState, item: ScheduleItem, remaining: int,
                        copies: seq<Draft>, added: map<string, int>)
  {
    var key := PairKey(item.subjectId, item.classId);
    var left := remaining - Added(before.added, key);
    var count := if item.periodCount < left then item.periodCount else left;
    if left > 0 && !SlotFilled(schedules, item.classId, item.date + 7, item.startPeriod)
       && !CheckConflict(CopyOf(item, count), schedules, "").HasConflict()
    then copies == before.copies + [CopyOf(item, count)] && added == before.added[key := Added(before.added, key) + count]
    else copies == before.copies && added == before.added
  }

  lemma StepCopyCases(schedules: seq<ScheduleItem>, subjects: seq<Subject>, st: PlanState, item: ScheduleItem)
    ensures CopyStep(schedules, subjects, st, item, Step(schedules, subjects, st, item))
  {
    StepCopies(schedules, subjects, st, item);
    if item.kind == Lesson && FindSubject(subjects, item.subjectId).Some? {
      var total := FindSubject(subjects, item.subjectId).value.totalPeriods;
      TryCopyCases(schedules, st, item, CalculateSubjectProgress(item.subjectId, item.classId, total, schedules).remaining);
    }
  }

  /** The two outcomes of one copy attempt. */
  lemma TryCopyCases(schedules: seq<ScheduleItem>, st: PlanState, item: ScheduleItem, remaining: int)
    ensures var next := TryCopy(schedules, st, item, remaining);
            CopyAttempt(schedules, st, item, remaining, next.copies, next.added)
  {
  }

  /** The items appended to the store: each copy with its fresh id and status PENDING. */
  function StampAll(copies: seq<Draft>, ids: seq<string>): (r: seq<ScheduleItem>)
    requires |ids| >= |copies|
    ensures |r| == |copies|
    ensures forall k :: 0 <= k < |copies| ==> r[k] == Stamp(copies[k], ids[k], Pending)
  {
    if copies == [] then []
    else StampAll(copies[..|copies| - 1], ids) + [Stamp(copies[|copies| - 1], ids[|copies| - 1], Pending)]
  }

  // ----- properties of the planner -----

  /** What every copy is: a lesson of the week one week later, same teacher, subject, class,
      room and start period, no longer than the original, on a slot that is free in the
      snapshot and without a conflict there. */
  predicate CopyFrom(schedules: seq<ScheduleItem>, subjects: seq<Subject>, c: Draft, item: ScheduleItem)
  {
    && item.kind == Lesson && FindSubject(subjects, item.subjectId).Some?
    && c.date == item.date + 7 && c.kind == item.kind && c.teacherId == item.teacherId
    && c.subjectId == item.subjectId && c.classId == item.classId && c.roomId == item.roomId
    && c.startPeriod == item.startPeriod && c.session == item.session && c.note == item.note
    && c.periodCount <= item.periodCount
    && !SlotFilled(schedules, c.classId, c.date, c.startPeriod)
    && !CheckConflict(c, schedules, "").HasConflict()
  }

  /** A step adds at most the copy of its own item. */
  lemma StepCopiesAreValid(schedules: seq<ScheduleItem>, subjects: seq<Subject>, st: PlanState, item: ScheduleItem)
    ensures forall c :: c in Step(schedules, subjects, st, item).copies ==> c in st.copies || CopyFrom(schedules, subjects, c, item)
  {
    StepCopies(schedules, subjects, st, item);
  }

  lemma {:induction false} CopiesAreValid(schedules: seq<ScheduleItem>, subjects: seq<Subject>, items: seq<ScheduleItem>)
    ensures forall c :: c in Plan(schedules, subjects, items).copies ==>
              exists item :: item in items && CopyFrom(schedules, subjects, c, item)
  {
    if items != [] {
      var n := |items| - 1;
      var before := Plan(schedules, subjects, items[..n]);
      CopiesAreValid(schedules, subjects, items[..n]);
      var after := Plan(schedules, subjects, items);
      StepCopiesAreValid(schedules, subjects, before, items[n]);
      forall c | c in after.copies
        ensures exists item :: item in items && CopyFrom(schedules, subjects, c, item)
      {
        if c in before.copies {
          var item :| item in items[..n] && CopyFrom(schedules, subjects, c, item);
          assert item in items;
        } else {
          assert items[n] in items;
        }
      }
    }
  }

  /** The periods of the copies made for a (subject, class) pair. */
  function CopiedPeriods(copies: seq<Draft>, subjectId: string, classId: string): int
  {
    if copies == [] then 0
    else
      var last := copies[|copies| - 1];
      CopiedPeriods(copies[..|copies| - 1], subjectId, classId)
        + (if last.subjectId == subjectId && last.classId == classId then last.periodCount else 0)
  }

  lemma CopiedPeriodsAppend(copies: seq<Draft>, c: Draft, subjectId: string, classId: string)
    ensures CopiedPeriods(copies + [c], subjectId, classId)
         == CopiedPeriods(copies, subjectId, classId) + (if c.subjectId == subjectId && c.classId == classId then c.periodCount else 0)
  {
    assert (copies + [c])[..|copies|] == copies;
  }

  /** No two pairs of the week share a key with the pair (subjectId, classId). */
  predicate KeyOwnedBy(items: seq<ScheduleItem>, subjectId: string, classId: string)
  {
    forall x :: x in items && PairKey(x.subjectId, x.classId) == PairKey(subjectId, classId) ==>
      x.subjectId == subjectId && x.classId == classId
  }

  /** The warning part of a step leaves the copies and addedPeriodsMap alone. */
  lemma StepCopies(schedules: seq<ScheduleItem>, subjects: seq<Subject>, st: PlanState, item: ScheduleItem)
    ensures var next := Step(schedules, subjects, st, item);
            if item.kind == Lesson && FindSubject(subjects, item.subjectId).Some? then
              var s := FindSubject(subjects, item.subjectId).value;
              var t := TryCopy(schedules, st, item, CalculateSubjectProgress(item.subjectId, item.classId, s.totalPeriods, schedules).remaining);
              next.copies == t.copies && next.added == t.added
            else next.copies == st.copies && next.added == st.added
  {
  }

  /** One copy attempt keeps addedPeriodsMap equal to the copied periods and within the cap. */
  lemma TryCopyAccounting(schedules: seq<ScheduleItem>, st: PlanState, item: ScheduleItem, remaining: int,
                          subjectId: string, classId: string, cap: int)
    requires CopiedPeriods(st.copies, subjectId, classId) == Added(st.added, PairKey(subjectId, classId)) <= cap
    requires PairKey(item.subjectId, item.classId) == PairKey(subjectId, classId) ==>
               item.subjectId == subjectId && item.classId == classId && remaining == cap
    ensures var next := TryCopy(schedules, st, item, remaining);
            CopiedPeriods(next.copies, subjectId, classId) == Added(next.added, PairKey(subjectId, classId)) <= cap
  {
    var next := TryCopy(schedules, st, item, remaining);
    var key := PairKey(item.subjectId, item.classId);
    var prev := Added(st.added, key);
    var current := remaining - prev;
    if current > 0 && !SlotFilled(schedules, item.classId, item.date + 7, item.startPeriod) {
      var count := if item.periodCount < current then item.periodCount else current;
      var copy := CopyOf(item, count);
      if !CheckConflict(copy, schedules, "").HasConflict() {
        assert next == PlanState(st.added[key := prev + count], st.copies + [copy], st.warnings);
        CopiedPeriodsAppend(st.copies, copy, subjectId, classId);
      }
    }
  }

  /** addedPeriodsMap records exactly the periods copied for the pair, and these never
      exceed the pair's remaining periods in the snapshot. */
  lemma {:induction false} CopiesNeverExceedRemaining(schedules: seq<ScheduleItem>, subjects: seq<Subject>,
                                                      items: seq<ScheduleItem>, subject: Subject, classId: string)
    requires FindSubject(subjects, subject.id) == Some(subject)
    requires KeyOwnedBy(items, subject.id, classId)
    ensures CopiedPeriods(Plan(schedules, subjects, items).copies, subject.id, classId)
         == Added(Plan(schedules, subjects, items).added, PairKey(subject.id, classId))
    ensures Added(Plan(schedules, subjects, items).added, PairKey(subject.id, classId))
         <= Remaining(schedules, subject, classId)
  {
    if items != [] {
      var n := |items| - 1;
      var item := items[n];
      assert forall x :: x in items[..n] ==> x in items;
      CopiesNeverExceedRemaining(schedules, subjects, items[..n], subject, classId);
      var st := Plan(schedules, subjects, items[..n]);
      assert Plan(schedules, subjects, items) == Step(schedules, subjects, st, item);
      StepCopies(schedules, subjects, st, item);
      if item.kind == Lesson && FindSubject(subjects, item.subjectId).Some? {
        var s := FindSubject(subjects, item.subjectId).value;
        var remaining := CalculateSubjectProgress(item.subjectId, item.classId, s.totalPeriods, schedules).remaining;
        assert item in items;
        TryCopyAccounting(schedules, st, item, remaining, subject.id, classId, Remaining(schedules, subject, classId));
      }
    }
  }

  /** Every session of the week belongs to the class, so a pair key met in the week
      names exactly one subject of that class. */
  lemma WeekKeysOwned(schedules: seq<ScheduleItem>, classId: string, weekStart: int, subjectId: string)
    ensures KeyOwnedBy(WeekItems(schedules, classId, weekStart), subjectId, classId)
  {
    forall x | x in WeekItems(schedules, classId, weekStart) && PairKey(x.subjectId, x.classId) == PairKey(subjectId, classId)
      ensures x.subjectId == subjectId && x.classId == classId
    {
      PairKeyCancel(x.subjectId, subjectId, classId);
    }
  }

  /** handleContinueNextWeek never copies more periods of a subject than the class has
      left of it before the run. */
  lemma ContinuationWithinRemaining(schedules: seq<ScheduleItem>, subjects: seq<Subject>, classId: string,
                                    weekStart: int, subject: Subject)
    requires FindSubject(subjects, subject.id) == Some(subject)
    ensures CopiedPeriods(Plan(schedules, subjects, WeekItems(schedules, classId, weekStart)).copies, subject.id, classId)
         <= Remaining(schedules, subject, classId)
  {
    WeekKeysOwned(schedules, classId, weekStart, subject.id);
    CopiesNeverExceedRemaining(schedules, subjects, WeekItems(schedules, classId, weekStart), subject, classId);
  }

  /** The warnings are pairwise different. */
  lemma {:induction false} WarningsDistinct(schedules: seq<ScheduleItem>, subjects: seq<Subject>, items: seq<ScheduleItem>)
    ensures Seqs.NoDuplicates(Plan(schedules, subjects, items).warnings)
  {
    if items != [] {
      WarningsDistinct(schedules, subjects, items[..|items| - 1]);
    }
  }

  /** A second run over a store that holds the first run's copies never fills a slot
      (class, date, start period) that the first run filled. */
  lemma RerunSkipsFilledSlots(schedules: seq<ScheduleItem>, subjects: seq<Subject>, items: seq<ScheduleItem>,
                              ids: seq<string>, items2: seq<ScheduleItem>)
    requires |ids| >= |Plan(schedules, subjects, items).copies|
    ensures var first := Plan(schedules, subjects, items).copies;
            var second := Plan(schedules + StampAll(first, ids), subjects, items2).copies;
            forall c1, c2 :: c1 in first && c2 in second ==>
              !(c1.classId == c2.classId && c1.date == c2.date && c1.startPeriod == c2.startPeriod)
  {
    var first := Plan(schedules, subjects, items).copies;
    var after := schedules + StampAll(first, ids);
    var second := Plan(after, subjects, items2).copies;
    CopiesAreValid(after, subjects, items2);
    forall c1, c2 | c1 in first && c2 in second
      ensures !(c1.classId == c2.classId && c1.date == c2.date && c1.startPeriod == c2.startPeriod)
    {
      var k :| 0 <= k < |first| && first[k] == c1;
      var stored := StampAll(first, ids)[k];
      assert stored in after;
      var item :| item in items2 && CopyFrom(after, subjects, c2, item);
    }
  }

  // An example week for the planner: subject "s" has 10 periods; class "c" has two lessons
  // of it this week, l1 (4 periods) and l2 (2 periods), so 4 periods are left. Next week
  // another class holds the room at periods 4-5 of l1's day.
  const ExampleSubject := Subject("s", "Toan", "m", 10, None, None, None, None, None, None)
  const ExampleL1 := ScheduleItem("l1", Lesson, "t", "s", "c", "r", 0, Morning, 1, 4, Pending, None)
  const ExampleL2 := ScheduleItem("l2", Lesson, "t", "s", "c", "r", 1, Morning, 1, 2, Pending, None)
  const ExampleBusy := ScheduleItem("b", Lesson, "t2", "x", "c2", "r", 7, Morning, 4, 2, Pending, None)
  const ExampleStore := [ExampleL1, ExampleL2, ExampleBusy]

  /** What the checks of the first run see in the example store. */
  lemma ExampleStoreFacts()
    ensures Learned("s", "c", ExampleStore) == 6
    ensures CheckConflict(CopyOf(ExampleL1, 4), ExampleStore, "").HasConflict()
    ensures !SlotFilled(ExampleStore, "c", 8, 1)
    ensures !CheckConflict(CopyOf(ExampleL2, 2), ExampleStore, "").HasConflict()
  {
    assert ExampleStore[2] == ExampleBusy && Blocks(CopyOf(ExampleL1, 4), ExampleBusy, "");
  }

  /** What the checks of the second run see once l2's copy is stored. */
  lemma ExampleStore2Facts()
    ensures var store2 := ExampleStore + [Stamp(CopyOf(ExampleL2, 2), "n1", Pending)];
            && Learned("s", "c", store2) == 8
            && !SlotFilled(store2, "c", 7, 1)
            && !CheckConflict(CopyOf(ExampleL1, 2), store2, "").HasConflict()
  {
    var stored := Stamp(CopyOf(ExampleL2, 2), "n1", Pending);
    var store2 := ExampleStore + [stored];
    assert store2 == [ExampleL1, ExampleL2, ExampleBusy, stored];
    assert Learned("s", "c", ExampleStore) == 6;
    assert Learned("s", "c", [stored]) == 2;
    LearnedConcat("s", "c", ExampleStore, [stored]);
    forall i | 0 <= i < |store2|
      ensures !Blocks(CopyOf(ExampleL1, 2), store2[i], "")
    {
      assert i == 0 || i == 1 || i == 2 || i == 3;
    }
  }

  /** The room conflict makes the first run refuse l1's 4-period copy. */
  lemma ExampleFirstStep()
    ensures var a1 := Plan(ExampleStore, [ExampleSubject], [ExampleL1]);
            a1.copies == [] && Added(a1.added, PairKey("s", "c")) == 0
  {
    var store, subjects := ExampleStore, [ExampleSubject];
    ExampleStoreFacts();
    assert FindSubject(subjects, "s") == Some(ExampleSubject);
    var a0 := Plan(store, subjects, []);
    assert Plan(store, subjects, [ExampleL1]) == Step(store, subjects, a0, ExampleL1);
    assert CalculateSubjectProgress("s", "c", 10, store).remaining == 4;
    StepCopyCases(store, subjects, a0, ExampleL1);
  }

  /** The first run refuses l1's 4-period copy for the room conflict and copies l2. */
  lemma ExampleFirstRun()
    ensures Plan(ExampleStore, [ExampleSubject], [ExampleL1, ExampleL2]).copies == [CopyOf(ExampleL2, 2)]
  {
    var store, subjects, items := ExampleStore, [ExampleSubject], [ExampleL1, ExampleL2];
    ExampleStoreFacts();
    ExampleFirstStep();
    assert FindSubject(subjects, "s") == Some(ExampleSubject);
    assert items[..1] == [ExampleL1];
    var a1 := Plan(store, subjects, items[..1]);
    assert CalculateSubjectProgress("s", "c", 10, store).remaining == 4;
    PlanCopyStep(store, subjects, items, 1);
    assert items[..2] == items;
  }

  /** With l2's copy stored, the second run copies l1 with the 2 periods left. */
  lemma ExampleSecondStep()
    ensures var store2 := ExampleStore + [Stamp(CopyOf(ExampleL2, 2), "n1", Pending)];
            var b1 := Plan(store2, [ExampleSubject], [ExampleL1]);
            b1.copies == [CopyOf(ExampleL1, 2)] && Added(b1.added, PairKey("s", "c")) == 2
  {
    var store2 := ExampleStore + [Stamp(CopyOf(ExampleL2, 2), "n1", Pending)];
    var subjects := [ExampleSubject];
    ExampleStore2Facts();
    assert FindSubject(subjects, "s") == Some(ExampleSubject);
    var b0 := Plan(store2, subjects, []);
    assert Plan(store2, subjects, [ExampleL1]) == Step(store2, subjects, b0, ExampleL1);
    assert CalculateSubjectProgress("s", "c", 10, store2).remaining == 2;
    StepCopyCases(store2, subjects, b0, ExampleL1);
  }

  /** Once l2's copy is stored only 2 periods are left, so the second run copies l1 with 2
      periods, which no longer reach the occupied periods. */
  lemma ExampleSecondRun()
    ensures var store2 := ExampleStore + [Stamp(CopyOf(ExampleL2, 2), "n1", Pending)];
            Plan(store2, [ExampleSubject], [ExampleL1, ExampleL2]).copies == [CopyOf(ExampleL1, 2)]
  {
    var store2 := ExampleStore + [Stamp(CopyOf(ExampleL2, 2), "n1", Pending)];
    var subjects, items := [ExampleSubject], [ExampleL1, ExampleL2];
    ExampleStore2Facts();
    ExampleSecondStep();
    assert FindSubject(subjects, "s") == Some(ExampleSubject);
    assert items[..1] == [ExampleL1];
    var b1 := Plan(store2, subjects, items[..1]);
    assert CalculateSubjectProgress("s", "c", 10, store2).remaining == 2;
    PlanCopyStep(store2, subjects, items, 1);
    assert items[..2] == items;
  }

  /** The planner is not idempotent: after the first run's copy is stored, a second run over
      the same week makes a copy the first run refused. */
  lemma PlannerNotIdempotent()
    ensures var first := Plan(ExampleStore, [ExampleSubject], [ExampleL1, ExampleL2]).copies;
            && |first| == 1
            && Plan(ExampleStore + StampAll(first, ["n1"]), [ExampleSubject], [ExampleL1, ExampleL2]).copies != []
  {
    ExampleFirstRun();
    ExampleSecondRun();
    assert StampAll([CopyOf(ExampleL2, 2)], ["n1"]) == [Stamp(CopyOf(ExampleL2, 2), "n1", Pending)];
  }

  // ----- handleContinueNextWeek -----

  lemma StampAllAppend(copies: seq<Draft>, c: Draft, ids: seq<string>)
    requires |ids| > |copies|
    ensures StampAll(copies + [c], ids) == StampAll(copies, ids) + [Stamp(c, ids[|copies|], Pending)]
  {
    assert (copies + [c])[..|copies|] == copies;
  }

  /** The next unused fresh id is not taken by the snapshot nor by the copies stored so far. */
  lemma NextIdIsFresh(snapshot: seq<ScheduleItem>, copies: seq<Draft>, ids: seq<string>)
    requires |ids| > |copies|
    requires Store.FreshIds(ids, Store.ScheduleIds(snapshot))
    ensures ids[|copies|] !in Store.ScheduleIds(snapshot + StampAll(copies, ids))
  {
    var stamped := StampAll(copies, ids);
    forall x | x in snapshot + stamped
      ensures x.id != ids[|copies|]
    {
      if x !in snapshot {
        var k :| 0 <= k < |stamped| && stamped[k] == x;
        assert x.id == ids[k];
      }
    }
  }

  /** The case of TryCopy that makes a copy. */
  lemma TryCopyAdds(schedules: seq<ScheduleItem>, st: PlanState, item: ScheduleItem, remaining: int, count: int)
    requires remaining - Added(st.added, PairKey(item.subjectId, item.classId)) > 0
    requires !SlotFilled(schedules, item.classId, item.date + 7, item.startPeriod)
    requires var current := remaining - Added(st.added, PairKey(item.subjectId, item.classId));
             count == if item.periodCount < current then item.periodCount else current
    requires !CheckConflict(CopyOf(item, count), schedules, "").HasConflict()
    ensures var key := PairKey(item.subjectId, item.classId);
            TryCopy(schedules, st, item, remaining)
              == PlanState(st.added[key := Added(st.added, key) + count], st.copies + [CopyOf(item, count)], st.warnings)
  {
  }

  /** The cases of TryCopy that make no copy. */
  lemma TryCopyRefused(schedules: seq<ScheduleItem>, st: PlanState, item: ScheduleItem, remaining: int)
    requires var current := remaining - Added(st.added, PairKey(item.subjectId, item.classId));
             var count := if item.periodCount < current then item.periodCount else current;
             current <= 0 || SlotFilled(schedules, item.classId, item.date + 7, item.startPeriod)
             || CheckConflict(CopyOf(item, count), schedules, "").HasConflict()
    ensures TryCopy(schedules, st, item, remaining) == st
  {
  }

  /** The addSchedule call for the next copy, which takes the next fresh id. */
  method AddCopy(store: Store.AppStore, snapshot: seq<ScheduleItem>, copies: seq<Draft>, newItem: Draft,
                 freshIds: seq<string>)
    requires |freshIds| > |copies|
    requires Store.FreshIds(freshIds, Store.ScheduleIds(snapshot))
    requires store.schedules == snapshot + StampAll(copies, freshIds)
    modifies store
    ensures store.State() == old(store.State()).(schedules := snapshot + StampAll(copies + [newItem], freshIds))
  {
    NextIdIsFresh(snapshot, copies, freshIds);
    store.AddSchedule(newItem, freshIds[|copies|]);
    StampAllAppend(copies, newItem, freshIds);
    assert store.schedules == snapshot + StampAll(copies + [newItem], freshIds);
  }

  /** The body of the `if (currentRemaining > 0)` branch: at most one addSchedule call. */
  method CopyToNextWeek(store: Store.AppStore, snapshot: seq<ScheduleItem>, st: PlanState, item: ScheduleItem,
                        remaining: int, freshIds: seq<string>)
    returns (next: PlanState)
    requires |freshIds| > |st.copies|
    requires Store.FreshIds(freshIds, Store.ScheduleIds(snapshot))
    requires store.schedules == snapshot + StampAll(st.copies, freshIds)
    modifies store
    ensures next == TryCopy(snapshot, st, item, remaining)
    ensures store.State() == old(store.State()).(schedules := snapshot + StampAll(next.copies, freshIds))
  {
    next := st;
    ghost var before := store.State();
    assert before == before.(schedules := snapshot + StampAll(st.copies, freshIds));
    var key := PairKey(item.subjectId, item.classId);
    var previouslyAdded := Added(st.added, key);
    var currentRemaining := remaining - previouslyAdded;
    if currentRemaining > 0 {
      var slotTaken := SlotFilled(snapshot, item.classId, item.date + 7, item.startPeriod);
      if !slotTaken {
        var periodsToTeach := if item.periodCount < currentRemaining then item.periodCount else currentRemaining;
        var newItem := CopyOf(item, periodsToTeach);
        var conflict := CheckConflict(newItem, snapshot, "");
        if !conflict.HasConflict() {
          TryCopyAdds(snapshot, st, item, remaining, periodsToTeach);
          AddCopy(store, snapshot, st.copies, newItem, freshIds);
          next := PlanState(st.added[key := previouslyAdded + periodsToTeach], st.copies + [newItem], st.warnings);
        } else {
          TryCopyRefused(snapshot, st, item, remaining);
        }
      } else {
        TryCopyRefused(snapshot, st, item, remaining);
      }
    } else {
      TryCopyRefused(snapshot, st, item, remaining);
    }
  }

  /** One iteration of the forEach, reading the snapshot and calling addSchedule at most once. */
  method ProcessItem(store: Store.AppStore, snapshot: seq<ScheduleItem>, subjects: seq<Subject>, st: PlanState,
                     item: ScheduleItem, freshIds: seq<string>)
    returns (next: PlanState)
    requires |freshIds| > |st.copies|
    requires Store.FreshIds(freshIds, Store.ScheduleIds(snapshot))
    requires store.schedules == snapshot + StampAll(st.copies, freshIds)
    modifies store
    ensures next == Step(snapshot, subjects, st, item)
    ensures store.State() == old(store.State()).(schedules := snapshot + StampAll(next.copies, freshIds))
  {
    next := st;
    if item.kind == Exam {
      return;
    }
    var subject := FindSubject(subjects, item.subjectId);
    if subject.None? {
      return;
    }
    var progress := CalculateSubjectProgress(item.subjectId, item.classId, subject.value.totalPeriods, snapshot);
    next := CopyToNextWeek(store, snapshot, st, item, progress.remaining, freshIds);
    ghost var copied := next;
    var key := PairKey(item.subjectId, item.classId);
    var finalRemaining := progress.remaining - Added(next.added, key);
    if finalRemaining <= 4 && finalRemaining > 0 {
      var msg := WarningFor(subject.value.name, finalRemaining);
      if msg !in next.warnings {
        next := next.(warnings := next.warnings + [msg]);
      }
    }
    assert next == Warn(copied, item, subject.value.name, progress.remaining);
  }

  /** Copies the week's unfinished lessons of the class to the next week through
      addSchedule, one fresh id per copy, and reports the count and the warnings. */
  method ContinueNextWeek(store: Store.AppStore, classId: string, weekStart: int, freshIds: seq<string>)
    returns (addedCount: int, warnings: seq<string>)
    requires |freshIds| >= |WeekItems(store.schedules, classId, weekStart)|
    requires Store.FreshIds(freshIds, Store.ScheduleIds(store.schedules))
    modifies store
    ensures var plan := Plan(old(store.schedules), old(store.subjects), WeekItems(old(store.schedules), classId, weekStart));
            && addedCount == |plan.copies|
            && warnings == plan.warnings
            && store.State() == old(store.State()).(schedules := old(store.schedules) + StampAll(plan.copies, freshIds))
  {
    var items := WeekItems(store.schedules, classId, weekStart);
    var st := ProcessAll(store, store.schedules, store.subjects, items, freshIds);
    addedCount := |st.copies|;
    warnings := st.warnings;
  }

  /** The forEach over the week's items, every check reading the snapshot taken before it. */
  method ProcessAll(store: Store.AppStore, snapshot: seq<ScheduleItem>, subjects: seq<Subject>,
                    items: seq<ScheduleItem>, freshIds: seq<string>)
    returns (st: PlanState)
    requires |freshIds| >= |items|
    requires Store.FreshIds(freshIds, Store.ScheduleIds(snapshot))
    requires store.schedules == snapshot
    modifies store
    ensures st == Plan(snapshot, subjects, items)
    ensures store.State() == old(store.State()).(schedules := snapshot + StampAll(st.copies, freshIds))
  {
    ghost var initial := store.State();
    st := PlanState(map[], [], []);
    for i := 0 to |items|
      invariant st == Plan(snapshot, subjects, items[..i])
      invariant |st.copies| <= i
      invariant store.schedules == snapshot + StampAll(st.copies, freshIds)
      invariant store.State() == initial.(schedules := store.schedules)
    {
      PlanPrefix(snapshot, subjects, items, i);
      st := ProcessItem(store, snapshot, subjects, st, items[i], freshIds);
    }
    assert items[..|items|] == items;
  }

  // ----- handleSaveSchedule -----

  const MissingFieldsMessage := "Vui lòng điền đầy đủ thông tin"

  /** The id passed to checkConflict: the edited item's id, or none when adding. */
  function ExcludeOf(editId: Option<string>): string
  {
    if editId.Some? then editId.value else ""
  }

  /** The item handleSaveSchedule builds: the session follows the start period, and no note. */
  function Submitted(v: Draft): Draft
  {
    v.(session := GetSessionFromPeriod(v.startPeriod), note := None)
  }

  predicate FieldsGiven(v: Draft)
  {
    v.teacherId != "" && v.subjectId != "" && v.roomId != "" && v.classId != ""
  }

  datatype SaveOutcome = Accepted(item: Draft) | Refused(message: string)

  /** The decision of handleSaveSchedule: missing fields first, then the conflict check. */
  function DecideSave(v: Draft, editId: Option<string>, schedules: seq<ScheduleItem>): (r: SaveOutcome)
    ensures r.Accepted? <==> FieldsGiven(v) && !CheckConflict(Submitted(v), schedules, ExcludeOf(editId)).HasConflict()
    ensures r.Accepted? ==> r.item.session == GetSessionFromPeriod(v.startPeriod) && r.item == Submitted(v)
    ensures r.Accepted? ==> forall i :: 0 <= i < |schedules| ==> !Blocks(r.item, schedules[i], ExcludeOf(editId))
    ensures !FieldsGiven(v) ==> r == Refused(MissingFieldsMessage)
    ensures FieldsGiven(v) && r.Refused? ==> r.message == CheckConflict(Submitted(v), schedules, ExcludeOf(editId)).Message()
  {
    if !FieldsGiven(v) then Refused(MissingFieldsMessage)
    else
      var conflict := CheckConflict(Submitted(v), schedules, ExcludeOf(editId));
      if conflict.HasConflict() then Refused(conflict.Message()) else Accepted(Submitted(v))
  }

  /** The fields an edit writes back: everything but the id, the status and the note. */
  function PatchFrom(d: Draft): (p: SchedulePatch)
    ensures p.id.None? && p.status.None? && p.note.None?
  {
    SchedulePatch(None, Some(d.kind), Some(d.teacherId), Some(d.subjectId), Some(d.classId), Some(d.roomId),
                  Some(d.date), Some(d.session), Some(d.startPeriod), Some(d.periodCount), None, None)
  }

  /** An edit keeps the item's id, status and note and takes every submitted field. */
  lemma EditKeepsIdentity(s: ScheduleItem, d: Draft)
    ensures var m := Store.MergeSchedule(s, PatchFrom(d));
            m.id == s.id && m.status == s.status && m.note == s.note
            && ToDraft(m) == d.(note := s.note)
  {
  }

  /** handleSaveSchedule: writes through updateSchedule (editing) or addSchedule (new), or
      returns the error shown in the form and writes nothing. */
  method SaveSchedule(store: Store.AppStore, v: Draft, editId: Option<string>, freshId: string)
    returns (error: string)
    requires freshId !in Store.ScheduleIds(store.schedules)
    modifies store
    ensures var r := DecideSave(v, editId, old(store.schedules));
            && (r.Refused? ==> error == r.message && store.State() == old(store.State()))
            && (r.Accepted? ==> error == "")
            && (r.Accepted? && editId.Some? ==>
                  store.State() == old(store.State()).(schedules := Store.ReplaceWhere(old(store.schedules),
                    (s: ScheduleItem) => s.id == editId.value, (s: ScheduleItem) => Store.MergeSchedule(s, PatchFrom(r.item)))))
            && (r.Accepted? && editId.None? ==>
                  store.State() == old(store.State()).(schedules := old(store.schedules) + [Stamp(r.item, freshId, Pending)]))
  {
    var r := DecideSave(v, editId, store.schedules);
    if r.Refused? {
      return r.message;
    }
    error := "";
    if editId.Some? {
      store.UpdateSchedule(editId.value, PatchFrom(r.item));
    } else {
      store.AddSchedule(r.item, freshId);
    }
  }

  // ----- handleDrop -----

  /** The copy a drop creates: the dragged item's lesson data at the target slot, with the
      session of the target period and no note. */
  function DropCopy(item: ScheduleItem, date: int, period: int): (c: Draft)
    ensures c.date == date && c.startPeriod == period && c.session == GetSessionFromPeriod(period) && c.note.None?
    ensures ToDraft(item) == c.(date := item.date, session := item.session, startPeriod := item.startPeriod, note := item.note)
  {
    Draft(item.kind, item.teacherId, item.subjectId, item.classId, item.roomId, date,
          GetSessionFromPeriod(period), period, item.periodCount, None)
  }

  function DecideDrop(item: ScheduleItem, date: int, period: int, schedules: seq<ScheduleItem>): (r: Option<Draft>)
    ensures item.date == date && item.startPeriod == period ==> r.None?
    ensures r.Some? <==> !(item.date == date && item.startPeriod == period)
                         && !CheckConflict(DropCopy(item, date, period), schedules, "").HasConflict()
    ensures r.Some? ==> r.value.date == date && r.value.startPeriod == period
                        && r.value.session == GetSessionFromPeriod(period)
                        && r.value.periodCount == item.periodCount && r.value.classId == item.classId
    ensures r.Some? ==> forall i :: 0 <= i < |schedules| ==> !Blocks(r.value, schedules[i], "")
    ensures r.Some? ==> r.value == DropCopy(item, date, period)
                        && ToDraft(item) == r.value.(date := item.date, session := item.session,
                                                     startPeriod := item.startPeriod, note := item.note)
  {
    if item.date == date && item.startPeriod == period then None
    else
      var copy := DropCopy(item, date, period);
      if CheckConflict(copy, schedules, "").HasConflict() then None else Some(copy)
  }

  /** handleDrop: copies the dragged session to the target slot through addSchedule. */
  method Drop(store: Store.AppStore, item: ScheduleItem, date: int, period: int, freshId: string)
    returns (added: bool)
    requires freshId !in Store.ScheduleIds(store.schedules)
    modifies store
    ensures var r := DecideDrop(item, date, period, old(store.schedules));
            && (added <==> r.Some?)
            && (r.Some? ==> store.State() == old(store.State()).(schedules := old(store.schedules) + [Stamp(r.value, freshId, Pending)]))
            && (r.None? ==> store.State() == old(store.State()))
  {
    var r := DecideDrop(item, date, period, store.schedules);
    added := r.Some?;
    if added {
      store.AddSchedule(r.value, freshId);
    }
  }

  // ----- the period-count input -----

  /** Periods already used by the pair, leaving out cancelled sessions and the edited one. */
  function Used(schedules: seq<ScheduleItem>, subjectId: string, classId: string, editId: Option<string>): (r: int)
    ensures (forall s :: s in schedules && CountsFor(s, subjectId, classId) ==> s.periodCount >= 0) ==>
              0 <= r <= Learned(subjectId, classId, schedules)
  {
    if schedules == [] then 0
    else
      var s := schedules[0];
      (if s.subjectId == subjectId && s.classId == classId && s.status != Off && (editId.None? || s.id != editId.value)
       then s.periodCount else 0)
      + Used(schedules[1..], subjectId, classId, editId)
  }

  /** Without an edited item the periods used are the pair's learned periods. */
  lemma {:induction false} UsedIsLearned(schedules: seq<ScheduleItem>, subjectId: string, classId: string)
    ensures Used(schedules, subjectId, classId, None) == Learned(subjectId, classId, schedules)
  {
    if schedules != [] {
      UsedIsLearned(schedules[1..], subjectId, classId);
    }
  }

  /** What the pair may still take: max(0, total - used). */
  function Room(total: int, used: int): int
  {
    if total - used > 0 then total - used else 0
  }

  predicate ClampApplies(kind: Kind, subjectId: string, subjects: seq<Subject>)
  {
    kind == Lesson && subjectId != "" && FindSubject(subjects, subjectId).Some?
  }

  /** The value the period-count input stores. */
  function ClampPeriodCount(val: int, kind: Kind, subjectId: string, classId: string, editId: Option<string>,
                            subjects: seq<Subject>, schedules: seq<ScheduleItem>): (r: int)
    ensures !ClampApplies(kind, subjectId, subjects) ==> r == val
    ensures ClampApplies(kind, subjectId, subjects) ==>
              var room := Room(FindSubject(subjects, subjectId).value.totalPeriods, Used(schedules, subjectId, classId, editId));
              r <= room && r <= val && (r == val || r == room) && (val >= 0 ==> r >= 0)
  {
    if ClampApplies(kind, subjectId, subjects) then
      var room := Room(FindSubject(subjects, subjectId).value.totalPeriods, Used(schedules, subjectId, classId, editId));
      if val > room then room else val
    else val
  }

  /** Clamping an already clamped value changes nothing. */
  lemma ClampIdempotent(val: int, kind: Kind, subjectId: string, classId: string, editId: Option<string>,
                        subjects: seq<Subject>, schedules: seq<ScheduleItem>)
    ensures var once := ClampPeriodCount(val, kind, subjectId, classId, editId, subjects, schedules);
            ClampPeriodCount(once, kind, subjectId, classId, editId, subjects, schedules) == once
  {
  }

  // ----- the timetable grid and its spreadsheet export -----

  datatype Cell = Empty | Covered | Start(item: ScheduleItem)

  predicate StartsAt(s: ScheduleItem, day: int, period: int)
  {
    s.date == day && s.startPeriod == period
  }

  predicate CoversFromAbove(s: ScheduleItem, day: int, period: int)
  {
    s.date == day && s.startPeriod < period && s.startPeriod + s.periodCount > period
  }

  predicate Occupies(s: ScheduleItem, day: int, period: int)
  {
    s.date == day && s.startPeriod <= period && s.startPeriod + s.periodCount > period
  }

  /** The on-screen grid: a cell covered by an earlier-starting session is skipped, otherwise
      it shows the first session starting there, otherwise it is an empty drop target. */
  function GridCell(items: seq<ScheduleItem>, day: int, period: int): (c: Cell)
    ensures c.Covered? <==> exists i :: 0 <= i < |items| && CoversFromAbove(items[i], day, period)
    ensures c.Empty? <==> forall i :: 0 <= i < |items| ==> !StartsAt(items[i], day, period) && !CoversFromAbove(items[i], day, period)
    ensures c.Start? ==> exists i :: 0 <= i < |items| && items[i] == c.item && StartsAt(c.item, day, period)
                           && forall j :: 0 <= j < i ==> !StartsAt(items[j], day, period)
  {
    if Seqs.Find(items, (s: ScheduleItem) => CoversFromAbove(s, day, period)).Some? then Covered
    else
      match Seqs.Find(items, (s: ScheduleItem) => StartsAt(s, day, period))
      case None => Empty
      case Some(s) => Start(s)
  }

  /** The exported sheet: the first session occupying the period; its text on its starting
      row, a merged (null) cell below it, an empty string when nothing occupies it. */
  function ExportCell(items: seq<ScheduleItem>, day: int, period: int): (c: Cell)
    ensures c.Empty? <==> forall i :: 0 <= i < |items| ==> !Occupies(items[i], day, period)
    ensures c.Start? ==> exists i :: 0 <= i < |items| && items[i] == c.item && StartsAt(c.item, day, period)
                           && Occupies(c.item, day, period)
                           && forall j :: 0 <= j < i ==> !Occupies(items[j], day, period)
    ensures c.Covered? <==> exists i :: 0 <= i < |items| && CoversFromAbove(items[i], day, period)
                                        && forall j :: 0 <= j < i ==> !Occupies(items[j], day, period)
  {
    match Seqs.Find(items, (s: ScheduleItem) => Occupies(s, day, period))
    case None => Empty
    case Some(s) => if s.startPeriod == period then Start(s) else Covered
  }

  /** When at most one session of positive length occupies a period, the grid and the
      export agree on that cell. */
  lemma GridMatchesExport(items: seq<ScheduleItem>, day: int, period: int)
    requires forall i :: 0 <= i < |items| ==> items[i].periodCount > 0
    requires forall i, j :: 0 <= i < |items| && 0 <= j < |items| ==>
                              (Occupies(items[i], day, period) && Occupies(items[j], day, period) ==> i == j)
    ensures GridCell(items, day, period) == ExportCell(items, day, period)
  {
    var g := GridCell(items, day, period);
    var e := ExportCell(items, day, period);
    assert forall i :: 0 <= i < |items| ==>
      (Occupies(items[i], day, period) <==> StartsAt(items[i], day, period) || CoversFromAbove(items[i], day, period));
    if g.Start? {
      var i :| 0 <= i < |items| && items[i] == g.item && StartsAt(g.item, day, period)
                && forall j :: 0 <= j < i ==> !StartsAt(items[j], day, period);
      assert Occupies(items[i], day, period);
    }
    if e.Start? {
      var i :| 0 <= i < |items| && items[i] == e.item && StartsAt(e.item, day, period)
                && forall j :: 0 <= j < i ==> !Occupies(items[j], day, period);
      assert Occupies(items[i], day, period);
    }
  }

  /** The progress shown in a cell: min(cumulative, total || cumulative). */
  function DisplayCumulative(cumulative: int, total: Option<int>): (r: int)
    ensures r <= cumulative
    ensures total.Some? && total.value != 0 ==> r <= total.value
    ensures r == cumulative || (total.Some? && r == total.value)
  {
    var bound := if total.Some? && total.value != 0 then total.value else cumulative;
    if cumulative < bound then cumulative else bound
  }
}
