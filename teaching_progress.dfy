/** components/TeachingProgress.tsx: per-class subject progress (periods realized up to
    today, a three-way status, the ordering of the rows), the summary counts and the
    manual-completion toggle. */
module Progress {
  import opened Types
  import Seqs
  import opened Utils

  datatype SubjectState = InProgress | Upcoming | Done

  /** The sort order: in progress, then upcoming, then completed. */
  function Rank(s: SubjectState): int
  {
    match s
    case InProgress => 1
    case Upcoming => 2
    case Done => 3
  }

  datatype ProgressRow = ProgressRow(
    subject: Subject, learnedPeriods: int, percentage: Percent, status: SubjectState,
    isAutoCompleted: bool, isManuallyCompleted: bool)

  function RankKey(r: ProgressRow): (int, int)
  {
    (Rank(r.status), 0)
  }

  // ----- toggleManualComplete -----

  /** Removes the pair's key if present, otherwise appends it; with no class selected
      the list is returned unchanged. */
  function ToggleManualComplete(manual: seq<string>, subjectId: string, selectedClassId: string): (r: seq<string>)
    ensures selectedClassId == "" ==> r == manual
    ensures selectedClassId != "" ==> (PairKey(subjectId, selectedClassId) in r <==> PairKey(subjectId, selectedClassId) !in manual)
    ensures forall k :: k != PairKey(subjectId, selectedClassId) ==> (k in r <==> k in manual)
  {
    if selectedClassId == "" then manual
    else
      var key := PairKey(subjectId, selectedClassId);
      if key in manual then Seqs.Filter(manual, (k: string) => k != key) else manual + [key]
  }

  /** Toggling the same subject twice restores which keys are marked. */
  lemma ToggleTwice(manual: seq<string>, subjectId: string, selectedClassId: string)
    ensures forall k :: k in ToggleManualComplete(ToggleManualComplete(manual, subjectId, selectedClassId), subjectId, selectedClassId)
                        <==> k in manual
  {
  }

  // ----- progressData -----

  /** Periods of the pair's non-cancelled sessions dated today or earlier. */
  function Realized(schedules: seq<ScheduleItem>, subjectId: string, classId: string, today: int): int
  {
    if schedules == [] then 0
    else
      (if CountsFor(schedules[0], subjectId, classId) && schedules[0].date <= today then schedules[0].periodCount else 0)
      + Realized(schedules[1..], subjectId, classId, today)
  }

  /** Some non-cancelled session of the pair is dated today or earlier. */
  predicate Started(schedules: seq<ScheduleItem>, subjectId: string, classId: string, today: int)
  {
    exists s :: s in schedules && CountsFor(s, subjectId, classId) && s.date <= today
  }

  /** Periods can only have been realized by a session that has taken place. */
  lemma {:induction false} RealizedNeedsStart(schedules: seq<ScheduleItem>, subjectId: string, classId: string, today: int)
    requires Realized(schedules, subjectId, classId, today) != 0
    ensures Started(schedules, subjectId, classId, today)
  {
    var s := schedules[0];
    if !(CountsFor(s, subjectId, classId) && s.date <= today) {
      RealizedNeedsStart(schedules[1..], subjectId, classId, today);
      var t :| t in schedules[1..] && CountsFor(t, subjectId, classId) && t.date <= today;
      assert t in schedules;
    }
  }

  /** The row of one subject of the class. */
  function RowFor(sub: Subject, classId: string, schedules: seq<ScheduleItem>, today: int, manual: seq<string>): (row: ProgressRow)
    ensures row.subject == sub && row.learnedPeriods == Realized(schedules, sub.id, classId, today)
    ensures row.percentage == RoundedPercent(row.learnedPeriods, sub.totalPeriods)
    ensures row.status == Done <==> row.learnedPeriods >= sub.totalPeriods || PairKey(sub.id, classId) in manual
    ensures row.status == InProgress <==> row.status != Done && Started(schedules, sub.id, classId, today)
    ensures row.isAutoCompleted == (row.learnedPeriods >= sub.totalPeriods)
    ensures row.isManuallyCompleted == (PairKey(sub.id, classId) in manual)
  {
    var realized := Realized(schedules, sub.id, classId, today);
    var auto := realized >= sub.totalPeriods;
    var byHand := PairKey(sub.id, classId) in manual;
    var status := if auto || byHand then Done
                  else if Started(schedules, sub.id, classId, today) then InProgress
                  else Upcoming;
    ProgressRow(sub, realized, RoundedPercent(realized, sub.totalPeriods), status, auto, byHand)
  }

  /** A subject that has realized periods is never shown as upcoming. */
  lemma RealizedIsNotUpcoming(sub: Subject, classId: string, schedules: seq<ScheduleItem>, today: int, manual: seq<string>)
    requires RowFor(sub, classId, schedules, today, manual).learnedPeriods > 0
    ensures RowFor(sub, classId, schedules, today, manual).status != Upcoming
  {
    RealizedNeedsStart(schedules, sub.id, classId, today);
  }

  function FindClass(classes: seq<ClassEntity>, id: string): Option<ClassEntity>
  {
    Seqs.Find(classes, (c: ClassEntity) => c.id == id)
  }

  /** The subjects of the class's major. */
  function ClassSubjects(subjects: seq<Subject>, majorId: string): (r: seq<Subject>)
    ensures forall s :: s in r <==> s in subjects && s.majorId == majorId
  {
    Seqs.Filter(subjects, (s: Subject) => s.majorId == majorId)
  }

  /** The rows of the given subjects, in the subjects' order (classSubjects.map). */
  function Rows(subs: seq<Subject>, classId: string, schedules: seq<ScheduleItem>, today: int, manual: seq<string>)
    : (rows: seq<ProgressRow>)
    ensures |rows| == |subs|
    ensures forall i :: 0 <= i < |subs| ==> rows[i] == RowFor(subs[i], classId, schedules, today, manual)
  {
    seq(|subs|, i requires 0 <= i < |subs| => RowFor(subs[i], classId, schedules, today, manual))
  }

  /** progressData: the rows of the class's subjects, stably sorted by status rank. */
  function ProgressData(classes: seq<ClassEntity>, subjects: seq<Subject>, schedules: seq<ScheduleItem>,
                        selectedClassId: string, today: int, manual: seq<string>): (rows: seq<ProgressRow>)
    ensures FindClass(classes, selectedClassId).None? ==> rows == []
    ensures FindClass(classes, selectedClassId).Some? ==>
              var subs := ClassSubjects(subjects, FindClass(classes, selectedClassId).value.majorId);
              && multiset(rows) == multiset(Rows(subs, selectedClassId, schedules, today, manual))
              && |rows| == |subs|
    ensures Seqs.SortedBy(rows, RankKey)
  {
    match FindClass(classes, selectedClassId)
    case None => []
    case Some(c) =>
      Seqs.SortBy(Rows(ClassSubjects(subjects, c.majorId), selectedClassId, schedules, today, manual), RankKey)
  }

  /** The rows are exactly the rows of the subjects of the class's major. */
  lemma ProgressDataRows(classes: seq<ClassEntity>, subjects: seq<Subject>, schedules: seq<ScheduleItem>,
                         selectedClassId: string, today: int, manual: seq<string>, c: ClassEntity)
    requires FindClass(classes, selectedClassId) == Some(c)
    ensures var rows := ProgressData(classes, subjects, schedules, selectedClassId, today, manual);
            && (forall s :: s in subjects && s.majorId == c.majorId ==>
                  RowFor(s, selectedClassId, schedules, today, manual) in rows)
            && (forall r :: r in rows ==>
                  r.subject in subjects && r.subject.majorId == c.majorId
                  && r == RowFor(r.subject, selectedClassId, schedules, today, manual))
  {
    var subs := ClassSubjects(subjects, c.majorId);
    var unsorted := Rows(subs, selectedClassId, schedules, today, manual);
    var rows := ProgressData(classes, subjects, schedules, selectedClassId, today, manual);
    assert multiset(rows) == multiset(unsorted);
    forall s | s in subjects && s.majorId == c.majorId
      ensures RowFor(s, selectedClassId, schedules, today, manual) in rows
    {
      var i :| 0 <= i < |subs| && subs[i] == s;
      assert unsorted[i] in multiset(unsorted);
      assert unsorted[i] in multiset(rows);
    }
    forall r | r in rows
      ensures r.subject in subjects && r.subject.majorId == c.majorId
              && r == RowFor(r.subject, selectedClassId, schedules, today, manual)
    {
      assert r in multiset(rows);
      assert r in multiset(unsorted);
      var i :| 0 <= i < |unsorted| && unsorted[i] == r;
      assert subs[i] in subs;
    }
  }

  // ----- summary -----

  datatype Summary = Summary(total: int, completed: int, inProgress: int, upcoming: int)

  /** The statuses of the rows, in order. */
  function Statuses(rows: seq<ProgressRow>): (r: seq<SubjectState>)
    ensures |r| == |rows| && forall i :: 0 <= i < |rows| ==> r[i] == rows[i].status
  {
    seq(|rows|, i requires 0 <= i < |rows| => rows[i].status)
  }

  /** Filtering the rows by one status keeps as many rows as the status occurs. */
  lemma {:induction false} FilterCountsStatus(rows: seq<ProgressRow>, p: ProgressRow -> bool, status: SubjectState)
    requires forall r :: p(r) == (r.status == status)
    ensures |Seqs.Filter(rows, p)| == multiset(Statuses(rows))[status]
  {
    if rows != [] {
      FilterCountsStatus(rows[1..], p, status);
      assert Statuses(rows) == [rows[0].status] + Statuses(rows[1..]);
    }
  }

  function Summarize(rows: seq<ProgressRow>): (s: Summary)
    ensures s.total == |rows|
    ensures s.completed == multiset(Statuses(rows))[Done]
    ensures s.inProgress == multiset(Statuses(rows))[InProgress]
    ensures s.upcoming == multiset(Statuses(rows))[Upcoming]
    ensures 0 <= s.completed <= s.total && 0 <= s.inProgress <= s.total && 0 <= s.upcoming <= s.total
    ensures s.completed == 0 <==> forall r :: r in rows ==> r.status != Done
    ensures s.inProgress == 0 <==> forall r :: r in rows ==> r.status != InProgress
    ensures s.upcoming == 0 <==> forall r :: r in rows ==> r.status != Upcoming
  {
    var done := Seqs.Filter(rows, (r: ProgressRow) => r.status == Done);
    var started := Seqs.Filter(rows, (r: ProgressRow) => r.status == InProgress);
    var upcoming := Seqs.Filter(rows, (r: ProgressRow) => r.status == Upcoming);
    FilterCountsStatus(rows, (r: ProgressRow) => r.status == Done, Done);
    FilterCountsStatus(rows, (r: ProgressRow) => r.status == InProgress, InProgress);
    FilterCountsStatus(rows, (r: ProgressRow) => r.status == Upcoming, Upcoming);
    assert done != [] ==> done[0] in done;
    assert started != [] ==> started[0] in started;
    assert upcoming != [] ==> upcoming[0] in upcoming;
    Summary(|rows|, |done|, |started|, |upcoming|)
  }

  /** Every row has exactly one of the three statuses, so the counts add up to the total. */
  lemma SummaryAddsUp(rows: seq<ProgressRow>)
    ensures var s := Summarize(rows);
            s.completed + s.inProgress + s.upcoming == s.total
  {
    Seqs.FilterPartition3(rows, (r: ProgressRow) => r.status == Done,
                          (r: ProgressRow) => r.status == InProgress, (r: ProgressRow) => r.status == Upcoming);
  }
}
