/** components/Statistics.tsx: sessions awaiting a makeup, periods and income per teacher,
    the pairs still being taught, and the sessions listed in the teacher report. */
module Statistics {
  import opened Types
  import Seqs
  import opened Utils
  import Progress

  // ----- missedClasses -----

  /** The cancelled sessions, which need a makeup. */
  function MissedClasses(schedules: seq<ScheduleItem>): (r: seq<ScheduleItem>)
    ensures forall s :: s in r <==> s in schedules && s.status == Off
  {
    Seqs.Filter(schedules, (s: ScheduleItem) => s.status == Off)
  }

  // ----- teacherStats -----

  /** The stored statuses whose periods count towards a teacher's total. */
  predicate Billable(status: ScheduleStatus)
  {
    status == Completed || status == Ongoing || status == Pending
  }

  /** Periods of the teacher's sessions whose stored status is billable. */
  function TaughtPeriods(schedules: seq<ScheduleItem>, teacherId: string): (r: int)
    ensures (forall s :: s in schedules && s.teacherId == teacherId ==> s.periodCount >= 0) ==> r >= 0
    ensures (forall s :: s in schedules && s.teacherId == teacherId ==> !Billable(s.status)) ==> r == 0
  {
    if schedules == [] then 0
    else (if schedules[0].teacherId == teacherId && Billable(schedules[0].status) then schedules[0].periodCount else 0)
         + TaughtPeriods(schedules[1..], teacherId)
  }

  lemma {:induction false} TaughtPeriodsConcat(a: seq<ScheduleItem>, b: seq<ScheduleItem>, teacherId: string)
    ensures TaughtPeriods(a + b, teacherId) == TaughtPeriods(a, teacherId) + TaughtPeriods(b, teacherId)
  {
    if a == [] {
      assert a + b == b;
    } else {
      assert (a + b)[1..] == a[1..] + b;
      TaughtPeriodsConcat(a[1..], b, teacherId);
    }
  }

  /** A new session adds its periods to its own teacher's total exactly when its stored
      status is Completed, Ongoing or Pending; makeup and cancelled sessions add nothing. */
  lemma AddingSessionToTotals(schedules: seq<ScheduleItem>, s: ScheduleItem, teacherId: string)
    ensures TaughtPeriods(schedules + [s], teacherId)
            == TaughtPeriods(schedules, teacherId) + (if s.teacherId == teacherId && Billable(s.status) then s.periodCount else 0)
    ensures s.status == Makeup || s.status == Off ==> TaughtPeriods(schedules + [s], teacherId) == TaughtPeriods(schedules, teacherId)
  {
    TaughtPeriodsConcat(schedules, [s], teacherId);
    assert [s][1..] == [];
  }

  datatype TeacherStat = TeacherStat(name: string, periods: int, income: int)

  function StatOf(t: Teacher, schedules: seq<ScheduleItem>): (r: TeacherStat)
    ensures r.name == t.name && r.periods == TaughtPeriods(schedules, t.id)
    ensures r.income == r.periods * t.ratePerPeriod
  {
    var periods := TaughtPeriods(schedules, t.id);
    TeacherStat(t.name, periods, periods * t.ratePerPeriod)
  }

  /** teacherStats: one row per teacher, dropping those with no billable periods. */
  function TeacherStats(teachers: seq<Teacher>, schedules: seq<ScheduleItem>): (r: seq<TeacherStat>)
    ensures forall st :: st in r ==> st.periods > 0
    ensures forall t :: t in teachers && TaughtPeriods(schedules, t.id) > 0 ==> StatOf(t, schedules) in r
    ensures forall st :: st in r ==> exists t :: t in teachers && st == StatOf(t, schedules)
  {
    var all := seq(|teachers|, i requires 0 <= i < |teachers| => StatOf(teachers[i], schedules));
    assert forall t :: t in teachers ==> StatOf(t, schedules) in all by {
      forall t | t in teachers ensures StatOf(t, schedules) in all {
        var i :| 0 <= i < |teachers| && teachers[i] == t;
        assert all[i] == StatOf(t, schedules);
      }
    }
    Seqs.Filter(all, (st: TeacherStat) => st.periods > 0)
  }

  // ----- subjectStats -----

  datatype SubjectStat = SubjectStat(
    name: string, className: string, fullName: string, total: int, learned: int, remaining: int)

  function StatRow(cls: ClassEntity, sub: Subject, schedules: seq<ScheduleItem>): (r: SubjectStat)
    ensures var p := CalculateSubjectProgress(sub.id, cls.id, sub.totalPeriods, schedules);
            r.learned == p.learned && r.remaining == p.remaining && r.total == p.total
    ensures r.name == sub.name && r.className == cls.name && r.fullName == sub.name + " (" + cls.name + ")"
  {
    var learned := Learned(sub.id, cls.id, schedules);
    var remaining := if sub.totalPeriods - learned > 0 then sub.totalPeriods - learned else 0;
    SubjectStat(sub.name, cls.name, sub.name + " (" + cls.name + ")", sub.totalPeriods, learned, remaining)
  }

  /** A pair of the class's major that has started and is not yet finished. */
  predicate InProgress(cls: ClassEntity, sub: Subject, schedules: seq<ScheduleItem>)
    ensures InProgress(cls, sub, schedules) ==>
              StatRow(cls, sub, schedules).learned > 0 && StatRow(cls, sub, schedules).remaining > 0
              && StatRow(cls, sub, schedules).learned + StatRow(cls, sub, schedules).remaining == sub.totalPeriods
  {
    && sub.majorId == cls.majorId
    && Learned(sub.id, cls.id, schedules) > 0
    && Learned(sub.id, cls.id, schedules) < sub.totalPeriods
  }

  /** The rows pushed for one class, over its subjects in order. */
  function ClassStats(cls: ClassEntity, subs: seq<Subject>, schedules: seq<ScheduleItem>): seq<SubjectStat>
  {
    if subs == [] then []
    else
      var sub := subs[|subs| - 1];
      ClassStats(cls, subs[..|subs| - 1], schedules)
        + (if InProgress(cls, sub, schedules) then [StatRow(cls, sub, schedules)] else [])
  }

  /** subjectStats, class by class. */
  function AllStats(classes: seq<ClassEntity>, subjects: seq<Subject>, schedules: seq<ScheduleItem>): seq<SubjectStat>
  {
    if classes == [] then []
    else
      var cls := classes[|classes| - 1];
      AllStats(classes[..|classes| - 1], subjects, schedules)
        + ClassStats(cls, Progress.ClassSubjects(subjects, cls.majorId), schedules)
  }

  /** The nested forEach that builds subjectStats. */
  method SubjectStats(classes: seq<ClassEntity>, subjects: seq<Subject>, schedules: seq<ScheduleItem>)
    returns (results: seq<SubjectStat>)
    ensures results == AllStats(classes, subjects, schedules)
  {
    results := [];
    for i := 0 to |classes|
      invariant results == AllStats(classes[..i], subjects, schedules)
    {
      var cls := classes[i];
      assert classes[..i + 1][..i] == classes[..i];
      results := PushClassStats(results, cls, Progress.ClassSubjects(subjects, cls.majorId), schedules);
    }
    assert classes[..|classes|] == classes;
  }

  /** The inner forEach over the subjects of the class's major. */
  method PushClassStats(results0: seq<SubjectStat>, cls: ClassEntity, classSubjects: seq<Subject>,
                        schedules: seq<ScheduleItem>)
    returns (results: seq<SubjectStat>)
    requires forall s :: s in classSubjects ==> s.majorId == cls.majorId
    ensures results == results0 + ClassStats(cls, classSubjects, schedules)
  {
    results := results0;
    for j := 0 to |classSubjects|
      invariant results == results0 + ClassStats(cls, classSubjects[..j], schedules)
    {
      var sub := classSubjects[j];
      assert classSubjects[..j + 1][..j] == classSubjects[..j];
      assert sub in classSubjects;
      var learned := Learned(sub.id, cls.id, schedules);
      var remaining := if sub.totalPeriods - learned > 0 then sub.totalPeriods - learned else 0;
      if learned > 0 && remaining > 0 {
        results := results + [SubjectStat(sub.name, cls.name, sub.name + " (" + cls.name + ")",
                                          sub.totalPeriods, learned, remaining)];
      }
    }
    assert classSubjects[..|classSubjects|] == classSubjects;
  }

  lemma {:induction false} ClassStatsInProgress(cls: ClassEntity, subs: seq<Subject>, schedules: seq<ScheduleItem>)
    ensures forall r :: r in ClassStats(cls, subs, schedules) ==>
              exists sub :: sub in subs && InProgress(cls, sub, schedules) && r == StatRow(cls, sub, schedules)
  {
    if subs != [] {
      var n := |subs| - 1;
      ClassStatsInProgress(cls, subs[..n], schedules);
      assert forall s :: s in subs[..n] ==> s in subs;
      assert subs[n] in subs;
    }
  }

  lemma {:induction false} ClassStatsComplete(cls: ClassEntity, subs: seq<Subject>, schedules: seq<ScheduleItem>, sub: Subject)
    requires sub in subs && InProgress(cls, sub, schedules)
    ensures StatRow(cls, sub, schedules) in ClassStats(cls, subs, schedules)
  {
    var n := |subs| - 1;
    if subs[n] != sub {
      assert sub in subs[..n] by {
        var k :| 0 <= k < |subs| && subs[k] == sub;
        assert subs[..n][k] == sub;
      }
      ClassStatsComplete(cls, subs[..n], schedules, sub);
    }
  }

  /** Every row is a started, unfinished pair, and its learned and remaining periods
      make up the subject's total. */
  lemma {:induction false} ListedPairsInProgress(classes: seq<ClassEntity>, subjects: seq<Subject>, schedules: seq<ScheduleItem>)
    ensures forall r :: r in AllStats(classes, subjects, schedules) ==>
              && r.learned > 0 && r.remaining > 0 && r.learned + r.remaining == r.total
              && exists cls, sub :: cls in classes && sub in subjects && InProgress(cls, sub, schedules)
                                    && r == StatRow(cls, sub, schedules)
  {
    if classes != [] {
      var n := |classes| - 1;
      var cls := classes[n];
      ListedPairsInProgress(classes[..n], subjects, schedules);
      ClassStatsInProgress(cls, Progress.ClassSubjects(subjects, cls.majorId), schedules);
      assert forall c :: c in classes[..n] ==> c in classes;
      assert cls in classes;
    }
  }

  /** Every started, unfinished pair of a class's major has a row. */
  lemma {:induction false} InProgressPairsListed(classes: seq<ClassEntity>, subjects: seq<Subject>, schedules: seq<ScheduleItem>,
                                                 cls: ClassEntity, sub: Subject)
    requires cls in classes && sub in subjects && InProgress(cls, sub, schedules)
    ensures StatRow(cls, sub, schedules) in AllStats(classes, subjects, schedules)
  {
    var n := |classes| - 1;
    if classes[n] == cls {
      ClassStatsComplete(cls, Progress.ClassSubjects(subjects, cls.majorId), schedules, sub);
    } else {
      assert cls in classes[..n] by {
        var k :| 0 <= k < |classes| && classes[k] == cls;
        assert classes[..n][k] == cls;
      }
      InProgressPairsListed(classes[..n], subjects, schedules, cls, sub);
    }
  }

  // ----- exportTeacherReport -----

  /** The sessions listed in the teacher report: stored status Completed or Ongoing. */
  function ReportSessions(schedules: seq<ScheduleItem>): (r: seq<ScheduleItem>)
    ensures forall s :: s in r <==> s in schedules && (s.status == Completed || s.status == Ongoing)
  {
    Seqs.Filter(schedules, (s: ScheduleItem) => s.status == Completed || s.status == Ongoing)
  }

  /** Pending sessions count towards a teacher's periods but are not listed in the report. */
  lemma PendingCountedNotReported(schedules: seq<ScheduleItem>, s: ScheduleItem)
    requires s.status == Pending
    ensures s !in ReportSessions(schedules)
    ensures TaughtPeriods(schedules + [s], s.teacherId) == TaughtPeriods(schedules, s.teacherId) + s.periodCount
  {
    AddingSessionToTotals(schedules, s, s.teacherId);
  }
}
