/** components/Dashboard.tsx: today's lessons and the next exams. */
module Dashboard {
  import opened Types
  import Seqs
  import Scheduling

  /** The number of exams the dashboard lists. */
  const UpcomingLimit: nat := 5

  function PeriodKey(s: ScheduleItem): (int, int)
  {
    (s.startPeriod, 0)
  }

  function DayKey(s: ScheduleItem): (int, int)
  {
    (s.date, 0)
  }

  /** todaySchedules: the lessons (not exams) dated today, by start period; the sort is
      stable, so sessions starting together keep their stored order. */
  function TodaySchedules(schedules: seq<ScheduleItem>, today: int): (r: seq<ScheduleItem>)
    ensures forall s :: s in r <==> s in schedules && s.kind == Lesson && s.date == today
    ensures multiset(r) == multiset(Seqs.Filter(schedules, (s: ScheduleItem) => s.kind == Lesson && s.date == today))
    ensures forall i, j :: 0 <= i < j < |r| ==> r[i].startPeriod <= r[j].startPeriod
  {
    var todays := Seqs.Filter(schedules, (s: ScheduleItem) => s.kind == Lesson && s.date == today);
    var r := Seqs.SortBy(todays, PeriodKey);
    Seqs.SortByMembers(todays, PeriodKey);
    Seqs.SortedPrimary(r, PeriodKey);
    r
  }

  /** The exams dated today or later, earliest first. */
  function ExamsAhead(schedules: seq<ScheduleItem>, today: int): (r: seq<ScheduleItem>)
    ensures forall s :: s in r <==> s in schedules && s.kind == Exam && s.date >= today
    ensures multiset(r) == multiset(Seqs.Filter(schedules, (s: ScheduleItem) => s.kind == Exam && s.date >= today))
    ensures forall i, j :: 0 <= i < j < |r| ==> r[i].date <= r[j].date
  {
    var ahead := Seqs.Filter(schedules, (s: ScheduleItem) => s.kind == Exam && s.date >= today);
    var r := Seqs.SortBy(ahead, DayKey);
    Seqs.SortByMembers(ahead, DayKey);
    Seqs.SortedPrimary(r, DayKey);
    r
  }

  /** upcomingExams: the first five of the exams ahead. */
  function UpcomingExams(schedules: seq<ScheduleItem>, today: int): (r: seq<ScheduleItem>)
    ensures |r| <= UpcomingLimit
    ensures forall s :: s in r ==> s in schedules && s.kind == Exam && s.date >= today
    ensures forall i, j :: 0 <= i < j < |r| ==> r[i].date <= r[j].date
  {
    var ahead := ExamsAhead(schedules, today);
    var r := Seqs.Take(ahead, UpcomingLimit);
    assert forall i :: 0 <= i < |r| ==> r[i] == ahead[i];
    r
  }

  /** The listed exams are the earliest ones: there are five of them whenever five or more
      exams lie ahead, and every exam ahead that is left out is dated no earlier than any
      listed one. */
  lemma UpcomingAreEarliest(schedules: seq<ScheduleItem>, today: int)
    ensures var ahead := ExamsAhead(schedules, today);
            var r := UpcomingExams(schedules, today);
            && |r| == (if |ahead| < UpcomingLimit then |ahead| else UpcomingLimit)
            && multiset(r) + multiset(ahead[|r|..]) == multiset(ahead)
            && forall i, j :: 0 <= i < |r| <= j < |ahead| ==> r[i].date <= ahead[j].date
  {
    TakeIsEarliest(ExamsAhead(schedules, today), UpcomingLimit);
  }

  /** Taking the first n of a list in date order keeps the earliest ones. */
  lemma TakeIsEarliest(xs: seq<ScheduleItem>, n: nat)
    requires forall i, j :: 0 <= i < j < |xs| ==> xs[i].date <= xs[j].date
    ensures var r := Seqs.Take(xs, n);
            && |r| == (if |xs| < n then |xs| else n)
            && multiset(r) + multiset(xs[|r|..]) == multiset(xs)
            && forall i, j :: 0 <= i < |r| <= j < |xs| ==> r[i].date <= xs[j].date
  {
    var r := Seqs.Take(xs, n);
    assert xs == r + xs[|r|..];
    forall i, j | 0 <= i < |r| <= j < |xs|
      ensures r[i].date <= xs[j].date
    {
      assert r[i] == xs[i];
    }
  }

  /** The label "Tiết a - b": the first and last period of the session. */
  function PeriodRange(s: ScheduleItem): (int, int)
  {
    (s.startPeriod, s.startPeriod + s.periodCount - 1)
  }

  /** The label's range is exactly the periods the session occupies in the timetable. */
  lemma PeriodRangeIsOccupied(s: ScheduleItem, period: int)
    ensures var (first, last) := PeriodRange(s);
            first <= period <= last <==> Scheduling.Occupies(s, s.date, period)
  {
  }
}
