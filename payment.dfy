/** components/Payment.tsx: the finished (subject, class) pairs awaiting payment, the
    paid list, and the sessions listed in a pair's export. */
module Payment {
  import opened Types
  import Seqs
  import opened Utils
  import Progress
  import Scheduling

  datatype PaymentRow = PaymentRow(
    subjectId: string, classId: string, uniqueKey: string, subjectName: string,
    className: string, teacherName: string, totalPeriods: int)

  const DeletedTeacher := "GV đã xóa"
  const UnknownTeacher := "Chưa xác định"

  /** The pair's non-cancelled sessions (relevantSchedules). */
  function Relevant(schedules: seq<ScheduleItem>, subjectId: string, classId: string): (r: seq<ScheduleItem>)
    ensures forall s :: s in r <==> s in schedules && CountsFor(s, subjectId, classId)
  {
    Seqs.Filter(schedules, (s: ScheduleItem) => CountsFor(s, subjectId, classId))
  }

  /** The name shown for a teacher id: a missing teacher or an empty name shows as deleted. */
  function NameOf(teachers: seq<Teacher>, id: string): (name: string)
    ensures name != ""
    ensures (forall t :: t in teachers ==> t.id != id) ==> name == DeletedTeacher
    ensures forall i :: 0 <= i < |teachers| && teachers[i].id == id && (forall j :: 0 <= j < i ==> teachers[j].id != id) ==>
              name == (if teachers[i].name == "" then DeletedTeacher else teachers[i].name)
  {
    match Seqs.Find(teachers, (t: Teacher) => t.id == id)
    case None => DeletedTeacher
    case Some(t) => if t.name == "" then DeletedTeacher else t.name
  }

  function Join(parts: seq<string>, sep: string): (r: string)
    ensures parts != [] && parts[0] != "" ==> r != ""
  {
    if parts == [] then ""
    else if |parts| == 1 then parts[0]
    else parts[0] + sep + Join(parts[1..], sep)
  }

  /** The ids of the teachers who taught the pair, each once, in order of first session. */
  function TeacherIds(schedules: seq<ScheduleItem>, subjectId: string, classId: string): (ids: seq<string>)
    ensures Seqs.NoDuplicates(ids)
    ensures forall id :: id in ids <==> exists s :: s in schedules && CountsFor(s, subjectId, classId) && s.teacherId == id
  {
    var rel := Relevant(schedules, subjectId, classId);
    var all := seq(|rel|, i requires 0 <= i < |rel| => rel[i].teacherId);
    assert forall s :: s in rel ==> s.teacherId in all by {
      forall s | s in rel ensures s.teacherId in all {
        var i :| 0 <= i < |rel| && rel[i] == s;
        assert all[i] == s.teacherId;
      }
    }
    Seqs.Distinct(all)
  }

  function TeacherNames(teachers: seq<Teacher>, ids: seq<string>): (names: seq<string>)
    ensures |names| == |ids|
    ensures forall i :: 0 <= i < |ids| ==> names[i] == NameOf(teachers, ids[i])
  {
    seq(|ids|, i requires 0 <= i < |ids| => NameOf(teachers, ids[i]))
  }

  /** The teacher cell: the joined names, or "not determined" when there are none. */
  function TeacherCell(teachers: seq<Teacher>, schedules: seq<ScheduleItem>, subjectId: string, classId: string): (r: string)
    ensures r != ""
    ensures TeacherIds(schedules, subjectId, classId) == [] ==> r == UnknownTeacher
    ensures TeacherIds(schedules, subjectId, classId) != [] ==>
              r == Join(TeacherNames(teachers, TeacherIds(schedules, subjectId, classId)), ", ")
  {
    var joined := Join(TeacherNames(teachers, TeacherIds(schedules, subjectId, classId)), ", ");
    if joined == "" then UnknownTeacher else joined
  }

  function RowOf(cls: ClassEntity, sub: Subject, schedules: seq<ScheduleItem>, teachers: seq<Teacher>): (r: PaymentRow)
    ensures r.subjectId == sub.id && r.classId == cls.id && r.uniqueKey == PairKey(sub.id, cls.id)
    ensures r.teacherName == TeacherCell(teachers, schedules, sub.id, cls.id) && r.teacherName != ""
    ensures r.totalPeriods == sub.totalPeriods
    ensures r.subjectName == sub.name && r.className == cls.name
  {
    PaymentRow(sub.id, cls.id, PairKey(sub.id, cls.id), sub.name, cls.name,
               TeacherCell(teachers, schedules, sub.id, cls.id), sub.totalPeriods)
  }

  /** A pair of the class's major, not paid yet, whose non-cancelled sessions (future ones
      included) reach the subject's total and are not all empty. */
  predicate Qualifies(cls: ClassEntity, sub: Subject, schedules: seq<ScheduleItem>, paid: seq<string>)
    ensures Qualifies(cls, sub, schedules, paid) ==> exists s :: s in schedules && CountsFor(s, sub.id, cls.id)
  {
    && sub.majorId == cls.majorId
    && PairKey(sub.id, cls.id) !in paid
    && Learned(sub.id, cls.id, schedules) >= sub.totalPeriods
    && Learned(sub.id, cls.id, schedules) > 0
  }

  /** The rows pushed for one class, over its subjects in order. */
  function ClassRows(cls: ClassEntity, subs: seq<Subject>, schedules: seq<ScheduleItem>, teachers: seq<Teacher>,
                     paid: seq<string>): seq<PaymentRow>
  {
    if subs == [] then []
    else
      var sub := subs[|subs| - 1];
      ClassRows(cls, subs[..|subs| - 1], schedules, teachers, paid)
        + (if Qualifies(cls, sub, schedules, paid) then [RowOf(cls, sub, schedules, teachers)] else [])
  }

  /** completedSubjects, class by class. */
  function AllRows(classes: seq<ClassEntity>, subjects: seq<Subject>, schedules: seq<ScheduleItem>,
                   teachers: seq<Teacher>, paid: seq<string>): seq<PaymentRow>
  {
    if classes == [] then []
    else
      var cls := classes[|classes| - 1];
      AllRows(classes[..|classes| - 1], subjects, schedules, teachers, paid)
        + ClassRows(cls, Progress.ClassSubjects(subjects, cls.majorId), schedules, teachers, paid)
  }

  /** The nested forEach that builds completedSubjects. */
  method CompletedSubjects(classes: seq<ClassEntity>, subjects: seq<Subject>, schedules: seq<ScheduleItem>,
                           teachers: seq<Teacher>, paid: seq<string>)
    returns (results: seq<PaymentRow>)
    ensures results == AllRows(classes, subjects, schedules, teachers, paid)
  {
    results := [];
    for i := 0 to |classes|
      invariant results == AllRows(classes[..i], subjects, schedules, teachers, paid)
    {
      var cls := classes[i];
      assert classes[..i + 1][..i] == classes[..i];
      results := PushClassRows(results, cls, Progress.ClassSubjects(subjects, cls.majorId), schedules, teachers, paid);
    }
    assert classes[..|classes|] == classes;
  }

  /** The inner forEach over the subjects of the class's major. */
  method PushClassRows(results0: seq<PaymentRow>, cls: ClassEntity, classSubjects: seq<Subject>,
                       schedules: seq<ScheduleItem>, teachers: seq<Teacher>, paid: seq<string>)
    returns (results: seq<PaymentRow>)
    requires forall s :: s in classSubjects ==> s.majorId == cls.majorId
    ensures results == results0 + ClassRows(cls, classSubjects, schedules, teachers, paid)
  {
    results := results0;
    for j := 0 to |classSubjects|
      invariant results == results0 + ClassRows(cls, classSubjects[..j], schedules, teachers, paid)
    {
      var sub := classSubjects[j];
      ClassRowsPrefix(cls, classSubjects, schedules, teachers, paid, j);
      assert sub in classSubjects;
      var uniqueKey := PairKey(sub.id, cls.id);
      if uniqueKey in paid {
        assert !Qualifies(cls, sub, schedules, paid);
        continue;
      }
      var learned := Learned(sub.id, cls.id, schedules);
      if learned >= sub.totalPeriods && learned > 0 {
        assert Qualifies(cls, sub, schedules, paid);
        results := results + [RowOf(cls, sub, schedules, teachers)];
      } else {
        assert !Qualifies(cls, sub, schedules, paid);
      }
    }
    assert classSubjects[..|classSubjects|] == classSubjects;
  }

  lemma ClassRowsPrefix(cls: ClassEntity, subs: seq<Subject>, schedules: seq<ScheduleItem>, teachers: seq<Teacher>,
                        paid: seq<string>, j: int)
    requires 0 <= j < |subs|
    ensures ClassRows(cls, subs[..j + 1], schedules, teachers, paid)
         == ClassRows(cls, subs[..j], schedules, teachers, paid)
            + (if Qualifies(cls, subs[j], schedules, paid) then [RowOf(cls, subs[j], schedules, teachers)] else [])
  {
    assert subs[..j + 1][..j] == subs[..j];
  }

  // ----- properties of the list -----

  lemma {:induction false} ClassRowsQualify(cls: ClassEntity, subs: seq<Subject>, schedules: seq<ScheduleItem>,
                                            teachers: seq<Teacher>, paid: seq<string>)
    ensures forall r :: r in ClassRows(cls, subs, schedules, teachers, paid) ==>
              exists sub :: sub in subs && Qualifies(cls, sub, schedules, paid) && r == RowOf(cls, sub, schedules, teachers)
  {
    if subs != [] {
      var n := |subs| - 1;
      ClassRowsQualify(cls, subs[..n], schedules, teachers, paid);
      assert forall s :: s in subs[..n] ==> s in subs;
      assert subs[n] in subs;
    }
  }

  lemma {:induction false} ClassRowsComplete(cls: ClassEntity, subs: seq<Subject>, schedules: seq<ScheduleItem>,
                                             teachers: seq<Teacher>, paid: seq<string>, sub: Subject)
    requires sub in subs && Qualifies(cls, sub, schedules, paid)
    ensures RowOf(cls, sub, schedules, teachers) in ClassRows(cls, subs, schedules, teachers, paid)
  {
    var n := |subs| - 1;
    if subs[n] != sub {
      assert sub in subs[..n] by {
        var k :| 0 <= k < |subs| && subs[k] == sub;
        assert subs[..n][k] == sub;
      }
      ClassRowsComplete(cls, subs[..n], schedules, teachers, paid, sub);
    }
  }

  /** Every listed row is the row of a qualifying pair. */
  lemma {:induction false} ListedPairsQualify(classes: seq<ClassEntity>, subjects: seq<Subject>, schedules: seq<ScheduleItem>,
                                              teachers: seq<Teacher>, paid: seq<string>)
    ensures forall r :: r in AllRows(classes, subjects, schedules, teachers, paid) ==>
              exists cls, sub :: cls in classes && sub in subjects && Qualifies(cls, sub, schedules, paid)
                                 && r == RowOf(cls, sub, schedules, teachers)
  {
    if classes != [] {
      var n := |classes| - 1;
      var cls := classes[n];
      var subs := Progress.ClassSubjects(subjects, cls.majorId);
      ListedPairsQualify(classes[..n], subjects, schedules, teachers, paid);
      ClassRowsQualify(cls, subs, schedules, teachers, paid);
      assert forall c :: c in classes[..n] ==> c in classes;
      assert cls in classes;
    }
  }

  /** Every qualifying pair is listed. */
  lemma {:induction false} QualifyingPairsListed(classes: seq<ClassEntity>, subjects: seq<Subject>, schedules: seq<ScheduleItem>,
                                                 teachers: seq<Teacher>, paid: seq<string>, cls: ClassEntity, sub: Subject)
    requires cls in classes && sub in subjects && Qualifies(cls, sub, schedules, paid)
    ensures RowOf(cls, sub, schedules, teachers) in AllRows(classes, subjects, schedules, teachers, paid)
  {
    var n := |classes| - 1;
    if classes[n] == cls {
      ClassRowsComplete(cls, Progress.ClassSubjects(subjects, cls.majorId), schedules, teachers, paid, sub);
    } else {
      assert cls in classes[..n] by {
        var k :| 0 <= k < |classes| && classes[k] == cls;
        assert classes[..n][k] == cls;
      }
      QualifyingPairsListed(classes[..n], subjects, schedules, teachers, paid, cls, sub);
    }
  }

  /** handleDelete: the key joins the paid list. */
  function HandleDelete(paid: seq<string>, key: string): (r: seq<string>)
    ensures key in r && |r| == |paid| + 1
    ensures forall k :: k in paid ==> k in r
    ensures forall k :: k in r <==> k in paid || k == key
    ensures r[..|paid|] == paid && r[|paid|] == key
  {
    paid + [key]
  }

  /** Once a pair's key is marked paid, no listed row carries that key. */
  lemma PaidPairNotListed(classes: seq<ClassEntity>, subjects: seq<Subject>, schedules: seq<ScheduleItem>,
                          teachers: seq<Teacher>, paid: seq<string>, key: string)
    ensures forall r :: r in AllRows(classes, subjects, schedules, teachers, HandleDelete(paid, key)) ==> r.uniqueKey != key
  {
    ListedPairsQualify(classes, subjects, schedules, teachers, HandleDelete(paid, key));
  }

  /** A positive learned count needs a non-cancelled session of the pair. */
  lemma {:induction false} LearnedNeedsSession(schedules: seq<ScheduleItem>, subjectId: string, classId: string)
    requires Learned(subjectId, classId, schedules) != 0
    ensures exists s :: s in schedules && CountsFor(s, subjectId, classId)
  {
    if !CountsFor(schedules[0], subjectId, classId) {
      LearnedNeedsSession(schedules[1..], subjectId, classId);
      var t :| t in schedules[1..] && CountsFor(t, subjectId, classId);
      assert t in schedules;
    }
  }

  /** A listed pair always names its teachers: the "not determined" fallback is never
      shown, because a listed pair has at least one session and so at least one teacher. */
  lemma ListedRowsNameTeachers(cls: ClassEntity, sub: Subject, schedules: seq<ScheduleItem>, teachers: seq<Teacher>,
                               paid: seq<string>)
    requires Qualifies(cls, sub, schedules, paid)
    ensures var ids := TeacherIds(schedules, sub.id, cls.id);
            && ids != []
            && RowOf(cls, sub, schedules, teachers).teacherName == Join(TeacherNames(teachers, ids), ", ")
  {
    LearnedNeedsSession(schedules, sub.id, cls.id);
    var s :| s in schedules && CountsFor(s, sub.id, cls.id);
    var ids := TeacherIds(schedules, sub.id, cls.id);
    assert s.teacherId in ids;
    assert TeacherNames(teachers, ids)[0] != "";
  }

  // ----- exportFinishedSubject -----

  /** The sessions listed in a pair's export: its non-cancelled sessions by date, then period. */
  function ExportSessions(schedules: seq<ScheduleItem>, subjectId: string, classId: string): (r: seq<ScheduleItem>)
    ensures Seqs.SortedBy(r, Scheduling.DateKey)
    ensures multiset(r) == multiset(Relevant(schedules, subjectId, classId))
    ensures forall s :: s in r <==> s in schedules && CountsFor(s, subjectId, classId)
  {
    var rel := Relevant(schedules, subjectId, classId);
    var r := Seqs.SortBy(rel, Scheduling.DateKey);
    assert forall s :: (s in r <==> s in multiset(r)) && (s in rel <==> s in multiset(rel));
    r
  }
}
