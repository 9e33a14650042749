/** The entities of the scheduling tool (types.ts) as values.
    Calendar dates are day ordinals (see module Calendar), identifiers are strings. */
module Types {

  datatype Option<T> = None | Some(value: T)

  /** The five session states; OFF ("Nghỉ") and MAKEUP ("Tiết bổ sung") are set by hand. */
  datatype ScheduleStatus = Pending | Ongoing | Completed | Makeup | Off

  /** A session is either a lesson ('class') or an exam ('exam'). */
  datatype Kind = Lesson | Exam

  /** Part of the day a session starts in: 'Sáng', 'Chiều', 'Tối'. */
  datatype DayPart = Morning | Afternoon | Evening

  /** Classification of an uploaded document by its extension. */
  datatype FileType = Word | Excel | Pdf | Other

  datatype Teacher = Teacher(
    id: string, name: string, phone: string, accountNumber: string, bank: string,
    mainSubject: string, ratePerPeriod: int)

  datatype Subject = Subject(
    id: string, name: string, majorId: string, totalPeriods: int,
    teacher1: Option<string>, phone1: Option<string>,
    teacher2: Option<string>, phone2: Option<string>,
    teacher3: Option<string>, phone3: Option<string>)

  datatype ClassEntity = ClassEntity(
    id: string, name: string, studentCount: int, majorId: string, schoolYear: string)

  datatype Student = Student(
    id: string, classId: string, name: string, dob: string, pob: string,
    fatherName: string, motherName: string, phone: string)

  datatype Major = Major(id: string, name: string)

  datatype DocumentItem = DocumentItem(
    id: string, name: string, fileType: FileType, size: int, uploadDate: string, content: string)

  /** A stored session. `date` is a day ordinal; the session occupies the half-open
      period range [startPeriod, startPeriod + periodCount). */
  datatype ScheduleItem = ScheduleItem(
    id: string, kind: Kind, teacherId: string, subjectId: string, classId: string,
    roomId: string, date: int, session: DayPart, startPeriod: int, periodCount: int,
    status: ScheduleStatus, note: Option<string>)

  /** A session that has no id and no status yet (Omit<ScheduleItem, 'id' | 'status'>). */
  datatype Draft = Draft(
    kind: Kind, teacherId: string, subjectId: string, classId: string,
    roomId: string, date: int, session: DayPart, startPeriod: int, periodCount: int,
    note: Option<string>)

  /** The draft part of a stored session. */
  function ToDraft(s: ScheduleItem): Draft
  {
    Draft(s.kind, s.teacherId, s.subjectId, s.classId, s.roomId, s.date, s.session,
          s.startPeriod, s.periodCount, s.note)
  }

  /** A draft given an id and a status. */
  function Stamp(d: Draft, id: string, status: ScheduleStatus): (s: ScheduleItem)
    ensures s.id == id && s.status == status && ToDraft(s) == d
  {
    ScheduleItem(id, d.kind, d.teacherId, d.subjectId, d.classId, d.roomId, d.date, d.session,
                 d.startPeriod, d.periodCount, status, d.note)
  }

  /** A stored session is its draft stamped with its own id and status. */
  lemma StampOfDraft(s: ScheduleItem)
    ensures Stamp(ToDraft(s), s.id, s.status) == s
  {
  }

  /** The key `${subjectId}-${classId}` that identifies a (subject, class) pair. */
  function PairKey(subjectId: string, classId: string): string
  {
    subjectId + "-" + classId
  }

  /** The key determines the pair whenever subject ids contain no '-'
      (ids made by the tool are base-36 strings). */
  lemma {:induction false} PairKeyInjective(s1: string, c1: string, s2: string, c2: string)
    requires '-' !in s1 && '-' !in s2
    requires PairKey(s1, c1) == PairKey(s2, c2)
    ensures s1 == s2 && c1 == c2
  {
    var k := PairKey(s1, c1);
    assert k[|s1|] == '-' && k[|s2|] == '-';
    assert forall i :: 0 <= i < |s1| ==> k[i] == s1[i];
    assert forall i :: 0 <= i < |s2| ==> k[i] == s2[i];
    assert |s1| == |s2|;
    assert s1 == k[..|s1|] == s2;
    assert c1 == k[|s1| + 1..] == c2;
  }

  /** Without that restriction two different pairs can share a key. */
  lemma PairKeyCollision()
    ensures PairKey("a-b", "c") == PairKey("a", "b-c")
  {
  }

  /** With the class fixed the key determines the subject, whatever the ids contain. */
  lemma PairKeyCancel(s1: string, s2: string, classId: string)
    requires PairKey(s1, classId) == PairKey(s2, classId)
    ensures s1 == s2
  {
    var k := PairKey(s1, classId);
    assert |s1| == |s2|;
    assert s1 == k[..|s1|] == s2;
  }

  /** Partial records for update-by-id: None means "field not given". */
  datatype SchedulePatch = SchedulePatch(
    id: Option<string>, kind: Option<Kind>, teacherId: Option<string>, subjectId: Option<string>,
    classId: Option<string>, roomId: Option<string>, date: Option<int>, session: Option<DayPart>,
    startPeriod: Option<int>, periodCount: Option<int>, status: Option<ScheduleStatus>,
    note: Option<string>)

  datatype TeacherPatch = TeacherPatch(
    id: Option<string>, name: Option<string>, phone: Option<string>, accountNumber: Option<string>,
    bank: Option<string>, mainSubject: Option<string>, ratePerPeriod: Option<int>)

  datatype SubjectPatch = SubjectPatch(
    id: Option<string>, name: Option<string>, majorId: Option<string>, totalPeriods: Option<int>,
    teacher1: Option<string>, phone1: Option<string>, teacher2: Option<string>,
    phone2: Option<string>, teacher3: Option<string>, phone3: Option<string>)

  datatype ClassPatch = ClassPatch(
    id: Option<string>, name: Option<string>, studentCount: Option<int>, majorId: Option<string>,
    schoolYear: Option<string>)

  datatype StudentPatch = StudentPatch(
    id: Option<string>, classId: Option<string>, name: Option<string>, dob: Option<string>,
    pob: Option<string>, fatherName: Option<string>, motherName: Option<string>, phone: Option<string>)

  function Pick<T>(given: Option<T>, current: T): T
  {
    if given.Some? then given.value else current
  }
}
