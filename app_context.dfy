/** store/AppContext.tsx: the application state and its actions. Every action replaces
    one list of the state with a new list built by append, map or filter; generateId is
    modelled by a fresh-id argument that no item of the list already uses. */
module Store {
  import opened Types
  import Seqs

  /** The whole application state (AppState plus the documents list). */
  datatype AppState = AppState(
    teachers: seq<Teacher>, subjects: seq<Subject>, classes: seq<ClassEntity>,
    students: seq<Student>, schedules: seq<ScheduleItem>, majors: seq<Major>,
    documents: seq<DocumentItem>)

  /** A parsed backup or saved snapshot: any list may be missing. */
  datatype Backup = Backup(
    teachers: Option<seq<Teacher>>, subjects: Option<seq<Subject>>, classes: Option<seq<ClassEntity>>,
    students: Option<seq<Student>>, schedules: Option<seq<ScheduleItem>>, majors: Option<seq<Major>>,
    documents: Option<seq<DocumentItem>>)

  /** What the browser storage holds at start-up. */
  datatype Saved = NothingSaved | Unreadable | SavedState(data: Backup)

  function OrEmpty<T>(xs: Option<seq<T>>): seq<T>
  {
    if xs.Some? then xs.value else []
  }

  function InitialData(): AppState
  {
    AppState(
      [ Teacher("1", "Nguyễn Văn Thái", "0901234567", "123456", "VCB", "1", 100000),
        Teacher("2", "Trần Thị Hà", "0909876543", "654321", "ACB", "2", 120000),
        Teacher("3", "Lê Văn Kha", "0912345678", "888888", "Tech", "3", 110000) ],
      [ Subject("1", "Đo lường và TBĐ", "2", 30, None, None, None, None, None, None),
        Subject("2", "Lập trình C++", "4", 45, None, None, None, None, None, None),
        Subject("3", "Nguyên lý kế toán", "1", 60, None, None, None, None, None, None),
        Subject("4", "Khí cụ điện", "2", 45, None, None, None, None, None, None),
        Subject("5", "Mạch điện tử", "3", 60, None, None, None, None, None, None) ],
      [ ClassEntity("1", "Điện Công Nghiệp (25DC2H8)", 40, "2", "2023-2026"),
        ClassEntity("2", "Kế toán K15", 35, "1", "2023-2026") ],
      [ Student("1", "1", "Nguyễn Văn A", "2005-01-15", "Hà Nội", "Nguyễn Văn B", "Lê Thị C", "0987654321"),
        Student("2", "1", "Trần Thị B", "2005-05-20", "Nam Định", "Trần Văn D", "Phạm Thị E", "0912345678") ],
      [],
      [ Major("1", "Kế toán Doanh nghiệp"), Major("2", "Điện công nghiệp"),
        Major("3", "Điện - điện tử"), Major("4", "Công nghệ thông tin") ],
      [])
  }

  /** The state the provider starts from: the saved snapshot with a missing documents
      list defaulted to empty, or INITIAL_DATA when nothing is saved or it cannot be parsed. */
  function InitialState(saved: Saved): (s: AppState)
    ensures !saved.SavedState? ==> s == InitialData()
    ensures saved.SavedState? && saved.data.documents.None? ==> s.documents == []
    ensures saved.SavedState? ==>
              && (saved.data.teachers.Some? ==> s.teachers == saved.data.teachers.value)
              && (saved.data.subjects.Some? ==> s.subjects == saved.data.subjects.value)
              && (saved.data.classes.Some? ==> s.classes == saved.data.classes.value)
              && (saved.data.students.Some? ==> s.students == saved.data.students.value)
              && (saved.data.schedules.Some? ==> s.schedules == saved.data.schedules.value)
              && (saved.data.majors.Some? ==> s.majors == saved.data.majors.value)
              && (saved.data.documents.Some? ==> s.documents == saved.data.documents.value)
  {
    match saved
    case SavedState(b) =>
      AppState(OrEmpty(b.teachers), OrEmpty(b.subjects), OrEmpty(b.classes), OrEmpty(b.students),
               OrEmpty(b.schedules), OrEmpty(b.majors), OrEmpty(b.documents))
    case _ => InitialData()
  }

  /** loadData: a backup replaces the state only if teachers, subjects, classes and
      schedules are all present; a missing documents list becomes empty. */
  function Restore(current: AppState, data: Backup): (r: AppState)
    ensures !(data.teachers.Some? && data.subjects.Some? && data.classes.Some? && data.schedules.Some?) ==> r == current
    ensures data.teachers.Some? && data.subjects.Some? && data.classes.Some? && data.schedules.Some? ==>
      && r.teachers == data.teachers.value && r.subjects == data.subjects.value
      && r.classes == data.classes.value && r.schedules == data.schedules.value
      && r.documents == (if data.documents.Some? then data.documents.value else [])
      && (data.students.Some? ==> r.students == data.students.value)
      && (data.majors.Some? ==> r.majors == data.majors.value)
  {
    if data.teachers.Some? && data.subjects.Some? && data.classes.Some? && data.schedules.Some? then
      AppState(data.teachers.value, data.subjects.value, data.classes.value, OrEmpty(data.students),
               data.schedules.value, OrEmpty(data.majors), OrEmpty(data.documents))
    else current
  }

  /** The state as written to browser storage on every change (JSON.stringify keeps every list). */
  function Snapshot(s: AppState): Backup
  {
    Backup(Some(s.teachers), Some(s.subjects), Some(s.classes), Some(s.students), Some(s.schedules),
           Some(s.majors), Some(s.documents))
  }

  /** A state saved to browser storage comes back unchanged at the next start-up, and a
      backup written from a state restores exactly that state. */
  lemma SaveThenLoad(s: AppState, current: AppState)
    ensures InitialState(SavedState(Snapshot(s))) == s
    ensures Restore(current, Snapshot(s)) == s
  {
  }

  /** list.map(x => hit(x) ? f(x) : x): the update-by-id pattern. */
  function ReplaceWhere<T>(xs: seq<T>, hit: T -> bool, f: T -> T): (r: seq<T>)
    ensures |r| == |xs|
    ensures forall i :: 0 <= i < |xs| ==> r[i] == (if hit(xs[i]) then f(xs[i]) else xs[i])
  {
    if xs == [] then []
    else [if hit(xs[0]) then f(xs[0]) else xs[0]] + ReplaceWhere(xs[1..], hit, f)
  }

  /** An update whose id matches nothing leaves the list as it was. */
  lemma {:induction false} ReplaceWhereNoHit<T>(xs: seq<T>, hit: T -> bool, f: T -> T)
    requires forall i :: 0 <= i < |xs| ==> !hit(xs[i])
    ensures ReplaceWhere(xs, hit, f) == xs
  {
    if xs != [] {
      ReplaceWhereNoHit(xs[1..], hit, f);
    }
  }

  /** added.map(x => ({ ...x, id: generateId() })), the k-th generated id being ids[k]. */
  function WithIds<T>(added: seq<T>, ids: seq<string>, withId: (T, string) -> T): (r: seq<T>)
    requires |ids| == |added|
    ensures |r| == |added|
    ensures forall k :: 0 <= k < |added| ==> r[k] == withId(added[k], ids[k])
  {
    if added == [] then []
    else [withId(added[0], ids[0])] + WithIds(added[1..], ids[1..], withId)
  }

  /** [...list, ...added.map(x => ({ ...x, id: generateId() }))]. */
  function AppendWithIds<T>(xs: seq<T>, added: seq<T>, ids: seq<string>, withId: (T, string) -> T): (r: seq<T>)
    requires |ids| == |added|
    ensures |r| == |xs| + |added| && r[..|xs|] == xs
    ensures forall k :: 0 <= k < |added| ==> r[|xs| + k] == withId(added[k], ids[k])
  {
    xs + WithIds(added, ids, withId)
  }

  /** Deleting the item just added with a fresh id gives back the list as it was. */
  lemma {:induction false} AddThenDeleteRestores(xs: seq<ScheduleItem>, d: Draft, freshId: string)
    requires freshId !in ScheduleIds(xs)
    ensures Seqs.Filter(xs + [Stamp(d, freshId, Pending)], (s: ScheduleItem) => s.id != freshId) == xs
  {
    var p := (s: ScheduleItem) => s.id != freshId;
    Seqs.FilterConcat(xs, [Stamp(d, freshId, Pending)], p);
    Seqs.FilterAll(xs, p);
    assert Seqs.Filter([Stamp(d, freshId, Pending)], p) == [];
  }

  predicate FreshIds(ids: seq<string>, used: set<string>)
  {
    Seqs.NoDuplicates(ids) && forall k :: 0 <= k < |ids| ==> ids[k] !in used
  }

  function MergeSchedule(s: ScheduleItem, p: SchedulePatch): ScheduleItem
  {
    ScheduleItem(Pick(p.id, s.id), Pick(p.kind, s.kind), Pick(p.teacherId, s.teacherId),
                 Pick(p.subjectId, s.subjectId), Pick(p.classId, s.classId), Pick(p.roomId, s.roomId),
                 Pick(p.date, s.date), Pick(p.session, s.session), Pick(p.startPeriod, s.startPeriod),
                 Pick(p.periodCount, s.periodCount), Pick(p.status, s.status),
                 if p.note.Some? then p.note else s.note)
  }

  function MergeTeacher(t: Teacher, p: TeacherPatch): Teacher
  {
    Teacher(Pick(p.id, t.id), Pick(p.name, t.name), Pick(p.phone, t.phone),
            Pick(p.accountNumber, t.accountNumber), Pick(p.bank, t.bank),
            Pick(p.mainSubject, t.mainSubject), Pick(p.ratePerPeriod, t.ratePerPeriod))
  }

  function MergeSubject(s: Subject, p: SubjectPatch): Subject
  {
    Subject(Pick(p.id, s.id), Pick(p.name, s.name), Pick(p.majorId, s.majorId),
            Pick(p.totalPeriods, s.totalPeriods),
            if p.teacher1.Some? then p.teacher1 else s.teacher1,
            if p.phone1.Some? then p.phone1 else s.phone1,
            if p.teacher2.Some? then p.teacher2 else s.teacher2,
            if p.phone2.Some? then p.phone2 else s.phone2,
            if p.teacher3.Some? then p.teacher3 else s.teacher3,
            if p.phone3.Some? then p.phone3 else s.phone3)
  }

  function MergeClass(c: ClassEntity, p: ClassPatch): ClassEntity
  {
    ClassEntity(Pick(p.id, c.id), Pick(p.name, c.name), Pick(p.studentCount, c.studentCount),
                Pick(p.majorId, c.majorId), Pick(p.schoolYear, c.schoolYear))
  }

  function MergeStudent(s: Student, p: StudentPatch): Student
  {
    Student(Pick(p.id, s.id), Pick(p.classId, s.classId), Pick(p.name, s.name), Pick(p.dob, s.dob),
            Pick(p.pob, s.pob), Pick(p.fatherName, s.fatherName), Pick(p.motherName, s.motherName),
            Pick(p.phone, s.phone))
  }

  /** Fields given in a patch win over the stored ones; the others are kept. */
  lemma MergeScheduleSpec(s: ScheduleItem, p: SchedulePatch, m: ScheduleItem)
    requires m == MergeSchedule(s, p)
    ensures (p.id.Some? ==> m.id == p.id.value) && (p.id.None? ==> m.id == s.id)
    ensures (p.kind.Some? ==> m.kind == p.kind.value) && (p.kind.None? ==> m.kind == s.kind)
    ensures (p.teacherId.Some? ==> m.teacherId == p.teacherId.value) && (p.teacherId.None? ==> m.teacherId == s.teacherId)
    ensures (p.subjectId.Some? ==> m.subjectId == p.subjectId.value) && (p.subjectId.None? ==> m.subjectId == s.subjectId)
    ensures (p.classId.Some? ==> m.classId == p.classId.value) && (p.classId.None? ==> m.classId == s.classId)
    ensures (p.roomId.Some? ==> m.roomId == p.roomId.value) && (p.roomId.None? ==> m.roomId == s.roomId)
    ensures (p.date.Some? ==> m.date == p.date.value) && (p.date.None? ==> m.date == s.date)
    ensures (p.session.Some? ==> m.session == p.session.value) && (p.session.None? ==> m.session == s.session)
    ensures (p.startPeriod.Some? ==> m.startPeriod == p.startPeriod.value) && (p.startPeriod.None? ==> m.startPeriod == s.startPeriod)
    ensures (p.periodCount.Some? ==> m.periodCount == p.periodCount.value) && (p.periodCount.None? ==> m.periodCount == s.periodCount)
    ensures (p.status.Some? ==> m.status == p.status.value) && (p.status.None? ==> m.status == s.status)
    ensures (p.note.Some? ==> m.note == p.note) && (p.note.None? ==> m.note == s.note)
    ensures p == SchedulePatch(None, None, None, None, None, None, None, None, None, None, None, None)
            ==> m == s
  {
  }

  function ScheduleIds(xs: seq<ScheduleItem>): set<string>
  {
    set s | s in xs :: s.id
  }

  /** The store: one field per list of the state. */
  class AppStore {
    var teachers: seq<Teacher>
    var subjects: seq<Subject>
    var classes: seq<ClassEntity>
    var students: seq<Student>
    var schedules: seq<ScheduleItem>
    var majors: seq<Major>
    var documents: seq<DocumentItem>

    function State(): AppState
      reads this
    {
      AppState(teachers, subjects, classes, students, schedules, majors, documents)
    }

    /** The initial load of the provider. */
    constructor (saved: Saved)
      ensures State() == InitialState(saved)
    {
      var s := InitialState(saved);
      teachers, subjects, classes, students := s.teachers, s.subjects, s.classes, s.students;
      schedules, majors, documents := s.schedules, s.majors, s.documents;
    }

    method SetState(s: AppState)
      modifies this
      ensures State() == s
    {
      teachers, subjects, classes, students := s.teachers, s.subjects, s.classes, s.students;
      schedules, majors, documents := s.schedules, s.majors, s.documents;
    }

    // ----- schedules -----

    /** addSchedule: appends the draft with a fresh id and status PENDING. */
    method AddSchedule(d: Draft, freshId: string)
      requires freshId !in ScheduleIds(schedules)
      modifies this
      ensures State() == old(State()).(schedules := old(schedules) + [Stamp(d, freshId, Pending)])
    {
      schedules := schedules + [Stamp(d, freshId, Pending)];
    }

    /** updateSchedule: merges the patch into every item with the id, keeping length and order. */
    method UpdateSchedule(id: string, patch: SchedulePatch)
      modifies this
      ensures State() == old(State()).(schedules := ReplaceWhere(old(schedules), (s: ScheduleItem) => s.id == id, (s: ScheduleItem) => MergeSchedule(s, patch)))
    {
      schedules := ReplaceWhere(schedules, (s: ScheduleItem) => s.id == id, (s: ScheduleItem) => MergeSchedule(s, patch));
    }

    /** deleteSchedule: removes every item with the id, keeping the others in order. */
    method DeleteSchedule(id: string)
      modifies this
      ensures State() == old(State()).(schedules := Seqs.Filter(old(schedules), (s: ScheduleItem) => s.id != id))
    {
      schedules := Seqs.Filter(schedules, (s: ScheduleItem) => s.id != id);
    }

    // ----- teachers -----

    method AddTeacher(t: Teacher, freshId: string)
      requires forall x :: x in teachers ==> x.id != freshId
      modifies this
      ensures State() == old(State()).(teachers := old(teachers) + [t.(id := freshId)])
    {
      teachers := teachers + [t.(id := freshId)];
    }

    method UpdateTeacher(id: string, patch: TeacherPatch)
      modifies this
      ensures State() == old(State()).(teachers := ReplaceWhere(old(teachers), (t: Teacher) => t.id == id, (t: Teacher) => MergeTeacher(t, patch)))
    {
      teachers := ReplaceWhere(teachers, (t: Teacher) => t.id == id, (t: Teacher) => MergeTeacher(t, patch));
    }

    method DeleteTeacher(id: string)
      modifies this
      ensures State() == old(State()).(teachers := Seqs.Filter(old(teachers), (t: Teacher) => t.id != id))
    {
      teachers := Seqs.Filter(teachers, (t: Teacher) => t.id != id);
    }

    method ImportTeachers(added: seq<Teacher>, ids: seq<string>)
      requires |ids| == |added| && FreshIds(ids, set t | t in teachers :: t.id)
      modifies this
      ensures State() == old(State()).(teachers := AppendWithIds(old(teachers), added, ids, (t: Teacher, i: string) => t.(id := i)))
    {
      teachers := AppendWithIds(teachers, added, ids, (t: Teacher, i: string) => t.(id := i));
    }

    // ----- subjects -----

    method AddSubject(s: Subject, freshId: string)
      requires forall x :: x in subjects ==> x.id != freshId
      modifies this
      ensures State() == old(State()).(subjects := old(subjects) + [s.(id := freshId)])
    {
      subjects := subjects + [s.(id := freshId)];
    }

    method UpdateSubject(id: string, patch: SubjectPatch)
      modifies this
      ensures State() == old(State()).(subjects := ReplaceWhere(old(subjects), (s: Subject) => s.id == id, (s: Subject) => MergeSubject(s, patch)))
    {
      subjects := ReplaceWhere(subjects, (s: Subject) => s.id == id, (s: Subject) => MergeSubject(s, patch));
    }

    method DeleteSubject(id: string)
      modifies this
      ensures State() == old(State()).(subjects := Seqs.Filter(old(subjects), (s: Subject) => s.id != id))
    {
      subjects := Seqs.Filter(subjects, (s: Subject) => s.id != id);
    }

    method ImportSubjects(added: seq<Subject>, ids: seq<string>)
      requires |ids| == |added| && FreshIds(ids, set s | s in subjects :: s.id)
      modifies this
      ensures State() == old(State()).(subjects := AppendWithIds(old(subjects), added, ids, (s: Subject, i: string) => s.(id := i)))
    {
      subjects := AppendWithIds(subjects, added, ids, (s: Subject, i: string) => s.(id := i));
    }

    // ----- classes -----

    method AddClass(c: ClassEntity, freshId: string)
      requires forall x :: x in classes ==> x.id != freshId
      modifies this
      ensures State() == old(State()).(classes := old(classes) + [c.(id := freshId)])
    {
      classes := classes + [c.(id := freshId)];
    }

    method UpdateClass(id: string, patch: ClassPatch)
      modifies this
      ensures State() == old(State()).(classes := ReplaceWhere(old(classes), (c: ClassEntity) => c.id == id, (c: ClassEntity) => MergeClass(c, patch)))
    {
      classes := ReplaceWhere(classes, (c: ClassEntity) => c.id == id, (c: ClassEntity) => MergeClass(c, patch));
    }

    method DeleteClass(id: string)
      modifies this
      ensures State() == old(State()).(classes := Seqs.Filter(old(classes), (c: ClassEntity) => c.id != id))
    {
      classes := Seqs.Filter(classes, (c: ClassEntity) => c.id != id);
    }

    // ----- students -----

    method AddStudent(s: Student, freshId: string)
      requires forall x :: x in students ==> x.id != freshId
      modifies this
      ensures State() == old(State()).(students := old(students) + [s.(id := freshId)])
    {
      students := students + [s.(id := freshId)];
    }

    method UpdateStudent(id: string, patch: StudentPatch)
      modifies this
      ensures State() == old(State()).(students := ReplaceWhere(old(students), (s: Student) => s.id == id, (s: Student) => MergeStudent(s, patch)))
    {
      students := ReplaceWhere(students, (s: Student) => s.id == id, (s: Student) => MergeStudent(s, patch));
    }

    method DeleteStudent(id: string)
      modifies this
      ensures State() == old(State()).(students := Seqs.Filter(old(students), (s: Student) => s.id != id))
    {
      students := Seqs.Filter(students, (s: Student) => s.id != id);
    }

    method ImportStudents(added: seq<Student>, ids: seq<string>)
      requires |ids| == |added| && FreshIds(ids, set s | s in students :: s.id)
      modifies this
      ensures State() == old(State()).(students := AppendWithIds(old(students), added, ids, (s: Student, i: string) => s.(id := i)))
    {
      students := AppendWithIds(students, added, ids, (s: Student, i: string) => s.(id := i));
    }

    // ----- documents -----

    method AddDocument(doc: DocumentItem, freshId: string)
      requires forall x :: x in documents ==> x.id != freshId
      modifies this
      ensures State() == old(State()).(documents := old(documents) + [doc.(id := freshId)])
    {
      documents := documents + [doc.(id := freshId)];
    }

    method DeleteDocument(id: string)
      modifies this
      ensures State() == old(State()).(documents := Seqs.Filter(old(documents), (d: DocumentItem) => d.id != id))
    {
      documents := Seqs.Filter(documents, (d: DocumentItem) => d.id != id);
    }

    // ----- whole state -----

    /** loadData: returns whether the backup was accepted; a rejected one changes nothing. */
    method LoadData(data: Backup) returns (accepted: bool)
      modifies this
      ensures accepted <==> data.teachers.Some? && data.subjects.Some? && data.classes.Some? && data.schedules.Some?
      ensures State() == Restore(old(State()), data)
    {
      accepted := data.teachers.Some? && data.subjects.Some? && data.classes.Some? && data.schedules.Some?;
      SetState(Restore(State(), data));
    }

    /** resetData: restores INITIAL_DATA only when the user confirms. */
    method ResetData(confirmed: bool)
      modifies this
      ensures State() == if confirmed then InitialData() else old(State())
    {
      if confirmed {
        SetState(InitialData());
      }
    }
  }
}
