# QuanLyDaoTao scheduling core in Dafny

QuanLyDaoTao is a browser tool for a vocational school's training office. It keeps
teachers, subjects, classes, students, documents and the timetable of teaching sessions
("lịch học") in one application state. On top of that state it offers:

- a conflict checker for placing sessions;
- a planner that continues a class's unfinished lessons into the next week;
- views derived from the timetable: teaching progress, pairs awaiting payment,
  statistics, the dashboard, and the document list.

This project models that core as Dafny datatypes, functions, classes and methods, and
proves what the code promises about it.

Module by module:

- `Types` (`types.dfy`): the entities. A session (`ScheduleItem`) has a kind (lesson or exam), a
  teacher, subject, class and room, a date, a start period, a period count and a stored
  status. A `Draft` is a session without id and status. Dates are integer day
  ordinals (day 0 is 0001-01-01, a Monday); `Calendar` (`calendar.dfy`) relates them to the
  `yyyy-MM-dd` strings the source stores and parses (`parseLocal`, JavaScript `getDay`).
- `Seqs` (`seqs.dfy`): the array operations the source relies on: `filter`, a stable
  `sort` by an integer key pair, `Array.from(new Set(..))`, `find` and `slice(0, n)`.
- `Utils` (`utils.dfy`): `getSessionFromPeriod`, `checkConflict` as a scan that reports the
  first blocking session (room before teacher before class), `calculateSubjectProgress`
  with the rounded percentage written in exact integer arithmetic, and `determineStatus`
  with the clock instant as a parameter.
- `Store` (`app_context.dfy`): the application context as the class `AppStore`. It has one `seq`
  field per list, and methods for add, update-by-id (merge), delete-by-id and import over
  each list, plus the initial load, `loadData` and `resetData`. `generateId` becomes a
  fresh-id argument.
- `Scheduling` (`schedule_manager.dfy`): the Monday of a week, and the "continue next week"
  planner. The planner is specified as a fold (`Plan`) over the week's lessons in date
  and period order, and its loop (`ProcessAll`) is proved to follow it while calling
  `addSchedule` once per copy. It also holds form saving with its validation, drag-copying,
  the period-count clamp, and the grid and spreadsheet cell rules.
- `Progress` (`teaching_progress.dfy`): the per-class subject rows (periods realized up to today,
  the completed / in-progress / upcoming status, ordering by status), the summary counts and
  the manual-completion toggle.
- `Payment` (`payment.dfy`): the finished (subject, class) pairs awaiting payment (nested loops
  proved equal to a specification), the paid list, teacher names and the export order.
- `Statistics` (`statistics.dfy`): missed sessions, teacher period totals and income, pairs still
  being taught, and the teacher report's row filter.
- `Dashboard` (`dashboard.dfy`): today's lessons by period and the next five exams.
- `Documents` (`document_manager.dfy`): file-type classification by extension, the upload size limit
  and the size unit.

Behaviour of the code that the model keeps as written:

- The continuation planner reads the `schedules` list as it was when the button was
  pressed. The "slot already filled" check and the conflict check never see the copies
  made earlier in the same batch; only `addedPeriodsMap` links the iterations.
- Running the planner twice is not idempotent in general (`Scheduling.PlannerNotIdempotent`). A lesson whose copy was refused for a
  conflict in the first run can get a shorter copy in the second. What holds is that
  a second run never fills a slot the first run's copies already occupy.
- The week filter takes Monday to Saturday only.
- In `checkConflict` the two exam-versus-lesson branches can never fire, because a shared
  class already returns the class message first. The model's verdict type keeps the two
  reasons, and `CheckConflict`'s contract states they are never produced.
- `determineStatus` recomputes a stored COMPLETED from the clock for a date that parses; only OFF and MAKEUP stick then.
- Payment counts every non-cancelled session, future-dated ones included. Teaching
  progress counts only those dated today or earlier.
- Teacher totals count the stored statuses COMPLETED, ONGOING and PENDING. The teacher
  report lists only COMPLETED and ONGOING.

## Model

| member | source | states |
|---|---|---|
| Types.Stamp | store/AppContext.tsx:155-156 | a stamped draft carries exactly the given id and status and gives back the draft |
| Types.StampOfDraft | types.ts:55-68 | stamping a stored session's draft with the session's own id and status gives back the session, so the draft loses nothing but the id and the status |
| Types.PairKeyInjective | components/ScheduleManager.tsx:209 | the key `subjectId-classId` determines the pair whenever subject ids contain no '-' |
| Types.PairKeyCollision | components/Payment.tsx:32 | without that restriction two different pairs share one key |
| Types.PairKeyCancel | components/ScheduleManager.tsx:209 | with the class fixed, the key `subjectId-classId` determines the subject whatever the ids contain |
| Seqs.Filter | utils.ts:67-68 | an element is kept iff it is in the list and satisfies the predicate; the result is no longer than the list |
| Seqs.FilterPartition3 | components/TeachingProgress.tsx:113-118 | three exclusive and exhaustive filters share out the list: their lengths add up to its length |
| Seqs.SortBy | components/TeachingProgress.tsx:105-109 | the sort returns a permutation (same multiset) that is ordered by the key |
| Seqs.Distinct | components/Payment.tsx:48 | the deduplicated list has no repeats and the same members as the input |
| Seqs.Find | components/ScheduleManager.tsx:205 | None iff no element satisfies the predicate; otherwise the first element that does |
| Seqs.Take | components/Dashboard.tsx:31 | slice(0, n) is the prefix of length min(n, length) |
| Calendar.Weekday | components/ScheduleManager.tsx:45 | getDay is between 0 and 6 |
| Calendar.EpochIsThursday | components/ScheduleManager.tsx:45 | the ordinal of 1970-01-01 is 719162 and its weekday is Thursday (4), anchoring getDay |
| Calendar.DayNumberOrder | utils.ts:13-16 | for valid dates outside years 0..99 the day ordinal follows calendar order, so date comparisons become integer comparisons |
| Calendar.DayNumber | utils.ts:15 | `new Date(y, m - 1, d)`: for a month 1..12 the ordinal is the days before the year and the month plus d - 1, a year 0..99 counts as 1900..1999, month 13 rolls into January of the next year and month 0 into December of the previous one |
| Calendar.ParseLocal | utils.ts:13-16 | fewer than three '-'-separated fields or a field that is not a number gives an invalid date; otherwise the day of the three fields read as numbers |
| Calendar.Split | utils.ts:14 | split on a separator yields at least one field |
| Calendar.NumberOf | utils.ts:14 | Number(field) is a number iff the field is all digits, and "" is 0 |
| Calendar.Pad | components/ScheduleManager.tsx:220 | the zero-padded field has exactly the width and only digits |
| Calendar.ParsePad | utils.ts:14 | reading a zero-padded number back gives the number |
| Calendar.ParseFormatRoundTrip | utils.ts:13-16 | parseLocal of a date formatted as yyyy-MM-dd (years 100..9999) gives back the same day |
| Utils.GetSessionFromPeriod | utils.ts:6-10 | morning iff period <= 5, afternoon iff 6..10, evening iff above 10 |
| Utils.CheckConflict | utils.ts:19-59 | a conflict is reported iff some session that is neither excluded nor cancelled falls on the same day, overlaps half-open and shares the room, teacher or class; the exam-versus-lesson reasons never occur |
| Utils.FirstBlockerDecides | utils.ts:26-46 | the first blocking session in list order decides the verdict, by room, then teacher, then class |
| Utils.OnlyClashingItemsMatter | utils.ts:27-35 | removing the skipped sessions and those on other days or at non-overlapping periods does not change the verdict |
| Utils.ExcludingIsRemoving | utils.ts:27 | passing an id to exclude gives the same verdict as checking without the sessions that carry it |
| Utils.ConflictSymmetric | utils.ts:31-35 | two non-cancelled sessions conflict in one order iff they conflict in the other |
| Utils.TouchingBlocksDoNotConflict | utils.ts:24-35 | blocks where one ends where the other starts never conflict |
| Utils.LearnedConcat | utils.ts:67-69 | learned periods over two lists add up |
| Utils.Learned | utils.ts:67-69 | non-negative when the counted sessions have non-negative period counts, and 0 when no non-cancelled session of the pair exists |
| Utils.FloorDiv | utils.ts:74 | Math.floor of an exact quotient, for either sign of the divisor |
| Utils.RoundedPercent | utils.ts:74 | for a positive total the percentage is a number of at most 100 that is the rounded ratio (within half a point) or 100 when capped; a zero total gives 100, NaN or -Infinity |
| Utils.CalculateSubjectProgress | utils.ts:61-77 | learned is the non-cancelled periods of the pair; remaining is max(0, total - learned), so learned + remaining covers the total and remaining is 0 once learned reaches a positive total |
| Utils.FullPercent | utils.ts:74 | learned at least a positive total shows exactly 100 |
| Utils.ProgressPercentage | utils.ts:74-75 | with a positive total the percentage is at most 100, and a finished pair has remaining 0 and percentage 100 |
| Utils.DetermineStatus | utils.ts:79-108 | OFF and MAKEUP are returned unchanged; otherwise Completed iff now is after the one-hour window, Ongoing iff inside it, Pending iff before it (for a date that parses, the final `return currentStatus` is unreachable) |
| Utils.StoredStatusIgnored | utils.ts:84-105 | a stored PENDING, ONGOING or COMPLETED does not affect the result |
| Utils.StatusAdvancesWithTime | utils.ts:94-105 | a later instant never gives an earlier status in the order Pending, Ongoing, Completed |
| Utils.StartHourMatchesSession | utils.ts:94-95 | the start hour lies in the morning, afternoon or evening exactly as getSessionFromPeriod says |
| Utils.StartHour | utils.ts:94-95 | periods 1..5 start between 7 and 11 o'clock, periods 6..10 between 13 and 17, later periods at 18 or later |
| Store.InitialState | store/AppContext.tsx:65-79 | nothing saved or an unreadable snapshot gives INITIAL_DATA; from a saved snapshot every list it holds is taken as saved, and a missing documents list becomes empty |
| Store.Restore | store/AppContext.tsx:181-190 | a backup replaces the state iff teachers, subjects, classes and schedules are present; every list it holds is taken as given and missing documents become empty; otherwise the state is kept |
| Store.SaveThenLoad | store/AppContext.tsx:65-83 | a state written to browser storage comes back unchanged at the next start-up, and a backup of a state restores exactly that state |
| Store.ReplaceWhere | store/AppContext.tsx:160-165 | update-by-id keeps length and order, merges into the matching items and leaves the others as they were |
| Store.ReplaceWhereNoHit | store/AppContext.tsx:160-165 | an update whose id matches nothing leaves the list unchanged |
| Store.WithIds | store/AppContext.tsx:97-102 | every imported item gets the id generated for it, in order |
| Store.AppendWithIds | store/AppContext.tsx:97-102 | an import keeps the old list as a prefix and appends the imported items in order, each with its id |
| Store.AddThenDeleteRestores | store/AppContext.tsx:155-169 | deleting the session just added under a fresh id gives back the list as it was |
| Store.MergeScheduleSpec | store/AppContext.tsx:160-165 | each of the twelve fields is the patch's value when the patch gives it and the session's own value otherwise; the empty patch changes nothing |
| Store.AppStore.constructor | store/AppContext.tsx:65-79 | the store starts from the initial load of the saved snapshot |
| Store.AppStore.AddSchedule | store/AppContext.tsx:155-158 | appends exactly one session, with the fresh id and status PENDING; every other list is untouched |
| Store.AppStore.UpdateSchedule | store/AppContext.tsx:160-165 | the schedules become the update-by-id merge of the old ones; every other list is untouched |
| Store.AppStore.DeleteSchedule | store/AppContext.tsx:167-169 | removes every session with the id and keeps the rest in order; every other list is untouched |
| Store.AppStore.AddTeacher | store/AppContext.tsx:85-87 | appends the teacher under the fresh id; nothing else changes |
| Store.AppStore.UpdateTeacher | store/AppContext.tsx:88-93 | merges the patch into the teachers with the id; nothing else changes |
| Store.AppStore.DeleteTeacher | store/AppContext.tsx:94-96 | removes the teachers with the id, in order; nothing else changes |
| Store.AppStore.ImportTeachers | store/AppContext.tsx:97-102 | appends all imported teachers in order, each with its fresh id; nothing else changes |
| Store.AppStore.AddSubject | store/AppContext.tsx:104-106 | appends the subject under the fresh id; nothing else changes |
| Store.AppStore.UpdateSubject | store/AppContext.tsx:107-112 | merges the patch into the subjects with the id; nothing else changes |
| Store.AppStore.DeleteSubject | store/AppContext.tsx:113-115 | removes the subjects with the id, in order; nothing else changes |
| Store.AppStore.ImportSubjects | store/AppContext.tsx:116-121 | appends all imported subjects in order, each with its fresh id; nothing else changes |
| Store.AppStore.AddClass | store/AppContext.tsx:123-125 | appends the class under the fresh id; nothing else changes |
| Store.AppStore.UpdateClass | store/AppContext.tsx:126-131 | merges the patch into the classes with the id; nothing else changes |
| Store.AppStore.DeleteClass | store/AppContext.tsx:132-134 | removes the classes with the id, in order; nothing else changes |
| Store.AppStore.AddStudent | store/AppContext.tsx:136-138 | appends the student under the fresh id; nothing else changes |
| Store.AppStore.UpdateStudent | store/AppContext.tsx:139-144 | merges the patch into the students with the id; nothing else changes |
| Store.AppStore.DeleteStudent | store/AppContext.tsx:145-147 | removes the students with the id, in order; nothing else changes |
| Store.AppStore.ImportStudents | store/AppContext.tsx:148-153 | appends all imported students in order, each with its fresh id; nothing else changes |
| Store.AppStore.AddDocument | store/AppContext.tsx:172-174 | appends the document under the fresh id; nothing else changes |
| Store.AppStore.DeleteDocument | store/AppContext.tsx:176-178 | removes the documents with the id, in order; nothing else changes |
| Store.AppStore.LoadData | store/AppContext.tsx:181-190 | accepted iff the four required lists are present; the new state is the restore of the old one |
| Store.AppStore.ResetData | store/AppContext.tsx:193-197 | INITIAL_DATA when confirmed, otherwise nothing changes |
| Scheduling.StartOfWeek | components/ScheduleManager.tsx:42-48 | a Monday on or before the day and less than a week before it; a Sunday maps to six days earlier |
| Scheduling.InWeek | components/ScheduleManager.tsx:184-187 | for a Monday week start, a session of the week is never on a Sunday and belongs to that Monday's week |
| Scheduling.WeekItems | components/ScheduleManager.tsx:184-192 | exactly the class's sessions dated Monday to Saturday of the week, each as many times as in the store (same multiset as the filter), in (date, start period) order |
| Scheduling.CopyOf | components/ScheduleManager.tsx:219-238 | the copy is dated seven days later and has the capped period count |
| Scheduling.TryCopy | components/ScheduleManager.tsx:218-246 | the warnings are kept; either nothing changes or exactly one copy is appended, dated a week later at the same class and start period with at most the original periods, added to addedPeriodsMap without exceeding the remaining periods, in a slot free in the snapshot and without conflict |
| Scheduling.Warn | components/ScheduleManager.tsx:250-255 | copies and addedPeriodsMap are unchanged; at most one warning is added and it was not listed before, so a list without repeats stays without repeats |
| Scheduling.Step | components/ScheduleManager.tsx:203-256 | an exam or a session of an unknown subject changes nothing; otherwise earlier copies are kept, at most one is appended, and the warnings stay without repeats |
| Scheduling.Plan | components/ScheduleManager.tsx:201-256 | the batch makes at most one copy per week session |
| Scheduling.PlanPrefix | components/ScheduleManager.tsx:201 | the planner's state after one more session is one more step |
| Scheduling.PlanCopyStep | components/ScheduleManager.tsx:203-246 | one more session appends its copy with min(periodCount, remaining - added) periods and records them under the pair's key exactly when it is a lesson of a known subject with periods left, a free slot a week later and no conflict; otherwise the copies and addedPeriodsMap are unchanged |
| Scheduling.StampAll | store/AppContext.tsx:155-158 | the k-th copy is stored with the k-th fresh id and status PENDING |
| Scheduling.StepCopiesAreValid | components/ScheduleManager.tsx:203-243 | one step adds at most a valid copy of its own session |
| Scheduling.CopiesAreValid | components/ScheduleManager.tsx:203-243 | every copy comes from a lesson of a known subject, is dated seven days later in a slot free in the snapshot, keeps teacher, subject, class, room and start period, has at most the original periods and does not conflict with the snapshot |
| Scheduling.TryCopyAccounting | components/ScheduleManager.tsx:210-245 | one copy attempt keeps addedPeriodsMap equal to the periods copied for the pair and within the cap |
| Scheduling.CopiesNeverExceedRemaining | components/ScheduleManager.tsx:210-245 | for a pair whose key no other pair shares, addedPeriodsMap holds exactly the periods copied for it, and they never exceed its remaining periods |
| Scheduling.WeekKeysOwned | components/ScheduleManager.tsx:184-212 | every session of the week belongs to the class, so a pair key met in the week names exactly one subject |
| Scheduling.ContinuationWithinRemaining | components/ScheduleManager.tsx:181-246 | the periods the continuation copies for a subject never exceed what the class had left of it before the run |
| Scheduling.StepWarns | components/ScheduleManager.tsx:250-255 | after a lesson the warning for its final remaining count is listed iff that count is 1..4, added at most once |
| Scheduling.WarningsDistinct | components/ScheduleManager.tsx:252-254 | no warning is listed twice |
| Scheduling.RerunSkipsFilledSlots | components/ScheduleManager.tsx:222-229 | run again on a store holding the first run's copies, the planner copies nothing into a slot those copies fill |
| Scheduling.PlannerNotIdempotent | components/ScheduleManager.tsx:210-245 | a concrete week on which the first run makes one copy and a second run over the store holding it makes another: the planner is not idempotent |
| Scheduling.AddCopy | components/ScheduleManager.tsx:243 | the addSchedule call stores the next copy under the next fresh id |
| Scheduling.TryCopyAdds | components/ScheduleManager.tsx:218-245 | with periods left, a free slot and no conflict for the capped copy, the attempt appends that copy and adds its periods under the pair's key |
| Scheduling.CopyToNextWeek | components/ScheduleManager.tsx:218-248 | the branch makes the step's copy decision and stores exactly the copies decided so far |
| Scheduling.ProcessItem | components/ScheduleManager.tsx:201-256 | one iteration computes the step of the specification and keeps the store equal to the snapshot plus the stamped copies |
| Scheduling.ProcessAll | components/ScheduleManager.tsx:201-256 | the loop ends in the planner state of the specification, with the copies appended to the store |
| Scheduling.ContinueNextWeek | components/ScheduleManager.tsx:181-264 | addedCount is the number of stored copies, the warnings are the planner's, and the schedules become the snapshot plus the stamped copies; no other list changes |
| Scheduling.DecideSave | components/ScheduleManager.tsx:137-169 | accepted iff teacher, subject, room and class are given and no conflict is found (the edited item's id excluded); a missing field gives the form message; an accepted item has the session of its start period and no blocking session |
| Scheduling.DropCopy | components/ScheduleManager.tsx:113-124 | the copy is at the target date and period with that period's session and no note, and is otherwise the dragged session's draft |
| Scheduling.PatchFrom | components/ScheduleManager.tsx:171-172 | an edit's patch leaves the id, status and note unset |
| Scheduling.EditKeepsIdentity | components/ScheduleManager.tsx:171-172 | an edit keeps the session's id, status and note and takes every submitted field |
| Scheduling.SaveSchedule | components/ScheduleManager.tsx:137-179 | a refused save returns the message and writes nothing; an accepted one updates the edited session or appends a new one |
| Scheduling.DecideDrop | components/ScheduleManager.tsx:102-133 | nothing for the same slot; otherwise, iff it does not conflict, the copy at the target date and period with the target's session and no note, equal to the dragged session's draft in every other field |
| Scheduling.Drop | components/ScheduleManager.tsx:102-135 | adds the copy iff the drop decision allows it; otherwise nothing changes |
| Scheduling.Used | components/ScheduleManager.tsx:575-580 | with non-negative period counts the used periods lie between 0 and the pair's learned periods |
| Scheduling.UsedIsLearned | components/ScheduleManager.tsx:576-581 | without an edited item the used periods are the pair's learned periods |
| Scheduling.ClampPeriodCount | components/ScheduleManager.tsx:568-593 | for a lesson of a known subject the stored value is at most max(0, total - used) and otherwise the typed value; other inputs are stored as typed |
| Scheduling.ClampIdempotent | components/ScheduleManager.tsx:583-587 | clamping a clamped value changes nothing |
| Scheduling.GridCell | components/ScheduleManager.tsx:431-438 | a cell is covered iff a session starts earlier and still runs, empty iff no session starts or runs there, else the session starting there |
| Scheduling.ExportCell | components/ScheduleManager.tsx:284-310 | an export cell is empty iff no session occupies the period; it is merged iff the first occupying session started earlier; a start cell holds the first occupying session, which starts there |
| Scheduling.GridMatchesExport | components/ScheduleManager.tsx:284-310 | with at most one session of positive length per period, the screen grid and the exported sheet agree cell by cell |
| Scheduling.DisplayCumulative | components/ScheduleManager.tsx:294 | the shown count is at most the cumulative count and at most a nonzero total, and is one of the two |
| Progress.ToggleManualComplete | components/TeachingProgress.tsx:26-37 | without a class nothing changes; otherwise the pair's key is present afterwards iff it was absent, and no other key changes |
| Progress.ToggleTwice | components/TeachingProgress.tsx:26-37 | toggling twice restores which keys are marked |
| Progress.RealizedNeedsStart | components/TeachingProgress.tsx:57-75 | realized periods need a non-cancelled session of the pair dated today or earlier |
| Progress.RowFor | components/TeachingProgress.tsx:56-104 | realized periods dated up to today; completed iff realized reaches the total or the key is marked; in progress iff not completed and a session has taken place; upcoming otherwise |
| Progress.RealizedIsNotUpcoming | components/TeachingProgress.tsx:64-95 | a subject with realized periods is never upcoming |
| Progress.ClassSubjects | components/TeachingProgress.tsx:53 | exactly the subjects of the class's major |
| Progress.Rows | components/TeachingProgress.tsx:56-104 | one row per subject, in the subjects' order |
| Progress.ProgressData | components/TeachingProgress.tsx:49-110 | no class gives no rows; otherwise a permutation of the class's subject rows sorted in-progress, upcoming, completed |
| Progress.ProgressDataRows | components/TeachingProgress.tsx:50-56 | every subject of the class's major has its row, and every row is such a subject's |
| Progress.SummaryAddsUp | components/TeachingProgress.tsx:113-118 | completed + in progress + upcoming = total |
| Progress.Summarize | components/TeachingProgress.tsx:113-118 | the total is the number of rows and each count is the number of rows with that status (its multiplicity in the list of statuses), hence 0 iff no row has it |
| Payment.Relevant | components/Payment.tsx:37-41 | exactly the pair's non-cancelled sessions |
| Payment.NameOf | components/Payment.tsx:49 | the name of the first teacher with the id, or the deleted-teacher text when there is none or its name is empty; never empty |
| Payment.Join | components/Payment.tsx:49 | joining a list whose first name is non-empty gives a non-empty text |
| Payment.TeacherIds | components/Payment.tsx:48 | each teacher of a non-cancelled session of the pair appears once, and no other |
| Payment.TeacherNames | components/Payment.tsx:49 | one name per id, in order |
| Payment.TeacherCell | components/Payment.tsx:48-57 | no teacher of the pair gives the not-determined text; otherwise the names joined with ", "; never empty |
| Payment.RowOf | components/Payment.tsx:51-59 | the row carries the pair's ids and key, the subject's and the class's names, the teacher cell (never empty) and the subject's total |
| Payment.Qualifies | components/Payment.tsx:28-46 | a pair that qualifies has a non-cancelled session |
| Payment.HandleDelete | components/Payment.tsx:67-73 | the new paid list is the old one with the key appended at the end: its members are exactly the old keys and the key |
| Payment.CompletedSubjects | components/Payment.tsx:24-65 | the nested loops return the specification's rows |
| Payment.PushClassRows | components/Payment.tsx:30-61 | the inner loop appends the class's qualifying rows |
| Payment.ClassRowsQualify | components/Payment.tsx:30-61 | every row of a class is a qualifying subject's row |
| Payment.ClassRowsComplete | components/Payment.tsx:30-61 | every qualifying subject of a class has its row |
| Payment.ListedPairsQualify | components/Payment.tsx:27-62 | every listed row belongs to a pair of equal major, not paid, with learned >= total and learned > 0 |
| Payment.QualifyingPairsListed | components/Payment.tsx:27-62 | every such pair is listed |
| Payment.PaidPairNotListed | components/Payment.tsx:67-73 | after the key is added to the paid list no row carries it |
| Payment.LearnedNeedsSession | components/Payment.tsx:43-46 | positive learned periods need a non-cancelled session of the pair |
| Payment.ListedRowsNameTeachers | components/Payment.tsx:48-57 | a listed pair always has a teacher, so its cell is the joined names, never the fallback |
| Payment.ExportSessions | components/Payment.tsx:76-83 | exactly the pair's non-cancelled sessions, ordered by date then start period |
| Statistics.MissedClasses | components/Statistics.tsx:15 | exactly the cancelled sessions |
| Statistics.TaughtPeriodsConcat | components/Statistics.tsx:19-20 | a teacher's periods over two lists add up |
| Statistics.TaughtPeriods | components/Statistics.tsx:19-20 | non-negative when the teacher's sessions have non-negative counts, and 0 when none of them has a billable status |
| Statistics.AddingSessionToTotals | components/Statistics.tsx:19-20 | a session adds its periods to its teacher's total iff its stored status is Completed, Ongoing or Pending; makeup and cancelled sessions add nothing |
| Statistics.StatOf | components/Statistics.tsx:21-25 | income = periods x rate per period |
| Statistics.TeacherStats | components/Statistics.tsx:18-26 | every row has positive periods, every teacher with positive periods has its row, and every row is some teacher's |
| Statistics.SubjectStats | components/Statistics.tsx:29-63 | the nested loops return the specification's rows |
| Statistics.PushClassStats | components/Statistics.tsx:36-59 | the inner loop appends the class's in-progress rows |
| Statistics.StatRow | components/Statistics.tsx:44-57 | learned, remaining and total agree with calculateSubjectProgress; the labels are the subject's, the class's and "subject (class)" |
| Statistics.InProgress | components/Statistics.tsx:44-49 | an in-progress pair's row has learned > 0, remaining > 0 and learned + remaining = total |
| Statistics.ClassStatsInProgress | components/Statistics.tsx:36-59 | every row of a class belongs to a started, unfinished subject |
| Statistics.ClassStatsComplete | components/Statistics.tsx:36-59 | every started, unfinished subject of a class has its row |
| Statistics.ListedPairsInProgress | components/Statistics.tsx:32-60 | every row has learned > 0, remaining > 0 and learned + remaining = total, and belongs to such a pair |
| Statistics.InProgressPairsListed | components/Statistics.tsx:32-60 | every started, unfinished pair of a class's major is listed |
| Statistics.ReportSessions | components/Statistics.tsx:67 | exactly the sessions stored as Completed or Ongoing |
| Statistics.PendingCountedNotReported | components/Statistics.tsx:19-67 | a pending session counts towards its teacher's total but is not in the report |
| Dashboard.TodaySchedules | components/Dashboard.tsx:23-25 | exactly today's lessons (no exams), a permutation of them, in start-period order |
| Dashboard.ExamsAhead | components/Dashboard.tsx:28-30 | exactly the exams dated today or later, earliest first |
| Dashboard.UpcomingExams | components/Dashboard.tsx:28-31 | at most five exams dated today or later, earliest first |
| Dashboard.UpcomingAreEarliest | components/Dashboard.tsx:28-31 | five are listed whenever there are five, the listed and the unlisted ones make up all the exams ahead, and none listed is later than one left out |
| Dashboard.TakeIsEarliest | components/Dashboard.tsx:31 | the prefix of a date-ordered list holds its earliest entries |
| Dashboard.PeriodRangeIsOccupied | components/Dashboard.tsx:103 | the label's range start..start+count-1 is exactly the periods the session occupies |
| Documents.LastSegment | components/DocumentManager.tsx:27 | the text after the last '.', or the whole name when it has none |
| Documents.LowerChar | components/DocumentManager.tsx:27 | an ASCII capital becomes its small letter (code point + 32); other characters are kept |
| Documents.Lower | components/DocumentManager.tsx:27 | lower-cases each character in place |
| Documents.GetFileType | components/DocumentManager.tsx:26-32 | Word iff the extension is doc or docx, Excel iff xls or xlsx, Pdf iff pdf |
| Documents.LastSegmentOfDotted | components/DocumentManager.tsx:27 | only the part after the last '.' is taken |
| Documents.ClassifiedByExtension | components/DocumentManager.tsx:26-32 | a name classifies as its extension alone |
| Documents.NoDotIsWhole | components/DocumentManager.tsx:27 | a name without '.' is its own extension |
| Documents.LastSegmentOfLower | components/DocumentManager.tsx:27 | lower-casing commutes with taking the extension |
| Documents.TypeIgnoresCase | components/DocumentManager.tsx:26-32 | the classification ignores letter case |
| Documents.UploadFile | components/DocumentManager.tsx:34-59 | accepted iff the size is at most 2 MiB; an accepted file is appended with its name, type, size, date and content; a refused one changes nothing |
| Documents.UnitOf | components/DocumentManager.tsx:20-24 | B iff below 1024, KB iff 1024..1048575, MB otherwise |
| Documents.UnitMonotone | components/DocumentManager.tsx:20-24 | a larger size is never shown in a smaller unit |

## Left out

- The user interface: rendering, colours, modals, navigation, drag-and-drop event plumbing, and `alert`/`confirm` dialogs. A confirmation is a boolean argument where it decides a write (`resetData`). The document list's delete confirmation is not modelled; its write is `Store.AppStore.DeleteDocument`.
- Browser storage. The lists are held in memory. The saved snapshot at start-up is an argument (`Saved`), and `JSON.parse` failure is its `Unreadable` case. The manual-completion and paid lists are plain arguments and results.
- File and spreadsheet I/O: XLSX export and import, FileReader and data URLs, backup files and Word documents. Only the row selection and ordering of the exports are modelled.
- `generateId` is random. Each call is a fresh-id argument that the list does not use yet.
- The clock: "today" is a day-ordinal argument and "now" is an instant argument. The Dashboard's one-minute refresh timer is not modelled.
- Time zones, daylight saving and `Date` internals. Dates are day ordinals and instants are milliseconds on a uniform local clock.
- `getSessionSequenceInfo` is imported by `components/ScheduleManager.tsx` but is not part of this model. Only the display clamp applied to its result is modelled (`Scheduling.DisplayCumulative`).
- `handleNextWeek` after the planner only moves the view one week on and is not modelled.
- `formatSize`'s number text (`toFixed(1)`) is floating point and is not modelled; only the choice of unit is.
- A saved snapshot at start-up may lack any list, and a restored backup may lack students or majors. The source then keeps `undefined` for that list (it fills in only `documents`). The model stores an empty list instead.
- INITIAL_DATA's students carry a `studentCode` field that the `Student` type does not declare. The model's `Student` has only the declared fields.
- Scheduling.ClampPeriodCount: the typed value is an integer. `Number` of the input text can also be fractional or NaN, which the model does not represent.
- Utils.DetermineStatus: takes a valid day ordinal. For a date string that does not parse, the source's instants are NaN, every comparison fails and the stored status is returned unchanged; the model has no such date.
- Stored dates are assumed to be canonical `yyyy-MM-dd` strings. The source compares raw date strings (same-slot tests when dropping, copying, exporting and drawing the grid) and the model compares day ordinals; the two agree only for canonical strings.
- Utils.RoundedPercent: the percentage is computed exactly (round half up of the rational value) rather than with floating-point division, which can differ from `Math.round` in the last place.
- Calendar.NumberOf: only digit strings and the empty string are read as numbers; other forms `Number` accepts (spaces, signs, exponents, hexadecimal) are treated as not-a-number, and a date that does not parse becomes an absent date.
- Calendar.ParseFormatRoundTrip: stated for four-digit years 100..9999, since `new Date` maps years 0..99 to 1900..1999.
- Calendar.DayNumberOrder: stated for years outside 0..99, for the same reason.
- Documents.Lower: only ASCII letters are lower-cased; `toLowerCase` also folds other scripts.
- Seqs.SortBy: the result is proved sorted and a permutation of the input, but the stability of the sort is not stated.
- Scheduling.RerunSkipsFilledSlots: states only that a second run leaves the first run's slots alone, not that it adds nothing at all, because the planner is not idempotent (`Scheduling.PlannerNotIdempotent`).
- The Statistics charts, the Management and StudentManager forms, and the system backup page are not part of this model.
