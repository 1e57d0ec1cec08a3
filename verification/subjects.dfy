/** The subject management page: the semester filter applied to fetched
    subjects, the search, the nesting of the flat form into the stored schema
    and the flattening back for editing, and the CSV bulk upload filter. */
module SubjectManagement {
  import opened Lists
  import opened Js
  import opened Records

  const FirstSemester := "1st Sem 2025-2026"
  const SecondSemester := "2nd Sem 2025-2026"

  /** The days the form's day dropdown offers. */
  const Days: seq<string> := ["Monday", "Tuesday", "Wednesday", "Thursday", "Friday", "Saturday"]

  /** The add/edit form: flat fields, with the faculty as an id. */
  datatype SubjectForm = SubjectForm(
    subjectName: string,
    subjectCode: string,
    facultyId: string,
    day: string,
    startTime: string,
    endTime: string,
    room: string,
    course: string,
    section: string,
    semester: string)

  /** The empty form for a semester: every field blank, the day 'Monday'. */
  function BlankForm(semester: string): (f: SubjectForm)
    ensures f.day == "Monday" && f.semester == semester
    ensures f.subjectName == "" && f.subjectCode == "" && f.facultyId == "" && f.room == ""
    ensures f.startTime == "" && f.endTime == "" && f.course == "" && f.section == ""
  {
    SubjectForm("", "", "", "Monday", "", "", "", "", "", semester)
  }

  datatype PayloadSchedule = PayloadSchedule(day: string, startTime: string, endTime: string)

  /** The request body of a create or update, shaped like the stored schema. */
  datatype SubjectPayload = SubjectPayload(
    subjectCode: string,
    subjectName: string,
    faculty: string,
    schedule: PayloadSchedule,
    room: string,
    course: string,
    section: string,
    semester: string,
    isActive: bool)

  /** `handleSubmit`'s payload: the schedule fields nested under `schedule`,
      `facultyId` renamed to `faculty`, and the subject always active. */
  function Payload(f: SubjectForm): (p: SubjectPayload)
    ensures p.isActive
    ensures p.faculty == f.facultyId
    ensures p.schedule == PayloadSchedule(f.day, f.startTime, f.endTime)
    ensures p.subjectCode == f.subjectCode && p.subjectName == f.subjectName && p.room == f.room
    ensures p.course == f.course && p.section == f.section && p.semester == f.semester
  {
    SubjectPayload(f.subjectCode, f.subjectName, f.facultyId, PayloadSchedule(f.day, f.startTime, f.endTime),
      f.room, f.course, f.section, f.semester, true)
  }

  /** `sub.faculty?._id || sub.faculty || ''`: the id of a populated faculty,
      the bare id itself, or "" when there is none. */
  function FacultyIdOf(r: FacultyRef): (id: string)
    ensures r.NoFaculty? ==> id == ""
    ensures r.FacultyId? ==> id == r.id
    ensures r.Populated? && r.id != "" ==> id == r.id
  {
    match r
    case NoFaculty => ""
    case FacultyId(id) => id
    case Populated(id, _) => id
  }

  /** `openEdit`'s flattening of a fetched subject into the form: the schedule
      fields pulled out of `schedule`, the day defaulting to 'Monday' and the
      other optional fields to "". */
  function Flatten(sub: Subject): (f: SubjectForm)
    ensures f.day != ""
    ensures f.subjectName == sub.subjectName && f.subjectCode == sub.subjectCode
    ensures f.room == sub.room && f.semester == sub.semester
    ensures f.facultyId == FacultyIdOf(sub.faculty)
    ensures sub.schedule.None? ==> f.day == "Monday" && f.startTime == "" && f.endTime == ""
    ensures sub.schedule.Some? ==>
      f.day == OrDefault(sub.schedule.value.day, "Monday") &&
      f.startTime == OrDefault(sub.schedule.value.startTime, "") &&
      f.endTime == OrDefault(sub.schedule.value.endTime, "")
    ensures sub.schedule.Some? && Truthy(sub.schedule.value.day) ==> f.day == sub.schedule.value.day.value
    ensures f.course == OrDefault(sub.course, "") && f.section == OrDefault(sub.section, "")
    ensures f.course == "" <==> !Truthy(sub.course)
    ensures f.section == "" <==> !Truthy(sub.section)
  {
    var day := if sub.schedule.Some? then sub.schedule.value.day else None;
    var startTime := if sub.schedule.Some? then sub.schedule.value.startTime else None;
    var endTime := if sub.schedule.Some? then sub.schedule.value.endTime else None;
    SubjectForm(
      sub.subjectName,
      sub.subjectCode,
      FacultyIdOf(sub.faculty),
      OrDefault(day, "Monday"),
      OrDefault(startTime, ""),
      OrDefault(endTime, ""),
      sub.room,
      OrDefault(sub.course, ""),
      OrDefault(sub.section, ""),
      sub.semester)
  }

  /** The subject as the backend returns it after storing `p` under `id`: the
      stored fields echoed back, an empty faculty stored as none. */
  function AsFetched(p: SubjectPayload, id: string): Subject {
    Subject(
      id,
      p.subjectName,
      p.subjectCode,
      if p.faculty == "" then NoFaculty else FacultyId(p.faculty),
      Some(Schedule(Some(p.schedule.day), Some(p.schedule.startTime), Some(p.schedule.endTime))),
      p.room,
      Some(p.course),
      Some(p.section),
      p.semester)
  }

  /** Saving a form and opening the stored subject for editing gives back the
      same form, whenever a day is chosen. */
  lemma FormRoundTrip(f: SubjectForm, id: string)
    requires f.day != ""
    ensures Flatten(AsFetched(Payload(f), id)) == f
  {
  }

  /** The same holds when the backend returns the faculty populated. */
  lemma FormRoundTripPopulated(f: SubjectForm, id: string, name: Str)
    requires f.day != "" && f.facultyId != ""
    ensures Flatten(AsFetched(Payload(f), id).(faculty := Populated(f.facultyId, name))) == f
  {
  }

  /** Saving an edit form unchanged and reopening it shows the same form:
      flattening already chooses a day, so the round trip always applies. */
  lemma ResaveIsStable(sub: Subject, id: string)
    ensures Flatten(AsFetched(Payload(Flatten(sub)), id)) == Flatten(sub)
  {
    FormRoundTrip(Flatten(sub), id);
  }

  // ---------------------------------------------------------------------------
  // Lists

  predicate InSemester(s: Subject, semester: string) {
    s.semester == semester
  }

  /** `fetchSubjects`' filter: the fetched subjects of the selected semester,
      in the order received. */
  function SubjectsOfSemester(fetched: seq<Subject>, semester: string): (r: seq<Subject>)
    ensures IsSubsequence(r, fetched)
    ensures forall s :: s in r <==> s in fetched && s.semester == semester
    ensures forall s :: multiset(r)[s] == if s.semester == semester then multiset(fetched)[s] else 0
  {
    Filter(fetched, (s: Subject) => InSemester(s, semester))
  }

  /** The search: the lower-cased query is a substring of the lower-cased
      subject name or code. */
  predicate SubjectMatches(s: Subject, search: string) {
    Includes(Lower(s.subjectName), Lower(search)) || Includes(Lower(s.subjectCode), Lower(search))
  }

  /** `filteredSubjects`: the matching subjects, in list order; an empty search
      keeps them all. */
  function FilteredSubjects(subjects: seq<Subject>, search: string): (r: seq<Subject>)
    ensures IsSubsequence(r, subjects)
    ensures forall s :: s in r <==> s in subjects && SubjectMatches(s, search)
    ensures search == "" ==> r == subjects
  {
    forall s | s in subjects
      ensures SubjectMatches(s, "")
    {
      IncludesEmpty(Lower(s.subjectName));
    }
    Filter(subjects, (s: Subject) => SubjectMatches(s, search))
  }

  // ---------------------------------------------------------------------------
  // CSV bulk upload

  /** A row (its headers only trimmed) is imported when it has a non-empty
      `subjectCode` and `subjectName`. */
  predicate ValidSubjectRow(row: CsvRow) {
    Truthy(Cell(row, "subjectCode")) && Truthy(Cell(row, "subjectName"))
  }

  /** The upload request's `subjects`: the valid rows as parsed, in file order,
      or no request at all when no row is valid. */
  function SubjectBulkUpload(rows: seq<CsvRow>): (r: Option<seq<CsvRow>>)
    ensures r.None? <==> forall row :: row in rows ==> !ValidSubjectRow(row)
    ensures r.Some? ==> |r.value| > 0 && IsSubsequence(r.value, rows)
    ensures r.Some? ==> forall row :: row in r.value <==> row in rows && ValidSubjectRow(row)
    ensures r.Some? ==> forall row :: multiset(r.value)[row] == if ValidSubjectRow(row) then multiset(rows)[row] else 0
  {
    var valid := Filter(rows, ValidSubjectRow);
    if |valid| == 0 then None else Some(valid)
  }

  // ---------------------------------------------------------------------------
  // Page state

  /** The request `handleSubmit` sends: an update of the subject being edited,
      or a creation. */
  datatype SubmitRequest = UpdateSubject(id: string, body: SubjectPayload) | CreateSubject(body: SubjectPayload)

  class SubjectPage {
    var subjects: seq<Subject>
    var faculties: seq<User>
    var semesterFilter: string
    var search: string
    var showForm: bool
    var editing: Option<Subject>
    var form: SubjectForm

    /** The form always has a day chosen, so whatever it submits round-trips. */
    predicate Valid()
      reads this
    {
      form.day != ""
    }

    constructor ()
      ensures Valid()
      ensures subjects == [] && faculties == [] && semesterFilter == FirstSemester && search == ""
      ensures !showForm && editing == None && form == BlankForm(FirstSemester)
    {
      subjects := [];
      faculties := [];
      semesterFilter := FirstSemester;
      search := "";
      showForm := false;
      editing := None;
      form := BlankForm(FirstSemester);
    }

    /** The table's rows. */
    function Listed(): seq<Subject>
      reads this
    {
      FilteredSubjects(subjects, search)
    }

    /** `fetchSubjects` once the request has settled: on success only the
        subjects of the selected semester are kept; a failure, a 401 or 403
        included, changes nothing. */
    method FetchSubjects(outcome: Fetch<seq<Subject>>)
      requires Valid()
      modifies this
      ensures Valid()
      ensures outcome.Loaded? ==> subjects == SubjectsOfSemester(outcome.data, semesterFilter)
      ensures outcome.Failed? ==> subjects == old(subjects)
      ensures forall s :: s in subjects && outcome.Loaded? ==> s.semester == semesterFilter
      ensures faculties == old(faculties) && semesterFilter == old(semesterFilter) && search == old(search)
      ensures showForm == old(showForm) && editing == old(editing) && form == old(form)
    {
      if outcome.Loaded? {
        subjects := SubjectsOfSemester(outcome.data, semesterFilter);
      }
    }

    /** `fetchFaculties`: a failure is ignored. */
    method FetchFaculties(outcome: Fetch<seq<User>>)
      requires Valid()
      modifies this
      ensures Valid()
      ensures outcome.Loaded? ==> faculties == outcome.data
      ensures outcome.Failed? ==> faculties == old(faculties)
      ensures subjects == old(subjects) && semesterFilter == old(semesterFilter) && search == old(search)
      ensures showForm == old(showForm) && editing == old(editing) && form == old(form)
    {
      if outcome.Loaded? {
        faculties := outcome.data;
      }
    }

    /** Choosing a semester; the page then fetches again. */
    method SelectSemester(semester: string)
      requires Valid()
      modifies this
      ensures Valid()
      ensures semesterFilter == semester
      ensures subjects == old(subjects) && faculties == old(faculties) && search == old(search)
      ensures showForm == old(showForm) && editing == old(editing) && form == old(form)
    {
      semesterFilter := semester;
    }

    method SetSearch(q: string)
      requires Valid()
      modifies this
      ensures Valid()
      ensures search == q
      ensures subjects == old(subjects) && faculties == old(faculties) && semesterFilter == old(semesterFilter)
      ensures showForm == old(showForm) && editing == old(editing) && form == old(form)
    {
      search := q;
    }

    /** Picking a day from the dropdown. */
    method SelectDay(day: string)
      requires Valid() && day in Days
      modifies this
      ensures Valid()
      ensures form == old(form).(day := day)
      ensures subjects == old(subjects) && faculties == old(faculties)
      ensures semesterFilter == old(semesterFilter) && search == old(search)
      ensures showForm == old(showForm) && editing == old(editing)
    {
      form := form.(day := day);
    }

    /** Typing into a text input or choosing an instructor replaces the form;
        the day is changed only by the day dropdown (`SelectDay`). */
    method TypeInto(f: SubjectForm)
      requires Valid() && f.day == form.day
      modifies this
      ensures Valid()
      ensures form == f
      ensures subjects == old(subjects) && faculties == old(faculties)
      ensures semesterFilter == old(semesterFilter) && search == old(search)
      ensures showForm == old(showForm) && editing == old(editing)
    {
      form := f;
    }

    /** The "Add Subject" button only opens the form. */
    method OpenAdd()
      requires Valid()
      modifies this
      ensures Valid()
      ensures showForm
      ensures editing == old(editing) && form == old(form)
      ensures subjects == old(subjects) && faculties == old(faculties)
      ensures semesterFilter == old(semesterFilter) && search == old(search)
    {
      showForm := true;
    }

    method OpenEdit(sub: Subject)
      requires Valid()
      modifies this
      ensures Valid()
      ensures showForm && editing == Some(sub) && form == Flatten(sub)
      ensures subjects == old(subjects) && faculties == old(faculties)
      ensures semesterFilter == old(semesterFilter) && search == old(search)
    {
      editing := Some(sub);
      form := Flatten(sub);
      showForm := true;
    }

    /** Closing resets the form to blank, with the day 'Monday' and the
        semester of the current filter. */
    method CloseModal()
      requires Valid()
      modifies this
      ensures Valid()
      ensures !showForm && editing == None && form == BlankForm(semesterFilter)
      ensures subjects == old(subjects) && faculties == old(faculties)
      ensures semesterFilter == old(semesterFilter) && search == old(search)
    {
      showForm := false;
      editing := None;
      form := BlankForm(semesterFilter);
    }

    /** The end of `handleSubmit`: once the request succeeds the form is
        closed and reset and the subjects are to be fetched again (`refetch`);
        after a failure only an alert is shown (the page's `setLoading(false)`
        names no state of this page), so the form stays as it was. */
    method Settle(ok: bool) returns (refetch: bool)
      requires Valid()
      modifies this
      ensures Valid()
      ensures refetch == ok
      ensures ok ==> !showForm && editing == None && form == BlankForm(semesterFilter)
      ensures !ok ==> showForm == old(showForm) && editing == old(editing) && form == old(form)
      ensures subjects == old(subjects) && faculties == old(faculties)
      ensures semesterFilter == old(semesterFilter) && search == old(search)
    {
      if ok {
        CloseModal();
      }
      refetch := ok;
    }

    /** The request the form submits; its payload reopens as the same form. */
    function Submit(): (r: SubmitRequest)
      requires Valid()
      reads this
      ensures r.UpdateSubject? <==> editing.Some?
      ensures r.UpdateSubject? ==> r.id == editing.value.id
      ensures r.body == Payload(form) && r.body.isActive
      ensures forall id :: Flatten(AsFetched(r.body, id)) == form
    {
      if editing.Some? then UpdateSubject(editing.value.id, Payload(form)) else CreateSubject(Payload(form))
    }
  }
}
