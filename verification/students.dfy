/** The student masterlist page: dropdown options, the multi-condition list
    filter, the CSV row mapping for bulk upload, and the page state that the
    edit modal and the filter dropdowns change. */
module StudentManagement {
  import opened Lists
  import opened Js
  import opened JsSort
  import opened Records
  import Auth

  // ---------------------------------------------------------------------------
  // Dropdown options

  /** A student belongs to the selected course; "" selects every course. */
  predicate InCourse(u: User, courseFilter: string) {
    courseFilter == "" || u.course == Some(courseFilter)
  }

  /** The course dropdown: every course that some student has, once each, in
      ascending order, with no empty or missing entry. */
  function UniqueCourses(students: seq<User>): (r: seq<string>)
    ensures StrictlySorted(r)
    ensures forall c :: c in r <==> c != "" && exists u :: u in students && u.course == Some(c)
  {
    var courses := Map(students, (u: User) => u.course);
    var r := UniqueSortedOptions(courses);
    forall c
      ensures Some(c) in courses <==> exists u :: u in students && u.course == Some(c)
    {
      MapMember(students, (u: User) => u.course, Some(c));
    }
    r
  }

  /** The section dropdown: the sections of the students in the selected
      course (of all students when no course is selected), once each, ascending. */
  function UniqueSections(students: seq<User>, courseFilter: string): (r: seq<string>)
    ensures StrictlySorted(r)
    ensures forall s :: s in r <==>
      s != "" && exists u :: u in students && InCourse(u, courseFilter) && u.section == Some(s)
  {
    var relevant := if courseFilter != "" then Filter(students, (u: User) => u.course == Some(courseFilter)) else students;
    assert forall u :: u in relevant <==> u in students && InCourse(u, courseFilter);
    var sections := Map(relevant, (u: User) => u.section);
    var r := UniqueSortedOptions(sections);
    forall s
      ensures Some(s) in sections <==> exists u :: u in relevant && u.section == Some(s)
    {
      MapMember(relevant, (u: User) => u.section, Some(s));
    }
    r
  }

  // ---------------------------------------------------------------------------
  // The list filter

  /** A student is listed when the search matches and each selected filter
      equals the student's value. */
  predicate StudentShown(u: User, search: string, courseFilter: string, sectionFilter: string) {
    MatchesSearch(u, search) && InCourse(u, courseFilter) && (sectionFilter == "" || u.section == Some(sectionFilter))
  }

  /** `filteredStudents`: the listed students, in roster order. */
  function FilteredStudents(students: seq<User>, search: string, courseFilter: string, sectionFilter: string): (r: seq<User>)
    ensures IsSubsequence(r, students)
    ensures forall u :: u in r <==> u in students && StudentShown(u, search, courseFilter, sectionFilter)
    ensures search == "" && courseFilter == "" && sectionFilter == "" ==> r == students
  {
    forall u | u in students
      ensures MatchesSearch(u, "")
    {
      EmptySearchMatches(u);
    }
    Filter(students, (u: User) => StudentShown(u, search, courseFilter, sectionFilter))
  }

  /** The section dropdown offers the section of every listed student that
      has one, whatever the search and section filter are. */
  lemma ListedSectionsAreOffered(students: seq<User>, search: string, courseFilter: string, sectionFilter: string)
    ensures forall u :: u in FilteredStudents(students, search, courseFilter, sectionFilter) && Truthy(u.section) ==>
      u.section.value in UniqueSections(students, courseFilter)
  {
  }

  /** A selected course always lists only students of that course, and with a
      course and a section selected every listed student has that section. */
  lemma SelectedFiltersHold(students: seq<User>, search: string, courseFilter: string, sectionFilter: string)
    requires courseFilter != ""
    ensures forall u :: u in FilteredStudents(students, search, courseFilter, sectionFilter) ==>
      u.course == Some(courseFilter) && (sectionFilter != "" ==> u.section == Some(sectionFilter))
  {
  }

  // ---------------------------------------------------------------------------
  // CSV bulk upload

  /** One student of the bulk-upload request body. */
  datatype StudentUpload = StudentUpload(
    name: Str,
    email: Str,
    idNumber: Str,
    middleName: string,
    course: Str,
    section: Str)

  /** A parsed CSV row (its headers already normalised) as a student record:
      the id number comes from the first non-empty of `idnumber`, `id` and
      `studentno`, the middle name from `middlename` or `mname`, else "". */
  function StudentFromCsv(row: CsvRow): (r: StudentUpload)
    ensures r.name == Cell(row, "name") && r.email == Cell(row, "email")
    ensures r.course == Cell(row, "course") && r.section == Cell(row, "section")
    ensures Truthy(Cell(row, "idnumber")) ==> r.idNumber == Cell(row, "idnumber")
    ensures !Truthy(Cell(row, "idnumber")) && Truthy(Cell(row, "id")) ==> r.idNumber == Cell(row, "id")
    ensures !Truthy(Cell(row, "idnumber")) && !Truthy(Cell(row, "id")) ==> r.idNumber == Cell(row, "studentno")
    ensures Truthy(Cell(row, "middlename")) ==> r.middleName == row["middlename"]
    ensures !Truthy(Cell(row, "middlename")) && Truthy(Cell(row, "mname")) ==> r.middleName == row["mname"]
    ensures !Truthy(Cell(row, "middlename")) && !Truthy(Cell(row, "mname")) ==> r.middleName == ""
  {
    StudentUpload(
      Cell(row, "name"),
      Cell(row, "email"),
      Or(Or(Cell(row, "idnumber"), Cell(row, "id")), Cell(row, "studentno")),
      OrDefault(Or(Cell(row, "middlename"), Cell(row, "mname")), ""),
      Cell(row, "course"),
      Cell(row, "section"))
  }

  /** A row is uploaded only when it has a non-empty e-mail and name. */
  predicate ValidStudent(s: StudentUpload) {
    Truthy(s.email) && Truthy(s.name)
  }

  /** The body of the bulk upload request: the kind of account to create. */
  datatype BulkRequest = BulkUsers(users: seq<StudentUpload>, role: string)

  /** The bulk upload request: the valid mapped rows in file order, to be
      created as students, or no request at all when no row is valid. */
  function StudentBulkUpload(rows: seq<CsvRow>): (r: Option<BulkRequest>)
    ensures r.Some? ==> r.value.role == "student"
    ensures r.None? <==> forall i :: 0 <= i < |rows| ==> !ValidStudent(StudentFromCsv(rows[i]))
    ensures r.Some? ==> |r.value.users| > 0 && IsSubsequence(r.value.users, Map(rows, StudentFromCsv))
    ensures r.Some? ==> forall s :: s in r.value.users ==> ValidStudent(s)
    ensures r.Some? ==> forall i :: 0 <= i < |rows| && ValidStudent(StudentFromCsv(rows[i])) ==>
      StudentFromCsv(rows[i]) in r.value.users
    ensures r.Some? ==>
      forall s :: multiset(r.value.users)[s] == if ValidStudent(s) then multiset(Map(rows, StudentFromCsv))[s] else 0
  {
    var mapped := Map(rows, StudentFromCsv);
    var valid := Filter(mapped, ValidStudent);
    assert forall i :: 0 <= i < |rows| && ValidStudent(StudentFromCsv(rows[i])) ==> mapped[i] in valid;
    if |valid| == 0 then None else Some(BulkUsers(valid, "student"))
  }

  // ---------------------------------------------------------------------------
  // Page state

  /** The add/edit modal's fields. */
  datatype StudentForm = StudentForm(
    name: string,
    email: string,
    idNumber: string,
    middleName: string,
    course: string,
    section: string)

  const BlankForm := StudentForm("", "", "", "", "", "")

  /** The form `openEdit` fills from a roster entry: its fields, with "" for
      every optional field that is missing or empty. */
  function EditForm(u: User): (f: StudentForm)
    ensures f.name == u.name && f.email == u.email
    ensures f.idNumber == "" <==> !Truthy(u.idNumber)
    ensures f.course == "" <==> !Truthy(u.course)
    ensures f.section == "" <==> !Truthy(u.section)
    ensures f.middleName == "" <==> !Truthy(u.middleName)
    ensures Truthy(u.idNumber) ==> f.idNumber == u.idNumber.value
    ensures Truthy(u.course) ==> f.course == u.course.value
    ensures Truthy(u.section) ==> f.section == u.section.value
    ensures Truthy(u.middleName) ==> f.middleName == u.middleName.value
  {
    StudentForm(u.name, u.email, OrDefault(u.idNumber, ""), OrDefault(u.middleName, ""),
      OrDefault(u.course, ""), OrDefault(u.section, ""))
  }

  /** The request `handleSubmit` sends: an update of the student being edited,
      or a bulk creation of the one student in the form. */
  datatype SubmitRequest = UpdateUser(id: string, body: StudentForm) | CreateUsers(users: seq<StudentForm>, role: string)

  class StudentPage {
    var students: seq<User>
    var search: string
    var courseFilter: string
    var sectionFilter: string
    var showModal: bool
    var editing: Option<User>
    var form: StudentForm

    /** The page as first rendered: no students, no filters, modal closed. */
    constructor ()
      ensures students == [] && search == "" && courseFilter == "" && sectionFilter == ""
      ensures !showModal && editing == None && form == BlankForm
    {
      students := [];
      search := "";
      courseFilter := "";
      sectionFilter := "";
      showModal := false;
      editing := None;
      form := BlankForm;
    }

    /** The table's rows. */
    function Listed(): seq<User>
      reads this
    {
      FilteredStudents(students, search, courseFilter, sectionFilter)
    }

    /** `fetchStudents` once the request has settled: a loaded roster replaces
        the list; a 401 or 403 logs the user out; any other failure changes
        nothing. */
    method FetchStudents(auth: Auth.AuthProvider, outcome: Fetch<seq<User>>) returns (location: Option<string>)
      modifies this, auth
      ensures outcome.Loaded? ==> students == outcome.data
      ensures outcome.Failed? ==> students == old(students)
      ensures search == old(search) && courseFilter == old(courseFilter) && sectionFilter == old(sectionFilter)
      ensures showModal == old(showModal) && editing == old(editing) && form == old(form)
      ensures SessionExpired(outcome) ==>
        auth.user == None && auth.storage == Auth.ClearUser(old(auth.storage)) && location == Some(Auth.LoginLocation)
      ensures !SessionExpired(outcome) ==>
        auth.user == old(auth.user) && auth.storage == old(auth.storage) && location == None
    {
      location := None;
      if outcome.Loaded? {
        students := outcome.data;
      } else if SessionExpired(outcome) {
        var to := auth.Logout();
        location := Some(to);
      }
    }

    method SetSearch(q: string)
      modifies this
      ensures search == q
      ensures students == old(students) && courseFilter == old(courseFilter) && sectionFilter == old(sectionFilter)
      ensures showModal == old(showModal) && editing == old(editing) && form == old(form)
    {
      search := q;
    }

    /** Choosing a course always clears the section filter, so the list is
        then filtered by the search and the course alone. */
    method SelectCourse(c: string)
      modifies this
      ensures courseFilter == c && sectionFilter == ""
      ensures students == old(students) && search == old(search)
      ensures showModal == old(showModal) && editing == old(editing) && form == old(form)
      ensures Listed() == FilteredStudents(students, search, c, "")
    {
      courseFilter := c;
      sectionFilter := "";
    }

    method SelectSection(s: string)
      modifies this
      ensures sectionFilter == s
      ensures students == old(students) && search == old(search) && courseFilter == old(courseFilter)
      ensures showModal == old(showModal) && editing == old(editing) && form == old(form)
    {
      sectionFilter := s;
    }

    /** Typing into one of the modal's inputs replaces the form; nothing else
        changes. */
    method TypeInto(f: StudentForm)
      modifies this
      ensures form == f
      ensures students == old(students) && search == old(search)
      ensures courseFilter == old(courseFilter) && sectionFilter == old(sectionFilter)
      ensures showModal == old(showModal) && editing == old(editing)
    {
      form := f;
    }

    /** The "Add Student" button only opens the modal. */
    method OpenAdd()
      modifies this
      ensures showModal
      ensures editing == old(editing) && form == old(form)
      ensures students == old(students) && search == old(search)
      ensures courseFilter == old(courseFilter) && sectionFilter == old(sectionFilter)
    {
      showModal := true;
    }

    method OpenEdit(u: User)
      modifies this
      ensures showModal && editing == Some(u) && form == EditForm(u)
      ensures students == old(students) && search == old(search)
      ensures courseFilter == old(courseFilter) && sectionFilter == old(sectionFilter)
    {
      editing := Some(u);
      form := EditForm(u);
      showModal := true;
    }

    method CloseModal()
      modifies this
      ensures !showModal && editing == None && form == BlankForm
      ensures students == old(students) && search == old(search)
      ensures courseFilter == old(courseFilter) && sectionFilter == old(sectionFilter)
    {
      showModal := false;
      editing := None;
      form := BlankForm;
    }

    /** The end of `handleSubmit`: once the request succeeds the modal is
        closed and reset and the list is to be fetched again (`refetch`);
        after a failure only an alert is shown, so the modal stays as it was. */
    method Settle(ok: bool) returns (refetch: bool)
      modifies this
      ensures refetch == ok
      ensures ok ==> !showModal && editing == None && form == BlankForm
      ensures !ok ==> showModal == old(showModal) && editing == old(editing) && form == old(form)
      ensures students == old(students) && search == old(search)
      ensures courseFilter == old(courseFilter) && sectionFilter == old(sectionFilter)
    {
      if ok {
        CloseModal();
      }
      refetch := ok;
    }

    /** An edit updates the edited student with the whole form; otherwise the
        form is sent as a one-element bulk creation. */
    function Submit(): (r: SubmitRequest)
      reads this
      ensures r.UpdateUser? <==> editing.Some?
      ensures r.UpdateUser? ==> r.id == editing.value.id && r.body == form
      ensures r.CreateUsers? ==> r.users == [form] && r.role == "student"
    {
      if editing.Some? then UpdateUser(editing.value.id, form) else CreateUsers([form], "student")
    }
  }
}
