/** The faculty masterlist page: the department dropdown, the search and
    department filter, the CSV row mapping for bulk upload, and the page state
    that the edit modal changes. */
module FacultyManagement {
  import opened Lists
  import opened Js
  import opened JsSort
  import opened Records
  import Auth

  /** The department dropdown: every department some faculty member has, once
      each, in ascending order, with no empty or missing entry. */
  function UniqueDepartments(faculty: seq<User>): (r: seq<string>)
    ensures StrictlySorted(r)
    ensures forall d :: d in r <==> d != "" && exists f :: f in faculty && f.department == Some(d)
  {
    var departments := Map(faculty, (f: User) => f.department);
    var r := UniqueSortedOptions(departments);
    forall d
      ensures Some(d) in departments <==> exists f :: f in faculty && f.department == Some(d)
    {
      MapMember(faculty, (f: User) => f.department, Some(d));
    }
    r
  }

  /** A faculty member is listed when the search matches and a selected
      department equals theirs. */
  predicate FacultyShown(f: User, search: string, deptFilter: string) {
    MatchesSearch(f, search) && (deptFilter == "" || f.department == Some(deptFilter))
  }

  /** `filteredFaculty`: the listed faculty, in roster order. */
  function FilteredFaculty(faculty: seq<User>, search: string, deptFilter: string): (r: seq<User>)
    ensures IsSubsequence(r, faculty)
    ensures forall f :: f in r <==> f in faculty && FacultyShown(f, search, deptFilter)
    ensures search == "" && deptFilter == "" ==> r == faculty
  {
    forall f | f in faculty
      ensures MatchesSearch(f, "")
    {
      EmptySearchMatches(f);
    }
    Filter(faculty, (f: User) => FacultyShown(f, search, deptFilter))
  }

  /** Every department offered in the dropdown, when selected with an empty
      search, lists at least one faculty member. */
  lemma OfferedDepartmentsAreInhabited(faculty: seq<User>, d: string)
    requires d in UniqueDepartments(faculty)
    ensures FilteredFaculty(faculty, "", d) != []
  {
    var f :| f in faculty && f.department == Some(d);
    EmptySearchMatches(f);
    assert f in FilteredFaculty(faculty, "", d);
  }

  // ---------------------------------------------------------------------------
  // CSV bulk upload

  /** One faculty member of the bulk-upload request body. */
  datatype FacultyUpload = FacultyUpload(
    name: Str,
    email: Str,
    idNumber: Str,
    middleName: string,
    department: Str)

  /** A parsed CSV row (its headers already normalised) as a faculty record:
      the id number comes from the first non-empty of `idnumber`, `id` and
      `empid`, the department from `department` or `dept`, the middle name
      from `middlename` or `mname`, else "". */
  function FacultyFromCsv(row: CsvRow): (r: FacultyUpload)
    ensures r.name == Cell(row, "name") && r.email == Cell(row, "email")
    ensures Truthy(Cell(row, "idnumber")) ==> r.idNumber == Cell(row, "idnumber")
    ensures !Truthy(Cell(row, "idnumber")) && Truthy(Cell(row, "id")) ==> r.idNumber == Cell(row, "id")
    ensures !Truthy(Cell(row, "idnumber")) && !Truthy(Cell(row, "id")) ==> r.idNumber == Cell(row, "empid")
    ensures Truthy(Cell(row, "department")) ==> r.department == Cell(row, "department")
    ensures !Truthy(Cell(row, "department")) ==> r.department == Cell(row, "dept")
    ensures Truthy(Cell(row, "middlename")) ==> r.middleName == row["middlename"]
    ensures !Truthy(Cell(row, "middlename")) && Truthy(Cell(row, "mname")) ==> r.middleName == row["mname"]
    ensures !Truthy(Cell(row, "middlename")) && !Truthy(Cell(row, "mname")) ==> r.middleName == ""
  {
    FacultyUpload(
      Cell(row, "name"),
      Cell(row, "email"),
      Or(Or(Cell(row, "idnumber"), Cell(row, "id")), Cell(row, "empid")),
      OrDefault(Or(Cell(row, "middlename"), Cell(row, "mname")), ""),
      Or(Cell(row, "department"), Cell(row, "dept")))
  }

  /** A row is uploaded only when it has a non-empty e-mail and name. */
  predicate ValidFaculty(f: FacultyUpload) {
    Truthy(f.email) && Truthy(f.name)
  }

  /** The body of the bulk upload request: the kind of account to create. */
  datatype BulkRequest = BulkUsers(users: seq<FacultyUpload>, role: string)

  /** The bulk upload request: the valid mapped rows in file order, to be
      created as faculty accounts, or no request at all when no row is valid. */
  function FacultyBulkUpload(rows: seq<CsvRow>): (r: Option<BulkRequest>)
    ensures r.Some? ==> r.value.role == "faculty"
    ensures r.None? <==> forall i :: 0 <= i < |rows| ==> !ValidFaculty(FacultyFromCsv(rows[i]))
    ensures r.Some? ==> |r.value.users| > 0 && IsSubsequence(r.value.users, Map(rows, FacultyFromCsv))
    ensures r.Some? ==> forall f :: f in r.value.users ==> ValidFaculty(f)
    ensures r.Some? ==> forall i :: 0 <= i < |rows| && ValidFaculty(FacultyFromCsv(rows[i])) ==>
      FacultyFromCsv(rows[i]) in r.value.users
    ensures r.Some? ==>
      forall f :: multiset(r.value.users)[f] == if ValidFaculty(f) then multiset(Map(rows, FacultyFromCsv))[f] else 0
  {
    var mapped := Map(rows, FacultyFromCsv);
    var valid := Filter(mapped, ValidFaculty);
    assert forall i :: 0 <= i < |rows| && ValidFaculty(FacultyFromCsv(rows[i])) ==> mapped[i] in valid;
    if |valid| == 0 then None else Some(BulkUsers(valid, "faculty"))
  }

  // ---------------------------------------------------------------------------
  // Page state

  /** The add/edit modal's five fields. */
  datatype FacultyForm = FacultyForm(
    name: string,
    email: string,
    idNumber: string,
    middleName: string,
    department: string)

  const BlankForm := FacultyForm("", "", "", "", "")

  /** The form `openEdit` fills from a roster entry: its fields, with "" for
      every optional field that is missing or empty. */
  function EditForm(f: User): (form: FacultyForm)
    ensures form.name == f.name && form.email == f.email
    ensures form.idNumber == "" <==> !Truthy(f.idNumber)
    ensures form.middleName == "" <==> !Truthy(f.middleName)
    ensures form.department == "" <==> !Truthy(f.department)
    ensures Truthy(f.idNumber) ==> form.idNumber == f.idNumber.value
    ensures Truthy(f.middleName) ==> form.middleName == f.middleName.value
    ensures Truthy(f.department) ==> form.department == f.department.value
  {
    FacultyForm(f.name, f.email, OrDefault(f.idNumber, ""), OrDefault(f.middleName, ""), OrDefault(f.department, ""))
  }

  /** The request `handleSubmit` sends: an update of the member being edited,
      or a bulk creation of the one member in the form. */
  datatype SubmitRequest = UpdateUser(id: string, body: FacultyForm) | CreateUsers(users: seq<FacultyForm>, role: string)

  class FacultyPage {
    var faculty: seq<User>
    var search: string
    var deptFilter: string
    var showModal: bool
    var editing: Option<User>
    var form: FacultyForm

    /** The page as first rendered: no roster, no filters, modal closed. */
    constructor ()
      ensures faculty == [] && search == "" && deptFilter == ""
      ensures !showModal && editing == None && form == BlankForm
    {
      faculty := [];
      search := "";
      deptFilter := "";
      showModal := false;
      editing := None;
      form := BlankForm;
    }

    /** The table's rows. */
    function Listed(): seq<User>
      reads this
    {
      FilteredFaculty(faculty, search, deptFilter)
    }

    /** `fetchFaculty` once the request has settled: a loaded roster replaces
        the list; a 401 or 403 logs the user out; any other failure changes
        nothing. */
    method FetchFaculty(auth: Auth.AuthProvider, outcome: Fetch<seq<User>>) returns (location: Option<string>)
      modifies this, auth
      ensures outcome.Loaded? ==> faculty == outcome.data
      ensures outcome.Failed? ==> faculty == old(faculty)
      ensures search == old(search) && deptFilter == old(deptFilter)
      ensures showModal == old(showModal) && editing == old(editing) && form == old(form)
      ensures SessionExpired(outcome) ==>
        auth.user == None && auth.storage == Auth.ClearUser(old(auth.storage)) && location == Some(Auth.LoginLocation)
      ensures !SessionExpired(outcome) ==>
        auth.user == old(auth.user) && auth.storage == old(auth.storage) && location == None
    {
      location := None;
      if outcome.Loaded? {
        faculty := outcome.data;
      } else if SessionExpired(outcome) {
        var to := auth.Logout();
        location := Some(to);
      }
    }

    method SetSearch(q: string)
      modifies this
      ensures search == q
      ensures faculty == old(faculty) && deptFilter == old(deptFilter)
      ensures showModal == old(showModal) && editing == old(editing) && form == old(form)
    {
      search := q;
    }

    method SelectDepartment(d: string)
      modifies this
      ensures deptFilter == d
      ensures faculty == old(faculty) && search == old(search)
      ensures showModal == old(showModal) && editing == old(editing) && form == old(form)
    {
      deptFilter := d;
    }

    /** Typing into one of the modal's inputs replaces the form; nothing else
        changes. */
    method TypeInto(f: FacultyForm)
      modifies this
      ensures form == f
      ensures faculty == old(faculty) && search == old(search) && deptFilter == old(deptFilter)
      ensures showModal == old(showModal) && editing == old(editing)
    {
      form := f;
    }

    /** The "Add Faculty" button only opens the modal. */
    method OpenAdd()
      modifies this
      ensures showModal
      ensures editing == old(editing) && form == old(form)
      ensures faculty == old(faculty) && search == old(search) && deptFilter == old(deptFilter)
    {
      showModal := true;
    }

    method OpenEdit(f: User)
      modifies this
      ensures showModal && editing == Some(f) && form == EditForm(f)
      ensures faculty == old(faculty) && search == old(search) && deptFilter == old(deptFilter)
    {
      editing := Some(f);
      form := EditForm(f);
      showModal := true;
    }

    /** Closing the modal clears all five fields and the edit target. */
    method CloseModal()
      modifies this
      ensures !showModal && editing == None && form == BlankForm
      ensures faculty == old(faculty) && search == old(search) && deptFilter == old(deptFilter)
    {
      showModal := false;
      editing := None;
      form := BlankForm;
    }

    /** The end of `handleSubmit`: once the request succeeds the modal is
        closed and reset and the list is to be fetched again (`refetch`);
        after a failure only an alert is shown, so the modal stays as it was. */
    method Settle(ok: bool) returns (refetch: bool)
      modifies this
      ensures refetch == ok
      ensures ok ==> !showModal && editing == None && form == BlankForm
      ensures !ok ==> showModal == old(showModal) && editing == old(editing) && form == old(form)
      ensures faculty == old(faculty) && search == old(search) && deptFilter == old(deptFilter)
    {
      if ok {
        CloseModal();
      }
      refetch := ok;
    }

    /** An edit updates the edited member with the whole form; otherwise the
        form is sent as a one-element bulk creation. */
    function Submit(): (r: SubmitRequest)
      reads this
      ensures r.UpdateUser? <==> editing.Some?
      ensures r.UpdateUser? ==> r.id == editing.value.id && r.body == form
      ensures r.CreateUsers? ==> r.users == [form] && r.role == "faculty"
    {
      if editing.Some? then UpdateUser(editing.value.id, form) else CreateUsers([form], "faculty")
    }
  }
}
