/** The backend's records as the client sees them. Fields the pages treat as
    optional (`s.idNumber && ...`, `sub.course || ''`) are `Str`, that is a
    string or `undefined`; fields the pages use unguarded are plain strings. */
module Records {
  import opened Js

  /** The signed-in account: the login endpoint's response body. */
  datatype Account = Account(role: string, name: Str, token: string)

  /** A roster entry from `/admin/users` (a student or a faculty member). */
  datatype User = User(
    id: string,
    name: string,
    email: string,
    idNumber: Str,
    middleName: Str,
    department: Str,
    course: Str,
    section: Str)

  /** A subject's `faculty` field: absent, a bare id, or a populated user. */
  datatype FacultyRef = NoFaculty | FacultyId(id: string) | Populated(id: string, name: Str)

  datatype Schedule = Schedule(day: Str, startTime: Str, endTime: Str)

  /** A subject from `/admin/subjects` or `/faculty/my-subjects`. */
  datatype Subject = Subject(
    id: string,
    subjectName: string,
    subjectCode: string,
    faculty: FacultyRef,
    schedule: Option<Schedule>,
    room: string,
    course: Str,
    section: Str,
    semester: string)

  /** A populated reference to a person (`report.faculty`, `report.student`). */
  datatype Named = Named(name: Str)

  datatype SubjectInfo = SubjectInfo(subjectCode: Str, subjectName: Str)

  /** An absence report from `/admin/reports`. */
  datatype Report = Report(
    id: string,
    faculty: Option<Named>,
    subject: Option<SubjectInfo>,
    student: Option<Named>,
    remarks: Str,
    studentCount: Option<int>,
    createdAt: string)

  /** The backend's base URL. */
  const ApiBase := "https://fac-dss-be.onrender.com/api"

  /** A GET request: the URL and its query parameters. */
  datatype Request = Request(url: string, params: map<string, string>)

  /** The outcome of a GET request: the response body, or the HTTP status of
      the failure (`None` when no response arrived). */
  datatype Fetch<T> = Loaded(data: T) | Failed(status: Option<int>)

  /** A 401 or 403 answer: the roster pages log the user out. */
  predicate SessionExpired<T>(f: Fetch<T>) {
    f.Failed? && (f.status == Some(401) || f.status == Some(403))
  }

  /** The roster pages' search: the lower-cased query is a substring of the
      lower-cased name, or of the id number or e-mail when those are set. */
  predicate MatchesSearch(u: User, search: string) {
    var q := Lower(search);
    Includes(Lower(u.name), q)
    || (Truthy(u.idNumber) && Includes(Lower(u.idNumber.value), q))
    || (u.email != "" && Includes(Lower(u.email), q))
  }

  /** An empty search matches every user. */
  lemma EmptySearchMatches(u: User)
    ensures MatchesSearch(u, "")
  {
    IncludesEmpty(Lower(u.name));
  }

  /** One parsed CSV row: normalised header to cell text. */
  type CsvRow = map<string, string>

  /** `row.key`: a missing column reads as `undefined`. */
  function Cell(row: CsvRow, key: string): Str {
    if key in row then Some(row[key]) else None
  }
}
