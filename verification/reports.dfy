/** The reports page: which request each report type sends, the loading and
    data protocol around it, and the header line, columns and rows handed to
    the PDF table. */
module Reports {
  import opened Js
  import opened Records

  const Attendance := "attendance"
  const FacultyList := "faculty"
  const StudentList := "students"

  /** `fetchData`'s request. Absence reports go to /admin/reports with the
      semester, status 'Accepted' and the date range; the masterlists go to
      /admin/users with only the role; any other type gets an empty URL and
      only the semester. */
  function FetchRequest(reportType: string, semester: string, startDate: string, endDate: string): (q: Request)
    ensures reportType == Attendance ==>
      q.url == ApiBase + "/admin/reports" &&
      q.params == map["semester" := semester, "status" := "Accepted", "startDate" := startDate, "endDate" := endDate]
    ensures reportType == FacultyList ==> q.url == ApiBase + "/admin/users" && q.params == map["role" := "faculty"]
    ensures reportType == StudentList ==> q.url == ApiBase + "/admin/users" && q.params == map["role" := "student"]
    ensures reportType !in {Attendance, FacultyList, StudentList} ==> q.url == "" && q.params == map["semester" := semester]
    ensures reportType != Attendance ==> "status" !in q.params && "startDate" !in q.params
  {
    var base := map["semester" := semester];
    if reportType == Attendance then
      Request(ApiBase + "/admin/reports", base["status" := "Accepted"]["startDate" := startDate]["endDate" := endDate])
    else if reportType == FacultyList then Request(ApiBase + "/admin/users", map["role" := "faculty"])
    else if reportType == StudentList then Request(ApiBase + "/admin/users", map["role" := "student"])
    else Request("", base)
  }

  /** The masterlist requests never send the semester: both masterlists are
      the same whatever semester is selected. */
  lemma MasterlistsIgnoreSemester(reportType: string, s1: string, s2: string, start: string, end: string)
    requires reportType == FacultyList || reportType == StudentList
    ensures FetchRequest(reportType, s1, start, end) == FetchRequest(reportType, s2, start, end)
    ensures "semester" !in FetchRequest(reportType, s1, start, end).params
  {
  }

  /** One item of the fetched data: a report or a user, as a loose record
      whose fields may each be missing. */
  datatype Entry = Entry(
    createdAt: Str,
    faculty: Option<Named>,
    subject: Option<SubjectInfo>,
    remarks: Str,
    name: Str,
    idNumber: Str,
    department: Str,
    course: Str,
    section: Str,
    email: Str)

  /** The PDF header line under the semester: the period when a start or end
      date is set, with '...' for the missing one; otherwise the generation
      date, which is left to the caller (`None`). */
  function PeriodLine(startDate: string, endDate: string): (line: Option<string>)
    ensures line.Some? <==> startDate != "" || endDate != ""
    ensures line.Some? ==>
      line.value == "Period: " + (if startDate == "" then "..." else startDate) + " to " + (if endDate == "" then "..." else endDate)
  {
    if startDate != "" || endDate != "" then
      Some("Period: " + OrDefault(Some(startDate), "...") + " to " + OrDefault(Some(endDate), "..."))
    else None
  }

  /** An absence report's row: date, faculty (or 'Unknown'), subject code
      (or 'N/A') and the remarks as they are. The date's text is locale
      dependent and supplied by the caller. */
  function AttendanceRow(d: Entry, dateText: Str -> string): (row: seq<Str>)
    ensures |row| == 4
    ensures row[0] == Some(dateText(d.createdAt))
    ensures d.faculty.Some? && Truthy(d.faculty.value.name) ==> row[1] == d.faculty.value.name
    ensures d.faculty.None? || !Truthy(d.faculty.value.name) ==> row[1] == Some("Unknown")
    ensures d.subject.Some? && Truthy(d.subject.value.subjectCode) ==> row[2] == d.subject.value.subjectCode
    ensures d.subject.None? || !Truthy(d.subject.value.subjectCode) ==> row[2] == Some("N/A")
    ensures Truthy(row[1]) && Truthy(row[2])
    ensures row[3] == d.remarks
  {
    var facultyName := if d.faculty.Some? then d.faculty.value.name else None;
    var code := if d.subject.Some? then d.subject.value.subjectCode else None;
    [Some(dateText(d.createdAt)), Some(OrDefault(facultyName, "Unknown")), Some(OrDefault(code, "N/A")), d.remarks]
  }

  /** A faculty masterlist row: name, id number (or '-'), department (or '-'),
      e-mail. */
  function FacultyRow(d: Entry): (row: seq<Str>)
    ensures |row| == 4
    ensures row[0] == d.name && row[3] == d.email
    ensures Truthy(d.idNumber) ==> row[1] == d.idNumber
    ensures !Truthy(d.idNumber) ==> row[1] == Some("-")
    ensures Truthy(d.department) ==> row[2] == d.department
    ensures !Truthy(d.department) ==> row[2] == Some("-")
    ensures Truthy(row[1]) && Truthy(row[2])
  {
    [d.name, Some(OrDefault(d.idNumber, "-")), Some(OrDefault(d.department, "-")), d.email]
  }

  /** A student masterlist row: name, id number (or '-'), course and section
      joined by a space ('' for a missing part), e-mail. */
  function StudentRow(d: Entry): (row: seq<Str>)
    ensures |row| == 4
    ensures row[0] == d.name && row[3] == d.email
    ensures Truthy(d.idNumber) ==> row[1] == d.idNumber
    ensures !Truthy(d.idNumber) ==> row[1] == Some("-")
    ensures row[2] == Some(OrDefault(d.course, "") + " " + OrDefault(d.section, ""))
  {
    [d.name, Some(OrDefault(d.idNumber, "-")), Some(OrDefault(d.course, "") + " " + OrDefault(d.section, "")), d.email]
  }

  /** The table handed to the PDF: a known report type gets four header
      columns and exactly one four-cell row per item, in order; any other
      type gets an empty table. */
  function PdfTable(reportType: string, data: seq<Entry>, dateText: Str -> string): (t: (seq<string>, seq<seq<Str>>))
    ensures reportType in {Attendance, FacultyList, StudentList} ==>
      |t.0| == 4 && |t.1| == |data| && forall i :: 0 <= i < |data| ==> |t.1[i]| == 4
    ensures reportType == Attendance ==> t.0 == ["Date", "Faculty", "Subject", "Reason"]
    ensures reportType == Attendance ==> forall i :: 0 <= i < |data| ==> t.1[i] == AttendanceRow(data[i], dateText)
    ensures reportType == FacultyList ==> t.0 == ["Name", "ID Number", "Department", "Email"]
    ensures reportType == FacultyList ==> forall i :: 0 <= i < |data| ==> t.1[i] == FacultyRow(data[i])
    ensures reportType == StudentList ==> t.0 == ["Name", "ID Number", "Course/Sec", "Email"]
    ensures reportType == StudentList ==> forall i :: 0 <= i < |data| ==> t.1[i] == StudentRow(data[i])
    ensures reportType !in {Attendance, FacultyList, StudentList} ==> t.0 == [] && t.1 == []
  {
    if reportType == Attendance then
      (["Date", "Faculty", "Subject", "Reason"], seq(|data|, i requires 0 <= i < |data| => AttendanceRow(data[i], dateText)))
    else if reportType == FacultyList then
      (["Name", "ID Number", "Department", "Email"], seq(|data|, i requires 0 <= i < |data| => FacultyRow(data[i])))
    else if reportType == StudentList then
      (["Name", "ID Number", "Course/Sec", "Email"], seq(|data|, i requires 0 <= i < |data| => StudentRow(data[i])))
    else ([], [])
  }

  /** The PDF's title: `SSU <TYPE> REPORT` with the type upper-cased. */
  function Title(reportType: string): (t: string)
    ensures |t| == |"SSU "| + |reportType| + |" REPORT"|
    ensures t[..4] == "SSU " && t[|t| - 7..] == " REPORT"
    ensures t[4..|t| - 7] == Upper(reportType)
  {
    "SSU " + Upper(reportType) + " REPORT"
  }

  class ReportsPage {
    var reportType: string
    var semester: string
    var startDate: string
    var endDate: string
    var data: seq<Entry>
    var loading: bool

    constructor ()
      ensures reportType == Attendance && semester == "1st Sem 2025-2026"
      ensures startDate == "" && endDate == "" && data == [] && !loading
    {
      reportType := Attendance;
      semester := "1st Sem 2025-2026";
      startDate := "";
      endDate := "";
      data := [];
      loading := false;
    }

    /** The export button is disabled exactly when there is no data. */
    predicate ExportEnabled()
      reads this
    {
      |data| > 0
    }

    /** The start of `fetchData`: loading is shown, the table emptied (so
        export is disabled), and the request for the current selection is
        sent. */
    method BeginFetch() returns (q: Request)
      modifies this
      ensures loading && data == [] && !ExportEnabled()
      ensures q == FetchRequest(reportType, semester, startDate, endDate)
      ensures reportType == old(reportType) && semester == old(semester)
      ensures startDate == old(startDate) && endDate == old(endDate)
    {
      loading := true;
      data := [];
      q := FetchRequest(reportType, semester, startDate, endDate);
    }

    /** The end of `fetchData`: a response becomes the data, a failure leaves
        the table empty as `BeginFetch` left it, and loading ends either way. */
    method EndFetch(outcome: Fetch<seq<Entry>>)
      modifies this
      ensures !loading
      ensures outcome.Loaded? ==> data == outcome.data
      ensures outcome.Failed? ==> data == old(data)
      ensures reportType == old(reportType) && semester == old(semester)
      ensures startDate == old(startDate) && endDate == old(endDate)
    {
      if outcome.Loaded? {
        data := outcome.data;
      }
      loading := false;
    }

    /** Changing any selection; the page then fetches again. */
    method Select(reportType': string, semester': string, startDate': string, endDate': string)
      modifies this
      ensures reportType == reportType' && semester == semester'
      ensures startDate == startDate' && endDate == endDate'
      ensures data == old(data) && loading == old(loading)
    {
      reportType := reportType';
      semester := semester';
      startDate := startDate';
      endDate := endDate';
    }

    /** The table `downloadPDF` draws for the current selection and data. */
    function Export(dateText: Str -> string): (seq<string>, seq<seq<Str>>)
      reads this
    {
      PdfTable(reportType, data, dateText)
    }
  }

  /** A fetch that fails leaves nothing to export. */
  method FailedFetchDisablesExport(page: ReportsPage, status: Option<int>)
    modifies page
    ensures !page.loading && !page.ExportEnabled()
  {
    var q := page.BeginFetch();
    page.EndFetch(Failed(status));
  }
}
