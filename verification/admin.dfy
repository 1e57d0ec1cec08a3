/** The dean's dashboard: the report list for a status and date range, the
    review decision, the student-count badge, and the exported summary. */
module AdminDashboard {
  import opened Lists
  import opened Js
  import opened Records
  import Reports

  /** The four fixed decision remarks. */
  const RemarkOptions: seq<string> := ["On Official Travel", "On-Leave", "Verbal Request", "No Reason"]

  /** The status tabs. */
  const StatusTabs: seq<string> := ["Pending", "Unconfirmed", "Accepted"]

  /** The `apiUrl` the page reads from the authentication context. The
      context's value holds only `user`, `login` and `logout`, so this is
      always `undefined`. */
  const ContextApiUrl: Str := None

  // ---------------------------------------------------------------------------
  // Requests

  /** The report list request as written: `${apiUrl}/admin/reports` with the
      status tab and the date range as parameters. */
  function FetchQueryAsWritten(apiUrl: Str, filter: string, startDate: string, endDate: string): Request {
    Request(TemplateText(apiUrl) + "/admin/reports",
      map["status" := filter, "startDate" := startDate, "endDate" := endDate])
  }

  /** The review request as written: `${apiUrl}/admin/review-report/<id>`. */
  function ReviewUrlAsWritten(apiUrl: Str, reportId: string): string {
    TemplateText(apiUrl) + "/admin/review-report/" + reportId
  }

  /** With the context as it is, both URLs begin with the text "undefined"
      instead of the backend's address, so they are resolved relative to the
      page and never reach the backend. */
  lemma AsWrittenUrlsAreRelative(filter: string, startDate: string, endDate: string, reportId: string)
    ensures FetchQueryAsWritten(ContextApiUrl, filter, startDate, endDate).url == "undefined/admin/reports"
    ensures ReviewUrlAsWritten(ContextApiUrl, reportId) == "undefined/admin/review-report/" + reportId
    ensures !StartsWith(FetchQueryAsWritten(ContextApiUrl, filter, startDate, endDate).url, ApiBase)
    ensures !StartsWith(ReviewUrlAsWritten(ContextApiUrl, reportId), ApiBase)
  {
    assert FetchQueryAsWritten(ContextApiUrl, filter, startDate, endDate).url[0] != ApiBase[0];
    assert ReviewUrlAsWritten(ContextApiUrl, reportId)[0] != ApiBase[0];
  }

  /** The report list request against the backend every other page uses. */
  function FetchQuery(filter: string, startDate: string, endDate: string): (q: Request)
    ensures q.url == ApiBase + "/admin/reports"
    ensures q.params.Keys == {"status", "startDate", "endDate"}
    ensures q.params["status"] == filter && q.params["startDate"] == startDate && q.params["endDate"] == endDate
  {
    FetchQueryAsWritten(Some(ApiBase), filter, startDate, endDate)
  }

  /** The corrected request reaches the same endpoint as the reports page's
      absence report, and differs from it only in leaving out the semester
      and taking the status from the tab. */
  lemma FetchQueryMatchesReportsPage(filter: string, semester: string, startDate: string, endDate: string)
    ensures FetchQuery(filter, startDate, endDate).url == Reports.FetchRequest(Reports.Attendance, semester, startDate, endDate).url
    ensures filter == "Accepted" ==>
      Reports.FetchRequest(Reports.Attendance, semester, startDate, endDate).params ==
      FetchQuery(filter, startDate, endDate).params["semester" := semester]
  {
  }

  /** The body and URL of a review. */
  datatype Review = Review(url: string, status: string, remarks: string)

  /** `handleReview`: the report is accepted with the chosen remark. */
  function ReviewRequest(reportId: string, remark: string): (r: Review)
    ensures r.url == ApiBase + "/admin/review-report/" + reportId
    ensures r.status == "Accepted" && r.remarks == remark
  {
    Review(ReviewUrlAsWritten(Some(ApiBase), reportId), "Accepted", remark)
  }

  /** The review buttons of one report card: one per fixed remark on the
      'Pending' tab, none on the other tabs. */
  function ReviewChoices(filter: string, reportId: string): (choices: seq<Review>)
    ensures filter != "Pending" ==> choices == []
    ensures filter == "Pending" ==> |choices| == |RemarkOptions|
    ensures forall c :: c in choices ==> c.status == "Accepted" && c.remarks in RemarkOptions
    ensures forall c :: c in choices ==> c.url == ApiBase + "/admin/review-report/" + reportId
    ensures filter == "Pending" ==> forall m :: m in RemarkOptions ==> ReviewRequest(reportId, m) in choices
  {
    if filter == "Pending" then Map(RemarkOptions, (m: string) => ReviewRequest(reportId, m)) else []
  }

  /** Whatever button is pressed, a review accepts the report. */
  lemma EveryReviewAccepts(filter: string, reportId: string, i: int)
    requires 0 <= i < |ReviewChoices(filter, reportId)|
    ensures filter == "Pending"
    ensures ReviewChoices(filter, reportId)[i] == ReviewRequest(reportId, RemarkOptions[i])
  {
  }

  // ---------------------------------------------------------------------------
  // Cards and export

  /** The card badge: "<n> Students Reported" when more than one student
      reported the absence, otherwise "Reported by: " and the reporter's name
      or "Student". */
  function Badge(report: Report): (b: string)
    ensures report.studentCount.Some? && report.studentCount.value > 1 ==>
      b == NatToString(report.studentCount.value) + " Students Reported"
    ensures !(report.studentCount.Some? && report.studentCount.value > 1) ==>
      b == "Reported by: " + OrDefault(if report.student.Some? then report.student.value.name else None, "Student")
  {
    if report.studentCount.Some? && report.studentCount.value > 1 then
      NatToString(report.studentCount.value) + " Students Reported"
    else
      "Reported by: " + OrDefault(if report.student.Some? then report.student.value.name else None, "Student")
  }

  /** The two badge forms cannot be confused: a badge names a reporter exactly
      when at most one student reported, and a count badge's leading digits
      read back as the count. */
  lemma BadgeForms(report: Report)
    ensures StartsWith(Badge(report), "Reported by: ") <==>
      !(report.studentCount.Some? && report.studentCount.value > 1)
    ensures report.studentCount.Some? && report.studentCount.value > 1 ==>
      var digits := NatToString(report.studentCount.value);
      Badge(report)[..|digits|] == digits && DecimalValue(digits) == report.studentCount.value
  {
    var b := Badge(report);
    if report.studentCount.Some? && report.studentCount.value > 1 {
      var digits := NatToString(report.studentCount.value);
      assert b[0] == digits[0];
      assert IsDigit(b[0]);
      assert b[..|digits|] == digits;
      DecimalRoundTrip(report.studentCount.value);
    } else {
      assert b[..|"Reported by: "|] == "Reported by: ";
    }
  }

  /** The card heading: the subject name or 'Subject Not Found', and the
      instructor or 'Unknown Instructor'. */
  function CardHeading(report: Report): (h: (string, string))
    ensures h.0 != "" && h.1 != ""
    ensures report.subject.Some? && Truthy(report.subject.value.subjectName) ==> h.0 == report.subject.value.subjectName.value
    ensures report.faculty.Some? && Truthy(report.faculty.value.name) ==> h.1 == report.faculty.value.name.value
    ensures report.subject.None? || !Truthy(report.subject.value.subjectName) ==> h.0 == "Subject Not Found"
    ensures report.faculty.None? || !Truthy(report.faculty.value.name) ==> h.1 == "Unknown Instructor"
  {
    (OrDefault(if report.subject.Some? then report.subject.value.subjectName else None, "Subject Not Found"),
     OrDefault(if report.faculty.Some? then report.faculty.value.name else None, "Unknown Instructor"))
  }

  const TableColumns: seq<string> := ["Instructor", "Subject", "Reported By", "Date/Time", "Final Remark"]

  /** One row of the exported summary: instructor and subject (or "N/A"),
      reporter (or "Anonymous Student"), the time (locale dependent, supplied
      by the caller) and the remarks (or "Pending Review"). */
  function TableRow(report: Report, timeText: string -> string): (row: seq<string>)
    ensures |row| == |TableColumns|
    ensures forall i :: 0 <= i < |row| && i != 3 ==> row[i] != ""
    ensures report.faculty.Some? && Truthy(report.faculty.value.name) ==> row[0] == report.faculty.value.name.value
    ensures report.faculty.None? || !Truthy(report.faculty.value.name) ==> row[0] == "N/A"
    ensures report.subject.Some? && Truthy(report.subject.value.subjectName) ==> row[1] == report.subject.value.subjectName.value
    ensures report.subject.None? || !Truthy(report.subject.value.subjectName) ==> row[1] == "N/A"
    ensures report.student.Some? && Truthy(report.student.value.name) ==> row[2] == report.student.value.name.value
    ensures report.student.None? || !Truthy(report.student.value.name) ==> row[2] == "Anonymous Student"
    ensures row[3] == timeText(report.createdAt)
    ensures Truthy(report.remarks) ==> row[4] == report.remarks.value
    ensures !Truthy(report.remarks) ==> row[4] == "Pending Review"
  {
    [OrDefault(if report.faculty.Some? then report.faculty.value.name else None, "N/A"),
     OrDefault(if report.subject.Some? then report.subject.value.subjectName else None, "N/A"),
     OrDefault(if report.student.Some? then report.student.value.name else None, "Anonymous Student"),
     timeText(report.createdAt),
     OrDefault(report.remarks, "Pending Review")]
  }

  /** `tableRows`: one five-cell row per report, in list order. */
  function TableRows(reports: seq<Report>, timeText: string -> string): (rows: seq<seq<string>>)
    ensures |rows| == |reports|
    ensures forall i :: 0 <= i < |reports| ==> rows[i] == TableRow(reports[i], timeText) && |rows[i]| == 5
  {
    Map(reports, (r: Report) => TableRow(r, timeText))
  }

  /** The range line: a missing start or end date reads 'All'. */
  function RangeLine(startDate: string, endDate: string): (line: string)
    ensures line == "Range: " + (if startDate == "" then "All" else startDate) + " to " + (if endDate == "" then "All" else endDate)
    ensures startDate == "" && endDate == "" ==> line == "Range: All to All"
  {
    "Range: " + OrDefault(Some(startDate), "All") + " to " + OrDefault(Some(endDate), "All")
  }

  // ---------------------------------------------------------------------------
  // Page state

  class AdminDashboardPage {
    var reports: seq<Report>
    var filter: string
    var loading: bool
    var startDate: string
    var endDate: string

    constructor ()
      ensures reports == [] && filter == "Pending" && loading && startDate == "" && endDate == ""
    {
      reports := [];
      filter := "Pending";
      loading := true;
      startDate := "";
      endDate := "";
    }

    /** The start of `fetchReports`: loading is shown over the previous list,
        which is kept, and the request for the current tab and range is sent. */
    method BeginFetch() returns (q: Request)
      modifies this
      ensures loading && reports == old(reports)
      ensures q == FetchQuery(filter, startDate, endDate)
      ensures filter == old(filter) && startDate == old(startDate) && endDate == old(endDate)
    {
      loading := true;
      q := FetchQuery(filter, startDate, endDate);
    }

    /** The end of `fetchReports`: a response replaces the list, a failure keeps
        the previous one; loading ends either way. */
    method EndFetch(outcome: Fetch<seq<Report>>)
      modifies this
      ensures !loading
      ensures outcome.Loaded? ==> reports == outcome.data
      ensures outcome.Failed? ==> reports == old(reports)
      ensures filter == old(filter) && startDate == old(startDate) && endDate == old(endDate)
    {
      if outcome.Loaded? {
        reports := outcome.data;
      }
      loading := false;
    }

    /** The end of `handleReview`: once the review is stored the list is
        fetched again, starting as `BeginFetch` does; after a failure only an
        alert is shown and nothing changes. */
    method SettleReview(ok: bool) returns (q: Option<Request>)
      modifies this
      ensures ok ==> loading && q == Some(FetchQuery(filter, startDate, endDate))
      ensures !ok ==> q == None && loading == old(loading)
      ensures reports == old(reports)
      ensures filter == old(filter) && startDate == old(startDate) && endDate == old(endDate)
    {
      if ok {
        var request := BeginFetch();
        q := Some(request);
      } else {
        q := None;
      }
    }

    method SelectTab(status: string)
      modifies this
      ensures filter == status
      ensures reports == old(reports) && loading == old(loading)
      ensures startDate == old(startDate) && endDate == old(endDate)
    {
      filter := status;
    }

    method SetRange(start: string, end: string)
      modifies this
      ensures startDate == start && endDate == end
      ensures reports == old(reports) && loading == old(loading) && filter == old(filter)
    {
      startDate := start;
      endDate := end;
    }

    /** The exported summary: columns and one row per listed report. */
    function Export(timeText: string -> string): (seq<string>, seq<seq<string>>)
      reads this
    {
      (TableColumns, TableRows(reports, timeText))
    }
  }
}
