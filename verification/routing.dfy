/** Client-side routing: the route table and `ProtectedRoute` of the app
    shell, and the QR-code scan guard. */
module Routing {
  import opened Js
  import opened Records

  const FacultyRole := "faculty"
  const StudentRole := "student"
  const DeanRole := "dean"
  const HrRole := "hr"

  /** The roles the login page knows a landing page for. */
  const KnownRoles: seq<string> := [FacultyRole, StudentRole, DeanRole, HrRole]

  /** The roles admitted to the dean/HR pages. */
  const StaffRoles: seq<string> := [DeanRole, HrRole]

  /** The six routes guarded by `allowedRoles={['dean', 'hr']}`. */
  const StaffPaths: seq<string> :=
    ["/admin-dashboard", "/management", "/manage-faculty", "/manage-subjects", "/reports", "/manage-students"]

  const ReportFormPath := "/student/report-form"

  datatype View =
    | LoginPage
    | ScanGuardPage(scanType: string)
    | FacultyDashboard
    | StudentDashboard
    | AdminDashboard
    | HRDashboard
    | ManagementDashboard
    | FacultyManagement
    | SubjectManagement
    | Reports
    | StudentManagement

  /** What the router puts on screen for a location. `RenderError` is a render
      that throws; `NoMatch` is a location no route matches (nothing renders). */
  datatype Screen = Show(view: View) | Redirect(to: string) | RenderError | NoMatch

  /** `ProtectedRoute`: no user, or a user whose role is not allowed, is sent to
      "/"; otherwise the children render unchanged. */
  function ProtectedRoute(user: Option<Account>, allowedRoles: seq<string>, children: View): (s: Screen)
    ensures s.Show? <==> user.Some? && user.value.role in allowedRoles
    ensures s.Show? ==> s.view == children
    ensures !s.Show? ==> s == Redirect("/")
  {
    if user.None? then Redirect("/")
    else if user.value.role !in allowedRoles then Redirect("/")
    else Show(children)
  }

  /** `ProtectedRoute` as the file has it: `<Navigate>` is rendered in both
      redirect branches, but `Navigate` is not among the names imported from
      react-router-dom, so evaluating it throws a ReferenceError. */
  function ProtectedRouteAsWritten(user: Option<Account>, allowedRoles: seq<string>, children: View): Screen {
    if user.None? then RenderError
    else if user.value.role !in allowedRoles then RenderError
    else Show(children)
  }

  /** As written, every refused visit to a guarded page crashes the render
      instead of redirecting; admitted visits are unaffected. */
  lemma AsWrittenRefusalThrows(user: Option<Account>, allowedRoles: seq<string>, children: View)
    ensures ProtectedRoute(user, allowedRoles, children).Redirect? ==>
      ProtectedRouteAsWritten(user, allowedRoles, children) == RenderError
    ensures ProtectedRoute(user, allowedRoles, children).Show? ==>
      ProtectedRouteAsWritten(user, allowedRoles, children) == ProtectedRoute(user, allowedRoles, children)
    ensures ProtectedRouteAsWritten(None, allowedRoles, children) == RenderError
  {
  }

  /** The `:type` segment of a `/scan/:type` location. */
  function ScanParam(path: string): Option<string> {
    var prefix := "/scan/";
    if StartsWith(path, prefix) && |path| > |prefix| && '/' !in path[|prefix|..]
    then Some(path[|prefix|..])
    else None
  }

  /** The admin dashboard's child: `user?.role === 'hr' ? <HRDashboard/> : <AdminDashboard/>`. */
  function AdminChild(user: Option<Account>): View {
    if user.Some? && user.value.role == HrRole then HRDashboard else AdminDashboard
  }

  /** The route table: the screen for a location, given the session user.
      The static paths and the `/scan/:type` pattern never match the same
      location, so the order of the tests is immaterial. */
  function Route(path: string, user: Option<Account>): Screen {
    if path == "/" then Show(LoginPage)
    else if path == "/faculty-dashboard" then ProtectedRoute(user, [FacultyRole], FacultyDashboard)
    else if path == "/student-dashboard" then ProtectedRoute(user, [StudentRole], StudentDashboard)
    else if path == "/admin-dashboard" then ProtectedRoute(user, StaffRoles, AdminChild(user))
    else if path == "/management" then ProtectedRoute(user, StaffRoles, ManagementDashboard)
    else if path == "/manage-faculty" then ProtectedRoute(user, StaffRoles, FacultyManagement)
    else if path == "/manage-subjects" then ProtectedRoute(user, StaffRoles, SubjectManagement)
    else if path == "/reports" then ProtectedRoute(user, StaffRoles, Reports)
    else if path == "/manage-students" then ProtectedRoute(user, StaffRoles, StudentManagement)
    else if ScanParam(path).Some? then Show(ScanGuardPage(ScanParam(path).value))
    else NoMatch
  }

  predicate IsGuarded(path: string) {
    path == "/faculty-dashboard" || path == "/student-dashboard" || path in StaffPaths
  }

  /** Without a session every guarded page redirects to "/" and never renders. */
  lemma AnonymousIsSentHome(path: string)
    requires IsGuarded(path)
    ensures Route(path, None) == Redirect("/")
  {
  }

  /** The faculty dashboard admits exactly the role 'faculty', the student
      dashboard exactly 'student'; everyone else is redirected to "/". */
  lemma DashboardAdmission(u: Account)
    ensures Route("/faculty-dashboard", Some(u)) ==
      if u.role == FacultyRole then Show(FacultyDashboard) else Redirect("/")
    ensures Route("/student-dashboard", Some(u)) ==
      if u.role == StudentRole then Show(StudentDashboard) else Redirect("/")
  {
  }

  /** Each dean/HR page admits exactly the roles 'dean' and 'hr'. */
  lemma StaffRouteAdmission(path: string, u: Account)
    requires path in StaffPaths
    ensures Route(path, Some(u)).Show? <==> u.role == DeanRole || u.role == HrRole
    ensures !Route(path, Some(u)).Show? ==> Route(path, Some(u)) == Redirect("/")
  {
  }

  /** On "/admin-dashboard" HR staff get the analytics dashboard and deans the
      report review dashboard. */
  lemma AdminDashboardSplit(u: Account)
    ensures u.role == HrRole ==> Route("/admin-dashboard", Some(u)) == Show(HRDashboard)
    ensures u.role == DeanRole ==> Route("/admin-dashboard", Some(u)) == Show(AdminDashboard)
  {
  }

  /** "/" and "/scan/:type" carry no role guard. */
  lemma OpenRoutes(user: Option<Account>, scanType: string)
    requires scanType != "" && '/' !in scanType
    ensures Route("/", user) == Show(LoginPage)
    ensures Route("/scan/" + scanType, user) == Show(ScanGuardPage(scanType))
  {
    var path := "/scan/" + scanType;
    assert path[|"/scan/"|..] == scanType;
    assert StartsWith(path, "/scan/");
    assert path[2] == 'c';
  }

  // ---------------------------------------------------------------------------
  // The QR-code scan guard

  /** The scan guard's choice: wait for the session, refuse the code and send
      the user elsewhere, or proceed. */
  datatype ScanStep = Wait | Deny(to: string) | Proceed(to: string)

  function ScanGuard(scanType: string, user: Option<Account>): (step: ScanStep)
    ensures step.Wait? <==> user.None?
  {
    if user.None? then Wait
    else if scanType == "faculty" && user.value.role != FacultyRole then Deny("/student-dashboard")
    else if scanType == "student" && user.value.role != StudentRole then Deny("/faculty-dashboard")
    else if scanType == "faculty" then Proceed("/faculty-dashboard")
    else Proceed(ReportFormPath)
  }

  /** The complete decision table of the scan guard for a signed-in user. */
  lemma ScanGuardTable(scanType: string, u: Account)
    ensures scanType == "faculty" && u.role != FacultyRole ==>
      ScanGuard(scanType, Some(u)) == Deny("/student-dashboard")
    ensures scanType == "student" && u.role != StudentRole ==>
      ScanGuard(scanType, Some(u)) == Deny("/faculty-dashboard")
    ensures scanType == "faculty" && u.role == FacultyRole ==>
      ScanGuard(scanType, Some(u)) == Proceed("/faculty-dashboard")
    ensures scanType != "faculty" && (scanType == "student" ==> u.role == StudentRole) ==>
      ScanGuard(scanType, Some(u)) == Proceed(ReportFormPath)
  {
  }

  /** A faculty member scanning a faculty code reaches the faculty dashboard;
      the report form every other permitted scan goes to is not a route of the
      app, so nothing renders there. */
  lemma ScanTargetsOnTheRouteTable(scanType: string, u: Account, user: Option<Account>)
    ensures scanType == "faculty" && u.role == FacultyRole ==>
      Route(ScanGuard(scanType, Some(u)).to, Some(u)) == Show(FacultyDashboard)
    ensures Route(ReportFormPath, user) == NoMatch
  {
    assert ReportFormPath[2] != "/scan/"[2];
  }
}
