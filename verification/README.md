# fac-dss-fe in Dafny

A model of the React client of the faculty absence decision-support system
(fac-dss-fe). Students report absent instructors, faculty start and end class
sessions, the dean reviews reports, HR reads the analytics, and
administrators manage students, faculty and subjects.

The model covers these parts of the client:

- the route table and its role guard (`Routing`);
- the login redirect and the scan-link guard (`Routing`, `Login`);
- the authentication context and its storage (`Auth`);
- the three management pages (`StudentManagement`, `FacultyManagement`,
  `SubjectManagement`): the filters and dropdown options, the CSV row
  mapping, and the add/edit form and the request it sends;
- the HR analytics aggregation (`HRDashboard`);
- the faculty dashboard's day filter and class session (`FacultyDashboard`);
- the reports page's requests and PDF tables (`Reports`);
- the dean's dashboard (`AdminDashboard`);
- the change-password modal (`ChangePassword`).

The JavaScript semantics these pages rely on are modelled once, in `Js`,
`Lists` and `JsSort`:

- truthiness, `||` and template text of `undefined`;
- ASCII `toLowerCase`, `includes` and `trim`;
- `Array.prototype.filter` and `map`, and `[...new Set(xs)]`;
- the default `sort` on strings.

Each page whose state React updates is a `class`. Its fields are the page's
`useState` variables, and each handler is a method over those fields. An
`async` handler is split into the part before the `await` (the request it
sends) and the part after it (what a success or a failure does to the page). The network outcome is a parameter of type `Fetch<T>`: `Loaded(data)` or
`Failed(status)`.

Pure computations are functions, and lemmas state what they mean:

- Filters are subsequences whose membership is characterised exactly.
- Dropdown options are strictly sorted, with no duplicates, and are exactly
  the non-empty values present.
- A subject form round-trips through the payload and the backend's echo.
- The analytics counts equal the number of occurrences of each label, in
  first-occurrence order, and sum to the total.

Several things are parameters of the model:

- the network's outcome;
- the browser's `confirm` answer;
- the locale's date text;
- the `VITE_API_URL` build variable;
- the JSON encoding of the stored user.

## Model

| member | source | states |
|---|---|---|
| `Js.OrDefault` | src/pages/StudentManagement.jsx:83 | `x \|\| d`: a truthy (non-empty) string is kept, a missing or empty one gives the default |
| `Js.Lower` | src/pages/StudentManagement.jsx:60 | `toLowerCase` keeps the length and lower-cases exactly the ASCII capitals, position by position |
| `Js.Upper` | src/pages/Reports.jsx:66 | `toUpperCase` keeps the length and upper-cases exactly the ASCII small letters |
| `Js.IncludesAt` | src/pages/StudentManagement.jsx:60-62 | `includes` holds iff the needle occurs at some index of the text |
| `Js.IncludesEmpty` | src/pages/StudentManagement.jsx:60 | every string includes the empty search text |
| `Js.Trim` | src/pages/StudentManagement.jsx:77 | `trim` returns the slice of its input between its leading and its trailing run of ECMAScript white space: everything cut off is white space, the slice neither starts nor ends with it, it is empty iff the input is all white space, and an input with none at either end is kept |
| `Js.TrimIdempotent` | src/pages/StudentManagement.jsx:77 | trimming twice equals trimming once |
| `Js.NormalizeHeader` | src/pages/StudentManagement.jsx:77 | the CSV header key is the trimmed, lower-cased header with every non-alphanumeric character removed: only ASCII small letters and digits remain, and the result equals the lower-cased header filtered the same way without trimming |
| `Js.TrimIsRedundant` | src/pages/StudentManagement.jsx:77 | the `trim()` in the header transform never changes its result: lower-casing and filtering the untrimmed header gives the same key |
| `Js.NormalizeHeaderIdempotent` | src/pages/FacultyManagement.jsx:66 | a normalised header normalises to itself |
| `Js.NatToString` | src/pages/AdminDashboard.jsx:153 | the decimal text of a count is a non-empty digit string |
| `Js.DecimalRoundTrip` | src/pages/AdminDashboard.jsx:153 | reading back the decimal text of `n` gives `n` |
| `Lists.Filter` | src/pages/StudentManagement.jsx:58 | `filter` returns a subsequence holding exactly the elements that pass, with their multiplicities, and returns the whole list when every element passes |
| `Lists.Map` | src/pages/StudentManagement.jsx:79 | `map` keeps the length and applies the function position by position |
| `Lists.MapMember` | src/pages/StudentManagement.jsx:46 | a value is in the mapped list iff some element maps to it |
| `Lists.Dedup` | src/pages/StudentManagement.jsx:46 | `[...new Set(xs)]` is a duplicate-free subsequence with the same members, in first-occurrence order |
| `Lists.DedupAppend` | src/pages/HRDashboard.jsx:33-38 | adding an element extends the deduplicated list by that element exactly when it was not seen before |
| `JsSort.StrLeTotal` | src/pages/StudentManagement.jsx:46 | the code-unit order of the default `sort` compares any two strings |
| `JsSort.StrLeAntisymmetric` | src/pages/StudentManagement.jsx:46 | two strings each at most the other are equal |
| `JsSort.StrLeTransitive` | src/pages/StudentManagement.jsx:46 | the default order is transitive |
| `JsSort.SortCorrect` | src/pages/StudentManagement.jsx:46 | `sort` returns an ordered permutation of its input |
| `JsSort.SortDistinct` | src/pages/StudentManagement.jsx:46 | sorting a duplicate-free list gives a strictly ascending one |
| `JsSort.TruthyValuesMembers` | src/pages/StudentManagement.jsx:46 | `.filter(Boolean)` keeps exactly the present, non-empty values |
| `JsSort.UniqueSortedOptions` | src/pages/StudentManagement.jsx:46 | `[...new Set(vs.filter(Boolean))].sort()` is strictly ascending, duplicate-free, and holds exactly the non-empty values present |
| `Records.EmptySearchMatches` | src/pages/StudentManagement.jsx:59-62 | an empty search text matches every record |
| `Routing.ProtectedRoute` | src/App.jsx:22-27 | with no user, the visitor is sent to the login page; a user whose role is not allowed is sent to the login page; otherwise the page renders |
| `Routing.AsWrittenRefusalThrows` | src/App.jsx:24-25 | as written, every refusal by the guard throws instead of redirecting, and the permitted case agrees with the corrected guard |
| `Routing.AnonymousIsSentHome` | src/App.jsx:22-24 | every guarded path, visited signed out, redirects to "/" |
| `Routing.DashboardAdmission` | src/App.jsx:38-54 | the faculty and student dashboards admit exactly their own role |
| `Routing.StaffRouteAdmission` | src/App.jsx:56-78 | the admin dashboard and the management pages admit exactly the dean and HR |
| `Routing.AdminDashboardSplit` | src/App.jsx:59-61 | behind the guard, HR sees the HR dashboard and the dean sees the review dashboard |
| `Routing.OpenRoutes` | src/App.jsx:36-37 | the login page and the scan link need no sign-in; an unknown path matches nothing |
| `Routing.ScanGuard` | src/pages/ScannerGuard.jsx:10-35 | the scan link waits exactly while no user is signed in, and navigates once a user is |
| `Routing.ScanGuardTable` | src/pages/ScannerGuard.jsx:13-33 | a faculty code scanned by a non-faculty user is refused towards the student dashboard; a student code scanned by a non-student towards the faculty dashboard; faculty scanning a faculty code go to their dashboard; every other permitted scan goes to `/student/report-form` |
| `Routing.ScanTargetsOnTheRouteTable` | src/pages/ScannerGuard.jsx:27-33 | the faculty destination is a route that admits faculty; the student destination `/student/report-form` is not on the route table |
| `Login.LoginRedirect` | src/pages/Login.jsx:13-19 | there is a redirect exactly when a user is signed in: faculty and students to their own dashboards, every other role to "/admin-dashboard" |
| `Login.LoginLandsWhereAdmitted` | src/pages/Login.jsx:15-17 | for each known role, the redirect target is a route whose guard admits that role |
| `Login.LoginBouncesUnknownRoles` | src/pages/Login.jsx:15-17 | a user with an unknown role is sent to "/admin-dashboard", which refuses them and sends them back to the login page |
| `Login.HandleLogin` | src/pages/Login.jsx:21-30 | the credentials are posted unchanged; a response signs the user in, stores the account and yields the redirect for its role; a failure changes nothing |
| `Auth.InitialUser` | src/context/AuthContext.jsx:6 | with no stored entry there is no user; an entry that does not parse makes the first render throw, and only such an entry does; an entry that parses to a falsy value gives no user; a parsed account becomes the user, and a user only ever comes from a parsed entry |
| `Auth.OnlyUserKeyChanges` | src/context/AuthContext.jsx:8-15 | login and logout write only the 'user' key of the storage |
| `Auth.ReloadAfterLogin` | src/context/AuthContext.jsx:6-11 | after a login, a reload restores the same account |
| `Auth.ReloadAfterLogout` | src/context/AuthContext.jsx:6-15 | after a logout, a reload starts signed out |
| `Auth.AuthProvider.constructor` | src/context/AuthContext.jsx:6 | the provider starts with the user restored from storage |
| `Auth.AuthProvider.Login` | src/context/AuthContext.jsx:8-11 | the account is stored under 'user' and becomes the current user |
| `Auth.AuthProvider.Logout` | src/context/AuthContext.jsx:13-17 | the 'user' key is removed, no user remains, and the browser is sent to `/fac-dss-fe/` |
| `StudentManagement.UniqueCourses` | src/pages/StudentManagement.jsx:45-47 | the course options are strictly ascending and are exactly the non-empty courses of some student |
| `StudentManagement.UniqueSections` | src/pages/StudentManagement.jsx:49-55 | the section options are strictly ascending and are exactly the non-empty sections of students in the selected course (of all students when none is selected) |
| `StudentManagement.FilteredStudents` | src/pages/StudentManagement.jsx:58-68 | the listed students are a subsequence holding exactly those matching search, course and section; with every filter empty, all students are listed |
| `StudentManagement.ListedSectionsAreOffered` | src/pages/StudentManagement.jsx:49-68 | every non-empty section of a listed student is among the section options |
| `StudentManagement.SelectedFiltersHold` | src/pages/StudentManagement.jsx:64-65 | a listed student has the selected course and the selected section |
| `StudentManagement.StudentFromCsv` | src/pages/StudentManagement.jsx:79-86 | the id number is taken from `idnumber`, else `id`, else `studentno`; the middle name from `middlename`, else `mname`, else ""; the other fields are copied |
| `StudentManagement.StudentBulkUpload` | src/pages/StudentManagement.jsx:88-96 | the upload is refused iff no row has both a name and an e-mail; otherwise it asks for students to be created from, in order, exactly the mapped rows that do, each as many times as it occurs in the file |
| `StudentManagement.EditForm` | src/pages/StudentManagement.jsx:140-147 | editing fills the form from the student, with missing optional fields as "" |
| `StudentManagement.StudentPage.constructor` | src/pages/StudentManagement.jsx:10-23 | no students, empty filters, closed modal and a blank form |
| `StudentManagement.StudentPage.FetchStudents` | src/pages/StudentManagement.jsx:29-42 | a response replaces the list; a 401 or 403 logs out; any other failure changes nothing |
| `StudentManagement.StudentPage.SetSearch` | src/pages/StudentManagement.jsx:202 | only the search text changes |
| `StudentManagement.StudentPage.SelectCourse` | src/pages/StudentManagement.jsx:174-177 | choosing a course also clears the section, so the list is the course's students matching the search |
| `StudentManagement.StudentPage.SelectSection` | src/pages/StudentManagement.jsx:189 | only the section filter changes |
| `StudentManagement.StudentPage.TypeInto` | src/pages/StudentManagement.jsx:272-286 | typing into a modal input replaces the form; the list, filters, modal and edit target are kept |
| `StudentManagement.StudentPage.OpenAdd` | src/pages/StudentManagement.jsx:206 | the button only opens the modal: the form, the edit target and the list are kept |
| `StudentManagement.StudentPage.OpenEdit` | src/pages/StudentManagement.jsx:140-147 | the modal opens on the student, with the form filled from it |
| `StudentManagement.StudentPage.CloseModal` | src/pages/StudentManagement.jsx:149-153 | the modal closes, nothing is edited, and the form is blank |
| `StudentManagement.StudentPage.Submit` | src/pages/StudentManagement.jsx:108-127 | when editing, an update of that student carries the form; otherwise a one-element bulk creation with the role 'student' carries it |
| `StudentManagement.StudentPage.Settle` | src/pages/StudentManagement.jsx:122-127 | a successful save closes and blanks the modal and refetches the list; a failed one leaves the modal, the edit target and the form as they were |
| `FacultyManagement.UniqueDepartments` | src/pages/FacultyManagement.jsx:43-45 | the department options are strictly ascending and are exactly the non-empty departments of some member |
| `FacultyManagement.FilteredFaculty` | src/pages/FacultyManagement.jsx:48-57 | the listed members are a subsequence holding exactly those matching the search and department; with both empty, all are listed |
| `FacultyManagement.OfferedDepartmentsAreInhabited` | src/pages/FacultyManagement.jsx:43-57 | choosing any offered department with an empty search lists at least one member |
| `FacultyManagement.FacultyFromCsv` | src/pages/FacultyManagement.jsx:68-74 | the id number is taken from `idnumber`, else `id`, else `empid`; the department from `department`, else `dept`; the middle name from `middlename`, else `mname`, else "" |
| `FacultyManagement.FacultyBulkUpload` | src/pages/FacultyManagement.jsx:76-84 | the upload is refused iff no row has both a name and an e-mail; otherwise it asks for faculty accounts to be created from, in order, exactly the mapped rows that do, each as many times as it occurs in the file |
| `FacultyManagement.EditForm` | src/pages/FacultyManagement.jsx:127-134 | editing fills the form from the member, with missing optional fields as "" |
| `FacultyManagement.FacultyPage.constructor` | src/pages/FacultyManagement.jsx:10-21 | no members, empty filters, closed modal and a blank form |
| `FacultyManagement.FacultyPage.FetchFaculty` | src/pages/FacultyManagement.jsx:27-40 | a response replaces the list; a 401 or 403 logs out; any other failure changes nothing |
| `FacultyManagement.FacultyPage.SetSearch` | src/pages/FacultyManagement.jsx:176 | only the search text changes |
| `FacultyManagement.FacultyPage.SelectDepartment` | src/pages/FacultyManagement.jsx:161 | only the department filter changes |
| `FacultyManagement.FacultyPage.TypeInto` | src/pages/FacultyManagement.jsx:261-272 | typing into a modal input replaces the form; the list, filters, modal and edit target are kept |
| `FacultyManagement.FacultyPage.OpenAdd` | src/pages/FacultyManagement.jsx:180 | the button only opens the modal: the form, the edit target and the list are kept |
| `FacultyManagement.FacultyPage.OpenEdit` | src/pages/FacultyManagement.jsx:127-134 | the modal opens on the member, with the form filled from it |
| `FacultyManagement.FacultyPage.CloseModal` | src/pages/FacultyManagement.jsx:136-140 | the modal closes, nothing is edited, and the form is blank |
| `FacultyManagement.FacultyPage.Submit` | src/pages/FacultyManagement.jsx:95-114 | when editing, an update of that member carries the form; otherwise a one-element bulk creation with the role 'faculty' carries it |
| `FacultyManagement.FacultyPage.Settle` | src/pages/FacultyManagement.jsx:109-114 | a successful save closes and blanks the modal and refetches the list; a failed one leaves the modal, the edit target and the form as they were |
| `SubjectManagement.BlankForm` | src/pages/SubjectManagement.jsx:159-167 | a blank subject form is empty except for day 'Monday' and the given semester |
| `SubjectManagement.Payload` | src/pages/SubjectManagement.jsx:99-113 | the saved subject carries the form's fields, the schedule nested, and is active |
| `SubjectManagement.FacultyIdOf` | src/pages/SubjectManagement.jsx:143 | the form's instructor is the populated instructor's id, the bare id, or "" |
| `SubjectManagement.Flatten` | src/pages/SubjectManagement.jsx:136-154 | editing a subject fills the form from it: name, code, room and semester copied; the faculty id; day, start and end time from the schedule, with 'Monday', '' and '' for a missing schedule or a missing part of it; course and section, '' when missing |
| `SubjectManagement.FormRoundTrip` | src/pages/SubjectManagement.jsx:99-154 | saving a form with a day and editing the stored subject gives back the same form |
| `SubjectManagement.FormRoundTripPopulated` | src/pages/SubjectManagement.jsx:143 | the round trip also holds when the backend returns the instructor populated |
| `SubjectManagement.ResaveIsStable` | src/pages/SubjectManagement.jsx:136-154 | editing and saving a stored subject unchanged sends that subject's own payload again |
| `SubjectManagement.SubjectsOfSemester` | src/pages/SubjectManagement.jsx:46 | the page keeps exactly the fetched subjects of the selected semester, in order, each as often as it was fetched |
| `SubjectManagement.FilteredSubjects` | src/pages/SubjectManagement.jsx:169-172 | the listed subjects are exactly those whose name or code includes the lower-cased search |
| `SubjectManagement.SubjectBulkUpload` | src/pages/SubjectManagement.jsx:64-70 | the upload is refused iff no row has both a code and a name; otherwise it sends, in order, exactly the rows that do, each as many times as it occurs in the file |
| `SubjectManagement.SubjectPage.constructor` | src/pages/SubjectManagement.jsx:10-22 | first semester selected, closed form, the blank form for that semester |
| `SubjectManagement.SubjectPage.FetchSubjects` | src/pages/SubjectManagement.jsx:38-57 | a response is narrowed to the selected semester; a failure, 401 included, changes nothing |
| `SubjectManagement.SubjectPage.FetchFaculties` | src/pages/SubjectManagement.jsx:29-36 | a response replaces the instructor list; a failure changes nothing |
| `SubjectManagement.SubjectPage.SelectSemester` | src/pages/SubjectManagement.jsx:184 | only the semester filter changes |
| `SubjectManagement.SubjectPage.SetSearch` | src/pages/SubjectManagement.jsx:194 | only the search text changes |
| `SubjectManagement.SubjectPage.SelectDay` | src/pages/SubjectManagement.jsx:255-256 | the form's day becomes the chosen weekday; the rest of the form is kept |
| `SubjectManagement.SubjectPage.TypeInto` | src/pages/SubjectManagement.jsx:239-265 | typing into a text input or choosing an instructor replaces the form, whose day only the day dropdown changes; everything else is kept |
| `SubjectManagement.SubjectPage.OpenAdd` | src/pages/SubjectManagement.jsx:204 | the button only opens the form: its fields, the edit target and the list are kept |
| `SubjectManagement.SubjectPage.OpenEdit` | src/pages/SubjectManagement.jsx:136-157 | the form opens on the subject, filled from it |
| `SubjectManagement.SubjectPage.CloseModal` | src/pages/SubjectManagement.jsx:159-167 | the form closes, nothing is edited, and the form is blank for the selected semester |
| `SubjectManagement.SubjectPage.Submit` | src/pages/SubjectManagement.jsx:95-127 | when editing, an update of that subject, otherwise a creation; either way the body is exactly the nested payload of the current form, marked active, and that payload, echoed back, edits into the current form |
| `SubjectManagement.SubjectPage.Settle` | src/pages/SubjectManagement.jsx:123-130 | a successful save closes the form, blanks it for the current semester and refetches; a failed one leaves the form, the edit target and its visibility as they were |
| `HRDashboard.FacultyLabel` | src/pages/HRDashboard.jsx:34 | a report counts under its instructor's name, or "Unknown" |
| `HRDashboard.RemarkLabel` | src/pages/HRDashboard.jsx:43 | a report counts under its remarks, or "No Reason" |
| `HRDashboard.Tally` | src/pages/HRDashboard.jsx:33-37 | the reduce yields one key per distinct label in first-occurrence order, each counting that label's occurrences, and the counts sum to the number of labels |
| `HRDashboard.ToChart` | src/pages/HRDashboard.jsx:38 | one chart entry per key, in key order, carrying that key's count |
| `HRDashboard.ChartTotalIsSum` | src/pages/HRDashboard.jsx:38 | the chart's values sum to the sum of the counts |
| `HRDashboard.ChartOf` | src/pages/HRDashboard.jsx:33-38 | the chart names the distinct labels in first-occurrence order, each with its number of occurrences, and its values sum to the number of labels |
| `HRDashboard.Analytics` | src/pages/HRDashboard.jsx:30-47 | the total is the number of reports, and both charts partition it by instructor and by remark |
| `HRDashboard.SliceColour` | src/pages/HRDashboard.jsx:133 | every slice takes a palette colour |
| `HRDashboard.ColourCycle` | src/pages/HRDashboard.jsx:56 | the palette repeats every five slices, and adjacent slices differ |
| `HRDashboard.HRDashboardPage.constructor` | src/pages/HRDashboard.jsx:13-16 | empty charts, no reports, the first semester selected |
| `HRDashboard.HRDashboardPage.Query` | src/pages/HRDashboard.jsx:25-28 | the analytics request asks for the accepted reports of the selected semester |
| `HRDashboard.HRDashboardPage.FetchAnalytics` | src/pages/HRDashboard.jsx:22-52 | a response sets the total and two charts that each sum to it and name the distinct labels, each slice counting the reports with its label (at least one); a failure changes nothing |
| `HRDashboard.HRDashboardPage.SelectSemester` | src/pages/HRDashboard.jsx:83 | choosing a semester records it and leaves the figures as they were |
| `FacultyDashboard.SubjectsOnDay` | src/pages/FacultyDashboard.jsx:86-89 | 'All' shows every subject; another day shows, in order, exactly the subjects scheduled that day |
| `FacultyDashboard.OneDayButton` | src/pages/FacultyDashboard.jsx:86-89 | a subject appears under at most one weekday button |
| `FacultyDashboard.StartRequestFor` | src/pages/FacultyDashboard.jsx:50-53 | the time-in names the subject and its room, or "Room TBD" |
| `FacultyDashboard.FacultyDashboardPage.constructor` | src/pages/FacultyDashboard.jsx:11-17 | no subjects, no session, loading, day filter 'All' |
| `FacultyDashboard.FacultyDashboardPage.FetchDashboard` | src/pages/FacultyDashboard.jsx:30-41 | loading ends either way; a response replaces the subjects |
| `FacultyDashboard.FacultyDashboardPage.SelectDay` | src/pages/FacultyDashboard.jsx:138 | only the day filter changes |
| `FacultyDashboard.FacultyDashboardPage.StartClass` | src/pages/FacultyDashboard.jsx:43-66 | a time-in is sent iff no session is active and the start is confirmed; a response makes it the active session; otherwise the session is unchanged |
| `FacultyDashboard.FacultyDashboardPage.EndClass` | src/pages/FacultyDashboard.jsx:68-83 | a time-out of the active session is sent iff one is active and the end is confirmed; success clears it, failure keeps it |
| `Reports.FetchRequest` | src/pages/Reports.jsx:27-44 | absence reports ask for the semester's accepted reports in the range; the masterlists ask for users by role; any other type sends only the semester to an empty URL |
| `Reports.MasterlistsIgnoreSemester` | src/pages/Reports.jsx:38-44 | the masterlist requests do not depend on the semester |
| `Reports.PeriodLine` | src/pages/Reports.jsx:71-75 | a period line appears iff a start or end date is set, with '...' for the missing one |
| `Reports.AttendanceRow` | src/pages/Reports.jsx:80-87 | the formatted date; the instructor's name, or 'Unknown' when missing or empty; the subject code, or 'N/A' when missing or empty; the remarks |
| `Reports.FacultyRow` | src/pages/Reports.jsx:88-90 | name; the id number, or '-' when missing or empty; the department, or '-' when missing or empty; e-mail |
| `Reports.StudentRow` | src/pages/Reports.jsx:91-93 | name; the id number, or '-' when missing or empty; course and section joined by a space, '' for a missing part; e-mail |
| `Reports.PdfTable` | src/pages/Reports.jsx:77-94 | a known type gives its four columns and one four-cell row per item, in order; any other type gives an empty table |
| `Reports.Title` | src/pages/Reports.jsx:66 | the title is "SSU ", then exactly the upper-cased type, then " REPORT" |
| `Reports.ReportsPage.constructor` | src/pages/Reports.jsx:11-18 | absence reports of the first semester, no dates, no data, not loading |
| `Reports.ReportsPage.BeginFetch` | src/pages/Reports.jsx:28-44 | loading starts, the data is emptied (export disabled), and the request for the selection is sent |
| `Reports.ReportsPage.EndFetch` | src/pages/Reports.jsx:46-55 | a response becomes the data, a failure leaves it as it was; loading ends |
| `Reports.ReportsPage.Select` | src/pages/Reports.jsx:125-170 | the selection changes and the data is kept |
| `Reports.FailedFetchDisablesExport` | src/pages/Reports.jsx:179 | after a failed fetch, the export button is disabled |
| `AdminDashboard.AsWrittenUrlsAreRelative` | src/pages/AdminDashboard.jsx:30-46 | with the `apiUrl` the context provides, both request URLs start with "undefined" rather than the backend's address (see Findings) |
| `AdminDashboard.FetchQuery` | src/pages/AdminDashboard.jsx:27-33 | the report list asks the backend for the tab's status and the date range |
| `AdminDashboard.FetchQueryMatchesReportsPage` | src/pages/AdminDashboard.jsx:30-31 | it is the reports page's absence request without the semester; for the 'Accepted' tab it differs only by the semester |
| `AdminDashboard.ReviewRequest` | src/pages/AdminDashboard.jsx:44-49 | a review accepts the report with the chosen remark |
| `AdminDashboard.ReviewChoices` | src/pages/AdminDashboard.jsx:169-176 | the 'Pending' tab offers one accepting review per fixed remark, and other tabs none |
| `AdminDashboard.EveryReviewAccepts` | src/pages/AdminDashboard.jsx:169-176 | any review button exists only on 'Pending' and is the review with its remark |
| `AdminDashboard.Badge` | src/pages/AdminDashboard.jsx:152-155 | more than one reporter gives "<n> Students Reported", otherwise "Reported by: " and the name or "Student" |
| `AdminDashboard.BadgeForms` | src/pages/AdminDashboard.jsx:152-155 | a badge names a reporter iff at most one student reported; a count badge's leading digits read back as the count |
| `AdminDashboard.CardHeading` | src/pages/AdminDashboard.jsx:158-159 | the subject name, or 'Subject Not Found' when missing or empty; the instructor's name, or 'Unknown Instructor' when missing or empty; neither is ever empty |
| `AdminDashboard.TableRow` | src/pages/AdminDashboard.jsx:74-80 | five cells, each the field when present and non-empty and otherwise its fallback: instructor or "N/A", subject or "N/A", reporter or "Anonymous Student", the time, remarks or "Pending Review" |
| `AdminDashboard.TableRows` | src/pages/AdminDashboard.jsx:73-80 | one five-cell row per report, in order |
| `AdminDashboard.RangeLine` | src/pages/AdminDashboard.jsx:71 | "Range: ", the start date or 'All' when it is empty, " to ", the end date or 'All' when it is empty |
| `AdminDashboard.AdminDashboardPage.constructor` | src/pages/AdminDashboard.jsx:15-19 | no reports, the 'Pending' tab, loading, no dates |
| `AdminDashboard.AdminDashboardPage.BeginFetch` | src/pages/AdminDashboard.jsx:27-33 | loading starts over the previous list, and the request for the tab and range is sent |
| `AdminDashboard.AdminDashboardPage.EndFetch` | src/pages/AdminDashboard.jsx:34-41 | a response replaces the list, a failure keeps it; loading ends |
| `AdminDashboard.AdminDashboardPage.SettleReview` | src/pages/AdminDashboard.jsx:44-54 | a stored review refetches the list for the current tab and range, with loading shown over the kept list; a failure sends nothing and changes nothing |
| `AdminDashboard.AdminDashboardPage.SelectTab` | src/pages/AdminDashboard.jsx:123-124 | only the tab changes |
| `AdminDashboard.AdminDashboardPage.SetRange` | src/pages/AdminDashboard.jsx:133-135 | only the dates change |
| `ChangePassword.PasswordUrl` | src/components/ChangePasswordModal.jsx:19-22 | the update goes to `VITE_API_URL`, or to the local development server when that is unset or empty |
| `ChangePassword.PasswordModal.constructor` | src/components/ChangePasswordModal.jsx:8-9 | empty fields, not loading |
| `ChangePassword.PasswordModal.Edit` | src/components/ChangePasswordModal.jsx:48-58 | typing changes only the three fields |
| `ChangePassword.PasswordModal.Submit` | src/components/ChangePasswordModal.jsx:11-57 | with the three `required` inputs filled in, a new password that differs from its confirmation is refused with nothing sent or changed; otherwise loading starts and the old and new passwords are sent |
| `ChangePassword.PasswordModal.Settle` | src/components/ChangePasswordModal.jsx:26-33 | loading ends either way, and the modal closes only after a successful update |

## Left out

- Drawing is not modelled: the JSX markup and styling, the recharts charts (only their data is) and jsPDF's drawing, fonts and file names (only the table handed to it is).
- Axios and the backend are not modelled. Every request's outcome is a parameter, and the `Authorization` header with the user's token is not modelled.
- JSON and `localStorage` are not modelled as such. The stored user goes through an abstract encoder and decoder, and the storage is a map. The decoder is assumed to invert the encoder only where a reload after login is concerned (`Auth.ReloadAfterLogin`); elsewhere stored text may be malformed.
- `alert` is not modelled, and `confirm` is a boolean parameter.
- PapaParse's CSV tokenising, quoting and duplicate headers are not modelled. A parsed row is a map from normalised header to cell text.
- React's scheduling is not modelled: effect timing, re-renders, `useMemo` caching, and races between overlapping requests (a second start click before the first response, a fetch outliving a tab change). Each `async` handler is modelled as its part before the `await` and its part after it, run one after the other.
- The delete handlers (`handleDelete`) and the alert-and-refetch after a bulk upload are not modelled. Only the request each upload sends is: its `users` array with its `role`, or its `subjects` array.
- The management landing page, the student dashboard, the faculty attendance form, the header component and the build configuration are not part of this model.
- `VITE_API_URL` is a parameter, and the locale's date and time text is a function parameter.
- Case mapping is ASCII only. Unicode case folding and ECMAScript white space outside the listed code points are not modelled.
- `JsSort.Sort`: strings are compared by Dafny characters, which agree with JavaScript's UTF-16 code-unit order only inside the Basic Multilingual Plane.
- `Routing.Route`: paths match exactly and case-sensitively. React Router's case-insensitive matching, trailing slashes and percent-decoding are not modelled.
- `HRDashboard.Tally`: the keys of the JavaScript counting object are assumed to come back in insertion order. Integer-like names, which `Object.keys` lists first, are not modelled. Names that collide with `Object.prototype` members (such as "constructor") are not modelled either.
- `SubjectManagement.FacultyIdOf`: a populated instructor whose `_id` is empty gives "" here. The page would put the whole object in the form, but the backend never sends an empty id.
- The instructor list that the subject page fetches only feeds a dropdown. It is kept as a field but is not related to the subjects.
- `SubjectManagement.SubjectPage.FetchSubjects`: a 401 or 403 does not log out, unlike the other management pages, because the page does not do so.

## Findings

| source | as written | input that shows it | evidently intended | confidence | as-written member | corrected member |
|---|---|---|---|---|---|---|
| src/App.jsx:24-25 | The guard renders `<Navigate to="/" />`. The import that would bring `Navigate` into scope is commented out at line 2, and line 5 imports only `HashRouter`, `Routes` and `Route`. | Opening "/reports" signed out, or "/faculty-dashboard" as a student: rendering the guard throws a `ReferenceError` instead of redirecting. | Redirect to the login page "/" | high; not executed | `Routing.AsWrittenRefusalThrows` | `Routing.ProtectedRoute` |
| src/pages/AdminDashboard.jsx:13 | The page reads `apiUrl` from the authentication context and builds its URLs from it at lines 30 and 46. The context value (src/context/AuthContext.jsx:20) holds only `user`, `login` and `logout`. | Loading the 'Pending' tab requests "undefined/admin/reports". Reviewing report `r1` posts to "undefined/admin/review-report/r1". Both resolve relative to the page, not the backend. | `https://fac-dss-be.onrender.com/api/admin/reports` and `.../admin/review-report/<id>`, the base every other page uses | high; not executed | `AdminDashboard.AsWrittenUrlsAreRelative` | `AdminDashboard.FetchQuery` |
