/** The faculty dashboard: the member's subjects filtered by day, and the one
    active class session that starting and ending a class set and clear. */
module FacultyDashboard {
  import opened Lists
  import opened Js
  import opened Records

  const AllDays := "All"

  /** The day buttons. */
  const DayButtons: seq<string> := ["All", "Monday", "Tuesday", "Wednesday", "Thursday", "Friday", "Saturday", "Sunday"]

  /** A subject is shown under `dayFilter` when the filter is 'All' or its
      schedule names that day; a subject without a schedule matches no day. */
  predicate OnDay(sub: Subject, dayFilter: string) {
    dayFilter == AllDays || (sub.schedule.Some? && sub.schedule.value.day == Some(dayFilter))
  }

  /** `filteredSubjects`: 'All' keeps every subject; any other day keeps
      exactly the subjects scheduled on it, in order. */
  function SubjectsOnDay(subjects: seq<Subject>, dayFilter: string): (r: seq<Subject>)
    ensures dayFilter == AllDays ==> r == subjects
    ensures IsSubsequence(r, subjects)
    ensures dayFilter != AllDays ==>
      forall s :: s in r <==> s in subjects && s.schedule.Some? && s.schedule.value.day == Some(dayFilter)
  {
    Filter(subjects, (s: Subject) => OnDay(s, dayFilter))
  }

  /** Each subject appears under at most one weekday button besides 'All'
      (under none when its day is not one of the buttons). */
  lemma OneDayButton(subjects: seq<Subject>, sub: Subject, d1: string, d2: string)
    requires sub in subjects && d1 != AllDays && d2 != AllDays
    requires sub in SubjectsOnDay(subjects, d1) && sub in SubjectsOnDay(subjects, d2)
    ensures d1 == d2
  {
  }

  /** The time-in request: the subject's id and its room, or "Room TBD". */
  datatype StartRequest = StartRequest(subjectId: string, location: string)

  /** The time-in response body. The page keeps all of it, but reads only
      its `_id` (and the subject it adds), so only the id is modelled. */
  datatype TimeIn = TimeIn(id: string)

  /** The active session: the time-in response plus the subject started. */
  datatype Session = Session(id: string, subject: Subject)

  function StartRequestFor(subject: Subject): (r: StartRequest)
    ensures r.subjectId == subject.id
    ensures subject.room != "" ==> r.location == subject.room
    ensures subject.room == "" ==> r.location == "Room TBD"
  {
    StartRequest(subject.id, OrDefault(Some(subject.room), "Room TBD"))
  }

  class FacultyDashboardPage {
    var subjects: seq<Subject>
    var activeSession: Option<Session>
    var loading: bool
    var dayFilter: string

    constructor ()
      ensures subjects == [] && activeSession == None && loading && dayFilter == AllDays
    {
      subjects := [];
      activeSession := None;
      loading := true;
      dayFilter := AllDays;
    }

    /** The subject cards shown. */
    function Shown(): seq<Subject>
      reads this
    {
      SubjectsOnDay(subjects, dayFilter)
    }

    /** `fetchDashboardData` once settled: loading ends on either outcome. */
    method FetchDashboard(outcome: Fetch<seq<Subject>>)
      modifies this
      ensures !loading
      ensures outcome.Loaded? ==> subjects == outcome.data
      ensures outcome.Failed? ==> subjects == old(subjects)
      ensures activeSession == old(activeSession) && dayFilter == old(dayFilter)
    {
      if outcome.Loaded? {
        subjects := outcome.data;
      }
      loading := false;
    }

    method SelectDay(day: string)
      modifies this
      ensures dayFilter == day
      ensures subjects == old(subjects) && activeSession == old(activeSession) && loading == old(loading)
    {
      dayFilter := day;
    }

    /** `handleStartClass`: with a session already active, or the confirmation
        declined, nothing is sent and nothing changes; otherwise the time-in
        request is sent, and a response (`None` when it failed) becomes the
        active session together with the subject. */
    method StartClass(subject: Subject, confirmed: bool, response: Option<TimeIn>) returns (request: Option<StartRequest>)
      modifies this
      ensures request.Some? <==> old(activeSession).None? && confirmed
      ensures request.Some? ==> request.value == StartRequestFor(subject)
      ensures request.Some? && response.Some? ==> activeSession == Some(Session(response.value.id, subject))
      ensures request.None? || response.None? ==> activeSession == old(activeSession)
      ensures subjects == old(subjects) && loading == old(loading) && dayFilter == old(dayFilter)
    {
      if activeSession.Some? {
        return None;
      }
      if !confirmed {
        return None;
      }
      request := Some(StartRequestFor(subject));
      if response.Some? {
        activeSession := Some(Session(response.value.id, subject));
      }
    }

    /** `handleEndClass`: without a session, or with the confirmation
        declined, nothing happens; otherwise the time-out request names the
        active session, and a successful response clears it while a failed
        one keeps it. */
    method EndClass(confirmed: bool, ok: bool) returns (timeOut: Option<string>)
      modifies this
      ensures timeOut.Some? <==> old(activeSession).Some? && confirmed
      ensures timeOut.Some? ==> timeOut.value == old(activeSession).value.id
      ensures timeOut.Some? && ok ==> activeSession == None
      ensures timeOut.None? || !ok ==> activeSession == old(activeSession)
      ensures subjects == old(subjects) && loading == old(loading) && dayFilter == old(dayFilter)
    {
      if activeSession.None? {
        return None;
      }
      if !confirmed {
        return None;
      }
      timeOut := Some(activeSession.value.id);
      if ok {
        activeSession := None;
      }
    }
  }
}
