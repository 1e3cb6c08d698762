/**
 * The application shell (App.tsx): the patients, notes, appointments and sessions it keeps in
 * memory, the handlers that update them, and the choice of screen from the current view and role.
 * Identifiers and labels derived from the clock or the locale (`Date.now()`, `toLocale...`) and
 * the object URL of a blob are parameters of the handlers that use them.
 */
module AppShell {
  import opened Wrappers
  import opened Types
  import Collections
  import Text
  import Dash = TherapistDashboardView
  import Journal = PatientDashboardView

  datatype ViewState = DashboardView | SessionView | AnalysisView | ProfileView | QuestionnaireView | SessionDetailView

  /** What the main area shows, with the props that matter. */
  datatype Screen =
    | VideoRoomScreen
    | AnalysisScreen(result: AnalysisResult)
    | QuestionnaireScreen
    | PatientProfileScreen(patient: Option<Patient>, profileNotes: seq<Note>)
    | SessionDetailScreen(session: Session)
    | TherapistDashboardScreen(tab: Dash.Tab)
    | PatientDashboardScreen(patientNotes: seq<Note>, lastSession: Option<Session>)

  /** The check-in answers: a mood from 1 to 10, an anxiety level from 1 to 5, a sleep band and free-text topics. */
  datatype Answers = Answers(mood: nat, anxietyLevel: nat, sleep: string, topics: string)

  /** The demonstration patient the patient-side screens act for. */
  const DemoPatientId := "1"
  const DemoPatientName := "Sarah Miller"

  function InitialPatients(): seq<Patient> {
    [ Patient("1", "Sarah Miller", Some("Sarah"), Active, Low, "Today, 2:00 PM", "sarah.m@gmail.com", "(555) 123-4567", Some("bg-teal-500")),
      Patient("2", "James Chen", None, Active, Medium, "Tomorrow, 10:00 AM", "j.chen@work.com", "(555) 987-6543", Some("bg-indigo-500")) ]
  }

  function InitialNotes(): seq<Note> {
    [ Note("1", "1", "Oct 23", "Morning Anxiety", "Felt a bit overwhelmed today when thinking about the presentation...", Journal) ]
  }

  /** The one seeded appointment is dated today (`today` is the ISO date of the clock at start-up). */
  function InitialAppointments(today: string): seq<Appointment> {
    [ Appointment("101", "1", "Sarah Miller", today, "14:00", Video, Upcoming) ]
  }

  predicate HasId(p: Patient, id: string) {
    p.id == id
  }

  predicate KnownPatient(patients: seq<Patient>, id: string) {
    exists i :: 0 <= i < |patients| && patients[i].id == id
  }

  /** `patients.find(p => p.id === id)`. */
  function FindPatient(patients: seq<Patient>, id: string): Option<Patient> {
    Collections.Find(patients, (p: Patient) => HasId(p, id))
  }

  lemma FindPatientIffKnown(patients: seq<Patient>, id: string)
    ensures FindPatient(patients, id).Some? <==> KnownPatient(patients, id)
    ensures FindPatient(patients, id).Some? ==> FindPatient(patients, id).value.id == id
    ensures FindPatient(patients, id).Some? ==>
      exists i :: 0 <= i < |patients| && patients[i] == FindPatient(patients, id).value
        && forall j :: 0 <= j < i ==> patients[j].id != id
  {
    if KnownPatient(patients, id) {
      var i :| 0 <= i < |patients| && patients[i].id == id;
      assert patients[i] in patients && HasId(patients[i], id);
    }
  }

  /** `handleUpdatePatient`: every entry with the updated patient's id is replaced, the others are untouched. */
  function ReplacePatient(patients: seq<Patient>, updated: Patient): (r: seq<Patient>)
    ensures |r| == |patients|
    ensures forall i :: 0 <= i < |patients| && patients[i].id == updated.id ==> r[i] == updated
    ensures forall i :: 0 <= i < |patients| && patients[i].id != updated.id ==> r[i] == patients[i]
  {
    Collections.ReplaceWhere(patients, (p: Patient) => HasId(p, updated.id), updated)
  }

  /** `handleUpdateSession`'s list update, by session id. */
  function ReplaceSession(sessions: seq<Session>, updated: Session): (r: seq<Session>)
    ensures |r| == |sessions|
    ensures forall i :: 0 <= i < |sessions| && sessions[i].id == updated.id ==> r[i] == updated
    ensures forall i :: 0 <= i < |sessions| && sessions[i].id != updated.id ==> r[i] == sessions[i]
  {
    Collections.ReplaceWhere(sessions, (s: Session) => s.id == updated.id, updated)
  }

  /** Replacing by id keeps the set of ids: a patient known before is known after. */
  lemma ReplacePatientKeepsKnown(patients: seq<Patient>, updated: Patient, id: string)
    requires KnownPatient(patients, id)
    ensures KnownPatient(ReplacePatient(patients, updated), id)
  {
    var i :| 0 <= i < |patients| && patients[i].id == id;
    assert ReplacePatient(patients, updated)[i].id == id;
  }

  /** `handleSavePatientProfile`'s map: the demonstration patient gets the form's name and nickname. */
  function RenameDemoPatient(patients: seq<Patient>, name: string, nickname: string): (r: seq<Patient>)
    ensures |r| == |patients|
    ensures forall i :: 0 <= i < |patients| && patients[i].id == DemoPatientId ==>
      r[i] == patients[i].(name := name, nickname := Some(nickname))
    ensures forall i :: 0 <= i < |patients| && patients[i].id != DemoPatientId ==> r[i] == patients[i]
  {
    Collections.UpdateWhere(patients, (p: Patient) => HasId(p, DemoPatientId), (p: Patient) => p.(name := name, nickname := Some(nickname)))
  }

  /** The `Mood: m/10\nAnxiety: a/5\nSleep: s\nTopic: t` text of a check-in note. */
  function QuestionnaireSummary(a: Answers): string {
    "Mood: " + Text.DecimalString(a.mood) + "/10\nAnxiety: " + Text.DecimalString(a.anxietyLevel)
      + "/5\nSleep: " + a.sleep + "\nTopic: " + a.topics
  }

  /**
   * Shown with its line breaks, a check-in note reads as exactly four lines, one per answer, as
   * long as the sleep band and the topics hold no line break of their own.
   */
  lemma QuestionnaireSummaryLines(a: Answers)
    requires '\n' !in a.sleep && '\n' !in a.topics
    ensures Text.Lines(QuestionnaireSummary(a)) == [
      "Mood: " + Text.DecimalString(a.mood) + "/10",
      "Anxiety: " + Text.DecimalString(a.anxietyLevel) + "/5",
      "Sleep: " + a.sleep,
      "Topic: " + a.topics]
  {
    var l1 := "Mood: " + Text.DecimalString(a.mood) + "/10";
    var l2 := "Anxiety: " + Text.DecimalString(a.anxietyLevel) + "/5";
    var l3 := "Sleep: " + a.sleep;
    var l4 := "Topic: " + a.topics;
    assert QuestionnaireSummary(a) == l1 + "\n" + (l2 + "\n" + (l3 + "\n" + l4));
    assert '\n' !in l1 by {
      DigitsHaveNoBreak(Text.DecimalString(a.mood));
      NoBreakInConcat("Mood: ", Text.DecimalString(a.mood), "/10");
    }
    assert '\n' !in l2 by {
      DigitsHaveNoBreak(Text.DecimalString(a.anxietyLevel));
      NoBreakInConcat("Anxiety: ", Text.DecimalString(a.anxietyLevel), "/5");
    }
    assert '\n' !in l3 by {
      NoBreakInConcat("Sleep: ", a.sleep, "");
      assert l3 == "Sleep: " + a.sleep + "";
    }
    assert '\n' !in l4 by {
      NoBreakInConcat("Topic: ", a.topics, "");
      assert l4 == "Topic: " + a.topics + "";
    }
    FourLines(l1, l2, l3, l4);
  }

  lemma FourLines(l1: string, l2: string, l3: string, l4: string)
    requires '\n' !in l1 && '\n' !in l2 && '\n' !in l3 && '\n' !in l4
    ensures Text.Lines(l1 + "\n" + (l2 + "\n" + (l3 + "\n" + l4))) == [l1, l2, l3, l4]
  {
    Text.LinesOfOneLine(l4);
    Text.LinesAfterBreak(l3, l4);
    Text.LinesAfterBreak(l2, l3 + "\n" + l4);
    Text.LinesAfterBreak(l1, l2 + "\n" + (l3 + "\n" + l4));
  }

  lemma DigitsHaveNoBreak(d: string)
    requires forall i :: 0 <= i < |d| ==> '0' <= d[i] <= '9'
    ensures '\n' !in d
  {
  }

  lemma NoBreakInConcat(a: string, b: string, c: string)
    requires '\n' !in a && '\n' !in b && '\n' !in c
    ensures '\n' !in a + b + c
  {
  }

  /** The appointments and patients after `handleAddSession`. */
  datatype Scheduled = Scheduled(patients: seq<Patient>, appointments: seq<Appointment>)

  /** The label `handleAddSession` stores as the patient's next session: `${weekday}, ${time}`. */
  function NextSessionText(weekday: string, time: string): string {
    weekday + ", " + time
  }

  /**
   * `handleAddSession`: an unknown patient changes nothing; otherwise one video appointment is
   * appended under the patient's name and that patient's next-session label is updated.
   */
  function Schedule(patients: seq<Patient>, appointments: seq<Appointment>, patientId: string,
                    date: string, time: string, id: string, weekday: string): (r: Scheduled)
    ensures FindPatient(patients, patientId).None? ==> r == Scheduled(patients, appointments)
    ensures FindPatient(patients, patientId).Some? ==>
      var p := FindPatient(patients, patientId).value;
      && |r.appointments| == |appointments| + 1 && r.appointments[..|appointments|] == appointments
      && r.appointments[|appointments|] == Appointment(id, patientId, p.name, date, time, Video, Upcoming)
      && |r.patients| == |patients|
      && (forall i :: 0 <= i < |patients| && patients[i].id != patientId ==> r.patients[i] == patients[i])
      && (forall i :: 0 <= i < |patients| && patients[i].id == patientId ==> r.patients[i] == p.(nextSession := NextSessionText(weekday, time)))
  {
    match FindPatient(patients, patientId)
    case None => Scheduled(patients, appointments)
    case Some(p) =>
      FindPatientIffKnown(patients, patientId);
      Scheduled(ReplacePatient(patients, p.(nextSession := NextSessionText(weekday, time))),
                appointments + [Appointment(id, patientId, p.name, date, time, Video, Upcoming)])
  }

  /** Scheduling a known patient for today adds exactly one to the therapist's "remaining today" count. */
  lemma ScheduleCountsToday(patients: seq<Patient>, appointments: seq<Appointment>, patientId: string,
                            time: string, id: string, weekday: string, today: string)
    requires KnownPatient(patients, patientId)
    ensures Dash.RemainingToday(Schedule(patients, appointments, patientId, today, time, id, weekday).appointments, today)
         == Dash.RemainingToday(appointments, today) + 1
  {
    FindPatientIffKnown(patients, patientId);
    var p := FindPatient(patients, patientId).value;
    var a := Appointment(id, patientId, p.name, today, time, Video, Upcoming);
    var r := Schedule(patients, appointments, patientId, today, time, id, weekday);
    assert r.appointments == appointments + [a];
    Dash.RemainingTodayAppend(appointments, a, today);
  }

  /**
   * `handleAddPatient` appends without checking ids: the new patient is what a lookup by its id
   * finds only when no earlier patient has that id; otherwise the lookup keeps finding the earlier one.
   */
  lemma AddedPatientLookup(patients: seq<Patient>, p: Patient)
    ensures !KnownPatient(patients, p.id) ==> FindPatient(patients + [p], p.id) == Some(p)
    ensures KnownPatient(patients, p.id) ==> FindPatient(patients + [p], p.id).Some? && FindPatient(patients + [p], p.id).value in patients
  {
    var all := patients + [p];
    assert all[|patients|] == p && HasId(all[|patients|], p.id);
    FindPatientIffKnown(all, p.id);
    var found := FindPatient(all, p.id);
    var i :| 0 <= i < |all| && all[i] == found.value && forall j :: 0 <= j < i ==> !HasId(all[j], p.id);
    assert i <= |patients|;
    assert HasId(all[i], p.id);
    if KnownPatient(patients, p.id) {
      var k :| 0 <= k < |patients| && patients[k].id == p.id;
      assert HasId(all[k], p.id);
      assert i <= k;
      assert found.value == patients[i];
    } else {
      assert forall j :: 0 <= j < |patients| ==> all[j] == patients[j] && !HasId(all[j], p.id);
      assert i == |patients|;
    }
  }

  /** After the profile form is saved, looking the demonstration patient up finds the form's name and nickname. */
  lemma RenamedPatientFound(patients: seq<Patient>, name: string, nickname: string)
    requires KnownPatient(patients, DemoPatientId)
    ensures var me := FindPatient(RenameDemoPatient(patients, name, nickname), DemoPatientId);
      me.Some? && me.value.name == name && me.value.nickname == Some(nickname)
  {
    var r := RenameDemoPatient(patients, name, nickname);
    assert forall k :: 0 <= k < |r| ==> r[k].id == patients[k].id;
    var i :| 0 <= i < |patients| && patients[i].id == DemoPatientId;
    assert r[i].id == DemoPatientId;
    FindPatientIffKnown(r, DemoPatientId);
    var me := FindPatient(r, DemoPatientId);
    var j :| 0 <= j < |r| && r[j] == me.value;
    assert patients[j].id == DemoPatientId;
  }

  /** `xs[0]`, which is `undefined` for an empty list. */
  function First<T>(xs: seq<T>): (r: Option<T>)
    ensures r.None? <==> xs == []
    ensures r.Some? ==> r.value == xs[0]
  {
    if xs == [] then None else Some(xs[0])
  }

  function NotesOf(notes: seq<Note>, patientId: string): (r: seq<Note>)
    ensures forall n :: n in r <==> n in notes && n.patientId == patientId
  {
    Collections.Filter(notes, (n: Note) => n.patientId == patientId)
  }

  function SessionsOf(sessions: seq<Session>, patientId: string): seq<Session> {
    Collections.Filter(sessions, (s: Session) => s.patientId == patientId)
  }

  /** The session the live room's `onAnalysisComplete` records for the demonstration patient. */
  function LiveSession(result: AnalysisResult, id: string, dateLabel: string, objectUrl: string): Session {
    Session(id, DemoPatientId, DemoPatientName, dateLabel, "Live Video Session", Some(objectUrl), result, "", "")
  }

  predicate IsPatientWritten(n: Note) {
    n.kind == Journal || n.kind == Questionnaire
  }

  /** On the patient's screen every note is a journal entry or a check-in, so the journal list hides none of them. */
  lemma PatientJournalShowsAll(notes: seq<Note>)
    requires forall n :: n in notes ==> IsPatientWritten(n)
    ensures Journal.JournalEntries(notes) == notes
  {
    Collections.FilterKeepsAll(notes, Journal.IsJournalEntry);
  }

  /** Every state variable of the shell, as one value: what the handlers are specified against. */
  datatype AppState = AppState(
    patients: seq<Patient>,
    notes: seq<Note>,
    appointments: seq<Appointment>,
    sessions: seq<Session>,
    role: UserRole,
    currentView: ViewState,
    selectedPatientId: Option<string>,
    selectedSession: Option<Session>,
    analysisResult: Option<AnalysisResult>,
    showPatientProfileModal: bool,
    patientProfileName: string,
    patientProfileNickname: string,
    therapistActiveTab: Dash.Tab)

  class App {
    var patients: seq<Patient>
    var notes: seq<Note>
    var appointments: seq<Appointment>
    var sessions: seq<Session>
    var role: UserRole
    var currentView: ViewState
    var selectedPatientId: Option<string>
    var selectedSession: Option<Session>
    var analysisResult: Option<AnalysisResult>
    var showPatientProfileModal: bool
    var patientProfileName: string
    var patientProfileNickname: string
    var therapistActiveTab: Dash.Tab

    /**
     * What every handler keeps true: a selected patient is one of the patients, every note was
     * written on the patient side (journal or check-in), and nothing ever sets an analysis
     * result or the analysis view.
     */
    predicate Valid()
      reads this
    {
      && (selectedPatientId.Some? ==> KnownPatient(patients, selectedPatientId.value))
      && (forall n :: n in notes ==> IsPatientWritten(n))
      && analysisResult.None?
      && currentView != AnalysisView
    }

    function State(): AppState
      reads this
    {
      AppState(patients, notes, appointments, sessions, role, currentView, selectedPatientId, selectedSession,
               analysisResult, showPatientProfileModal, patientProfileName, patientProfileNickname, therapistActiveTab)
    }

    constructor (today: string)
      ensures Valid()
      ensures patients == InitialPatients() && notes == InitialNotes()
      ensures appointments == InitialAppointments(today) && sessions == []
      ensures role == PATIENT && currentView == DashboardView && selectedPatientId.None? && selectedSession.None?
      ensures !showPatientProfileModal && patientProfileName == "Sarah Miller" && patientProfileNickname == "Sarah"
      ensures therapistActiveTab == Dash.ScheduleTab
    {
      patients := InitialPatients();
      notes := InitialNotes();
      appointments := InitialAppointments(today);
      sessions := [];
      role := PATIENT;
      currentView := DashboardView;
      selectedPatientId := None;
      selectedSession := None;
      analysisResult := None;
      showPatientProfileModal := false;
      patientProfileName := "Sarah Miller";
      patientProfileNickname := "Sarah";
      therapistActiveTab := Dash.ScheduleTab;
    }

    /** The main area (App.tsx's view dispatch). */
    function CurrentScreen(): (r: Screen)
      reads this
      ensures currentView == SessionView ==> r == VideoRoomScreen
      ensures Valid() ==> !r.AnalysisScreen?
      ensures Valid() && r.PatientProfileScreen? ==> selectedPatientId.Some? && r.patient.Some? && r.patient.value.id == selectedPatientId.value
      ensures r.PatientDashboardScreen? ==> role == PATIENT
      ensures r.PatientDashboardScreen? ==> forall n :: n in r.patientNotes <==> n in notes && n.patientId == DemoPatientId
      ensures r.PatientProfileScreen? ==>
        selectedPatientId.Some? && forall n :: n in r.profileNotes <==> n in notes && n.patientId == selectedPatientId.value
      ensures r.TherapistDashboardScreen? ==> role == THERAPIST && r.tab == therapistActiveTab
    {
      if currentView == SessionView then VideoRoomScreen
      else if currentView == AnalysisView && analysisResult.Some? then AnalysisScreen(analysisResult.value)
      else if currentView == QuestionnaireView then QuestionnaireScreen
      else if role == THERAPIST then
        if currentView == ProfileView && selectedPatientId.Some? && selectedPatientId.value != "" then
          FindPatientIffKnown(patients, selectedPatientId.value);
          PatientProfileScreen(FindPatient(patients, selectedPatientId.value), NotesOf(notes, selectedPatientId.value))
        else if currentView == SessionDetailView && selectedSession.Some? then SessionDetailScreen(selectedSession.value)
        else TherapistDashboardScreen(therapistActiveTab)
      else
        var own := NotesOf(notes, DemoPatientId);
        assert role.PATIENT?;
        PatientDashboardScreen(own, First(SessionsOf(sessions, DemoPatientId)))
    }

    /** The name in the navigation bar: the demonstration patient's nickname on the patient side, a fixed name on the therapist side. */
    function HeaderName(): (shown: Option<string>)
      reads this
      ensures role == THERAPIST ==> shown == Some("Dr. Thompson")
      ensures role == PATIENT && !KnownPatient(patients, DemoPatientId) ==> shown.None?
      ensures role == PATIENT && KnownPatient(patients, DemoPatientId) ==>
        exists i :: 0 <= i < |patients| && patients[i].id == DemoPatientId && patients[i].nickname == shown
          && forall j :: 0 <= j < i ==> patients[j].id != DemoPatientId
    {
      if role == THERAPIST then Some("Dr. Thompson")
      else
        var me := FindPatient(patients, DemoPatientId);
        FindPatientIffKnown(patients, DemoPatientId);
        if me.Some? then me.value.nickname else None
    }

    /** `toggleRole`: the new role, the dashboard, and no selected patient. */
    method ToggleRole(newRole: UserRole)
      requires Valid()
      modifies this
      ensures Valid()
      ensures State() == old(State()).(role := newRole, currentView := DashboardView, selectedPatientId := None)
    {
      role := newRole;
      currentView := DashboardView;
      selectedPatientId := None;
    }

    /** `handleStartSession`: the live room, with any previous analysis result cleared. */
    method StartSession()
      requires Valid()
      modifies this
      ensures Valid()
      ensures State() == old(State()).(currentView := SessionView, analysisResult := None)
    {
      currentView := SessionView;
      analysisResult := None;
    }

    /** `handleLeaveSession`, the logo and every Back, Cancel and Close button: back to the dashboard. */
    method GoToDashboard()
      requires Valid()
      modifies this
      ensures Valid()
      ensures State() == old(State()).(currentView := DashboardView)
    {
      currentView := DashboardView;
    }

    method StartQuestionnaire()
      requires Valid()
      modifies this
      ensures Valid()
      ensures State() == old(State()).(currentView := QuestionnaireView)
    {
      currentView := QuestionnaireView;
    }

    method SetProfileModal(show: bool)
      requires Valid()
      modifies this
      ensures Valid()
      ensures State() == old(State()).(showPatientProfileModal := show)
    {
      showPatientProfileModal := show;
    }

    method EditProfileForm(name: string, nickname: string)
      requires Valid()
      modifies this
      ensures Valid()
      ensures State() == old(State()).(patientProfileName := name, patientProfileNickname := nickname)
    {
      patientProfileName, patientProfileNickname := name, nickname;
    }

    /** The therapist dashboard's tab setter, lifted into the shell. */
    method SetTherapistTab(tab: Dash.Tab)
      requires Valid()
      modifies this
      ensures Valid()
      ensures State() == old(State()).(therapistActiveTab := tab)
    {
      therapistActiveTab := tab;
    }

    /**
     * `handleAnalysisComplete(result, videoBlob)`. Building the session calls
     * `URL.createObjectURL(videoBlob)`, which throws when no blob is passed: then the handler
     * stops before changing anything and `threw` is set. Otherwise the live session for the
     * demonstration patient goes first in the list and the therapist's session tab is shown.
     */
    method AnalysisComplete(result: AnalysisResult, videoBlob: Option<Blob>, id: string, dateLabel: string, objectUrl: string)
      returns (threw: bool)
      requires Valid()
      modifies this
      ensures Valid()
      ensures threw <==> videoBlob.None?
      ensures threw ==> State() == old(State())
      ensures !threw ==> State() == old(State()).(
        sessions := [LiveSession(result, id, dateLabel, objectUrl)] + old(sessions),
        role := THERAPIST, therapistActiveTab := Dash.SessionsTab, currentView := DashboardView)
    {
      if videoBlob.None? {
        return true;
      }
      var newSession := LiveSession(result, id, dateLabel, objectUrl);
      sessions := [newSession] + sessions;
      role := THERAPIST;
      therapistActiveTab := Dash.SessionsTab;
      currentView := DashboardView;
      threw := false;
    }

    /** `handleSaveNote`: a journal entry for the demonstration patient goes first in the notes. */
    method SaveNote(title: string, content: string, id: string, dateLabel: string)
      requires Valid()
      modifies this
      ensures Valid()
      ensures State() == old(State()).(notes := [Note(id, DemoPatientId, dateLabel, title, content, Journal)] + old(notes))
    {
      notes := [Note(id, DemoPatientId, dateLabel, title, content, Journal)] + notes;
    }

    /** `handleSaveQuestionnaire`: a check-in note summarising the answers goes first, and the dashboard is shown. */
    method SaveQuestionnaire(answers: Answers, id: string, dateLabel: string)
      requires Valid()
      modifies this
      ensures Valid()
      ensures State() == old(State()).(
        notes := [Note(id, DemoPatientId, dateLabel, "Pre-Session Check-in", QuestionnaireSummary(answers), Questionnaire)] + old(notes),
        currentView := DashboardView)
    {
      var summary := QuestionnaireSummary(answers);
      notes := [Note(id, DemoPatientId, dateLabel, "Pre-Session Check-in", summary, Questionnaire)] + notes;
      currentView := DashboardView;
    }

    /**
     * `handleSavePatientProfile`: only when the demonstration patient exists are its name and
     * nickname replaced by the form's; the modal closes in every case.
     */
    method SavePatientProfile()
      requires Valid()
      modifies this
      ensures Valid()
      ensures !KnownPatient(old(patients), DemoPatientId) ==> State() == old(State()).(showPatientProfileModal := false)
      ensures KnownPatient(old(patients), DemoPatientId) ==> State() == old(State()).(
        patients := RenameDemoPatient(old(patients), old(patientProfileName), old(patientProfileNickname)),
        showPatientProfileModal := false)
    {
      var me := FindPatient(patients, DemoPatientId);
      FindPatientIffKnown(patients, DemoPatientId);
      if me.Some? {
        var renamed := RenameDemoPatient(patients, patientProfileName, patientProfileNickname);
        if selectedPatientId.Some? {
          var i :| 0 <= i < |patients| && patients[i].id == selectedPatientId.value;
          assert renamed[i].id == selectedPatientId.value;
        }
        patients := renamed;
      }
      showPatientProfileModal := false;
    }

    /** `handleViewPatient`: the dashboard lists only known patients, and the profile view opens on one. */
    method ViewPatient(patient: Patient)
      requires Valid() && patient in patients
      modifies this
      ensures Valid()
      ensures State() == old(State()).(selectedPatientId := Some(patient.id), currentView := ProfileView)
    {
      selectedPatientId := Some(patient.id);
      currentView := ProfileView;
    }

    method UpdatePatient(updated: Patient)
      requires Valid()
      modifies this
      ensures Valid()
      ensures State() == old(State()).(patients := ReplacePatient(old(patients), updated))
    {
      var replaced := ReplacePatient(patients, updated);
      if selectedPatientId.Some? {
        ReplacePatientKeepsKnown(patients, updated, selectedPatientId.value);
      }
      patients := replaced;
    }

    /** `handleAddPatient`: appended at the end, with no check that the id is new. */
    method AddPatient(patient: Patient)
      requires Valid()
      modifies this
      ensures Valid()
      ensures State() == old(State()).(patients := old(patients) + [patient])
    {
      if selectedPatientId.Some? {
        var i :| 0 <= i < |patients| && patients[i].id == selectedPatientId.value;
        assert (patients + [patient])[i] == patients[i];
      }
      patients := patients + [patient];
    }

    /** `handleSessionCreated`: the new session goes first. */
    method SessionCreated(session: Session)
      requires Valid()
      modifies this
      ensures Valid()
      ensures State() == old(State()).(sessions := [session] + old(sessions))
    {
      sessions := [session] + sessions;
    }

    method ViewSession(session: Session)
      requires Valid()
      modifies this
      ensures Valid()
      ensures State() == old(State()).(selectedSession := Some(session), currentView := SessionDetailView)
    {
      selectedSession := Some(session);
      currentView := SessionDetailView;
    }

    /** `handleUpdateSession`: replaced by id in the list, and the detail view shows the updated session. */
    method UpdateSession(updated: Session)
      requires Valid()
      modifies this
      ensures Valid()
      ensures State() == old(State()).(sessions := ReplaceSession(old(sessions), updated), selectedSession := Some(updated))
    {
      sessions := ReplaceSession(sessions, updated);
      selectedSession := Some(updated);
    }

    /** `handleAddSession`, with the clock's id and the locale's weekday name of `date` as parameters. */
    method AddSession(patientId: string, date: string, time: string, id: string, weekday: string)
      requires Valid()
      modifies this
      ensures Valid()
      ensures var r := Schedule(old(patients), old(appointments), patientId, date, time, id, weekday);
        State() == old(State()).(patients := r.patients, appointments := r.appointments)
    {
      var patient := FindPatient(patients, patientId);
      if patient.None? {
        return;
      }
      FindPatientIffKnown(patients, patientId);
      var newApt := Appointment(id, patientId, patient.value.name, date, time, Video, Upcoming);
      appointments := appointments + [newApt];
      UpdatePatient(patient.value.(nextSession := NextSessionText(weekday, time)));
    }
  }
}
