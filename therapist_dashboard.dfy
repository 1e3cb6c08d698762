/**
 * The therapist's dashboard (components/TherapistDashboard.tsx): the tab selection, the
 * add-patient form, the upload form whose submission spans an awaited analysis, and the
 * "sessions remaining today" count. Callbacks into the parent are modelled by returning the
 * value the callback is called with.
 */
module TherapistDashboardView {
  import opened Wrappers
  import opened Types
  import Collections

  datatype Tab = PatientsTab | ScheduleTab | SessionsTab

  function TabName(t: Tab): string {
    match t
    case PatientsTab => "patients"
    case ScheduleTab => "schedule"
    case SessionsTab => "sessions"
  }

  /**
   * `propActiveTab || internalActiveTab`: every tab name is a non-empty string, so a tab given
   * by the parent always wins and the component's own state is used only when none is given.
   */
  function ActiveTab(prop: Option<Tab>, internal: Tab): (r: Tab)
    ensures prop.Some? ==> r == prop.value
    ensures prop.None? ==> r == internal
  {
    if prop.Some? && TabName(prop.value) != "" then prop.value else internal
  }

  /** A file picked in the upload form. */
  datatype UploadFile = UploadFile(name: string, bytes: seq<bv8>)

  /** What `handleUploadSubmit` captured when it was submitted: the form and the patient list of that render. */
  datatype UploadRequest = UploadRequest(file: UploadFile, title: string, date: string, studentId: string, patients: seq<Patient>)

  const NewPatientAvatar := "bg-brand-500"

  /** The patient `handleAddPatientSubmit` builds from the form. */
  function NewPatient(id: string, name: string, email: string): Patient {
    Patient(id, name, None, Active, Low, "", email, "", Some(NewPatientAvatar))
  }

  /** `student?.name || 'Unknown'`: a missing student and a student with an empty name both read "Unknown". */
  function StudentName(patients: seq<Patient>, studentId: string): (r: string)
    ensures r != ""
    ensures Collections.Find(patients, (p: Patient) => p.id == studentId).None? ==> r == "Unknown"
    ensures var found := Collections.Find(patients, (p: Patient) => p.id == studentId);
      found.Some? && found.value.name != "" ==> r == found.value.name && found.value in patients
    ensures var found := Collections.Find(patients, (p: Patient) => p.id == studentId);
      found.Some? && found.value.name == "" ==> r == "Unknown"
  {
    var found := Collections.Find(patients, (p: Patient) => p.id == studentId);
    if found.Some? && found.value.name != "" then found.value.name else "Unknown"
  }

  /**
   * The session an upload creates: the analysis it resolved to, the captured title, the captured
   * date or else today's label, and empty notes on both sides.
   */
  function UploadedSession(req: UploadRequest, analysis: AnalysisResult, id: string, todayLabel: string, objectUrl: string): Session {
    Session(id, req.studentId, StudentName(req.patients, req.studentId),
            if req.date != "" then req.date else todayLabel,
            req.title, Some(objectUrl), analysis, "", "")
  }

  predicate DueToday(a: Appointment, today: string) {
    a.status == Upcoming && a.date == today
  }

  /** The "sessions remaining today" figure: upcoming appointments dated today's ISO date. */
  function RemainingToday(appointments: seq<Appointment>, today: string): (n: nat)
    ensures n <= |appointments|
  {
    |Collections.Filter(appointments, (a: Appointment) => DueToday(a, today))|
  }

  /** The count is zero exactly when no appointment is upcoming today. */
  lemma RemainingTodayZeroIff(appointments: seq<Appointment>, today: string)
    ensures RemainingToday(appointments, today) == 0 <==> forall a :: a in appointments ==> !DueToday(a, today)
  {
    var kept := Collections.Filter(appointments, (a: Appointment) => DueToday(a, today));
    if kept != [] {
      assert kept[0] in kept;
    }
  }

  /** Appending one appointment adds one to the count exactly when it is upcoming today. */
  lemma RemainingTodayAppend(appointments: seq<Appointment>, a: Appointment, today: string)
    ensures RemainingToday(appointments + [a], today)
         == RemainingToday(appointments, today) + (if DueToday(a, today) then 1 else 0)
  {
    var keep := (x: Appointment) => DueToday(x, today);
    Collections.FilterAppend(appointments, [a], keep);
    assert Collections.Filter([a], keep) == (if keep(a) then [a] else []) by {
      assert [a][1..] == [];
    }
  }

  /** Every state variable of the dashboard, as one value. */
  datatype DashboardState = DashboardState(
    internalActiveTab: Tab,
    showAddPatient: bool,
    showUpload: bool,
    newPatientName: string,
    newPatientEmail: string,
    uploadFile: Option<UploadFile>,
    uploadTitle: string,
    uploadDate: string,
    uploadStudentId: string,
    isUploading: bool)

  class TherapistDashboard {
    var internalActiveTab: Tab
    var showAddPatient: bool
    var showUpload: bool
    var newPatientName: string
    var newPatientEmail: string
    var uploadFile: Option<UploadFile>
    var uploadTitle: string
    var uploadDate: string
    var uploadStudentId: string
    var isUploading: bool

    constructor ()
      ensures internalActiveTab == ScheduleTab && !showAddPatient && !showUpload
      ensures newPatientName == "" && newPatientEmail == ""
      ensures uploadFile.None? && uploadTitle == "" && uploadDate == "" && uploadStudentId == "" && !isUploading
    {
      internalActiveTab := ScheduleTab;
      showAddPatient, showUpload := false, false;
      newPatientName, newPatientEmail := "", "";
      uploadFile, uploadTitle, uploadDate, uploadStudentId := None, "", "", "";
      isUploading := false;
    }

    function State(): DashboardState
      reads this
    {
      DashboardState(internalActiveTab, showAddPatient, showUpload, newPatientName, newPatientEmail,
                     uploadFile, uploadTitle, uploadDate, uploadStudentId, isUploading)
    }

    /** With no tab from the parent, the dashboard opens on the schedule. */
    function Shown(prop: Option<Tab>): (t: Tab)
      reads this
      ensures prop.None? ==> t == internalActiveTab
      ensures prop.Some? ==> t == prop.value
    {
      ActiveTab(prop, internalActiveTab)
    }

    /**
     * A tab button: the parent's setter when one is given (returned as the tab to forward),
     * otherwise the component's own state.
     */
    method SelectTab(tab: Tab, parentSetter: bool) returns (forwarded: Option<Tab>)
      modifies this
      ensures parentSetter ==> forwarded == Some(tab) && State() == old(State())
      ensures !parentSetter ==> forwarded.None? && State() == old(State()).(internalActiveTab := tab)
    {
      if parentSetter {
        forwarded := Some(tab);
      } else {
        internalActiveTab := tab;
        forwarded := None;
      }
    }

    method SetShowAddPatient(show: bool)
      modifies this
      ensures State() == old(State()).(showAddPatient := show)
    {
      showAddPatient := show;
    }

    method SetShowUpload(show: bool)
      modifies this
      ensures State() == old(State()).(showUpload := show)
    {
      showUpload := show;
    }

    method EditNewPatient(name: string, email: string)
      modifies this
      ensures State() == old(State()).(newPatientName := name, newPatientEmail := email)
    {
      newPatientName, newPatientEmail := name, email;
    }

    method EditUploadForm(file: Option<UploadFile>, title: string, date: string, studentId: string)
      modifies this
      ensures State() == old(State()).(uploadFile := file, uploadTitle := title, uploadDate := date, uploadStudentId := studentId)
    {
      uploadFile, uploadTitle, uploadDate, uploadStudentId := file, title, date, studentId;
    }

    /**
     * `handleAddPatientSubmit`: the new patient (passed to `onAddPatient`) carries the form's
     * name and email, status Active, risk Low, no phone or next session and the brand avatar;
     * the form closes and its fields are cleared.
     */
    method AddPatientSubmit(id: string) returns (added: Patient)
      modifies this
      ensures added.id == id && added.name == old(newPatientName) && added.email == old(newPatientEmail)
      ensures added.status == Active && added.riskLevel == Low && added.nextSession == "" && added.phone == ""
      ensures added.avatarClass == Some(NewPatientAvatar) && added.nickname.None?
      ensures State() == old(State()).(showAddPatient := false, newPatientName := "", newPatientEmail := "")
    {
      added := NewPatient(id, newPatientName, newPatientEmail);
      showAddPatient := false;
      newPatientName := "";
      newPatientEmail := "";
    }

    /**
     * `handleUploadSubmit` up to its `await`: without a file or a selected student nothing
     * happens; otherwise `isUploading` is set and the request captures the form as it is now.
     */
    method BeginUpload(patients: seq<Patient>) returns (request: Option<UploadRequest>)
      modifies this
      ensures old(uploadFile).None? || old(uploadStudentId) == "" ==>
        request.None? && State() == old(State())
      ensures old(uploadFile).Some? && old(uploadStudentId) != "" ==>
        && request == Some(UploadRequest(old(uploadFile).value, old(uploadTitle), old(uploadDate), old(uploadStudentId), patients))
        && State() == old(State()).(isUploading := true)
    {
      if uploadFile.None? || uploadStudentId == "" {
        return None;
      }
      isUploading := true;
      request := Some(UploadRequest(uploadFile.value, uploadTitle, uploadDate, uploadStudentId, patients));
    }

    /**
     * `handleUploadSubmit` after the analysis resolved: the session built from the captured
     * request goes to `onSessionCreated`, the modal closes, the file and title are cleared while
     * the date and student stay selected, and `isUploading` is reset. The upload never rejects,
     * so the `catch` branch is not reachable.
     */
    method FinishUpload(request: UploadRequest, analysis: AnalysisResult, id: string, todayLabel: string, objectUrl: string)
      returns (created: Session)
      requires isUploading
      modifies this
      ensures created == UploadedSession(request, analysis, id, todayLabel, objectUrl)
      ensures State() == old(State()).(isUploading := false, showUpload := false, uploadFile := None, uploadTitle := "")
    {
      created := UploadedSession(request, analysis, id, todayLabel, objectUrl);
      showUpload := false;
      uploadFile := None;
      uploadTitle := "";
      isUploading := false;
    }
  }

  /** The session an upload creates carries the analysis, the captured title and empty notes, and always a date. */
  lemma UploadedSessionShape(req: UploadRequest, analysis: AnalysisResult, id: string, todayLabel: string, objectUrl: string)
    requires todayLabel != ""
    ensures var s := UploadedSession(req, analysis, id, todayLabel, objectUrl);
      && s.patientId == req.studentId && s.analysis == analysis && s.title == req.title
      && s.counselorNotes == "" && s.studentNotes == "" && s.date != "" && s.patientName != ""
      && (req.date != "" ==> s.date == req.date)
  {
  }
}
