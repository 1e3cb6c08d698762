/**
 * The records the application keeps in memory (types.ts). TypeScript's string-literal unions
 * become enumerations; each has the exact string it stands for on the wire and a parser that
 * accepts exactly those strings. Field names follow Dafny's lower-camel convention; the
 * analysis result's wire keys are snake_case (`verbal_cues`, `overall_sentiment`, ...).
 */
module Types {
  import opened Wrappers

  /** The two roles of the application; nothing else is a role. */
  datatype UserRole = PATIENT | THERAPIST

  function RoleName(r: UserRole): string {
    match r
    case PATIENT => "PATIENT"
    case THERAPIST => "THERAPIST"
  }

  /** Reads an enum value back from its string: exactly the two names are roles. */
  function ParseRole(t: string): (r: Option<UserRole>)
    ensures r.Some? <==> t == "PATIENT" || t == "THERAPIST"
    ensures r.Some? ==> RoleName(r.value) == t
  {
    if t == "PATIENT" then Some(PATIENT)
    else if t == "THERAPIST" then Some(THERAPIST)
    else None
  }

  datatype PatientStatus = Active | OnHold | Inactive

  function StatusName(s: PatientStatus): string {
    match s
    case Active => "Active"
    case OnHold => "On Hold"
    case Inactive => "Inactive"
  }

  function ParseStatus(t: string): (r: Option<PatientStatus>)
    ensures r.Some? <==> t == "Active" || t == "On Hold" || t == "Inactive"
    ensures r.Some? ==> StatusName(r.value) == t
  {
    if t == "Active" then Some(Active)
    else if t == "On Hold" then Some(OnHold)
    else if t == "Inactive" then Some(Inactive)
    else None
  }

  datatype RiskLevel = Low | Medium | High

  function RiskName(r: RiskLevel): string {
    match r
    case Low => "Low"
    case Medium => "Medium"
    case High => "High"
  }

  function ParseRisk(t: string): (r: Option<RiskLevel>)
    ensures r.Some? <==> t == "Low" || t == "Medium" || t == "High"
    ensures r.Some? ==> RiskName(r.value) == t
  {
    if t == "Low" then Some(Low)
    else if t == "Medium" then Some(Medium)
    else if t == "High" then Some(High)
    else None
  }

  datatype NoteType = Journal | SessionNote | Questionnaire

  function NoteTypeName(k: NoteType): string {
    match k
    case Journal => "Journal"
    case SessionNote => "Session Note"
    case Questionnaire => "Questionnaire"
  }

  function ParseNoteType(t: string): (r: Option<NoteType>)
    ensures r.Some? <==> t == "Journal" || t == "Session Note" || t == "Questionnaire"
    ensures r.Some? ==> NoteTypeName(r.value) == t
  {
    if t == "Journal" then Some(Journal)
    else if t == "Session Note" then Some(SessionNote)
    else if t == "Questionnaire" then Some(Questionnaire)
    else None
  }

  datatype AppointmentType = Video | InPerson

  function AppointmentTypeName(k: AppointmentType): string {
    match k
    case Video => "Video"
    case InPerson => "In-Person"
  }

  function ParseAppointmentType(t: string): (r: Option<AppointmentType>)
    ensures r.Some? <==> t == "Video" || t == "In-Person"
    ensures r.Some? ==> AppointmentTypeName(r.value) == t
  {
    if t == "Video" then Some(Video)
    else if t == "In-Person" then Some(InPerson)
    else None
  }

  datatype AppointmentStatus = Upcoming | Completed | Cancelled

  function AppointmentStatusName(s: AppointmentStatus): string {
    match s
    case Upcoming => "Upcoming"
    case Completed => "Completed"
    case Cancelled => "Cancelled"
  }

  function ParseAppointmentStatus(t: string): (r: Option<AppointmentStatus>)
    ensures r.Some? <==> t == "Upcoming" || t == "Completed" || t == "Cancelled"
    ensures r.Some? ==> AppointmentStatusName(r.value) == t
  {
    if t == "Upcoming" then Some(Upcoming)
    else if t == "Completed" then Some(Completed)
    else if t == "Cancelled" then Some(Cancelled)
    else None
  }

  datatype Patient = Patient(
    id: string,
    name: string,
    nickname: Option<string>,
    status: PatientStatus,
    riskLevel: RiskLevel,
    nextSession: string,
    email: string,
    phone: string,
    avatarClass: Option<string>)

  /** `type` is a Dafny keyword, so the note's and the appointment's `type` field is called `kind`. */
  datatype Note = Note(
    id: string,
    patientId: string,
    date: string,
    title: string,
    content: string,
    kind: NoteType)

  datatype Appointment = Appointment(
    id: string,
    patientId: string,
    patientName: string,
    date: string,
    time: string,
    kind: AppointmentType,
    status: AppointmentStatus)

  /** A confidence value is a JSON number the model never computes with; it keeps its literal text. */
  datatype Confidence = Confidence(literal: string)

  datatype VerbalCue = VerbalCue(
    timestamp: string,
    speaker: string,
    spokenText: string,
    toneAnalysis: string,
    intentOrMeaning: string)

  datatype NonverbalCue = NonverbalCue(
    timestamp: string,
    person: string,
    expression: string,
    bodyLanguage: string,
    inferredEmotion: string,
    confidence: Confidence)

  datatype EmotionPoint = EmotionPoint(
    timestamp: string,
    emotion: string,
    confidence: Confidence,
    source: string)

  datatype ConversationDynamics = ConversationDynamics(
    dominanceOrControl: string,
    rapportLevel: string,
    conflictPoints: string,
    supportiveBehaviors: string)

  datatype EnvironmentContext = EnvironmentContext(
    settingDescription: string,
    comfortOrDiscomfortSignals: string)

  /** A summary, three lists, two nested records and a sentiment string. */
  datatype AnalysisResult = AnalysisResult(
    summary: string,
    verbalCues: seq<VerbalCue>,
    nonverbalCues: seq<NonverbalCue>,
    emotionsOverTime: seq<EmotionPoint>,
    conversationDynamics: ConversationDynamics,
    environmentContext: EnvironmentContext,
    overallSentiment: string)

  /** A session always carries its analysis; the video URL is optional and there is no blob field. */
  datatype Session = Session(
    id: string,
    patientId: string,
    patientName: string,
    date: string,
    title: string,
    videoUrl: Option<string>,
    analysis: AnalysisResult,
    counselorNotes: string,
    studentNotes: string)

  /** A browser Blob: the bytes in order and the MIME type it was created with. */
  datatype Blob = Blob(bytes: seq<bv8>, mimeType: string)

  /** Every value's name parses back to that value, so the names are pairwise distinct. */
  lemma NamesParseBack(r: UserRole, st: PatientStatus, rl: RiskLevel, nt: NoteType, at: AppointmentType, as_: AppointmentStatus)
    ensures ParseRole(RoleName(r)) == Some(r)
    ensures ParseStatus(StatusName(st)) == Some(st)
    ensures ParseRisk(RiskName(rl)) == Some(rl)
    ensures ParseNoteType(NoteTypeName(nt)) == Some(nt)
    ensures ParseAppointmentType(AppointmentTypeName(at)) == Some(at)
    ensures ParseAppointmentStatus(AppointmentStatusName(as_)) == Some(as_)
  {
  }
}
