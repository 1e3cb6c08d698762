/**
 * A patient's profile as the therapist sees it (components/PatientProfile.tsx): a risk selector
 * whose local state is seeded once from the patient, and a form that asks the parent to schedule
 * a video session.
 */
module PatientProfileView {
  import opened Wrappers
  import opened Types

  /** What `onAddSession` is called with. */
  datatype ScheduleRequest = ScheduleRequest(patientId: string, date: string, time: string)

  /** `{ ...patient, riskLevel: newRisk }`: the same patient with only the risk level replaced. */
  function WithRisk(p: Patient, r: RiskLevel): (q: Patient)
    ensures q.riskLevel == r
    ensures q.(riskLevel := p.riskLevel) == p
  {
    p.(riskLevel := r)
  }

  /** The "Next Session" card: the patient's label, or "Not Scheduled" when it is empty. */
  function NextSessionLabel(p: Patient): (shown: string)
    ensures shown != ""
    ensures p.nextSession != "" ==> shown == p.nextSession
    ensures p.nextSession == "" ==> shown == "Not Scheduled"
  {
    if p.nextSession != "" then p.nextSession else "Not Scheduled"
  }

  class PatientProfile {
    /** The `patient` prop of the latest render. */
    var patient: Patient
    var riskLevel: RiskLevel
    var showSessionForm: bool
    var newSessionDate: string
    var newSessionTime: string

    /** Mounting seeds the local risk level from the patient; the form starts hidden and empty. */
    constructor (p: Patient)
      ensures patient == p && riskLevel == p.riskLevel
      ensures !showSessionForm && newSessionDate == "" && newSessionTime == ""
    {
      patient := p;
      riskLevel := p.riskLevel;
      showSessionForm := false;
      newSessionDate, newSessionTime := "", "";
    }

    /** A re-render with a new prop: `useState` ignores its initial value after mounting, so the local risk stays. */
    method ReceiveProps(p: Patient)
      modifies this
      ensures patient == p && riskLevel == old(riskLevel)
      ensures showSessionForm == old(showSessionForm) && newSessionDate == old(newSessionDate) && newSessionTime == old(newSessionTime)
    {
      patient := p;
    }

    /** `handleRiskChange`: the local risk and the emitted patient agree on the new level. */
    method RiskChange(newRisk: RiskLevel) returns (updated: Patient)
      modifies this
      ensures riskLevel == newRisk && updated == WithRisk(patient, newRisk)
      ensures patient == old(patient) && showSessionForm == old(showSessionForm)
      ensures newSessionDate == old(newSessionDate) && newSessionTime == old(newSessionTime)
    {
      riskLevel := newRisk;
      updated := WithRisk(patient, newRisk);
    }

    /** The "Schedule New Session" button flips the form's visibility. */
    method ToggleSessionForm()
      modifies this
      ensures showSessionForm == !old(showSessionForm)
      ensures patient == old(patient) && riskLevel == old(riskLevel)
      ensures newSessionDate == old(newSessionDate) && newSessionTime == old(newSessionTime)
    {
      showSessionForm := !showSessionForm;
    }

    method EditSessionForm(date: string, time: string)
      modifies this
      ensures newSessionDate == date && newSessionTime == time
      ensures patient == old(patient) && riskLevel == old(riskLevel) && showSessionForm == old(showSessionForm)
    {
      newSessionDate, newSessionTime := date, time;
    }

    /**
     * `handleAddSession`: only with both a date and a time is the parent asked to schedule; then
     * the form is hidden and cleared. Otherwise nothing changes.
     */
    method AddSessionSubmit() returns (request: Option<ScheduleRequest>)
      modifies this
      ensures old(newSessionDate) != "" && old(newSessionTime) != "" ==>
        && request == Some(ScheduleRequest(patient.id, old(newSessionDate), old(newSessionTime)))
        && !showSessionForm && newSessionDate == "" && newSessionTime == ""
      ensures old(newSessionDate) == "" || old(newSessionTime) == "" ==>
        && request.None?
        && showSessionForm == old(showSessionForm) && newSessionDate == old(newSessionDate) && newSessionTime == old(newSessionTime)
      ensures patient == old(patient) && riskLevel == old(riskLevel)
    {
      if newSessionDate != "" && newSessionTime != "" {
        request := Some(ScheduleRequest(patient.id, newSessionDate, newSessionTime));
        showSessionForm := false;
        newSessionDate := "";
        newSessionTime := "";
      } else {
        request := None;
      }
    }
  }

  /** Changing the risk twice keeps only the last choice, and changing it back restores the patient. */
  lemma WithRiskLastWins(p: Patient, r1: RiskLevel, r2: RiskLevel)
    ensures WithRisk(WithRisk(p, r1), r2) == WithRisk(p, r2)
    ensures WithRisk(WithRisk(p, r1), p.riskLevel) == p
  {
  }
}
