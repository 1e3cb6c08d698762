/**
 * The end of a live session, across the two components involved: the room's recorder stops, the
 * upload resolves to an analysis `result`, and the room calls the shell's `onAnalysisComplete`.
 * The room declares and makes that call with the result alone (VideoRoom.tsx), while the shell's
 * handler also expects the recording and builds an object URL from it (App.tsx). Both the call as
 * written and the call with the recording passed along are modelled here.
 */
module LiveFlow {
  import opened Wrappers
  import opened Types
  import Dash = TherapistDashboardView
  import VideoSession
  import AppShell

  /**
   * The call as written: no recording reaches the handler, building its object URL throws, the
   * room's `catch` clears `analyzing`, and the shell records no session and stays on the live room.
   */
  method FinishLiveSessionAsWritten(app: AppShell.App, room: VideoSession.VideoRoom, result: AnalysisResult,
                                    id: string, dateLabel: string, objectUrl: string)
    requires app.Valid() && room.Valid() && room.recorder == Some(VideoSession.Stopping)
    modifies app, room
    ensures app.Valid() && room.Valid()
    ensures app.sessions == old(app.sessions) && app.currentView == old(app.currentView) && app.role == old(app.role)
    ensures !room.analyzing && room.completed == old(room.completed) + [result]
    ensures room.State() == VideoSession.RecorderStoppedStep(old(room.State()), result, true)
  {
    var threw := app.AnalysisComplete(result, None, id, dateLabel, objectUrl);
    room.RecorderStopped(result, threw);
  }

  /**
   * The call as intended: the recording the room has just assembled goes along with the result,
   * so the live session is saved first in the list with the analysis and the recording's URL,
   * and the shell switches to the therapist's session list.
   */
  method FinishLiveSession(app: AppShell.App, room: VideoSession.VideoRoom, result: AnalysisResult,
                           id: string, dateLabel: string, objectUrl: string)
    requires app.Valid() && room.Valid() && room.recorder == Some(VideoSession.Stopping)
    modifies app, room
    ensures app.Valid() && room.Valid()
    ensures app.sessions == [AppShell.LiveSession(result, id, dateLabel, objectUrl)] + old(app.sessions)
    ensures app.sessions[0].analysis == result && app.sessions[0].videoUrl == Some(objectUrl)
    ensures app.role == THERAPIST && app.therapistActiveTab == Dash.SessionsTab && app.currentView == AppShell.DashboardView
    ensures room.recordedBlob == Some(Blob(VideoSession.Flatten(old(room.chunks)), VideoSession.WebmType))
    ensures room.analyzing == old(room.analyzing)
    ensures room.State() == VideoSession.RecorderStoppedStep(old(room.State()), result, false)
  {
    var blob := Blob(VideoSession.Flatten(room.chunks), VideoSession.WebmType);
    var threw := app.AnalysisComplete(result, Some(blob), id, dateLabel, objectUrl);
    room.RecorderStopped(result, threw);
  }
}
