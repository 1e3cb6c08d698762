/**
 * The patient's home screen (components/PatientDashboard.tsx): a journal form that saves only
 * non-blank entries, a mood slider whose value lights one of three faces, and the journal list.
 */
module PatientDashboardView {
  import opened Wrappers
  import opened Types
  import Text
  import Collections

  /** What `onSaveNote` is called with. */
  datatype NoteDraft = NoteDraft(title: string, content: string)

  const UntitledEntry := "Untitled Entry"

  /** The Save button's `disabled` attribute, which is also the handler's guard: `!content.trim()`. */
  predicate SaveDisabled(content: string) {
    Text.Trim(content) == []
  }

  /** Saving is refused exactly for contents made only of whitespace (the empty content included). */
  lemma SaveDisabledIffBlank(content: string)
    ensures SaveDisabled(content) <==> forall i :: 0 <= i < |content| ==> Text.IsWhitespace(content[i])
  {
    Text.TrimEmptyIff(content);
  }

  /** `title || 'Untitled Entry'`: only the empty title is replaced; a blank but non-empty title is kept. */
  function DraftTitle(title: string): (r: string)
    ensures r != ""
    ensures title != "" ==> r == title
    ensures title == "" ==> r == UntitledEntry
  {
    if title != "" then title else UntitledEntry
  }

  /** The three faces above the mood slider. */
  datatype MoodFace = Frown | Meh | Smile

  /** The faces drawn in colour for a mood value. */
  function Highlighted(mood: int): (faces: set<MoodFace>)
    ensures Frown in faces <==> mood <= 3
    ensures Meh in faces <==> 3 < mood < 8
    ensures Smile in faces <==> mood >= 8
  {
    (if mood <= 3 then {Frown} else {}) + (if mood > 3 && mood < 8 then {Meh} else {}) + (if mood >= 8 then {Smile} else {})
  }

  /** Every mood lights exactly one face, and a higher mood never lights a lower face. */
  lemma ExactlyOneFace(mood: int)
    ensures |Highlighted(mood)| == 1
    ensures exists f :: Highlighted(mood) == {f}
  {
    if mood <= 3 {
      assert Highlighted(mood) == {Frown};
    } else if mood < 8 {
      assert Highlighted(mood) == {Meh};
    } else {
      assert Highlighted(mood) == {Smile};
    }
  }

  function FaceRank(f: MoodFace): nat {
    match f
    case Frown => 0
    case Meh => 1
    case Smile => 2
  }

  lemma FacesFollowMood(m1: int, m2: int, f1: MoodFace, f2: MoodFace)
    requires m1 <= m2 && f1 in Highlighted(m1) && f2 in Highlighted(m2)
    ensures FaceRank(f1) <= FaceRank(f2)
  {
  }

  predicate IsJournalEntry(n: Note) {
    n.kind == Journal || n.kind == Questionnaire
  }

  /** The journal list: the journal entries and check-ins among the notes, in their order. */
  function JournalEntries(notes: seq<Note>): (r: seq<Note>)
    ensures forall n :: n in r <==> n in notes && IsJournalEntry(n)
    ensures |r| <= |notes|
  {
    Collections.Filter(notes, IsJournalEntry)
  }

  /** The empty-journal message looks at all notes, not at the filtered list. */
  predicate ShowsEmptyMessage(notes: seq<Note>) {
    |notes| == 0
  }

  /**
   * The list shows no entry and yet the empty message is hidden exactly when there are notes and
   * every one of them is a session note.
   */
  lemma EmptyMessageIgnoresFilter(notes: seq<Note>)
    ensures JournalEntries(notes) == [] && !ShowsEmptyMessage(notes)
      <==> notes != [] && forall n :: n in notes ==> n.kind == SessionNote
  {
    var r := JournalEntries(notes);
    if r != [] {
      assert r[0] in r;
    }
  }

  class PatientDashboard {
    var newNoteTitle: string
    var newNoteContent: string
    var dailyMood: int

    constructor ()
      ensures newNoteTitle == "" && newNoteContent == "" && dailyMood == 5
    {
      newNoteTitle, newNoteContent, dailyMood := "", "", 5;
    }

    method EditNote(title: string, content: string)
      modifies this
      ensures newNoteTitle == title && newNoteContent == content && dailyMood == old(dailyMood)
    {
      newNoteTitle, newNoteContent := title, content;
    }

    /** The slider: `parseInt` of a range input between 1 and 10. */
    method SetMood(mood: int)
      requires 1 <= mood <= 10
      modifies this
      ensures dailyMood == mood && newNoteTitle == old(newNoteTitle) && newNoteContent == old(newNoteContent)
    {
      dailyMood := mood;
    }

    /**
     * `handleSaveNote`: blank content saves nothing and keeps the form; otherwise the draft goes
     * to `onSaveNote` with its title defaulted and both fields are cleared.
     */
    method SaveNote() returns (saved: Option<NoteDraft>)
      modifies this
      ensures SaveDisabled(old(newNoteContent)) ==>
        saved.None? && newNoteTitle == old(newNoteTitle) && newNoteContent == old(newNoteContent)
      ensures !SaveDisabled(old(newNoteContent)) ==>
        saved == Some(NoteDraft(DraftTitle(old(newNoteTitle)), old(newNoteContent)))
        && newNoteTitle == "" && newNoteContent == ""
      ensures dailyMood == old(dailyMood)
    {
      if Text.Trim(newNoteContent) == [] {
        return None;
      }
      saved := Some(NoteDraft(DraftTitle(newNoteTitle), newNoteContent));
      newNoteTitle := "";
      newNoteContent := "";
    }
  }
}
