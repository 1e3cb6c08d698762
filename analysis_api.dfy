/**
 * The analysis hand-off (services/api.ts): the recording is posted to the analysis service;
 * the reply either carries the result as a JSON string, possibly wrapped in a markdown code
 * fence, or is the result object itself; every failure is replaced by a fixed demonstration
 * result. The HTTP exchange is an input to the model and `JSON.parse` is a parameter: a
 * partial function that gives `None` where the real one throws.
 */
module AnalysisApi {
  import opened Wrappers
  import opened Types

  /** The fence opener the first `replace` removes (regular expression /```json\n/g). */
  const Opener: string := "```json\n"
  /** The fence closer the second `replace` removes (regular expression /\n```/g). */
  const Closer: string := "\n```"

  predicate OccursAt(s: string, tok: string, i: nat) {
    i + |tok| <= |s| && s[i..i + |tok|] == tok
  }

  ghost predicate Contains(s: string, tok: string) {
    exists i: nat :: OccursAt(s, tok, i)
  }

  /**
   * `s.replace(/tok/g, '')` for a literal token: the string is scanned from the left, each
   * match is deleted and the scan resumes right after it.
   */
  function RemoveAll(s: string, tok: string): (r: string)
    requires |tok| > 0
    ensures |r| <= |s|
    decreases |s|
  {
    if |s| < |tok| then s
    else if s[..|tok|] == tok then RemoveAll(s[|tok|..], tok)
    else [s[0]] + RemoveAll(s[1..], tok)
  }

  /** The fence stripping of the analysis string: all openers go first, then all closers. */
  function Strip(s: string): string {
    RemoveAll(RemoveAll(s, Opener), Closer)
  }

  // ---------------------------------------------------------------------------------------
  // What a global replace removes: the pieces between the matches it finds.

  /** The pieces between the matches the left-to-right scan finds (`s.split(tok)`). */
  function Pieces(s: string, tok: string): (ps: seq<string>)
    requires |tok| > 0
    ensures |ps| > 0
    decreases |s|
  {
    if |s| < |tok| then [s]
    else if s[..|tok|] == tok then [""] + Pieces(s[|tok|..], tok)
    else
      var rest := Pieces(s[1..], tok);
      [[s[0]] + rest[0]] + rest[1..]
  }

  /** `ps.join(tok)`. */
  function Join(ps: seq<string>, tok: string): string
    requires |ps| > 0
  {
    if |ps| == 1 then ps[0] else ps[0] + tok + Join(ps[1..], tok)
  }

  /** `ps.join('')`. */
  function Concat(ps: seq<string>): string {
    if ps == [] then "" else ps[0] + Concat(ps[1..])
  }

  /** Splitting at the matches and joining with the token again gives back the input. */
  lemma {:induction false} JoinPieces(s: string, tok: string)
    requires |tok| > 0
    ensures Join(Pieces(s, tok), tok) == s
    decreases |s|
  {
    if |s| < |tok| {
    } else if s[..|tok|] == tok {
      var rest := Pieces(s[|tok|..], tok);
      JoinPieces(s[|tok|..], tok);
      assert Pieces(s, tok) == [""] + rest;
      assert ([""] + rest)[1..] == rest;
      assert s == tok + s[|tok|..];
    } else {
      var rest := Pieces(s[1..], tok);
      JoinPieces(s[1..], tok);
      assert Pieces(s, tok) == [[s[0]] + rest[0]] + rest[1..];
      JoinConsPiece(s[0], rest, tok);
      assert s == [s[0]] + s[1..];
    }
  }

  /** Prepending a character to the first piece prepends it to the joined text. */
  lemma JoinConsPiece(c: char, rest: seq<string>, tok: string)
    requires |rest| > 0
    ensures Join([[c] + rest[0]] + rest[1..], tok) == [c] + Join(rest, tok)
  {
    var ps := [[c] + rest[0]] + rest[1..];
    if |rest| > 1 {
      assert ps[1..] == rest[1..];
    }
  }

  /** The replace deletes exactly the matches: what is left is the pieces between them. */
  lemma {:induction false} RemoveAllIsConcatOfPieces(s: string, tok: string)
    requires |tok| > 0
    ensures RemoveAll(s, tok) == Concat(Pieces(s, tok))
    decreases |s|
  {
    if |s| < |tok| {
      assert Concat([s]) == s + Concat([]);
    } else if s[..|tok|] == tok {
      RemoveAllIsConcatOfPieces(s[|tok|..], tok);
      var ps := [""] + Pieces(s[|tok|..], tok);
      assert ps[1..] == Pieces(s[|tok|..], tok);
    } else {
      RemoveAllIsConcatOfPieces(s[1..], tok);
      var rest := Pieces(s[1..], tok);
      var ps := [[s[0]] + rest[0]] + rest[1..];
      assert ps[1..] == rest[1..];
      assert Concat(rest) == rest[0] + Concat(rest[1..]);
    }
  }

  /** Each piece of the first is a prefix of the input: the scan never reorders characters. */
  lemma {:induction false} FirstPieceIsPrefix(s: string, tok: string)
    requires |tok| > 0
    ensures var p := Pieces(s, tok)[0]; |p| <= |s| && p == s[..|p|]
    decreases |s|
  {
    if |s| >= |tok| && s[..|tok|] != tok {
      FirstPieceIsPrefix(s[1..], tok);
    }
  }

  /** No piece contains the token: the one pass removes every match it sees. */
  lemma {:induction false} PiecesAreTokenFree(s: string, tok: string)
    requires |tok| > 0
    ensures forall k :: 0 <= k < |Pieces(s, tok)| ==> !Contains(Pieces(s, tok)[k], tok)
    decreases |s|
  {
    if |s| < |tok| {
      forall i: nat | OccursAt(s, tok, i) ensures false { }
    } else if s[..|tok|] == tok {
      PiecesAreTokenFree(s[|tok|..], tok);
      var ps := [""] + Pieces(s[|tok|..], tok);
      forall k | 0 <= k < |ps| ensures !Contains(ps[k], tok) {
        if k == 0 {
          forall i: nat | OccursAt(ps[k], tok, i) ensures false { }
        } else {
          assert ps[k] == Pieces(s[|tok|..], tok)[k - 1];
        }
      }
    } else {
      PiecesAreTokenFree(s[1..], tok);
      var rest := Pieces(s[1..], tok);
      FirstPieceIsPrefix(s[1..], tok);
      assert rest[0] == s[1..|rest[0]| + 1];
      ExtendedPieceTokenFree(s, rest[0], tok);
      var ps := [[s[0]] + rest[0]] + rest[1..];
      forall k | 0 <= k < |ps| ensures !Contains(ps[k], tok) {
        if k > 0 {
          assert ps[k] == rest[k];
        }
      }
    }
  }

  /** A character that starts no match, followed by a token-free prefix of the rest, still holds no match. */
  lemma ExtendedPieceTokenFree(s: string, first: string, tok: string)
    requires |tok| > 0 && |s| >= |tok| && s[..|tok|] != tok
    requires |first| < |s| && first == s[1..|first| + 1]
    requires !Contains(first, tok)
    ensures !Contains([s[0]] + first, tok)
  {
    var p := [s[0]] + first;
    assert p == s[..|p|];
    forall i: nat | OccursAt(p, tok, i) ensures false {
      if i > 0 {
        assert p[i..i + |tok|] == first[i - 1..i - 1 + |tok|];
        assert OccursAt(first, tok, i - 1);
      }
    }
  }

  // ---------------------------------------------------------------------------------------
  // Stripping, case by case.

  /** A string holding no match is left as it is. */
  lemma {:induction false} RemoveAllNoMatch(s: string, tok: string)
    requires |tok| > 0
    requires !Contains(s, tok)
    ensures RemoveAll(s, tok) == s
    decreases |s|
  {
    if |s| >= |tok| {
      assert !OccursAt(s, tok, 0);
      forall i: nat | OccursAt(s[1..], tok, i) ensures false {
        assert s[1..][i..i + |tok|] == s[i + 1..i + 1 + |tok|];
        assert OccursAt(s, tok, i + 1);
      }
      RemoveAllNoMatch(s[1..], tok);
    }
  }

  /** A leading token is deleted and the scan goes on after it. */
  lemma RemoveAllLeading(s: string, tok: string)
    requires |tok| > 0
    ensures RemoveAll(tok + s, tok) == RemoveAll(s, tok)
  {
    assert (tok + s)[..|tok|] == tok;
    assert (tok + s)[|tok|..] == s;
  }

  /** A prefix in which no match starts comes through the replace unchanged. */
  lemma {:induction false} RemoveAllKeepsPrefix(a: string, b: string, tok: string)
    requires |tok| > 0
    requires forall i: nat :: i < |a| ==> !OccursAt(a + b, tok, i)
    ensures RemoveAll(a + b, tok) == a + RemoveAll(b, tok)
    decreases |a|
  {
    if a == [] {
      assert a + b == b;
    } else if |a + b| < |tok| {
    } else {
      assert !OccursAt(a + b, tok, 0);
      assert (a + b)[1..] == a[1..] + b;
      forall i: nat | i < |a[1..]| ensures !OccursAt(a[1..] + b, tok, i) {
        assert !OccursAt(a + b, tok, i + 1);
        if i + |tok| <= |a[1..] + b| {
          assert (a[1..] + b)[i..i + |tok|] == (a + b)[i + 1..i + 1 + |tok|];
        }
      }
      RemoveAllKeepsPrefix(a[1..], b, tok);
      assert a == [a[0]] + a[1..];
    }
  }

  /** A string containing neither token is returned unchanged. */
  lemma StripNoTokens(s: string)
    requires !Contains(s, Opener) && !Contains(s, Closer)
    ensures Strip(s) == s
  {
    RemoveAllNoMatch(s, Opener);
    RemoveAllNoMatch(s, Closer);
  }

  predicate EndsWithJsonTag(s: string) {
    |s| >= 7 && s[|s| - 7..] == "```json"
  }

  /** One disagreeing character rules a position out. */
  lemma MismatchAt(t: string, tok: string, i: nat, k: nat)
    requires k < |tok| && (i + |tok| <= |t| ==> t[i + k] != tok[k])
    ensures !OccursAt(t, tok, i)
  {
    if i + |tok| <= |t| {
      assert t[i..i + |tok|][k] == t[i + k];
    }
  }

  /** Appending the closer creates no opener unless the text ends in "```json". */
  lemma NoOpenerBeforeCloser(s: string)
    requires !Contains(s, Opener) && !EndsWithJsonTag(s)
    ensures !Contains(s + Closer, Opener)
  {
    var t := s + Closer;
    forall i: nat ensures !OccursAt(t, Opener, i) {
      if i + 8 <= |s| {
        assert t[i..i + 8] == s[i..i + 8];
        assert !OccursAt(s, Opener, i);
      } else if i + 8 <= |t| {
        var k := |s| - i;
        if k < 7 {
          MismatchAt(t, Opener, i, k);
        } else {
          assert t[i..i + 7] == s[|s| - 7..];
          assert Opener[..7] == "```json";
          assert t[i..i + 8][..7] == t[i..i + 7];
        }
      }
    }
  }

  /** The closer has no border, so no closer match can start inside the text before it. */
  lemma NoCloserStraddles(s: string)
    requires !Contains(s, Closer)
    ensures forall i: nat :: i < |s| ==> !OccursAt(s + Closer, Closer, i)
  {
    var t := s + Closer;
    forall i: nat | i < |s| ensures !OccursAt(t, Closer, i) {
      if i + 4 <= |s| {
        assert t[i..i + 4] == s[i..i + 4];
        assert !OccursAt(s, Closer, i);
      } else {
        MismatchAt(t, Closer, i, |s| - i);
      }
    }
  }

  /** The closer pass turns `s + Closer` back into `s`. */
  lemma RemoveTrailingCloser(s: string)
    requires !Contains(s, Closer)
    ensures RemoveAll(s + Closer, Closer) == s
  {
    NoCloserStraddles(s);
    RemoveAllKeepsPrefix(s, Closer, Closer);
    RemoveAllLeading("", Closer);
    assert Closer + "" == Closer;
  }

  /**
   * A fenced payload strips back to its text, as long as the text holds neither token and
   * does not itself end in "```json" (see FencedJsonTagCounterexample for why that is needed).
   */
  lemma StripFenced(s: string)
    requires !Contains(s, Opener) && !Contains(s, Closer) && !EndsWithJsonTag(s)
    ensures Strip(Opener + s + Closer) == s
  {
    assert Opener + s + Closer == Opener + (s + Closer);
    RemoveAllLeading(s + Closer, Opener);
    NoOpenerBeforeCloser(s);
    RemoveAllNoMatch(s + Closer, Opener);
    RemoveTrailingCloser(s);
  }

  /**
   * Without the last condition the round trip fails: "```json" holds neither token, yet
   * fencing it produces a second opener across the join, and stripping leaves "```".
   */
  lemma FencedJsonTagCounterexample()
    ensures !Contains("```json", Opener) && !Contains("```json", Closer)
    ensures Strip(Opener + "```json" + Closer) == "```"
  {
    var s := "```json";
    forall i: nat ensures !OccursAt(s, Closer, i) {
      MismatchAt(s, Closer, i, 0);
    }
    var t := Opener + s + Closer;
    assert t == Opener + (Opener + "```");
    RemoveAllLeading(Opener + "```", Opener);
    RemoveAllLeading("```", Opener);
    assert RemoveAll("```", Opener) == "```";
    assert RemoveAll("```", Closer) == "```";
  }

  /** Before the closer pass, a bare-fenced text holds no opener at all. */
  lemma BareFenceHasNoOpener(s: string)
    requires !Contains(s, Opener) && !EndsWithJsonTag(s)
    ensures !Contains("```\n" + (s + Closer), Opener)
  {
    var u := s + Closer;
    var t := "```\n" + u;
    NoOpenerBeforeCloser(s);
    forall i: nat ensures !OccursAt(t, Opener, i) {
      if i >= 4 {
        if i + 8 <= |t| {
          assert t[i..i + 8] == u[i - 4..i - 4 + 8];
        }
        assert !OccursAt(u, Opener, i - 4);
      } else {
        MismatchAt(t, Opener, i, 3 - i);
      }
    }
  }

  /** No closer starts inside the bare fence, unless the text itself begins with three backticks. */
  lemma NoCloserInBareFence(s: string)
    requires !(|s| >= 3 && s[..3] == "```")
    ensures forall i: nat :: i < 4 ==> !OccursAt("```\n" + (s + Closer), Closer, i)
  {
    var t := "```\n" + (s + Closer);
    forall i: nat | i < 4 ensures !OccursAt(t, Closer, i) {
      if i < 3 {
        MismatchAt(t, Closer, i, 0);
      } else if |s| >= 3 {
        assert t[3..7][1..] == s[..3];
        assert Closer[1..] == "```";
      } else {
        MismatchAt(t, Closer, 3, 1 + |s|);
      }
    }
  }

  /** Only the exact lower-case opener is removed: a bare "```\n" fence survives stripping. */
  lemma StripKeepsBareFence(s: string)
    requires !Contains(s, Opener) && !Contains(s, Closer) && !EndsWithJsonTag(s)
    requires !(|s| >= 3 && s[..3] == "```")
    ensures Strip("```\n" + s + Closer) == "```\n" + s
  {
    var bare := "```\n";
    var t := bare + (s + Closer);
    assert bare + s + Closer == t;
    BareFenceHasNoOpener(s);
    RemoveAllNoMatch(t, Opener);
    NoCloserInBareFence(s);
    RemoveAllKeepsPrefix(bare, s + Closer, Closer);
    RemoveTrailingCloser(s);
  }

  // ---------------------------------------------------------------------------------------
  // The request's outcome and its decoding.

  /**
   * A JSON value, as far as the upload looks into it. Neither `response.json()` nor `JSON.parse`
   * checks the value's shape, so a value of any shape can come back from either.
   */
  datatype Json =
    | Null
      // Every other value whose `analysis` member is a string.
    | WithAnalysisText(analysis: string)
      // A value of the analysis result's shape.
    | ResultValue(result: AnalysisResult)
      // Any other value: a number, an array, an object of another shape; only its text is kept.
    | OtherValue(text: string)

  /**
   * How the POST ended: `fetch` rejected, or a response with its `ok` flag and the decoded
   * body (`None` when `response.json()` rejects).
   */
  datatype HttpOutcome =
    | NetworkFailure
    | Response(ok: bool, body: Option<Json>)

  /**
   * The body of the `try`: `None` stands for a throw inside it. Reading `analysis` of `null`
   * throws; `parse` is `JSON.parse`, `None` where it throws.
   */
  function Decode(outcome: HttpOutcome, parse: string -> Option<Json>): Option<Json> {
    match outcome
    case NetworkFailure => None
    case Response(ok, body) =>
      if !ok then None
      else match body
        case None => None
        case Some(Null) => None
        case Some(WithAnalysisText(text)) => parse(Strip(text))
        case Some(data) => Some(data)
  }

  // The fallback's longer texts, one constant each.
  const FallbackSummary := "Simulation: The patient demonstrated clear signs of progress in emotional regulation. Primary stressors identified were work-life balance and social anxiety."
  const RelievedRemark := "I feel much better about the situation."
  const WorriedRemark := "But I still worry sometimes."
  const RelievedTone := "Steady, Calm"
  const WorriedTone := "Hesitant, Lower volume"
  const RelievedIntent := "Expressing relief"
  const WorriedIntent := "Admitting lingering insecurity"
  const SupportiveBehaviors := "Therapist validated patient feelings multiple times."
  const SettingDescription := "Indoor, quiet room"
  const ComfortSignals := "Patient appears comfortable"

  /** The fixed demonstration result every failure resolves to. */
  function Fallback(): AnalysisResult {
    AnalysisResult(
      FallbackSummary,
      [ VerbalCue("02:15", "Patient", RelievedRemark, RelievedTone, RelievedIntent),
        VerbalCue("05:30", "Patient", WorriedRemark, WorriedTone, WorriedIntent) ],
      [ NonverbalCue("02:15", "Patient", "Smile", "Open posture", "Happiness", Confidence("0.9")),
        NonverbalCue("05:30", "Patient", "Frown", "Looking down", "Worry", Confidence("0.85")) ],
      [ EmotionPoint("00:00", "Neutral", Confidence("0.7"), "Visual"),
        EmotionPoint("05:00", "Anxious", Confidence("0.6"), "Audio"),
        EmotionPoint("10:00", "Relieved", Confidence("0.9"), "Both") ],
      ConversationDynamics("Balanced", "High", "None", SupportiveBehaviors),
      EnvironmentContext(SettingDescription, ComfortSignals),
      "Positive")
  }

  /** What the fallback promises its reader: a positive sentiment, a summary, 2 + 2 cues, 3 emotion points, high rapport. */
  lemma FallbackShape()
    ensures var r := Fallback();
      && r.overallSentiment == "Positive" && |r.summary| > 0
      && |r.verbalCues| == 2 && |r.nonverbalCues| == 2 && |r.emotionsOverTime| == 3
      && r.conversationDynamics.rapportLevel == "High"
  {
  }

  /**
   * `uploadVideoForAnalysis`: it always yields a result. A failure anywhere in the `try`
   * (network, status, body, parse) gives the fallback; otherwise an `analysis` string is
   * stripped and parsed, and any other value is passed on as it is. Neither the parsed value nor
   * the passed-on one is checked to be an analysis result.
   */
  function UploadVideoForAnalysis(outcome: HttpOutcome, parse: string -> Option<Json>): Json {
    Decode(outcome, parse).GetOr(ResultValue(Fallback()))
  }

  /** A request that never reaches the server resolves to the fallback instead of rejecting. */
  lemma NetworkFailureFallsBack(parse: string -> Option<Json>)
    ensures UploadVideoForAnalysis(NetworkFailure, parse) == ResultValue(Fallback())
  {
  }

  /** An OK response without a readable body falls back too. */
  lemma MissingBodyFallsBack(parse: string -> Option<Json>)
    ensures UploadVideoForAnalysis(Response(true, None), parse) == ResultValue(Fallback())
  {
  }

  /** When the body decodes, the upload resolves to exactly what was decoded. */
  lemma DecodedPassesThrough(outcome: HttpOutcome, parse: string -> Option<Json>)
    requires Decode(outcome, parse).Some?
    ensures UploadVideoForAnalysis(outcome, parse) == Decode(outcome, parse).value
  {
  }

  /** Whatever fails to decode (network error, bad status, unreadable or unparsable body) resolves to the fallback. */
  lemma UndecodedFallsBack(outcome: HttpOutcome, parse: string -> Option<Json>)
    requires Decode(outcome, parse).None?
    ensures UploadVideoForAnalysis(outcome, parse) == ResultValue(Fallback())
  {
  }

  /** A non-OK status takes the fallback path, whatever the body says. */
  lemma NotOkFallsBack(body: Option<Json>, parse: string -> Option<Json>)
    ensures UploadVideoForAnalysis(Response(false, body), parse) == ResultValue(Fallback())
  {
  }

  /**
   * A non-null body without an `analysis` string comes back unchanged, whatever its shape: a
   * body that is not an analysis result reaches the caller as it is.
   */
  lemma DirectObjectPassesThrough(data: Json, parse: string -> Option<Json>)
    ensures !data.Null? && !data.WithAnalysisText? ==>
      UploadVideoForAnalysis(Response(true, Some(data)), parse) == data
    ensures data.OtherValue? ==> !UploadVideoForAnalysis(Response(true, Some(data)), parse).ResultValue?
  {
  }

  /** A `null` body makes reading its `analysis` throw, so it falls back. */
  lemma NullBodyFallsBack(parse: string -> Option<Json>)
    ensures UploadVideoForAnalysis(Response(true, Some(Null)), parse) == ResultValue(Fallback())
  {
  }

  /**
   * The fallback is always an analysis result, so a value of another shape can only come from
   * the server: either the body itself or what `JSON.parse` made of its stripped `analysis`.
   */
  lemma NonResultComesFromServer(outcome: HttpOutcome, parse: string -> Option<Json>)
    requires !UploadVideoForAnalysis(outcome, parse).ResultValue?
    ensures outcome.Response? && outcome.ok && outcome.body.Some?
    ensures var v := UploadVideoForAnalysis(outcome, parse);
      || (outcome.body.value == v && !v.Null? && !v.WithAnalysisText?)
      || (outcome.body.value.WithAnalysisText? && parse(Strip(outcome.body.value.analysis)) == Some(v))
  {
  }

  /**
   * A fenced JSON string in `analysis` decodes to what the parser makes of the text inside the
   * fence, and to the fallback when the parser rejects that text.
   */
  lemma FencedAnalysisDecodes(json: string, parse: string -> Option<Json>)
    requires !Contains(json, Opener) && !Contains(json, Closer) && !EndsWithJsonTag(json)
    ensures UploadVideoForAnalysis(Response(true, Some(WithAnalysisText(Opener + json + Closer))), parse)
            == parse(json).GetOr(ResultValue(Fallback()))
  {
    StripFenced(json);
  }
}
