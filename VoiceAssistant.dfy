/**
  The voice assistant: a state machine over `isRecording`, `isProcessing`, the
  transcript (kept both as displayed state and in `transcriptRef`) and the feedback
  banner, driven by the mic button, the speech engine's events and the end of a parse
  request.

  The speech engine is not modelled. Whether it exists is the `supported` constant, its
  events are the handler methods, and the `start()`/`stop()` calls made on it are
  returned as an `EngineCommand`. The parse request is returned as the text to parse,
  and its outcome is handed back to `ParseCompleted`.
 */
module VoiceAssistant {
  import opened Js
  import opened JsString
  import opened Types
  import GeminiService

  datatype Feedback = Success(msg: string) | Failure(msg: string)

  /** What `toggleRecording` asks of the speech engine. */
  datatype EngineCommand = NoCommand | Start | Stop

  const NotSupported := "Speech recognition not supported in this browser."
  const NoSpeech := "No speech detected."
  const MicDenied := "Microphone access denied."
  const NotUnderstood := "Could not understand context."
  const Processed := "Processed successfully!"

  /** Every result carries at least one alternative. */
  predicate WellFormed(results: seq<seq<string>>) {
    forall i :: 0 <= i < |results| ==> results[i] != []
  }

  /** The first alternative of every result, concatenated in order. */
  function Transcript(results: seq<seq<string>>): string
    requires WellFormed(results)
  {
    if results == [] then [] else Transcript(results[..|results| - 1]) + results[|results| - 1][0]
  }

  /** A later result event, whose list only grows, extends the text of an earlier one. */
  lemma {:induction false} TranscriptAppend(a: seq<seq<string>>, b: seq<seq<string>>)
    requires WellFormed(a) && WellFormed(b)
    ensures WellFormed(a + b)
    ensures Transcript(a + b) == Transcript(a) + Transcript(b)
  {
    if b != [] {
      var ab := a + b;
      var n := |b| - 1;
      assert ab[..|ab| - 1] == a + b[..n];
      TranscriptAppend(a, b[..n]);
    } else {
      assert a + b == a;
    }
  }

  /** Collapsing white-space runs leaves a transcript blank exactly when it was all white
      space, so the normalisation never changes whether stopping finds speech. */
  lemma CollapseKeepsBlankness(s: string)
    ensures Trim(CollapseSpaces(s)) == [] <==> AllSpace(s)
    ensures Trim(CollapseSpaces(s)) == [] <==> Trim(s) == []
  {
    CollapseAllSpace(s);
    TrimEmptyIffAllSpace(s);
    TrimEmptyIffAllSpace(CollapseSpaces(s));
  }

  /** The banner `handleProcessAI` shows for a parse result. */
  function Outcome(r: VoiceResult): (f: Feedback)
    ensures f.Failure? <==> r.kind == UnknownKind
    ensures f.msg != ""
    ensures Truthy(r.message) ==> f.msg == r.message.s
    ensures !Truthy(r.message) ==> f.msg == (if r.kind == UnknownKind then NotUnderstood else Processed)
  {
    if r.kind == UnknownKind then Failure(Or(r.message, NotUnderstood))
    else Success(Or(r.message, Processed))
  }

  /** The `onDataParsed` call `handleProcessAI` makes for a parse result: none for an
      `unknown` result; `jobData` for a job and `connectionData` for any other kind. */
  function Dispatch(r: VoiceResult): (ev: Option<VoiceEvent>)
    ensures ev.None? <==> r.kind == UnknownKind
    ensures r.kind == JobKind ==> ev == Some(JobParsed(r.jobData))
    ensures r.kind == ConnectionKind ==> ev == Some(ConnectionParsed(r.connectionData))
    ensures r.kind == OtherKind ==> ev == Some(OtherParsed(r.connectionData))
  {
    match r.kind
    case UnknownKind => None
    case JobKind => Some(JobParsed(r.jobData))
    case ConnectionKind => Some(ConnectionParsed(r.connectionData))
    case OtherKind => Some(OtherParsed(r.connectionData))
  }

  /** A request that failed, or came back empty, reaches no view and shows an error with
      the service's fixed message. */
  lemma FailedRequestsReachNoView(reply: GeminiService.Reply, parse: string -> Option<VoiceResult>)
    requires !GeminiService.HasText(reply)
    ensures Dispatch(GeminiService.ParseVoiceCommand(reply, parse)).None?
    ensures Outcome(GeminiService.ParseVoiceCommand(reply, parse))
         == Failure(if reply.Threw? then "Error processing AI request." else "Could not parse response.")
  {
  }

  /** A reply the parser cannot read reaches no view either. */
  lemma UnreadableRepliesReachNoView(text: string, parse: string -> Option<VoiceResult>)
    requires text != [] && parse(GeminiService.Clean(text)).None?
    ensures var r := GeminiService.ParseVoiceCommand(GeminiService.Answered(Some(text)), parse);
      Dispatch(r).None? && Outcome(r) == Failure("Error processing AI request.")
  {
  }

  class Assistant {
    /** Whether the browser has a speech engine (`recognitionRef.current` is set). */
    const supported: bool
    var isRecording: bool
    var isProcessing: bool
    var transcript: string
    var transcriptRef: string
    var feedback: Option<Feedback>

    /** The displayed transcript and the ref always agree; only a supported engine
        records; a parse request is never in flight while recording. */
    ghost predicate Valid()
      reads this
    {
      && transcript == transcriptRef
      && (isRecording ==> supported)
      && !(isRecording && isProcessing)
    }

    constructor (supported: bool)
      ensures Valid() && this.supported == supported
      ensures !isRecording && !isProcessing && transcript == "" && feedback == None
    {
      this.supported := supported;
      isRecording := false;
      isProcessing := false;
      transcript := "";
      transcriptRef := "";
      feedback := None;
    }

    /** `onresult`: the transcript is replaced by the first alternative of every result,
        joined, with each white-space run collapsed to one space. */
    method OnResult(results: seq<seq<string>>)
      requires Valid() && WellFormed(results)
      modifies this`transcript, this`transcriptRef
      ensures Valid()
      ensures transcript == CollapseSpaces(Transcript(results))
    {
      var finalTranscript := "";
      var i := 0;
      while i < |results|
        invariant 0 <= i <= |results|
        invariant finalTranscript == Transcript(results[..i])
      {
        assert results[..i + 1][..i] == results[..i];
        finalTranscript := finalTranscript + results[i][0];
        i := i + 1;
      }
      assert results[..|results|] == results;
      finalTranscript := CollapseSpaces(finalTranscript);
      transcript := finalTranscript;
      transcriptRef := finalTranscript;
    }

    /** `onerror`: only a refused microphone stops recording and shows an error; every
        other error changes nothing. */
    method OnError(code: string)
      requires Valid()
      modifies this`isRecording, this`feedback
      ensures Valid()
      ensures code == "not-allowed" || code == "service-not-allowed" ==>
        !isRecording && feedback == Some(Failure(MicDenied))
      ensures code != "not-allowed" && code != "service-not-allowed" ==>
        isRecording == old(isRecording) && feedback == old(feedback)
    {
      if code == "not-allowed" || code == "service-not-allowed" {
        isRecording := false;
        feedback := Some(Failure(MicDenied));
      }
    }

    /** `onend`: the engine stopped, so recording is off. */
    method OnEnd()
      requires Valid()
      modifies this`isRecording
      ensures Valid() && !isRecording
    {
      isRecording := false;
    }

    /** `toggleRecording`, clicked while no parse request is in flight (the button is
        disabled otherwise). The feedback is cleared first. Stopping asks for a parse of
        the transcript unless it is blank; starting clears the transcript, or reports a
        missing engine. */
    method Toggle() returns (command: EngineCommand, request: Option<string>)
      requires Valid() && !isProcessing
      modifies this`isRecording, this`isProcessing, this`transcript, this`transcriptRef, this`feedback
      ensures Valid()
      ensures old(isRecording) ==> command == Stop && !isRecording && transcript == old(transcript)
      ensures old(isRecording) && Trim(old(transcript)) != "" ==>
        request == Some(old(transcript)) && isProcessing && feedback == None
      ensures old(isRecording) && Trim(old(transcript)) == "" ==>
        request == None && !isProcessing && feedback == Some(Failure(NoSpeech))
      ensures !old(isRecording) ==> request == None && !isProcessing
      ensures !old(isRecording) && supported ==>
        command == Start && isRecording && transcript == "" && feedback == None
      ensures !old(isRecording) && !supported ==>
        command == NoCommand && !isRecording && transcript == old(transcript)
        && feedback == Some(Failure(NotSupported))
    {
      feedback := None;
      request := None;
      if isRecording {
        command := Stop;
        isRecording := false;
        if Trim(transcriptRef) != "" {
          isProcessing := true;
          request := Some(transcriptRef);
        } else {
          feedback := Some(Failure(NoSpeech));
        }
      } else {
        if !supported {
          command := NoCommand;
          feedback := Some(Failure(NotSupported));
          return;
        }
        transcript := "";
        transcriptRef := "";
        command := Start;
        isRecording := true;
      }
    }

    /** The end of `handleProcessAI`: processing is over, the banner shows the outcome and
        the view is called at most once. */
    method ParseCompleted(result: VoiceResult) returns (event: Option<VoiceEvent>)
      requires Valid() && isProcessing
      modifies this`isProcessing, this`feedback
      ensures Valid() && !isProcessing
      ensures feedback == Some(Outcome(result))
      ensures event == Dispatch(result)
    {
      isProcessing := false;
      feedback := Some(Outcome(result));
      event := Dispatch(result);
    }
  }
}
