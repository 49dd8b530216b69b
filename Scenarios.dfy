/**
  Whole interactions, from the mic button to the record lists, with the speech engine's
  events and the parser's answer fixed.
 */
module Scenarios {
  import opened Js
  import opened JsString
  import opened Types
  import GeminiService
  import VoiceAssistant
  import StudentView
  import ProfessionalView

  /** A parse result for "I just applied to Google for a software engineer role". */
  const GoogleJob := VoiceResult(
    JobKind,
    Some(JobDraft(Text("Google"), Text("Software Engineer"), Text("Applied"), Absent)),
    None,
    Text("Logged application"))

  /** A stand-in for the hosted model and `JSON.parse` that reads every reply as
      `GoogleJob`. */
  function Classifier(text: string): Option<VoiceResult> {
    Some(GoogleJob)
  }

  lemma StubParse(reply: string)
    requires reply != ""
    ensures GeminiService.ParseVoiceCommand(GeminiService.Answered(Some(reply)), Classifier) == GoogleJob
  {
  }

  /** One result holding one utterance: the transcript is that utterance, and it is
      blank after normalising exactly when it was all white space. */
  lemma OneResult(spoken: string)
    ensures VoiceAssistant.WellFormed([[spoken]])
    ensures VoiceAssistant.Transcript([[spoken]]) == spoken
    ensures Trim(CollapseSpaces(spoken)) == [] <==> AllSpace(spoken)
  {
    var results := [[spoken]];
    assert VoiceAssistant.WellFormed(results);
    assert results[..|results| - 1] == [];
    assert VoiceAssistant.Transcript(results) == [] + spoken;
    assert [] + spoken == spoken;
    VoiceAssistant.CollapseKeepsBlankness(spoken);
  }

  /** Pressing the mic button, saying something and pressing it again: a blank
      utterance is reported, anything else is sent off, normalised, for parsing. */
  method SpeakAndStop(assistant: VoiceAssistant.Assistant, spoken: string) returns (request: Option<string>)
    requires assistant.Valid() && assistant.supported
    requires !assistant.isRecording && !assistant.isProcessing
    modifies assistant
    ensures assistant.Valid() && !assistant.isRecording
    ensures AllSpace(spoken) ==>
      request == None && !assistant.isProcessing && assistant.feedback == Some(VoiceAssistant.Failure(VoiceAssistant.NoSpeech))
    ensures !AllSpace(spoken) ==> request == Some(CollapseSpaces(spoken)) && assistant.isProcessing
  {
    var command, _ := assistant.Toggle();
    assert assistant.isRecording && !assistant.isProcessing;
    var results := [[spoken]];
    OneResult(spoken);
    assistant.OnResult(results);
    assert assistant.transcript == CollapseSpaces(spoken);
    assert assistant.isRecording;
    command, request := assistant.Toggle();
  }

  /** Recording a non-blank utterance and stopping sends it off; a parser that reads the
      reply as `GoogleJob` makes the assistant confirm and pass the job data on. */
  method AskAssistant(spoken: string, reply: string)
    returns (banner: Option<VoiceAssistant.Feedback>, event: Option<VoiceEvent>)
    requires !AllSpace(spoken) && reply != ""
    ensures banner == Some(VoiceAssistant.Success("Logged application"))
    ensures event == Some(JobParsed(GoogleJob.jobData))
  {
    var assistant := new VoiceAssistant.Assistant(true);
    var request := SpeakAndStop(assistant, spoken);
    var result := GeminiService.ParseVoiceCommand(GeminiService.Answered(Some(reply)), Classifier);
    StubParse(reply);
    event := assistant.ParseCompleted(result);
    banner := assistant.feedback;
  }

  /** The spoken application lands in both views: as the job itself for the student, and
      as its hiring team for the professional. */
  method VoiceJobScenario(spoken: string, reply: string, id: string, today: string)
    returns (banner: Option<VoiceAssistant.Feedback>, jobs: seq<JobApplication>, contacts: seq<Connection>)
    requires !AllSpace(spoken) && reply != ""
    ensures banner == Some(VoiceAssistant.Success("Logged application"))
    ensures jobs == [JobApplication(id, "Google", "Software Engineer", "Applied", today, ""), StudentView.SeedJob]
    ensures contacts == [
      Connection(id, "Hiring Team", "Software Engineer", "Google", "", "Job Interest: Applied. ",
                 Some("Applied"), today),
      ProfessionalView.SeedConnection]
  {
    var event;
    banner, event := AskAssistant(spoken, reply);
    var student := new StudentView.StudentView();
    var professional := new ProfessionalView.ProfessionalView();
    student.HandleVoiceData(event.value, id, today);
    HiringTeamNotes(id, today);
    professional.HandleVoiceData(event.value, id, today);
    jobs := student.jobs;
    contacts := professional.connections;
  }

  lemma HiringTeamNotes(id: string, today: string)
    ensures ProfessionalView.VoiceConnection(JobParsed(GoogleJob.jobData)).Some?
    ensures ProfessionalView.NewConnection(ProfessionalView.VoiceConnection(JobParsed(GoogleJob.jobData)).value, id, today)
         == Connection(id, "Hiring Team", "Software Engineer", "Google", "", "Job Interest: Applied. ",
                       Some("Applied"), today)
  {
    ProfessionalView.VoiceJobBecomesHiringTeam(GoogleJob.jobData.value, id, today);
  }

  /** Stopping with nothing but white space heard asks for no parse and reports it. */
  method SilentScenario(noise: string) returns (request: Option<string>, banner: Option<VoiceAssistant.Feedback>)
    requires AllSpace(noise)
    ensures request == None && banner == Some(VoiceAssistant.Failure(VoiceAssistant.NoSpeech))
  {
    var assistant := new VoiceAssistant.Assistant(true);
    request := SpeakAndStop(assistant, noise);
    banner := assistant.feedback;
  }

  /** A manual add in the student view with nothing filled in. */
  lemma BlankStudentAdd(id: string, today: string)
    ensures StudentView.NewJob(JobDraft(Absent, Absent, Absent, Absent), id, today)
         == JobApplication(id, "Unknown Company", "Unknown Role", "Applied", today, "")
  {
  }
}
