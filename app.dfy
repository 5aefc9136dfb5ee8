/**
 * The top-level component (App.tsx): it owns the form's `studentData`, the generated report,
 * the loading flag and the error banner, and runs `handleGenerateReport`.
 *
 * The handler is async: everything before `await generateReport(...)` is `BeginGenerate`,
 * everything after it is `FinishGenerate`, which receives the settled promise.
 * `HandleGenerateReport` runs the two halves around `GeminiService.GenerateReport`.
 */
module App {
  import opened Types
  import GeminiService

  const NameRequiredMessage := "Please enter a student name."
  const GenerateFailedMessage :=
    "An error occurred while generating the report. Please check your connection and try again."

  const EmptyStudentData := StudentData("", "", "", "", "")

  class AppState {
    var studentData: StudentData
    var progressReport: string
    var isLoading: bool
    /** `null` is `None`. */
    var error: Option<string>

    /**
     * The banner only ever shows one of the two messages of this component, and the failure
     * message is never shown beside a report.
     */
    predicate Valid()
      reads this
    {
      (error.Some? ==> error.value == NameRequiredMessage || error.value == GenerateFailedMessage) &&
      (error == Some(GenerateFailedMessage) ==> progressReport == "")
    }

    /** The state while a request is out: loading, no banner, no report. */
    predicate Pending()
      reads this
    {
      isLoading && error == None && progressReport == ""
    }

    /** The initial `useState` values (:9-18). */
    constructor ()
      ensures studentData == EmptyStudentData && progressReport == "" && !isLoading && error == None
      ensures Valid()
    {
      studentData := EmptyStudentData;
      progressReport := "";
      isLoading := false;
      error := None;
    }

    /**
     * The handler up to the await (:21-28). Without a name it shows the name banner and stops,
     * leaving the report and the loading flag alone; otherwise it starts loading, clears the
     * banner and the report, and `called` says the generator is called with `studentData`.
     */
    method BeginGenerate() returns (called: bool)
      modifies this
      ensures called <==> old(studentData.studentName) != ""
      ensures !called ==> error == Some(NameRequiredMessage) && isLoading == old(isLoading) &&
                          progressReport == old(progressReport)
      ensures called ==> Pending()
      ensures studentData == old(studentData)
      ensures Valid()
    {
      if studentData.studentName == "" {
        error := Some(NameRequiredMessage);
        return false;
      }
      isLoading := true;
      error := None;
      progressReport := "";
      called := true;
    }

    /**
     * The handler after the await (:31-38): a resolved promise's text becomes the report, a
     * rejected one shows the generic failure banner and leaves the report empty; loading ends
     * either way.
     */
    method FinishGenerate(outcome: Awaited<string>)
      requires Pending()
      modifies this
      ensures outcome.Resolved? ==> progressReport == outcome.value && error == None
      ensures outcome.Rejected? ==> progressReport == "" && error == Some(GenerateFailedMessage)
      ensures !isLoading && studentData == old(studentData)
      ensures Valid()
    {
      match outcome {
        case Resolved(report) =>
          progressReport := report;
        case Rejected =>
          error := Some(GenerateFailedMessage);
      }
      isLoading := false;
    }

    /**
     * handleGenerateReport (:20-39), with `generateReport` given the key and the remote outcome.
     * `sent` is the prompt the remote model received: the prompt for the form as it was when the
     * button was pressed, and only when both the name and the key are present.
     */
    method HandleGenerateReport(apiKey: Option<string>, remote: GeminiService.RemoteOutcome)
      returns (sent: Option<string>)
      modifies this
      ensures studentData == old(studentData) && Valid()
      ensures old(studentData.studentName) == "" ==>
        sent == None && error == Some(NameRequiredMessage) && isLoading == old(isLoading) &&
        progressReport == old(progressReport)
      ensures old(studentData.studentName) != "" ==> !isLoading
      ensures old(studentData.studentName) != "" && apiKey.Some? && apiKey.value != "" ==>
        sent == Some(GeminiService.Prompt(old(studentData)))
      ensures old(studentData.studentName) != "" && apiKey.Some? && apiKey.value != "" && remote.Responded? ==>
        progressReport == remote.text && error == None
      ensures old(studentData.studentName) != "" && (apiKey.None? || apiKey.value == "" || remote.RemoteFailed?) ==>
        sent.Some? == (apiKey.Some? && apiKey.value != "") &&
        progressReport == "" && error == Some(GenerateFailedMessage)
    {
      var called := BeginGenerate();
      if !called {
        return None;
      }
      var result;
      result, sent := GeminiService.GenerateReport(studentData, apiKey, remote);
      var outcome: Awaited<string> := if result.Success? then Resolved(result.value) else Rejected;
      FinishGenerate(outcome);
    }
  }
}
