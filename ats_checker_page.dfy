/** The ATS checker page (`/ats-checker`): one upload, its result, and the `atsChecks`
    history written only after a successful check. */
module AtsChecker {
  import opened Common
  import opened Http
  import opened Browser
  import History

  /** A saved check; its `id` and `date` are left out. */
  datatype AtsCheckRecord = AtsCheckRecord(fileName: string, result: Json)

  const FailurePrefix: string := "ATS check failed"
  const FallbackMessage: string := "Failed to check ATS compatibility"

  class AtsCheckerPage {
    var atsResults: Option<Json>
    var loading: bool
    var error: Option<string>
    /** The `atsChecks` entry of the browser's storage, newest first. */
    var atsChecks: seq<AtsCheckRecord>

    constructor(stored: seq<AtsCheckRecord>)
      ensures atsResults.None? && !loading && error.None? && atsChecks == stored
    {
      atsResults := None;
      loading := false;
      error := None;
      atsChecks := stored;
    }

    /** What `handleFileUpload` does before its request: loading, with no error shown. */
    method BeginUpload()
      modifies this`loading, this`error
      ensures loading && error.None?
    {
      loading := true;
      error := None;
    }

    /** What it does once the reply is in: the result and a new newest history entry on
        success; on failure only the error, so the history and the previous result stay. */
    method CompleteUpload(file: UploadFile, reply: FetchReply)
      modifies this
      ensures !loading
      ensures reply.Delivered? ==>
                atsResults == Some(reply.body) && error == old(error)
                && atsChecks == History.Push(old(atsChecks), AtsCheckRecord(file.name, reply.body))
      ensures !reply.Delivered? ==>
                atsResults == old(atsResults) && atsChecks == old(atsChecks)
                && error == Some(FailureText(FailurePrefix, FallbackMessage, reply))
    {
      match reply {
        case Delivered(result) =>
          atsResults := Some(result);
          atsChecks := History.Push(atsChecks, AtsCheckRecord(file.name, result));
        case _ =>
          error := Some(FailureText(FailurePrefix, FallbackMessage, reply));
      }
      loading := false;
    }

    /** `handleFileUpload`: sends the file alone and records the outcome. */
    method HandleFileUpload(file: UploadFile, reply: FetchReply) returns (sent: UploadForm)
      modifies this
      ensures sent == UploadForm(Some(file), None) && !loading
      ensures reply.Delivered? ==>
                atsResults == Some(reply.body) && error.None? && |atsChecks| <= History.Capacity
                && atsChecks == History.Push(old(atsChecks), AtsCheckRecord(file.name, reply.body))
      ensures !reply.Delivered? ==>
                atsResults == old(atsResults) && atsChecks == old(atsChecks)
                && error == Some(FailureText(FailurePrefix, FallbackMessage, reply))
    {
      BeginUpload();
      sent := UploadForm(Some(file), None);
      CompleteUpload(file, reply);
    }
  }
}
