/** The résumé analyzer page (`/analyzer`): one upload, the analysis it shows, and the
    `resumeAnalyses` history written only after a successful analysis. */
module Analyzer {
  import opened Common
  import opened Http
  import opened Browser
  import History
  import AnalyzeResumeRoute

  /** A saved analysis: the whole response, not only the analysis shown; `id` and `date`
      are left out. */
  datatype AnalysisRecord = AnalysisRecord(fileName: string, result: Json)

  const FailurePrefix: string := "Analysis failed"
  const FallbackMessage: string := "Failed to analyze resume"

  class AnalyzerPage {
    /** `result.analysis`, None while nothing (or `undefined`) is shown. */
    var analysis: Option<Json>
    var loading: bool
    var error: Option<string>
    /** The `resumeAnalyses` entry of the browser's storage, newest first. */
    var resumeAnalyses: seq<AnalysisRecord>

    constructor(stored: seq<AnalysisRecord>)
      ensures analysis.None? && !loading && error.None? && resumeAnalyses == stored
    {
      analysis := None;
      loading := false;
      error := None;
      resumeAnalyses := stored;
    }

    method BeginUpload()
      modifies this`loading, this`error
      ensures loading && error.None?
    {
      loading := true;
      error := None;
    }

    /** The page shows the reply's `analysis` member but saves the whole reply. */
    method CompleteUpload(file: UploadFile, reply: FetchReply)
      modifies this
      ensures !loading
      ensures reply.Delivered? ==>
                analysis == Member(reply.body, "analysis") && error == old(error)
                && resumeAnalyses == History.Push(old(resumeAnalyses), AnalysisRecord(file.name, reply.body))
      ensures !reply.Delivered? ==>
                analysis == old(analysis) && resumeAnalyses == old(resumeAnalyses)
                && error == Some(FailureText(FailurePrefix, FallbackMessage, reply))
    {
      match reply {
        case Delivered(result) =>
          analysis := Member(result, "analysis");
          resumeAnalyses := History.Push(resumeAnalyses, AnalysisRecord(file.name, result));
        case _ =>
          error := Some(FailureText(FailurePrefix, FallbackMessage, reply));
      }
      loading := false;
    }

    /** `handleFileUpload`: loading during the request, not after it. */
    method HandleFileUpload(file: UploadFile, reply: FetchReply) returns (sent: UploadForm)
      modifies this
      ensures sent == UploadForm(Some(file), None) && !loading
      ensures reply.Delivered? ==>
                analysis == Member(reply.body, "analysis") && error.None?
                && resumeAnalyses == History.Push(old(resumeAnalyses), AnalysisRecord(file.name, reply.body))
      ensures !reply.Delivered? ==>
                analysis == old(analysis) && resumeAnalyses == old(resumeAnalyses)
                && error == Some(FailureText(FailurePrefix, FallbackMessage, reply))
    {
      BeginUpload();
      sent := UploadForm(Some(file), None);
      CompleteUpload(file, reply);
    }
  }

  /** For the handler's success body the page shows exactly the model's analysis, while the
      record keeps the wrapper with its `success` flag. */
  lemma ShowsAnalysisSavesWrapper(a: Json, statusText: string)
    ensures ReplyOf(Response(200, AnalyzeResumeRoute.SuccessBody(a)), statusText)
            == Delivered(AnalyzeResumeRoute.SuccessBody(a))
    ensures Member(AnalyzeResumeRoute.SuccessBody(a), "analysis") == Some(a)
  {
  }
}
