/** The job matching page (`/job-matching`): the selected résumé, the job description, the
    guard in front of the request, and the `jobMatches` history written after a success. */
module JobMatching {
  import opened Common
  import opened Http
  import opened Browser
  import History

  /** A saved match; its `id` and `date` are left out. */
  datatype JobMatchRecord = JobMatchRecord(fileName: string, jobTitle: Json, result: Json)

  const MissingInputMessage: string := "Please upload a resume and enter a job description"
  const DefaultTitle: string := "Job Matching Analysis"
  const FailurePrefix: string := "Job matching failed"
  const FallbackMessage: string := "Failed to analyze job match"

  /** `result.jobTitle || 'Job Matching Analysis'`: the reply's title when truthy, the default
      otherwise, so a saved record always has a truthy title. */
  function HistoryTitle(result: Json): (t: Json)
    ensures TruthyValue(Member(result, "jobTitle")) ==> t == Member(result, "jobTitle").value
    ensures !TruthyValue(Member(result, "jobTitle")) ==> t == JString(DefaultTitle)
    ensures Truthy(t)
  {
    var title := Member(result, "jobTitle");
    if TruthyValue(title) then title.value else JString(DefaultTitle)
  }

  class JobMatchingPage {
    var resumeFile: Option<UploadFile>
    var jobDescription: string
    var matchResults: Option<Json>
    var loading: bool
    var error: Option<string>
    /** The `jobMatches` entry of the browser's storage, newest first. */
    var jobMatches: seq<JobMatchRecord>

    constructor(stored: seq<JobMatchRecord>)
      ensures resumeFile.None? && jobDescription == "" && matchResults.None?
      ensures !loading && error.None? && jobMatches == stored
    {
      resumeFile := None;
      jobDescription := "";
      matchResults := None;
      loading := false;
      error := None;
      jobMatches := stored;
    }

    /** `handleResumeUpload`: the upload component's accepted file becomes the résumé. */
    method HandleResumeUpload(file: UploadFile)
      modifies this`resumeFile, this`error
      ensures resumeFile == Some(file) && error.None?
    {
      resumeFile := Some(file);
      error := None;
    }

    method HandleJobDescriptionChange(value: string)
      modifies this`jobDescription
      ensures jobDescription == value
    {
      jobDescription := value;
    }

    /** The Analyze button's `disabled`. */
    predicate AnalyzeDisabled()
      reads this
    {
      loading || resumeFile.None? || IsBlank(jobDescription)
    }

    /** `analyzeMatch`: without a résumé or with a blank description only the error is set;
        otherwise the file and the description are sent, and a success stores the result and
        a new newest history entry. `sent` is the form posted, None when none is. */
    method AnalyzeMatch(reply: FetchReply) returns (sent: Option<UploadForm>)
      modifies this`loading, this`error, this`matchResults, this`jobMatches
      ensures sent.Some? <==> old(resumeFile).Some? && !IsBlank(jobDescription)
      ensures !old(AnalyzeDisabled()) ==> sent.Some?
      ensures sent.None? ==>
                error == Some(MissingInputMessage) && loading == old(loading)
                && matchResults == old(matchResults) && jobMatches == old(jobMatches)
      ensures sent.Some? ==>
                sent.value == UploadForm(resumeFile, Some(jobDescription)) && !loading
                && TruthyString(sent.value.jobDescription)
      ensures sent.Some? && reply.Delivered? ==>
                matchResults == Some(reply.body) && error.None?
                && jobMatches == History.Push(old(jobMatches),
                                              JobMatchRecord(resumeFile.value.name, HistoryTitle(reply.body), reply.body))
      ensures sent.Some? && !reply.Delivered? ==>
                matchResults == old(matchResults) && jobMatches == old(jobMatches)
                && error == Some(FailureText(FailurePrefix, FallbackMessage, reply))
    {
      if resumeFile.None? || IsBlank(jobDescription) {
        error := Some(MissingInputMessage);
        return None;
      }
      loading := true;
      error := None;
      sent := Some(UploadForm(resumeFile, Some(jobDescription)));
      match reply {
        case Delivered(result) =>
          matchResults := Some(result);
          var record := JobMatchRecord(resumeFile.value.name, HistoryTitle(result), result);
          jobMatches := History.Push(jobMatches, record);
        case _ =>
          error := Some(FailureText(FailurePrefix, FallbackMessage, reply));
      }
      loading := false;
    }
  }
}
