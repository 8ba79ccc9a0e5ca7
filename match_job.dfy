/** The job-match handler (`POST /api/matchJob`): presence of the file and the job
    description, the MIME allowlist, the placeholder résumé text chosen by type, the prompt
    that embeds the résumé and then the description, and the outcome. */
module MatchJobRoute {
  import opened Common
  import opened Http

  const MissingInputMessage: string := "File and job description are required"
  const UnsupportedMessage: string := "Only PDF and DOCX files are supported"
  const FailureMessage: string := "Failed to analyze job match. Please try again."

  const PdfLabel: string := "Sample resume text extracted from PDF: "
  const DocxLabel: string := "Sample resume text extracted from DOCX: "
  const PdfNote: string := ". This is a placeholder for actual PDF text extraction."
  const DocxNote: string := ". This is a placeholder for actual DOCX text extraction."
  /** The fixed sample experience, skills and education that follow the label (abbreviated). */
  const SampleResume: string := "\n\n      Professional Experience:\n      ...\n      "

  const PromptHead: string :=
    "You are an expert job matching specialist. Compare the candidate's resume against the job description and provide a comprehensive analysis.\n\nResume:\n"
  const DescriptionHeading: string := "\n\nJob Description:\n"
  /** The requested fields and the instructions after the description (abbreviated). */
  const PromptTail: string := "\n\nPlease analyze and return a JSON response with: ...\n\nRespond only with valid JSON."

  /** The PDF-labelled placeholder for a PDF, the DOCX-labelled one for every other allowed type. */
  function PlaceholderText(file: UploadFile): (t: string)
    ensures file.mimeType == PdfType ==> t == PdfLabel + file.name + PdfNote + SampleResume
    ensures file.mimeType != PdfType ==> t == DocxLabel + file.name + DocxNote + SampleResume
    ensures Contains(t, file.name)
  {
    var tag := if file.mimeType == PdfType then PdfLabel else DocxLabel;
    var note := if file.mimeType == PdfType then PdfNote else DocxNote;
    ContainsInfix(tag, file.name, note + SampleResume);
    assert tag + file.name + (note + SampleResume) == tag + file.name + note + SampleResume;
    tag + file.name + note + SampleResume
  }

  /** The prompt holds the résumé text and, after it, the job description. */
  function Prompt(resumeText: string, jobDescription: string): (p: string)
    ensures OccursAt(p, resumeText, |PromptHead|)
    ensures OccursAt(p, jobDescription, |PromptHead| + |resumeText| + |DescriptionHeading|)
  {
    var p := PromptHead + resumeText + DescriptionHeading + jobDescription + PromptTail;
    assert p[|PromptHead|..|PromptHead| + |resumeText|] == resumeText;
    var k := |PromptHead| + |resumeText| + |DescriptionHeading|;
    assert p[k..k + |jobDescription|] == jobDescription;
    p
  }

  /** The handler. `form` is Err when reading the form data throws. */
  function Post(form: Result<UploadForm, string>, ai: AiReply): (o: HandlerResult)
    ensures form.Err? ==> o == Answer(500, FailureMessage)
    ensures form.Ok? && (form.value.file.None? || !TruthyString(form.value.jobDescription)) ==>
              o == Answer(400, MissingInputMessage)
    ensures form.Ok? && form.value.file.Some? && TruthyString(form.value.jobDescription)
            && form.value.file.value.mimeType !in AllowedTypes ==>
              o == Answer(400, UnsupportedMessage)
    ensures o.aiPrompt.Some? <==>
              form.Ok? && form.value.file.Some? && TruthyString(form.value.jobDescription)
              && form.value.file.value.mimeType in AllowedTypes
    ensures o.aiPrompt.Some? ==>
              o.aiPrompt.value == Prompt(PlaceholderText(form.value.file.value), form.value.jobDescription.value)
    ensures o.aiPrompt.Some? && ai.Ok? ==> o.response == Response(200, ai.value)
    ensures o.aiPrompt.Some? && ai.Err? ==> o.response == Response(500, ErrorBody(FailureMessage))
  {
    match form
    case Err(_) => Answer(500, FailureMessage)
    case Ok(UploadForm(file, jobDescription)) =>
      if file.None? || !TruthyString(jobDescription) then Answer(400, MissingInputMessage)
      else if file.value.mimeType !in AllowedTypes then Answer(400, UnsupportedMessage)
      else AiOutcome(Prompt(PlaceholderText(file.value), jobDescription.value), ai, FailureMessage)
  }

  /** The prompt sent for an accepted upload names the file before the job description. */
  lemma PromptOrder(file: UploadFile, jobDescription: string)
    ensures var r := PlaceholderText(file);
            var p := Prompt(r, jobDescription);
            OccursAt(p, r, |PromptHead|)
            && OccursAt(p, jobDescription, |PromptHead| + |r| + |DescriptionHeading|)
            && Contains(p, file.name)
  {
    var r := PlaceholderText(file);
    var p := Prompt(r, jobDescription);
    assert Contains(p, r);
    ContainsTransitive(p, r, file.name);
  }
}
