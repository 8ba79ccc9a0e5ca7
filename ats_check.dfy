/** The ATS check handler (`POST /api/atsCheck`): file presence, the MIME allowlist, the
    placeholder résumé text chosen by type, the prompt that embeds it, and the outcome. */
module AtsCheckRoute {
  import opened Common
  import opened Http

  const NoFileMessage: string := "No file provided"
  const UnsupportedMessage: string := "Only PDF and DOCX files are supported"
  const FailureMessage: string := "Failed to check ATS compatibility. Please try again."

  const PdfLabel: string := "Sample resume text extracted from PDF: "
  const DocxLabel: string := "Sample resume text extracted from DOCX: "
  const PdfNote: string := ". This is a placeholder for actual PDF text extraction."
  const DocxNote: string := ". This is a placeholder for actual DOCX text extraction."
  /** The fixed sample résumé that follows the label (abbreviated). */
  const SampleResume: string := "\n\n      John Smith\n      Software Engineer\n      ...\n      "

  const PromptHead: string :=
    "You are an ATS (Applicant Tracking System) specialist. Analyze the following resume for ATS compatibility and provide a comprehensive assessment.\n\nResume Text:\n"
  /** The requested fields and the instructions after the résumé (abbreviated). */
  const PromptTail: string := "\n\nPlease analyze and return a JSON response with: ...\n\nRespond only with valid JSON."

  /** The text that stands in for extraction: the PDF-labelled text for a PDF, the
      DOCX-labelled text for every other allowed type; both name the file. */
  function PlaceholderText(file: UploadFile): (t: string)
    ensures file.mimeType == PdfType ==> t == PdfLabel + file.name + PdfNote + SampleResume
    ensures file.mimeType != PdfType ==> t == DocxLabel + file.name + DocxNote + SampleResume
    ensures Contains(t, file.name)
  {
    var tag := if file.mimeType == PdfType then PdfLabel else DocxLabel;
    var note := if file.mimeType == PdfType then PdfNote else DocxNote;
    ContainsInfix(tag, file.name, note + SampleResume);
    assert tag + file.name + (note + SampleResume) == tag + file.name + note + SampleResume;
    tag + file.name + note + SampleResume
  }

  function Prompt(resumeText: string): (p: string)
    ensures Contains(p, resumeText)
  {
    ContainsInfix(PromptHead, resumeText, PromptTail);
    PromptHead + resumeText + PromptTail
  }

  /** The handler. `form` is Err when reading the form data throws. */
  function Post(form: Result<UploadForm, string>, ai: AiReply): (o: HandlerResult)
    ensures form.Err? ==> o == Answer(500, FailureMessage)
    ensures form.Ok? && form.value.file.None? ==> o == Answer(400, NoFileMessage)
    ensures form.Ok? && form.value.file.Some? && form.value.file.value.mimeType !in AllowedTypes ==>
              o == Answer(400, UnsupportedMessage)
    ensures o.aiPrompt.Some? <==>
              form.Ok? && form.value.file.Some? && form.value.file.value.mimeType in AllowedTypes
    ensures o.aiPrompt.Some? ==>
              o.aiPrompt.value == Prompt(PlaceholderText(form.value.file.value))
              && Contains(o.aiPrompt.value, form.value.file.value.name)
    ensures o.aiPrompt.Some? && ai.Ok? ==> o.response == Response(200, ai.value)
    ensures o.aiPrompt.Some? && ai.Err? ==> o.response == Response(500, ErrorBody(FailureMessage))
  {
    match form
    case Err(_) => Answer(500, FailureMessage)
    case Ok(UploadForm(file, _)) =>
      if file.None? then Answer(400, NoFileMessage)
      else if file.value.mimeType !in AllowedTypes then Answer(400, UnsupportedMessage)
      else
        var resumeText := PlaceholderText(file.value);
        var prompt := Prompt(resumeText);
        ContainsTransitive(prompt, resumeText, file.value.name);
        AiOutcome(prompt, ai, FailureMessage)
  }
}
