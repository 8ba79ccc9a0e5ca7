/** What the five API handlers share: the response they return, the uploaded form, the
    MIME allowlist, and the oracle that stands for the hosted AI model. */
module Http {
  import opened Common

  /** `Response.json(body, { status })`. */
  datatype Response = Response(status: int, body: Json)

  /** What one request to a handler produced: the response, and the prompt it sent to the AI
      model, None when the handler answered without calling the model. */
  datatype HandlerResult = HandlerResult(response: Response, aiPrompt: Option<string>)

  /** The AI model's reply to the prompt: the parsed JSON content, or the message of the
      error thrown by the request, a non-ok status or `JSON.parse`. */
  type AiReply = Result<Json, string>

  /** The multipart form of an upload: `formData.get('file')` and `formData.get('jobDescription')`,
      each None when the field is absent. */
  datatype UploadForm = UploadForm(file: Option<UploadFile>, jobDescription: Option<string>)

  const PdfType: string := "application/pdf"
  const DocxType: string := "application/vnd.openxmlformats-officedocument.wordprocessingml.document"
  const MswordType: string := "application/msword"

  /** The MIME types the upload handlers and the upload component accept. */
  const AllowedTypes: seq<string> := [PdfType, DocxType, MswordType]

  /** `{ error: message }`. */
  function ErrorBody(message: string): (j: Json)
    ensures Member(j, "error") == Some(JString(message))
  {
    JObject([("error", JString(message))])
  }

  /** A response given without calling the AI model. */
  function Answer(status: int, message: string): (o: HandlerResult)
    ensures o.aiPrompt.None? && o.response.status == status
  {
    HandlerResult(Response(status, ErrorBody(message)), None)
  }

  /** The outcome of a handler that sent `prompt` and got `ai` back: the parsed reply unchanged
      with status 200, or a 500 with the handler's fixed message. */
  function AiOutcome(prompt: string, ai: AiReply, failure: string): (o: HandlerResult)
    ensures o.aiPrompt == Some(prompt)
    ensures ai.Ok? ==> o.response == Response(200, ai.value)
    ensures ai.Err? ==> o.response == Response(500, ErrorBody(failure))
  {
    match ai
    case Ok(reply) => HandlerResult(Response(200, reply), Some(prompt))
    case Err(_) => HandlerResult(Response(500, ErrorBody(failure)), Some(prompt))
  }
}
