/** The résumé analysis handler (`POST /api/analyzeResume`): the decoder that never throws,
    the flattening of the parsed PDF tree into text, the dispatch on the file's type, the
    20-character gate and the result wrapper. */
module AnalyzeResumeRoute {
  import opened Common
  import opened Http

  /** A text run `{ T }` of the parsed PDF; `T` is percent-encoded text. */
  datatype Run = Run(t: Option<string>)
  /** A positioned text `{ R }`: its runs. */
  datatype TextItem = TextItem(r: Option<seq<Run>>)
  /** A page `{ Texts }`. */
  datatype Page = Page(texts: Option<seq<TextItem>>)
  datatype FormImage = FormImage(pages: Option<seq<Page>>)
  /** The parser's data: the pages sit under `formImage.Pages` or directly under `Pages`. */
  datatype PdfData = PdfData(formImage: Option<FormImage>, pages: Option<seq<Page>>)

  /** The partial percent-decoder (`decodeURIComponent`): None where it throws. */
  type Decoder = string -> Option<string>

  const NoFileMessage: string := "No file uploaded"
  const NoTextMessage: string := "Could not extract text from resume"
  const ServerErrorMessage: string := "Server error during analysis"
  /** The least trimmed length of a résumé text that is sent to the AI model. */
  const MinTextLength: nat := 20

  const PromptHead: string := "\nAnalyze this resume and return ONLY valid JSON.\n\nResume content:\n"
  /** The requested JSON shape after the résumé (abbreviated). */
  const PromptTail: string := "\n\nReturn exactly this JSON:\n{ ... }\n"

  /** `safeDecode`: the decoded text, or the input unchanged where decoding fails. */
  function SafeDecode(decode: Decoder, s: string): (r: string)
    ensures decode(s).Some? ==> r == decode(s).value
    ensures decode(s).None? ==> r == s
  {
    match decode(s)
    case Some(d) => d
    case None => s
  }

  /** `pdfData?.formImage?.Pages || pdfData?.Pages || []`. An array, even an empty one, is truthy. */
  function PagesOf(d: PdfData): (ps: seq<Page>)
    ensures d.formImage.Some? && d.formImage.value.pages.Some? ==> ps == d.formImage.value.pages.value
    ensures (d.formImage.None? || d.formImage.value.pages.None?) && d.pages.Some? ==> ps == d.pages.value
    ensures (d.formImage.None? || d.formImage.value.pages.None?) && d.pages.None? ==> ps == []
  {
    if d.formImage.Some? && d.formImage.value.pages.Some? then d.formImage.value.pages.value
    else if d.pages.Some? then d.pages.value
    else []
  }

  // ---------------------------------------------------------------- the text, specified

  /** `safeDecode(r.T || "") + " "`. */
  function RunPiece(decode: Decoder, run: Run): string {
    SafeDecode(decode, if run.t.Some? then run.t.value else "") + " "
  }

  function RunsText(decode: Decoder, rs: seq<Run>): string {
    if rs == [] then "" else RunsText(decode, rs[..|rs| - 1]) + RunPiece(decode, rs[|rs| - 1])
  }

  /** A text without `R` adds nothing. */
  function ItemText(decode: Decoder, t: TextItem): string {
    if t.r.None? then "" else RunsText(decode, t.r.value)
  }

  function ItemsText(decode: Decoder, ts: seq<TextItem>): string {
    if ts == [] then "" else ItemsText(decode, ts[..|ts| - 1]) + ItemText(decode, ts[|ts| - 1])
  }

  /** A page without `Texts` adds nothing. */
  function PageText(decode: Decoder, p: Page): string {
    if p.texts.None? then "" else ItemsText(decode, p.texts.value)
  }

  function PagesText(decode: Decoder, ps: seq<Page>): string {
    if ps == [] then "" else PagesText(decode, ps[..|ps| - 1]) + PageText(decode, ps[|ps| - 1])
  }

  /** The text `extractPdfText` resolves to. */
  function PdfText(decode: Decoder, d: PdfData): string {
    Trim(PagesText(decode, PagesOf(d)))
  }

  /** The innermost `t.R.forEach`: each run's decoded text and a space appended to `text`. */
  method AppendRuns(text: string, runs: seq<Run>, decode: Decoder) returns (acc: string)
    ensures acc == text + RunsText(decode, runs)
  {
    acc := text;
    var k := 0;
    while k < |runs|
      invariant 0 <= k <= |runs|
      invariant acc == text + RunsText(decode, runs[..k])
    {
      assert runs[..k + 1][..k] == runs[..k];
      acc := acc + RunPiece(decode, runs[k]);
      k := k + 1;
    }
    assert runs[..k] == runs;
  }

  lemma ConcatAssoc(a: string, b: string, c: string)
    ensures (a + b) + c == a + (b + c)
  {
  }

  lemma ItemsTextStep(decode: Decoder, items: seq<TextItem>, j: nat)
    requires j < |items|
    ensures ItemsText(decode, items[..j + 1]) == ItemsText(decode, items[..j]) + ItemText(decode, items[j])
  {
    assert items[..j + 1][..j] == items[..j];
  }

  /** `page.Texts.forEach`: texts without `R` are skipped. */
  method AppendItems(text: string, items: seq<TextItem>, decode: Decoder) returns (acc: string)
    ensures acc == text + ItemsText(decode, items)
  {
    acc := text;
    var j := 0;
    while j < |items|
      invariant 0 <= j <= |items|
      invariant acc == text + ItemsText(decode, items[..j])
    {
      ItemsTextStep(decode, items, j);
      if items[j].r.Some? {
        ConcatAssoc(text, ItemsText(decode, items[..j]), RunsText(decode, items[j].r.value));
        acc := AppendRuns(acc, items[j].r.value, decode);
      } else {
        assert ItemsText(decode, items[..j]) + "" == ItemsText(decode, items[..j]);
      }
      j := j + 1;
    }
    assert items[..j] == items;
  }

  /** `extractPdfText` once the parser is ready: `pages.forEach` over the chosen pages,
      skipping pages without `Texts`, then the trim. */
  method ExtractPdfText(data: PdfData, decode: Decoder) returns (text: string)
    ensures text == PdfText(decode, data)
    ensures text == Trim(RunsText(decode, AllRuns(PagesOf(data))))
  {
    var acc := "";
    var pages := PagesOf(data);
    var i := 0;
    while i < |pages|
      invariant 0 <= i <= |pages|
      invariant acc == PagesText(decode, pages[..i])
    {
      assert pages[..i + 1][..i] == pages[..i];
      assert PagesText(decode, pages[..i + 1]) == PagesText(decode, pages[..i]) + PageText(decode, pages[i]);
      if pages[i].texts.Some? {
        acc := AppendItems(acc, pages[i].texts.value, decode);
      }
      i := i + 1;
    }
    assert pages[..i] == pages;
    PagesTextIsRunsText(decode, pages);
    text := Trim(acc);
  }

  // ---------------------------------------------------------------- the text, as a list of runs

  function ItemRuns(t: TextItem): seq<Run> {
    if t.r.None? then [] else t.r.value
  }

  function ItemsRuns(ts: seq<TextItem>): seq<Run> {
    if ts == [] then [] else ItemsRuns(ts[..|ts| - 1]) + ItemRuns(ts[|ts| - 1])
  }

  function PageRuns(p: Page): seq<Run> {
    if p.texts.None? then [] else ItemsRuns(p.texts.value)
  }

  /** Every run of the document, in page, then text, then run order. */
  function AllRuns(ps: seq<Page>): seq<Run> {
    if ps == [] then [] else AllRuns(ps[..|ps| - 1]) + PageRuns(ps[|ps| - 1])
  }

  /** The text of consecutive runs is the text of the first part followed by that of the second. */
  lemma {:induction false} RunsTextAppend(decode: Decoder, a: seq<Run>, b: seq<Run>)
    ensures RunsText(decode, a + b) == RunsText(decode, a) + RunsText(decode, b)
    decreases |b|
  {
    if b != [] {
      var b' := b[..|b| - 1];
      assert (a + b)[..|a + b| - 1] == a + b';
      RunsTextAppend(decode, a, b');
    } else {
      assert a + b == a;
    }
  }

  lemma {:induction false} ItemsTextIsRunsText(decode: Decoder, ts: seq<TextItem>)
    ensures ItemsText(decode, ts) == RunsText(decode, ItemsRuns(ts))
    decreases |ts|
  {
    if ts != [] {
      var init := ts[..|ts| - 1];
      ItemsTextIsRunsText(decode, init);
      RunsTextAppend(decode, ItemsRuns(init), ItemRuns(ts[|ts| - 1]));
    }
  }

  /** The flattened text is every run's decoded text followed by one space, in document order. */
  lemma {:induction false} PagesTextIsRunsText(decode: Decoder, ps: seq<Page>)
    ensures PagesText(decode, ps) == RunsText(decode, AllRuns(ps))
    decreases |ps|
  {
    if ps != [] {
      var init, last := ps[..|ps| - 1], ps[|ps| - 1];
      PagesTextIsRunsText(decode, init);
      if last.texts.Some? { ItemsTextIsRunsText(decode, last.texts.value); }
      RunsTextAppend(decode, AllRuns(init), PageRuns(last));
    }
  }

  lemma {:induction false} PagesTextAppend(decode: Decoder, a: seq<Page>, b: seq<Page>)
    ensures PagesText(decode, a + b) == PagesText(decode, a) + PagesText(decode, b)
    decreases |b|
  {
    if b != [] {
      var b' := b[..|b| - 1];
      assert (a + b)[..|a + b| - 1] == a + b';
      PagesTextAppend(decode, a, b');
    } else {
      assert a + b == a;
    }
  }

  /** A page without `Texts`, or whose texts all lack `R`, changes nothing wherever it sits. */
  lemma SilentPageContributesNothing(decode: Decoder, before: seq<Page>, p: Page, after: seq<Page>)
    requires p.texts.None? || forall i :: 0 <= i < |p.texts.value| ==> p.texts.value[i].r.None?
    ensures PagesText(decode, before + [p] + after) == PagesText(decode, before + after)
  {
    if p.texts.Some? { NoRunsNoText(decode, p.texts.value); }
    assert PageText(decode, p) == "";
    PagesTextAppend(decode, before + [p], after);
    assert (before + [p])[..|before|] == before;
    assert PagesText(decode, before + [p]) == PagesText(decode, before);
    PagesTextAppend(decode, before, after);
  }

  lemma {:induction false} NoRunsNoText(decode: Decoder, ts: seq<TextItem>)
    requires forall i :: 0 <= i < |ts| ==> ts[i].r.None?
    ensures ItemsText(decode, ts) == ""
    decreases |ts|
  {
    if ts != [] { NoRunsNoText(decode, ts[..|ts| - 1]); }
  }

  /** A run without `T` decodes the empty string, which `decodeURIComponent` leaves empty, so
      it adds only its space. */
  lemma MissingRunTextIsEmpty(decode: Decoder)
    requires decode("") == Some("")
    ensures RunPiece(decode, Run(None)) == " "
  {
  }

  /** A document without pages has no text. */
  lemma NoPagesNoText(decode: Decoder, d: PdfData)
    requires PagesOf(d) == []
    ensures PdfText(decode, d) == ""
  {
    assert Trim("") == "";
  }

  // ---------------------------------------------------------------- the handler

  /** The text `POST` obtains for `file`: the PDF text for a PDF, mammoth's text for a DOCX,
      and the initial empty string for every other type; Err when extraction throws. */
  function ExtractedText(file: UploadFile, pdf: Result<PdfData, string>, docx: Result<string, string>,
                         decode: Decoder): (r: Result<string, string>)
    ensures file.mimeType != PdfType && file.mimeType != DocxType ==> r == Ok("")
    ensures file.mimeType == PdfType ==> (pdf.Err? ==> r == Err(pdf.error)) && (pdf.Ok? ==> r == Ok(PdfText(decode, pdf.value)))
    ensures file.mimeType == DocxType ==> r == docx
  {
    if file.mimeType == PdfType then
      match pdf
      case Err(m) => Err(m)
      case Ok(d) => Ok(PdfText(decode, d))
    else if file.mimeType == DocxType then docx
    else Ok("")
  }

  /** `!extractedText || extractedText.trim().length < 20`. */
  predicate TooShort(text: string) {
    text == "" || |Trim(text)| < MinTextLength
  }

  function Prompt(text: string): (p: string)
    ensures OccursAt(p, text, |PromptHead|)
  {
    var p := PromptHead + text + PromptTail;
    assert p[|PromptHead|..|PromptHead| + |text|] == text;
    p
  }

  /** `{ success: true, analysis }`: the parsed reply is found under `analysis`. */
  function SuccessBody(analysis: Json): (j: Json)
    ensures Member(j, "success") == Some(JBool(true))
    ensures Member(j, "analysis") == Some(analysis)
  {
    LookupPair("success", JBool(true), "analysis", analysis);
    JObject([("success", JBool(true)), ("analysis", analysis)])
  }

  /** `{ error: "Server error during analysis", details: err.message }`. */
  function ServerError(message: string): (o: HandlerResult)
    ensures o.response.status == 500 && o.aiPrompt.None?
    ensures Member(o.response.body, "details") == Some(JString(message))
  {
    LookupPair("error", JString(ServerErrorMessage), "details", JString(message));
    HandlerResult(Response(500, JObject([("error", JString(ServerErrorMessage)), ("details", JString(message))])), None)
  }

  /** The handler. `form` is Err when reading the form data throws; `readError` is the message
      `file.arrayBuffer()` throws, for a file of any type, None when the bytes are read; `pdf`
      and `docx` are what the two parsing libraries give for those bytes; `ai` is the model's
      reply. */
  method Post(form: Result<UploadForm, string>, readError: Option<string>,
              pdf: Result<PdfData, string>, docx: Result<string, string>,
              decode: Decoder, ai: AiReply) returns (o: HandlerResult)
    ensures form.Err? ==> o == ServerError(form.error)
    ensures form.Ok? && form.value.file.None? ==> o == Answer(400, NoFileMessage)
    ensures form.Ok? && form.value.file.Some? && readError.Some? ==> o == ServerError(readError.value)
    ensures form.Ok? && form.value.file.Some? && readError.None?
            && ExtractedText(form.value.file.value, pdf, docx, decode).Err? ==>
              o == ServerError(ExtractedText(form.value.file.value, pdf, docx, decode).error)
    ensures form.Ok? && form.value.file.Some? && readError.None?
            && ExtractedText(form.value.file.value, pdf, docx, decode).Ok?
            && TooShort(ExtractedText(form.value.file.value, pdf, docx, decode).value) ==>
              o == Answer(400, NoTextMessage)
    ensures form.Ok? && form.value.file.Some? && readError.None?
            && form.value.file.value.mimeType != PdfType && form.value.file.value.mimeType != DocxType ==>
              o == Answer(400, NoTextMessage)
    ensures o.aiPrompt.Some? <==>
              form.Ok? && form.value.file.Some? && readError.None?
              && ExtractedText(form.value.file.value, pdf, docx, decode).Ok?
              && !TooShort(ExtractedText(form.value.file.value, pdf, docx, decode).value)
    ensures o.aiPrompt.Some? ==>
              o.aiPrompt.value == Prompt(ExtractedText(form.value.file.value, pdf, docx, decode).value)
    ensures o.aiPrompt.Some? && ai.Ok? ==> o.response == Response(200, SuccessBody(ai.value))
    ensures o.aiPrompt.Some? && ai.Err? ==> o.response == ServerError(ai.error).response
  {
    if form.Err? {
      return ServerError(form.error);
    }
    var file := form.value.file;
    if file.None? {
      return Answer(400, NoFileMessage);
    }
    if readError.Some? {
      return ServerError(readError.value);
    }
    ghost var expected := ExtractedText(file.value, pdf, docx, decode);
    var extractedText := "";
    if file.value.mimeType == PdfType {
      if pdf.Err? {
        return ServerError(pdf.error);
      }
      extractedText := ExtractPdfText(pdf.value, decode);
    } else if file.value.mimeType == DocxType {
      if docx.Err? {
        return ServerError(docx.error);
      }
      extractedText := docx.value;
    }
    assert expected == Ok(extractedText);
    if extractedText == "" || |Trim(extractedText)| < MinTextLength {
      return Answer(400, NoTextMessage);
    }
    var prompt := Prompt(extractedText);
    match ai
    case Err(m) =>
      o := HandlerResult(ServerError(m).response, Some(prompt));
    case Ok(analysis) =>
      o := HandlerResult(Response(200, SuccessBody(analysis)), Some(prompt));
  }

  /** A Word 97 file, which the other upload handlers accept, is refused here without a call
      to the AI model. */
  lemma MswordRefused(name: string, size: nat, pdf: Result<PdfData, string>, docx: Result<string, string>,
                      decode: Decoder)
    ensures ExtractedText(UploadFile(name, MswordType, size), pdf, docx, decode) == Ok("")
    ensures TooShort("")
  {
  }
}
