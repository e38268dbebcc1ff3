/**
 * The steps the invoice endpoints share: the accepted content types, text
 * extraction, the emptiness test, the fence sanitiser, the parse-failure message,
 * the schema-echo guard, record construction, and the responses they produce.
 *
 * What the handlers call but do not own (PyMuPDF, Tesseract, the model clients,
 * `json.loads`, and the wording of exceptions Python raises) is given to them as a
 * `Services` value.
 */
module Harvest {
  import opened Wrappers
  import opened PyText
  import opened JsonValues
  import opened Schemas
  import opened Extraction

  const Pdf := "application/pdf"
  const Jpeg := "image/jpeg"
  const Png := "image/png"

  /** The content types the endpoints accept: the PDF type and two image types. */
  predicate IsSupported(contentType: string)
    ensures IsSupported(contentType) <==>
      contentType == Pdf || (StartsWith(contentType, "image/") && contentType[6..] in {"jpeg", "png"})
  {
    contentType == Pdf || contentType == Jpeg || contentType == Png
  }

  datatype Body = Detail(text: string) | Invoice(record: InvoiceRecord)

  datatype Response = Response(status: int, body: Body)

  /** The two text extractors: PyMuPDF for a PDF, Tesseract OCR for an image. */
  datatype Extractor = PdfText | ImageOcr

  /**
   * The calls a request made into code outside the repository, with what each was
   * given. The handler makes them in this order: reading the upload and extracting
   * its text, the model call, the JSON decode, and the record construction.
   */
  datatype Trace = Trace(
    extractor: Option<Extractor>,  // the upload was read and handed to this extractor
    modelInput: Option<string>,    // the user message sent to the model
    decoderInput: Option<string>,  // the text given to `json.loads`
    validated: bool)               // `InvoiceSchema(**data)` was attempted

  /** A later call is made only after the earlier ones. */
  predicate InOrder(t: Trace)
  {
    && (t.modelInput.Some? ==> t.extractor.Some?)
    && (t.decoderInput.Some? ==> t.modelInput.Some?)
    && (t.validated ==> t.decoderInput.Some?)
  }

  const NoCalls := Trace(None, None, None, false)

  datatype Handled = Handled(response: Response, trace: Trace)

  /** Exceptions Python itself raises inside the handler. */
  datatype PyFault =
    | NotIterable(value: Json)     // TypeError from `"$defs" in value`
    | NoGetAttribute(value: Json)  // AttributeError from `value.get("type")`
    | NotAMapping(value: Json)     // TypeError from `InvoiceSchema(**value)`
    | Invalid(errors: seq<FieldError>)  // Pydantic's ValidationError

  /**
   * What `json.loads` gives: a value, a `json.JSONDecodeError`, or another exception
   * it raises (a ValueError for an integer literal past the digit limit, a
   * RecursionError for nesting too deep). Each failure carries `str(e)`.
   */
  datatype Decoded =
    | Parsed(data: Json)
    | NotJson(message: string)
    | LoadFailed(message: string)

  /**
   * The calls the handler makes into code outside the repository. Each failure
   * carries `str(e)` of the exception raised.
   */
  datatype Services = Services(
    pdfPages: Result<seq<string>, string>,    // PyMuPDF: the text of each page, in order
    ocrText: Result<string, string>,          // Tesseract: the recognised text
    model: string -> Result<string, string>,  // the chat call on the user message: the reply content
    parse: string -> Decoded,                 // json.loads
    describe: PyFault -> string)              // str(e) for the exceptions Python raises

  const UnsupportedFormat := Response(400, Detail("Unsupported file format."))
  const NoReadableText := Response(422, Detail("No readable text found in document."))
  const SchemaEchoed :=
    Response(500, Detail("LLM returned schema definition instead of invoice data. Please check the prompt."))

  const ParseFailurePrefix := "Failed to parse LLM response as JSON: "
  const ExcerptLabel := "\nResponse was: "
  const ExcerptLimit := 500

  /** The catch-all: any exception other than an HTTPException. */
  function ProcessingFailed(message: string): (r: Response)
    ensures r.status == 500 && r.body.Detail? && StartsWith(r.body.text, "Processing failed: ")
    ensures r.body.text[|"Processing failed: "|..] == message
  {
    Response(500, Detail("Processing failed: " + message))
  }

  /** The JSON decode failure, with the decoder's message and the start of the text it was given. */
  function ParseFailed(message: string, text: string): (r: Response)
    ensures r.status == 500 && r.body.Detail? && StartsWith(r.body.text, ParseFailurePrefix)
  {
    Response(500, Detail(ParseFailurePrefix + message + ExcerptLabel + Take(text, ExcerptLimit)))
  }

  /** The parse-failure detail names the decoder's message and at most 500 leading characters of the text. */
  lemma ParseFailedDetail(message: string, text: string)
    ensures ParseFailed(message, text).status == 500
    ensures var detail := ParseFailed(message, text).body.text;
      var head := ParseFailurePrefix + message + ExcerptLabel;
      && StartsWith(detail, head)
      && |detail| - |head| == (if |text| <= 500 then |text| else 500)
      && StartsWith(text, detail[|head|..])
  {
    var head := ParseFailurePrefix + message + ExcerptLabel;
    var detail := ParseFailed(message, text).body.text;
    assert detail == head + Take(text, ExcerptLimit);
    assert detail[..|head|] == head;
    assert detail[|head|..] == Take(text, ExcerptLimit);
  }

  /** The extractor a content type is routed to: among the accepted types, the images go to OCR. */
  function ExtractorFor(contentType: string): (e: Extractor)
    ensures IsSupported(contentType) ==> (e == ImageOcr <==> StartsWith(contentType, "image/"))
  {
    if contentType == Pdf then
      assert contentType[0] == 'a';
      PdfText
    else
      assert Jpeg[..6] == "image/" && Png[..6] == "image/";
      ImageOcr
  }

  /** The raw text of the upload: the concatenated pages of a PDF, the OCR text of an image. */
  function ExtractText(contentType: string, services: Services): (r: Result<string, string>)
    ensures contentType == Pdf && services.pdfPages.Success? ==> r == Success(Concat(services.pdfPages.value))
    ensures contentType != Pdf ==> r == services.ocrText
  {
    if contentType == Pdf then
      match services.pdfPages
      case Success(pages) => Success(Concat(pages))
      case Failure(message) => Failure(message)
    else services.ocrText
  }

  /** `raw_text.strip()` is not empty: some character is not whitespace. */
  predicate HasReadableText(rawText: string)
    ensures HasReadableText(rawText) <==> !AllWhitespace(rawText)
  {
    StripEmptyIff(rawText);
    Strip(rawText) != []
  }

  const Fence := "```"
  const JsonFence := "```json"

  /**
   * How many leading characters of an already stripped reply are fence markers. The
   * "```json" test and the "```" test are separate, so "```json```" counts as both.
   */
  function LeadingFenceLength(s: string): (n: nat)
    ensures n <= |s|
    ensures n == 0 <==> !StartsWith(s, Fence)
  {
    if StartsWith(s, JsonFence) then
      (if StartsWith(s[7..], Fence) then 10 else 7)
    else if StartsWith(s, Fence) then 3
    else 0
  }

  /** A stripped reply without its leading fence markers and its trailing "```". */
  function Unfenced(s: string): (r: string)
    ensures |r| <= |s|
  {
    var rest := s[LeadingFenceLength(s)..];
    if EndsWith(rest, Fence) then rest[..|rest| - 3] else rest
  }

  /**
   * The reply text as it is handed to the JSON decoder: stripped, cut free of a
   * leading "```json" and then a leading "```", cut free of a trailing "```", and
   * stripped again.
   */
  function Sanitized(raw: string): (r: string)
    ensures Trimmed(r) && |r| <= |raw|
  {
    Strip(Unfenced(Strip(raw)))
  }

  /** The sanitiser as the handler runs it: one reassignment of the reply text per step. */
  method Sanitize(raw: string) returns (content: string)
    ensures content == Sanitized(raw)
  {
    content := Strip(raw);
    ghost var stripped := content;
    if StartsWith(content, JsonFence) {
      content := content[7..];
    }
    if StartsWith(content, Fence) {
      assert StartsWith(stripped, JsonFence) ==> content[3..] == stripped[10..];
      content := content[3..];
    }
    assert content == stripped[LeadingFenceLength(stripped)..];
    if EndsWith(content, Fence) {
      content := content[..|content| - 3];
    }
    assert content == Unfenced(stripped);
    content := Strip(content);
  }

  /** What `Unfenced` keeps is one slice of its argument. */
  lemma UnfencedIsSlice(s: string) returns (lo: nat)
    ensures lo + |Unfenced(s)| <= |s| && Unfenced(s) == s[lo..lo + |Unfenced(s)|]
  {
    lo := LeadingFenceLength(s);
  }

  /** What the sanitiser returns is a contiguous piece of the reply. */
  lemma SanitizedIsSlice(raw: string) returns (lo: nat, hi: nat)
    ensures lo <= hi <= |raw| && Sanitized(raw) == raw[lo..hi]
  {
    var a := StripCutsWhitespace(raw);
    var b := UnfencedIsSlice(Strip(raw));
    var c := StripCutsWhitespace(Unfenced(Strip(raw)));
    lo, hi := SliceChain(raw, Strip(raw), Unfenced(Strip(raw)), Sanitized(raw), a, b, c);
  }

  /**
   * The sanitiser changes nothing beyond `strip()` exactly when the stripped reply
   * neither starts nor ends with "```".
   */
  lemma SanitizedUnchangedIff(raw: string)
    ensures Sanitized(raw) == Strip(raw) <==> !StartsWith(Strip(raw), Fence) && !EndsWith(Strip(raw), Fence)
  {
    var s := Strip(raw);
    if !StartsWith(s, Fence) && !EndsWith(s, Fence) {
      assert s[0..] == s;
      StripIdempotent(raw);
    } else if StartsWith(s, Fence) {
      assert |Unfenced(s)| <= |s| - 3;
    } else {
      assert s[0..] == s;
      assert |Unfenced(s)| == |s| - 3;
    }
  }

  lemma JsonFenceLineUnfenced(content: string)
    ensures Unfenced("```json\n" + content + "\n```") == "\n" + content + "\n"
  {
    var wrapped := "```json\n" + content + "\n```";
    assert wrapped[..7] == JsonFence;
    assert wrapped[7..][0] == '\n';
    var rest := wrapped[7..];
    assert rest == "\n" + content + "\n```";
    assert EndsWith(rest, Fence);
    assert rest[..|rest| - 3] == "\n" + content + "\n";
  }

  /** A reply wrapped in a "```json" fence on lines of its own sanitises to its stripped content. */
  lemma FencedReplyUnwrapped(content: string)
    ensures Sanitized("```json\n" + content + "\n```") == Strip(content)
  {
    var wrapped := "```json\n" + content + "\n```";
    assert wrapped[0] == '`' && wrapped[|wrapped| - 1] == '`';
    StripTrimmed(wrapped);
    JsonFenceLineUnfenced(content);
    StripIgnoresPadding("\n", content, "\n");
  }

  lemma DoubleOpeningUnfenced(content: string)
    ensures Unfenced("```json```" + content + "```") == content
  {
    var wrapped := "```json```" + content + "```";
    assert wrapped[..7] == JsonFence;
    assert wrapped[7..][..3] == Fence;
    var rest := wrapped[10..];
    assert rest == content + "```";
    assert EndsWith(rest, Fence);
    assert rest[..|rest| - 3] == content;
  }

  /** Both leading tests fire in turn: "```json```" loses seven and then three characters. */
  lemma BothLeadingFencesDropped(content: string)
    ensures Sanitized("```json```" + content + "```") == Strip(content)
  {
    var wrapped := "```json```" + content + "```";
    assert wrapped[0] == '`' && wrapped[|wrapped| - 1] == '`';
    StripTrimmed(wrapped);
    DoubleOpeningUnfenced(content);
  }

  /** Sanitising again changes nothing when the first pass left no fence at either end. */
  lemma SanitizedStableWithoutFence(raw: string)
    requires !StartsWith(Sanitized(raw), Fence) && !EndsWith(Sanitized(raw), Fence)
    ensures Sanitized(Sanitized(raw)) == Sanitized(raw)
  {
    var r := Sanitized(raw);
    StripTrimmed(r);
    SanitizedUnchangedIff(r);
  }

  lemma OuterLayerRemoved()
    ensures Sanitized("``````{}``````") == "```{}```"
  {
    var outer := "``````{}``````";
    StripTrimmed(outer);
    assert !StartsWith(outer, JsonFence) by { assert outer[3] == '`'; }
    assert outer[..3] == Fence;
    assert outer[3..] == "```{}``````";
    assert "```{}``````"[..8] == "```{}```";
    StripTrimmed("```{}```");
  }

  lemma InnerLayerRemoved()
    ensures Sanitized("```{}```") == "{}"
  {
    var inner := "```{}```";
    StripTrimmed(inner);
    assert !StartsWith(inner, JsonFence) by { assert inner[3] == '{'; }
    assert inner[..3] == Fence;
    assert inner[3..] == "{}```";
    assert "{}```"[..2] == "{}";
    StripTrimmed("{}");
  }

  /** One pass removes only one layer: a doubly fenced reply keeps its inner fence, so sanitising is not idempotent. */
  lemma SanitizerRemovesOneLayer()
    ensures Sanitized("``````{}``````") == "```{}```"
    ensures Sanitized(Sanitized("``````{}``````")) == "{}"
  {
    OuterLayerRemoved();
    InnerLayerRemoved();
  }

  /** The echo guard's outcome: let through, reject as a schema echo, or an exception. */
  datatype EchoVerdict = Clear | SchemaEcho | Raised(fault: PyFault)

  /** A dict that looks like a JSON schema: a "$defs" key, or "type" holding the string "object". */
  predicate LooksLikeSchema(fields: map<string, Json>)
  {
    "$defs" in fields || ("type" in fields && fields["type"] == Str("object"))
  }

  /**
   * `"$defs" in data or ("type" in data and data.get("type") == "object")`, evaluated
   * as Python does, on whatever value the decoder produced.
   */
  function EchoCheck(data: Json): (v: EchoVerdict)
    ensures data.Obj? ==> v != Clear || !LooksLikeSchema(data.fields)
    ensures data.Obj? ==> (v == SchemaEcho <==> LooksLikeSchema(data.fields)) && !v.Raised?
    ensures data.Str? ==> (v == SchemaEcho <==> IsSubstring("$defs", data.text))
    ensures data.Arr? ==> (v == SchemaEcho <==> Str("$defs") in data.elems)
    ensures data.Null? || data.Bool? || data.Num? ==> v == Raised(NotIterable(data))
  {
    match Contains(data, "$defs")
    case None => Raised(NotIterable(data))
    case Some(true) => SchemaEcho
    case Some(false) =>
      if Contains(data, "type") != Some(true) then Clear
      else if data.Obj? then (if data.fields["type"] == Str("object") then SchemaEcho else Clear)
      else Raised(NoGetAttribute(data))
  }

  /** `InvoiceSchema(**data)`: only a dict can be unpacked, and it must validate. */
  function BuildInvoice(data: Json): (r: Result<InvoiceRecord, PyFault>)
    ensures r.Success? <==> data.Obj? && ValidateInvoice(data.fields).Success?
    ensures r.Success? ==> r.value == ValidateInvoice(data.fields).value
    ensures !data.Obj? ==> r == Failure(NotAMapping(data))
  {
    if !data.Obj? then Failure(NotAMapping(data))
    else match ValidateInvoice(data.fields)
      case Success(record) => Success(record)
      case Failure(errors) => Failure(Invalid(errors))
  }

  /** The serialised form of any record passes the echo guard. */
  lemma RecordJsonPassesEchoGuard(record: InvoiceRecord)
    ensures !LooksLikeSchema(RecordToJson(record))
    ensures EchoCheck(Obj(RecordToJson(record))) == Clear
  {
    assert "$defs" !in FieldNames && "type" !in FieldNames;
  }
}
