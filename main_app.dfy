/**
 * The single-file application's endpoint `POST /process-invoice`, backed by the
 * locally hosted model: content-type check, extraction, the emptiness check, the
 * model call, the fence sanitiser, decoding, the schema-echo guard and record
 * construction, with every failure mapped to an HTTP status and detail.
 */
module MainApp {
  import opened Wrappers
  import opened PyText
  import opened JsonValues
  import opened Schemas
  import opened Extraction
  import opened Harvest

  const UserPrefix := "Extract invoice data from this text:\n\n"

  /** The user message: the instruction followed by the extracted text, untruncated. */
  function UserMessage(rawText: string): (message: string)
    ensures StartsWith(message, UserPrefix) && |message| == |UserPrefix| + |rawText|
    ensures message[|UserPrefix|..] == rawText
  {
    UserPrefix + rawText
  }

  /**
   * One request. The 422, parse-failure and schema-echo responses are HTTPExceptions
   * raised inside the `try` and re-raised as they are; every other exception becomes
   * a 500 "Processing failed: ...".
   *
   * The contract: every supported upload is read and routed to its extractor; the
   * model is called only on readable text and with all of it; the decoder sees the
   * sanitised reply; 422 means blank text; a 200 carries the record validated from a
   * decoded dict that passed the echo guard; every 500 is a schema echo, a parse
   * failure or a wrapped exception.
   */
  function ProcessInvoice(contentType: string, services: Services): (h: Handled)
    ensures h.response.status in {200, 400, 422, 500}
    ensures h.response.status == 200 <==> h.response.body.Invoice?
    ensures InOrder(h.trace)
    ensures h.trace.extractor == (if IsSupported(contentType) then Some(ExtractorFor(contentType)) else None)
    ensures h.trace.modelInput.Some? ==>
      && ExtractText(contentType, services).Success?
      && HasReadableText(ExtractText(contentType, services).value)
      && h.trace.modelInput.value == UserMessage(ExtractText(contentType, services).value)
    ensures h.trace.decoderInput.Some? ==>
      && services.model(h.trace.modelInput.value).Success?
      && h.trace.decoderInput.value == Sanitized(services.model(h.trace.modelInput.value).value)
    ensures h.response.status == 422 <==>
      IsSupported(contentType) && ExtractText(contentType, services).Success?
      && !HasReadableText(ExtractText(contentType, services).value)
    ensures h.response.status == 200 ==>
      && h.trace.validated
      && services.parse(h.trace.decoderInput.value).Parsed?
      && services.parse(h.trace.decoderInput.value).data.Obj?
      && !LooksLikeSchema(services.parse(h.trace.decoderInput.value).data.fields)
      && ValidateInvoice(services.parse(h.trace.decoderInput.value).data.fields) == Success(h.response.body.record)
    ensures h.response.status == 500 ==>
      || h.response == SchemaEchoed
      || StartsWith(h.response.body.text, ParseFailurePrefix)
      || StartsWith(h.response.body.text, "Processing failed: ")
  {
    if !IsSupported(contentType) then Handled(UnsupportedFormat, NoCalls)
    else
      var extractor := Some(ExtractorFor(contentType));
      match ExtractText(contentType, services)
      case Failure(message) => Handled(ProcessingFailed(message), Trace(extractor, None, None, false))
      case Success(rawText) =>
        if !HasReadableText(rawText) then Handled(NoReadableText, Trace(extractor, None, None, false))
        else
          var user := UserMessage(rawText);
          match services.model(user)
          case Failure(message) => Handled(ProcessingFailed(message), Trace(extractor, Some(user), None, false))
          case Success(reply) =>
            var text := Sanitized(reply);
            var decoded := Trace(extractor, Some(user), Some(text), false);
            match services.parse(text)
            case NotJson(message) => Handled(ParseFailed(message, text), decoded)
            case LoadFailed(message) => Handled(ProcessingFailed(message), decoded)
            case Parsed(data) =>
              match EchoCheck(data)
              case SchemaEcho => Handled(SchemaEchoed, decoded)
              case Raised(fault) => Handled(ProcessingFailed(services.describe(fault)), decoded)
              case Clear =>
                var built := decoded.(validated := true);
                match BuildInvoice(data)
                case Failure(fault) => Handled(ProcessingFailed(services.describe(fault)), built)
                case Success(record) => Handled(Response(200, Invoice(record)), built)
  }

  /** An unsupported content type, and only that, gives 400, before anything is read, extracted or sent. */
  lemma UnsupportedTypeRejected(contentType: string, services: Services)
    ensures ProcessInvoice(contentType, services).response.status == 400 <==> !IsSupported(contentType)
    ensures !IsSupported(contentType) ==> ProcessInvoice(contentType, services) == Handled(UnsupportedFormat, NoCalls)
  {
  }

  /**
   * 422 comes exactly from extracted text that is empty or all whitespace, with the
   * fixed detail and without any model call.
   */
  lemma BlankTextSkipsModel(contentType: string, services: Services)
    ensures var h := ProcessInvoice(contentType, services);
      h.response.status == 422 <==>
        IsSupported(contentType) && ExtractText(contentType, services).Success?
        && AllWhitespace(ExtractText(contentType, services).value)
    ensures var h := ProcessInvoice(contentType, services);
      h.response.status == 422 ==> h.response == NoReadableText && h.trace.modelInput == None
  {
  }

  /** A failed extraction or model call becomes 500 "Processing failed: " with the exception's text. */
  lemma UpstreamFailuresWrapped(contentType: string, services: Services, rawText: string, message: string)
    requires IsSupported(contentType)
    ensures ExtractText(contentType, services) == Failure(message) ==>
      ProcessInvoice(contentType, services)
      == Handled(ProcessingFailed(message), Trace(Some(ExtractorFor(contentType)), None, None, false))
    ensures (ExtractText(contentType, services) == Success(rawText) && HasReadableText(rawText)
             && services.model(UserMessage(rawText)) == Failure(message)) ==>
      ProcessInvoice(contentType, services).response == Response(500, Detail("Processing failed: " + message))
  {
  }

  /**
   * A reply the decoder rejects gives 500 with the decoder's message and at most the
   * first 500 characters of the sanitised reply.
   */
  lemma ParseFailureReported(contentType: string, services: Services, rawText: string, reply: string, message: string)
    requires IsSupported(contentType) && ExtractText(contentType, services) == Success(rawText)
    requires HasReadableText(rawText) && services.model(UserMessage(rawText)) == Success(reply)
    requires services.parse(Sanitized(reply)) == NotJson(message)
    ensures var response := ProcessInvoice(contentType, services).response;
      var head := "Failed to parse LLM response as JSON: " + message + "\nResponse was: ";
      && response.status == 500 && response.body.Detail?
      && StartsWith(response.body.text, head)
      && |response.body.text| - |head| <= 500
      && StartsWith(Sanitized(reply), response.body.text[|head|..])
  {
    ParseFailedDetail(message, Sanitized(reply));
  }

  /**
   * Any other exception `json.loads` raises is not a JSONDecodeError: it reaches the
   * catch-all and becomes 500 "Processing failed: " with its text, and no excerpt.
   */
  lemma DecoderExceptionWrapped(contentType: string, services: Services, rawText: string, reply: string,
                                message: string)
    requires IsSupported(contentType) && ExtractText(contentType, services) == Success(rawText)
    requires HasReadableText(rawText) && services.model(UserMessage(rawText)) == Success(reply)
    requires services.parse(Sanitized(reply)) == LoadFailed(message)
    ensures ProcessInvoice(contentType, services).response == Response(500, Detail("Processing failed: " + message))
  {
  }

  /**
   * A decoded dict with a "$defs" key, or with "type" equal to "object", is rejected
   * with the schema-echo 500 whatever else it holds; no record is built.
   */
  lemma SchemaEchoRejected(contentType: string, services: Services, rawText: string, reply: string,
                           fields: map<string, Json>)
    requires IsSupported(contentType) && ExtractText(contentType, services) == Success(rawText)
    requires HasReadableText(rawText) && services.model(UserMessage(rawText)) == Success(reply)
    requires services.parse(Sanitized(reply)) == Parsed(Obj(fields))
    requires "$defs" in fields || ("type" in fields && fields["type"] == Str("object"))
    ensures ProcessInvoice(contentType, services).response == SchemaEchoed
    ensures !ProcessInvoice(contentType, services).trace.validated
  {
  }

  /** A decoded value that is not a dict never yields a record: every such path ends in a 500. */
  lemma NonObjectRejected(contentType: string, services: Services, rawText: string, reply: string, data: Json)
    requires IsSupported(contentType) && ExtractText(contentType, services) == Success(rawText)
    requires HasReadableText(rawText) && services.model(UserMessage(rawText)) == Success(reply)
    requires services.parse(Sanitized(reply)) == Parsed(data) && !data.Obj?
    ensures ProcessInvoice(contentType, services).response.status == 500
  {
  }

  /** A decoded dict that fails validation becomes 500 "Processing failed: " with Pydantic's report. */
  lemma InvalidRecordReported(contentType: string, services: Services, rawText: string, reply: string,
                              fields: map<string, Json>)
    requires IsSupported(contentType) && ExtractText(contentType, services) == Success(rawText)
    requires HasReadableText(rawText) && services.model(UserMessage(rawText)) == Success(reply)
    requires services.parse(Sanitized(reply)) == Parsed(Obj(fields))
    requires !LooksLikeSchema(fields) && ValidateInvoice(fields).Failure?
    ensures ProcessInvoice(contentType, services).response
         == ProcessingFailed(services.describe(Invalid(ValidateInvoice(fields).error)))
  {
  }

  /**
   * The 200 path, for every dict: when the sanitised reply decodes to a dict that
   * does not look like a schema and validates, the response is 200 with the
   * validated record. Together with the contract of `ProcessInvoice`, a 200 comes
   * from exactly these replies.
   */
  lemma DictReplyAccepted(contentType: string, services: Services, rawText: string, reply: string,
                          fields: map<string, Json>)
    requires IsSupported(contentType) && ExtractText(contentType, services) == Success(rawText)
    requires HasReadableText(rawText) && services.model(UserMessage(rawText)) == Success(reply)
    requires services.parse(Sanitized(reply)) == Parsed(Obj(fields))
    requires !LooksLikeSchema(fields) && ValidateInvoice(fields).Success?
    ensures ProcessInvoice(contentType, services) ==
      Handled(Response(200, Invoice(ValidateInvoice(fields).value)),
              Trace(Some(ExtractorFor(contentType)), Some(UserMessage(rawText)), Some(Sanitized(reply)), true))
  {
  }

  /** The text of the one-page example, "Invoice #123, Acme Corp, Subtotal 100.00, Tax 8.00, Total 108.00". */
  const AcmeText := "Invoice #123, " + "Acme Corp, " + "Subtotal 100.00, " + "Tax 8.00, " + "Total 108.00"

  /** The decoded reply of the one-page example: the required fields and no `business_unit`. */
  const AcmeFields := map[
    "doc_number" := Str("123"), "supplier" := Str("Acme Corp"), "subtotal" := Num(100.0),
    "tax_amount" := Num(8.0), "total_amount" := Num(108.0), "items" := Arr([])]

  lemma AcmeFieldsValidate()
    ensures !LooksLikeSchema(AcmeFields)
    ensures ValidateInvoice(AcmeFields) == Success(InvoiceRecord("123", "Acme Corp", None, [], 100.0, 8.0, 108.0))
  {
    var fields := AcmeFields;
    assert fields.Keys == {"doc_number", "supplier", "subtotal", "tax_amount", "total_amount", "items"};
    assert StringField(fields, "doc_number") == Success("123");
    assert StringField(fields, "supplier") == Success("Acme Corp");
    assert OptionalStringField(fields, "business_unit") == Success(None);
    assert ItemsField(fields) == Success([]);
    assert FloatField(fields, "subtotal") == Success(100.0);
    assert FloatField(fields, "tax_amount") == Success(8.0);
    assert FloatField(fields, "total_amount") == Success(108.0);
  }

  /**
   * A one-page PDF reading "Invoice #123, Acme Corp, Subtotal 100.00, Tax 8.00,
   * Total 108.00", and a model whose reply decodes to a dict with the five required
   * fields, no `business_unit` and an empty `items` list: the response is 200 with
   * that record, `business_unit` None.
   */
  lemma AcmeInvoiceAccepted(services: Services, reply: string)
    requires services.pdfPages == Success([AcmeText])
    requires services.model(UserMessage(AcmeText)) == Success(reply)
    requires services.parse(Sanitized(reply)) == Parsed(Obj(AcmeFields))
    ensures ProcessInvoice(Pdf, services).response
         == Response(200, Invoice(InvoiceRecord("123", "Acme Corp", None, [], 100.0, 8.0, 108.0)))
  {
    assert Concat([AcmeText]) == AcmeText by { var none: seq<string> := []; assert [AcmeText][..0] == none; }
    assert ExtractText(Pdf, services) == Success(AcmeText);
    assert HasReadableText(AcmeText) by { assert AcmeText[0] == 'I'; }
    AcmeFieldsValidate();
    DictReplyAccepted(Pdf, services, AcmeText, reply, AcmeFields);
  }

  /**
   * End to end: when the model replies with a record's JSON, fenced or not, and the
   * decoder reads it back, the response is 200 with that record.
   */
  lemma RecordReplyAccepted(contentType: string, services: Services, rawText: string, reply: string,
                            record: InvoiceRecord)
    requires IsSupported(contentType) && ExtractText(contentType, services) == Success(rawText)
    requires HasReadableText(rawText) && services.model(UserMessage(rawText)) == Success(reply)
    requires services.parse(Sanitized(reply)) == Parsed(Obj(RecordToJson(record)))
    ensures ProcessInvoice(contentType, services).response == Response(200, Invoice(record))
  {
    RecordJsonPassesEchoGuard(record);
    RecordRoundTrip(record);
    DictReplyAccepted(contentType, services, rawText, reply, RecordToJson(record));
  }
}
