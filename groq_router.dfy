/**
 * The router mounted under `/groq`: `POST /groq/process-invoice` sends the text to
 * the hosted model in JSON mode and decodes the reply as it arrives. There is no
 * fence sanitiser and no schema-echo guard, and a reply that does not decode is an
 * ordinary exception, reported as a generic 500.
 */
module GroqRouter {
  import opened Wrappers
  import opened PyText
  import opened JsonValues
  import opened Schemas
  import opened Harvest
  import OllamaRouter

  const UserPrefix := "Extract data from this text: "

  /** The user message: a one-line instruction, a space, and the whole extracted text. */
  function UserMessage(rawText: string): (message: string)
    ensures StartsWith(message, UserPrefix) && |message| == |UserPrefix| + |rawText|
    ensures message[|UserPrefix|..] == rawText
  {
    UserPrefix + rawText
  }

  /**
   * One request to `/groq/process-invoice`. Only the 422 is an HTTPException raised
   * inside the `try`; a decode failure, like every other exception, becomes a 500
   * "Processing failed: ...".
   *
   * The contract: every supported upload is read and routed to its extractor; the
   * model is called only on readable text and with all of it; the decoder sees the
   * reply exactly as received, and a record is built exactly when it decodes; 422
   * means blank text; a 200 carries the record validated from a decoded dict; every
   * 500 is a wrapped exception.
   */
  function ProcessInvoice(contentType: string, services: Services): (h: Handled)
    ensures h.response.status in {200, 400, 422, 500}
    ensures h.response.status == 200 <==> h.response.body.Invoice?
    ensures InOrder(h.trace)
    ensures h.trace.extractor == (if IsSupported(contentType) then Some(ExtractorFor(contentType)) else None)
    ensures h.trace.modelInput.Some? ==>
      && ExtractText(contentType, services).Success?
      && HasReadableText(ExtractText(contentType, services).value)
      && h.trace.modelInput.value == UserMessage(ExtractText(contentType, services).value)
    ensures h.trace.decoderInput.Some? ==>
      && services.model(h.trace.modelInput.value) == Success(h.trace.decoderInput.value)
      && (h.trace.validated <==> services.parse(h.trace.decoderInput.value).Parsed?)
    ensures h.response.status == 422 <==>
      IsSupported(contentType) && ExtractText(contentType, services).Success?
      && !HasReadableText(ExtractText(contentType, services).value)
    ensures h.response.status == 200 ==>
      && h.trace.validated
      && services.parse(h.trace.decoderInput.value).Parsed?
      && services.parse(h.trace.decoderInput.value).data.Obj?
      && ValidateInvoice(services.parse(h.trace.decoderInput.value).data.fields) == Success(h.response.body.record)
    ensures h.response.status == 500 ==> h.response.body.Detail? && StartsWith(h.response.body.text, "Processing failed: ")
  {
    if !IsSupported(contentType) then Handled(UnsupportedFormat, NoCalls)
    else
      var extractor := Some(ExtractorFor(contentType));
      match ExtractText(contentType, services)
      case Failure(message) => Handled(ProcessingFailed(message), Trace(extractor, None, None, false))
      case Success(rawText) =>
        if !HasReadableText(rawText) then Handled(NoReadableText, Trace(extractor, None, None, false))
        else
          var user := UserMessage(rawText);
          match services.model(user)
          case Failure(message) => Handled(ProcessingFailed(message), Trace(extractor, Some(user), None, false))
          case Success(reply) =>
            var decoded := Trace(extractor, Some(user), Some(reply), false);
            match services.parse(reply)
            case NotJson(message) => Handled(ProcessingFailed(message), decoded)
            case LoadFailed(message) => Handled(ProcessingFailed(message), decoded)
            case Parsed(data) =>
              var built := decoded.(validated := true);
              match BuildInvoice(data)
              case Failure(fault) => Handled(ProcessingFailed(services.describe(fault)), built)
              case Success(record) => Handled(Response(200, Invoice(record)), built)
  }

  /** An unsupported content type, and only that, gives 400, before anything is read. */
  lemma UnsupportedTypeRejected(contentType: string, services: Services)
    ensures ProcessInvoice(contentType, services).response.status == 400 <==> !IsSupported(contentType)
    ensures !IsSupported(contentType) ==> ProcessInvoice(contentType, services) == Handled(UnsupportedFormat, NoCalls)
  {
  }

  /** 422 comes exactly from blank extracted text, with the fixed detail and no model call. */
  lemma BlankTextSkipsModel(contentType: string, services: Services)
    ensures var h := ProcessInvoice(contentType, services);
      h.response.status == 422 <==>
        IsSupported(contentType) && ExtractText(contentType, services).Success?
        && AllWhitespace(ExtractText(contentType, services).value)
    ensures var h := ProcessInvoice(contentType, services);
      h.response.status == 422 ==>
        h.response == NoReadableText && h.trace.modelInput == None
  {
  }

  /**
   * A reply that does not decode is reported like any other exception: 500
   * "Processing failed: " with the decoder's message, and no excerpt of the reply.
   */
  lemma ParseFailureIsGeneric(contentType: string, services: Services, rawText: string, reply: string, message: string)
    requires IsSupported(contentType) && ExtractText(contentType, services) == Success(rawText)
    requires HasReadableText(rawText) && services.model(UserMessage(rawText)) == Success(reply)
    requires services.parse(reply) == NotJson(message) || services.parse(reply) == LoadFailed(message)
    ensures ProcessInvoice(contentType, services).response == Response(500, Detail("Processing failed: " + message))
  {
  }

  /**
   * The 200 path, for every dict: when the reply decodes to a dict that validates,
   * the response is 200 with the validated record, whatever other keys it holds.
   */
  lemma DictReplyAccepted(contentType: string, services: Services, rawText: string, reply: string,
                          fields: map<string, Json>)
    requires IsSupported(contentType) && ExtractText(contentType, services) == Success(rawText)
    requires HasReadableText(rawText) && services.model(UserMessage(rawText)) == Success(reply)
    requires services.parse(reply) == Parsed(Obj(fields)) && ValidateInvoice(fields).Success?
    ensures ProcessInvoice(contentType, services) ==
      Handled(Response(200, Invoice(ValidateInvoice(fields).value)),
              Trace(Some(ExtractorFor(contentType)), Some(UserMessage(rawText)), Some(reply), true))
  {
  }

  /**
   * Without an echo guard, a decoded dict that validates is accepted even when it
   * carries a "$defs" key, which the locally hosted endpoints reject.
   */
  lemma NoEchoGuard(contentType: string, services: Services, rawText: string, reply: string,
                    record: InvoiceRecord, definitions: Json)
    requires IsSupported(contentType) && ExtractText(contentType, services) == Success(rawText)
    requires HasReadableText(rawText) && services.model(UserMessage(rawText)) == Success(reply)
    requires services.parse(reply) == Parsed(Obj(RecordToJson(record)["$defs" := definitions]))
    ensures ProcessInvoice(contentType, services).response == Response(200, Invoice(record))
  {
    RecordRoundTrip(record);
    ExtraKeysIgnored(RecordToJson(record), "$defs", definitions);
  }

  /**
   * The same decoded dict, a valid record plus a "$defs" key, is refused by the
   * `/ollama` endpoint with the schema-echo 500 and accepted here.
   */
  lemma EchoHandledDifferently(contentType: string, services: Services, rawText: string,
                               ollamaReply: string, groqReply: string, record: InvoiceRecord, definitions: Json)
    requires IsSupported(contentType) && ExtractText(contentType, services) == Success(rawText)
    requires HasReadableText(rawText)
    requires services.model(OllamaRouter.UserMessage(rawText)) == Success(ollamaReply)
    requires services.model(UserMessage(rawText)) == Success(groqReply)
    requires services.parse(Sanitized(ollamaReply)) == Parsed(Obj(RecordToJson(record)["$defs" := definitions]))
    requires services.parse(groqReply) == Parsed(Obj(RecordToJson(record)["$defs" := definitions]))
    ensures OllamaRouter.ProcessInvoice(contentType, services).response == SchemaEchoed
    ensures ProcessInvoice(contentType, services).response == Response(200, Invoice(record))
  {
    NoEchoGuard(contentType, services, rawText, groqReply, record, definitions);
  }

  /**
   * A reply wrapped in a ```json fence, which the decoder rejects as it stands, is
   * accepted by the `/ollama` endpoint after unfencing and fails here with a generic 500.
   */
  lemma FencedReplyHandledDifferently(contentType: string, services: Services, rawText: string,
                                      content: string, record: InvoiceRecord, message: string)
    requires IsSupported(contentType) && ExtractText(contentType, services) == Success(rawText)
    requires HasReadableText(rawText)
    requires services.model(OllamaRouter.UserMessage(rawText)) == Success("```json\n" + content + "\n```")
    requires services.model(UserMessage(rawText)) == Success("```json\n" + content + "\n```")
    requires services.parse(Strip(content)) == Parsed(Obj(RecordToJson(record)))
    requires services.parse("```json\n" + content + "\n```") == NotJson(message)
    ensures OllamaRouter.ProcessInvoice(contentType, services).response == Response(200, Invoice(record))
    ensures ProcessInvoice(contentType, services).response == Response(500, Detail("Processing failed: " + message))
  {
    FencedReplyUnwrapped(content);
    RecordJsonPassesEchoGuard(record);
    RecordRoundTrip(record);
  }
}
