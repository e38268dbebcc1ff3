/**
 * The router mounted under `/ollama`: `POST /ollama/process-invoice` repeats the
 * single-file application's handler step for step, against the same locally hosted
 * model. It is modelled on its own and then shown to answer every request exactly
 * as the application's endpoint does, so every property proved in `MainApp` holds
 * for it too.
 */
module OllamaRouter {
  import opened Wrappers
  import opened PyText
  import opened JsonValues
  import opened Harvest
  import MainApp

  const UserPrefix := "Extract invoice data from this text:\n\n"

  /** The user message: the instruction followed by the whole extracted text. */
  function UserMessage(rawText: string): (message: string)
    ensures StartsWith(message, UserPrefix) && |message| == |UserPrefix| + |rawText|
    ensures message[|UserPrefix|..] == rawText
  {
    UserPrefix + rawText
  }

  /** One request to `/ollama/process-invoice`. */
  function ProcessInvoice(contentType: string, services: Services): (h: Handled)
    ensures h.response.status in {200, 400, 422, 500}
    ensures h.response.status == 200 <==> h.response.body.Invoice?
    ensures InOrder(h.trace)
  {
    if !IsSupported(contentType) then Handled(UnsupportedFormat, NoCalls)
    else
      var extractor := Some(ExtractorFor(contentType));
      match ExtractText(contentType, services)
      case Failure(message) => Handled(ProcessingFailed(message), Trace(extractor, None, None, false))
      case Success(rawText) =>
        if !HasReadableText(rawText) then Handled(NoReadableText, Trace(extractor, None, None, false))
        else
          var user := UserMessage(rawText);
          match services.model(user)
          case Failure(message) => Handled(ProcessingFailed(message), Trace(extractor, Some(user), None, false))
          case Success(reply) =>
            var text := Sanitized(reply);
            var decoded := Trace(extractor, Some(user), Some(text), false);
            match services.parse(text)
            case NotJson(message) => Handled(ParseFailed(message, text), decoded)
            case LoadFailed(message) => Handled(ProcessingFailed(message), decoded)
            case Parsed(data) =>
              match EchoCheck(data)
              case SchemaEcho => Handled(SchemaEchoed, decoded)
              case Raised(fault) => Handled(ProcessingFailed(services.describe(fault)), decoded)
              case Clear =>
                var built := decoded.(validated := true);
                match BuildInvoice(data)
                case Failure(fault) => Handled(ProcessingFailed(services.describe(fault)), built)
                case Success(record) => Handled(Response(200, Invoice(record)), built)
  }

  /**
   * The router and the application answer every request identically: same
   * response, same steps in the same order.
   */
  lemma MatchesMainApp(contentType: string, services: Services)
    ensures ProcessInvoice(contentType, services) == MainApp.ProcessInvoice(contentType, services)
  {
  }
}
