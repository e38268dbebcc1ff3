# TextHarvester invoice pipeline in Dafny

TextHarvester is a small FastAPI service. It receives an invoice upload (a PDF, a
JPEG or a PNG) and extracts its text: the pages of a PDF, or OCR on an image. It
asks a language model to turn that text into JSON, decodes the reply and validates
it against the invoice schema. The reply to the client is either the validated
record or an HTTP error with a fixed or derived message.

This project models what the repository itself decides on each request. There are
three endpoints:

- `POST /process-invoice` in `main.py`, which uses the locally hosted model.
- `POST /ollama/process-invoice`, which does the same thing step for step.
- `POST /groq/process-invoice`, which uses the hosted model. It has no fence
  sanitiser and no schema-echo guard, and it reports a reply that does not decode
  as a generic 500.

The model also covers the validation rules of `InvoiceItem` and `InvoiceSchema`.

Files:

- `wrappers.dfy`: `Option` and `Result`.
- `pytext.dfy` (module `PyText`): Python's `str.strip()` over the exact `str.isspace`
  character set, `startswith`, `endswith`, `[:n]`, and `in` between two strings.
- `json.dfy` (module `JsonValues`): the values `json.loads` produces, and Python's
  `in` test on each kind of value.
- `schemas.dfy` (module `Schemas`): the invoice record and its items, and their
  validation from a decoded dict. Errors are reported with their locations, in field
  order. The module also holds the serialisation of a record back to JSON.
- `extraction.dfy` (module `Extraction`): the PDF extraction loop, which joins the
  page texts in order.
- `harvest.dfy` (module `Harvest`): the steps the endpoints share, which are:
  - the content-type check and the routing to an extractor;
  - the emptiness test;
  - the sanitiser, both as a function and as the step-by-step method the handler runs;
  - the parse-failure detail;
  - the schema-echo guard, evaluated as Python evaluates it on every kind of decoded
    value;
  - record construction;
  - the fixed responses.
- `main_app.dfy`, `ollama_router.dfy` and `groq_router.dfy`: one handler each. A
  handler is a function from the content type and the external results to the
  response. It also returns a record of the external calls it made and what each
  was given: the extractor, the model, the decoder, and record construction. Each
  handler's contract and the lemmas beside it state the status mapping and which
  calls are skipped.

What lies outside the repository is an input, bundled in `Harvest.Services`:

- PyMuPDF's page texts;
- Tesseract's text;
- the model's reply to a given user message;
- `json.loads`, giving a value, a `JSONDecodeError` with its message, or another
  exception with its message;
- the `str(e)` text of the exceptions Python raises.

Each can fail with a message.

## Model

| member | source | states |
|---|---|---|
| PyText.Strip | main.py:134 | `strip()` leaves no whitespace at either end and never lengthens the text |
| PyText.StripCutsWhitespace | main.py:134 | what `strip()` keeps is one contiguous slice, and everything it removes on either side is whitespace |
| PyText.StripUnique | main.py:143 | whitespace around a core with non-whitespace ends is removed, and nothing else |
| PyText.StripTrimmed | main.py:143 | a text with no whitespace at either end is unchanged by `strip()` |
| PyText.StripIdempotent | main.py:143 | stripping an already stripped text changes nothing |
| PyText.StripIgnoresPadding | main.py:134 | extra whitespace on either side does not change the result of `strip()` |
| PyText.StripEmptyIff | main.py:94 | `not s.strip()` holds exactly when every character is whitespace |
| PyText.IsSubstring | main.py:154 | `needle in haystack` on two strings holds exactly when the needle occurs at some position of the haystack |
| PyText.Take | main.py:150 | `[:500]` gives a prefix of at most 500 characters: the whole text when it is shorter, exactly 500 otherwise |
| JsonValues.Contains | main.py:154 | `in` raises TypeError exactly on None, a bool or a number; on a dict it is the key test |
| Schemas.StringField | schemas.py:14-15 | a required `str` field succeeds exactly when the key is present with a string value; a failure reports an error |
| Schemas.AsFloat | schemas.py:18-20 | lax `float` accepts exactly an int, a float or a bool; a number keeps its value and a bool becomes 1.0 or 0.0 |
| Schemas.FloatField | schemas.py:18-20 | a required `float` field succeeds exactly when the key is present with a number (or a bool); a failure reports an error |
| Schemas.OptionalStringField | schemas.py:16 | `business_unit` is None when the key is absent |
| Schemas.ValidateItem | schemas.py:6-10 | a line item is accepted exactly when it is a dict whose `description` is a str and whose `quantity`, `unit_price` and `total` are numbers (or bools); the accepted item holds those values; a rejection carries at least one error |
| Schemas.ValidateItems | schemas.py:17 | a list of items is accepted exactly when every entry is accepted, and then holds the validated entries in the same order |
| Schemas.ItemsField | schemas.py:17 | `items` defaults to the empty list when absent |
| Schemas.ValidateInvoice | schemas.py:13-20 | a dict is accepted exactly when `doc_number` and `supplier` are strs; `business_unit` is absent, null or a str; `items` is absent or a list whose every entry is an accepted line item; and `subtotal`, `tax_amount` and `total_amount` are numbers (or bools). Extra keys play no part. A rejection carries at least one error |
| Schemas.RequiredFieldsEnforced | schemas.py:13-20 | a dict missing `doc_number`, `supplier`, `subtotal`, `tax_amount` or `total_amount` is rejected, with a "missing" error at that key |
| Schemas.ItemFieldsRequired | schemas.py:6-10 | a line item missing `description`, `quantity`, `unit_price` or `total` is rejected (a corollary of `ValidateItem`'s contract) |
| Schemas.ValidatedFieldsCopied | schemas.py:13-20 | a validated record holds the values found under its keys: the two strings, the three numbers, `business_unit` None when absent or null and the str when a str (any other kind is rejected), and `items` empty when absent, otherwise the validated entries of the list |
| Schemas.OptionalFieldsDefault | schemas.py:16-17 | removing `business_unit` or `items` from a valid dict keeps it valid, with None or the empty list in its place |
| Schemas.ExtraKeysIgnored | schemas.py:13-20 | keys that name no field have no influence on validation |
| Schemas.RecordToJson | main.py:79 | the response body of a record has exactly one key per schema field, with `business_unit` null exactly when it is None, and `subtotal`, `tax_amount` and `total_amount` as numbers holding the record's values |
| Schemas.RecordRoundTrip | main.py:50-57 | every record, serialised and validated again, comes back unchanged; nothing relates quantity, unit price and total, or the items and the subtotal |
| Schemas.ItemRoundTrip | schemas.py:6-10 | a serialised line item validates back to itself |
| Schemas.ItemsRoundTrip | schemas.py:17 | a serialised list of items validates back to the same list, in order |
| Extraction.ExtractTextFromPdf | main.py:64-70 | the loop's text is the page texts joined in order |
| Extraction.Concat | main.py:64-70 | the joined text starts with the first page's text and ends with the last page's |
| Extraction.BlankDocumentIffBlankPages | main.py:66-69 | a PDF's text is blank exactly when every page's text is blank |
| Harvest.ProcessingFailed | main.py:164-165 | the catch-all is a 500 whose detail is "Processing failed: " followed by the message |
| Harvest.ParseFailed | main.py:148-151 | the parse-failure response is a 500 whose detail starts with "Failed to parse LLM response as JSON: " |
| Harvest.ParseFailedDetail | main.py:148-151 | the parse-failure detail is "Failed to parse LLM response as JSON: ", the decoder's message and "\nResponse was: ", followed by a prefix of the text of length min(500, length) |
| Harvest.IsSupported | main.py:82 | the accepted types are "application/pdf" and the image types "image/jpeg" and "image/png", and no others |
| Harvest.ExtractorFor | main.py:89-92 | among the accepted types, exactly the "image/" types go to OCR; the PDF goes to PyMuPDF |
| Harvest.ExtractText | main.py:89-92 | a PDF's text is the joined page texts; any other accepted type's text is the OCR result |
| Harvest.HasReadableText | main.py:94 | `raw_text.strip()` is non-empty exactly when not every character is whitespace |
| Harvest.LeadingFenceLength | main.py:137-140 | some leading fence is cut exactly when the stripped reply starts with "```" |
| Harvest.Unfenced | main.py:137-142 | unfencing never lengthens the text |
| Harvest.Sanitized | main.py:134-143 | the sanitised reply has no whitespace at either end and is never longer than the reply |
| Harvest.Sanitize | main.py:134-143 | the step-by-step reassignments compute the sanitised reply |
| Harvest.UnfencedIsSlice | main.py:137-142 | unfencing keeps one contiguous slice |
| Harvest.SanitizedIsSlice | main.py:134-143 | the sanitised reply is a contiguous piece of the raw reply |
| Harvest.SanitizedUnchangedIff | main.py:134-143 | the sanitiser does no more than `strip()` exactly when the stripped reply neither starts nor ends with "```" |
| Harvest.FencedReplyUnwrapped | main.py:137-143 | "```json\n" + s + "\n```" sanitises to `s.strip()` |
| Harvest.BothLeadingFencesDropped | main.py:137-140 | the two prefix tests are independent: "```json```" + s + "```" sanitises to `s.strip()` |
| Harvest.SanitizedStableWithoutFence | main.py:134-143 | sanitising again changes nothing when the first pass left no fence at either end |
| Harvest.SanitizerRemovesOneLayer | main.py:137-142 | a doubly fenced reply keeps its inner fence after one pass, so the sanitiser is not idempotent in general |
| Harvest.EchoCheck | main.py:154 | on a dict, the guard rejects exactly the dicts with "$defs" or with "type" equal to "object", and raises nothing; on a str it is a substring test; on a list, an element test; on None, a bool or a number it raises TypeError |
| Harvest.BuildInvoice | main.py:160 | `InvoiceSchema(**data)` succeeds exactly on a dict that validates, with the validated record; a value that is not a dict raises TypeError, and a dict that fails validation raises Pydantic's ValidationError |
| Harvest.RecordJsonPassesEchoGuard | main.py:154 | a serialised record never looks like a schema and always passes the echo guard |
| MainApp.UserMessage | main.py:128 | the user message is the instruction followed by the whole extracted text |
| MainApp.ProcessInvoice | main.py:79-165 | every response is 200, 400, 422 or 500, and 200 exactly when it carries a record. The calls happen in order. A supported upload is read and routed to its extractor: PyMuPDF for "application/pdf", OCR otherwise. The model is called only on readable text, with the user message built from all of it. The decoder gets the sanitised model reply. 422 holds exactly when the extracted text is blank. A 200 carries the record validated from a decoded dict that passed the echo guard, after record construction ran; `DictReplyAccepted` gives the converse. Every 500 is the schema-echo response, a parse failure or "Processing failed: ..." |
| MainApp.UnsupportedTypeRejected | main.py:82-83 | 400 comes exactly from an unsupported content type, with the fixed detail and no step taken |
| MainApp.BlankTextSkipsModel | main.py:94-95 | 422 comes exactly from extracted text that is empty or all whitespace; it carries the fixed detail, and the model is never called |
| MainApp.UpstreamFailuresWrapped | main.py:162-165 | a failed extraction or model call gives 500 "Processing failed: " followed by the exception's text |
| MainApp.ParseFailureReported | main.py:145-151 | a `JSONDecodeError` gives 500 with the decoder's message and at most the first 500 characters of the sanitised reply |
| MainApp.DecoderExceptionWrapped | main.py:145-151 | any other exception from `json.loads` is not caught there and becomes 500 "Processing failed: " with its text |
| MainApp.SchemaEchoRejected | main.py:154-158 | a decoded dict with "$defs", or with "type" equal to "object", gets the schema-echo 500 whatever else it holds, and record construction is never attempted |
| MainApp.NonObjectRejected | main.py:154-165 | a decoded value that is not a dict always ends in a 500 |
| MainApp.InvalidRecordReported | main.py:160-165 | a dict that passes the echo guard and fails validation gives 500 "Processing failed: " followed by the validation report |
| MainApp.DictReplyAccepted | main.py:145-160 | when the sanitised reply decodes to any dict that does not look like a schema and validates, the response is 200 with the validated record, after all four calls |
| MainApp.AcmeFieldsValidate | schemas.py:13-20 | a dict with the five required fields, an empty `items` list and no `business_unit` validates, with `business_unit` None |
| MainApp.AcmeInvoiceAccepted | main.py:79-160 | a one-page PDF reading "Invoice #123, Acme Corp, Subtotal 100.00, Tax 8.00, Total 108.00", whose model reply decodes to those fields without `business_unit`, is answered 200 with that record |
| MainApp.RecordReplyAccepted | main.py:134-160 | a reply that decodes to a record's JSON, whether fenced or not, is answered with 200 and that record |
| OllamaRouter.UserMessage | routers/ollama_router.py:49 | the user message is "Extract invoice data from this text:\n\n" followed by the whole extracted text |
| OllamaRouter.ProcessInvoice | routers/ollama_router.py:12-84 | every response is 200, 400, 422 or 500, it is 200 exactly when it carries a record, and the calls happen in order; through `MatchesMainApp` every `MainApp` property, including `DictReplyAccepted`, holds for it |
| OllamaRouter.MatchesMainApp | routers/ollama_router.py:15-84 | the router gives the same response and the same steps as the application's endpoint on every input, so every `MainApp` lemma holds for it |
| GroqRouter.UserMessage | routers/groq_router.py:44 | the user message is "Extract data from this text: " followed by the whole extracted text |
| GroqRouter.ProcessInvoice | routers/groq_router.py:17-55 | every response is 200, 400, 422 or 500, and 200 exactly when it carries a record. The calls happen in order. A supported upload is read and routed to its extractor. The API is called only on readable text, with the whole text. The decoder gets the reply exactly as received, with nothing stripped or unfenced, and a record is built exactly when the reply decodes. 422 holds exactly when the text is blank. A 200 carries the record validated from a decoded dict. Every 500 is "Processing failed: ..." |
| GroqRouter.UnsupportedTypeRejected | routers/groq_router.py:20-21 | 400 comes exactly from an unsupported content type, before any step |
| GroqRouter.BlankTextSkipsModel | routers/groq_router.py:31-32 | 422 comes exactly from blank extracted text; the fixed detail passes through unwrapped, and there is no API call |
| GroqRouter.ParseFailureIsGeneric | routers/groq_router.py:49-55 | a decode failure, a `JSONDecodeError` or any other exception, gives 500 "Processing failed: " followed by its message, with no excerpt |
| GroqRouter.DictReplyAccepted | routers/groq_router.py:49-50 | when the reply decodes to any dict that validates, the response is 200 with the validated record, whatever other keys it holds |
| GroqRouter.NoEchoGuard | routers/groq_router.py:49-50 | a valid record with an added "$defs" key is accepted with 200 |
| GroqRouter.EchoHandledDifferently | routers/groq_router.py:49-50 | that same dict gets the schema-echo 500 from `/ollama` and 200 from `/groq` |
| GroqRouter.FencedReplyHandledDifferently | routers/groq_router.py:49-50 | a ```json-fenced record reply is accepted by `/ollama` and is a generic 500 from `/groq` when the decoder rejects the fence |

## Left out

- `configure_tesseract` (main.py:13-41): it probes the operating system and the file system to set a library global. Nothing it does reaches a response.
- PyMuPDF and Tesseract internals: the page texts and the OCR text are inputs. So is their failure, which the handler wraps as "Processing failed: ...".
- `file.read()` and the rest of the request plumbing, `async`, concurrency and timeouts. A failing read would be wrapped like any other exception.
- The system prompts, the model names, `format="json"`, `response_format` and the Groq prompt's `model_json_schema()` text. The model is a function of the user message only.
- `json.loads`: its grammar, its error messages, and which inputs raise a `JSONDecodeError` rather than another exception (such as the ValueError for an integer literal past the digit limit) are an input function. The model fixes only how each outcome is handled.
- Lone surrogates: Dafny strings hold Unicode scalar values, while a Python `str` (for example one decoded from `"\ud800"`) may also hold lone surrogate code points. Such strings are not modelled.
- The wording of the exceptions Python raises (`str(e)` of TypeError, AttributeError and ValidationError) is an input function. The model fixes only which exception occurs.
- Schemas.AsFloat: Pydantic's lax mode also accepts numeric strings such as "12.5" for a `float`. That is not modelled; a string is rejected here.
- Schemas.FloatField: numbers are unbounded reals, so float rounding, infinities and NaN are not modelled.
- Schemas.ValidateInvoice: Pydantic's error messages and its input echo are reduced to a location and an error kind.
- GroqRouter.ProcessInvoice: a reply whose content is None (`message.content` of the Groq client) is not modelled. It would reach `json.loads` as a TypeError and a generic 500.
- The serialisation of the 200 body by FastAPI is modelled as `Schemas.RecordToJson`, and only as far as it is needed for round trips.
