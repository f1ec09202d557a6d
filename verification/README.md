# Shopping-assistant tool dispatch, modelled in Dafny

This project models the decision logic of a chat assistant backend. The assistant answers a
shopper's question in one of two ways:

- with the language model's own text, or
- by letting the model call one of two tools, then asking the model again with the tool's result.

The two tools are a product-catalog search and a currency conversion over live exchange rates.

The model has four parts:

- **Agent** (`agent.dfy`): one turn of `AgentService.handleQuery`, taking the gateway's two
  answers, the catalog rows, the API key and the rate-fetch outcome as parameters. A turn
  returns the answer text, or the error it throws, plus a trace of its gateway calls, tool
  runs and rate fetches. It also models:
  - argument parsing and coercion;
  - routing by tool name;
  - the `"Tool"` short-circuit.
- **Currency** (`currency.dfy`): `convertCurrencies`. This covers:
  - the ordered input checks and the API-key check;
  - upper-cased rate lookup and the cross rate;
  - rounding as `toFixed` followed by `parseFloat` on exact values;
  - classification of HTTP failures;
  - rethrowing of other failures.
- **Catalog** (`catalog.dfy`): `searchProducts` over a sequence of CSV records with optional
  columns. This covers:
  - the lower-case-then-trim query;
  - substring match on title or description;
  - placeholders for falsy columns;
  - the first two matches in catalog order.

  It also includes a streaming method shaped like the `data`/`end` handlers.
- **Validation** (`validation.dfy`, `dtos.dfy`): the `ToolValidationPipe` and the constraint
  sets of its two DTOs. Each DTO yields per-field lists of violated-constraint messages. The
  pipe returns the instance when there are no violations, and otherwise a BadRequest with the
  formatted message. As in the source, the router does not call this pipe; it coerces
  arguments itself.

Supporting modules:

- `outcomes.dfy`: `Option` and `Result`.
- `text.dfy`: ASCII case mapping, the ECMAScript whitespace set used by `trim`, substring
  search, and join/split.
- `js.dfy`: JSON values, JavaScript truthiness, `String(...)`, `Number(...)`, and property
  reads that fail on `null`.

The host's JSON parser, its number-to-text printer and its numeric-string parser are the fields
of a `Host` value that callers supply.

## Model

| member | source | states |
|---|---|---|
| Agent.HandleQuery | src/agent/agent.service.ts:22-60 | The trace starts with the first gateway call. Every turn makes one or two gateway calls and at most one tool run. With no usable first tool call, the answer is the content when it is non-empty, else "Unable to generate a response.". Malformed JSON arguments fail with no tool run. An unknown tool yields exactly the "not available" text after one gateway call. A second gateway call records the query and the first tool call, and the answer is its content, or "Response generated without content." only when that content is absent. |
| Agent.SecondCallIffToolSucceeded | src/agent/agent.service.ts:46-59 | The second gateway call happens if and only if the first tool call names a known tool, its arguments parse, and the tool succeeds. That call carries exactly the tool's output. |
| Agent.KnownToolTurn | src/agent/agent.service.ts:36-59 | When a known tool succeeds, the turn's trace is the first call, then the tool's steps, then the second call. The answer is the second call's content. |
| Agent.SingleKnownCallTurn | src/agent/agent.service.ts:36-59 | For a first answer with exactly one call to a known tool that succeeds, the answer is the second call's text (or the fallback). The trace is the first call, the tool's steps, then the second call with that tool call and output. |
| Agent.FailedToolTurn | src/agent/agent.service.ts:36-44 | When the one named call is to a known tool and that tool throws, the turn fails with the tool's error. The trace is the first gateway call and the tool's steps, with no second gateway call. |
| Agent.OnlyFirstToolCallCounts | src/agent/agent.service.ts:26 | Tool calls after the first have no effect on the answer or the trace. |
| Agent.ParseToolArguments | src/agent/agent.service.ts:65-76 | Structured arguments pass through unchanged. JSON text yields the parser's value. A parse failure, and only that, is the malformed-arguments error. |
| Agent.JsonAndStructuredAgree | src/agent/agent.service.ts:65-76 | JSON text that parses to an object gives the same answer as passing that object directly. The traces agree except in the recorded tool call. |
| Agent.ExecuteToolFunction | src/agent/agent.service.ts:85-94 | "searchProducts" routes to the search and "convertCurrencies" to the conversion. Any other name yields `Tool "<name>" is not available.` with no tool run. Only that case produces a string result. |
| Agent.Unavailable | src/agent/agent.service.ts:93 | The "not available" text starts with "Tool", so the short-circuit at lines 46-51 catches it. |
| Agent.SentinelRoundTrip | src/agent/agent.service.ts:93 | The tool name can be read back from the "not available" text. |
| Agent.ExecuteProductSearch | src/agent/agent.service.ts:100-107 | A `null` argument object fails reading `query`. Otherwise the query is the string or its `String(...)` form, the catalog is searched once with it, and an unreadable catalog's error propagates. |
| Agent.AsString | src/agent/agent.service.ts:103-104 | A string is kept unchanged, and a missing value becomes "undefined". |
| Agent.AsAmount | src/agent/agent.service.ts:115-118 | A number is used as it is, a falsy or missing amount becomes 0, and a non-empty string goes through the numeric-string parser. |
| Agent.ExecuteCurrencyConversion | src/agent/agent.service.ts:112-131 | A `null` argument object fails reading `amount`. Otherwise the coerced amount and codes go to the conversion, whose error propagates. The rates are fetched exactly when the conversion's checks before the request pass. |
| Agent.FirstToolCall | src/agent/agent.service.ts:26 | Selects the first tool call, if there is one. |
| Agent.Names | src/agent/agent.service.ts:28-32 | A missing tool call, a call without a `function` part, a function without a name and a function whose name is "" all count as naming no tool. |
| Agent.DirectAnswer | src/agent/agent.service.ts:33 | The content is used when non-empty. Absent or empty content gives "Unable to generate a response.". |
| Agent.MissingAmountRejected | src/agent/agent.service.ts:115-118 | A missing amount becomes 0. The turn then fails with "Amount must be greater than zero", makes no rate fetch, and makes no second gateway call. |
| Agent.MissingSourceCodeBecomesUndefined | src/agent/agent.service.ts:120-123 | A missing source code reaches the conversion as the text "undefined". It passes validation, triggers a rate fetch, and is rejected as the unsupported code "UNDEFINED". |
| Agent.UndefinedSourceRun | src/agent/agent.service.ts:112-131 | With a positive amount, a target code, an API key and rates that lack "UNDEFINED", a conversion call without `fromCurrency` records the call with source "undefined", then one rate fetch, and fails naming "UNDEFINED". |
| Agent.DirectAnswerScenario | src/agent/agent.service.ts:28-34 | A question answered without tools returns the model's text after one gateway call. |
| Agent.ProductSearchScenario | src/agent/agent.service.ts:36-59 | A search request runs the catalog once with the parsed query. The resulting products go to the second gateway call, whose text is the answer. |
| Agent.SearchTurn | src/agent/agent.service.ts:36-59 | A single search call whose JSON arguments parse to `{query: term}` searches the catalog once for that term. It passes the products to the second gateway call, whose text is the answer. |
| Agent.ConversionScenario | src/agent/agent.service.ts:36-59 | 100 USD to EUR at rates USD 1, EUR 0.9 fetches once. It passes 90 EUR at rate 0.9 to the second gateway call, whose text is the answer. |
| Agent.UnknownToolScenario | src/agent/agent.service.ts:46-51 | An unknown tool name makes the "not available" text the answer after one gateway call. The name can be read back from that text. |
| Currency.Convert | src/agent/tools/convert-currencies.ts:31-80 | Checks run in this order: a non-positive amount fails first; then a missing code; then a missing API key. A run fails with no fetch unless all three checks pass. After the fetch: a non-HTTP failure is rethrown unchanged, an HTTP failure is classified, and received rates give the conversion. Success requires a fetch that received rates. |
| Currency.ValidateInputs | src/agent/tools/convert-currencies.ts:85-93 | Validation passes if and only if the amount is not `<= 0` and both codes are non-empty. The amount check comes first. |
| Currency.ClassifyRequestFailure | src/agent/tools/convert-currencies.ts:98-120 | Status 401 is the authentication error and 429 the rate-limit error, in both directions. Any other status is an API error whose details are the response message when truthy, else the error message when non-empty, else "Unknown issue". |
| Currency.ConvertWithRates | src/agent/tools/convert-currencies.ts:52-75 | Codes are upper-cased before lookup. A missing or zero source rate names the source. Otherwise a missing or zero target rate names the target. Success holds if and only if both rates are supported. Then the amount is unchanged, the codes are upper-cased, the rate is the cross rate rounded to 6 places, and the result is the amount times the unrounded cross rate, rounded to 2 places. |
| Currency.RoundReal | src/agent/tools/convert-currencies.ts:73-74 | The rounded value is a whole number of units of the last kept digit. It is within half a unit of the exact value. |
| Currency.Round | src/agent/tools/convert-currencies.ts:73-74 | NaN stays NaN, and only NaN becomes NaN. |
| Currency.RateAccuracy | src/agent/tools/convert-currencies.ts:66-74 | The returned rate has at most 6 decimals and lies within 0.0000005 of the exact cross rate. |
| Currency.ResultAccuracy | src/agent/tools/convert-currencies.ts:66-73 | The result is NaN exactly when the amount is. Otherwise it is a whole number of cents within half a cent of the amount times the unrounded cross rate. |
| Currency.ScaledRounding | src/agent/tools/convert-currencies.ts:66-73 | Scaling a finite amount and rounding to 2 places gives whole cents within half a cent of the exact product. |
| Currency.RoundAtTwo | src/agent/tools/convert-currencies.ts:73 | Rounding to 2 places gives whole cents within 0.005. |
| Currency.FetchIrrelevantBeforeRequest | src/agent/tools/convert-currencies.ts:36-44 | When a check before the request fails, the outcome is a failure and does not depend on the fetch. |
| Currency.CodesCaseInsensitive | src/agent/tools/convert-currencies.ts:52-53 | Codes that upper-case alike give the same conversion. |
| Currency.UsdToEurExample | src/agent/tools/convert-currencies.spec.ts:19-45 | 100 USD to EUR at rates USD 1, EUR 0.9 gives result 90 and rate 0.9 with the codes kept. |
| Currency.UnsupportedTargetExample | src/agent/tools/convert-currencies.spec.ts:47-67 | Converting to "XYZ" fails naming "XYZ". |
| Catalog.Search | src/agent/tools/search-products.ts:27-70 | The result holds min(2, number of matches) products: the first matching rows in catalog order, each projected with placeholders. It never has more than 2 entries. |
| Catalog.MatchIndices | src/agent/tools/search-products.ts:44-51 | The match positions are strictly increasing, each one a matching row, and every matching row is listed. |
| Catalog.AllMatches | src/agent/tools/search-products.ts:43-61 | The accumulated list holds one projected product per matching row, in row order. |
| Catalog.OrDefault | src/agent/tools/search-products.ts:52-59 | A present, non-empty column is copied unchanged. An absent or empty column gives the placeholder. |
| Catalog.ProjectPlaceholders | src/agent/tools/search-products.ts:52-59 | A projected product never has an empty title, description, price or category, because placeholders stand in. A present title or description is copied unchanged, and the links default to "". |
| Catalog.IsMatch | src/agent/tools/search-products.ts:44-49 | The empty query matches every row. |
| Catalog.NormalizeQuery | src/agent/tools/search-products.ts:29 | The normalised query is no longer than the query. It holds no upper-case ASCII letter, and it neither begins nor ends with whitespace. |
| Catalog.SearchStreaming | src/agent/tools/search-products.ts:40-64 | Inspecting the rows one at a time, appending matches and cutting at the end gives the same answer as the search. |
| Catalog.AllMatchesAppend | src/agent/tools/search-products.ts:43-61 | The matches of concatenated catalogs are the matches of each part, in order. |
| Catalog.LaterRowsIrrelevant | src/agent/tools/search-products.ts:63 | Once two rows have matched, rows after them cannot change the answer. |
| Catalog.NonMatchingRowIrrelevant | src/agent/tools/search-products.ts:51-60 | Inserting a non-matching row anywhere leaves the answer unchanged. |
| Catalog.ResultsContainQuery | src/agent/tools/search-products.ts:44-49 | Every returned product's lower-cased title or description contains the normalised query. |
| Catalog.ProjectionKeepsMatch | src/agent/tools/search-products.ts:44-59 | Projecting a matching row keeps the query visible: its lower-cased title or description still contains the query, because a non-empty column is copied unchanged. |
| Catalog.BlankQueryTakesFirstRows | src/agent/tools/search-products.ts:29-49 | A query that is blank after lower-casing and trimming matches every row, so the answer is the first two rows, projected. |
| Validation.Transform | src/common/pipes/tool-validation.pipe.ts:19-36 | The pipe succeeds if and only if there are no violations, and then returns the instance unchanged. A failure's message is "Tool parameter validation failed: " followed by the formatted violations. |
| Validation.Segment | src/common/pipes/tool-validation.pipe.ts:43-46 | A field with no constraint map contributes "". A field with a single message contributes that message. |
| Validation.Segments | src/common/pipes/tool-validation.pipe.ts:42-46 | There is one segment per field, in field order. |
| Validation.FormatValidationErrors | src/common/pipes/tool-validation.pipe.ts:41-48 | No errors give "", and one error gives its segment alone. Otherwise the text starts with the first field's segment followed by "; ". |
| Validation.FailureMessageReadsBack | src/common/pipes/tool-validation.pipe.ts:28-48 | When no message contains ';', the text after the prefix splits at "; " back into the per-field segments. So the formatting keeps every field, in order. |
| Validation.SingleMessageFailure | src/common/pipes/tool-validation.pipe.ts:28-48 | When one field breaks one constraint, the failure message is the prefix followed by that constraint's text. |
| Validation.SingleFieldFailure | src/common/pipes/tool-validation.pipe.ts:28-48 | When only one field is listed, the failure message is the prefix followed by that field's messages joined by ", ". |
| Dtos.ValidateSearchProducts | src/agent/dto/search-products.dto.ts:6-9 | The search arguments pass if and only if `query` is present and is a non-empty string, which is then kept unchanged. |
| Dtos.SearchProductsViolations | src/agent/dto/search-products.dto.ts:6-9 | An absent or null query lists "Query cannot be empty" then "Query must be a string". "" lists only the first, a non-string value only the second, and a non-empty string nothing. |
| Dtos.ValidateConvertCurrencies | src/agent/dto/convert-currencies.dto.ts:6-26 | The conversion arguments pass if and only if the coerced amount is a number at least 0.01 and both codes are three upper-case ASCII letters. On success the codes are unchanged and the amount is that number. |
| Dtos.ToAmount | src/agent/dto/convert-currencies.dto.ts:7 | A number is kept. A string goes through the numeric-string parser. A missing or null amount is left unconverted. |
| Dtos.AmountMessages | src/agent/dto/convert-currencies.dto.ts:7-10 | The amount gets no message if and only if it is a number of at least 0.01. A value that is not a number (or NaN) gets "Amount must be greater than 0" then "Amount must be a number". A number below 0.01 gets only "Amount must be greater than 0". |
| Dtos.CodeMessages | src/agent/dto/convert-currencies.dto.ts:12-24 | A currency code contributes no message if and only if it is a string of three upper-case ASCII letters. |
| Dtos.CodeMessagesByInput | src/agent/dto/convert-currencies.dto.ts:12-24 | An absent or null code gets the format, empty and type messages, in that order. "" gets the format and empty messages. A non-string gets the format and type messages. A non-empty string outside the format gets only the format message. |
| Dtos.ConvertCurrenciesViolations | src/agent/dto/convert-currencies.dto.ts:6-26 | There are no violations if and only if the amount and both codes are valid. |
| Dtos.Collect | src/common/pipes/tool-validation.pipe.ts:24-28 | The violation list is empty if and only if every field's message list is empty. Each listed field has at least one message. |
| Dtos.OnlyAmountViolated | src/agent/dto/convert-currencies.dto.ts:6-26 | When both codes are valid and the amount is not, the amount is the only field listed, with its messages. |
| Dtos.OnlySourceViolated | src/agent/dto/convert-currencies.dto.ts:6-26 | When the amount and target are valid and the source is not, the source is the only field listed, with its messages. |
| Dtos.BothCodesMalformed | src/agent/dto/convert-currencies.dto.ts:6-26 | With a valid amount and two non-empty strings that are not codes, exactly the two format messages are listed, the source first. |
| Dtos.SearchQueryPasses | src/common/pipes/tool-validation.pipe.spec.ts:8-16 | `{query: "laptop"}` passes unchanged. |
| Dtos.EmptyQueryRejected | src/common/pipes/tool-validation.pipe.spec.ts:18-23 | An empty query fails with "Query cannot be empty". |
| Dtos.MissingQueryRejected | src/common/pipes/tool-validation.pipe.spec.ts:25-30 | A missing query fails with both query messages. |
| Dtos.ValidConversionPassesUnchanged | src/common/pipes/tool-validation.pipe.spec.ts:34-50 | `{100, "USD", "EUR"}` passes with its values unchanged. |
| Dtos.NumericStringAmountConverted | src/common/pipes/tool-validation.pipe.spec.ts:52-65 | The amount "150.50" becomes 150.5 and passes. |
| Dtos.NegativeAmountRejected | src/common/pipes/tool-validation.pipe.spec.ts:67-78 | An amount of -50 fails with "Amount must be greater than 0". |
| Dtos.MalformedCodeMessages | src/agent/dto/convert-currencies.dto.ts:12-24 | A non-empty string that is not a three-letter upper-case code gets only the format message. |
| Dtos.TwoLetterCodeRejected | src/common/pipes/tool-validation.pipe.spec.ts:80-91 | The source code "US" fails with the source format message. |
| Dtos.TwoSingleMessageFields | src/common/pipes/tool-validation.pipe.ts:41-48 | Two fields with one message each format as the two messages joined by "; ". |
| Dtos.LowercaseCodesViolations | src/common/pipes/tool-validation.pipe.spec.ts:93-104 | "usd" and "eur" each get their format message and are not normalised. |
| Dtos.LowercaseCodesRejected | src/common/pipes/tool-validation.pipe.spec.ts:93-104 | Lower-case codes make the pipe fail. |
| Outcomes.Option.GetOr | src/agent/agent.service.ts:59 | A present value is returned, including an empty one. An absent value gives the default, as `??` does. |
| Text.TrimStart | src/agent/tools/search-products.ts:29 | The result is a suffix of the input. Only whitespace is removed, and the result does not begin with whitespace. |
| Text.TrimEnd | src/agent/tools/search-products.ts:29 | The result is a prefix of the input. Only whitespace is removed, and the result does not end with whitespace. |
| Text.Trim | src/agent/tools/search-products.ts:29 | The result is the input with its leading and trailing whitespace removed. |
| Text.ToLower | src/agent/tools/search-products.ts:29-45 | The length is kept, no upper-case ASCII letter remains, and every other character is kept. |
| Text.ToUpper | src/agent/tools/convert-currencies.ts:52-53 | The length is kept, no lower-case ASCII letter remains, and every other character is kept. |
| Text.SplitJoin | src/common/pipes/tool-validation.pipe.ts:47 | Splitting a "; "-joined list whose parts lack ';' gives back the parts. |
| Text.Join | src/common/pipes/tool-validation.pipe.ts:45-47 | Joining no parts gives "", and one part gives that part. Otherwise the text starts with the first part followed by the separator. |
| Text.Contains | src/agent/tools/search-products.ts:44-49 | The empty string occurs in every text, a text contains each of its prefixes, and nothing longer than the text occurs in it. |
| Js.Property | src/agent/agent.service.ts:103-128 | Reading a property of `null` is a TypeError. An object gives the field when present. A non-object reads as undefined. |
| Js.Truthy | src/agent/agent.service.ts:115-118 | `undefined`, `null`, "", and 0 are falsy. Every array and object, and every non-empty string, is truthy. |
| Js.StringOf | src/agent/agent.service.ts:120-128 | `String(undefined)` is "undefined", and a string is returned unchanged. |
| Js.NumberOf | src/agent/agent.service.ts:115-118 | `Number(undefined)` is NaN, a number is kept, and a string goes through the host's numeric-string parser. |

## Left out

- The language-model gateway (`OpenaiService`) is not part of this model. Its two answers are parameters of a turn: the first response, and the content of the second response.
- Network and file I/O are replaced by parameters: the HTTP fetch of the rates, the CSV file read and parse, and `process.env`. A catalog read error is a parameter value whose message the turn rethrows.
- `JSON.parse`, number printing and numeric-string parsing are supplied functions. Their grammar and IEEE-754 details are not modelled.
- Numbers are exact reals plus NaN. Infinity, negative zero, binary floating-point error and `toFixed`'s exponential notation for magnitudes of 1e21 and more are left out.
- Case mapping is ASCII only. `toLowerCase`/`toUpperCase` map other Unicode letters too, which matters only for non-ASCII catalog text or codes.
- Currency.Round: the source uses `parseFloat(x.toFixed(d))` on binary floats. This model rounds the exact real half away from zero, so the binary representation of values such as 1.005 is not reproduced.
- A rate response without a `rates` table, or with non-numeric entries, is not modelled. The rate table is a map from code to real.
- The inherited object properties of JavaScript (for example `constructor`) are not modelled, so a rate lookup or argument read sees only the own fields.
- The async/Promise structure and console logging are left out. The flow is sequential.
- The HTTP controller, bootstrap, module wiring and startup banner are framework code outside the tool-dispatch logic.
- class-validator and class-transformer are not modelled as libraries. Their effect on the two DTOs is written out directly:
  - messages within a field are listed last decorator first;
  - fields are listed in declaration order;
  - `@Type(() => Number)` leaves null and undefined alone, turns an array into an array of converted elements (never a number, so the model keeps it unconverted), and applies `Number(...)` to everything else.
- The DTO amount rule follows the code: `@Min(0.01)`, so 0.005 is rejected although it is greater than zero, while the message says "greater than 0".

## Notes on behaviour

- The router does not run the validation pipe. An amount of NaN, from a non-numeric string, is not `<= 0`, so the conversion accepts it and returns a NaN result. The pipe would reject the same input.
- A missing currency code reaches the conversion as the text "undefined", not as an empty code. It is therefore reported as the unsupported code "UNDEFINED" after a rate fetch, rather than as "Both source and target currency codes are required".
- The `"Tool"` prefix short-circuit tests any string result. Only the "not available" text is a string result, so the test is exact in this code (`Agent.ExecuteToolFunction`).
