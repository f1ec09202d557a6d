/** The orchestrator and tool router (src/agent/agent.service.ts). One turn asks the model
    gateway once, honours at most the first tool call of its answer, coerces that call's
    arguments, runs the named tool, and either returns the tool's "not available" text at once
    or asks the gateway a second time with the tool's result. The gateway's answers, the host
    runtime and the tools' external inputs are parameters; the turn returns its answer (or the
    error it throws) with the trace of calls it made. */
module Agent {
  import opened Outcomes
  import opened Js
  import Text
  import Catalog
  import Currency

  /** A tool call's `arguments`: JSON text, or an already structured object. */
  datatype RawArguments = JsonText(text: string) | Structured(fields: map<string, Value>)

  /** The `function` part of a tool call; the name may be missing. */
  datatype FunctionCall = FunctionCall(name: Option<string>, arguments: RawArguments)

  /** One entry of `tool_calls`; `func` is None when the entry has no `function` part. */
  datatype ToolCall = ToolCall(func: Option<FunctionCall>)

  /** The gateway's first answer: optional text and the (possibly empty) list of tool calls. */
  datatype FirstResponse = FirstResponse(content: Option<string>, toolCalls: seq<ToolCall>)

  /** What reading the product catalog yields: its rows, or the stream's error. */
  datatype CatalogRead = CatalogRows(rows: seq<Catalog.CsvRecord>) | CatalogUnreadable(message: string)

  /** Everything a turn depends on besides the query and the gateway's answers. */
  datatype Environment = Environment(
    host: Host,
    catalog: CatalogRead,
    apiKey: Option<string>,
    rates: Currency.FetchOutcome)

  /** What a tool hands back: a string (only the "not available" text), products, or a conversion. */
  datatype ToolOutput =
    | StringOutput(s: string)
    | Products(items: seq<Catalog.Product>)
    | Conversion(result: Currency.ConversionResult)

  /** The errors a turn throws. */
  datatype TurnError =
    | MalformedArguments
    | NullArguments(key: string)
    | CatalogReadFailed(message: string)
    | ConversionFailed(error: Currency.ConversionError)
  {
    function Message(): string {
      match this
      case MalformedArguments => "Malformed tool arguments from AI response."
      case NullArguments(key) => "Cannot read properties of null (reading '" + key + "')"
      case CatalogReadFailed(message) => message
      case ConversionFailed(error) => error.Message()
    }
  }

  /** The observable steps of a turn, in order. */
  datatype Event =
    | AskWithToolCalling(query: string)
    | SearchCatalog(query: string)
    | ConvertCurrencies(amount: Num, from: string, to: string)
    | FetchRates
    | CompleteToolResult(query: string, call: ToolCall, output: ToolOutput)

  /** The result of one turn: the answer text or the thrown error, and the trace. */
  datatype Turn = Turn(answer: Result<string, TurnError>, trace: seq<Event>)

  const SearchProductsTool: string := "searchProducts"
  const ConvertCurrenciesTool: string := "convertCurrencies"
  const NoResponse: string := "Unable to generate a response."
  const NoContent: string := "Response generated without content."
  const SentinelHead: string := "Tool \""
  const SentinelTail: string := "\" is not available."

  // ---- Trace bookkeeping -------------------------------------------------------------------

  predicate IsGatewayCall(e: Event) {
    e.AskWithToolCalling? || e.CompleteToolResult?
  }

  predicate IsToolRun(e: Event) {
    e.SearchCatalog? || e.ConvertCurrencies?
  }

  function GatewayCalls(trace: seq<Event>): nat {
    if |trace| == 0 then 0
    else GatewayCalls(trace[..|trace| - 1]) + (if IsGatewayCall(trace[|trace| - 1]) then 1 else 0)
  }

  function ToolRuns(trace: seq<Event>): nat {
    if |trace| == 0 then 0
    else ToolRuns(trace[..|trace| - 1]) + (if IsToolRun(trace[|trace| - 1]) then 1 else 0)
  }

  /** Counting distributes over concatenation. */
  lemma {:induction false} CountsAppend(a: seq<Event>, b: seq<Event>)
    ensures GatewayCalls(a + b) == GatewayCalls(a) + GatewayCalls(b)
    ensures ToolRuns(a + b) == ToolRuns(a) + ToolRuns(b)
    decreases |b|
  {
    if |b| == 0 {
      assert a + b == a;
    } else {
      var n := |b| - 1;
      assert (a + b)[..|a + b| - 1] == a + b[..n];
      assert (a + b)[|a + b| - 1] == b[n];
      CountsAppend(a, b[..n]);
    }
  }

  /** Counts of a trace of at most two tool-side events. */
  lemma CountsOfSteps(steps: seq<Event>)
    requires |steps| <= 2
    requires forall i :: 0 <= i < |steps| ==> !IsGatewayCall(steps[i])
    requires forall i :: 0 < i < |steps| ==> !IsToolRun(steps[i])
    ensures GatewayCalls(steps) == 0 && ToolRuns(steps) <= 1
  {
    if |steps| == 2 {
      assert steps[..1][..0] == [];
    } else if |steps| == 1 {
      assert steps[..0] == [];
    }
  }

  // ---- The "not available" sentinel ---------------------------------------------------------

  /** The text the router returns for a name it does not know. */
  function Unavailable(name: string): (s: string)
    ensures Text.StartsWith(s, "Tool")
  {
    var s := SentinelHead + name + SentinelTail;
    assert s[..4] == "Tool";
    s
  }

  /** Reads the tool name back out of a "not available" text. */
  function UnavailableName(s: string): Option<string> {
    if |s| >= |SentinelHead| + |SentinelTail|
       && s[..|SentinelHead|] == SentinelHead
       && s[|s| - |SentinelTail|..] == SentinelTail
    then Some(s[|SentinelHead|..|s| - |SentinelTail|])
    else None
  }

  /** The sentinel names its tool unambiguously. */
  lemma SentinelRoundTrip(name: string)
    ensures UnavailableName(Unavailable(name)) == Some(name)
  {
    var s := Unavailable(name);
    assert s == SentinelHead + name + SentinelTail;
    assert s[..|SentinelHead|] == SentinelHead;
    assert s[|s| - |SentinelTail|..] == SentinelTail;
    assert s[|SentinelHead|..|s| - |SentinelTail|] == name;
  }

  // ---- Argument handling and routing ---------------------------------------------------------

  /** `parseToolArguments`: JSON text is parsed (a parse failure is the malformed-arguments
      error), a structured object is used as it is. */
  function ParseToolArguments(arguments: RawArguments, host: Host): (r: Result<Value, TurnError>)
    ensures arguments.Structured? ==> r == Success(Object(arguments.fields))
    ensures arguments.JsonText? && host.parseJson(arguments.text).None? ==> r == Failure(MalformedArguments)
    ensures arguments.JsonText? && host.parseJson(arguments.text).Some? ==>
      r == Success(host.parseJson(arguments.text).value)
    ensures r.Failure? ==> r.error == MalformedArguments
  {
    match arguments
    case JsonText(text) =>
      (match host.parseJson(text)
       case None => Failure(MalformedArguments)
       case Some(v) => Success(v))
    case Structured(fields) => Success(Object(fields))
  }

  /** `typeof v === 'string' ? v : String(v)`. */
  function AsString(v: Option<Value>, host: Host): (s: string)
    ensures v.Some? && v.value.Str? ==> s == v.value.s
    ensures v == None ==> s == "undefined"
  {
    if v.Some? && v.value.Str? then v.value.s else StringOf(v, host)
  }

  /** `typeof v === 'number' ? v : Number(v || 0)`: a missing or falsy amount becomes 0. */
  function AsAmount(v: Option<Value>, host: Host): (n: Num)
    ensures v.Some? && v.value.Number? ==> n == Finite(v.value.n)
    ensures !Truthy(v) ==> n == Finite(0.0)
    ensures v.Some? && v.value.Str? && v.value.s != "" ==> n == host.parseNumber(v.value.s)
  {
    if v.Some? && v.value.Number? then Finite(v.value.n)
    else if Truthy(v) then NumberOf(v, host)
    else Finite(0.0)
  }

  /** `executeProductSearch`: the coerced query runs against the catalog. */
  function ExecuteProductSearch(params: Value, env: Environment): (r: (Result<ToolOutput, TurnError>, seq<Event>))
    ensures params.Null? ==> r == (Failure(NullArguments("query")), [])
    ensures !params.Null? ==>
      var query := AsString(Property(params, "query").v, env.host);
      && r.1 == [SearchCatalog(query)]
      && (env.catalog.CatalogRows? ==> r.0 == Success(Products(Catalog.Search(query, env.catalog.rows))))
      && (env.catalog.CatalogUnreadable? ==> r.0 == Failure(CatalogReadFailed(env.catalog.message)))
  {
    match Property(params, "query")
    case NullDereference => (Failure(NullArguments("query")), [])
    case Read(v) =>
      var query := AsString(v, env.host);
      var outcome :=
        match env.catalog
        case CatalogRows(rows) => Success(Products(Catalog.Search(query, rows)))
        case CatalogUnreadable(message) => Failure(CatalogReadFailed(message));
      (outcome, [SearchCatalog(query)])
  }

  /** `executeCurrencyConversion`: coerced amount and codes go to the conversion; the rates are
      requested only when the conversion gets that far. */
  function ExecuteCurrencyConversion(params: Value, env: Environment): (r: (Result<ToolOutput, TurnError>, seq<Event>))
    ensures params.Null? ==> r == (Failure(NullArguments("amount")), [])
    ensures !params.Null? ==>
      var amount := AsAmount(Property(params, "amount").v, env.host);
      var from := AsString(Property(params, "fromCurrency").v, env.host);
      var to := AsString(Property(params, "toCurrency").v, env.host);
      && r.1 == [ConvertCurrencies(amount, from, to)]
               + (if Currency.ReachesFetch(amount, from, to, env.apiKey) then [FetchRates] else [])
      && match Currency.Convert(amount, from, to, env.apiKey, env.rates, env.host)
         case Success(c) => r.0 == Success(Conversion(c))
         case Failure(e) => r.0 == Failure(ConversionFailed(e))
  {
    match Property(params, "amount")
    case NullDereference => (Failure(NullArguments("amount")), [])
    case Read(rawAmount) =>
      var amount := AsAmount(rawAmount, env.host);
      var from := AsString(Property(params, "fromCurrency").v, env.host);
      var to := AsString(Property(params, "toCurrency").v, env.host);
      var steps := [ConvertCurrencies(amount, from, to)]
        + (if Currency.ReachesFetch(amount, from, to, env.apiKey) then [FetchRates] else []);
      var outcome :=
        match Currency.Convert(amount, from, to, env.apiKey, env.rates, env.host)
        case Success(c) => Success(Conversion(c))
        case Failure(e) => Failure(ConversionFailed(e));
      (outcome, steps)
  }

  /** `executeToolFunction`: route by name; an unknown name is not an error but the
      "not available" text. Only that case yields a string. */
  function ExecuteToolFunction(name: string, params: Value, env: Environment)
    : (r: (Result<ToolOutput, TurnError>, seq<Event>))
    ensures name == SearchProductsTool ==> r == ExecuteProductSearch(params, env)
    ensures name == ConvertCurrenciesTool ==> r == ExecuteCurrencyConversion(params, env)
    ensures name != SearchProductsTool && name != ConvertCurrenciesTool ==> r == (Success(StringOutput(Unavailable(name))), [])
    ensures r.0.Success? && r.0.value.StringOutput? <==> name != SearchProductsTool && name != ConvertCurrenciesTool
    ensures |r.1| <= 2 && GatewayCalls(r.1) == 0 && ToolRuns(r.1) <= 1
  {
    var r :=
      if name == SearchProductsTool then ExecuteProductSearch(params, env)
      else if name == ConvertCurrenciesTool then ExecuteCurrencyConversion(params, env)
      else (Success(StringOutput(Unavailable(name))), []);
    CountsOfSteps(r.1);
    r
  }

  // ---- The turn --------------------------------------------------------------------------------

  /** The first tool call, when the list has one (`tool_calls?.[0]`). */
  function FirstToolCall(response: FirstResponse): (c: Option<ToolCall>)
    ensures c.Some? <==> |response.toolCalls| > 0
    ensures c.Some? ==> c.value == response.toolCalls[0]
  {
    if |response.toolCalls| > 0 then Some(response.toolCalls[0]) else None
  }

  /** A tool call that names a function: it has a `function` part with a non-empty name. */
  predicate Names(call: Option<ToolCall>)
    ensures call.None? || call.value.func.None? || call.value.func.value.name.None? ==> !Names(call)
    ensures call.Some? && call.value.func.Some? && call.value.func.value.name == Some("") ==> !Names(call)
  {
    call.Some? && call.value.func.Some? && call.value.func.value.name.Some? && call.value.func.value.name.value != ""
  }

  /** The answer when no tool is run: the text, unless it is missing or empty. */
  function DirectAnswer(content: Option<string>): (s: string)
    ensures content.Some? && content.value != "" ==> s == content.value
    ensures content.None? || content.value == "" ==> s == NoResponse
  {
    if content.Some? && content.value != "" then content.value else NoResponse
  }

  /** `handleQuery(query)`, with the gateway's two answers given: `first` for the tool-calling
      request and `finalContent` for the request that carries the tool's result. */
  function HandleQuery(query: string, first: FirstResponse, finalContent: Option<string>, env: Environment)
    : (t: Turn)
    ensures |t.trace| >= 1 && t.trace[0] == AskWithToolCalling(query)
    ensures 1 <= GatewayCalls(t.trace) <= 2 && ToolRuns(t.trace) <= 1
    ensures !Names(FirstToolCall(first)) ==>
      t == Turn(Success(DirectAnswer(first.content)), [AskWithToolCalling(query)])
    ensures Names(FirstToolCall(first)) && ParseToolArguments(first.toolCalls[0].func.value.arguments, env.host).Failure? ==>
      t == Turn(Failure(MalformedArguments), [AskWithToolCalling(query)])
    ensures Names(FirstToolCall(first)) ==>
      var name := first.toolCalls[0].func.value.name.value;
      name != SearchProductsTool && name != ConvertCurrenciesTool
      && ParseToolArguments(first.toolCalls[0].func.value.arguments, env.host).Success? ==>
      t == Turn(Success(Unavailable(name)), [AskWithToolCalling(query)])
    ensures GatewayCalls(t.trace) == 2 ==>
      && Names(FirstToolCall(first))
      && t.trace[|t.trace| - 1].CompleteToolResult?
      && t.trace[|t.trace| - 1].query == query
      && t.trace[|t.trace| - 1].call == first.toolCalls[0]
      && t.answer == Success(finalContent.GetOr(NoContent))
  {
    var ask := [AskWithToolCalling(query)];
    assert GatewayCalls(ask) == 1 && ToolRuns(ask) == 0 by { assert ask[..0] == []; }
    var requested := FirstToolCall(first);
    if !Names(requested) then
      Turn(Success(DirectAnswer(first.content)), ask)
    else
      var call := requested.value;
      var name := call.func.value.name.value;
      match ParseToolArguments(call.func.value.arguments, env.host)
      case Failure(e) => Turn(Failure(e), ask)
      case Success(params) =>
        var (outcome, steps) := ExecuteToolFunction(name, params, env);
        CountsAppend(ask, steps);
        match outcome
        case Failure(e) => Turn(Failure(e), ask + steps)
        case Success(output) =>
          if output.StringOutput? && Text.StartsWith(output.s, "Tool") then
            Turn(Success(output.s), ask + steps)
          else
            var complete := [CompleteToolResult(query, call, output)];
            assert GatewayCalls(complete) == 1 && ToolRuns(complete) == 0 by { assert complete[..0] == []; }
            CountsAppend(ask + steps, complete);
            Turn(Success(finalContent.GetOr(NoContent)), ask + steps + complete)
  }

  // ---- Properties of a turn --------------------------------------------------------------------

  /** The gateway is asked a second time exactly when a named, known tool ran on well-formed
      arguments and succeeded; that call carries the query, the first tool call and exactly
      the tool's output. */
  lemma SecondCallIffToolSucceeded(query: string, first: FirstResponse, finalContent: Option<string>, env: Environment)
    ensures var t := HandleQuery(query, first, finalContent, env);
      GatewayCalls(t.trace) == 2 <==>
        && Names(FirstToolCall(first))
        && var fc := first.toolCalls[0].func.value;
           && ParseToolArguments(fc.arguments, env.host).Success?
           && (fc.name.value == SearchProductsTool || fc.name.value == ConvertCurrenciesTool)
           && ExecuteToolFunction(fc.name.value, ParseToolArguments(fc.arguments, env.host).value, env).0.Success?
    ensures var t := HandleQuery(query, first, finalContent, env);
      GatewayCalls(t.trace) == 2 ==>
        var fc := first.toolCalls[0].func.value;
        t.trace[|t.trace| - 1].output
          == ExecuteToolFunction(fc.name.value, ParseToolArguments(fc.arguments, env.host).value, env).0.value
  {
    var t := HandleQuery(query, first, finalContent, env);
    var ask := [AskWithToolCalling(query)];
    assert GatewayCalls(ask) == 1 by { assert ask[..0] == []; }
    if Names(FirstToolCall(first)) {
      var fc := first.toolCalls[0].func.value;
      var parsed := ParseToolArguments(fc.arguments, env.host);
      if parsed.Success? {
        var r := ExecuteToolFunction(fc.name.value, parsed.value, env);
        CountsAppend(ask, r.1);
        if r.0.Success? && !(fc.name.value == SearchProductsTool || fc.name.value == ConvertCurrenciesTool) {
          assert t.trace == ask;
        }
      }
    }
  }

  /** A known tool that ran and succeeded: its steps follow the first gateway call, and the
      second call, with the tool's output, gives the answer. */
  lemma KnownToolTurn(query: string, first: FirstResponse, finalContent: Option<string>, env: Environment,
                      params: Value, output: ToolOutput, steps: seq<Event>)
    requires Names(FirstToolCall(first))
    requires ParseToolArguments(first.toolCalls[0].func.value.arguments, env.host) == Success(params)
    requires first.toolCalls[0].func.value.name.value in {SearchProductsTool, ConvertCurrenciesTool}
    requires ExecuteToolFunction(first.toolCalls[0].func.value.name.value, params, env) == (Success(output), steps)
    ensures HandleQuery(query, first, finalContent, env)
         == Turn(Success(finalContent.GetOr(NoContent)),
                 [AskWithToolCalling(query)] + steps + [CompleteToolResult(query, first.toolCalls[0], output)])
  {
  }

  /** `KnownToolTurn` for a first answer that holds exactly one named tool call. */
  lemma SingleKnownCallTurn(query: string, content: Option<string>, name: string, arguments: RawArguments,
                            finalContent: Option<string>, env: Environment,
                            params: Value, output: ToolOutput, steps: seq<Event>)
    requires name == SearchProductsTool || name == ConvertCurrenciesTool
    requires ParseToolArguments(arguments, env.host) == Success(params)
    requires ExecuteToolFunction(name, params, env) == (Success(output), steps)
    ensures var call := ToolCall(Some(FunctionCall(Some(name), arguments)));
      HandleQuery(query, FirstResponse(content, [call]), finalContent, env)
      == Turn(Success(finalContent.GetOr(NoContent)),
              [AskWithToolCalling(query)] + steps + [CompleteToolResult(query, call, output)])
  {
    var call := ToolCall(Some(FunctionCall(Some(name), arguments)));
    KnownToolTurn(query, FirstResponse(content, [call]), finalContent, env, params, output, steps);
  }

  /** The conversion tool on arguments that carry all three fields as a number and two strings. */
  lemma ConversionToolRun(amount: real, from: string, to: string, env: Environment)
    ensures var params := Object(map["amount" := Number(amount), "fromCurrency" := Str(from), "toCurrency" := Str(to)]);
      var r := ExecuteCurrencyConversion(params, env);
      && r.1 == [ConvertCurrencies(Finite(amount), from, to)]
                + (if Currency.ReachesFetch(Finite(amount), from, to, env.apiKey) then [FetchRates] else [])
      && match Currency.Convert(Finite(amount), from, to, env.apiKey, env.rates, env.host)
         case Success(c) => r.0 == Success(Conversion(c))
         case Failure(e) => r.0 == Failure(ConversionFailed(e))
  {
    var params := Object(map["amount" := Number(amount), "fromCurrency" := Str(from), "toCurrency" := Str(to)]);
    assert Property(params, "amount") == Read(Some(Number(amount)));
    assert Property(params, "fromCurrency") == Read(Some(Str(from)));
    assert Property(params, "toCurrency") == Read(Some(Str(to)));
  }

  /** The conversion tool on arguments that carry an amount and a target code but no source code. */
  lemma MissingSourceToolRun(amount: real, to: string, env: Environment)
    ensures var params := Object(map["amount" := Number(amount), "toCurrency" := Str(to)]);
      var r := ExecuteCurrencyConversion(params, env);
      && r.1 == [ConvertCurrencies(Finite(amount), "undefined", to)]
                + (if Currency.ReachesFetch(Finite(amount), "undefined", to, env.apiKey) then [FetchRates] else [])
      && match Currency.Convert(Finite(amount), "undefined", to, env.apiKey, env.rates, env.host)
         case Success(c) => r.0 == Success(Conversion(c))
         case Failure(e) => r.0 == Failure(ConversionFailed(e))
  {
    var params := Object(map["amount" := Number(amount), "toCurrency" := Str(to)]);
    assert Property(params, "amount") == Read(Some(Number(amount)));
    assert Property(params, "fromCurrency") == Read(None);
    assert Property(params, "toCurrency") == Read(Some(Str(to)));
  }

  /** A first answer with one call to a known tool that fails: the tool's error is the answer,
      after the tool's own steps, and the gateway is not asked again. */
  lemma FailedToolTurn(query: string, content: Option<string>, name: string, arguments: RawArguments,
                       finalContent: Option<string>, env: Environment,
                       params: Value, error: TurnError, steps: seq<Event>)
    requires name == SearchProductsTool || name == ConvertCurrenciesTool
    requires ParseToolArguments(arguments, env.host) == Success(params)
    requires ExecuteToolFunction(name, params, env) == (Failure(error), steps)
    ensures var call := ToolCall(Some(FunctionCall(Some(name), arguments)));
      HandleQuery(query, FirstResponse(content, [call]), finalContent, env)
      == Turn(Failure(error), [AskWithToolCalling(query)] + steps)
  {
  }

  /** Tool calls after the first one are ignored. */
  lemma OnlyFirstToolCallCounts(query: string, content: Option<string>, call: ToolCall,
                                rest1: seq<ToolCall>, rest2: seq<ToolCall>,
                                finalContent: Option<string>, env: Environment)
    ensures HandleQuery(query, FirstResponse(content, [call] + rest1), finalContent, env)
         == HandleQuery(query, FirstResponse(content, [call] + rest2), finalContent, env)
  {
    assert FirstToolCall(FirstResponse(content, [call] + rest1)) == Some(call);
    assert FirstToolCall(FirstResponse(content, [call] + rest2)) == Some(call);
  }

  /** JSON text that parses to an object gives the same answer as that object passed
      structured; the traces differ only in the recorded tool call. */
  lemma JsonAndStructuredAgree(query: string, content: Option<string>, name: string, text: string,
                               fields: map<string, Value>, finalContent: Option<string>, env: Environment)
    requires env.host.parseJson(text) == Some(Object(fields))
    ensures var json := HandleQuery(query, FirstResponse(content, [ToolCall(Some(FunctionCall(Some(name), JsonText(text))))]), finalContent, env);
            var structured := HandleQuery(query, FirstResponse(content, [ToolCall(Some(FunctionCall(Some(name), Structured(fields))))]), finalContent, env);
      && json.answer == structured.answer
      && |json.trace| == |structured.trace|
      && forall i :: 0 <= i < |json.trace| && !json.trace[i].CompleteToolResult? ==> json.trace[i] == structured.trace[i]
  {
    var jsonCall := ToolCall(Some(FunctionCall(Some(name), JsonText(text))));
    var structuredCall := ToolCall(Some(FunctionCall(Some(name), Structured(fields))));
    var json := HandleQuery(query, FirstResponse(content, [jsonCall]), finalContent, env);
    var structured := HandleQuery(query, FirstResponse(content, [structuredCall]), finalContent, env);
    var params := Object(fields);
    assert ParseToolArguments(JsonText(text), env.host) == Success(params);
    var (outcome, steps) := ExecuteToolFunction(name, params, env);
    var ask := [AskWithToolCalling(query)];
    if outcome.Success? && !(outcome.value.StringOutput? && Text.StartsWith(outcome.value.s, "Tool")) {
      assert json.trace == ask + steps + [CompleteToolResult(query, jsonCall, outcome.value)];
      assert structured.trace == ask + steps + [CompleteToolResult(query, structuredCall, outcome.value)];
    } else {
      assert json == structured;
    }
  }

  /** A missing `amount` is coerced to 0, so the conversion fails validation and the exchange
      rates are never requested. */
  lemma MissingAmountRejected(query: string, content: Option<string>, fields: map<string, Value>,
                              finalContent: Option<string>, env: Environment)
    requires "amount" !in fields
    ensures var t := HandleQuery(query, FirstResponse(content, [ToolCall(Some(FunctionCall(Some(ConvertCurrenciesTool), Structured(fields))))]), finalContent, env);
      && t.answer == Failure(ConversionFailed(Currency.AmountNotPositive))
      && FetchRates !in t.trace
      && GatewayCalls(t.trace) == 1
  {
    var params := Object(fields);
    var from := AsString(Property(params, "fromCurrency").v, env.host);
    var to := AsString(Property(params, "toCurrency").v, env.host);
    var step := ConvertCurrencies(Finite(0.0), from, to);
    assert ExecuteCurrencyConversion(params, env) == (Failure(ConversionFailed(Currency.AmountNotPositive)), [step]) by {
      assert Property(params, "amount") == Read(None);
      assert !Currency.ReachesFetch(Finite(0.0), from, to, env.apiKey);
      assert ExecuteCurrencyConversion(params, env).1 == [step] + [] == [step];
    }
    FailedToolTurn(query, content, ConvertCurrenciesTool, Structured(fields), finalContent, env,
                   params, ConversionFailed(Currency.AmountNotPositive), [step]);
    var trace := [AskWithToolCalling(query)] + [step];
    assert trace[..1] == [AskWithToolCalling(query)] && trace[..1][..0] == [];
  }

  /** A missing currency code is coerced to the text "undefined", which is not a validation
      error: it reaches the rate lookup and is reported there as the unsupported code
      "UNDEFINED". */
  lemma MissingSourceCodeBecomesUndefined(query: string, content: Option<string>, amount: real, to: string,
                                          rates: map<string, real>, finalContent: Option<string>, host: Host,
                                          catalog: CatalogRead, apiKey: string)
    requires amount > 0.0 && to != "" && apiKey != ""
    requires !Currency.Supported(rates, "UNDEFINED")
    ensures var fields := map["amount" := Number(amount), "toCurrency" := Str(to)];
            var env := Environment(host, catalog, Some(apiKey), Currency.RatesReceived(rates));
            var t := HandleQuery(query, FirstResponse(content, [ToolCall(Some(FunctionCall(Some(ConvertCurrenciesTool), Structured(fields))))]), finalContent, env);
      && t.answer == Failure(ConversionFailed(Currency.UnsupportedCurrency("UNDEFINED")))
      && t.trace == [AskWithToolCalling(query), ConvertCurrencies(Finite(amount), "undefined", to), FetchRates]
  {
    var fields := map["amount" := Number(amount), "toCurrency" := Str(to)];
    var env := Environment(host, catalog, Some(apiKey), Currency.RatesReceived(rates));
    var steps := [ConvertCurrencies(Finite(amount), "undefined", to), FetchRates];
    UndefinedSourceRun(amount, to, env);
    FailedToolTurn(query, content, ConvertCurrenciesTool, Structured(fields), finalContent, env, Object(fields),
                   ConversionFailed(Currency.UnsupportedCurrency("UNDEFINED")), steps);
    assert [AskWithToolCalling(query)] + steps == [AskWithToolCalling(query), steps[0], steps[1]];
  }

  /** The tool-level half of the scenario above: the source code "undefined" reaches the rate
      lookup and is rejected there. */
  lemma UndefinedSourceRun(amount: real, to: string, env: Environment)
    requires amount > 0.0 && to != ""
    requires env.apiKey.Some? && env.apiKey.value != ""
    requires env.rates.RatesReceived? && !Currency.Supported(env.rates.rates, "UNDEFINED")
    ensures ExecuteCurrencyConversion(Object(map["amount" := Number(amount), "toCurrency" := Str(to)]), env)
         == (Failure(ConversionFailed(Currency.UnsupportedCurrency("UNDEFINED"))),
             [ConvertCurrencies(Finite(amount), "undefined", to), FetchRates])
  {
    var steps := [ConvertCurrencies(Finite(amount), "undefined", to), FetchRates];
    MissingSourceToolRun(amount, to, env);
    assert Text.ToUpper("undefined") == "UNDEFINED";
    assert Currency.ReachesFetch(Finite(amount), "undefined", to, env.apiKey);
    assert ExecuteCurrencyConversion(Object(map["amount" := Number(amount), "toCurrency" := Str(to)]), env).1
        == [steps[0]] + [FetchRates] == steps;
  }

  // ---- End-to-end scenarios --------------------------------------------------------------------

  /** A question the model answers itself: one gateway call, its text returned. */
  lemma DirectAnswerScenario(env: Environment, finalContent: Option<string>)
    ensures HandleQuery("Tell me a joke", FirstResponse(Some("Why did the chicken cross the road?"), []), finalContent, env)
         == Turn(Success("Why did the chicken cross the road?"), [AskWithToolCalling("Tell me a joke")])
  {
  }

  /** The search tool on arguments whose `query` is a string: one catalog search with it. */
  lemma SearchToolRun(params: Value, term: string, env: Environment)
    requires Property(params, "query") == Read(Some(Str(term)))
    requires env.catalog.CatalogRows?
    ensures ExecuteToolFunction(SearchProductsTool, params, env)
         == (Success(Products(Catalog.Search(term, env.catalog.rows))), [SearchCatalog(term)])
  {
  }

  lemma ThreeEvents(a: Event, b: Event, c: Event)
    ensures [a] + [b] + [c] == [a, b, c]
  {
  }

  /** A single `searchProducts` call whose JSON arguments parse to `{query: term}`. */
  lemma SearchTurn(query: string, arguments: string, term: string, env: Environment, reply: string)
    requires env.catalog.CatalogRows?
    requires env.host.parseJson(arguments) == Some(Object(map["query" := Str(term)]))
    ensures
      var call := ToolCall(Some(FunctionCall(Some(SearchProductsTool), JsonText(arguments))));
      HandleQuery(query, FirstResponse(None, [call]), Some(reply), env)
      == Turn(Success(reply),
              [AskWithToolCalling(query)] + [SearchCatalog(term)]
              + [CompleteToolResult(query, call, Products(Catalog.Search(term, env.catalog.rows)))])
  {
    var params := Object(map["query" := Str(term)]);
    SearchToolRun(params, term, env);
    SingleKnownCallTurn(query, None, SearchProductsTool, JsonText(arguments), Some(reply), env,
                        params, Products(Catalog.Search(term, env.catalog.rows)), [SearchCatalog(term)]);
  }

  /** A product search (say, "I am looking for a phone" with arguments `{"query":"phone"}`): the
      catalog runs once with the query the model extracted, and its results go to the second
      gateway call, whose text is the answer. */
  lemma ProductSearchScenario(query: string, arguments: string, term: string, rows: seq<Catalog.CsvRecord>,
                              host: Host, apiKey: Option<string>, rates: Currency.FetchOutcome, reply: string)
    requires host.parseJson(arguments) == Some(Object(map["query" := Str(term)]))
    ensures
      var call := ToolCall(Some(FunctionCall(Some(SearchProductsTool), JsonText(arguments))));
      var env := Environment(host, CatalogRows(rows), apiKey, rates);
      HandleQuery(query, FirstResponse(None, [call]), Some(reply), env)
      == Turn(Success(reply),
              [AskWithToolCalling(query),
               SearchCatalog(term),
               CompleteToolResult(query, call, Products(Catalog.Search(term, rows)))])
  {
    var env := Environment(host, CatalogRows(rows), apiKey, rates);
    var call := ToolCall(Some(FunctionCall(Some(SearchProductsTool), JsonText(arguments))));
    SearchTurn(query, arguments, term, env, reply);
    ThreeEvents(AskWithToolCalling(query), SearchCatalog(term),
                CompleteToolResult(query, call, Products(Catalog.Search(term, rows))));
  }

  /** A conversion of 100 USD to EUR at 0.9: the rates are fetched once and the second gateway
      call receives 90 EUR at rate 0.9. */
  lemma ConversionScenario(host: Host, catalog: CatalogRead)
    ensures
      var call := ToolCall(Some(FunctionCall(Some(ConvertCurrenciesTool),
        Structured(map["amount" := Number(100.0), "fromCurrency" := Str("USD"), "toCurrency" := Str("EUR")]))));
      var env := Environment(host, catalog, Some("test_key"), Currency.RatesReceived(map["USD" := 1.0, "EUR" := 0.9]));
      HandleQuery("How much is 100 USD in EUR?", FirstResponse(None, [call]), Some("About 90 EUR."), env)
      == Turn(Success("About 90 EUR."),
                 [AskWithToolCalling("How much is 100 USD in EUR?"),
                  ConvertCurrencies(Finite(100.0), "USD", "EUR"),
                  FetchRates,
                  CompleteToolResult("How much is 100 USD in EUR?", call,
                    Conversion(Currency.ConversionResult(Finite(100.0), "USD", "EUR", Finite(90.0), 0.9)))])
  {
    var query := "How much is 100 USD in EUR?";
    var fields := map["amount" := Number(100.0), "fromCurrency" := Str("USD"), "toCurrency" := Str("EUR")];
    var call := ToolCall(Some(FunctionCall(Some(ConvertCurrenciesTool), Structured(fields))));
    var env := Environment(host, catalog, Some("test_key"), Currency.RatesReceived(map["USD" := 1.0, "EUR" := 0.9]));
    var params := Object(fields);
    var steps := [ConvertCurrencies(Finite(100.0), "USD", "EUR"), FetchRates];
    var output := Conversion(Currency.ConversionResult(Finite(100.0), "USD", "EUR", Finite(90.0), 0.9));
    assert ExecuteCurrencyConversion(params, env) == (Success(output), steps) by {
      ConversionToolRun(100.0, "USD", "EUR", env);
      Currency.UsdToEurExample(host);
      assert ExecuteCurrencyConversion(params, env).1 == [steps[0]] + [FetchRates] == steps;
    }
    SingleKnownCallTurn(query, None, ConvertCurrenciesTool, Structured(fields), Some("About 90 EUR."), env,
                        params, output, steps);
    var complete := CompleteToolResult(query, call, output);
    assert [AskWithToolCalling(query)] + steps + [complete]
        == [AskWithToolCalling(query), steps[0], steps[1], complete];
  }

  /** An unknown tool: its "not available" text is the answer and no second call is made. */
  lemma UnknownToolScenario(env: Environment, finalContent: Option<string>)
    ensures
      var t := HandleQuery("Book me a flight", FirstResponse(None, [ToolCall(Some(FunctionCall(Some("bookFlight"), Structured(map[]))))]), finalContent, env);
      && t == Turn(Success(Unavailable("bookFlight")), [AskWithToolCalling("Book me a flight")])
      && UnavailableName(t.answer.value) == Some("bookFlight")
  {
    SentinelRoundTrip("bookFlight");
  }
}
