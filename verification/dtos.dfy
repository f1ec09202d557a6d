/** The two tool-parameter DTOs (src/agent/dto/search-products.dto.ts and
    src/agent/dto/convert-currencies.dto.ts): how a plain argument object becomes a DTO
    instance, and which constraint messages each field produces. Within a field, messages are
    listed in the order the validator registers the decorators, which is the reverse of their
    order in the class (decorators apply bottom-up); fields come in declaration order. */
module Dtos {
  import opened Outcomes
  import opened Js
  import Text
  import opened Validation

  /** `^[A-Z]{3}$`: the format of an ISO 4217 alphabetic code (format only). */
  predicate IsCurrencyCode(s: string) {
    |s| == 3 && forall i :: 0 <= i < |s| ==> Text.IsAsciiUpper(s[i])
  }

  /** `@IsString()`. */
  predicate IsStringValue(v: Option<Value>) {
    v.Some? && v.value.Str?
  }

  /** `@IsNotEmpty()`: not "", null or undefined. */
  predicate IsNotEmptyValue(v: Option<Value>) {
    v != None && v != Some(Null) && v != Some(Str(""))
  }

  /** `@Matches(/^[A-Z]{3}$/)`: a string in the currency-code format. */
  predicate MatchesCurrencyCode(v: Option<Value>) {
    IsStringValue(v) && IsCurrencyCode(v.value.s)
  }

  function Get(plain: map<string, Value>, key: string): (v: Option<Value>)
    ensures v.Some? <==> key in plain
    ensures key in plain ==> v.value == plain[key]
  {
    if key in plain then Some(plain[key]) else None
  }

  /** The list of field errors for fields that broke at least one constraint, in field order. */
  function Collect(fields: seq<(string, seq<string>)>): (errors: seq<FieldError>)
    ensures |errors| == 0 <==> forall i :: 0 <= i < |fields| ==> |fields[i].1| == 0
    ensures forall e :: e in errors ==> e.constraints.Some? && |e.constraints.value| > 0
  {
    if |fields| == 0 then [] else Entry(fields[0]) + Collect(fields[1..])
  }

  /** The entry one field contributes to `Collect`: the field with its messages, if it has any. */
  function Entry(field: (string, seq<string>)): seq<FieldError> {
    if |field.1| > 0 then [FieldError(field.0, Some(field.1))] else []
  }

  lemma CollectCons(a: (string, seq<string>), rest: seq<(string, seq<string>)>)
    ensures Collect([a] + rest) == Entry(a) + Collect(rest)
  {
    assert ([a] + rest)[0] == a;
    assert ([a] + rest)[1..] == rest;
  }

  lemma CollectOne(a: (string, seq<string>))
    ensures Collect([a]) == Entry(a)
  {
    CollectCons(a, []);
    assert [a] + [] == [a];
  }

  lemma CollectThree(a: (string, seq<string>), b: (string, seq<string>), c: (string, seq<string>))
    ensures Collect([a, b, c]) == Entry(a) + Entry(b) + Entry(c)
  {
    CollectOne(c);
    CollectCons(b, [c]);
    assert [b] + [c] == [b, c];
    CollectCons(a, [b, c]);
    assert [a] + [b, c] == [a, b, c];
  }

  lemma EmptyEntry(name: string, messages: seq<string>)
    requires |messages| == 0
    ensures Entry((name, messages)) == []
  {
  }

  lemma OnlyMiddle(a: seq<FieldError>, b: seq<FieldError>, c: seq<FieldError>)
    requires a == [] && c == []
    ensures a + b + c == b
  {
  }

  function Check(ok: bool, message: string): seq<string> {
    if ok then [] else [message]
  }

  // ---- SearchProductsDto -------------------------------------------------------------

  datatype SearchProductsDto = SearchProductsDto(query: Option<Value>)

  /** No transformation is declared, so the instance just carries the plain value. */
  function ToSearchProductsDto(plain: map<string, Value>): SearchProductsDto {
    SearchProductsDto(Get(plain, "query"))
  }

  function SearchProductsViolations(dto: SearchProductsDto): (errors: seq<FieldError>)
    ensures dto.query == None || dto.query == Some(Null) ==>
      errors == [FieldError("query", Some(["Query cannot be empty", "Query must be a string"]))]
    ensures dto.query == Some(Str("")) ==> errors == [FieldError("query", Some(["Query cannot be empty"]))]
    ensures dto.query.Some? && !dto.query.value.Str? && !dto.query.value.Null? ==>
      errors == [FieldError("query", Some(["Query must be a string"]))]
    ensures dto.query.Some? && dto.query.value.Str? && dto.query.value.s != "" ==> errors == []
  {
    var query := ("query",
      Check(IsNotEmptyValue(dto.query), "Query cannot be empty")
      + Check(IsStringValue(dto.query), "Query must be a string"));
    CollectOne(query);
    var empty, kind := "Query cannot be empty", "Query must be a string";
    assert [empty] + [kind] == [empty, kind] && [empty] + [] == [empty] && [] + [kind] == [kind];
    Collect([query])
  }

  /** The pipe over `SearchProductsDto`: a non-empty string `query` passes unchanged, anything
      else fails. */
  function ValidateSearchProducts(plain: map<string, Value>): (r: Result<SearchProductsDto, BadRequest>)
    ensures r.Success? <==> "query" in plain && plain["query"].Str? && plain["query"].s != ""
    ensures r.Success? ==> r.value.query == Some(plain["query"])
  {
    var dto := ToSearchProductsDto(plain);
    Transform(dto, SearchProductsViolations(dto))
  }

  // ---- ConvertCurrenciesDto ----------------------------------------------------------

  /** `amount` after `@Type(() => Number)`: `null` and `undefined` are left alone, an array
      stays an array (of converted elements; it is never a number), everything else goes
      through `Number(...)`. */
  datatype Amount = Converted(n: Num) | Unconverted(raw: Option<Value>)

  function ToAmount(raw: Option<Value>, host: Host): (a: Amount)
    ensures raw.Some? && raw.value.Number? ==> a == Converted(Finite(raw.value.n))
    ensures raw.Some? && raw.value.Str? ==> a == Converted(host.parseNumber(raw.value.s))
    ensures raw == None || raw == Some(Null) ==> a.Unconverted?
  {
    match raw
    case None => Unconverted(raw)
    case Some(Null) => Unconverted(raw)
    case Some(Array(_)) => Unconverted(raw)
    case Some(_) => Converted(NumberOf(raw, host))
  }

  /** `@IsNumber()`: a number other than NaN. */
  predicate IsNumberValue(a: Amount) {
    a.Converted? && a.n.Finite?
  }

  /** `@Min(0.01)`: a number no smaller than 0.01 (NaN fails). */
  predicate MinValue(a: Amount) {
    a.Converted? && a.n.Finite? && a.n.r >= 0.01
  }

  datatype ConvertCurrenciesDto = ConvertCurrenciesDto(
    amount: Amount,
    fromCurrency: Option<Value>,
    toCurrency: Option<Value>)

  function ToConvertCurrenciesDto(plain: map<string, Value>, host: Host): ConvertCurrenciesDto {
    ConvertCurrenciesDto(
      ToAmount(Get(plain, "amount"), host),
      Get(plain, "fromCurrency"),
      Get(plain, "toCurrency"))
  }

  /** The messages of `amount`: `@Min` then `@IsNumber`. Below 0.01 is rejected even though
      the message says "greater than 0". */
  function AmountMessages(a: Amount): (m: seq<string>)
    ensures |m| == 0 <==> MinValue(a)
    ensures !IsNumberValue(a) ==> m == ["Amount must be greater than 0", "Amount must be a number"]
    ensures IsNumberValue(a) && !MinValue(a) ==> m == ["Amount must be greater than 0"]
  {
    Check(MinValue(a), "Amount must be greater than 0")
    + Check(IsNumberValue(a), "Amount must be a number")
  }

  /** Which of the two currency-code fields; each has its own wording. */
  datatype CodeField = Source | Target {
    function FormatMessage(): string {
      if Source? then "Source currency must be a 3-letter ISO code (e.g., USD, EUR)"
      else "Target currency must be a 3-letter ISO code (e.g., USD, EUR)"
    }
    function EmptyMessage(): string {
      if Source? then "Source currency cannot be empty" else "Target currency cannot be empty"
    }
    function TypeMessage(): string {
      if Source? then "Source currency must be a string" else "Target currency must be a string"
    }
  }

  /** The messages of a currency-code field: `@Matches`, `@IsNotEmpty`, `@IsString`. */
  function CodeMessages(v: Option<Value>, field: CodeField): (m: seq<string>)
    ensures |m| == 0 <==> MatchesCurrencyCode(v)
  {
    Check(MatchesCurrencyCode(v), field.FormatMessage())
    + Check(IsNotEmptyValue(v), field.EmptyMessage())
    + Check(IsStringValue(v), field.TypeMessage())
  }

  function ConvertCurrenciesViolations(dto: ConvertCurrenciesDto): (errors: seq<FieldError>)
    ensures |errors| == 0 <==>
      MinValue(dto.amount) && MatchesCurrencyCode(dto.fromCurrency) && MatchesCurrencyCode(dto.toCurrency)
  {
    var amount := ("amount", AmountMessages(dto.amount));
    var from := ("fromCurrency", CodeMessages(dto.fromCurrency, Source));
    var to := ("toCurrency", CodeMessages(dto.toCurrency, Target));
    CollectThree(amount, from, to);
    Collect([amount, from, to])
  }

  /** The pipe over `ConvertCurrenciesDto`: it passes exactly when the amount converts to a
      number of at least 0.01 and both codes are three upper-case letters; the codes come back
      unchanged (never upper-cased) and the amount as the converted number. */
  function ValidateConvertCurrencies(plain: map<string, Value>, host: Host)
    : (r: Result<ConvertCurrenciesDto, BadRequest>)
    ensures r.Success? <==>
      && MinValue(ToAmount(Get(plain, "amount"), host))
      && MatchesCurrencyCode(Get(plain, "fromCurrency"))
      && MatchesCurrencyCode(Get(plain, "toCurrency"))
    ensures r.Success? ==>
      && r.value.amount.Converted? && r.value.amount.n.Finite? && r.value.amount.n.r >= 0.01
      && r.value.amount == ToAmount(Get(plain, "amount"), host)
      && r.value.fromCurrency == Some(plain["fromCurrency"])
      && r.value.toCurrency == Some(plain["toCurrency"])
  {
    var dto := ToConvertCurrenciesDto(plain, host);
    Transform(dto, ConvertCurrenciesViolations(dto))
  }

  // ---- The documented cases --------------------------------------------------------------

  lemma SearchViolationsShape(dto: SearchProductsDto)
    ensures SearchProductsViolations(dto) == Entry(("query",
      Check(IsNotEmptyValue(dto.query), "Query cannot be empty")
      + Check(IsStringValue(dto.query), "Query must be a string")))
  {
    CollectOne(("query",
      Check(IsNotEmptyValue(dto.query), "Query cannot be empty")
      + Check(IsStringValue(dto.query), "Query must be a string")));
  }

  lemma ConvertViolationsShape(dto: ConvertCurrenciesDto)
    ensures ConvertCurrenciesViolations(dto)
         == Entry(("amount", AmountMessages(dto.amount)))
          + Entry(("fromCurrency", CodeMessages(dto.fromCurrency, Source)))
          + Entry(("toCurrency", CodeMessages(dto.toCurrency, Target)))
  {
    CollectThree(("amount", AmountMessages(dto.amount)), ("fromCurrency", CodeMessages(dto.fromCurrency, Source)),
                 ("toCurrency", CodeMessages(dto.toCurrency, Target)));
  }

  lemma SearchQueryPasses()
    ensures ValidateSearchProducts(map["query" := Str("laptop")]) == Success(SearchProductsDto(Some(Str("laptop"))))
  {
  }

  lemma EmptyQueryRejected()
    ensures ValidateSearchProducts(map["query" := Str("")])
         == Failure(BadRequest(FailurePrefix + "Query cannot be empty"))
  {
    var dto := ToSearchProductsDto(map["query" := Str("")]);
    assert dto.query == Some(Str(""));
    var m1 := Check(IsNotEmptyValue(dto.query), "Query cannot be empty");
    var m2 := Check(IsStringValue(dto.query), "Query must be a string");
    assert m1 + m2 == ["Query cannot be empty"];
    SearchViolationsShape(dto);
    var errors := [FieldError("query", Some(["Query cannot be empty"]))];
    assert SearchProductsViolations(dto) == errors;
    assert Segments(errors) == ["Query cannot be empty"];
  }

  lemma MissingQueryRejected()
    ensures ValidateSearchProducts(map[])
         == Failure(BadRequest(FailurePrefix + ("Query cannot be empty" + MessageSeparator + "Query must be a string")))
  {
    var dto := ToSearchProductsDto(map[]);
    assert dto == SearchProductsDto(None);
    var messages := ["Query cannot be empty", "Query must be a string"];
    assert Check(IsNotEmptyValue(dto.query), "Query cannot be empty")
         + Check(IsStringValue(dto.query), "Query must be a string") == messages;
    SearchViolationsShape(dto);
    assert SearchProductsViolations(dto) == [FieldError("query", Some(messages))];
    SingleFieldFailure(dto, "query", messages);
    assert messages[1..] == ["Query must be a string"];
  }

  /** The instance built from arguments that carry all three fields. */
  lemma InstanceOf(amount: Value, from: Value, to: Value, host: Host)
    ensures ToConvertCurrenciesDto(map["amount" := amount, "fromCurrency" := from, "toCurrency" := to], host)
         == ConvertCurrenciesDto(ToAmount(Some(amount), host), Some(from), Some(to))
  {
    var plain := map["amount" := amount, "fromCurrency" := from, "toCurrency" := to];
    assert plain["amount"] == amount && plain["fromCurrency"] == from && plain["toCurrency"] == to;
  }

  lemma ValidConversionPassesUnchanged(host: Host)
    ensures ValidateConvertCurrencies(
              map["amount" := Number(100.0), "fromCurrency" := Str("USD"), "toCurrency" := Str("EUR")], host)
         == Success(ConvertCurrenciesDto(Converted(Finite(100.0)), Some(Str("USD")), Some(Str("EUR"))))
  {
    InstanceOf(Number(100.0), Str("USD"), Str("EUR"), host);
    assert IsCurrencyCode("USD") && IsCurrencyCode("EUR");
  }

  lemma NumericStringAmountConverted(host: Host)
    requires host.parseNumber("150.50") == Finite(150.5)
    ensures ValidateConvertCurrencies(
              map["amount" := Str("150.50"), "fromCurrency" := Str("USD"), "toCurrency" := Str("EUR")], host)
         == Success(ConvertCurrenciesDto(Converted(Finite(150.5)), Some(Str("USD")), Some(Str("EUR"))))
  {
    InstanceOf(Str("150.50"), Str("USD"), Str("EUR"), host);
    assert IsCurrencyCode("USD") && IsCurrencyCode("EUR");
  }

  lemma NegativeAmountRejected(host: Host)
    ensures ValidateConvertCurrencies(
              map["amount" := Number(-50.0), "fromCurrency" := Str("USD"), "toCurrency" := Str("EUR")], host)
         == Failure(BadRequest(FailurePrefix + "Amount must be greater than 0"))
  {
    InstanceOf(Number(-50.0), Str("USD"), Str("EUR"), host);
    var dto := ConvertCurrenciesDto(Converted(Finite(-50.0)), Some(Str("USD")), Some(Str("EUR")));
    assert IsCurrencyCode("USD") && IsCurrencyCode("EUR");
    assert AmountMessages(dto.amount) == ["Amount must be greater than 0"];
    OnlyAmountViolated(dto);
    SingleMessageFailure(dto, "amount", "Amount must be greater than 0");
  }

  /** Valid codes and an invalid amount: the amount is the only field listed. */
  lemma OnlyAmountViolated(dto: ConvertCurrenciesDto)
    requires !MinValue(dto.amount)
    requires MatchesCurrencyCode(dto.fromCurrency) && MatchesCurrencyCode(dto.toCurrency)
    ensures ConvertCurrenciesViolations(dto) == [FieldError("amount", Some(AmountMessages(dto.amount)))]
  {
    ConvertViolationsShape(dto);
    var from := CodeMessages(dto.fromCurrency, Source);
    var to := CodeMessages(dto.toCurrency, Target);
    assert |from| == 0 && |to| == 0;
    EmptyEntry("fromCurrency", from);
    EmptyEntry("toCurrency", to);
  }

  /** A valid amount and target with an invalid source: the source is the only field listed. */
  lemma OnlySourceViolated(dto: ConvertCurrenciesDto)
    requires MinValue(dto.amount) && MatchesCurrencyCode(dto.toCurrency)
    requires !MatchesCurrencyCode(dto.fromCurrency)
    ensures ConvertCurrenciesViolations(dto) == [FieldError("fromCurrency", Some(CodeMessages(dto.fromCurrency, Source)))]
  {
    ConvertViolationsShape(dto);
    var amount := AmountMessages(dto.amount);
    var from := CodeMessages(dto.fromCurrency, Source);
    var to := CodeMessages(dto.toCurrency, Target);
    assert |amount| == 0 && |from| > 0 && |to| == 0;
    EmptyEntry("amount", amount);
    EmptyEntry("toCurrency", to);
    OnlyMiddle([], Entry(("fromCurrency", from)), []);
  }

  /** The messages a currency-code field gets, by kind of input: absent or null breaks all
      three constraints, "" the format and emptiness ones, a non-string the format and type
      ones, and a non-empty string outside the format only the format one. */
  lemma CodeMessagesByInput(v: Option<Value>, field: CodeField)
    ensures v == None || v == Some(Null) ==>
      CodeMessages(v, field) == [field.FormatMessage(), field.EmptyMessage(), field.TypeMessage()]
    ensures v == Some(Str("")) ==> CodeMessages(v, field) == [field.FormatMessage(), field.EmptyMessage()]
    ensures v.Some? && !v.value.Str? && !v.value.Null? ==>
      CodeMessages(v, field) == [field.FormatMessage(), field.TypeMessage()]
    ensures v.Some? && v.value.Str? && v.value.s != "" && !IsCurrencyCode(v.value.s) ==>
      CodeMessages(v, field) == [field.FormatMessage()]
  {
    var format, empty, kind := field.FormatMessage(), field.EmptyMessage(), field.TypeMessage();
    if v == None || v == Some(Null) {
      assert CodeMessages(v, field) == [format] + [empty] + [kind];
    } else if v == Some(Str("")) {
      assert CodeMessages(v, field) == [format] + [empty] + [];
    } else if !v.value.Str? {
      assert CodeMessages(v, field) == [format] + [] + [kind];
    }
  }

  /** A non-empty string that is not a code breaks only the format constraint. */
  lemma MalformedCodeMessages(s: string, field: CodeField)
    requires s != "" && !IsCurrencyCode(s)
    ensures CodeMessages(Some(Str(s)), field) == [field.FormatMessage()]
  {
  }

  lemma TwoLetterCodeRejected(host: Host)
    ensures ValidateConvertCurrencies(
              map["amount" := Number(100.0), "fromCurrency" := Str("US"), "toCurrency" := Str("EUR")], host)
         == Failure(BadRequest(FailurePrefix + "Source currency must be a 3-letter ISO code (e.g., USD, EUR)"))
  {
    InstanceOf(Number(100.0), Str("US"), Str("EUR"), host);
    var dto := ConvertCurrenciesDto(Converted(Finite(100.0)), Some(Str("US")), Some(Str("EUR")));
    assert IsCurrencyCode("EUR");
    MalformedCodeMessages("US", Source);
    OnlySourceViolated(dto);
    SingleMessageFailure(dto, "fromCurrency", Source.FormatMessage());
  }

  /** Two fields with one message each format as the two messages around "; ". */
  lemma TwoSingleMessageFields(f: string, x: string, g: string, y: string)
    ensures FormatValidationErrors([FieldError(f, Some([x])), FieldError(g, Some([y]))]) == x + FieldSeparator + y
  {
    var errors := [FieldError(f, Some([x])), FieldError(g, Some([y]))];
    assert Segments(errors) == [x, y];
    assert [x, y][1..] == [y];
    assert Text.Join([y], FieldSeparator) == y;
    assert Text.Join([x, y], FieldSeparator) == x + FieldSeparator + Text.Join([y], FieldSeparator);
  }

  /** A code field holding a non-empty string outside the format lists only the format message. */
  lemma MalformedCodeEntry(name: string, s: string, field: CodeField)
    requires s != "" && !IsCurrencyCode(s)
    ensures Entry((name, CodeMessages(Some(Str(s)), field))) == [FieldError(name, Some([field.FormatMessage()]))]
  {
    MalformedCodeMessages(s, field);
  }

  /** A valid amount with two non-empty codes outside the format: exactly the two format
      messages, source first. */
  lemma BothCodesMalformed(dto: ConvertCurrenciesDto, from: string, to: string)
    requires MinValue(dto.amount)
    requires dto.fromCurrency == Some(Str(from)) && from != "" && !IsCurrencyCode(from)
    requires dto.toCurrency == Some(Str(to)) && to != "" && !IsCurrencyCode(to)
    ensures ConvertCurrenciesViolations(dto)
         == [FieldError("fromCurrency", Some([Source.FormatMessage()])),
             FieldError("toCurrency", Some([Target.FormatMessage()]))]
  {
    var a := FieldError("fromCurrency", Some([Source.FormatMessage()]));
    var b := FieldError("toCurrency", Some([Target.FormatMessage()]));
    var amount := AmountMessages(dto.amount);
    assert |amount| == 0;
    EmptyEntry("amount", amount);
    MalformedCodeEntry("fromCurrency", from, Source);
    MalformedCodeEntry("toCurrency", to, Target);
    ConvertViolationsShape(dto);
    assert [] + [a] + [b] == [a, b];
  }

  lemma LowercaseCodesViolations(host: Host)
    ensures ConvertCurrenciesViolations(ToConvertCurrenciesDto(
              map["amount" := Number(100.0), "fromCurrency" := Str("usd"), "toCurrency" := Str("eur")], host))
         == [FieldError("fromCurrency", Some([Source.FormatMessage()])),
             FieldError("toCurrency", Some([Target.FormatMessage()]))]
  {
    InstanceOf(Number(100.0), Str("usd"), Str("eur"), host);
    assert !Text.IsAsciiUpper("usd"[0]) && !Text.IsAsciiUpper("eur"[0]);
    BothCodesMalformed(ConvertCurrenciesDto(Converted(Finite(100.0)), Some(Str("usd")), Some(Str("eur"))), "usd", "eur");
  }

  lemma LowercaseCodesRejected(host: Host)
    ensures ValidateConvertCurrencies(
              map["amount" := Number(100.0), "fromCurrency" := Str("usd"), "toCurrency" := Str("eur")], host)
         == Failure(BadRequest(FailurePrefix
              + ("Source currency must be a 3-letter ISO code (e.g., USD, EUR)" + FieldSeparator
              + "Target currency must be a 3-letter ISO code (e.g., USD, EUR)")))
  {
    LowercaseCodesViolations(host);
    TwoSingleMessageFields("fromCurrency", Source.FormatMessage(), "toCurrency", Target.FormatMessage());
  }
}
