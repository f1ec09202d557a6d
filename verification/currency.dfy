/** Currency conversion (src/agent/tools/convert-currencies.ts): ordered input checks, the
    credential check, the rate-table lookup on upper-cased codes, the cross-rate through the
    table's common base, and the classification of failures reported by the rates service.
    The HTTP request is not modelled: its outcome arrives as a `FetchOutcome`. */
module Currency {
  import opened Outcomes
  import opened Js
  import Text

  /** What the rates endpoint produced: a rate table keyed by currency code, a failure raised by
      the HTTP client (with the response status and the response body's `message`, when there was
      a response), or a failure raised by anything else. */
  datatype FetchOutcome =
    | RatesReceived(rates: map<string, real>)
    | RequestFailed(status: Option<int>, responseMessage: Option<Value>, message: string)
    | OtherFailure(message: string)

  /** Every way a conversion can fail. */
  datatype ConversionError =
    | AmountNotPositive
    | MissingCurrencyCode
    | MissingApiKey
    | UnsupportedCurrency(code: string)
    | AuthenticationFailed
    | RateLimitExceeded
    | ExchangeApiError(details: string)
    | Rethrown(message: string)
  {
    /** The text of the error that is thrown. */
    function Message(): string {
      match this
      case AmountNotPositive => "Amount must be greater than zero"
      case MissingCurrencyCode => "Both source and target currency codes are required"
      case MissingApiKey =>
        "Missing OPEN_EXCHANGE_APP_ID in environment variables. "
        + "Obtain a free API key at https://openexchangerates.org/signup/free"
      case UnsupportedCurrency(code) =>
        "Currency code \"" + code + "\" is not supported. "
        + "Use valid ISO 4217 codes (USD, EUR, GBP, JPY, etc.)"
      case AuthenticationFailed => "Authentication failed: Invalid API key for Open Exchange Rates"
      case RateLimitExceeded => "Rate limit exceeded. Wait before retrying or upgrade your API plan"
      case ExchangeApiError(details) => "Exchange rates API error: " + details
      case Rethrown(message) => message
    }
  }

  /** A successful conversion. */
  datatype ConversionResult = ConversionResult(
    amount: Num,
    fromCurrency: string,
    toCurrency: string,
    result: Num,
    rate: real)

  /** Decimal places kept in the converted amount and in the rate. */
  const ResultDigits: nat := 2
  const RateDigits: nat := 6

  function Pow10(digits: nat): (p: nat)
    ensures p >= 1
  {
    if digits == 0 then 1 else 10 * Pow10(digits - 1)
  }

  /** `r` is a whole number of units of `1/p`. */
  predicate OnGrid(r: real, p: real) {
    (r * p).Floor as real == r * p
  }

  /** `v` is within half a unit of the last kept digit of `exact`. */
  predicate WithinHalfUnit(v: real, exact: real, digits: nat) {
    -1.0 / (2.0 * Pow10(digits) as real) <= v - exact <= 1.0 / (2.0 * Pow10(digits) as real)
  }

  /** `parseFloat(x.toFixed(digits))` on an exact value: the nearest multiple of 10^-digits,
      ties away from zero. */
  function RoundReal(x: real, digits: nat): (r: real)
    ensures OnGrid(r, Pow10(digits) as real)
    ensures WithinHalfUnit(r, x, digits)
  {
    if x < 0.0 then
      var m := RoundNonNegative(-x, digits);
      NegatedOnGrid(m, Pow10(digits) as real);
      -m
    else RoundNonNegative(x, digits)
  }

  function RoundNonNegative(x: real, digits: nat): (r: real)
    requires x >= 0.0
    ensures OnGrid(r, Pow10(digits) as real)
    ensures WithinHalfUnit(r, x, digits)
  {
    var p := Pow10(digits) as real;
    var n := (x * p + 0.5).Floor;
    UnitsOnGrid(n, p);
    RoundingError(x, p, n);
    n as real / p
  }

  lemma UnitsOnGrid(n: int, p: real)
    requires p >= 1.0
    ensures OnGrid(n as real / p, p)
  {
    assert (n as real / p) * p == n as real;
    assert (n as real).Floor == n;
  }

  lemma NegatedOnGrid(m: real, p: real)
    requires OnGrid(m, p)
    ensures OnGrid(-m, p)
  {
    var k := (m * p).Floor;
    assert -m * p == -(k as real);
    assert (-(k as real)).Floor == -k;
  }

  lemma RoundingError(x: real, p: real, n: int)
    requires p >= 1.0
    requires x * p - 0.5 < n as real <= x * p + 0.5
    ensures -1.0 / (2.0 * p) <= n as real / p - x <= 1.0 / (2.0 * p)
  {
    assert n as real / p - x == (n as real - x * p) / p;
  }

  /** Rounding of a JavaScript number; NaN prints as "NaN" and parses back as NaN. */
  function Round(x: Num, digits: nat): (r: Num)
    ensures x == NaN <==> r == NaN
  {
    match x
    case NaN => NaN
    case Finite(v) => Finite(RoundReal(v, digits))
  }

  /** `amount <= 0` is false for NaN, so NaN passes the amount check. */
  predicate NotPositive(amount: Num) {
    amount.Finite? && amount.r <= 0.0
  }

  /** `validateInputs`: the amount is checked first, then the presence of both codes. */
  function ValidateInputs(amount: Num, from: string, to: string): (r: Option<ConversionError>)
    ensures r == None <==> !NotPositive(amount) && from != "" && to != ""
    ensures NotPositive(amount) ==> r == Some(AmountNotPositive)
    ensures !NotPositive(amount) && (from == "" || to == "") ==> r == Some(MissingCurrencyCode)
  {
    if NotPositive(amount) then Some(AmountNotPositive)
    else if from == "" || to == "" then Some(MissingCurrencyCode)
    else None
  }

  /** `!apiKey`: absent or empty. */
  predicate HasApiKey(apiKey: Option<string>) {
    apiKey.Some? && apiKey.value != ""
  }

  /** Whether a conversion gets as far as requesting the rate table. */
  predicate ReachesFetch(amount: Num, from: string, to: string, apiKey: Option<string>) {
    ValidateInputs(amount, from, to) == None && HasApiKey(apiKey)
  }

  /** `handleApiError` on a failure raised by the HTTP client: 401 and 429 are recognised,
      anything else reports the response's message, else the client's message, else a fixed text. */
  function ClassifyRequestFailure(status: Option<int>, responseMessage: Option<Value>, message: string, host: Host)
    : (e: ConversionError)
    ensures status == Some(401) <==> e == AuthenticationFailed
    ensures status == Some(429) <==> e == RateLimitExceeded
    ensures status != Some(401) && status != Some(429) ==> e.ExchangeApiError?
    ensures e.ExchangeApiError? && Truthy(responseMessage) ==> e.details == StringOf(responseMessage, host)
    ensures e.ExchangeApiError? && !Truthy(responseMessage) && message != "" ==> e.details == message
    ensures e.ExchangeApiError? && !Truthy(responseMessage) && message == "" ==> e.details == "Unknown issue"
  {
    if status == Some(401) then AuthenticationFailed
    else if status == Some(429) then RateLimitExceeded
    else if Truthy(responseMessage) then ExchangeApiError(StringOf(responseMessage, host))
    else if message != "" then ExchangeApiError(message)
    else ExchangeApiError("Unknown issue")
  }

  /** A code the table can convert: present with a truthy (non-zero) rate. */
  predicate Supported(rates: map<string, real>, code: string) {
    code in rates && rates[code] != 0.0
  }

  /** The conversion factor through the table's common base. */
  function CrossRate(rates: map<string, real>, source: string, target: string): real
    requires Supported(rates, source) && Supported(rates, target)
  {
    rates[target] / rates[source]
  }

  function Scale(amount: Num, factor: real): Num {
    match amount
    case NaN => NaN
    case Finite(a) => Finite(a * factor)
  }

  /** The rate-table half of the conversion (inside the `try`): look both upper-cased codes up,
      report the source code first when it is unsupported, and derive the amount and the rate
      independently from the unrounded cross-rate. */
  function ConvertWithRates(amount: Num, from: string, to: string, rates: map<string, real>)
    : (r: Result<ConversionResult, ConversionError>)
    ensures var source := Text.ToUpper(from); var target := Text.ToUpper(to);
      && (!Supported(rates, source) ==> r == Failure(UnsupportedCurrency(source)))
      && (Supported(rates, source) && !Supported(rates, target) ==> r == Failure(UnsupportedCurrency(target)))
      && (r.Success? <==> Supported(rates, source) && Supported(rates, target))
    ensures r.Success? ==>
      Supported(rates, r.value.fromCurrency) && Supported(rates, r.value.toCurrency) &&
      var exact := CrossRate(rates, r.value.fromCurrency, r.value.toCurrency);
      && r.value.amount == amount
      && r.value.fromCurrency == Text.ToUpper(from)
      && r.value.toCurrency == Text.ToUpper(to)
      && r.value.rate == RoundReal(exact, RateDigits)
      && r.value.result == Round(Scale(amount, exact), ResultDigits)
  {
    var source := Text.ToUpper(from);
    var target := Text.ToUpper(to);
    if !Supported(rates, source) then Failure(UnsupportedCurrency(source))
    else if !Supported(rates, target) then Failure(UnsupportedCurrency(target))
    else
      var exact := CrossRate(rates, source, target);
      Success(ConversionResult(amount, source, target, Round(Scale(amount, exact), ResultDigits), RoundReal(exact, RateDigits)))
  }

  /** `convertCurrencies(amount, from, to)` with the credential and the rates response as inputs:
      amount check, code check, credential check, then the rate table or the classified failure. */
  function Convert(amount: Num, from: string, to: string, apiKey: Option<string>, fetch: FetchOutcome, host: Host)
    : (r: Result<ConversionResult, ConversionError>)
    ensures NotPositive(amount) ==> r == Failure(AmountNotPositive)
    ensures !NotPositive(amount) && (from == "" || to == "") ==> r == Failure(MissingCurrencyCode)
    ensures ValidateInputs(amount, from, to) == None && !HasApiKey(apiKey) ==> r == Failure(MissingApiKey)
    ensures r.Success? ==> ReachesFetch(amount, from, to, apiKey) && fetch.RatesReceived?
    ensures ReachesFetch(amount, from, to, apiKey) && fetch.OtherFailure? ==> r == Failure(Rethrown(fetch.message))
    ensures ReachesFetch(amount, from, to, apiKey) && fetch.RequestFailed? ==>
      r == Failure(ClassifyRequestFailure(fetch.status, fetch.responseMessage, fetch.message, host))
    ensures ReachesFetch(amount, from, to, apiKey) && fetch.RatesReceived? ==>
      r == ConvertWithRates(amount, from, to, fetch.rates)
  {
    match ValidateInputs(amount, from, to)
    case Some(e) => Failure(e)
    case None =>
      if !HasApiKey(apiKey) then Failure(MissingApiKey)
      else
        match fetch
        case RatesReceived(rates) => ConvertWithRates(amount, from, to, rates)
        case RequestFailed(status, responseMessage, message) =>
          Failure(ClassifyRequestFailure(status, responseMessage, message, host))
        case OtherFailure(message) => Failure(Rethrown(message))
  }

  /** Nothing is fetched before the inputs and the credential pass: until then the rates
      response cannot influence the outcome. */
  lemma FetchIrrelevantBeforeRequest(amount: Num, from: string, to: string, apiKey: Option<string>,
                                     f1: FetchOutcome, f2: FetchOutcome, host: Host)
    requires !ReachesFetch(amount, from, to, apiKey)
    ensures Convert(amount, from, to, apiKey, f1, host) == Convert(amount, from, to, apiKey, f2, host)
    ensures Convert(amount, from, to, apiKey, f1, host).Failure?
  {
  }

  /** The rate of a successful conversion is the cross-rate to six decimals. */
  lemma RateAccuracy(amount: Num, from: string, to: string, rates: map<string, real>)
    requires ConvertWithRates(amount, from, to, rates).Success?
    ensures var c := ConvertWithRates(amount, from, to, rates).value;
      var exact := CrossRate(rates, c.fromCurrency, c.toCurrency);
      OnGrid(c.rate, 1000000.0) && -0.0000005 <= c.rate - exact <= 0.0000005
  {
    var c := ConvertWithRates(amount, from, to, rates).value;
    var exact := CrossRate(rates, c.fromCurrency, c.toCurrency);
    assert c.rate == RoundReal(exact, RateDigits);
    HalfUnitAt(c.rate, exact, RateDigits, 1000000.0);
  }

  /** The converted amount of a successful conversion is the amount times the unrounded
      cross-rate, to two decimals; a NaN amount gives a NaN result. */
  lemma ResultAccuracy(amount: Num, from: string, to: string, rates: map<string, real>)
    requires ConvertWithRates(amount, from, to, rates).Success?
    ensures var c := ConvertWithRates(amount, from, to, rates).value;
      var exact := CrossRate(rates, c.fromCurrency, c.toCurrency);
      && (amount == NaN <==> c.result == NaN)
      && (amount.Finite? ==> CentsOf(c.result, amount.r, exact))
  {
    var c := ConvertWithRates(amount, from, to, rates).value;
    var exact := CrossRate(rates, c.fromCurrency, c.toCurrency);
    assert c.result == Round(Scale(amount, exact), ResultDigits);
    if amount.Finite? {
      ScaledRounding(amount.r, exact);
      assert amount == Finite(amount.r);
    }
  }

  /** `v` is a whole number of cents within half a cent of `a * factor`. */
  predicate CentsOf(v: Num, a: real, factor: real) {
    v.Finite? && OnGrid(v.r, 100.0) && -0.005 <= v.r - a * factor <= 0.005
  }

  /** Rounding a finite amount scaled by a factor, at two decimals. */
  lemma ScaledRounding(a: real, factor: real)
    ensures CentsOf(Round(Scale(Finite(a), factor), ResultDigits), a, factor)
  {
    var x := a * factor;
    assert Scale(Finite(a), factor) == Finite(x);
    RoundAtTwo(x);
    assert Round(Finite(x), ResultDigits) == Finite(RoundReal(x, ResultDigits));
    assert CentsOf(Finite(RoundReal(x, ResultDigits)), a, factor);
  }

  lemma RoundAtTwo(x: real)
    ensures OnGrid(RoundReal(x, ResultDigits), 100.0)
    ensures -0.005 <= RoundReal(x, ResultDigits) - x <= 0.005
  {
    HalfUnitAt(RoundReal(x, ResultDigits), x, ResultDigits, 100.0);
  }

  /** `WithinHalfUnit` and `OnGrid` at a known power of ten. */
  lemma HalfUnitAt(v: real, exact: real, digits: nat, p: real)
    requires p == Pow10(digits) as real
    requires OnGrid(v, Pow10(digits) as real) && WithinHalfUnit(v, exact, digits)
    ensures OnGrid(v, p) && -1.0 / (2.0 * p) <= v - exact <= 1.0 / (2.0 * p)
  {
  }

  /** Codes are compared after upper-casing: codes that upper-case alike convert alike. */
  lemma CodesCaseInsensitive(amount: Num, from1: string, from2: string, to1: string, to2: string,
                             apiKey: Option<string>, fetch: FetchOutcome, host: Host)
    requires Text.ToUpper(from1) == Text.ToUpper(from2) && Text.ToUpper(to1) == Text.ToUpper(to2)
    ensures Convert(amount, from1, to1, apiKey, fetch, host) == Convert(amount, from2, to2, apiKey, fetch, host)
  {
    assert from1 == "" <==> from2 == "" by {
      assert |Text.ToUpper(from1)| == |from1| && |Text.ToUpper(from2)| == |from2|;
    }
    assert to1 == "" <==> to2 == "" by {
      assert |Text.ToUpper(to1)| == |to1| && |Text.ToUpper(to2)| == |to2|;
    }
  }

  /** The documented example: with USD at 1.0 and EUR at 0.9, 100 USD is 90 EUR at rate 0.9. */
  lemma UsdToEurExample(host: Host)
    ensures Convert(Finite(100.0), "USD", "EUR", Some("test_key"),
                    RatesReceived(map["USD" := 1.0, "EUR" := 0.9]), host)
         == Success(ConversionResult(Finite(100.0), "USD", "EUR", Finite(90.0), 0.9))
  {
    assert Text.ToUpper("USD") == "USD";
    assert Text.ToUpper("EUR") == "EUR";
    assert Pow10(2) == 100 && Pow10(6) == 1000000;
    assert (90.0 * 100.0 + 0.5).Floor == 9000;
    assert (0.9 * 1000000.0 + 0.5).Floor == 900000;
  }

  /** An unknown target code is reported by name (the source code is known). */
  lemma UnsupportedTargetExample(host: Host)
    ensures Convert(Finite(100.0), "USD", "XYZ", Some("test_key"),
                    RatesReceived(map["USD" := 1.0, "EUR" := 0.9]), host)
         == Failure(UnsupportedCurrency("XYZ"))
  {
    assert Text.ToUpper("USD") == "USD";
    assert Text.ToUpper("XYZ") == "XYZ";
  }
}
