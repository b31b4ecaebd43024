/**
 * The invoice service: one instance holds an invoice (base currency, date, line items)
 * and caches each pipeline stage's output — the query URL, the exchange rates, the line
 * totals and the invoice total. Each method is a function from the instance (and its
 * optional arguments) to a `Step`: the method's result or error, paired with the instance
 * as the method leaves it. A thrown error does not undo the fields already assigned.
 */
module InvoiceService {
  import opened Wrappers
  import opened Rounding
  import opened Query

  datatype LineItem = LineItem(description: string, currency: string, amount: real)

  /** A line item converted into the base currency. */
  datatype LineTotal = LineTotal(description: string, amount: real)

  /** Currency code to the multiplier that converts an amount in that currency into the base currency. */
  type RateMap = map<string, real>

  /**
   * The rates the service reports: units of each currency per unit of the base currency.
   * The service never reports a zero rate, whose reciprocal would not be a number.
   */
  type ReportedRates = m: map<string, real> | forall c :: c in m ==> m[c] != 0.0 witness map[]

  /** What the exchange-rate service answers to a query: its rates, or an error message. */
  datatype Response = Rates(rates: ReportedRates) | Failed(message: string)

  /** The exchange-rate service, as a function from the query URL to its answer. */
  type Fetch = string -> Response

  /** The loaded input document. */
  datatype Document = Document(currency: string, date: string, lines: seq<LineItem>)

  /** The instance's fields; `invoiceTotal` is `None` while it is null. */
  datatype Invoice = Invoice(
    baseCurrency: string,
    date: string,
    lineItems: seq<LineItem>,
    queryString: string,
    exchangeRates: RateMap,
    lineTotal: seq<LineTotal>,
    invoiceTotal: Option<real>)

  datatype Error =
    | MissingQueryString
    | RateService(message: string)
    | NoLineItems
    | EmptyExchangeRates
    | NoLineTotal
      /** A line item's currency has no rate; the service itself computes a NaN amount here. */
    | MissingRate(currency: string)
  {
    /** The message the error carries. */
    function Message(): string {
      match this
      case MissingQueryString => "missing query string"
      case RateService(m) => m
      case NoLineItems => "no lineItems found"
      case EmptyExchangeRates => "empty exchangeRates object"
      case NoLineTotal => "no lineTotal found"
      case MissingRate(c) => "no exchange rate for " + c
    }
  }

  /** A method's outcome: its result or error, and the instance as the method leaves it. */
  datatype Step<+T> = Step(result: Result<T, Error>, state: Invoice)

  // JavaScript's `arg || cached` for the optional arguments: an absent argument and a
  // falsy one both fall back to the cached field. The empty string and the number 0
  // are falsy; arrays and objects, even empty ones, are truthy.

  function OrString(arg: Option<string>, cached: string): string
  {
    if arg.Some? && arg.value != "" then arg.value else cached
  }

  function OrObject<T>(arg: Option<T>, cached: T): T
  {
    if arg.Some? then arg.value else cached
  }

  /** A total is truthy when it is neither null nor zero. */
  predicate TotalTruthy(total: Option<real>)
  {
    total.Some? && total.value != 0.0
  }

  function OrTotal(arg: Option<real>, cached: Option<real>): Option<real>
  {
    if TotalTruthy(arg) then arg else cached
  }

  /** A new instance holding the loaded document, with every cache empty. */
  function New(doc: Document): (s: Invoice)
    ensures s.baseCurrency == doc.currency && s.date == doc.date && s.lineItems == doc.lines
    ensures s.queryString == "" && s.exchangeRates == map[] && s.lineTotal == []
    ensures !TotalTruthy(s.invoiceTotal)
  {
    Invoice(doc.currency, doc.date, doc.lines, "", map[], [], None)
  }

  /** The currency code of each line item, in line-item order, duplicates kept. */
  function Currencies(items: seq<LineItem>): (cs: seq<string>)
    ensures |cs| == |items|
    ensures forall i :: 0 <= i < |items| ==> cs[i] == items[i].currency
  {
    seq(|items|, i requires 0 <= i < |items| => items[i].currency)
  }

  /** The query URL for an instance's date, base currency and line items. */
  function QueryFor(s: Invoice): string
  {
    Prefix(s.date, s.baseCurrency) + Join(Currencies(s.lineItems))
  }

  /** Builds the query URL and caches it; it never fails, even without line items. */
  function GenerateQuery(s: Invoice): (r: Step<string>)
    ensures r.result == Success(Prefix(s.date, s.baseCurrency) + Join(Currencies(s.lineItems)))
    ensures |s.lineItems| == 0 ==> r.result.value == Prefix(s.date, s.baseCurrency)
    ensures r.state == s.(queryString := r.result.value)
  {
    var prefix := Prefix(s.date, s.baseCurrency);
    var cs := Currencies(s.lineItems);
    AppendSymbolsJoins(prefix, cs, 0);
    assert cs[0..] == cs;
    var q := AppendSymbols(prefix, cs, 0);
    Step(Success(q), s.(queryString := q))
  }

  /** Each reported rate replaced by its reciprocal, rounded to four decimals. */
  function Reciprocals(reported: ReportedRates, round: Rounder): RateMap
  {
    map c | c in reported :: round(1.0 / reported[c], 4)
  }

  /**
   * Fetches the rates for the supplied query, or for the cached one when none (or an empty
   * one) is supplied; the query used is cached. Without a query it fails before asking
   * the service. On success the reciprocal rates replace the cached rates.
   */
  function FetchExchangeRate(s: Invoice, query: Option<string>, fetch: Fetch, round: Rounder): (r: Step<RateMap>)
    ensures query.Some? && query.value != "" ==> r.state.queryString == query.value
    ensures query.None? || query.value == "" ==> r.state.queryString == s.queryString
    ensures r.state.queryString == "" ==> r == Step(Failure(MissingQueryString), s)
    ensures r.state.queryString != "" && fetch(r.state.queryString).Failed? ==>
      r == Step(Failure(RateService(fetch(r.state.queryString).message)), s.(queryString := r.state.queryString))
    ensures r.state.queryString != "" && fetch(r.state.queryString).Rates? ==>
      var reported := fetch(r.state.queryString).rates;
      && r.result.Success?
      && r.result.value.Keys == reported.Keys
      && (forall c :: c in reported ==> r.result.value[c] == round(1.0 / reported[c], 4))
      && r.state == s.(queryString := r.state.queryString, exchangeRates := r.result.value)
  {
    var q := OrString(query, s.queryString);
    var s1 := s.(queryString := q);
    if q == "" then Step(Failure(MissingQueryString), s1)
    else
      match fetch(q)
      case Failed(message) => Step(Failure(RateService(message)), s1)
      case Rates(reported) =>
        var rates := Reciprocals(reported, round);
        Step(Success(rates), s1.(exchangeRates := rates))
  }

  /** The keys of an array viewed as an object: its indices. */
  function ArrayKeys<T>(a: seq<T>): (keys: set<int>)
    ensures forall k :: k in keys <==> 0 <= k < |a|
  {
    if |a| == 0 then {} else ArrayKeys(a[..|a| - 1]) + {|a| - 1}
  }

  /** An amount converted into the base currency: the amount times its currency's rate. */
  function InBase(amount: real, rate: real): real
  {
    amount * rate
  }

  /** Every line item's currency has a rate. */
  ghost predicate AllRated(items: seq<LineItem>, rates: RateMap)
  {
    forall i :: 0 <= i < |items| ==> items[i].currency in rates
  }

  /** The first line item whose currency has no rate, if any. */
  function FirstUnrated(items: seq<LineItem>, rates: RateMap): (r: Option<nat>)
    ensures r.None? <==> AllRated(items, rates)
    ensures r.Some? ==> r.value < |items| && items[r.value].currency !in rates
    ensures r.Some? ==> AllRated(items[..r.value], rates)
  {
    if |items| == 0 then None
    else if items[0].currency !in rates then
      assert items[..0] == [];
      Some(0)
    else
      match FirstUnrated(items[1..], rates)
      case None => None
      case Some(j) =>
        assert items[..j + 1] == [items[0]] + items[1..][..j];
        Some(j + 1)
  }

  /** Each line item converted: its amount times its currency's rate, rounded to two decimals. */
  function Convert(items: seq<LineItem>, rates: RateMap, round: Rounder): (totals: seq<LineTotal>)
    requires AllRated(items, rates)
    ensures |totals| == |items|
    ensures forall i :: 0 <= i < |items| ==>
      totals[i] == LineTotal(items[i].description, round(InBase(items[i].amount, rates[items[i].currency]), 2))
  {
    if |items| == 0 then []
    else
      var first := LineTotal(items[0].description, round(InBase(items[0].amount, rates[items[0].currency]), 2));
      var rest := Convert(items[1..], rates, round);
      assert forall i :: 1 <= i < |items| ==> items[i] == items[1..][i - 1];
      [first] + rest
  }

  /**
   * Converts the line items at the rates, the supplied ones replacing the cached ones.
   * The check meant to reject an empty rate map inspects the line items instead.
   */
  function CalculateLineTotal(s: Invoice, items: Option<seq<LineItem>>, rates: Option<RateMap>, round: Rounder)
    : (r: Step<seq<LineTotal>>)
    ensures r.state.lineItems == (if items.Some? then items.value else s.lineItems)
    ensures r.state.exchangeRates == (if rates.Some? then rates.value else s.exchangeRates)
    ensures r.result == Failure(NoLineItems) <==> |r.state.lineItems| == 0
    ensures r.result != Failure(EmptyExchangeRates)
    ensures r.result.Success? <==> |r.state.lineItems| > 0 && AllRated(r.state.lineItems, r.state.exchangeRates)
    ensures r.result.Failure? ==> r.state.lineTotal == s.lineTotal
    ensures |r.state.lineItems| > 0 && !AllRated(r.state.lineItems, r.state.exchangeRates) ==>
      r.result == Failure(MissingRate(r.state.lineItems[FirstUnrated(r.state.lineItems, r.state.exchangeRates).value].currency))
    ensures r.result.Failure? && r.result.error.MissingRate? ==>
      exists i :: 0 <= i < |r.state.lineItems| && r.state.lineItems[i].currency == r.result.error.currency
        && r.result.error.currency !in r.state.exchangeRates
    ensures r.result.Success? ==>
      var lines := r.state.lineItems;
      var totals := r.result.value;
      && |totals| == |lines|
      && (forall i :: 0 <= i < |lines| ==>
            totals[i].description == lines[i].description
            && totals[i].amount == round(InBase(lines[i].amount, r.state.exchangeRates[lines[i].currency]), 2))
      && r.state == s.(lineItems := lines, exchangeRates := r.state.exchangeRates, lineTotal := totals)
    ensures r.state.baseCurrency == s.baseCurrency && r.state.date == s.date
    ensures r.state.queryString == s.queryString && r.state.invoiceTotal == s.invoiceTotal
  {
    var s1 := s.(lineItems := OrObject(items, s.lineItems), exchangeRates := OrObject(rates, s.exchangeRates));
    if |s1.lineItems| == 0 then Step(Failure(NoLineItems), s1)
    else
      var keys := ArrayKeys(s1.lineItems);
      assert 0 in keys;
      if |keys| == 0 then Step(Failure(EmptyExchangeRates), s1)
      else
        match FirstUnrated(s1.lineItems, s1.exchangeRates)
        case Some(i) => Step(Failure(MissingRate(s1.lineItems[i].currency)), s1)
        case None =>
          var totals := Convert(s1.lineItems, s1.exchangeRates, round);
          Step(Success(totals), s1.(lineTotal := totals))
  }

  /** The sum of the amounts, as `reduce` accumulates it from `acc`, left to right. */
  function Reduce(acc: real, totals: seq<LineTotal>): real
    decreases |totals|
  {
    if |totals| == 0 then acc else Reduce(acc + totals[0].amount, totals[1..])
  }

  /** Reference definition: the sum of all amounts. */
  function Sum(totals: seq<LineTotal>): real
  {
    if |totals| == 0 then 0.0 else totals[0].amount + Sum(totals[1..])
  }

  /** The accumulation adds exactly the amounts to its starting value. */
  lemma {:induction false} ReduceIsSum(acc: real, totals: seq<LineTotal>)
    ensures Reduce(acc, totals) == acc + Sum(totals)
    decreases |totals|
  {
    if |totals| > 0 {
      ReduceIsSum(acc + totals[0].amount, totals[1..]);
    }
  }

  /** Sums the line totals, the supplied ones replacing the cached ones, and caches the rounded sum. */
  function CalculateInvoiceTotal(s: Invoice, totals: Option<seq<LineTotal>>, round: Rounder): (r: Step<real>)
    ensures r.state.lineTotal == (if totals.Some? then totals.value else s.lineTotal)
    ensures r.result.Failure? <==> |r.state.lineTotal| == 0
    ensures r.result.Failure? ==> r.result.error == NoLineTotal && r == Step(r.result, s.(lineTotal := r.state.lineTotal))
    ensures r.result.Success? ==>
      && r.result.value == round(Sum(r.state.lineTotal), 2)
      && r.state == s.(lineTotal := r.state.lineTotal, invoiceTotal := Some(r.result.value))
  {
    var s1 := s.(lineTotal := OrObject(totals, s.lineTotal));
    if |s1.lineTotal| == 0 then Step(Failure(NoLineTotal), s1)
    else
      ReduceIsSum(0.0, s1.lineTotal);
      var total := round(Reduce(0.0, s1.lineTotal), 2);
      Step(Success(total), s1.(invoiceTotal := Some(total)))
  }

  /**
   * Produces the total to print: a truthy supplied or cached total as it is; otherwise
   * the stages run in order — query, rates, line totals, invoice total — each reading
   * what the previous stage cached, and the first error ends the run.
   */
  function PrintInvoiceTotal(s: Invoice, total: Option<real>, fetch: Fetch, round: Rounder): (r: Step<real>)
    ensures TotalTruthy(OrTotal(total, s.invoiceTotal)) ==>
      r == Step(Success(OrTotal(total, s.invoiceTotal).value), s.(invoiceTotal := OrTotal(total, s.invoiceTotal)))
    ensures !TotalTruthy(OrTotal(total, s.invoiceTotal)) ==>
      && r.state.queryString == QueryFor(s)
      && r.result != Failure(MissingQueryString)
      && r.result != Failure(EmptyExchangeRates)
      && r.result != Failure(NoLineTotal)
    ensures r.result.Success? ==> r.state.invoiceTotal == Some(r.result.value)
  {
    var s1 := s.(invoiceTotal := OrTotal(total, s.invoiceTotal));
    if TotalTruthy(s1.invoiceTotal) then Step(Success(s1.invoiceTotal.value), s1)
    else
      var query := GenerateQuery(s1);
      var rates := FetchExchangeRate(query.state, None, fetch, round);
      if rates.result.Failure? then Step(Failure(rates.result.error), rates.state)
      else
        var lines := CalculateLineTotal(rates.state, None, None, round);
        if lines.result.Failure? then Step(Failure(lines.result.error), lines.state)
        else CalculateInvoiceTotal(lines.state, None, round)
  }
}
