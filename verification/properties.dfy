/** Properties relating several calls on one invoice instance. */
module InvoiceProperties {
  import opened Wrappers
  import opened Query
  import opened InvoiceService

  /** The currency list of a built query splits back into the line items' currencies, in order. */
  lemma QueryListsCurrencies(s: Invoice)
    requires |s.lineItems| > 0
    requires CommaFree(Currencies(s.lineItems))
    ensures var q := GenerateQuery(s).result.value;
      var prefix := Prefix(s.date, s.baseCurrency);
      && |prefix| <= |q|
      && q[..|prefix|] == prefix
      && Split(q[|prefix|..]) == Currencies(s.lineItems)
  {
    var prefix := Prefix(s.date, s.baseCurrency);
    var q := GenerateQuery(s).result.value;
    assert q == prefix + Join(Currencies(s.lineItems));
    assert q[|prefix|..] == Join(Currencies(s.lineItems));
    SplitJoin(Currencies(s.lineItems));
  }

  /** Building the query again from the instance it left behind changes nothing. */
  lemma GenerateQueryIsIdempotent(s: Invoice)
    ensures GenerateQuery(GenerateQuery(s).state) == GenerateQuery(s)
  {
  }

  /** Without a query the rate fetch fails the same way whatever the service would answer. */
  lemma FetchWithoutQueryAsksNothing(s: Invoice, query: Option<string>, fetch1: Fetch, fetch2: Fetch, round: Rounding.Rounder)
    requires OrString(query, s.queryString) == ""
    ensures FetchExchangeRate(s, query, fetch1, round) == FetchExchangeRate(s, query, fetch2, round)
    ensures FetchExchangeRate(s, query, fetch1, round).result == Failure(MissingQueryString)
  {
  }

  /**
   * An empty rate map is not rejected as such: with line items present, the conversion
   * fails on the first line item's missing rate instead.
   */
  lemma {:induction false} EmptyRateMapNotRejected(s: Invoice, items: Option<seq<LineItem>>, round: Rounding.Rounder)
    requires |OrObject(items, s.lineItems)| > 0
    ensures CalculateLineTotal(s, items, Some(map[]), round).result == Failure(MissingRate(OrObject(items, s.lineItems)[0].currency))
  {
    var lines := OrObject(items, s.lineItems);
    var none: RateMap := map[];
    assert !AllRated(lines, none) by {
      assert lines[0].currency !in none;
    }
    assert FirstUnrated(lines, none) == Some(0);
  }

  /** Converting again from the caches a successful conversion left gives the same outcome. */
  lemma LineTotalReplaysFromCache(s: Invoice, items: Option<seq<LineItem>>, rates: Option<RateMap>, round: Rounding.Rounder)
    requires CalculateLineTotal(s, items, rates, round).result.Success?
    ensures var r := CalculateLineTotal(s, items, rates, round);
      CalculateLineTotal(r.state, None, None, round) == r
  {
    var r := CalculateLineTotal(s, items, rates, round);
    var r2 := CalculateLineTotal(r.state, None, None, round);
    assert r2.result.Success?;
    assert r2.result.value == r.result.value;
  }

  /** A total rounded by the invoice total equals the rounded sum of the amounts, however supplied. */
  lemma InvoiceTotalFromSuppliedLines(s: Invoice, totals: seq<LineTotal>, round: Rounding.Rounder)
    requires |totals| > 0
    ensures CalculateInvoiceTotal(s, Some(totals), round)
      == Step(Success(round(Sum(totals), 2)), s.(lineTotal := totals, invoiceTotal := Some(round(Sum(totals), 2))))
  {
  }

  /**
   * Without a truthy total, the stages run in order on a fresh computation: the query is
   * built from the invoice, the service's rates for exactly that query are inverted, each
   * line item is converted at its inverted rate, and the rounded sum is cached and printed.
   */
  lemma PipelineComputesTotal(s: Invoice, total: Option<real>, fetch: Fetch, round: Rounding.Rounder, reported: ReportedRates)
    requires !TotalTruthy(OrTotal(total, s.invoiceTotal))
    requires fetch(QueryFor(s)) == Rates(reported)
    requires |s.lineItems| > 0
    requires forall i :: 0 <= i < |s.lineItems| ==> s.lineItems[i].currency in reported
    ensures var r := PrintInvoiceTotal(s, total, fetch, round);
      var items := s.lineItems;
      && r.state.queryString == QueryFor(s)
      && r.state.exchangeRates.Keys == reported.Keys
      && (forall c :: c in reported ==> r.state.exchangeRates[c] == round(1.0 / reported[c], 4))
      && r.state.lineItems == items
      && |r.state.lineTotal| == |items|
      && (forall i :: 0 <= i < |items| ==>
            r.state.lineTotal[i] == LineTotal(items[i].description,
              round(InBase(items[i].amount, round(1.0 / reported[items[i].currency], 4)), 2)))
      && r.result == Success(round(Sum(r.state.lineTotal), 2))
      && r.state.invoiceTotal == Some(r.result.value)
  {
    var s1 := s.(invoiceTotal := OrTotal(total, s.invoiceTotal));
    var query := GenerateQuery(s1);
    assert query.state.queryString == QueryFor(s);
    var rates := FetchExchangeRate(query.state, None, fetch, round);
    assert rates.result.Success?;
    var lines := CalculateLineTotal(rates.state, None, None, round);
    assert AllRated(rates.state.lineItems, rates.state.exchangeRates);
    assert lines.result.Success?;
    var sum := CalculateInvoiceTotal(lines.state, None, round);
    assert PrintInvoiceTotal(s, total, fetch, round) == sum;
  }

  /** When the service fails, its message is the error and only the query has been cached. */
  lemma PipelineReportsServiceFailure(s: Invoice, total: Option<real>, fetch: Fetch, round: Rounding.Rounder, message: string)
    requires !TotalTruthy(OrTotal(total, s.invoiceTotal))
    requires fetch(QueryFor(s)) == Failed(message)
    ensures PrintInvoiceTotal(s, total, fetch, round)
      == Step(Failure(RateService(message)), s.(queryString := QueryFor(s), invoiceTotal := OrTotal(total, s.invoiceTotal)))
  {
  }

  /** A line item whose currency the service did not report stops the run before any total is cached. */
  lemma PipelineReportsMissingRate(s: Invoice, total: Option<real>, fetch: Fetch, round: Rounding.Rounder, reported: ReportedRates, k: nat)
    requires !TotalTruthy(OrTotal(total, s.invoiceTotal))
    requires fetch(QueryFor(s)) == Rates(reported)
    requires k < |s.lineItems| && s.lineItems[k].currency !in reported
    ensures var r := PrintInvoiceTotal(s, total, fetch, round);
      && r.result.Failure? && r.result.error.MissingRate?
      && r.result.error.currency !in reported
      && r.state.lineTotal == s.lineTotal
      && r.state.invoiceTotal == OrTotal(total, s.invoiceTotal)
  {
    var s1 := s.(invoiceTotal := OrTotal(total, s.invoiceTotal));
    var query := GenerateQuery(s1);
    var rates := FetchExchangeRate(query.state, None, fetch, round);
    assert rates.state.lineItems[k].currency !in rates.state.exchangeRates;
    var lines := CalculateLineTotal(rates.state, None, None, round);
    assert lines.result.Failure?;
  }

  /** An invoice without line items fails the conversion stage once the rates are in. */
  lemma PipelineRejectsNoLineItems(s: Invoice, total: Option<real>, fetch: Fetch, round: Rounding.Rounder)
    requires !TotalTruthy(OrTotal(total, s.invoiceTotal))
    requires fetch(QueryFor(s)).Rates?
    requires |s.lineItems| == 0
    ensures PrintInvoiceTotal(s, total, fetch, round).result == Failure(NoLineItems)
  {
    var s1 := s.(invoiceTotal := OrTotal(total, s.invoiceTotal));
    var query := GenerateQuery(s1);
    var rates := FetchExchangeRate(query.state, None, fetch, round);
    assert rates.result.Success?;
  }

  /** Once a non-zero total is printed, printing again emits it without consulting the service. */
  lemma SecondPrintUsesCache(s: Invoice, total: Option<real>, fetch: Fetch, again: Fetch, round: Rounding.Rounder)
    requires PrintInvoiceTotal(s, total, fetch, round).result.Success?
    requires PrintInvoiceTotal(s, total, fetch, round).result.value != 0.0
    ensures var r := PrintInvoiceTotal(s, total, fetch, round);
      PrintInvoiceTotal(r.state, None, again, round) == Step(r.result, r.state)
  {
  }

  /** A freshly loaded invoice has no total, so printing it always runs the pipeline. */
  lemma FreshInvoiceRunsPipeline(doc: Document, fetch: Fetch, round: Rounding.Rounder)
    ensures PrintInvoiceTotal(New(doc), None, fetch, round).state.queryString
      == Prefix(doc.date, doc.currency) + Join(Currencies(doc.lines))
  {
  }
}
