/**
 * Worked invoices, computed end to end with half-up rounding and a service that answers
 * every query with the same rates.
 */
module Scenarios {
  import opened Wrappers
  import opened Rounding
  import opened InvoiceService
  import opened InvoiceProperties

  /** A service that answers every query with `rates`. */
  function Answering(rates: ReportedRates): Fetch
  {
    (query: string) => Rates(rates)
  }

  /** Half-up rounding read off the floor of the scaled value. */
  lemma HalfUpFromFloor(x: real, p: nat, n: int)
    requires (x * Pow10(p) as real + 0.5).Floor == n
    ensures HalfUp(x, p) == n as real / Pow10(p) as real
  {
    RoundAtFromFloor(x, n, Pow10(p) as real);
  }

  lemma Pow10Values()
    ensures Pow10(2) == 100 && Pow10(4) == 10000
  {
    assert Pow10(1) == 10;
    assert Pow10(3) == 1000;
  }

  /** The roundings the single-line invoice performs. */
  lemma SingleLineRoundings()
    ensures HalfUp(1.0 / 0.5, 4) == 2.0
    ensures HalfUp(InBase(100.0, 2.0), 2) == 200.0
    ensures HalfUp(200.0, 2) == 200.0
  {
    Pow10Values();
    HalfUpFromFloor(1.0 / 0.5, 4, 20000);
    HalfUpFromFloor(InBase(100.0, 2.0), 2, 20000);
    HalfUpFromFloor(200.0, 2, 20000);
  }

  /** The roundings the two-line invoice performs. */
  lemma TwoLineRoundings()
    ensures HalfUp(1.0 / 0.6541, 4) == 1.5288
    ensures HalfUp(1.0 / 0.9, 4) == 1.1111
    ensures HalfUp(InBase(100.0, 1.5288), 2) == 152.88
    ensures HalfUp(InBase(50.0, 1.1111), 2) == 55.56
    ensures HalfUp(152.88 + 55.56, 2) == 208.44
  {
    Pow10Values();
    HalfUpFromFloor(1.0 / 0.6541, 4, 15288);
    HalfUpFromFloor(1.0 / 0.9, 4, 11111);
    HalfUpFromFloor(InBase(100.0, 1.5288), 2, 15288);
    HalfUpFromFloor(InBase(50.0, 1.1111), 2, 5556);
    HalfUpFromFloor(208.44, 2, 20844);
  }

  /** The sum of two line totals. */
  lemma SumOfTwo(totals: seq<LineTotal>)
    requires |totals| == 2
    ensures Sum(totals) == totals[0].amount + totals[1].amount
  {
    assert totals[1..][0] == totals[1];
    assert Sum(totals[1..]) == totals[1].amount + Sum(totals[1..][1..]);
    assert totals[1..][1..] == [];
  }

  /** What the pipeline leaves behind when every line item's currency is reported. */
  ghost predicate Computed(r: Step<real>, items: seq<LineItem>, reported: ReportedRates)
  {
    && r.state.exchangeRates.Keys == reported.Keys
    && (forall c :: c in reported ==> r.state.exchangeRates[c] == HalfUp(1.0 / reported[c], 4))
    && |r.state.lineTotal| == |items|
    && (forall i :: 0 <= i < |items| ==>
          && items[i].currency in reported
          && r.state.lineTotal[i] == LineTotal(items[i].description,
               HalfUp(InBase(items[i].amount, HalfUp(1.0 / reported[items[i].currency], 4)), 2)))
    && r.result == Success(HalfUp(Sum(r.state.lineTotal), 2))
  }

  /** A half-up pipeline run over the invoice as in the worked invoices below. */
  function Run(lines: seq<LineItem>, reported: ReportedRates): Step<real>
  {
    PrintInvoiceTotal(New(Document("AUD", "2020/08/05", lines)), None, Answering(reported), HalfUp)
  }

  /** Every run whose line currencies are all reported computes as the pipeline lemma says. */
  lemma RunComputes(lines: seq<LineItem>, reported: ReportedRates)
    requires |lines| > 0
    requires forall i :: 0 <= i < |lines| ==> lines[i].currency in reported
    ensures Computed(Run(lines, reported), lines, reported)
  {
    var s := New(Document("AUD", "2020/08/05", lines));
    PipelineComputesTotal(s, None, Answering(reported), HalfUp, reported);
  }

  /** The single-line values, read off what the pipeline computed. */
  lemma SingleLineValues(r: Step<real>, items: seq<LineItem>, reported: ReportedRates)
    requires items == [LineItem("A", "USD", 100.0)]
    requires reported == map["USD" := 0.5]
    requires Computed(r, items, reported)
    ensures r.result == Success(200.0)
    ensures r.state.exchangeRates.Keys == {"USD"} && r.state.exchangeRates["USD"] == 2.0
    ensures r.state.lineTotal == [LineTotal("A", 200.0)]
  {
    SingleLineRoundings();
    assert r.state.exchangeRates["USD"] == HalfUp(1.0 / 0.5, 4);
    assert r.state.lineTotal[0] == LineTotal("A", HalfUp(InBase(100.0, HalfUp(1.0 / 0.5, 4)), 2));
    assert r.state.lineTotal == [LineTotal("A", 200.0)];
    assert Sum(r.state.lineTotal) == 200.0;
  }

  /** The two-line values, read off what the pipeline computed. */
  lemma TwoLineValues(r: Step<real>, items: seq<LineItem>, reported: ReportedRates)
    requires items == [LineItem("A", "USD", 100.0), LineItem("B", "EUR", 50.0)]
    requires reported == map["USD" := 0.6541, "EUR" := 0.9]
    requires Computed(r, items, reported)
    ensures r.result == Success(208.44)
    ensures r.state.exchangeRates.Keys == {"USD", "EUR"}
    ensures r.state.exchangeRates["USD"] == 1.5288 && r.state.exchangeRates["EUR"] == 1.1111
    ensures r.state.lineTotal == [LineTotal("A", 152.88), LineTotal("B", 55.56)]
  {
    TwoLineRoundings();
    assert r.state.exchangeRates["USD"] == HalfUp(1.0 / reported["USD"], 4);
    assert r.state.exchangeRates["EUR"] == HalfUp(1.0 / reported["EUR"], 4);
    assert r.state.lineTotal[0] == LineTotal("A", HalfUp(InBase(100.0, HalfUp(1.0 / 0.6541, 4)), 2));
    assert r.state.lineTotal[1] == LineTotal("B", HalfUp(InBase(50.0, HalfUp(1.0 / 0.9, 4)), 2));
    assert r.state.lineTotal == [LineTotal("A", 152.88), LineTotal("B", 55.56)];
    SumOfTwo(r.state.lineTotal);
  }

  /** One line of 100 USD at a reported rate of 0.5 per AUD: the multiplier is 2 and the total 200. */
  lemma {:induction false} SingleLineInvoice()
    ensures var r := Run([LineItem("A", "USD", 100.0)], map["USD" := 0.5]);
      && r.result == Success(200.0)
      && r.state.exchangeRates.Keys == {"USD"} && r.state.exchangeRates["USD"] == 2.0
      && r.state.lineTotal == [LineTotal("A", 200.0)]
  {
    var lines := [LineItem("A", "USD", 100.0)];
    var reported: ReportedRates := map["USD" := 0.5];
    RunComputes(lines, reported);
    SingleLineValues(Run(lines, reported), lines, reported);
  }

  /**
   * 100 USD at 0.6541 and 50 EUR at 0.9 per AUD: multipliers 1.5288 and 1.1111, line totals
   * 152.88 and 55.56, invoice total 208.44.
   */
  lemma {:induction false} TwoLineInvoice()
    ensures var r := Run([LineItem("A", "USD", 100.0), LineItem("B", "EUR", 50.0)], map["USD" := 0.6541, "EUR" := 0.9]);
      && r.result == Success(208.44)
      && r.state.exchangeRates.Keys == {"USD", "EUR"}
      && r.state.exchangeRates["USD"] == 1.5288 && r.state.exchangeRates["EUR"] == 1.1111
      && r.state.lineTotal == [LineTotal("A", 152.88), LineTotal("B", 55.56)]
  {
    var lines := [LineItem("A", "USD", 100.0), LineItem("B", "EUR", 50.0)];
    var reported: ReportedRates := map["USD" := 0.6541, "EUR" := 0.9];
    RunComputes(lines, reported);
    TwoLineValues(Run(lines, reported), lines, reported);
  }
}
