# Invoice total service — Dafny model

This project models the `Invoice` class of `src/services/invoice.ts`. An instance holds one
invoice: a base currency, a date and line items, each with a description, a currency and an
amount. It computes the invoice total in the base currency in four stages:

1. build the exchange-rate query URL;
2. fetch the rates and invert each one;
3. convert every line item;
4. sum the converted amounts.

Each stage caches its output on the instance. Each stage can also take that output as an
optional argument, which overrides the cache.

The instance is the immutable record `InvoiceService.Invoice`. Each method is a pure function
from the instance and its optional arguments to a `Step`. A `Step` is the method's result or
error, paired with the instance as the method leaves it. A method that throws keeps the field
assignments it made before throwing.

- Optional arguments follow JavaScript's `arg || cached`:
  - `OrString`: an empty query string falls back to the cache.
  - `OrObject`: arrays and objects are always truthy, so an empty array overrides the cache.
  - `OrTotal` / `TotalTruthy`: a total of `0` falls back to the cache and counts as "no total".
- `round` comes from a helper module that is not part of this model. Every operation takes it as a
  parameter of type `Rounding.Rounder`, and every contract is stated in terms of it.
  `Rounding.HalfUp` is one concrete rounder. It is used only by the worked examples in
  `Scenarios`.
- The exchange-rate service is a parameter `Fetch`: a function from the query URL to its answer.
  A fetch with no query is shown not to depend on that function.
- Amounts are exact `real`s.
- Error messages are the source's constants: `InvoiceService.Error.Message`. There are two
  exceptions. `RateService` carries the service's own message, which the source passes through.
  `MissingRate`'s message, "no exchange rate for " followed by the currency, is the model's own,
  because the source has no such error.

Two points of the source are easy to misread:

- The query lists every line item's currency in line-item order with duplicates kept. It does
  not deduplicate them (src/services/invoice.ts:69-71).
- The error message at src/services/invoice.ts:111 names `exchangeRates`, but the check there
  counts the keys of the line-item array, not of the rate map. For a line-item array without
  holes, once the items are known to be non-empty, this check can never fire.
  `CalculateLineTotal` states that it never fires, and `EmptyRateMapNotRejected` shows that an
  empty rate map gets through it.

Files:

- `wrappers.dfy`: `Option` and `Result`.
- `rounding.dfy`: the `Rounder` type and half-up rounding.
- `query.dfy`: the query prefix, the source's symbol-appending loop, a reference comma join, and
  a comma split that inverts it.
- `invoice.dfy`: the instance record and the five methods.
- `properties.dfy`: lemmas relating several calls.
- `scenarios.dfy`: two worked invoices.

## Model

| member | source | states |
|---|---|---|
| InvoiceService.New | src/services/invoice.ts:27-37 | A new instance holds the loaded document's currency, date and lines. Its query is empty, its rate map is empty, its line totals are empty and its total is falsy. |
| Query.AppendSymbolsJoins | src/services/invoice.ts:69-71 | The per-item loop, which appends each currency plus a comma unless the item is the last, produces exactly the comma-joined currency list. |
| Query.SplitJoin | src/services/invoice.ts:68-71 | The list has no trailing comma and loses nothing: splitting a non-empty joined list of comma-free codes at commas gives back the codes, in order, with duplicates. |
| InvoiceService.GenerateQuery | src/services/invoice.ts:66-74 | The query is the service prefix carrying the date and base currency, followed by the joined currencies. With no line items it is the prefix ending in `symbols=` and does not fail. The query is cached; no other field changes. |
| InvoiceProperties.QueryListsCurrencies | src/services/invoice.ts:66-74 | The built query starts with the prefix, and the text after it splits back into the line items' currencies in line-item order. |
| InvoiceProperties.GenerateQueryIsIdempotent | src/services/invoice.ts:66-74 | Building the query again from the instance it left gives the same query and instance. |
| InvoiceService.FetchExchangeRate | src/services/invoice.ts:84-94 | A non-empty supplied query replaces the cached one; an absent or empty one keeps it. An empty query fails with "missing query string" and changes nothing. A service failure carries the service's message and caches only the query. On success the rate map has exactly the reported currencies, each mapped to `round(1 / rate, 4)`, and it replaces the cached rates. |
| InvoiceProperties.FetchWithoutQueryAsksNothing | src/services/invoice.ts:86-88 | Without a query the fetch fails the same way whatever the service would answer, so no request is made. |
| InvoiceService.ArrayKeys | src/services/invoice.ts:111 | The keys of an array without holes, viewed as an object, are exactly its indices. |
| InvoiceService.FirstUnrated | src/services/invoice.ts:113-118 | Finds the first line item whose currency has no rate. It finds none exactly when every currency is rated. |
| InvoiceService.Convert | src/services/invoice.ts:113-118 | One line total per line item, in order. Each copies the item's description and has amount `round(amount × rate of its currency, 2)`. |
| InvoiceService.CalculateLineTotal | src/services/invoice.ts:106-121 | Supplied items and rates overwrite the cached ones. It fails with "no lineItems found" exactly when the items are empty. For items without holes, the "empty exchangeRates object" error never occurs. It succeeds exactly when the items are non-empty and every currency has a rate. On success the totals match the items in length, order and description, each amount is `round(amount × rate, 2)`, and the totals are cached. Non-empty items with an unrated currency fail with a missing-rate error naming the first such item's currency. On failure the cached totals are kept. |
| InvoiceProperties.EmptyRateMapNotRejected | src/services/invoice.ts:110-116 | An empty supplied rate map with non-empty items is not rejected as empty. Conversion fails instead on the first item's missing rate. |
| InvoiceProperties.LineTotalReplaysFromCache | src/services/invoice.ts:106-120 | After a successful conversion, converting again from the caches alone gives the same result and instance. |
| InvoiceService.ReduceIsSum | src/services/invoice.ts:132-133 | The `reduce` accumulation from 0 adds exactly the amounts: it equals a reference sum. |
| InvoiceService.CalculateInvoiceTotal | src/services/invoice.ts:127-135 | Supplied line totals overwrite the cached ones. It fails with "no lineTotal found" exactly when they are empty, changing nothing else. Otherwise the total is `round(sum of amounts, 2)` and is cached. |
| InvoiceProperties.InvoiceTotalFromSuppliedLines | src/services/invoice.ts:127-135 | With non-empty supplied line totals, the result and the new instance are determined by those totals alone, not by the cache. |
| InvoiceService.PrintInvoiceTotal | src/services/invoice.ts:141-157 | A truthy supplied or cached total is emitted as it is, and only the total field changes. Otherwise the query stage always runs. The missing-query, empty-rate-map and missing-line-total errors cannot occur. A successful run caches the emitted total. |
| InvoiceProperties.PipelineComputesTotal | src/services/invoice.ts:141-153 | Without a truthy total, the stages run in order. The query comes from the invoice, and the service's rates for exactly that query are inverted as `round(1 / r, 4)`. Each item is converted as `round(amount × round(1 / r, 4), 2)`. The emitted and cached total is `round(sum, 2)`. |
| InvoiceProperties.PipelineReportsServiceFailure | src/services/invoice.ts:141-157 | If the service fails on the generated query, its message is the error and only the query has been cached. |
| InvoiceProperties.PipelineReportsMissingRate | src/services/invoice.ts:113-118 | If the service reports no rate for some item's currency, the run stops with a missing-rate error naming an unreported currency. No line totals or total are cached. |
| InvoiceProperties.PipelineRejectsNoLineItems | src/services/invoice.ts:110 | An invoice without line items fails with "no lineItems found" once the rates are fetched. |
| InvoiceProperties.SecondPrintUsesCache | src/services/invoice.ts:143-146 | Once a non-zero total has been produced, printing again emits it unchanged, leaves the instance unchanged, and does not consult the service. |
| InvoiceProperties.FreshInvoiceRunsPipeline | src/services/invoice.ts:141-148 | A freshly loaded instance has a null total, so printing it always runs the pipeline. Its first stage caches the query built from the document's date, currency and line currencies. |
| Rounding.HalfUpWithinHalfStep | src/services/invoice.ts:4 | The half-up instance of `round` stays within half a unit of the last kept digit. |
| Rounding.HalfUpIdempotent | src/services/invoice.ts:4 | Half-up rounding an already-rounded amount to the same precision changes nothing. |
| Scenarios.SingleLineInvoice | src/services/invoice.ts:141-153 | One line of 100 USD at a reported rate of 0.5 gives the multiplier 2, a line total of 200 and an invoice total of 200. |
| Scenarios.TwoLineInvoice | src/services/invoice.ts:141-153 | 100 USD at 0.6541 and 50 EUR at 0.9 give multipliers 1.5288 and 1.1111, line totals 152.88 and 55.56, and an invoice total of 208.44. |

## Left out

- Loading the document (`loadData`: file read, JSON parse, "Invalid input file"). This is I/O and foreign parsing. The loaded document is the input record `Document` given to `New`. The `path` field and the constructor's placeholder defaults, which the load always overwrites, are omitted.
- The HTTP request and the unwrapping of the error payload. These are network plumbing. The service is the `Fetch` parameter, and its error message is passed in as it would be unwrapped.
- `console.log` and `async`/`await`. `PrintInvoiceTotal` returns the value the source prints, and the stages are sequential.
- Floating-point arithmetic. Amounts, rates and sums are exact reals. No claim is made that the total is independent of line order or that decimal results are exact under floats.
- The helper's `round`. It is not part of this model and is a parameter. `HalfUp` is an assumed half-up instance used only for the worked examples.
- NaN for a currency without a rate. The source multiplies by `undefined`, then rounds and caches a NaN line total. The model instead fails with the explicit `MissingRate` error, keeps the overwritten items and rates, and leaves the cached line totals as they were.
- A reported rate of zero. The source would store `round(Infinity, 4)`. The response type `ReportedRates` excludes zero rates.
- A NaN cached total, which JavaScript treats as falsy. Totals are `None` (null) or a real.
- CalculateLineTotal: line-item arrays are modelled without holes, because a Dafny sequence has none. With holes, such as `new Array(2)`, the length check at src/services/invoice.ts:110 passes. `Object.keys` can then be empty, so the check at :111 can fire, and `map` and `reduce` skip the holes. The model promises nothing for such arrays.
- LineTotalReplaysFromCache: arrays and objects are treated as values. The source stores the caller's arrays and objects by reference (src/services/invoice.ts:107-108, :128) and returns its cached ones (:93-94, :120). A caller that mutates an array or object it gave or got back therefore changes what the source's next call reads. The model's caches are unaffected by such mutation. For example, emptying the array `calculateLineTotal()` returned makes the source's next `calculateInvoiceTotal()` fail with "no lineTotal found", while the model's does not.
- Arguments of the wrong JavaScript type, such as a non-array passed as line items. Dafny's types exclude them.
