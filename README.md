# Combined invoice/payment report — Dafny model

A model of the one reporting endpoint of the accounting controller,
`GET api/Contabilidades/Reporte/{codigoFactura}`. The endpoint fetches all invoices
(`FacturaDto`) from one upstream service and all payments (`PagoDto`) from another.
It turns every failed fetch into an error note instead of an exception. It then
looks up the requested invoice, joins its payments by foreign key, and computes
the total paid, the financial status ("Pagada Totalmente", "Pago Parcial",
"Sin Pagos") and the balance shown, which is clamped at zero. Its answer is 200
with the combined report when an invoice carries the id (even if some fetch
failed), 503 when the invoice list is empty and some fetch failed (either
source), and 404 otherwise.

Modules:

- `Wrappers`: `Option`, for the source's nullable results.
- `Dtos`: the two upstream records. Money is `real`, because C# `decimal` is
  exact. Dates are opaque.
- `Fetch`: the fetch phase. `HttpOutcome` is the abstract result of one GET:
  the service answered with a status and a decoded payload, the call timed out,
  or it failed. `Consume` is one try/catch block, and it appends to the error
  list. `FetchPhase` runs the invoices block and then the payments block.
- `Report`: the business rules as pure functions: lookup, join, sum, status,
  clamp, and building the response. Lemmas about them.
- `Contabilidades`: the endpoint, `GetReporteCombinado`, written as the fetch
  phase followed by `Agregar`. Lemmas relate fetch outcomes to responses.
  Worked scenarios.

Behaviour followed as the code writes it, where a natural reading differs:

- The 503 branch fires when no invoice matched, the invoice list is empty and
  there is **any** error note, including one from the payments service alone
  (`Controllers/ContabilidadesController.cs:99`). It is not tied to an invoices
  error. `PaymentsFailureWithNoInvoicesIsUnavailable` states this.
- The 404 body is only a message. The message names the requested id (line 104),
  so `NoEncontrada` carries just that id.
- "Sin Pagos" is chosen whenever the balance is positive and the total paid is
  `<= 0`, not only when it is `== 0` (lines 117-119). A negative total from
  negative amounts also falls into this case.
- The two fetches run one after the other, invoices first (lines 38-89). That
  fixes the order of the notes: an invoices note always comes before a payments
  note.
- A JSON body that cannot be decoded throws inside the try block. The model
  therefore treats it as a `Failed` outcome, giving a `Critical` note. A body
  that decodes to `null` is `Answered(status, None)` and gives an empty list
  with no note.
- An empty 2xx body (a 204, say) is not an empty list: deserialising `""`
  throws inside the try block (line 49), so it is a `Failed` outcome with
  its own note (`ScenarioEmptyBodyIsFault`).

## Model

| member | source | states |
|---|---|---|
| `Fetch.Consume` | Controllers/ContabilidadesController.cs:38-89 | status 2xx: the list becomes the decoded records (empty for a null body) and no note is added; otherwise the list is left as it was and exactly one note is appended, tagged with this source and the kind (status code, timeout, or fault message) |
| `Fetch.FetchPhase` | Controllers/ContabilidadesController.cs:25-89 | starting from empty lists, the invoices list, the payments list and the error list are exactly what the two fetch outcomes give, invoices notes first |
| `Fetch.FetchReduction` | Controllers/ContabilidadesController.cs:45-63 | a fetch adds no note exactly when it succeeded; a failed fetch leaves its list empty and adds exactly one note, of its own source |
| `Fetch.ErroresShape` | Controllers/ContabilidadesController.cs:38-89 | the error list has at most two notes; any invoices note comes before any payments note, so there is at most one per source; it is empty iff both fetches succeeded; it has an invoices (payments) note iff that fetch failed |
| `Report.FindFactura` | Controllers/ContabilidadesController.cs:94 | None iff no invoice has the id; otherwise the result is the invoice at the first position carrying the id |
| `Report.FindFacturaFirstWins` | Controllers/ContabilidadesController.cs:94 | when several invoices share the id, the lookup returns the first of them in list order |
| `Report.PagosAsociados` | Controllers/ContabilidadesController.cs:108 | every kept payment carries the requested id, and no more payments are kept than were given |
| `Report.PagosAsociadosExact` | Controllers/ContabilidadesController.cs:108 | each payment carrying the id is kept exactly as many times as it occurs, and no other payment is kept (multiset equality restricted to the id) |
| `Report.PagosAsociadosConcat` | Controllers/ContabilidadesController.cs:108 | the join distributes over concatenation, so the original order is kept and each payment is judged on its own |
| `Report.PagosAsociadosOnlyKeyFilters` | Controllers/ContabilidadesController.cs:108 | only the foreign key filters: if all payments carry the id the list is kept whole, and if none does the result is empty |
| `Report.SumaMontos` | Controllers/ContabilidadesController.cs:111 | the exact sum of the amounts: 0 for no payments, non-negative when every amount is, 0 when every amount is; with `SumaMontosConcat` and `TotalPagadoStep` it is additive and counts only payments carrying the id |
| `Report.SumaMontosConcat` | Controllers/ContabilidadesController.cs:111 | the sum of amounts is additive over concatenation |
| `Report.TotalPagadoStep` | Controllers/ContabilidadesController.cs:108-111 | inserting a payment anywhere raises the total paid by exactly its amount when it carries the id, and leaves it unchanged when it does not |
| `Report.TotalPagadoNoMatches` | Controllers/ContabilidadesController.cs:111 | with no matching payment the total paid is 0 |
| `Report.Etiqueta` | Controllers/ContabilidadesController.cs:117-119 | each state has its own status text ("Pagada Totalmente", "Pago Parcial", "Sin Pagos"), and each text belongs to exactly one state |
| `Report.Estado` | Controllers/ContabilidadesController.cs:112-119 | fully paid iff the raw balance is `<= 0`; partial iff the balance is positive and the total positive; no payments iff the balance is positive and the total `<= 0`; exactly one holds |
| `Report.SaldoRestante` | Controllers/ContabilidadesController.cs:134 | the displayed balance is non-negative, not below the raw balance, and equal to 0 or to the raw balance, i.e. `max(0, MontoTotal - total)` |
| `Report.SaldoMatchesEstado` | Controllers/ContabilidadesController.cs:112-134 | the displayed balance is 0 exactly when the status is fully paid, and equals the raw balance otherwise |
| `Report.EstadoMonotone` | Controllers/ContabilidadesController.cs:112-134 | a larger total paid never moves the status back (no payments < partial < fully paid) and never raises the displayed balance |
| `Report.Detalle` | Controllers/ContabilidadesController.cs:138-141 | one detail entry per matched payment, in order, carrying its date and amount |
| `Report.DetalleAddsUp` | Controllers/ContabilidadesController.cs:133-141 | the amounts in the payment details add up to the total paid |
| `Report.ConstruirReporte` | Controllers/ContabilidadesController.cs:122-147 | the invoice summary copies the invoice; total paid is the sum of the matched payments; the status is `Estado` and the balance `SaldoRestante` of the amount owed and that total (so fully paid, partial or no payments by the if-chain, balance `max(0, MontoTotal - total)`); the balance is non-negative and 0 iff fully paid; fully paid iff the amount owed is at most the total; the details are `Detalle` of the matched payments, one entry per payment in order; the flag is passed through; the details add up to the total; success iff no notes; the notes are the full list |
| `Report.BanderaOnlyPassedThrough` | Controllers/ContabilidadesController.cs:114-136 | changing the upstream paid flag changes only the passed-through flag in the report, never the status or the balance |
| `Report.Agregar` | Controllers/ContabilidadesController.cs:94-149 | 503 iff the invoice list is empty and some note (either source) was recorded, with all notes as details; 404 iff no invoice has the id and not that case, with the requested id; 200 iff some invoice has the id |
| `Report.AgregarFound` | Controllers/ContabilidadesController.cs:94-149 | when an invoice has the id, the answer is 200 whatever notes were recorded, built from the first such invoice and the payments carrying the id |
| `Contabilidades.ReporteCombinado` | Controllers/ContabilidadesController.cs:22-150 | the endpoint as a function of the two fetch outcomes: the 503 details and the report's notes are exactly the accumulated notes (one or two for 503, at most two in a report); a 404 names the requested id and arises only when invoices were obtained or both fetches succeeded |
| `Contabilidades.GetReporteCombinado` | Controllers/ContabilidadesController.cs:22-150 | the fetch phase followed by the rules gives `Agregar` of the fetched data; 503 iff no invoices were obtained and some fetch failed; a failed invoices fetch always gives 503; a report's success flag is true iff both fetches succeeded |
| `Contabilidades.InvoicesFailureIsUnavailable` | Controllers/ContabilidadesController.cs:38-101 | a failed invoices fetch gives 503, with all notes as details and the invoices note first |
| `Contabilidades.PaymentsFailureWithNoInvoicesIsUnavailable` | Controllers/ContabilidadesController.cs:66-101 | payments failed and invoices returned no records: 503, whose only detail is the payments note |
| `Contabilidades.NoMatchAfterSuccessIsNotFound` | Controllers/ContabilidadesController.cs:96-104 | both fetches succeeded and no invoice has the id (even with an empty list): 404 with the requested id |
| `Contabilidades.PaymentsFailureWithInvoiceFound` | Controllers/ContabilidadesController.cs:66-149 | payments failed, invoice found: 200 with total paid 0, balance `max(0, MontoTotal)`, status "Sin Pagos" (fully paid if nothing is owed), no details, success false, and the payments note as the only error |
| `Contabilidades.ScenarioPartialPayment` | Controllers/ContabilidadesController.cs:94-147 | 100 owed, a payment of 40 for it and one of 25 for another invoice: partial, 40 paid, 60 left, one detail, success |
| `Contabilidades.ScenarioFlagDisagrees` | Controllers/ContabilidadesController.cs:112-136 | 50 owed, 50 paid, upstream flag false: fully paid, balance 0, the flag still false |
| `Contabilidades.ScenarioInvoicesTimeout` | Controllers/ContabilidadesController.cs:56-101 | invoices timed out: 503 with the single timeout note |
| `Contabilidades.ScenarioNotFound` | Controllers/ContabilidadesController.cs:96-104 | three invoices, none with id 99: 404 |
| `Contabilidades.ScenarioPaymentsDown` | Controllers/ContabilidadesController.cs:72-149 | payments answered 500: 200 with 0 paid, 30 left, no payments, success false, the status-500 note |
| `Contabilidades.ScenarioPaymentsDownNoInvoices` | Controllers/ContabilidadesController.cs:45-101 | invoices answered 200 with a `null` body, payments faulted: 503 with the payments note only |
| `Contabilidades.ScenarioEmptyBodyIsFault` | Controllers/ContabilidadesController.cs:45-101 | an undecodable invoices body and a faulted payments fetch: 503 with both notes, invoices first |

## Left out

- The HTTP calls, `HttpClient`, the five-second `CancellationTokenSource` and
  async/await: I/O and timing. How each call ends is an input, `HttpOutcome`.
- JSON deserialisation and case-insensitive property matching: foreign
  library. The decoded list, or JSON `null`, is part of `HttpOutcome`. A decode
  exception is a `Failed` outcome.
- The wording of the error notes, of `ex.Message` formatting, of the 503 and
  404 messages: notes are tagged values (source and kind, with the status code
  or fault message carried as data).
- The status texts are given by `Report.Etiqueta`. The anonymous-object and
  JSON shape of the response is modelled by datatypes with the same blocks.
- A decoded list holding a JSON `null` element: the lambdas at lines 94 and
  108 would dereference it outside any try block, giving an unhandled 500.
  The model's lists hold records only, so this outcome is not modelled.
- Date formatting (`yyyy-MM-dd`): dates are opaque and only passed through.
- `decimal` overflow in `Sum` (line 111) and in the subtraction at line 112,
  either of which would throw outside any try block (an unhandled 500), and
  the 28-digit precision of `decimal`: amounts are exact unbounded reals.
- The 32-bit width of the `int` ids: they are only compared for equality, so
  unbounded `int` behaves the same.
- Program.cs (port from environment, CORS, Swagger, routing): infrastructure
  without decision logic.
- Idempotence: repeating the request with the same upstream data gives the
  same answer. This holds trivially, because `ReporteCombinado` is a function
  of the outcomes and the id.
