/**
 * The report endpoint `GET api/Contabilidades/Reporte/{codigoFactura}`:
 * the fetch phase followed by the business rules, with the outcomes of the
 * two upstream calls as inputs.
 */
module Contabilidades {

  import opened Wrappers
  import opened Dtos
  import opened Fetch
  import opened Report

  /**
   * What the endpoint answers, given how the two fetches ended. The notes
   * it surfaces, in the 503 details or in the report's metadata, are
   * exactly the accumulated ones; a 404 carries no notes.
   */
  function ReporteCombinado(facturas: HttpOutcome<FacturaDto>, pagos: HttpOutcome<PagoDto>, codigoFactura: int): (r: Respuesta)
    ensures r.ServicioNoDisponible? ==> r.detalles == Errores(facturas, pagos) && 1 <= |r.detalles| <= 2
    ensures r.Ok? ==> r.reporte.metadata.errores == Errores(facturas, pagos) && |r.reporte.metadata.errores| <= 2
    ensures r.NoEncontrada? ==> r.codigoEnMensaje == codigoFactura
    ensures r.NoEncontrada? ==> Records(facturas) != [] || (Succeeded(facturas) && Succeeded(pagos))
  {
    ErroresShape(facturas, pagos);
    Agregar(Records(facturas), Records(pagos), Errores(facturas, pagos), codigoFactura)
  }

  /**
   * `GetReporteCombinado`: fetch invoices, then payments, accumulating the
   * error notes, then apply the business rules.
   */
  method GetReporteCombinado(facturasOutcome: HttpOutcome<FacturaDto>, pagosOutcome: HttpOutcome<PagoDto>, codigoFactura: int)
    returns (r: Respuesta)
    ensures r == ReporteCombinado(facturasOutcome, pagosOutcome, codigoFactura)
    ensures r.ServicioNoDisponible? <==>
      Records(facturasOutcome) == [] && !(Succeeded(facturasOutcome) && Succeeded(pagosOutcome))
    ensures !Succeeded(facturasOutcome) ==> r.ServicioNoDisponible?
    ensures r.Ok? ==> (r.reporte.metadata.exito <==> Succeeded(facturasOutcome) && Succeeded(pagosOutcome))
  {
    var todasLasFacturas, todosLosPagos, errores := FetchPhase(facturasOutcome, pagosOutcome);
    ErroresShape(facturasOutcome, pagosOutcome);
    r := Agregar(todasLasFacturas, todosLosPagos, errores, codigoFactura);
  }

  /** A failed invoices fetch always ends in 503, its note first among the details. */
  lemma InvoicesFailureIsUnavailable(facturas: HttpOutcome<FacturaDto>, pagos: HttpOutcome<PagoDto>, codigo: int)
    requires !Succeeded(facturas)
    ensures StatusCode(ReporteCombinado(facturas, pagos, codigo)) == 503
    ensures ReporteCombinado(facturas, pagos, codigo).detalles == Errores(facturas, pagos)
    ensures ReporteCombinado(facturas, pagos, codigo).detalles[0] == Notes(Invoices, facturas)[0]
  {
    FetchReduction(Invoices, facturas);
  }

  /**
   * The 503 branch is not limited to invoices errors: a failed payments
   * fetch beside an invoices fetch that returned no records also gives 503,
   * whose only detail is the payments note.
   */
  lemma PaymentsFailureWithNoInvoicesIsUnavailable(facturas: HttpOutcome<FacturaDto>, pagos: HttpOutcome<PagoDto>, codigo: int)
    requires Succeeded(facturas) && Records(facturas) == []
    requires !Succeeded(pagos)
    ensures StatusCode(ReporteCombinado(facturas, pagos, codigo)) == 503
    ensures |ReporteCombinado(facturas, pagos, codigo).detalles| == 1
    ensures ReporteCombinado(facturas, pagos, codigo).detalles[0].source == Payments
  {
    FetchReduction(Invoices, facturas);
    FetchReduction(Payments, pagos);
  }

  /** Both fetches succeeded but no invoice carries the id: 404, even for an empty list. */
  lemma NoMatchAfterSuccessIsNotFound(facturas: HttpOutcome<FacturaDto>, pagos: HttpOutcome<PagoDto>, codigo: int)
    requires Succeeded(facturas) && Succeeded(pagos)
    requires NoneMatches(Records(facturas), codigo)
    ensures ReporteCombinado(facturas, pagos, codigo) == NoEncontrada(codigo)
  {
    ErroresShape(facturas, pagos);
  }

  /**
   * Payments down, invoice found: the report is still produced, with
   * nothing paid, the whole amount still owing, and the payments note as
   * the only error.
   */
  lemma PaymentsFailureWithInvoiceFound(facturas: HttpOutcome<FacturaDto>, pagos: HttpOutcome<PagoDto>, codigo: int, i: int)
    requires Succeeded(facturas) && IsFirstMatch(Records(facturas), codigo, i)
    requires !Succeeded(pagos)
    ensures ReporteCombinado(facturas, pagos, codigo).Ok?
    ensures var rep := ReporteCombinado(facturas, pagos, codigo).reporte;
      var monto := Records(facturas)[i].montoTotal;
      && rep.estadoDeCuenta.totalPagado == 0.0
      && rep.estadoDeCuenta.saldoRestante == (if monto < 0.0 then 0.0 else monto)
      && rep.estadoDeCuenta.estado == (if monto <= 0.0 then PagadaTotalmente else SinPagos)
      && rep.detallePagos == []
      && !rep.metadata.exito
      && rep.metadata.errores == Notes(Payments, pagos)
  {
    FetchReduction(Invoices, facturas);
    FetchReduction(Payments, pagos);
    AgregarFound(Records(facturas), Records(pagos), Errores(facturas, pagos), codigo, i);
  }

  // ---------------------------------------------------------------------
  // Worked examples
  // ---------------------------------------------------------------------

  const Dia := Date(0)

  function Lista<T>(records: seq<T>): (o: HttpOutcome<T>)
  {
    Answered(200, Some(records))
  }

  /** 100 owed, 40 paid: partial payment, 60 left. */
  lemma ScenarioPartialPayment()
    ensures var r := ReporteCombinado(
        Lista([FacturaDto(10, 1, Dia, 100.0, false)]),
        Lista([PagoDto(1, 10, Dia, 40.0), PagoDto(2, 11, Dia, 25.0)]), 10);
      && r.Ok?
      && r.reporte.estadoDeCuenta == EstadoDeCuenta(40.0, 60.0, PagoParcial, false)
      && r.reporte.detallePagos == [DetallePago(Dia, 40.0)]
      && r.reporte.metadata == Metadata(true, [])
  {
    var pagos := [PagoDto(1, 10, Dia, 40.0), PagoDto(2, 11, Dia, 25.0)];
    assert PagosAsociados(pagos, 10) == [pagos[0]] by {
      assert pagos[1..][1..] == [];
    }
    assert SumaMontos([pagos[0]]) == 40.0 by {
      assert [pagos[0]][1..] == [];
    }
  }

  /** Fully covered by payments although the upstream flag says unpaid: both are shown. */
  lemma ScenarioFlagDisagrees()
    ensures var r := ReporteCombinado(
        Lista([FacturaDto(11, 2, Dia, 50.0, false)]),
        Lista([PagoDto(1, 11, Dia, 50.0)]), 11);
      && r.Ok?
      && r.reporte.estadoDeCuenta == EstadoDeCuenta(50.0, 0.0, PagadaTotalmente, false)
  {
    var pagos := [PagoDto(1, 11, Dia, 50.0)];
    assert pagos[1..] == [];
    assert PagosAsociados(pagos, 11) == pagos;
    assert SumaMontos(pagos) == 50.0;
  }

  /** Invoices timed out: 503 with the timeout note. */
  lemma ScenarioInvoicesTimeout()
    ensures ReporteCombinado(TimedOut, Lista([PagoDto(1, 7, Dia, 5.0)]), 7) ==
      ServicioNoDisponible([ErrorNote(Invoices, Timeout)])
  {
  }

  /** Three invoices, none with the id: 404. */
  lemma ScenarioNotFound()
    ensures ReporteCombinado(
        Lista([FacturaDto(1, 1, Dia, 1.0, false), FacturaDto(2, 1, Dia, 2.0, true), FacturaDto(3, 1, Dia, 3.0, false)]),
        Lista([]), 99) == NoEncontrada(99)
  {
  }

  /** Payments answered 500: 200 with nothing paid and the payments note. */
  lemma ScenarioPaymentsDown()
    ensures var r := ReporteCombinado(Lista([FacturaDto(5, 3, Dia, 30.0, false)]), Answered(500, None), 5);
      && r.Ok?
      && r.reporte.estadoDeCuenta == EstadoDeCuenta(0.0, 30.0, SinPagos, false)
      && r.reporte.metadata == Metadata(false, [ErrorNote(Payments, BadStatus(500))])
  {
  }

  /** Payments faulted and invoices came back as JSON `null`: 503. */
  lemma ScenarioPaymentsDownNoInvoices()
    ensures ReporteCombinado(Answered(200, None), Failed("connection refused"), 3) ==
      ServicioNoDisponible([ErrorNote(Payments, Critical("connection refused"))])
  {
  }

  /**
   * An empty body that fails to deserialise (a 204, say) throws inside the
   * try block, so it is a fault with a note of its own, not an empty list:
   * beside a faulted payments fetch the 503 carries two details.
   */
  lemma ScenarioEmptyBodyIsFault()
    ensures ReporteCombinado(Failed("empty body"), Failed("connection refused"), 3) ==
      ServicioNoDisponible([ErrorNote(Invoices, Critical("empty body")), ErrorNote(Payments, Critical("connection refused"))])
  {
  }
}
