/**
 * The aggregation half of the report endpoint: given the two fetched lists,
 * the accumulated error notes and the requested invoice id, locate the
 * invoice, join its payments, compute the financial status and the
 * displayed balance, and assemble the response (200, 503 or 404).
 * Everything here is a pure function of its arguments.
 */
module Report {

  import opened Wrappers
  import opened Dtos
  import opened Fetch

  // ---------------------------------------------------------------------
  // Lookup: `FirstOrDefault(f => f.Codigo == codigoFactura)`
  // ---------------------------------------------------------------------

  /** No invoice in the list carries the id. */
  predicate NoneMatches(facturas: seq<FacturaDto>, codigo: int)
  {
    forall i :: 0 <= i < |facturas| ==> facturas[i].codigo != codigo
  }

  /** `i` is the position of the first invoice carrying the id. */
  predicate IsFirstMatch(facturas: seq<FacturaDto>, codigo: int, i: int)
  {
    0 <= i < |facturas| && facturas[i].codigo == codigo &&
    forall j :: 0 <= j < i ==> facturas[j].codigo != codigo
  }

  /** The first invoice carrying the id, or None. */
  function FindFactura(facturas: seq<FacturaDto>, codigo: int): (r: Option<FacturaDto>)
    ensures r.None? <==> NoneMatches(facturas, codigo)
    ensures r.Some? ==> exists i :: IsFirstMatch(facturas, codigo, i) && facturas[i] == r.value
  {
    if facturas == [] then None
    else if facturas[0].codigo == codigo then
      assert IsFirstMatch(facturas, codigo, 0);
      Some(facturas[0])
    else
      var r := FindFactura(facturas[1..], codigo);
      assert r.Some? ==> exists i :: IsFirstMatch(facturas, codigo, i) && facturas[i] == r.value by {
        if r.Some? {
          var k :| IsFirstMatch(facturas[1..], codigo, k) && facturas[1..][k] == r.value;
          assert IsFirstMatch(facturas, codigo, k + 1);
        }
      }
      r
  }

  /** When several invoices share the id, the lookup yields the first of them. */
  lemma FindFacturaFirstWins(facturas: seq<FacturaDto>, codigo: int, i: int)
    requires IsFirstMatch(facturas, codigo, i)
    ensures FindFactura(facturas, codigo) == Some(facturas[i])
  {
    var r := FindFactura(facturas, codigo);
    assert r.Some?;
    var k :| IsFirstMatch(facturas, codigo, k) && facturas[k] == r.value;
    assert !(k < i) && !(i < k);
  }

  // ---------------------------------------------------------------------
  // Join: `Where(p => p.FacturaCodigo == codigoFactura)`
  // ---------------------------------------------------------------------

  /** The payments whose foreign key is the requested id, in list order. */
  function PagosAsociados(pagos: seq<PagoDto>, codigo: int): (r: seq<PagoDto>)
    ensures |r| <= |pagos|
    ensures forall k :: 0 <= k < |r| ==> r[k].facturaCodigo == codigo
  {
    if pagos == [] then []
    else (if pagos[0].facturaCodigo == codigo then [pagos[0]] else []) + PagosAsociados(pagos[1..], codigo)
  }

  /** Each payment carrying the id is kept as often as it occurs, and no
      other payment is kept. */
  lemma {:induction false} PagosAsociadosExact(pagos: seq<PagoDto>, codigo: int)
    ensures forall p ::
      multiset(PagosAsociados(pagos, codigo))[p] == (if p.facturaCodigo == codigo then multiset(pagos)[p] else 0)
  {
    if pagos != [] {
      PagosAsociadosExact(pagos[1..], codigo);
      assert pagos == [pagos[0]] + pagos[1..];
    }
  }

  /** The join distributes over concatenation: it keeps the original order
      and looks at each payment on its own. */
  lemma {:induction false} PagosAsociadosConcat(a: seq<PagoDto>, b: seq<PagoDto>, codigo: int)
    ensures PagosAsociados(a + b, codigo) == PagosAsociados(a, codigo) + PagosAsociados(b, codigo)
  {
    if a == [] {
      assert a + b == b;
    } else {
      assert (a + b)[0] == a[0];
      assert (a + b)[1..] == a[1..] + b;
      PagosAsociadosConcat(a[1..], b, codigo);
    }
  }

  /** Nothing but the foreign key filters: a list of payments that all
      belong to the invoice is kept whole, one where none does is dropped. */
  lemma {:induction false} PagosAsociadosOnlyKeyFilters(pagos: seq<PagoDto>, codigo: int)
    ensures (forall k :: 0 <= k < |pagos| ==> pagos[k].facturaCodigo == codigo) ==>
      PagosAsociados(pagos, codigo) == pagos
    ensures (forall k :: 0 <= k < |pagos| ==> pagos[k].facturaCodigo != codigo) ==>
      PagosAsociados(pagos, codigo) == []
  {
    if pagos != [] {
      PagosAsociadosOnlyKeyFilters(pagos[1..], codigo);
      assert pagos == [pagos[0]] + pagos[1..];
    }
  }

  // ---------------------------------------------------------------------
  // Sum: `Sum(p => p.MontoPagado)`
  // ---------------------------------------------------------------------

  /** The exact sum of the payments' amounts (0 for no payments). */
  function SumaMontos(pagos: seq<PagoDto>): (total: Money)
    ensures pagos == [] ==> total == 0.0
    ensures (forall k :: 0 <= k < |pagos| ==> pagos[k].montoPagado >= 0.0) ==> total >= 0.0
    ensures (forall k :: 0 <= k < |pagos| ==> pagos[k].montoPagado == 0.0) ==> total == 0.0
  {
    if pagos == [] then 0.0 else pagos[0].montoPagado + SumaMontos(pagos[1..])
  }

  lemma {:induction false} SumaMontosConcat(a: seq<PagoDto>, b: seq<PagoDto>)
    ensures SumaMontos(a + b) == SumaMontos(a) + SumaMontos(b)
  {
    if a == [] {
      assert a + b == b;
    } else {
      assert (a + b)[0] == a[0];
      assert (a + b)[1..] == a[1..] + b;
      SumaMontosConcat(a[1..], b);
    }
  }

  /**
   * The total paid against an invoice grows by exactly the amount of each
   * payment that carries its id, and a payment for another invoice changes
   * nothing. With the empty case (0), this determines the total.
   */
  lemma TotalPagadoStep(a: seq<PagoDto>, p: PagoDto, b: seq<PagoDto>, codigo: int)
    ensures SumaMontos(PagosAsociados(a + [p] + b, codigo)) ==
      SumaMontos(PagosAsociados(a + b, codigo)) + (if p.facturaCodigo == codigo then p.montoPagado else 0.0)
  {
    PagosAsociadosConcat(a + [p], b, codigo);
    PagosAsociadosConcat(a, [p], codigo);
    PagosAsociadosConcat(a, b, codigo);
    var pa, pp, pb := PagosAsociados(a, codigo), PagosAsociados([p], codigo), PagosAsociados(b, codigo);
    SumaMontosConcat(pa + pp, pb);
    SumaMontosConcat(pa, pp);
    SumaMontosConcat(pa, pb);
    assert [p][1..] == [];
  }

  /** No matching payments: the total paid is 0. */
  lemma TotalPagadoNoMatches(pagos: seq<PagoDto>, codigo: int)
    requires forall k :: 0 <= k < |pagos| ==> pagos[k].facturaCodigo != codigo
    ensures SumaMontos(PagosAsociados(pagos, codigo)) == 0.0
  {
    PagosAsociadosOnlyKeyFilters(pagos, codigo);
  }

  // ---------------------------------------------------------------------
  // Status and balance
  // ---------------------------------------------------------------------

  /** The three computed financial states. */
  datatype EstadoFinanciero = PagadaTotalmente | PagoParcial | SinPagos

  /** The text the response carries for each state. */
  function Etiqueta(e: EstadoFinanciero): (text: string)
    ensures text == "Pagada Totalmente" <==> e == PagadaTotalmente
    ensures text == "Pago Parcial" <==> e == PagoParcial
    ensures text == "Sin Pagos" <==> e == SinPagos
  {
    match e
    case PagadaTotalmente => "Pagada Totalmente"
    case PagoParcial => "Pago Parcial"
    case SinPagos => "Sin Pagos"
  }

  /** The status if-chain, decided from the amount owed and the live sum of payments. */
  function Estado(montoTotal: Money, totalPagado: Money): (e: EstadoFinanciero)
    ensures e == PagadaTotalmente <==> montoTotal - totalPagado <= 0.0
    ensures e == PagoParcial <==> montoTotal - totalPagado > 0.0 && totalPagado > 0.0
    ensures e == SinPagos <==> montoTotal - totalPagado > 0.0 && totalPagado <= 0.0
  {
    var saldoPendiente := montoTotal - totalPagado;
    if saldoPendiente <= 0.0 then PagadaTotalmente
    else if totalPagado > 0.0 then PagoParcial
    else SinPagos
  }

  /** The displayed balance: the raw balance clamped at zero, i.e. the
      least non-negative number not below the raw balance. */
  function SaldoRestante(montoTotal: Money, totalPagado: Money): (s: Money)
    ensures s >= 0.0 && s >= montoTotal - totalPagado
    ensures s == 0.0 || s == montoTotal - totalPagado
  {
    var saldoPendiente := montoTotal - totalPagado;
    if saldoPendiente < 0.0 then 0.0 else saldoPendiente
  }

  /** The displayed balance is 0 exactly when the status is fully paid, and
      equals the raw balance otherwise. */
  lemma SaldoMatchesEstado(montoTotal: Money, totalPagado: Money)
    ensures SaldoRestante(montoTotal, totalPagado) == 0.0 <==> Estado(montoTotal, totalPagado) == PagadaTotalmente
    ensures Estado(montoTotal, totalPagado) != PagadaTotalmente ==>
      SaldoRestante(montoTotal, totalPagado) == montoTotal - totalPagado
  {
  }

  /** Ordering of the states from unpaid to fully paid. */
  function Rank(e: EstadoFinanciero): (rank: nat)
  {
    match e
    case SinPagos => 0
    case PagoParcial => 1
    case PagadaTotalmente => 2
  }

  /** Paying more never moves the status backwards nor raises the balance shown. */
  lemma EstadoMonotone(montoTotal: Money, t1: Money, t2: Money)
    requires t1 <= t2
    ensures Rank(Estado(montoTotal, t1)) <= Rank(Estado(montoTotal, t2))
    ensures SaldoRestante(montoTotal, t2) <= SaldoRestante(montoTotal, t1)
  {
  }

  // ---------------------------------------------------------------------
  // Response
  // ---------------------------------------------------------------------

  /** `Factura` block of the report. */
  datatype ResumenFactura = ResumenFactura(id: int, cliente: int, fecha: Date, montoOriginal: Money)

  /** `EstadoDeCuenta` block of the report. */
  datatype EstadoDeCuenta = EstadoDeCuenta(
    totalPagado: Money,
    saldoRestante: Money,
    estado: EstadoFinanciero,
    banderaPagadaEnOrigen: bool
  )

  /** One entry of `DetallePagos`: date and amount of a matched payment. */
  datatype DetallePago = DetallePago(fecha: Date, monto: Money)

  /** `Metadata` block of the report. */
  datatype Metadata = Metadata(exito: bool, errores: seq<ErrorNote>)

  /** The body of the 200 response. */
  datatype Reporte = Reporte(
    factura: ResumenFactura,
    estadoDeCuenta: EstadoDeCuenta,
    detallePagos: seq<DetallePago>,
    metadata: Metadata
  )

  /** The three results of the endpoint. */
  datatype Respuesta =
    /** 200 with the combined report. */
    | Ok(reporte: Reporte)
    /** 503 "external services unavailable", with every error note as details. */
    | ServicioNoDisponible(detalles: seq<ErrorNote>)
    /** 404 whose only content is a message naming the requested id. */
    | NoEncontrada(codigoEnMensaje: int)

  function StatusCode(r: Respuesta): (code: int)
  {
    match r
    case Ok(_) => 200
    case ServicioNoDisponible(_) => 503
    case NoEncontrada(_) => 404
  }

  /** `Select(p => new { Fecha, Monto })` over the matched payments. */
  function Detalle(pagos: seq<PagoDto>): (d: seq<DetallePago>)
    ensures |d| == |pagos|
    ensures forall k :: 0 <= k < |pagos| ==> d[k] == DetallePago(pagos[k].fechaPago, pagos[k].montoPagado)
  {
    if pagos == [] then [] else [DetallePago(pagos[0].fechaPago, pagos[0].montoPagado)] + Detalle(pagos[1..])
  }

  /** The sum of the `Monto` column of the response's payment details. */
  function SumaDetalle(d: seq<DetallePago>): (total: Money)
  {
    if d == [] then 0.0 else d[0].monto + SumaDetalle(d[1..])
  }

  /** The amounts listed in the report add up to the total it reports as paid. */
  lemma {:induction false} DetalleAddsUp(pagos: seq<PagoDto>)
    ensures SumaDetalle(Detalle(pagos)) == SumaMontos(pagos)
  {
    if pagos != [] {
      DetalleAddsUp(pagos[1..]);
      assert Detalle(pagos)[1..] == Detalle(pagos[1..]);
    }
  }

  /** Assemble the 200 body from the found invoice, its payments and the notes. */
  function ConstruirReporte(factura: FacturaDto, asociados: seq<PagoDto>, errores: seq<ErrorNote>): (rep: Reporte)
    ensures rep.factura == ResumenFactura(factura.codigo, factura.clienteCi, factura.fecha, factura.montoTotal)
    ensures rep.estadoDeCuenta.totalPagado == SumaMontos(asociados)
    ensures rep.estadoDeCuenta.saldoRestante >= 0.0
    ensures rep.estadoDeCuenta.saldoRestante == 0.0 <==> rep.estadoDeCuenta.estado == PagadaTotalmente
    ensures rep.estadoDeCuenta.estado == PagadaTotalmente <==> factura.montoTotal <= rep.estadoDeCuenta.totalPagado
    ensures rep.estadoDeCuenta.estado == Estado(factura.montoTotal, SumaMontos(asociados))
    ensures rep.estadoDeCuenta.saldoRestante == SaldoRestante(factura.montoTotal, SumaMontos(asociados))
    ensures rep.detallePagos == Detalle(asociados)
    ensures rep.estadoDeCuenta.banderaPagadaEnOrigen == factura.pagada
    ensures SumaDetalle(rep.detallePagos) == rep.estadoDeCuenta.totalPagado
    ensures rep.metadata.exito <==> errores == []
    ensures rep.metadata.errores == errores
  {
    var totalPagadoReal := SumaMontos(asociados);
    SaldoMatchesEstado(factura.montoTotal, totalPagadoReal);
    DetalleAddsUp(asociados);
    Reporte(
      ResumenFactura(factura.codigo, factura.clienteCi, factura.fecha, factura.montoTotal),
      EstadoDeCuenta(
        totalPagadoReal,
        SaldoRestante(factura.montoTotal, totalPagadoReal),
        Estado(factura.montoTotal, totalPagadoReal),
        factura.pagada),
      Detalle(asociados),
      Metadata(|errores| == 0, errores))
  }

  /** The upstream's paid flag is passed through and influences nothing else. */
  lemma BanderaOnlyPassedThrough(factura: FacturaDto, flag: bool, asociados: seq<PagoDto>, errores: seq<ErrorNote>)
    ensures ConstruirReporte(factura.(pagada := flag), asociados, errores) ==
      var rep := ConstruirReporte(factura, asociados, errores);
      rep.(estadoDeCuenta := rep.estadoDeCuenta.(banderaPagadaEnOrigen := flag))
  {
  }

  /**
   * The business rules: look the invoice up; if it is missing, answer 503
   * when some error was recorded and no invoice at all was fetched, else
   * 404; if it is found, answer 200 with the report.
   */
  function Agregar(facturas: seq<FacturaDto>, pagos: seq<PagoDto>, errores: seq<ErrorNote>, codigo: int): (r: Respuesta)
    ensures r.ServicioNoDisponible? <==> facturas == [] && errores != []
    ensures r.ServicioNoDisponible? ==> r.detalles == errores
    ensures r.NoEncontrada? <==> NoneMatches(facturas, codigo) && (facturas != [] || errores == [])
    ensures r.NoEncontrada? ==> r.codigoEnMensaje == codigo
    ensures r.Ok? <==> exists i :: IsFirstMatch(facturas, codigo, i)
  {
    match FindFactura(facturas, codigo)
    case None =>
      if |errores| > 0 && |facturas| == 0 then ServicioNoDisponible(errores)
      else NoEncontrada(codigo)
    case Some(factura) =>
      Ok(ConstruirReporte(factura, PagosAsociados(pagos, codigo), errores))
  }

  /**
   * A found invoice always yields 200, whatever errors were recorded; the
   * report is built from the first invoice with the id and the payments
   * carrying that id.
   */
  lemma AgregarFound(facturas: seq<FacturaDto>, pagos: seq<PagoDto>, errores: seq<ErrorNote>, codigo: int, i: int)
    requires IsFirstMatch(facturas, codigo, i)
    ensures StatusCode(Agregar(facturas, pagos, errores, codigo)) == 200
    ensures Agregar(facturas, pagos, errores, codigo) ==
      Ok(ConstruirReporte(facturas[i], PagosAsociados(pagos, codigo), errores))
  {
    FindFacturaFirstWins(facturas, codigo, i);
  }
}
