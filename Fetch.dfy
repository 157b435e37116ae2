/**
 * The fetch phase of the report endpoint: one bounded GET per upstream
 * service, every way it can end reduced to "a list" or "a list left empty
 * plus one error note". The network call itself is not modelled; its
 * outcome is an input.
 */
module Fetch {

  import opened Wrappers
  import opened Dtos

  /** How one GET to an upstream service ends. */
  datatype HttpOutcome<T> =
    /** The service answered with `status`; `payload` is what the body
        deserialises to (None when the JSON body is `null`). */
    | Answered(status: int, payload: Option<seq<T>>)
    /** The five-second budget ran out (`TaskCanceledException`). */
    | TimedOut
    /** Any other exception inside the try block: transport error, failure
        to read the body, or a body that is not a JSON list of records. */
    | Failed(message: string)

  /** The two upstream services. */
  datatype Source = Invoices | Payments

  /** Why a fetch failed. The text of the note is not modelled. */
  datatype FailureKind = BadStatus(code: int) | Timeout | Critical(message: string)

  /** One entry of the `errores` list. */
  datatype ErrorNote = ErrorNote(source: Source, kind: FailureKind)

  /** `HttpResponseMessage.IsSuccessStatusCode`: a status in 200..299. */
  predicate IsSuccessStatusCode(status: int)
  {
    200 <= status <= 299
  }

  /** The fetch took the success branch of its try block. */
  predicate Succeeded<T>(o: HttpOutcome<T>)
  {
    o.Answered? && IsSuccessStatusCode(o.status)
  }

  /** The list a fetch leaves in its variable: the decoded records on
      success (an empty list for a `null` body), otherwise the empty list
      the variable was initialised with. */
  function Records<T>(o: HttpOutcome<T>): (records: seq<T>)
  {
    if Succeeded(o) then
      match o.payload
      case Some(rs) => rs
      case None => []
    else []
  }

  /** The notes a fetch appends to `errores`. */
  function Notes<T>(source: Source, o: HttpOutcome<T>): (notes: seq<ErrorNote>)
  {
    match o
    case Answered(status, _) =>
      if IsSuccessStatusCode(status) then [] else [ErrorNote(source, BadStatus(status))]
    case TimedOut => [ErrorNote(source, Timeout)]
    case Failed(message) => [ErrorNote(source, Critical(message))]
  }

  /** The whole `errores` list after both fetches: invoices first, then payments. */
  function Errores(facturas: HttpOutcome<FacturaDto>, pagos: HttpOutcome<PagoDto>): (errores: seq<ErrorNote>)
  {
    Notes(Invoices, facturas) + Notes(Payments, pagos)
  }

  /**
   * One try/catch block of the fetch phase: given the outcome of the GET,
   * either replace `records` by the decoded list, or leave it as it is and
   * append exactly one note, tagged with the source and the kind of failure.
   */
  method Consume<T>(source: Source, o: HttpOutcome<T>, records: seq<T>, errores: seq<ErrorNote>)
    returns (records': seq<T>, errores': seq<ErrorNote>)
    ensures Succeeded(o) ==> errores' == errores
    ensures Succeeded(o) && o.payload.Some? ==> records' == o.payload.value
    ensures Succeeded(o) && o.payload.None? ==> records' == []
    ensures !Succeeded(o) ==> records' == records
    ensures !Succeeded(o) ==> |errores'| == |errores| + 1 && errores'[..|errores|] == errores
    ensures !Succeeded(o) ==> errores'[|errores|].source == source
    ensures o.Answered? && !Succeeded(o) ==> errores'[|errores|].kind == BadStatus(o.status)
    ensures o.TimedOut? ==> errores'[|errores|].kind == Timeout
    ensures o.Failed? ==> errores'[|errores|].kind == Critical(o.message)
    ensures Succeeded(o) ==> records' == Records(o)
    ensures errores' == errores + Notes(source, o)
  {
    records', errores' := records, errores;
    match o {
      case Answered(status, payload) =>
        if IsSuccessStatusCode(status) {
          match payload {
            case Some(rs) => records' := rs;
            case None => records' := [];
          }
        } else {
          errores' := errores' + [ErrorNote(source, BadStatus(status))];
        }
      case TimedOut =>
        errores' := errores' + [ErrorNote(source, Timeout)];
      case Failed(message) =>
        errores' := errores' + [ErrorNote(source, Critical(message))];
    }
  }

  /**
   * The fetch phase: start from two empty lists and an empty error list,
   * fetch invoices, then payments.
   */
  method FetchPhase(facturasOutcome: HttpOutcome<FacturaDto>, pagosOutcome: HttpOutcome<PagoDto>)
    returns (todasLasFacturas: seq<FacturaDto>, todosLosPagos: seq<PagoDto>, errores: seq<ErrorNote>)
    ensures todasLasFacturas == Records(facturasOutcome)
    ensures todosLosPagos == Records(pagosOutcome)
    ensures errores == Errores(facturasOutcome, pagosOutcome)
  {
    todasLasFacturas := [];
    todosLosPagos := [];
    errores := [];
    todasLasFacturas, errores := Consume(Invoices, facturasOutcome, todasLasFacturas, errores);
    todosLosPagos, errores := Consume(Payments, pagosOutcome, todosLosPagos, errores);
  }

  /** A failed fetch leaves its list empty and contributes exactly one note,
      of its own source; a successful one contributes none. */
  lemma FetchReduction<T>(source: Source, o: HttpOutcome<T>)
    ensures Notes(source, o) == [] <==> Succeeded(o)
    ensures !Succeeded(o) ==> Records(o) == [] && |Notes(source, o)| == 1
    ensures forall n :: n in Notes(source, o) ==> n.source == source
  {
  }

  /**
   * The accumulated error list holds at most two notes, at most one per
   * source, the invoices note before the payments note; it is empty exactly
   * when both fetches succeeded.
   */
  lemma ErroresShape(facturas: HttpOutcome<FacturaDto>, pagos: HttpOutcome<PagoDto>)
    ensures |Errores(facturas, pagos)| <= 2
    ensures forall i, j :: 0 <= i < j < |Errores(facturas, pagos)| ==>
      Errores(facturas, pagos)[i].source == Invoices && Errores(facturas, pagos)[j].source == Payments
    ensures Errores(facturas, pagos) == [] <==> Succeeded(facturas) && Succeeded(pagos)
    ensures (exists i :: 0 <= i < |Errores(facturas, pagos)| && Errores(facturas, pagos)[i].source == Invoices)
      <==> !Succeeded(facturas)
    ensures (exists i :: 0 <= i < |Errores(facturas, pagos)| && Errores(facturas, pagos)[i].source == Payments)
      <==> !Succeeded(pagos)
  {
    FetchReduction(Invoices, facturas);
    FetchReduction(Payments, pagos);
    var fromInvoices, fromPayments := Notes(Invoices, facturas), Notes(Payments, pagos);
    var e := Errores(facturas, pagos);
    assert forall k :: 0 <= k < |e| ==> e[k] in fromInvoices || e[k] in fromPayments;
    if !Succeeded(facturas) {
      assert e[0] == fromInvoices[0];
    }
    if !Succeeded(pagos) {
      assert e[|fromInvoices|] == fromPayments[0];
    }
  }
}
