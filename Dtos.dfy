/**
 * The two records the controller reads from the upstream services:
 * invoices (FacturaDto) and payments (PagoDto).
 *
 * C# `decimal` is an exact decimal type, so amounts are modelled as `real`.
 * Dates are never compared or computed with, only passed through to the
 * response, so a date is kept opaque as a tick count.
 */
module Dtos {

  /** A `DateTime`, kept opaque. */
  datatype Date = Date(ticks: int)

  /** An exact amount of money (C# `decimal`). */
  type Money = real

  /** An invoice as delivered by the Invoices service. */
  datatype FacturaDto = FacturaDto(
    codigo: int,        // the invoice's identity
    clienteCi: int,     // the customer
    fecha: Date,        // issue date
    montoTotal: Money,  // amount owed
    pagada: bool        // the upstream's own "paid" flag, possibly stale
  )

  /** A payment as delivered by the Payments service. */
  datatype PagoDto = PagoDto(
    codigo: int,         // the payment's identity
    facturaCodigo: int,  // foreign key to FacturaDto.codigo, not enforced
    fechaPago: Date,
    montoPagado: Money
  )
}
