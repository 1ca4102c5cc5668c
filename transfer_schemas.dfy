/** Request and record shapes of the transfers service
    (transferencias-service/app/schemas.py). Amounts are whole numbers of the currency unit. */
module TransferSchemas {
  import opened Common

  /** `tipo`: exactly the three literals the schema admits. */
  datatype Tipo = Propia | Terceros | Interbancaria

  function TipoName(t: Tipo): (s: string)
    ensures ParseTipo(s) == Some(t)
  {
    match t
    case Propia => "PROPIA"
    case Terceros => "TERCEROS"
    case Interbancaria => "INTERBANCARIA"
  }

  /** Reads a `tipo` literal; the inverse of TipoName. */
  function ParseTipo(s: string): (r: Option<Tipo>)
    ensures r.Some? <==> s in {"PROPIA", "TERCEROS", "INTERBANCARIA"}
    ensures r == Some(Propia) <==> s == "PROPIA"
    ensures r == Some(Terceros) <==> s == "TERCEROS"
    ensures r == Some(Interbancaria) <==> s == "INTERBANCARIA"
  {
    if s == "PROPIA" then Some(Propia)
    else if s == "TERCEROS" then Some(Terceros)
    else if s == "INTERBANCARIA" then Some(Interbancaria)
    else None
  }

  /** Outcome stored with every ledger record. */
  datatype Estado = Exitosa | Rechazada

  /** `monto: float = Field(..., gt=0)`. */
  type Monto = m: int | m > 0 witness 1

  /** The destination part of a validated request: the intra-bank shape
      (TransferenciaPropiaTerceros) names an account of this bank, the interbank
      shape (TransferenciaInterbancaria) an external bank and account number. */
  datatype Destino =
    | Cuenta(cuentaDestinoId: string)
    | Externa(bancoDestino: string, nroCuentaExterna: string)

  /** A validated transfer request, as the router hands it to the service. */
  datatype Solicitud = Solicitud(
    tipo: Tipo,
    cuentaOrigenId: string,
    monto: Monto,
    descripcion: Option<string>,
    destino: Destino)

  /** A stored transfer (`Transferencia`): the request fields, with the destination
      fields optional, plus the store id, `fecha` and `estado`. */
  datatype Transferencia = Transferencia(
    id: string,
    tipo: Tipo,
    cuentaOrigenId: string,
    monto: Monto,
    descripcion: Option<string>,
    cuentaDestinoId: Option<string>,
    bancoDestino: Option<string>,
    nroCuentaExterna: Option<string>,
    fecha: int,
    estado: Estado)

  /** `Transferencia(id=id, **data, fecha=..., estado=...)`: the fields a request does
      not carry are None. */
  function Record(id: string, s: Solicitud, fecha: int, estado: Estado): (t: Transferencia)
    ensures t.id == id && t.tipo == s.tipo && t.cuentaOrigenId == s.cuentaOrigenId
    ensures t.monto == s.monto && t.descripcion == s.descripcion
    ensures t.fecha == fecha && t.estado == estado
    ensures s.destino.Cuenta? <==> t.cuentaDestinoId.Some?
    ensures s.destino.Cuenta? ==> t.cuentaDestinoId == Some(s.destino.cuentaDestinoId)
                                  && t.bancoDestino.None? && t.nroCuentaExterna.None?
    ensures s.destino.Externa? ==> t.bancoDestino == Some(s.destino.bancoDestino)
                                   && t.nroCuentaExterna == Some(s.destino.nroCuentaExterna)
  {
    match s.destino
    case Cuenta(d) =>
      Transferencia(id, s.tipo, s.cuentaOrigenId, s.monto, s.descripcion,
                    Some(d), None, None, fecha, estado)
    case Externa(b, n) =>
      Transferencia(id, s.tipo, s.cuentaOrigenId, s.monto, s.descripcion,
                    None, Some(b), Some(n), fecha, estado)
  }
}
