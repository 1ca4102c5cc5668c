/** Service payments (pagos-service/app/routers/pagos.py): a withdrawal request to the
    accounts service, a simulated provider call, and one stored payment document per request.
    The accounts service's reply, the provider's random outcome, the clock and the uuid are
    inputs. */
module Pagos {
  import opened Common

  /** Without an accounts service, payments up to this amount are debited. */
  const SimulationLimit := 1000

  datatype EstadoPago = Exitoso | Fallido

  /** `PagoIn`. */
  datatype PagoIn = PagoIn(cuentaId: string, tipoServicio: string, referencia: string, monto: int)

  /** `PagoOut`, which is also the stored document. */
  datatype Pago = Pago(
    id: string,
    cuentaId: string,
    tipoServicio: string,
    referencia: string,
    monto: int,
    fecha: int,
    estado: EstadoPago,
    proveedor: Option<string>,
    mensajeRespuesta: Option<string>)

  /** The `message` field of a reply body: absent, present as JSON null, or a string. */
  datatype ReplyMessage = NoMessage | NullMessage | Message(text: string)

  /** What the accounts service did with the withdrawal request: an HTTP reply (with the
      truthiness of its `success` and `charged` fields and its `message`) or a transport
      failure. */
  datatype AccountsReply =
    | Http(status: nat, success: bool, charged: bool, message: ReplyMessage)
    | ConnectionError(detail: string)

  /** The `(ok, message)` pair the helpers return; the message is None where Python's is. */
  datatype Debit = Debit(ok: bool, msg: Option<string>)

  /** How an f-string renders an optional message: None becomes the text "None". */
  function Shown(m: Option<string>): (t: string)
    ensures m.Some? ==> t == m.value
    ensures m.None? ==> t == "None"
  {
    if m.Some? then m.value else "None"
  }

  /** `data.get("message", "Saldo insuficiente")`. */
  function GetMessage(m: ReplyMessage): (r: Option<string>)
    ensures m.NoMessage? ==> r == Some("Saldo insuficiente")
    ensures m.NullMessage? <==> r.None?
    ensures m.Message? ==> r == Some(m.text)
  {
    match m
    case NoMessage => Some("Saldo insuficiente")
    case NullMessage => None
    case Message(t) => Some(t)
  }

  /** Decimal rendering of a status code: the digits of `n`, with no leading zero. */
  function NatString(n: nat): (s: string)
    ensures |s| >= 1 && IsDigits(s)
    ensures DigitsValue(s) == n
    ensures n >= 10 ==> s[0] != '0'
  {
    var d := [('0' as int + n % 10) as char];
    if n < 10 then d else NatString(n / 10) + d
  }

  /** The simulation rule used when no service is configured and after a connection error. */
  function Simulated(monto: int, failure: string): (d: Debit)
    ensures d.ok <==> monto <= SimulationLimit
  {
    if monto <= SimulationLimit then Debit(true, Some("Simulación: cuenta debitada")) else Debit(false, Some(failure))
  }

  /** `_call_accounts_service`, with `urlConfigured` standing for a truthy `CUENTAS_SERVICE_URL`. */
  function CallAccountsService(urlConfigured: bool, monto: int, reply: AccountsReply): (d: Debit)
    ensures !urlConfigured ==> (d.ok <==> monto <= SimulationLimit)
    ensures !urlConfigured && !d.ok ==> d.msg == Some("Simulación: saldo insuficiente")
    ensures urlConfigured && reply.Http? && reply.status == 200 ==> (d.ok <==> reply.success || reply.charged)
    ensures urlConfigured && reply.Http? && reply.status == 200 && !d.ok ==>
              d.msg == GetMessage(reply.message)
    ensures urlConfigured && reply.Http? && reply.status == 402 ==> !d.ok && d.msg == Some("Saldo insuficiente")
    ensures urlConfigured && reply.Http? && reply.status != 200 ==> !d.ok
    ensures urlConfigured && reply.Http? && reply.status != 200 && reply.status != 402 ==>
              d.msg == Some("Cuentas-service respuesta: " + NatString(reply.status))
    ensures urlConfigured && reply.ConnectionError? && !d.ok ==>
              d.msg == Some("Simulación: error conexión (" + reply.detail + ")")
    ensures urlConfigured && reply.ConnectionError? ==> (d.ok <==> monto <= SimulationLimit)
    ensures d.ok ==> d.msg == Some("Cuenta debitada") || d.msg == Some("Simulación: cuenta debitada")
    ensures d.msg.None? ==> urlConfigured && reply.Http? && reply.status == 200 && reply.message.NullMessage?
  {
    if !urlConfigured then
      Simulated(monto, "Simulación: saldo insuficiente")
    else
      match reply
      case Http(status, success, charged, message) =>
        if status == 200 then
          if success || charged then Debit(true, Some("Cuenta debitada"))
          else Debit(false, GetMessage(message))
        else if status == 402 then Debit(false, Some("Saldo insuficiente"))
        else Debit(false, Some("Cuentas-service respuesta: " + NatString(status)))
      case ConnectionError(detail) =>
        Simulated(monto, "Simulación: error conexión (" + detail + ")")
  }

  /** `_simulate_provider_call`; `accepted` is the random draw's verdict. */
  function ProviderCall(accepted: bool): (d: Debit)
    ensures d.ok == accepted
    ensures d.msg == Some(if accepted then "Proveedor: pago aceptado" else "Proveedor: pago rechazado")
  {
    if accepted then Debit(true, Some("Proveedor: pago aceptado")) else Debit(false, Some("Proveedor: pago rechazado"))
  }

  /** How a call of the helper ends: it returns a debit verdict or raises NameError. */
  datatype Outcome = Returned(debit: Debit) | RaisesNameError

  /** `_call_accounts_service` as written: `CUENTAS_SERVICE_URL` is read at its first line
      but bound nowhere in the module, so Python raises NameError whatever the inputs. */
  function CallAccountsServiceAsWritten(cuentaId: string, monto: int, reply: AccountsReply): (o: Outcome)
    ensures o.RaisesNameError?
  {
    RaisesNameError
  }

  /** The discrepancy: the documented fallback ("no URL means simulation") debits every
      payment up to the limit, while the code as written never returns that verdict, or
      any other. */
  lemma NameErrorHidesSimulation(cuentaId: string, monto: int, reply: AccountsReply)
    requires monto <= SimulationLimit
    ensures CallAccountsService(false, monto, reply) == Debit(true, Some("Simulación: cuenta debitada"))
    ensures CallAccountsServiceAsWritten(cuentaId, monto, reply) != Returned(CallAccountsService(false, monto, reply))
  {
  }

  /** The outcome of `create_pago`: 201 with the document, 402 with the accounts message, or
      500 when the handler raises. */
  datatype PagoResult = Created(pago: Pago) | PaymentRequired(mensaje: Option<string>) | ServerError

  /** The document `create_pago` stores for a request. */
  function PagoDoc(p: PagoIn, id: string, now: int, debit: Debit, provider: Debit): (d: Pago)
    ensures d.id == id && d.cuentaId == p.cuentaId && d.tipoServicio == p.tipoServicio
    ensures d.referencia == p.referencia && d.monto == p.monto && d.fecha == now
    ensures !debit.ok ==> d.estado == Fallido && d.proveedor.None?
                          && d.mensajeRespuesta == Some("Cuentas: " + Shown(debit.msg))
    ensures debit.ok ==> (d.estado == Exitoso <==> provider.ok) && d.proveedor == Some("SIMULADO")
                         && d.mensajeRespuesta == provider.msg
  {
    var base := Pago(id, p.cuentaId, p.tipoServicio, p.referencia, p.monto, now, Fallido, None, None);
    if !debit.ok then base.(mensajeRespuesta := Some("Cuentas: " + Shown(debit.msg)))
    else base.(estado := if provider.ok then Exitoso else Fallido,
               proveedor := Some("SIMULADO"), mensajeRespuesta := provider.msg)
  }

  /** A refusal whose `message` is JSON null: the handler answers 402 with a null `mensaje`
      and stores the text "Cuentas: None". */
  lemma NullMessageStored(p: PagoIn, id: string, now: int, success: bool, charged: bool, provider: Debit)
    requires !success && !charged
    ensures var debit := CallAccountsService(true, p.monto, Http(200, success, charged, NullMessage));
            && debit == Debit(false, None)
            && PagoDoc(p, id, now, debit, provider).mensajeRespuesta == Some("Cuentas: None")
  {
    assert "Cuentas: " + Shown(None) == "Cuentas: None";
  }

  predicate MatchesPago(cuentaId: Option<string>, tipoServicio: Option<string>, p: Pago) {
    Passes(cuentaId, p.cuentaId) && Passes(tipoServicio, p.tipoServicio)
  }

  /** The "pagos" collection. */
  class PagosStore {
    var pagos: map<string, Pago>

    /** Every document records its own key as `id`. */
    ghost predicate Valid()
      reads this
    {
      forall k :: k in pagos ==> pagos[k].id == k
    }

    constructor ()
      ensures Valid() && pagos == map[]
    {
      pagos := map[];
    }

    /** `create_pago` as written: the NameError escapes before anything is stored. */
    method CreatePagoAsWritten(p: PagoIn, reply: AccountsReply) returns (r: PagoResult)
      ensures r.ServerError?
    {
      var o := CallAccountsServiceAsWritten(p.cuentaId, p.monto, reply);
      // the NameError escapes the handler: 500, before anything is stored
      r := ServerError;
    }

    /** `create_pago` with the service URL bound: exactly one document is written under the
        fresh id, FALLIDO without provider when the debit fails (then 402), otherwise
        EXITOSO iff the provider accepts. */
    method CreatePago(p: PagoIn, urlConfigured: bool, reply: AccountsReply, providerAccepts: bool,
                      now: int, newId: string) returns (r: PagoResult)
      requires Valid() && newId !in pagos
      modifies this
      ensures Valid()
      ensures pagos == old(pagos)[newId := PagoDoc(p, newId, now, CallAccountsService(urlConfigured, p.monto, reply),
                                                   ProviderCall(providerAccepts))]
      ensures var debit := CallAccountsService(urlConfigured, p.monto, reply);
              (!debit.ok ==> r == PaymentRequired(debit.msg)) && (debit.ok ==> r == Created(pagos[newId]))
    {
      var debit := CallAccountsService(urlConfigured, p.monto, reply);
      var provider := ProviderCall(providerAccepts);
      var doc := PagoDoc(p, newId, now, debit, provider);
      pagos := pagos[newId := doc];
      if !debit.ok {
        return PaymentRequired(debit.msg);
      }
      r := Created(doc);
    }

    /** `get_pago`: None stands for the 404. */
    function GetPago(pagoId: string): (r: Option<Pago>)
      reads this
      ensures r.None? <==> pagoId !in pagos
      ensures r.Some? ==> r.value == pagos[pagoId]
    {
      if pagoId in pagos then Some(pagos[pagoId]) else None
    }

    /** `list_pagos`: exactly the documents that match every given filter, each once. */
    method ListPagos(cuentaId: Option<string>, tipoServicio: Option<string>) returns (r: seq<Pago>)
      requires Valid()
      ensures forall k :: k in pagos && MatchesPago(cuentaId, tipoServicio, pagos[k]) ==> pagos[k] in r
      ensures forall x :: x in r ==> x.id in pagos && pagos[x.id] == x && MatchesPago(cuentaId, tipoServicio, x)
      ensures forall i, j :: 0 <= i < j < |r| ==> r[i].id != r[j].id
    {
      var keys := pagos.Keys;
      r := [];
      while keys != {}
        invariant keys <= pagos.Keys
        invariant forall k :: k in pagos && k !in keys && MatchesPago(cuentaId, tipoServicio, pagos[k]) ==> pagos[k] in r
        invariant forall x :: x in r ==> x.id in pagos && x.id !in keys && pagos[x.id] == x
                                         && MatchesPago(cuentaId, tipoServicio, x)
        invariant forall i, j :: 0 <= i < j < |r| ==> r[i].id != r[j].id
        decreases keys
      {
        var k :| k in keys;
        if MatchesPago(cuentaId, tipoServicio, pagos[k]) {
          r := r + [pagos[k]];
        }
        keys := keys - {k};
      }
    }
  }
}
