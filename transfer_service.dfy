/** The transfer orchestration (transferencias-service/app/services/transferencias_service.py):
    ownership check, balance check, withdraw/deposit, then exactly one ledger write.
    No step is undone when a later one fails. */
module TransferService {
  import opened Common
  import opened TransferSchemas
  import opened TransferLedger
  import opened AccountsGateway

  /** How the ownership GET fares, and whether each of the other three kinds of request
      gets through to the accounts service. */
  datatype Network = Network(get: Reach, validarUp: bool, retirarUp: bool, depositarUp: bool)

  /** 403 (caller does not own the source account), 400 (insufficient balance), or 500
      (a transport error or error status on the ownership or balance request, which
      nothing catches). */
  datatype Failure = Forbidden | InsufficientBalance | ServerError

  datatype Created = Created(record: Transferencia) | Failed(failure: Failure)

  /** The caller is the owning client of a known account. */
  predicate Owns(cuentas: Cuentas, userId: string, cuentaId: string) {
    cuentaId in cuentas && cuentas[cuentaId].clienteId == userId
  }

  /** `_user_owns_cuenta` returns True: status 200 and the caller is the owning client. */
  predicate OwnerConfirmed(cuentas: Cuentas, userId: string, cuentaId: string, get: Reach) {
    get.Through? && Owns(cuentas, userId, cuentaId)
  }

  /** `_update_cuenta(cuenta_id, monto)`: the one request it sends, dispatched on the sign
      of the amount; zero sends nothing. */
  function UpdateCall(cuentaId: string, delta: int): (c: Option<Call>)
    ensures c.Some? <==> delta != 0
    ensures c.Some? ==> Mutating(c.value) && c.value.cuentaId == cuentaId && Delta(c.value) == delta
    ensures c.Some? ==> (c.value.Depositar? <==> delta > 0) && c.value.monto > 0
  {
    if delta > 0 then Some(Depositar(cuentaId, delta))
    else if delta < 0 then Some(Retirar(cuentaId, -delta))
    else None
  }

  /** One `_update_cuenta` step against the account map: whether it completed without
      raising, the requests sent, and the map afterwards. */
  datatype Step = Step(ok: bool, calls: seq<Call>, cuentas: Cuentas)

  function Leg(cuentas: Cuentas, cuentaId: string, delta: int, up: bool): (st: Step)
    ensures delta == 0 ==> st == Step(true, [], cuentas)
    ensures delta != 0 ==> st.calls == [UpdateCall(cuentaId, delta).value]
                           && st.ok == Accepts(cuentas, st.calls[0], up)
                           && st.cuentas == Apply(cuentas, st.calls[0], up)
  {
    match UpdateCall(cuentaId, delta)
    case None => Step(true, [], cuentas)
    case Some(c) => Step(Accepts(cuentas, c, up), [c], Apply(cuentas, c, up))
  }

  /** The try block of `create`: the final `estado`, the requests sent and the map after. */
  datatype Movement = Movement(estado: Estado, calls: seq<Call>, cuentas: Cuentas)

  function Move(s: Solicitud, cuentas: Cuentas, net: Network): (mv: Movement)
    // every mutating request moves exactly `monto`: out of the source, into the destination
    ensures forall c :: c in mv.calls ==>
              c == Retirar(s.cuentaOrigenId, s.monto)
              || (s.destino.Cuenta? && c == Depositar(s.destino.cuentaDestinoId, s.monto))
    ensures |mv.calls| >= 1 && mv.calls[0] == Retirar(s.cuentaOrigenId, s.monto)
    // EXITOSA only when every request sent was accepted
    ensures mv.estado == Exitosa ==>
              Accepts(cuentas, mv.calls[0], net.retirarUp)
              && (s.tipo != Interbancaria ==>
                    s.destino.Cuenta?
                    && mv.calls == [Retirar(s.cuentaOrigenId, s.monto), Depositar(s.destino.cuentaDestinoId, s.monto)]
                    && Accepts(Apply(cuentas, mv.calls[0], net.retirarUp), mv.calls[1], net.depositarUp))
  {
    var out := Leg(cuentas, s.cuentaOrigenId, -(s.monto as int), net.retirarUp);
    if s.tipo == Interbancaria then
      Movement(if out.ok then Exitosa else Rechazada, out.calls, out.cuentas)
    else if !out.ok then Movement(Rechazada, out.calls, out.cuentas)
    else match s.destino
      // `data["cuenta_destino_id"]` raises KeyError inside the try block: caught, RECHAZADA
      case Externa(_, _) => Movement(Rechazada, out.calls, out.cuentas)
      case Cuenta(d) =>
        var into := Leg(out.cuentas, d, s.monto, net.depositarUp);
        Movement(if into.ok then Exitosa else Rechazada, out.calls + into.calls, into.cuentas)
  }

  /** Everything one call of `create` does. */
  datatype Attempt = Attempt(result: Created, calls: seq<Call>, cuentas: Cuentas, written: Option<Transferencia>)

  /** The two checks `create` makes before moving money: the requests they send and the
      failure, if any, that ends the call. */
  function CheckCalls(s: Solicitud, userId: string, cuentas: Cuentas, net: Network): (calls: seq<Call>)
    ensures 1 <= |calls| <= 2 && calls[0] == GetCuenta(s.cuentaOrigenId)
    ensures |calls| == 2 ==> calls[1] == ValidarSaldo(s.cuentaOrigenId, s.monto)
    ensures forall c :: c in calls ==> !Mutating(c)
  {
    if !OwnerConfirmed(cuentas, userId, s.cuentaOrigenId, net.get) then [GetCuenta(s.cuentaOrigenId)]
    else [GetCuenta(s.cuentaOrigenId), ValidarSaldo(s.cuentaOrigenId, s.monto)]
  }

  function CheckFailure(s: Solicitud, userId: string, cuentas: Cuentas, net: Network): (f: Option<Failure>)
    ensures f == Some(Forbidden) <==> !net.get.Down? && !OwnerConfirmed(cuentas, userId, s.cuentaOrigenId, net.get)
    ensures f == Some(InsufficientBalance) <==>
              OwnerConfirmed(cuentas, userId, s.cuentaOrigenId, net.get) && net.validarUp
              && cuentas[s.cuentaOrigenId].saldo < s.monto
    ensures f == Some(ServerError) <==>
              net.get.Down? || (OwnerConfirmed(cuentas, userId, s.cuentaOrigenId, net.get) && !net.validarUp)
    ensures f.None? <==>
              OwnerConfirmed(cuentas, userId, s.cuentaOrigenId, net.get) && net.validarUp
              && cuentas[s.cuentaOrigenId].saldo >= s.monto
  {
    if net.get.Down? then Some(ServerError)
    else if !OwnerConfirmed(cuentas, userId, s.cuentaOrigenId, net.get) then Some(Forbidden)
    else if !net.validarUp then Some(ServerError)
    else if cuentas[s.cuentaOrigenId].saldo < s.monto then Some(InsufficientBalance)
    else None
  }

  function Run(s: Solicitud, userId: string, cuentas: Cuentas, net: Network, fecha: int, newId: string)
    : (a: Attempt)
    ensures a.result.Created? ==> a.written == Some(a.result.record)
    ensures a.result.Failed? ==> a.written.None?
    // a record is written exactly when the caller owns the source account and the balance
    // check answers yes
    ensures a.result.Created? <==>
              OwnerConfirmed(cuentas, userId, s.cuentaOrigenId, net.get) && net.validarUp
              && cuentas[s.cuentaOrigenId].saldo >= s.monto
  {
    var pre := CheckCalls(s, userId, cuentas, net);
    match CheckFailure(s, userId, cuentas, net)
    case Some(f) => Attempt(Failed(f), pre, cuentas, None)
    case None =>
      var mv := Move(s, cuentas, net);
      var rec := Record(newId, s, fecha, mv.estado);
      Attempt(Created(rec), pre + mv.calls, mv.cuentas, Some(rec))
  }

  /** What one call of `create` guarantees: the order of its requests, when it answers 403
      or 400, that a failure writes nothing and moves no money, and that a success writes
      exactly the record it returns. */
  lemma RunSpec(s: Solicitud, userId: string, cuentas: Cuentas, net: Network, fecha: int, newId: string)
    ensures var a := Run(s, userId, cuentas, net, fecha, newId);
      // the ownership request always comes first
      && |a.calls| >= 1 && a.calls[0] == GetCuenta(s.cuentaOrigenId)
      // 403 exactly when the owner lookup answers with a status other than 200, or with
      // an account the caller does not own
      && (a.result == Failed(Forbidden) <==>
            net.get == ErrorStatus || (net.get == Through && !Owns(cuentas, userId, s.cuentaOrigenId)))
      // 500 exactly when the owner lookup fails in transport, or the balance check of an
      // owned account fails (`raise_for_status` is not caught)
      && (a.result == Failed(ServerError) <==>
            net.get == Down || (net.get == Through && Owns(cuentas, userId, s.cuentaOrigenId) && !net.validarUp))
      && (a.result == Failed(Forbidden) ==> a.calls == [GetCuenta(s.cuentaOrigenId)])
      // 400 exactly when the caller owns the account and the balance check says no
      && (a.result == Failed(InsufficientBalance) <==>
            net.get == Through && Owns(cuentas, userId, s.cuentaOrigenId) && net.validarUp
            && cuentas[s.cuentaOrigenId].saldo < s.monto)
      // a failed attempt writes nothing and moves no money
      && (a.result.Failed? ==> a.written.None? && a.cuentas == cuentas
                               && forall c :: c in a.calls ==> !Mutating(c))
      // a mutating request only ever follows the ownership and balance requests
      && (forall i :: 0 <= i < |a.calls| && Mutating(a.calls[i]) ==>
            i >= 2 && a.calls[1] == ValidarSaldo(s.cuentaOrigenId, s.monto))
      // exactly the attempts that pass both checks write a record
      && (a.result.Created? <==>
            net.get == Through && Owns(cuentas, userId, s.cuentaOrigenId) && net.validarUp
            && cuentas[s.cuentaOrigenId].saldo >= s.monto)
      // that record is the request with the outcome of the money movement, whose requests
      // follow the two checks and whose effect on the balances is the attempt's
      && (a.result.Created? ==>
            && a.result.record == Record(newId, s, fecha, Move(s, cuentas, net).estado)
            && a.calls == CheckCalls(s, userId, cuentas, net) + Move(s, cuentas, net).calls
            && a.cuentas == Move(s, cuentas, net).cuentas)
  {
    var a := Run(s, userId, cuentas, net, fecha, newId);
    var pre := CheckCalls(s, userId, cuentas, net);
    if a.result.Created? {
      var mv := Move(s, cuentas, net);
      assert |pre| == 2 && a.calls == pre + mv.calls;
      assert forall i :: 2 <= i < |a.calls| ==> a.calls[i] in mv.calls;
    } else {
      assert a.calls == pre;
    }
  }

  /** Intra-bank transfer between two accounts, both requests accepted: EXITOSA, the source
      loses `monto`, the destination gains it, and the bank's total is unchanged. */
  lemma IntraBankSucceeds(s: Solicitud, cuentas: Cuentas, net: Network)
    requires s.tipo != Interbancaria && s.destino.Cuenta?
    requires s.cuentaOrigenId != s.destino.cuentaDestinoId
    requires net.retirarUp && net.depositarUp
    requires s.cuentaOrigenId in cuentas && s.destino.cuentaDestinoId in cuentas
    requires cuentas[s.cuentaOrigenId].saldo >= s.monto
    ensures var mv := Move(s, cuentas, net);
            && mv.estado == Exitosa
            && mv.calls == [Retirar(s.cuentaOrigenId, s.monto), Depositar(s.destino.cuentaDestinoId, s.monto)]
            && mv.cuentas[s.cuentaOrigenId].saldo == cuentas[s.cuentaOrigenId].saldo - s.monto
            && mv.cuentas[s.destino.cuentaDestinoId].saldo == cuentas[s.destino.cuentaDestinoId].saldo + s.monto
            && (forall k :: k in cuentas && k != s.cuentaOrigenId && k != s.destino.cuentaDestinoId
                  ==> mv.cuentas[k] == cuentas[k])
            && Total(mv.cuentas) == Total(cuentas)
  {
    var out := Leg(cuentas, s.cuentaOrigenId, -(s.monto as int), net.retirarUp);
    TotalApply(cuentas, out.calls[0], net.retirarUp);
    var into := Leg(out.cuentas, s.destino.cuentaDestinoId, s.monto, net.depositarUp);
    TotalApply(out.cuentas, into.calls[0], net.depositarUp);
  }

  /** A refused withdrawal: no deposit is attempted, nothing moves, RECHAZADA. */
  lemma WithdrawRefused(s: Solicitud, cuentas: Cuentas, net: Network)
    requires !Accepts(cuentas, Retirar(s.cuentaOrigenId, s.monto), net.retirarUp)
    ensures var mv := Move(s, cuentas, net);
            mv.estado == Rechazada && mv.calls == [Retirar(s.cuentaOrigenId, s.monto)]
            && mv.cuentas == cuentas
  {
  }

  /** The partial-application gap: the withdrawal is accepted, the deposit is not, and the
      withdrawal stays applied; the record says RECHAZADA while the bank's total has
      dropped by `monto`. */
  lemma DepositRefusedAfterWithdraw(s: Solicitud, cuentas: Cuentas, net: Network)
    requires s.tipo != Interbancaria && s.destino.Cuenta?
    requires Accepts(cuentas, Retirar(s.cuentaOrigenId, s.monto), net.retirarUp)
    // the deposit fails in transport, or names an account the accounts service does not
    // know: `create` sends the destination id unchecked
    requires !Accepts(Apply(cuentas, Retirar(s.cuentaOrigenId, s.monto), net.retirarUp),
                      Depositar(s.destino.cuentaDestinoId, s.monto), net.depositarUp)
    ensures var mv := Move(s, cuentas, net);
            && mv.estado == Rechazada
            && mv.calls == [Retirar(s.cuentaOrigenId, s.monto), Depositar(s.destino.cuentaDestinoId, s.monto)]
            && mv.cuentas == Apply(cuentas, Retirar(s.cuentaOrigenId, s.monto), net.retirarUp)
            && mv.cuentas[s.cuentaOrigenId].saldo == cuentas[s.cuentaOrigenId].saldo - s.monto
            && Total(mv.cuentas) == Total(cuentas) - s.monto
  {
    var out := Leg(cuentas, s.cuentaOrigenId, -(s.monto as int), net.retirarUp);
    TotalApply(cuentas, out.calls[0], net.retirarUp);
  }

  /** Interbank: only the source account is touched, and the record is EXITOSA exactly
      when the withdrawal is accepted (the money then leaves the bank). */
  lemma InterbankTouchesOnlySource(s: Solicitud, cuentas: Cuentas, net: Network)
    requires s.tipo == Interbancaria
    ensures var mv := Move(s, cuentas, net);
            var w := Retirar(s.cuentaOrigenId, s.monto);
            && mv.calls == [w]
            && (mv.estado == Exitosa <==> Accepts(cuentas, w, net.retirarUp))
            && (forall k :: k in cuentas && k != s.cuentaOrigenId ==> mv.cuentas[k] == cuentas[k])
            && Total(mv.cuentas) == Total(cuentas) - (if mv.estado == Exitosa then s.monto else 0)
  {
    TotalApply(cuentas, Retirar(s.cuentaOrigenId, s.monto), net.retirarUp);
  }

  class TransferenciasService {
    const repo: TransferenciasRepo
    const gw: Gateway

    constructor (repo: TransferenciasRepo, gw: Gateway)
      ensures this.repo == repo && this.gw == gw
    {
      this.repo := repo;
      this.gw := gw;
    }

    /** `get_all`: the ownership filter calls `_user_owns_cuenta` without awaiting it, and a
        coroutine object is always truthy, so the caller's id filters nothing. */
    function GetAll(cuentaId: Option<string>, tipo: Option<string>, userId: string): (r: seq<Transferencia>)
      reads repo
      ensures r == repo.GetAll(cuentaId, tipo)
      ensures forall t :: t in r ==> t in repo.docs
      ensures Given(cuentaId) ==> forall t :: t in r ==> Touches(t, cuentaId.value)
    {
      repo.GetAll(cuentaId, tipo)
    }

    /** `get_by_id`: for the same reason, the stored record whoever asks. */
    function GetById(id: string, userId: string): (r: Option<Transferencia>)
      reads repo
      ensures r.None? <==> id !in Ids(repo.docs)
      ensures r.Some? ==> r.value in repo.docs && r.value.id == id
    {
      repo.GetById(id)
    }

    /** `_user_owns_cuenta`. */
    method UserOwnsCuenta(userId: string, cuentaId: string, get: Reach) returns (r: Reply<bool>)
      modifies gw
      ensures gw.log == old(gw.log) + [GetCuenta(cuentaId)] && gw.cuentas == old(gw.cuentas)
      ensures get.Down? <==> r.TransportError?
      ensures r.Answer? ==> (r.value <==> OwnerConfirmed(gw.cuentas, userId, cuentaId, get))
    {
      var resp := gw.FetchCuenta(cuentaId, get);
      if resp.TransportError? {
        r := TransportError;
      } else if resp.value.None? {
        r := Answer(false);
      } else {
        r := Answer(resp.value.value == userId);
      }
    }

    /** `_update_cuenta`. */
    method UpdateCuenta(cuentaId: string, delta: int, up: bool) returns (ok: bool)
      modifies gw
      ensures var st := Leg(old(gw.cuentas), cuentaId, delta, up);
              ok == st.ok && gw.log == old(gw.log) + st.calls && gw.cuentas == st.cuentas
    {
      if delta > 0 {
        ok := gw.Send(Depositar(cuentaId, delta), up);
      } else if delta < 0 {
        ok := gw.Send(Retirar(cuentaId, -delta), up);
      } else {
        ok := true;
      }
    }

    /** The try block of `create`: the withdraw/deposit requests and the `estado` they leave. */
    method Execute(s: Solicitud, net: Network) returns (estado: Estado)
      modifies gw
      ensures var mv := Move(s, old(gw.cuentas), net);
              estado == mv.estado && gw.log == old(gw.log) + mv.calls && gw.cuentas == mv.cuentas
    {
      estado := Rechazada;
      if s.tipo == Propia || s.tipo == Terceros {
        var ok := UpdateCuenta(s.cuentaOrigenId, -(s.monto as int), net.retirarUp);
        if ok && s.destino.Cuenta? {
          ok := UpdateCuenta(s.destino.cuentaDestinoId, s.monto, net.depositarUp);
          if ok {
            estado := Exitosa;
          }
        }
      } else {
        var ok := UpdateCuenta(s.cuentaOrigenId, -(s.monto as int), net.retirarUp);
        if ok {
          estado := Exitosa;
        }
      }
    }

    /** The ownership and balance checks of `create`. */
    method Checks(s: Solicitud, userId: string, net: Network) returns (f: Option<Failure>)
      modifies gw
      ensures gw.cuentas == old(gw.cuentas)
      ensures gw.log == old(gw.log) + CheckCalls(s, userId, old(gw.cuentas), net)
      ensures f == CheckFailure(s, userId, old(gw.cuentas), net)
    {
      var owns := UserOwnsCuenta(userId, s.cuentaOrigenId, net.get);
      if owns.TransportError? {
        return Some(ServerError);
      }
      if !owns.value {
        return Some(Forbidden);
      }
      var tieneSaldo := gw.CheckSaldo(s.cuentaOrigenId, s.monto, net.validarUp);
      if tieneSaldo.TransportError? {
        return Some(ServerError);
      }
      if !tieneSaldo.value {
        return Some(InsufficientBalance);
      }
      f := None;
    }

    /** `create(data, user_id)`. */
    method Create(s: Solicitud, userId: string, net: Network, fecha: int, newId: string)
      returns (r: Created)
      requires repo.Valid() && newId !in Ids(repo.docs)
      modifies repo, gw
      ensures repo.Valid()
      ensures var a := Run(s, userId, old(gw.cuentas), net, fecha, newId);
              && r == a.result
              && gw.log == old(gw.log) + a.calls
              && gw.cuentas == a.cuentas
              && repo.docs == old(repo.docs) + (if a.written.Some? then [a.written.value] else [])
    {
      var failure := Checks(s, userId, net);
      if failure.Some? {
        return Failed(failure.value);
      }
      var estado := Execute(s, net);
      var rec := Record(newId, s, fecha, estado);
      var id := repo.Create(rec, newId);
      assert rec.(id := newId) == rec;
      r := Created(rec);
    }
  }
}
