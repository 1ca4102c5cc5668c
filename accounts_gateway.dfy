/** The accounts service as the transfers service reaches it over HTTP
    (transferencias-service/app/services/transferencias_service.py:53-77): an in-memory
    map from account id to owner and balance, and the log of every request sent to it.
    Whether a request gets through is an input (`up`); the balance rules of the
    remote deposit/withdraw endpoints are reduced to "known account" and "enough balance". */
module AccountsGateway {
  import opened Common

  datatype CuentaView = CuentaView(clienteId: string, saldo: int)

  type Cuentas = map<string, CuentaView>

  /** One HTTP request to the accounts service. */
  datatype Call =
    | GetCuenta(cuentaId: string)                  // GET /{id}
    | ValidarSaldo(cuentaId: string, monto: int)   // POST /{id}/validar-saldo?monto=
    | Depositar(cuentaId: string, monto: int)      // POST /{id}/depositar
    | Retirar(cuentaId: string, monto: int)        // POST /{id}/retirar

  predicate Mutating(c: Call) {
    c.Depositar? || c.Retirar?
  }

  /** How a GET /{id} fares: it fails in transport, it is answered with an error status
      whatever the account (a 5xx, say), or it is served normally (200 with the account
      for a known id, 404 otherwise). */
  datatype Reach = Down | ErrorStatus | Through

  /** The answer to a request that can also fail in transport (or with an error status
      that `raise_for_status` turns into an exception). */
  datatype Reply<T> = Answer(value: T) | TransportError

  /** Balance change a mutating request asks for. */
  function Delta(c: Call): int
    requires Mutating(c)
  {
    if c.Depositar? then c.monto else -c.monto
  }

  /** Whether the accounts service accepts a mutating request. */
  predicate Accepts(cuentas: Cuentas, c: Call, up: bool)
    requires Mutating(c)
  {
    up && c.cuentaId in cuentas && (c.Retirar? ==> cuentas[c.cuentaId].saldo >= c.monto)
  }

  /** The account map after a mutating request: only the named account's balance moves,
      by exactly the requested amount, and only when the request is accepted. */
  function Apply(cuentas: Cuentas, c: Call, up: bool): (m: Cuentas)
    requires Mutating(c)
    ensures m.Keys == cuentas.Keys
    ensures forall k :: k in cuentas && k != c.cuentaId ==> m[k] == cuentas[k]
    ensures !Accepts(cuentas, c, up) ==> m == cuentas
    ensures Accepts(cuentas, c, up) ==>
              m[c.cuentaId].clienteId == cuentas[c.cuentaId].clienteId
              && m[c.cuentaId].saldo == cuentas[c.cuentaId].saldo + Delta(c)
  {
    if Accepts(cuentas, c, up) then
      cuentas[c.cuentaId := cuentas[c.cuentaId].(saldo := cuentas[c.cuentaId].saldo + Delta(c))]
    else cuentas
  }

  /** Sum of all balances. */
  ghost function Total(cuentas: Cuentas): int
    decreases |cuentas|
  {
    if cuentas == map[] then 0
    else
      var k :| k in cuentas;
      cuentas[k].saldo + Total(cuentas - {k})
  }

  lemma {:induction false} TotalRemove(cuentas: Cuentas, k: string)
    requires k in cuentas
    ensures Total(cuentas) == cuentas[k].saldo + Total(cuentas - {k})
    decreases |cuentas|
  {
    var j :| j in cuentas && Total(cuentas) == cuentas[j].saldo + Total(cuentas - {j});
    if j != k {
      var both := cuentas - {j} - {k};
      assert |cuentas - {j}| < |cuentas|;
      assert |cuentas - {k}| < |cuentas|;
      TotalRemove(cuentas - {j}, k);
      TotalRemove(cuentas - {k}, j);
      assert cuentas - {j} - {k} == cuentas - {k} - {j};
    }
  }

  /** Changing one balance changes the sum by the same amount. */
  lemma TotalSet(cuentas: Cuentas, k: string, v: CuentaView)
    requires k in cuentas
    ensures Total(cuentas[k := v]) == Total(cuentas) - cuentas[k].saldo + v.saldo
  {
    TotalRemove(cuentas, k);
    TotalRemove(cuentas[k := v], k);
    assert cuentas[k := v] - {k} == cuentas - {k};
  }

  /** An accepted request moves the bank's total by its amount; a refused one by nothing. */
  lemma TotalApply(cuentas: Cuentas, c: Call, up: bool)
    requires Mutating(c)
    ensures Total(Apply(cuentas, c, up)) == Total(cuentas) + (if Accepts(cuentas, c, up) then Delta(c) else 0)
  {
    if Accepts(cuentas, c, up) {
      TotalSet(cuentas, c.cuentaId, cuentas[c.cuentaId].(saldo := cuentas[c.cuentaId].saldo + Delta(c)));
    }
  }

  class Gateway {
    var cuentas: Cuentas
    var log: seq<Call>

    constructor (cuentas: Cuentas)
      ensures this.cuentas == cuentas && log == []
    {
      this.cuentas := cuentas;
      log := [];
    }

    /** GET /{id}: the owning client on status 200, None on any other status. */
    method FetchCuenta(cuentaId: string, get: Reach) returns (r: Reply<Option<string>>)
      modifies this
      ensures log == old(log) + [GetCuenta(cuentaId)] && cuentas == old(cuentas)
      ensures get.Down? <==> r.TransportError?
      ensures r.Answer? ==> r.value == if get.Through? && cuentaId in cuentas then Some(cuentas[cuentaId].clienteId) else None
    {
      log := log + [GetCuenta(cuentaId)];
      if get.Down? {
        r := TransportError;
      } else if get.Through? && cuentaId in cuentas {
        r := Answer(Some(cuentas[cuentaId].clienteId));
      } else {
        r := Answer(None);
      }
    }

    /** POST /{id}/validar-saldo: `tiene_saldo`; an unknown account is a 404, which
        `raise_for_status` turns into an exception. */
    method CheckSaldo(cuentaId: string, monto: int, up: bool) returns (r: Reply<bool>)
      modifies this
      ensures log == old(log) + [ValidarSaldo(cuentaId, monto)] && cuentas == old(cuentas)
      ensures r.Answer? <==> up && cuentaId in cuentas
      ensures r.Answer? ==> (r.value <==> cuentas[cuentaId].saldo >= monto)
    {
      log := log + [ValidarSaldo(cuentaId, monto)];
      if up && cuentaId in cuentas {
        r := Answer(cuentas[cuentaId].saldo >= monto);
      } else {
        r := TransportError;
      }
    }

    /** POST /{id}/depositar or /{id}/retirar: `ok` is false where `raise_for_status`
        (or the transport) raises. */
    method Send(c: Call, up: bool) returns (ok: bool)
      requires Mutating(c)
      modifies this
      ensures log == old(log) + [c]
      ensures ok == Accepts(old(cuentas), c, up)
      ensures cuentas == Apply(old(cuentas), c, up)
    {
      log := log + [c];
      ok := Accepts(cuentas, c, up);
      cuentas := Apply(cuentas, c, up);
    }
  }
}

