/** The accounts store (cuentas-service/app/repos/cuentas_repo.py): the "cuentas" and
    "movimientos" collections as maps from document id to stored document. Stored documents
    carry no id (`model_dump(exclude={"id"})`); reads put the document id back. */
module CuentasRepo {
  import opened Common
  import opened CuentasModels

  /** A string of exactly ten decimal digits. */
  predicate IsNumeroCuenta(s: string) {
    |s| == 10 && IsDigits(s)
  }

  /** `_generar_numero_cuenta`: ten random digits; the random draw is an input. */
  function NumeroFromDraw(draw: nat): (s: string)
    ensures IsNumeroCuenta(s)
    ensures DigitsValue(s) == draw % 10000000000
  {
    DigitsRoundTrip(draw, 10);
    Digits(draw, 10)
  }

  predicate Unique(cuentas: map<string, Cuenta>) {
    forall a, b :: a in cuentas && b in cuentas && a != b ==> cuentas[a].numeroCuenta != cuentas[b].numeroCuenta
  }

  /** `CuentaFilter`: every given field must match (conjunction). */
  datatype CuentaFilter = CuentaFilter(
    clienteId: Option<string>,
    numeroCuenta: Option<string>,
    estado: Option<EstadoCuenta>,
    moneda: Option<Moneda>)

  predicate MatchesCuenta(f: CuentaFilter, c: Cuenta) {
    && Passes(f.clienteId, c.clienteId)
    && Passes(f.numeroCuenta, c.numeroCuenta)
    && (f.estado.None? || c.estado == f.estado.value)
    && (f.moneda.None? || c.moneda == f.moneda.value)
  }

  /** `MovimientoFilter`: optional kind and an optional closed date range. */
  datatype MovimientoFilter = MovimientoFilter(
    tipo: Option<TipoMovimiento>,
    fechaDesde: Option<int>,
    fechaHasta: Option<int>)

  predicate MatchesMovimiento(cuentaId: string, f: MovimientoFilter, m: Movimiento) {
    && m.cuentaId == cuentaId
    && (f.tipo.None? || m.tipo == f.tipo.value)
    && (f.fechaDesde.None? || m.fecha >= f.fechaDesde.value)
    && (f.fechaHasta.None? || m.fecha <= f.fechaHasta.value)
  }

  /** The fields an update may carry; None leaves a field alone. */
  datatype CuentaPatch = CuentaPatch(
    tipo: Option<TipoCuenta>,
    moneda: Option<Moneda>,
    saldo: Option<int>,
    estado: Option<EstadoCuenta>)

  function Patched(c: Cuenta, p: CuentaPatch, now: int): (d: Cuenta)
    ensures d.id == c.id && d.clienteId == c.clienteId && d.numeroCuenta == c.numeroCuenta
    ensures d.fechaApertura == c.fechaApertura && d.createdAt == c.createdAt && d.updatedAt == now
    ensures d.tipo == (if p.tipo.Some? then p.tipo.value else c.tipo)
    ensures d.moneda == (if p.moneda.Some? then p.moneda.value else c.moneda)
    ensures d.saldo == (if p.saldo.Some? then p.saldo.value else c.saldo)
    ensures d.estado == (if p.estado.Some? then p.estado.value else c.estado)
  {
    c.(tipo := if p.tipo.Some? then p.tipo.value else c.tipo,
       moneda := if p.moneda.Some? then p.moneda.value else c.moneda,
       saldo := if p.saldo.Some? then p.saldo.value else c.saldo,
       estado := if p.estado.Some? then p.estado.value else c.estado,
       updatedAt := now)
  }

  predicate SortedDesc(s: seq<Movimiento>) {
    forall i, j :: 0 <= i < j < |s| ==> s[i].fecha >= s[j].fecha
  }

  /** Inserts a movement into a list ordered newest first. */
  function InsertDesc(m: Movimiento, s: seq<Movimiento>): (r: seq<Movimiento>)
    ensures |r| == |s| + 1
    ensures multiset(r) == multiset(s) + multiset{m}
  {
    if s == [] then [m]
    else if m.fecha >= s[0].fecha then [m] + s
    else
      assert s == [s[0]] + s[1..];
      [s[0]] + InsertDesc(m, s[1..])
  }

  /** Putting a movement in front of sorted ones dated no later than it. */
  lemma ConsSorted(h: Movimiento, rest: seq<Movimiento>)
    requires SortedDesc(rest)
    requires forall x :: x in rest ==> h.fecha >= x.fecha
    ensures SortedDesc([h] + rest)
  {
    var r := [h] + rest;
    forall i, j | 0 <= i < j < |r| ensures r[i].fecha >= r[j].fecha {
      if i == 0 {
        assert r[j] in rest;
      } else {
        assert r[i] == rest[i - 1] && r[j] == rest[j - 1];
      }
    }
  }

  /** The head of sorted movements is dated no earlier than every movement after it. */
  lemma SortedHead(s: seq<Movimiento>)
    requires s != [] && SortedDesc(s)
    ensures SortedDesc(s[1..])
    ensures forall x :: x in s[1..] ==> s[0].fecha >= x.fecha
  {
    forall x | x in s[1..] ensures s[0].fecha >= x.fecha {
      var j :| 0 <= j < |s[1..]| && s[1..][j] == x;
      assert s[j + 1] == x;
    }
  }

  lemma {:induction false} InsertDescSorted(m: Movimiento, s: seq<Movimiento>)
    requires SortedDesc(s)
    ensures SortedDesc(InsertDesc(m, s))
  {
    if s == [] || m.fecha >= s[0].fecha {
      if s != [] {
        SortedHead(s);
      }
      ConsSorted(m, s);
    } else {
      SortedHead(s);
      InsertDescSorted(m, s[1..]);
      InsertDescMembers(m, s[1..]);
      ConsSorted(s[0], InsertDesc(m, s[1..]));
    }
  }


  lemma InsertDescMembers(m: Movimiento, s: seq<Movimiento>)
    ensures forall x :: x in InsertDesc(m, s) <==> x == m || x in s
  {
    var r := InsertDesc(m, s);
    assert forall x :: x in r <==> x in multiset(r);
    assert forall x :: x in s <==> x in multiset(s);
  }

  /** A member of a newest-first list that is not among its first `n` entries lies after
      them, so it is no newer than any of them, and the prefix is a proper one. */
  lemma NewestPrefix(acc: seq<Movimiento>, n: nat, x: Movimiento)
    requires SortedDesc(acc) && n <= |acc| && x in acc && x !in acc[..n]
    ensures n < |acc| && forall m :: m in acc[..n] ==> m.fecha >= x.fecha
  {
    var p :| 0 <= p < |acc| && acc[p] == x;
    assert forall q :: 0 <= q < n ==> acc[q] == acc[..n][q];
    assert p >= n;
  }

  predicate DistinctIds(s: seq<Movimiento>) {
    forall i, j :: 0 <= i < j < |s| ==> s[i].id != s[j].id
  }

  /** Putting a movement in front of distinct ones whose ids all differ from its own. */
  lemma ConsDistinct(h: Movimiento, rest: seq<Movimiento>)
    requires DistinctIds(rest)
    requires forall x :: x in rest ==> x.id != h.id
    ensures DistinctIds([h] + rest)
  {
    var r := [h] + rest;
    forall i, j | 0 <= i < j < |r| ensures r[i].id != r[j].id {
      if i == 0 {
        assert r[j] in rest;
      } else {
        assert r[i] == rest[i - 1] && r[j] == rest[j - 1];
      }
    }
  }

  /** The head of distinct movements differs in id from every movement after it. */
  lemma DistinctHead(s: seq<Movimiento>)
    requires s != [] && DistinctIds(s)
    ensures DistinctIds(s[1..])
    ensures forall x :: x in s[1..] ==> x.id != s[0].id
  {
    forall x | x in s[1..] ensures x.id != s[0].id {
      var j :| 0 <= j < |s[1..]| && s[1..][j] == x;
      assert s[j + 1] == x;
    }
  }

  lemma {:induction false} InsertDescDistinct(m: Movimiento, s: seq<Movimiento>)
    requires DistinctIds(s)
    requires forall x :: x in s ==> x.id != m.id
    ensures DistinctIds(InsertDesc(m, s))
  {
    if s == [] || m.fecha >= s[0].fecha {
      ConsDistinct(m, s);
    } else {
      DistinctHead(s);
      InsertDescDistinct(m, s[1..]);
      InsertDescMembers(m, s[1..]);
      assert s[0] in s;
      ConsDistinct(s[0], InsertDesc(m, s[1..]));
    }
  }


  /** An account built with the model's defaults and stored by `create`: the stored document
      keeps the owner, the opening date and the defaults (saldo 0, AHORRO, BOB, ACTIVA), takes
      the drawn number, and has both stamps set to the moment of the write. */
  lemma NuevaCuentaStored(clienteId: string, placeholder: string, apertura: int, numero: string, now: int)
    ensures var c := NuevaCuenta(clienteId, placeholder, apertura).(id := None, numeroCuenta := numero,
                                                                    createdAt := now, updatedAt := now);
            && c.id.None? && c.clienteId == clienteId && c.numeroCuenta == numero
            && c.saldo == 0 && c.tipo == Ahorro && c.moneda == Bob && c.estado == Activa
            && c.fechaApertura == apertura && c.createdAt == now && c.updatedAt == now
  {
  }

  class CuentasRepository {
    var cuentas: map<string, Cuenta>
    var movimientos: map<string, Movimiento>

    /** Stored accounts carry no id and have pairwise distinct ten-digit numbers. */
    ghost predicate Valid()
      reads this
    {
      && (forall k :: k in cuentas ==> cuentas[k].id.None? && IsNumeroCuenta(cuentas[k].numeroCuenta))
      && Unique(cuentas)
      && (forall k :: k in movimientos ==> movimientos[k].id.None?)
    }

    constructor ()
      ensures Valid() && cuentas == map[] && movimientos == map[]
    {
      cuentas := map[];
      movimientos := map[];
    }

    /** `_cuenta_existe`. */
    predicate CuentaExiste(numero: string)
      reads this
    {
      exists k :: k in cuentas && cuentas[k].numeroCuenta == numero
    }

    /** `_generar_numero_cuenta_unico`: draws numbers until one is unused. The draws are
        an input; None stands for a run of draws that were all taken (the source keeps
        drawing). */
    method GenerarNumeroCuentaUnico(draws: seq<nat>) returns (r: Option<string>)
      ensures r.Some? ==> IsNumeroCuenta(r.value) && !CuentaExiste(r.value)
      ensures r.Some? ==> exists i :: 0 <= i < |draws| && r.value == NumeroFromDraw(draws[i])
                            && forall j :: 0 <= j < i ==> CuentaExiste(NumeroFromDraw(draws[j]))
      ensures r.None? ==> forall i :: 0 <= i < |draws| ==> CuentaExiste(NumeroFromDraw(draws[i]))
    {
      var i := 0;
      while i < |draws|
        invariant 0 <= i <= |draws|
        invariant forall j :: 0 <= j < i ==> CuentaExiste(NumeroFromDraw(draws[j]))
      {
        var numero := NumeroFromDraw(draws[i]);
        if !CuentaExiste(numero) {
          return Some(numero);
        }
        i := i + 1;
      }
      return None;
    }

    /** `create`: stores the account under a fresh id with a newly generated unused number
        and both timestamps set to `now`, and returns the id. */
    method Create(cuenta: Cuenta, draws: seq<nat>, now: int, newId: string) returns (r: Option<string>)
      requires Valid() && newId !in cuentas
      modifies this
      ensures Valid() && movimientos == old(movimientos)
      ensures r.None? ==> cuentas == old(cuentas)
      ensures r.Some? ==>
                && r.value == newId
                && cuentas.Keys == old(cuentas).Keys + {newId}
                && (forall k :: k in old(cuentas) ==> cuentas[k] == old(cuentas)[k])
                && IsNumeroCuenta(cuentas[newId].numeroCuenta)
                && (forall k :: k in old(cuentas) ==> old(cuentas)[k].numeroCuenta != cuentas[newId].numeroCuenta)
                && cuentas[newId] == cuenta.(id := None, numeroCuenta := cuentas[newId].numeroCuenta,
                                             createdAt := now, updatedAt := now)
    {
      var numero := GenerarNumeroCuentaUnico(draws);
      if numero.None? {
        return None;
      }
      var stored := cuenta.(id := None, numeroCuenta := numero.value, createdAt := now, updatedAt := now);
      cuentas := cuentas[newId := stored];
      r := Some(newId);
    }

    /** `get_by_id`. */
    function GetById(cuentaId: string): (r: Option<Cuenta>)
      reads this
      ensures r.None? <==> cuentaId !in cuentas
      ensures r.Some? ==> r.value == cuentas[cuentaId].(id := Some(cuentaId))
    {
      if cuentaId in cuentas then Some(cuentas[cuentaId].(id := Some(cuentaId))) else None
    }

    /** `get_by_numero_cuenta`: the account with that number, if any. */
    method GetByNumeroCuenta(numero: string) returns (r: Option<Cuenta>)
      ensures r.None? <==> !CuentaExiste(numero)
      ensures r.Some? ==> r.value.id.Some? && r.value.id.value in cuentas
                          && r.value == cuentas[r.value.id.value].(id := r.value.id)
                          && r.value.numeroCuenta == numero
    {
      var keys := cuentas.Keys;
      while keys != {}
        invariant keys <= cuentas.Keys
        invariant forall k :: k in cuentas && k !in keys ==> cuentas[k].numeroCuenta != numero
        decreases keys
      {
        var k :| k in keys;
        if cuentas[k].numeroCuenta == numero {
          return Some(cuentas[k].(id := Some(k)));
        }
        keys := keys - {k};
      }
      return None;
    }

    /** `list(filters)`: exactly the accounts that match every given filter, each once,
        with its id. */
    method List(f: CuentaFilter) returns (r: seq<Cuenta>)
      ensures forall k :: k in cuentas && MatchesCuenta(f, cuentas[k]) ==> cuentas[k].(id := Some(k)) in r
      ensures forall c :: c in r ==> c.id.Some? && c.id.value in cuentas
                                     && MatchesCuenta(f, cuentas[c.id.value])
                                     && c == cuentas[c.id.value].(id := c.id)
      ensures forall i, j :: 0 <= i < j < |r| ==> r[i].id != r[j].id
    {
      var keys := cuentas.Keys;
      r := [];
      while keys != {}
        invariant keys <= cuentas.Keys
        invariant forall k :: k in cuentas && k !in keys && MatchesCuenta(f, cuentas[k])
                    ==> cuentas[k].(id := Some(k)) in r
        invariant forall c :: c in r ==> c.id.Some? && c.id.value in cuentas && c.id.value !in keys
                                         && MatchesCuenta(f, cuentas[c.id.value])
                                         && c == cuentas[c.id.value].(id := c.id)
        invariant forall i, j :: 0 <= i < j < |r| ==> r[i].id != r[j].id
        decreases keys
      {
        var k :| k in keys;
        if MatchesCuenta(f, cuentas[k]) {
          r := r + [cuentas[k].(id := Some(k))];
        }
        keys := keys - {k};
      }
    }

    /** `update(cuenta_id, data)`: the given fields and `updated_at` change, nothing else;
        `ok` is false where Firestore raises NotFound, and then nothing changes. */
    method Update(cuentaId: string, p: CuentaPatch, now: int) returns (ok: bool)
      requires Valid()
      modifies this
      ensures Valid() && movimientos == old(movimientos)
      ensures ok <==> cuentaId in old(cuentas)
      ensures cuentas == if ok then old(cuentas)[cuentaId := Patched(old(cuentas)[cuentaId], p, now)]
                         else old(cuentas)
    {
      if cuentaId !in cuentas {
        return false;
      }
      cuentas := cuentas[cuentaId := Patched(cuentas[cuentaId], p, now)];
      ok := true;
    }

    /** `update_saldo`: only `saldo` (and `updated_at`) change. */
    method UpdateSaldo(cuentaId: string, nuevoSaldo: int, now: int) returns (ok: bool)
      requires Valid()
      modifies this
      ensures Valid() && movimientos == old(movimientos)
      ensures ok <==> cuentaId in old(cuentas)
      ensures ok ==> cuentas == old(cuentas)[cuentaId := old(cuentas)[cuentaId].(saldo := nuevoSaldo, updatedAt := now)]
      ensures !ok ==> cuentas == old(cuentas)
    {
      ok := Update(cuentaId, CuentaPatch(None, None, Some(nuevoSaldo), None), now);
    }

    /** `cambiar_estado`: only `estado` (and `updated_at`) change. */
    method CambiarEstado(cuentaId: string, nuevo: EstadoCuenta, now: int) returns (ok: bool)
      requires Valid()
      modifies this
      ensures Valid() && movimientos == old(movimientos)
      ensures ok <==> cuentaId in old(cuentas)
      ensures ok ==> cuentas == old(cuentas)[cuentaId := old(cuentas)[cuentaId].(estado := nuevo, updatedAt := now)]
      ensures !ok ==> cuentas == old(cuentas)
    {
      ok := Update(cuentaId, CuentaPatch(None, None, None, Some(nuevo)), now);
    }

    /** `delete`: a soft delete; the account stays, CERRADA. */
    method Delete(cuentaId: string, now: int) returns (ok: bool)
      requires Valid()
      modifies this
      ensures Valid() && movimientos == old(movimientos)
      ensures ok <==> cuentaId in old(cuentas)
      ensures cuentas.Keys == old(cuentas).Keys
      ensures ok ==> cuentas[cuentaId] == old(cuentas)[cuentaId].(estado := Cerrada, updatedAt := now)
      ensures forall k :: k in cuentas && k != cuentaId ==> cuentas[k] == old(cuentas)[k]
    {
      ok := CambiarEstado(cuentaId, Cerrada, now);
    }

    /** `crear_movimiento`: stores the movement under a fresh id, stamped `created_at = now`. */
    method CrearMovimiento(m: Movimiento, now: int, newId: string) returns (id: string)
      requires Valid() && newId !in movimientos
      modifies this
      ensures Valid() && cuentas == old(cuentas)
      ensures id == newId
      ensures movimientos == old(movimientos)[newId := m.(id := None, createdAt := now)]
    {
      movimientos := movimientos[newId := m.(id := None, createdAt := now)];
      id := newId;
    }

    /** The account's movements matching the filter, each once with its id, newest first. */
    method CollectMovimientos(cuentaId: string, f: MovimientoFilter) returns (acc: seq<Movimiento>)
      ensures SortedDesc(acc) && DistinctIds(acc)
      ensures forall k :: k in movimientos && MatchesMovimiento(cuentaId, f, movimientos[k])
                          ==> movimientos[k].(id := Some(k)) in acc
      ensures forall m :: m in acc ==> m.id.Some? && m.id.value in movimientos
                                       && m == movimientos[m.id.value].(id := m.id)
                                       && MatchesMovimiento(cuentaId, f, m)
    {
      var keys := movimientos.Keys;
      acc := [];
      while keys != {}
        invariant keys <= movimientos.Keys
        invariant SortedDesc(acc) && DistinctIds(acc)
        invariant forall k :: k in movimientos && k !in keys && MatchesMovimiento(cuentaId, f, movimientos[k])
                    ==> movimientos[k].(id := Some(k)) in acc
        invariant forall m :: m in acc ==> m.id.Some? && m.id.value in movimientos && m.id.value !in keys
                                           && m == movimientos[m.id.value].(id := m.id)
                                           && MatchesMovimiento(cuentaId, f, m)
        decreases keys
      {
        var k :| k in keys;
        var m := movimientos[k].(id := Some(k));
        if MatchesMovimiento(cuentaId, f, m) {
          InsertDescSorted(m, acc);
          InsertDescDistinct(m, acc);
          InsertDescMembers(m, acc);
          acc := InsertDesc(m, acc);
        }
        keys := keys - {k};
      }
    }

    /** `get_movimientos`: that account's movements matching the filter, newest first, at
        most `limit` of them; every matching movement left out is no newer than the
        ones returned. */
    method GetMovimientos(cuentaId: string, f: MovimientoFilter, limit: nat) returns (r: seq<Movimiento>)
      ensures |r| <= limit
      ensures SortedDesc(r) && DistinctIds(r)
      ensures forall m :: m in r ==> m.id.Some? && m.id.value in movimientos
                                     && m == movimientos[m.id.value].(id := m.id)
                                     && MatchesMovimiento(cuentaId, f, m)
      ensures forall k :: k in movimientos && MatchesMovimiento(cuentaId, f, movimientos[k])
                          && movimientos[k].(id := Some(k)) !in r
                          ==> |r| == limit && forall m :: m in r ==> m.fecha >= movimientos[k].fecha
    {
      var acc := CollectMovimientos(cuentaId, f);
      var n := if limit < |acc| then limit else |acc|;
      r := acc[..n];
      forall k | k in movimientos && MatchesMovimiento(cuentaId, f, movimientos[k])
                 && movimientos[k].(id := Some(k)) !in r
        ensures |r| == limit && forall m :: m in r ==> m.fecha >= movimientos[k].fecha
      {
        NewestPrefix(acc, n, movimientos[k].(id := Some(k)));
      }
    }
  }
}
