/** Loans (prestamos-service/app/routers/prestamos.py): the "prestamos" collection with an
    automatic approval rule on creation and updates of `estado` only. Stored documents carry
    no id; responses add the document key. `tasa_anual` is a whole number here. */
module Prestamos {
  import opened Common

  /** Loans up to this amount are approved on creation. */
  const ApprovalLimit := 20000

  /** `PrestamoCreate`. */
  datatype PrestamoCreate = PrestamoCreate(clienteId: string, monto: int, plazoMeses: int, tasaAnual: int)

  /** A stored loan document. */
  datatype Prestamo = Prestamo(
    clienteId: string,
    monto: int,
    plazoMeses: int,
    tasaAnual: int,
    estado: string,
    fechaSolicitud: int)

  /** `PrestamoResponse`: a document with its key. */
  datatype PrestamoResponse = PrestamoResponse(id: string, prestamo: Prestamo)

  /** The approval rule of `crear_prestamo`. */
  function EstadoInicial(monto: int): (e: string)
    ensures e == "APROBADO" <==> monto <= ApprovalLimit
    ensures e == "EN_EVALUACION" <==> monto > ApprovalLimit
  {
    if monto <= ApprovalLimit then "APROBADO" else "EN_EVALUACION"
  }

  predicate MatchesPrestamo(clienteId: Option<string>, estado: Option<string>, p: Prestamo) {
    Passes(clienteId, p.clienteId) && Passes(estado, p.estado)
  }

  class PrestamosStore {
    var prestamos: map<string, Prestamo>

    constructor ()
      ensures prestamos == map[]
    {
      prestamos := map[];
    }

    /** `crear_prestamo`: stores the request with the rule's `estado` and the request time
        under the fresh id, and answers with that document and id. */
    method Crear(data: PrestamoCreate, now: int, newId: string) returns (r: PrestamoResponse)
      requires newId !in prestamos
      modifies this
      ensures prestamos == old(prestamos)[newId := r.prestamo]
      ensures r.id == newId
      ensures r.prestamo.clienteId == data.clienteId && r.prestamo.monto == data.monto
      ensures r.prestamo.plazoMeses == data.plazoMeses && r.prestamo.tasaAnual == data.tasaAnual
      ensures r.prestamo.fechaSolicitud == now
      ensures r.prestamo.estado == "APROBADO" <==> data.monto <= ApprovalLimit
      ensures r.prestamo.estado == "EN_EVALUACION" <==> data.monto > ApprovalLimit
    {
      var doc := Prestamo(data.clienteId, data.monto, data.plazoMeses, data.tasaAnual,
                          EstadoInicial(data.monto), now);
      prestamos := prestamos[newId := doc];
      r := PrestamoResponse(newId, doc);
    }

    /** `obtener_prestamo`: None stands for the 404. */
    function Obtener(prestamoId: string): (r: Option<PrestamoResponse>)
      reads this
      ensures r.None? <==> prestamoId !in prestamos
      ensures r.Some? ==> r.value == PrestamoResponse(prestamoId, prestamos[prestamoId])
    {
      if prestamoId in prestamos then Some(PrestamoResponse(prestamoId, prestamos[prestamoId])) else None
    }

    /** `actualizar_prestamo`: 404 (None) when missing and nothing changes; otherwise only
        `estado` changes, and the answer is the updated document. */
    method Actualizar(prestamoId: string, estado: string) returns (r: Option<PrestamoResponse>)
      modifies this
      ensures r.None? <==> prestamoId !in old(prestamos)
      ensures r.None? ==> prestamos == old(prestamos)
      ensures r.Some? ==> prestamos == old(prestamos)[prestamoId := old(prestamos)[prestamoId].(estado := estado)]
                          && r.value == PrestamoResponse(prestamoId, prestamos[prestamoId])
    {
      if prestamoId !in prestamos {
        return None;
      }
      prestamos := prestamos[prestamoId := prestamos[prestamoId].(estado := estado)];
      r := Some(PrestamoResponse(prestamoId, prestamos[prestamoId]));
    }

    /** `listar_prestamos`: exactly the loans matching every given filter, each once. */
    method Listar(clienteId: Option<string>, estado: Option<string>) returns (r: seq<PrestamoResponse>)
      ensures forall k :: k in prestamos && MatchesPrestamo(clienteId, estado, prestamos[k])
                          ==> PrestamoResponse(k, prestamos[k]) in r
      ensures forall x :: x in r ==> x.id in prestamos && prestamos[x.id] == x.prestamo
                                     && MatchesPrestamo(clienteId, estado, x.prestamo)
      ensures forall i, j :: 0 <= i < j < |r| ==> r[i].id != r[j].id
    {
      var keys := prestamos.Keys;
      r := [];
      while keys != {}
        invariant keys <= prestamos.Keys
        invariant forall k :: k in prestamos && k !in keys && MatchesPrestamo(clienteId, estado, prestamos[k])
                    ==> PrestamoResponse(k, prestamos[k]) in r
        invariant forall x :: x in r ==> x.id in prestamos && x.id !in keys && prestamos[x.id] == x.prestamo
                                         && MatchesPrestamo(clienteId, estado, x.prestamo)
        invariant forall i, j :: 0 <= i < j < |r| ==> r[i].id != r[j].id
        decreases keys
      {
        var k :| k in keys;
        if MatchesPrestamo(clienteId, estado, prestamos[k]) {
          r := r + [PrestamoResponse(k, prestamos[k])];
        }
        keys := keys - {k};
      }
    }
  }
}
