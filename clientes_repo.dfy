/** The "clientes" collection of the OAuth service (fastapi-oauth/app/repos/clientes_repo.py):
    defaults on creation, merge of non-None fields, soft or hard delete, and read-side
    normalisation of `fecha_alta` to an ISO date string. */
module ClientesRepo {
  import opened Common
  import opened Documents
  import opened CivilDates

  /** `_normalize_cliente` either returns the document or raises, when the timestamp lies
      outside the years `date` can represent. */
  datatype Normalized = Normal(doc: Doc) | DateOutOfRange

  /** The ISO date of a timestamp, or DateOutOfRange. */
  function IsoFromEpoch(d: Doc, ts: int): (r: Normalized)
    ensures r.Normal? <==> InRange(EpochDate(ts))
    ensures r.Normal? ==> r.doc == d["fecha_alta" := Str(IsoDate(EpochDate(ts)))]
  {
    var date := EpochDate(ts);
    if InRange(date) then Normal(d["fecha_alta" := Str(IsoDate(date))]) else DateOutOfRange
  }

  /** `_normalize_cliente`: adds the key as "id"; a numeric `fecha_alta` (booleans are
      numbers in Python) or a stored timestamp becomes the UTC calendar date in ISO form;
      anything else, including an absent field, is left as it is. */
  function Normalize(id: string, d: Doc): (r: Normalized)
    ensures r.Normal? ==> r.doc.Keys == d.Keys + {"id"} && r.doc["id"] == Str(id)
    ensures r.Normal? ==> forall k :: k in d && k != "id" && k != "fecha_alta" ==> r.doc[k] == d[k]
    ensures "fecha_alta" !in d ==> r.Normal? && "fecha_alta" !in r.doc
    ensures "fecha_alta" in d && !(d["fecha_alta"].Int? || d["fecha_alta"].Bool? || d["fecha_alta"].Time?)
            ==> r.Normal? && r.doc["fecha_alta"] == d["fecha_alta"]
    ensures "fecha_alta" in d && d["fecha_alta"].Int? ==> r == IsoFromEpoch(WithId(id, d), d["fecha_alta"].i)
    ensures "fecha_alta" in d && d["fecha_alta"].Time? ==> r == IsoFromEpoch(WithId(id, d), d["fecha_alta"].epoch)
    ensures "fecha_alta" in d && d["fecha_alta"].Bool? ==>
              r == IsoFromEpoch(WithId(id, d), if d["fecha_alta"].b then 1 else 0)
  {
    var withId := WithId(id, d);
    match Get(withId, "fecha_alta", Null)
    case Int(i) => IsoFromEpoch(withId, i)
    case Bool(b) => IsoFromEpoch(withId, if b then 1 else 0)
    case Time(t) => IsoFromEpoch(withId, t)
    case _ => Normal(withId)
  }

  /** A normalised numeric `fecha_alta` names the day the timestamp falls in: the ISO text
      reads back as a date whose day count brackets the timestamp. */
  lemma NormalizedDateIsTimestampDay(id: string, d: Doc)
    requires "fecha_alta" in d && d["fecha_alta"].Int? && Normalize(id, d).Normal?
    ensures var ts := d["fecha_alta"].i;
            var s := Normalize(id, d).doc["fecha_alta"];
            && s.Str? && |s.s| == 10
            && var date := Date(DigitsValue(s.s[..4]), DigitsValue(s.s[5..7]), DigitsValue(s.s[8..]));
               ValidDate(date) && SecondsPerDay * DaysFromCivil(date) <= ts < SecondsPerDay * (DaysFromCivil(date) + 1)
  {
    var ts := d["fecha_alta"].i;
    IsoDateRoundTrip(EpochDate(ts));
    EpochDateContains(ts);
  }

  /** `ClienteCreate`'s required fields, as `create_cliente` reads them with `payload[...]`. */
  predicate IsClientePayload(payload: Doc) {
    "nombre" in payload && "email" in payload
  }

  /** The document `create_cliente` stores: defaults `apellidos` "" and `estado` ACTIVO,
      the other optional fields None, and today's date as text. */
  function NewCliente(payload: Doc, today: Date): (d: Doc)
    requires IsClientePayload(payload) && ValidDate(today) && InRange(today)
    ensures "nombre" in d && "apellidos" in d && "email" in d && "estado" in d && "fecha_alta" in d
    ensures d["nombre"] == payload["nombre"] && d["email"] == payload["email"]
    ensures d["apellidos"] == Get(payload, "apellidos", Str(""))
    ensures d["estado"] == Get(payload, "estado", Str("ACTIVO"))
    ensures d["fecha_alta"] == Str(IsoDate(today))
    ensures "id" !in d
  {
    map["nombre" := payload["nombre"], "apellidos" := Get(payload, "apellidos", Str("")),
        "ci_nit" := Get(payload, "ci_nit", Null), "fecha_nacimiento" := Get(payload, "fecha_nacimiento", Null),
        "email" := payload["email"], "telefono" := Get(payload, "telefono", Null),
        "direccion" := Get(payload, "direccion", Null), "estado" := Get(payload, "estado", Str("ACTIVO")),
        "fecha_alta" := Str(IsoDate(today))]
  }

  class ClientesRepository {
    var clientes: map<string, Doc>

    constructor ()
      ensures clientes == map[]
    {
      clientes := map[];
    }

    /** `get_cliente`: None for a missing id, otherwise the normalised document. */
    function GetCliente(clienteId: string): (r: Option<Normalized>)
      reads this
      ensures r.None? <==> clienteId !in clientes
      ensures r.Some? ==> r.value == Normalize(clienteId, clientes[clienteId])
    {
      if clienteId in clientes then Some(Normalize(clienteId, clientes[clienteId])) else None
    }

    /** `list_clientes`: every stored client, normalised and carrying its id, each once; None
        when normalising any of them raises. */
    method ListClientes() returns (r: Option<seq<Doc>>)
      ensures r.None? ==> exists k :: k in clientes && Normalize(k, clientes[k]).DateOutOfRange?
      ensures r.Some? ==> forall k :: k in clientes ==> (Normalize(k, clientes[k]).Normal?
                                                       && Normalize(k, clientes[k]).doc in r.value)
      ensures r.Some? ==> forall x: Doc :: x in r.value ==> ("id" in x && x["id"].Str? && x["id"].s in clientes
                                                            && Normalize(x["id"].s, clientes[x["id"].s]) == Normal(x))
      ensures r.Some? ==> forall i, j :: 0 <= i < j < |r.value| ==> r.value[i]["id"] != r.value[j]["id"]
    {
      var keys := clientes.Keys;
      var out: seq<Doc> := [];
      while keys != {}
        invariant keys <= clientes.Keys
        invariant forall k :: k in clientes && k !in keys ==> (Normalize(k, clientes[k]).Normal?
                                                               && Normalize(k, clientes[k]).doc in out)
        invariant forall x: Doc :: x in out ==> ("id" in x && x["id"].Str? && x["id"].s in clientes && x["id"].s !in keys
                                                 && Normalize(x["id"].s, clientes[x["id"].s]) == Normal(x))
        invariant forall i, j :: 0 <= i < j < |out| ==> out[i]["id"] != out[j]["id"]
        decreases keys
      {
        var k :| k in keys;
        var n := Normalize(k, clientes[k]);
        if n.DateOutOfRange? {
          return None;
        }
        out := out + [n.doc];
        keys := keys - {k};
      }
      r := Some(out);
    }

    /** `create_cliente`: one new document under a fresh id; the answer is it with its id. */
    method CreateCliente(payload: Doc, today: Date, newId: string) returns (r: Doc)
      requires IsClientePayload(payload) && ValidDate(today) && InRange(today)
      requires newId !in clientes
      modifies this
      ensures clientes == old(clientes)[newId := NewCliente(payload, today)]
      ensures r == WithId(newId, NewCliente(payload, today))
    {
      var data := NewCliente(payload, today);
      clientes := clientes[newId := data];
      r := WithId(newId, data);
    }

    /** `update_cliente`: None for a missing id (nothing changes); otherwise the non-None
        payload fields are merged in and the normalised document is returned. */
    method UpdateCliente(clienteId: string, payload: Doc) returns (r: Option<Normalized>)
      modifies this
      ensures r.None? <==> clienteId !in old(clientes)
      ensures r.None? ==> clientes == old(clientes)
      ensures r.Some? ==> clientes == old(clientes)[clienteId := Merge(old(clientes)[clienteId], NonNull(payload))]
                          && r == GetCliente(clienteId)
    {
      if clienteId !in clientes {
        return None;
      }
      var data := NonNull(payload);
      if data != map[] {
        clientes := clientes[clienteId := Merge(clientes[clienteId], data)];
      } else {
        MergeNonNullKeeps(clientes[clienteId], payload);
      }
      r := GetCliente(clienteId);
    }

    /** `delete_cliente`: false for a missing id; a hard delete removes the document, a soft
        one keeps it with `estado` INACTIVO. */
    method DeleteCliente(clienteId: string, hard: bool) returns (ok: bool)
      modifies this
      ensures ok <==> clienteId in old(clientes)
      ensures !ok ==> clientes == old(clientes)
      ensures ok && hard ==> clientes == old(clientes) - {clienteId}
      ensures ok && !hard ==> clientes == old(clientes)[clienteId := old(clientes)[clienteId]["estado" := Str("INACTIVO")]]
    {
      if clienteId !in clientes {
        return false;
      }
      if hard {
        clientes := clientes - {clienteId};
      } else {
        var current := clientes[clienteId];
        assert Merge(current, map["estado" := Str("INACTIVO")]) == current["estado" := Str("INACTIVO")];
        clientes := clientes[clienteId := Merge(current, map["estado" := Str("INACTIVO")])];
      }
      ok := true;
    }
  }
}
