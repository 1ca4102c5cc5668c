/** The transfers collection (transferencias-service/app/repos/transferencias_repo.py).
    Documents are kept in stream order; each carries its document id. */
module TransferLedger {
  import opened Common
  import opened TransferSchemas

  function Ids(docs: seq<Transferencia>): (ids: seq<string>)
    ensures |ids| == |docs|
    ensures forall i :: 0 <= i < |docs| ==> ids[i] == docs[i].id
  {
    if docs == [] then [] else [docs[0].id] + Ids(docs[1..])
  }

  /** Firestore document ids are unique within the collection. */
  predicate UniqueIds(docs: seq<Transferencia>) {
    Distinct(Ids(docs))
  }

  predicate Touches(t: Transferencia, cuentaId: string) {
    t.cuentaOrigenId == cuentaId || t.cuentaDestinoId == Some(cuentaId)
  }

  /** `where("cuenta_origen_id", "==", c)`. */
  function OrigenMatches(docs: seq<Transferencia>, c: string): (r: seq<Transferencia>)
    ensures forall t :: t in r <==> t in docs && t.cuentaOrigenId == c
  {
    if docs == [] then []
    else (if docs[0].cuentaOrigenId == c then [docs[0]] else []) + OrigenMatches(docs[1..], c)
  }

  /** `where("cuenta_destino_id", "==", c)`: a record without a destination account never matches. */
  function DestinoMatches(docs: seq<Transferencia>, c: string): (r: seq<Transferencia>)
    ensures forall t :: t in r <==> t in docs && t.cuentaDestinoId == Some(c)
  {
    if docs == [] then []
    else (if docs[0].cuentaDestinoId == Some(c) then [docs[0]] else []) + DestinoMatches(docs[1..], c)
  }

  lemma IdsAppend(a: seq<Transferencia>, b: seq<Transferencia>)
    ensures Ids(a + b) == Ids(a) + Ids(b)
  {
    var lhs := Ids(a + b);
    var rhs := Ids(a) + Ids(b);
    forall i | 0 <= i < |lhs| ensures lhs[i] == rhs[i] {
      if i < |a| {
        assert (a + b)[i] == a[i];
      } else {
        assert (a + b)[i] == b[i - |a|];
      }
    }
  }

  lemma IdsHasDoc(docs: seq<Transferencia>, id: string)
    requires id in Ids(docs)
    ensures exists u :: u in docs && u.id == id
  {
    var i :| 0 <= i < |docs| && Ids(docs)[i] == id;
    assert docs[i] in docs;
  }

  lemma UniqueSnoc(init: seq<Transferencia>, last: Transferencia)
    requires UniqueIds(init) && last.id !in Ids(init)
    ensures UniqueIds(init + [last])
  {
    IdsAppend(init, [last]);
    assert Ids([last]) == [last.id];
  }

  /** `{doc.id: ... for doc in docs}.values()`: one entry per id, in the order ids first appear. */
  function DedupById(s: seq<Transferencia>): (r: seq<Transferencia>)
    ensures UniqueIds(r)
    ensures forall t :: t in r ==> t in s
    ensures forall t :: t in s ==> t.id in Ids(r)
  {
    if s == [] then []
    else
      var init := DedupById(s[..|s| - 1]);
      var last := s[|s| - 1];
      assert forall t :: t in s ==> t in s[..|s| - 1] || t == last;
      if last.id in Ids(init) then init
      else
        var r := init + [last];
        UniqueSnoc(init, last);
        IdsAppend(init, [last]);
        r
  }

  /** Dropping the first document keeps ids unique, and its id does not occur again. */
  lemma UniqueTail(s: seq<Transferencia>)
    requires s != [] && UniqueIds(s)
    ensures UniqueIds(s[1..]) && s[0].id !in Ids(s[1..])
  {
    assert forall i :: 0 <= i < |s| - 1 ==> Ids(s[1..])[i] == Ids(s)[i + 1];
  }

  /** Every document of a sequence contributes its id. */
  lemma IdsCover(r: seq<Transferencia>, s: seq<Transferencia>)
    requires forall t :: t in r ==> t in s
    ensures forall id :: id in Ids(r) ==> id in Ids(s)
  {
    forall id | id in Ids(r) ensures id in Ids(s) {
      var i :| 0 <= i < |r| && Ids(r)[i] == id;
      assert r[i] in r;
      var j :| 0 <= j < |s| && s[j] == r[i];
      assert Ids(s)[j] == id;
    }
  }

  /** `[t for t in ts if t.tipo == tipo]`. */
  function OfTipo(s: seq<Transferencia>, tipo: string): (r: seq<Transferencia>)
    ensures forall t :: t in r <==> t in s && TipoName(t.tipo) == tipo
    ensures Ids(r) == [] || (UniqueIds(s) ==> UniqueIds(r))
  {
    if s == [] then []
    else
      var rest := OfTipo(s[1..], tipo);
      if TipoName(s[0].tipo) == tipo then
        var r := [s[0]] + rest;
        assert Ids(r) == [s[0].id] + Ids(rest);
        assert UniqueIds(s) ==> UniqueIds(r) by {
          if UniqueIds(s) {
            UniqueTail(s);
            IdsCover(rest, s[1..]);
          }
        }
        r
      else
        assert UniqueIds(s) ==> UniqueIds(rest) by {
          if UniqueIds(s) {
            UniqueTail(s);
          }
        }
        rest
  }

  /** `get_all(cuenta_id, tipo)`: the union of the origin and destination matches,
      de-duplicated by id, then narrowed to `tipo`; with no account filter, every document
      narrowed to `tipo`. */
  function Query(docs: seq<Transferencia>, cuentaId: Option<string>, tipo: Option<string>)
    : (r: seq<Transferencia>)
    ensures forall t :: t in r ==> t in docs
    ensures Given(cuentaId) ==> forall t :: t in r ==> Touches(t, cuentaId.value)
    ensures Given(tipo) ==> forall t :: t in r ==> TipoName(t.tipo) == tipo.value
    ensures Given(cuentaId) || UniqueIds(docs) ==> UniqueIds(r)
    ensures !Given(cuentaId) && !Given(tipo) ==> r == docs
  {
    var base :=
      if Given(cuentaId) then
        DedupById(OrigenMatches(docs, cuentaId.value) + DestinoMatches(docs, cuentaId.value))
      else docs;
    if Given(tipo) then OfTipo(base, tipo.value) else base
  }

  lemma IdsMember(docs: seq<Transferencia>, t: Transferencia)
    requires t in docs
    ensures t.id in Ids(docs)
  {
    var i :| 0 <= i < |docs| && docs[i] == t;
    assert Ids(docs)[i] == t.id;
  }

  /** Two stored documents with the same id are the same document. */
  lemma SameIdSameDoc(docs: seq<Transferencia>, t: Transferencia, u: Transferencia)
    requires UniqueIds(docs) && t in docs && u in docs && t.id == u.id
    ensures t == u
  {
    var i :| 0 <= i < |docs| && docs[i] == t;
    var j :| 0 <= j < |docs| && docs[j] == u;
    assert Ids(docs)[i] == Ids(docs)[j];
  }

  /** Every stored document that matches all given filters is returned. */
  lemma QueryComplete(docs: seq<Transferencia>, cuentaId: Option<string>, tipo: Option<string>,
                      t: Transferencia)
    requires UniqueIds(docs) && t in docs
    requires Given(cuentaId) ==> Touches(t, cuentaId.value)
    requires Given(tipo) ==> TipoName(t.tipo) == tipo.value
    ensures t in Query(docs, cuentaId, tipo)
  {
    if Given(cuentaId) {
      var c := cuentaId.value;
      var both := OrigenMatches(docs, c) + DestinoMatches(docs, c);
      assert t in both;
      IdsHasDoc(DedupById(both), t.id);
      var u :| u in DedupById(both) && u.id == t.id;
      assert u in docs;
      SameIdSameDoc(docs, t, u);
    }
  }

  /** `get_by_id`: the document with that id, or None. */
  function Find(docs: seq<Transferencia>, id: string): (r: Option<Transferencia>)
    ensures r.None? <==> id !in Ids(docs)
    ensures r.Some? ==> r.value in docs && r.value.id == id
  {
    if docs == [] then None
    else if docs[0].id == id then Some(docs[0])
    else
      assert Ids(docs) == [docs[0].id] + Ids(docs[1..]);
      Find(docs[1..], id)
  }

  /** The fields `update(transferencia_id, data)` may carry; None leaves a field alone. */
  datatype Patch = Patch(
    tipo: Option<Tipo>,
    cuentaOrigenId: Option<string>,
    monto: Option<Monto>,
    descripcion: Option<Option<string>>,
    cuentaDestinoId: Option<Option<string>>,
    bancoDestino: Option<Option<string>>,
    nroCuentaExterna: Option<Option<string>>,
    fecha: Option<int>,
    estado: Option<Estado>)

  function Pick<T>(o: Option<T>, keep: T): T {
    if o.Some? then o.value else keep
  }

  /** Firestore `update`: the given fields replace the stored ones; the id never changes. */
  function ApplyPatch(t: Transferencia, p: Patch): (u: Transferencia)
    // the document id is not a field, so no patch changes it
    ensures u.id == t.id
    // every field the patch names takes the patched value; every other field is kept
    ensures u.tipo == (if p.tipo.Some? then p.tipo.value else t.tipo)
    ensures u.cuentaOrigenId == (if p.cuentaOrigenId.Some? then p.cuentaOrigenId.value else t.cuentaOrigenId)
    ensures u.monto == (if p.monto.Some? then p.monto.value else t.monto)
    ensures u.descripcion == (if p.descripcion.Some? then p.descripcion.value else t.descripcion)
    ensures u.cuentaDestinoId == (if p.cuentaDestinoId.Some? then p.cuentaDestinoId.value else t.cuentaDestinoId)
    ensures u.bancoDestino == (if p.bancoDestino.Some? then p.bancoDestino.value else t.bancoDestino)
    ensures u.nroCuentaExterna == (if p.nroCuentaExterna.Some? then p.nroCuentaExterna.value else t.nroCuentaExterna)
    ensures u.fecha == (if p.fecha.Some? then p.fecha.value else t.fecha)
    ensures u.estado == (if p.estado.Some? then p.estado.value else t.estado)
    ensures p == Patch(None, None, None, None, None, None, None, None, None) ==> u == t
  {
    Transferencia(t.id, Pick(p.tipo, t.tipo), Pick(p.cuentaOrigenId, t.cuentaOrigenId),
                  Pick(p.monto, t.monto), Pick(p.descripcion, t.descripcion),
                  Pick(p.cuentaDestinoId, t.cuentaDestinoId), Pick(p.bancoDestino, t.bancoDestino),
                  Pick(p.nroCuentaExterna, t.nroCuentaExterna), Pick(p.fecha, t.fecha),
                  Pick(p.estado, t.estado))
  }

  /** The collection after patching the document with that id; every other document is
      unchanged. */
  function PatchById(docs: seq<Transferencia>, id: string, p: Patch): (r: seq<Transferencia>)
    ensures |r| == |docs|
    ensures forall i :: 0 <= i < |docs| ==>
              r[i] == if docs[i].id == id then ApplyPatch(docs[i], p) else docs[i]
  {
    seq(|docs|, i requires 0 <= i < |docs| => if docs[i].id == id then ApplyPatch(docs[i], p) else docs[i])
  }

  /** Patching never changes an id, so the ids stay the same (and unique). */
  lemma PatchByIdIds(docs: seq<Transferencia>, id: string, p: Patch)
    ensures Ids(PatchById(docs, id, p)) == Ids(docs)
  {
    var r := PatchById(docs, id, p);
    forall i | 0 <= i < |docs| ensures Ids(r)[i] == Ids(docs)[i] {
      assert r[i].id == docs[i].id;
    }
  }

  class TransferenciasRepo {
    var docs: seq<Transferencia>

    ghost predicate Valid()
      reads this
    {
      UniqueIds(docs)
    }

    constructor ()
      ensures Valid() && docs == []
    {
      docs := [];
    }

    function GetAll(cuentaId: Option<string>, tipo: Option<string>): seq<Transferencia>
      reads this
    {
      Query(docs, cuentaId, tipo)
    }

    function GetById(id: string): Option<Transferencia>
      reads this
    {
      Find(docs, id)
    }

    /** `collection.add(data)`: stores the document under the id the store assigns
        (`newId`, fresh) and returns that id; nothing already stored changes. */
    method Create(data: Transferencia, newId: string) returns (id: string)
      requires Valid() && newId !in Ids(docs)
      modifies this
      ensures Valid()
      ensures id == newId
      ensures docs == old(docs) + [data.(id := newId)]
    {
      var stored := data.(id := newId);
      assert Ids(docs + [stored]) == Ids(docs) + [newId];
      docs := docs + [stored];
      id := newId;
    }

    /** `document(id).update(data)`: only the patched fields of that document change;
        `found` is false where Firestore raises NotFound, and then nothing changes. */
    method Update(id: string, p: Patch) returns (found: bool)
      requires Valid()
      modifies this
      ensures Valid()
      ensures found <==> id in Ids(old(docs))
      ensures docs == PatchById(old(docs), id, p)
    {
      found := id in Ids(docs);
      PatchByIdIds(docs, id, p);
      docs := PatchById(docs, id, p);
    }
  }
}
