/** The transfers HTTP handlers (transferencias-service/app/routers/transferencias.py):
    the POST handler's dispatch on `tipo` with the schema checks it triggers, and the
    404 rule of the GET-by-id handler. */
module TransferRouter {
  import opened Common
  import opened TransferSchemas
  import opened TransferLedger
  import opened TransferService

  /** A JSON value of the request body, as far as the schemas look at it. */
  datatype Json = JNull | JStr(s: string) | JNum(n: int) | JBool(b: bool)

  type Body = map<string, Json>

  /** 422 for a ValueError (unknown tipo or a failed schema check); 500 for a body
      without a "tipo" key, whose KeyError the handler does not catch. */
  datatype Rejection = Unprocessable | MissingTipo

  datatype Validated = Valid(request: Solicitud) | Invalid(rejection: Rejection)

  /** A required `str` field. */
  function RequiredStr(body: Body, key: string): (r: Option<string>)
    ensures r.Some? <==> key in body && body[key].JStr?
    ensures r.Some? ==> body[key] == JStr(r.value)
  {
    if key in body && body[key].JStr? then Some(body[key].s) else None
  }

  /** `descripcion: Optional[str] = None`: absent or null is None, a string is kept,
      anything else fails validation (outer None). */
  function OptionalStr(body: Body, key: string): (r: Option<Option<string>>)
    ensures r == Some(None) <==> key !in body || body[key] == JNull
    ensures r.Some? && r.value.Some? <==> key in body && body[key].JStr?
    ensures r.Some? && r.value.Some? ==> body[key] == JStr(r.value.value)
  {
    if key !in body || body[key] == JNull then Some(None)
    else if body[key].JStr? then Some(Some(body[key].s))
    else None
  }

  /** The number pydantic's lax `float` validation reads from a JSON value: a number as it
      is, a non-empty string of decimal digits as the number it spells, `true` as 1 and
      `false` as 0; null and any other string are refused. */
  function LaxNumber(j: Json): (r: Option<int>)
    ensures j.JNum? ==> r == Some(j.n)
    ensures j.JBool? ==> r == Some(if j.b then 1 else 0)
    ensures j.JStr? ==> (r.Some? <==> j.s != [] && IsDigits(j.s))
    ensures j.JStr? && r.Some? ==> r.value == DigitsValue(j.s)
    ensures j.JNull? ==> r.None?
  {
    match j
    case JNum(n) => Some(n)
    case JBool(b) => Some(if b then 1 else 0)
    case JStr(t) => if t != [] && IsDigits(t) then Some(DigitsValue(t)) else None
    case JNull => None
  }

  /** `monto: float = Field(..., gt=0)`. */
  function PositiveAmount(body: Body): (r: Option<Monto>)
    ensures r.Some? <==> "monto" in body && LaxNumber(body["monto"]).Some? && LaxNumber(body["monto"]).value > 0
    ensures r.Some? ==> LaxNumber(body["monto"]) == Some(r.value as int)
  {
    if "monto" in body then
      match LaxNumber(body["monto"])
      case Some(n) => if n > 0 then Some(n as Monto) else None
      case None => None
    else None
  }

  /** An amount sent as its decimal numeral is accepted as that amount, `true` as 1, and
      `false` is refused. */
  lemma LaxAmounts(body: Body, n: nat, k: nat)
    requires 0 < n < Pow10(k)
    ensures PositiveAmount(body["monto" := JStr(Digits(n, k))]) == Some(n)
    ensures PositiveAmount(body["monto" := JBool(true)]) == Some(1)
    ensures PositiveAmount(body["monto" := JBool(false)]).None?
  {
    var t := Digits(n, k);
    assert Pow10(0) == 1;
    DigitsRoundTrip(n, k);
    ModOfSmaller(n, Pow10(k));
    assert LaxNumber(JStr(t)) == Some(n);
  }

  /** Every field the schema of `tipo` declares reads from the body; other keys are
      ignored. */
  predicate FieldsRead(tipo: Tipo, body: Body) {
    && RequiredStr(body, "cuenta_origen_id").Some?
    && PositiveAmount(body).Some?
    && OptionalStr(body, "descripcion").Some?
    && if tipo == Interbancaria then
         RequiredStr(body, "banco_destino").Some? && RequiredStr(body, "nro_cuenta_externa").Some?
       else RequiredStr(body, "cuenta_destino_id").Some?
  }

  /** Builds one of the two request shapes for an already dispatched `tipo`. */
  function CheckShape(tipo: Tipo, body: Body): (v: Validated)
    ensures v.Valid? <==> FieldsRead(tipo, body)
    ensures v.Invalid? ==> v.rejection == Unprocessable
    ensures v.Valid? ==> v.request.tipo == tipo
    ensures v.Valid? ==> (tipo == Interbancaria <==> v.request.destino.Externa?)
    ensures v.Valid? ==> "cuenta_origen_id" in body && body["cuenta_origen_id"] == JStr(v.request.cuentaOrigenId)
                         && "monto" in body && LaxNumber(body["monto"]) == Some(v.request.monto as int)
    ensures v.Valid? ==> v.request.descripcion == OptionalStr(body, "descripcion").value
    ensures v.Valid? && v.request.destino.Cuenta?
            ==> "cuenta_destino_id" in body && body["cuenta_destino_id"] == JStr(v.request.destino.cuentaDestinoId)
    ensures v.Valid? && v.request.destino.Externa?
            ==> "banco_destino" in body && body["banco_destino"] == JStr(v.request.destino.bancoDestino)
                && "nro_cuenta_externa" in body && body["nro_cuenta_externa"] == JStr(v.request.destino.nroCuentaExterna)
  {
    var origen := RequiredStr(body, "cuenta_origen_id");
    var monto := PositiveAmount(body);
    var desc := OptionalStr(body, "descripcion");
    if origen.None? || monto.None? || desc.None? then Invalid(Unprocessable)
    else if tipo != Interbancaria then
      var destino := RequiredStr(body, "cuenta_destino_id");
      if destino.None? then Invalid(Unprocessable)
      else Valid(Solicitud(tipo, origen.value, monto.value, desc.value, Cuenta(destino.value)))
    else
      var banco := RequiredStr(body, "banco_destino");
      var nro := RequiredStr(body, "nro_cuenta_externa");
      if banco.None? || nro.None? then Invalid(Unprocessable)
      else Valid(Solicitud(tipo, origen.value, monto.value, desc.value, Externa(banco.value, nro.value)))
  }

  /** The handler's try block: dispatch on `body["tipo"]`, then validate that shape. */
  function Validate(body: Body): (v: Validated)
    // valid exactly when `tipo` is one of the three literals and its schema's fields read
    ensures v.Valid? <==>
              "tipo" in body && body["tipo"].JStr? && ParseTipo(body["tipo"].s).Some?
              && FieldsRead(ParseTipo(body["tipo"].s).value, body)
    ensures "tipo" !in body ==> v == Invalid(MissingTipo)
    ensures "tipo" in body && !(body["tipo"].JStr? && ParseTipo(body["tipo"].s).Some?)
            ==> v == Invalid(Unprocessable)
    ensures v.Valid? ==> "tipo" in body && body["tipo"] == JStr(TipoName(v.request.tipo))
    ensures v.Valid? ==> "cuenta_origen_id" in body && body["cuenta_origen_id"] == JStr(v.request.cuentaOrigenId)
                         && "monto" in body && LaxNumber(body["monto"]) == Some(v.request.monto as int)
    ensures v.Valid? ==> v.request.descripcion == OptionalStr(body, "descripcion").value
    ensures v.Valid? && v.request.destino.Cuenta?
            ==> v.request.tipo in {Propia, Terceros}
                && "cuenta_destino_id" in body && body["cuenta_destino_id"] == JStr(v.request.destino.cuentaDestinoId)
    ensures v.Valid? && v.request.destino.Externa?
            ==> v.request.tipo == Interbancaria
                && "banco_destino" in body && body["banco_destino"] == JStr(v.request.destino.bancoDestino)
                && "nro_cuenta_externa" in body && body["nro_cuenta_externa"] == JStr(v.request.destino.nroCuentaExterna)
    ensures "monto" !in body || LaxNumber(body["monto"]).None? || LaxNumber(body["monto"]).value <= 0 ==> v.Invalid?
  {
    if "tipo" !in body then Invalid(MissingTipo)
    else if !body["tipo"].JStr? then Invalid(Unprocessable)
    else match ParseTipo(body["tipo"].s)
      case None => Invalid(Unprocessable)
      case Some(t) => CheckShape(t, body)
  }

  /** The JSON body a client sends for a request. */
  function Encode(s: Solicitud): (body: Body)
    ensures "tipo" in body && "monto" in body
  {
    var common := map["tipo" := JStr(TipoName(s.tipo)), "cuenta_origen_id" := JStr(s.cuentaOrigenId),
                      "monto" := JNum(s.monto),
                      "descripcion" := if s.descripcion.Some? then JStr(s.descripcion.value) else JNull];
    match s.destino
    case Cuenta(d) => common["cuenta_destino_id" := JStr(d)]
    case Externa(b, n) => common["banco_destino" := JStr(b)]["nro_cuenta_externa" := JStr(n)]
  }

  /** Every request whose shape matches its `tipo` survives validation unchanged. */
  lemma ValidateEncode(s: Solicitud)
    requires s.tipo == Interbancaria <==> s.destino.Externa?
    ensures Validate(Encode(s)) == Valid(s)
  {
    assert ParseTipo(TipoName(s.tipo)) == Some(s.tipo);
  }

  /** A `tipo` outside the three literals is refused with 422 whatever else the body holds. */
  lemma UnknownTipoRejected(body: Body, t: string)
    requires "tipo" in body && body["tipo"] == JStr(t)
    requires t !in {"PROPIA", "TERCEROS", "INTERBANCARIA"}
    ensures Validate(body) == Invalid(Unprocessable)
  {
  }

  /** What a handler answers. */
  datatype Response =
    | Ok(record: Transferencia)
    | Status(code: int)

  function FailureCode(f: Failure): int {
    match f
    case Forbidden => 403
    case InsufficientBalance => 400
    case ServerError => 500
  }

  /** `create_transferencia`: a body that fails validation is answered without calling the
      service, so no request reaches the accounts service and nothing is written. */
  method CreateTransferencia(service: TransferenciasService, body: Body, uid: string,
                             net: Network, fecha: int, newId: string)
    returns (resp: Response)
    requires service.repo.Valid() && newId !in Ids(service.repo.docs)
    modifies service.repo, service.gw
    ensures service.repo.Valid()
    ensures Validate(body).Invalid? ==>
              resp == Status(if Validate(body).rejection == Unprocessable then 422 else 500)
              && service.gw.log == old(service.gw.log) && service.gw.cuentas == old(service.gw.cuentas)
              && service.repo.docs == old(service.repo.docs)
    ensures Validate(body).Valid? ==>
              var a := Run(Validate(body).request, uid, old(service.gw.cuentas), net, fecha, newId);
              && resp == (if a.result.Created? then Ok(a.result.record) else Status(FailureCode(a.result.failure)))
              && service.gw.log == old(service.gw.log) + a.calls
              && service.gw.cuentas == a.cuentas
              && service.repo.docs == old(service.repo.docs) + (if a.written.Some? then [a.written.value] else [])
  {
    var v := Validate(body);
    if v.Invalid? {
      return Status(if v.rejection == Unprocessable then 422 else 500);
    }
    var r := service.Create(v.request, uid, net, fecha, newId);
    resp := if r.Created? then Ok(r.record) else Status(FailureCode(r.failure));
  }

  /** `get_transferencia`: 404 when the service finds nothing. */
  function GetTransferencia(service: TransferenciasService, id: string, uid: string): (resp: Response)
    reads service.repo
    ensures resp == Status(404) <==> id !in Ids(service.repo.docs)
    ensures resp.Ok? ==> resp.record in service.repo.docs && resp.record.id == id
  {
    match service.GetById(id, uid)
    case None => Status(404)
    case Some(t) => Ok(t)
  }
}
