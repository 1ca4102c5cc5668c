/** Account and movement records of the accounts service (cuentas-service/app/models.py).
    Amounts are whole numbers of the currency unit; datetimes are epoch seconds. */
module CuentasModels {
  import opened Common

  datatype TipoCuenta = Ahorro | Corriente

  datatype Moneda = Bob | Usd

  datatype EstadoCuenta = Activa | Bloqueada | Cerrada

  datatype TipoMovimiento = Deposito | Retiro | TransferenciaEntrada | TransferenciaSalida | PagoServicio

  /** `Cuenta`: `id` is None until the document is read back from the store. */
  datatype Cuenta = Cuenta(
    id: Option<string>,
    clienteId: string,
    numeroCuenta: string,
    tipo: TipoCuenta,
    moneda: Moneda,
    saldo: int,
    estado: EstadoCuenta,
    fechaApertura: int,
    createdAt: int,
    updatedAt: int)

  /** `Cuenta(cliente_id=..., numero_cuenta=...)` with every other field left to its
      default; the three datetimes default to the moment of construction. */
  function NuevaCuenta(clienteId: string, numeroCuenta: string, now: int): (c: Cuenta)
    ensures c.id.None? && c.clienteId == clienteId && c.numeroCuenta == numeroCuenta
    ensures c.saldo == 0 && c.tipo == Ahorro && c.moneda == Bob && c.estado == Activa
    ensures c.fechaApertura == now && c.createdAt == now && c.updatedAt == now
  {
    Cuenta(None, clienteId, numeroCuenta, Ahorro, Bob, 0, Activa, now, now, now)
  }

  /** `Movimiento`: one balance change of one account, with the balance before and after. */
  datatype Movimiento = Movimiento(
    id: Option<string>,
    cuentaId: string,
    tipo: TipoMovimiento,
    monto: int,
    saldoAnterior: int,
    saldoNuevo: int,
    descripcion: string,
    referencia: Option<string>,
    fecha: int,
    createdAt: int)
}
