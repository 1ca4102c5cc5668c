# Banking and HR microservices — a Dafny model

This project models the core logic of a set of small FastAPI services that together run
a toy bank and an HR back office:

- **transferencias-service** — validates a transfer request by its `tipo`
  (PROPIA, TERCEROS, INTERBANCARIA), checks that the caller owns the source account,
  checks its balance with the accounts service, withdraws and deposits through that
  service's HTTP endpoints, and writes exactly one ledger record per attempt that passes
  the checks. Reads return the union of origin/destination matches de-duplicated by id.
- **cuentas-service** — the accounts store: unique ten-digit account numbers, filtered
  listings, partial updates, soft delete (CERRADA), and movements listed newest first
  with a limit.
- **pagos-service** — a service payment: a debit request to the accounts service (with
  a simulation rule for payments up to 1000), a simulated provider, and one stored
  payment document per request.
- **prestamos-service** — loans, approved automatically up to 20000, otherwise put in
  evaluation; updates touch `estado` only.
- **fastapi-oauth** — role guards (`require_roles`, `require_self_or_roles`), the users
  collection (username derivation, the first user becomes HR_ADMIN, later logins merge
  without touching roles), clients (defaults, merge of non-None fields, soft and hard
  delete, `fecha_alta` normalised to an ISO date), the HR store (positions, employees
  with unique e-mails, contracts with reference checks), and linking Google sign-ins to
  staff rows.

Firestore collections and SQL tables are modelled as Dafny maps or sequences held in
class fields that the methods update; stored documents of the dict-based repositories
are `map<string, Value>`. The accounts service, as the transfers service reaches it, is a
class over a map from account id to owner and balance plus the log of every request
sent, so the order and effect of each HTTP call is part of every contract. Clocks,
random draws, uuids and Firestore auto-ids, and whether each network request gets
through, are parameters. Amounts are whole numbers; timestamps are epoch seconds.

Files: `common.dfy` (options, Python truthiness of filters, slicing, decimal digits),
`authz.dfy`, `transfer_schemas.dfy`, `transfer_router.dfy`, `transfer_ledger.dfy`,
`accounts_gateway.dfy`, `transfer_service.dfy`, `cuentas_models.dfy`,
`cuentas_repo.dfy`, `pagos.dfy`, `prestamos.dfy`, `documents.dfy`, `users_repo.dfy`,
`civil_dates.dfy` (the calendar arithmetic behind `date.isoformat()`),
`clientes_repo.dfy`, `people_repo.dfy`, `auth_service.dfy`.

## Model

| member | source | states |
|---|---|---|
| Authz.RoleName | fastapi-oauth/app/authz.py:8-11 | HR_ADMIN, MANAGER and EMPLOYEE name exactly their own role each, so distinct roles have distinct names |
| Authz.AnyHeld | fastapi-oauth/app/authz.py:13-15 | true exactly when some allowed role is in the held set |
| Authz.HasAnyRole | fastapi-oauth/app/authz.py:13-15 | true iff the user has a role list and it shares a role with the allowed list; a missing or empty role list, or no allowed roles, never passes |
| Authz.RequireRoles | fastapi-oauth/app/authz.py:17-30 | admits iff the user holds one of the allowed roles, and then hands back the same user; otherwise 403 |
| Authz.RequireSelfOrRoles | fastapi-oauth/app/authz.py:32-49 | admits iff the owner parameter is present, non-empty and equal to the caller's uid, or the caller holds an allowed role; otherwise 403 |
| Authz.EmptyOwnerGrantsNothing | fastapi-oauth/app/authz.py:43-45 | with the owner parameter missing or empty, the self-or-roles guard admits exactly whom the plain roles guard admits |
| TransferSchemas.TipoName | transferencias-service/app/schemas.py:6 | parsing the printed literal gives the same `tipo` back (round trip) |
| TransferSchemas.ParseTipo | transferencias-service/app/schemas.py:6 | accepts exactly the three literals, each mapping to its own `tipo`; anything else is rejected |
| TransferSchemas.Record | transferencias-service/app/services/transferencias_service.py:45-51 | the stored record carries the request's fields, the given id, date and estado; intra-bank requests fill the destination account and leave the external fields empty, interbank ones the reverse |
| TransferRouter.RequiredStr | transferencias-service/app/schemas.py:7 | a value is read iff the key is present with a string, and it is that string |
| TransferRouter.OptionalStr | transferencias-service/app/schemas.py:9 | absent or null reads as None, a string is kept, any other value fails validation |
| TransferRouter.LaxNumber | transferencias-service/app/schemas.py:8 | lax float reading: a JSON number as it is, a non-empty digit string as the number it spells, `true` as 1 and `false` as 0; null and other strings are refused |
| TransferRouter.PositiveAmount | transferencias-service/app/schemas.py:8 | an amount is read iff `monto` reads as a number (lax float) greater than zero, and it is that number |
| TransferRouter.LaxAmounts | transferencias-service/app/schemas.py:8 | an amount sent as its decimal numeral is accepted as that amount, `true` as 1, and `false` is refused |
| TransferRouter.CheckShape | transferencias-service/app/schemas.py:11-16 | valid exactly when every field of the `tipo`'s schema reads (origin, a positive lax-float amount, an optional string description, and the destination fields of that tipo), whatever other keys the body holds; a validated request has the dispatched `tipo`, an external destination exactly for INTERBANCARIA, string fields and description equal to the body's and the amount `monto` reads as; failures are 422 |
| TransferRouter.Validate | transferencias-service/app/routers/transferencias.py:39-46 | valid exactly when `tipo` is one of the three literals and its schema's fields read; no `tipo` key gives 500, an unknown or non-string `tipo` 422; a validated request agrees with the body field by field, the description included and the amount as lax float reads it, and a missing, unreadable or non-positive amount is never validated |
| TransferRouter.Encode | transferencias-service/app/schemas.py:5-16 | the body a client sends carries `tipo` and `monto` |
| TransferRouter.ValidateEncode | transferencias-service/app/routers/transferencias.py:39-46 | every well-shaped request survives encoding and validation unchanged (round trip) |
| TransferRouter.UnknownTipoRejected | transferencias-service/app/routers/transferencias.py:45-46 | a `tipo` outside the three literals is answered 422 whatever else the body holds |
| TransferRouter.CreateTransferencia | transferencias-service/app/routers/transferencias.py:31-48 | an invalid body is answered 422/500 with no request sent and nothing written; a valid one has exactly the effect of `TransferService.Run`, answered with the record or the failure's status code |
| TransferRouter.GetTransferencia | transferencias-service/app/routers/transferencias.py:19-29 | 404 exactly when no stored record has that id; otherwise the stored record with that id |
| TransferLedger.Ids | transferencias-service/app/repos/transferencias_repo.py:19 | the ids of the documents, position by position |
| TransferLedger.OrigenMatches | transferencias-service/app/repos/transferencias_repo.py:15 | exactly the documents whose origin account is the given one |
| TransferLedger.DestinoMatches | transferencias-service/app/repos/transferencias_repo.py:16 | exactly the documents whose destination account is the given one; records without a destination never match |
| TransferLedger.DedupById | transferencias-service/app/repos/transferencias_repo.py:19 | the result has unique ids, contains only input documents, and keeps one document for every input id |
| TransferLedger.OfTipo | transferencias-service/app/repos/transferencias_repo.py:23-24 | exactly the input documents of that `tipo`; unique ids are preserved |
| TransferLedger.Query | transferencias-service/app/repos/transferencias_repo.py:10-25 | every result is stored, touches the given account and has the given `tipo`; with an account filter the result has unique ids; with no filters it is the whole collection |
| TransferLedger.QueryComplete | transferencias-service/app/repos/transferencias_repo.py:10-25 | every stored document that passes all given filters is returned (completeness, the partner of Query's soundness) |
| TransferLedger.SameIdSameDoc | transferencias-service/app/repos/transferencias_repo.py:19 | in a collection with unique ids, one id names one document |
| TransferLedger.IdsMember | transferencias-service/app/repos/transferencias_repo.py:19 | a stored document's id is among the collection's ids |
| TransferLedger.Find | transferencias-service/app/repos/transferencias_repo.py:27-31 | None iff no document has the id; otherwise a stored document with that id |
| TransferLedger.ApplyPatch | transferencias-service/app/repos/transferencias_repo.py:37-38 | the id never changes; each of the nine fields takes the patched value when the patch names it and keeps its value otherwise; an empty patch changes nothing |
| TransferLedger.PatchById | transferencias-service/app/repos/transferencias_repo.py:37-38 | same length; exactly the documents with that id are patched, all others unchanged |
| TransferLedger.PatchByIdIds | transferencias-service/app/repos/transferencias_repo.py:37-38 | patching keeps every id in place, so unique ids stay unique |
| TransferLedger.TransferenciasRepo.constructor | transferencias-service/app/repos/transferencias_repo.py:6-8 | an empty collection with unique ids |
| TransferLedger.TransferenciasRepo.Create | transferencias-service/app/repos/transferencias_repo.py:33-35 | appends the document under the fresh id and returns that id; ids stay unique and nothing stored changes |
| TransferLedger.TransferenciasRepo.Update | transferencias-service/app/repos/transferencias_repo.py:37-38 | `found` iff the id is stored; exactly the documents with that id are patched, every other document is unchanged, ids stay unique |
| AccountsGateway.Apply | transferencias-service/app/services/transferencias_service.py:59-69 | an accepted deposit/withdrawal moves only the named account's balance, by exactly the amount; a refused one changes nothing |
| AccountsGateway.TotalRemove | transferencias-service/app/services/transferencias_service.py:59-69 | the sum of balances splits into one account's balance plus the rest |
| AccountsGateway.TotalSet | transferencias-service/app/services/transferencias_service.py:59-69 | changing one balance changes the bank's total by the same amount |
| AccountsGateway.TotalApply | transferencias-service/app/services/transferencias_service.py:59-69 | an accepted request changes the bank's total by its signed amount, a refused one by nothing |
| AccountsGateway.Gateway.constructor | transferencias-service/app/services/transferencias_service.py:53-77 | starts from the given accounts with an empty request log |
| AccountsGateway.Gateway.FetchCuenta | transferencias-service/app/services/transferencias_service.py:71-77 | logs one GET; a transport failure iff the request fails in transport; on status 200 the owner of a known account, on any other status (an unknown account, or an error status) None; balances unchanged |
| AccountsGateway.Gateway.CheckSaldo | transferencias-service/app/services/transferencias_service.py:53-57 | logs one validar-saldo request; answers iff it gets through to a known account, and the answer is "balance ≥ amount"; balances unchanged |
| AccountsGateway.Gateway.Send | transferencias-service/app/services/transferencias_service.py:63-69 | logs the request; succeeds iff accepted, and the accounts become `Apply` of the old ones |
| TransferService.UpdateCall | transferencias-service/app/services/transferencias_service.py:59-69 | a non-zero change sends one request for that account (deposit iff positive) with a positive amount whose signed value is the change; zero sends nothing |
| TransferService.Leg | transferencias-service/app/services/transferencias_service.py:59-69 | one `_update_cuenta`: nothing for zero, else exactly the one request, succeeding iff accepted, with its effect on the accounts |
| TransferService.Move | transferencias-service/app/services/transferencias_service.py:32-43 | the withdrawal of `monto` from the source comes first, the only other request is the deposit of `monto` into the destination, and EXITOSA requires every request sent to be accepted |
| TransferService.Run | transferencias-service/app/services/transferencias_service.py:24-51 | a created transfer is exactly the record written, and a record is written exactly when the caller is the confirmed owner and the balance check answers yes; a failed attempt writes nothing |
| TransferService.RunSpec | transferencias-service/app/services/transferencias_service.py:24-51 | the ownership GET comes first; 403 iff the GET answers a status other than 200 or an account the caller does not own; 500 iff the GET fails in transport or the balance check of an owned account fails; 400 iff the owner's balance is below `monto`; created iff the GET confirms the owner and the balance check answers with enough balance; a failure writes nothing, moves no money and sends no deposit or withdrawal; money moves only after both checks; a created attempt writes the record with `Move`'s estado, sends the check requests then `Move`'s requests, and leaves the balances as `Move` does |
| TransferService.CheckCalls | transferencias-service/app/services/transferencias_service.py:25-30 | the checks send the ownership GET first, then the balance validation only when the owner check passes, and never a mutating request |
| TransferService.CheckFailure | transferencias-service/app/services/transferencias_service.py:25-30 | Forbidden iff the GET does not fail in transport and `_user_owns_cuenta` is false (non-200, or another owner); ServerError iff the GET fails in transport or the balance check of a confirmed owner fails; InsufficientBalance iff the caller is confirmed owner, validation answers and the balance is below `monto`; no failure exactly when the confirmed owner's account holds at least `monto` and validation answers |
| TransferService.IntraBankSucceeds | transferencias-service/app/services/transferencias_service.py:34-37 | between two distinct known accounts with both requests accepted: EXITOSA, source −monto, destination +monto, every other account and the bank's total unchanged |
| TransferService.WithdrawRefused | transferencias-service/app/services/transferencias_service.py:34-43 | a refused withdrawal sends no deposit, moves nothing, and is RECHAZADA |
| TransferService.DepositRefusedAfterWithdraw | transferencias-service/app/services/transferencias_service.py:34-43 | a deposit refused after an accepted withdrawal, whether it fails in transport or names an account the accounts service does not know (the destination id is sent unchecked), leaves the withdrawal applied: RECHAZADA while the bank's total has dropped by `monto` |
| TransferService.InterbankTouchesOnlySource | transferencias-service/app/services/transferencias_service.py:38-40 | interbank sends only the withdrawal, is EXITOSA iff it is accepted, touches no other account, and the total drops by `monto` exactly when EXITOSA |
| TransferService.TransferenciasService.constructor | transferencias-service/app/services/transferencias_service.py:9-11 | wires the given repository and accounts client |
| TransferService.TransferenciasService.GetAll | transferencias-service/app/services/transferencias_service.py:13-16 | the repository query unfiltered by the caller: every result is stored and touches the requested account |
| TransferService.TransferenciasService.GetById | transferencias-service/app/services/transferencias_service.py:18-22 | None iff no record has the id, whoever asks; otherwise the stored record with that id |
| TransferService.TransferenciasService.UserOwnsCuenta | transferencias-service/app/services/transferencias_service.py:71-77 | one GET logged, balances unchanged; a transport error iff the GET fails in transport; otherwise true iff the status is 200 and the caller owns the account |
| TransferService.TransferenciasService.UpdateCuenta | transferencias-service/app/services/transferencias_service.py:59-69 | has exactly the effect of `Leg` on the log and the accounts |
| TransferService.TransferenciasService.Execute | transferencias-service/app/services/transferencias_service.py:32-43 | has exactly the effect of `Move`: the estado, the requests logged and the accounts afterwards |
| TransferService.TransferenciasService.Checks | transferencias-service/app/services/transferencias_service.py:25-30 | logs exactly the requests of `CheckCalls`, moves no balance, and answers the failure `CheckFailure` names |
| TransferService.TransferenciasService.Create | transferencias-service/app/services/transferencias_service.py:24-51 | has exactly the effect of `Run`: result, requests logged in order, accounts afterwards, and at most one record appended; ledger ids stay unique |
| Common.Take | fastapi-oauth/app/services/auth_service.py:31 | Python `s[:n]`: a prefix of length min(n, len) |
| Common.LocalPart | fastapi-oauth/app/services/auth_service.py:31 | `split("@")[0]`: a prefix with no `@`, followed by `@` when shorter than the input |
| Common.Digits | cuentas-service/app/repos/cuentas_repo.py:16-18 | exactly `k` decimal digit characters |
| Common.DigitsRoundTrip | cuentas-service/app/repos/cuentas_repo.py:16-18 | reading the `k` digits back gives the drawn number modulo 10^k |
| CuentasModels.NuevaCuenta | cuentas-service/app/models.py:31-44 | the model's defaults: no id, saldo 0, AHORRO, BOB, ACTIVA, and all three datetimes set to the construction time |
| CuentasRepo.NuevaCuentaStored | cuentas-service/app/repos/cuentas_repo.py:34-46 | an account built with the defaults and written by `create` is stored with saldo 0, AHORRO, BOB, ACTIVA, its owner and opening date, the drawn number and both stamps set to the write time |
| CuentasRepo.NumeroFromDraw | cuentas-service/app/repos/cuentas_repo.py:16-18 | a generated account number has exactly ten digits and denotes the draw modulo 10^10 |
| CuentasRepo.Patched | cuentas-service/app/repos/cuentas_repo.py:96-102 | given fields (of the four the patch models) replace the stored ones, `updated_at` is stamped, identity, number and creation dates are not among them and never change |
| CuentasRepo.InsertDesc | cuentas-service/app/repos/cuentas_repo.py:137 | inserting a movement adds exactly that movement (a permutation of input plus it) |
| CuentasRepo.InsertDescSorted | cuentas-service/app/repos/cuentas_repo.py:137 | inserting into a newest-first list keeps it newest first |
| CuentasRepo.InsertDescMembers | cuentas-service/app/repos/cuentas_repo.py:137 | the members after insertion are the old members plus the new movement |
| CuentasRepo.InsertDescDistinct | cuentas-service/app/repos/cuentas_repo.py:137 | inserting a movement with a new id keeps ids distinct |
| CuentasRepo.NewestPrefix | cuentas-service/app/repos/cuentas_repo.py:137 | a movement cut off by the limit is no newer than any movement kept, and the cut really removed something |
| CuentasRepo.CuentasRepository.constructor | cuentas-service/app/repos/cuentas_repo.py:11-14 | both collections empty, store invariant holds |
| CuentasRepo.CuentasRepository.GenerarNumeroCuentaUnico | cuentas-service/app/repos/cuentas_repo.py:27-32 | the number returned is the first draw whose number is unused, so it is a ten-digit number no account has; None only when every draw was taken |
| CuentasRepo.CuentasRepository.Create | cuentas-service/app/repos/cuentas_repo.py:34-46 | adds one account under the fresh id, with a new ten-digit number no other account has and both timestamps stamped; others unchanged; numbers stay unique |
| CuentasRepo.CuentasRepository.GetById | cuentas-service/app/repos/cuentas_repo.py:48-57 | None iff absent; otherwise the stored account carrying its id |
| CuentasRepo.CuentasRepository.GetByNumeroCuenta | cuentas-service/app/repos/cuentas_repo.py:59-70 | None iff no account has the number; otherwise a stored account with that number, carrying its id |
| CuentasRepo.CuentasRepository.List | cuentas-service/app/repos/cuentas_repo.py:72-94 | exactly the accounts passing every given filter (complete and sound), each once, with its id |
| CuentasRepo.CuentasRepository.Update | cuentas-service/app/repos/cuentas_repo.py:96-102 | succeeds iff the account exists; then exactly that account is `Patched`, otherwise nothing changes; since the modelled patch never carries a number, numbers stay unique |
| CuentasRepo.CuentasRepository.UpdateSaldo | cuentas-service/app/repos/cuentas_repo.py:104-106 | only the balance and `updated_at` of that account change |
| CuentasRepo.CuentasRepository.CambiarEstado | cuentas-service/app/repos/cuentas_repo.py:108-110 | only the estado and `updated_at` of that account change |
| CuentasRepo.CuentasRepository.Delete | cuentas-service/app/repos/cuentas_repo.py:112-114 | soft delete: the account stays, CERRADA; no account disappears and no other changes |
| CuentasRepo.CuentasRepository.CrearMovimiento | cuentas-service/app/repos/cuentas_repo.py:117-126 | stores the movement under the fresh id with `created_at` stamped; accounts unchanged |
| CuentasRepo.CuentasRepository.CollectMovimientos | cuentas-service/app/repos/cuentas_repo.py:135-153 | every matching movement of the account, each once with its id, newest first, nothing else |
| CuentasRepo.CuentasRepository.GetMovimientos | cuentas-service/app/repos/cuentas_repo.py:128-154 | at most `limit` matching movements, newest first, each once; a matching movement left out means the limit was reached and it is no newer than any returned |
| Pagos.NatString | pagos-service/app/routers/pagos.py:52 | the decimal rendering of a status code: digits that read back as the code, with no leading zero |
| Pagos.Shown | pagos-service/app/routers/pagos.py:102 | an f-string shows a message as itself and None as "None" |
| Pagos.GetMessage | pagos-service/app/routers/pagos.py:49 | `data.get("message", "Saldo insuficiente")`: the default when absent, None exactly when null, else the text |
| Pagos.Simulated | pagos-service/app/routers/pagos.py:36-39 | the simulation debits exactly the payments up to 1000 |
| Pagos.CallAccountsService | pagos-service/app/routers/pagos.py:30-57 | without a URL: ok iff monto ≤ 1000, else "Simulación: saldo insuficiente"; status 200: ok iff success or charged, with `message` on failure ("Saldo insuficiente" when absent, None when null); 402: "Saldo insuficiente"; any other status fails with "Cuentas-service respuesta: " and the code; connection error: ok iff monto ≤ 1000, else "Simulación: error conexión (…)" with the error text; the message is None only for a 200 refusal with a null `message` |
| Pagos.ProviderCall | pagos-service/app/routers/pagos.py:22-27 | ok exactly on the accepting draw, with the accepted/rejected message |
| Pagos.CallAccountsServiceAsWritten | pagos-service/app/routers/pagos.py:35 | every call, whatever its inputs, raises NameError instead of returning a verdict |
| Pagos.NameErrorHidesSimulation | pagos-service/app/routers/pagos.py:33-38 | for a payment up to 1000 the documented no-URL fallback debits it, while the code as written never returns that verdict |
| Pagos.PagoDoc | pagos-service/app/routers/pagos.py:92-111 | the stored document carries the request fields, id and time; a failed debit is FALLIDO with no provider and "Cuentas: " followed by the shown message; a successful debit is EXITOSO iff the provider accepts, provider SIMULADO, with the provider's message |
| Pagos.NullMessageStored | pagos-service/app/routers/pagos.py:47-49 | a 200 refusal whose `message` is null is a failed debit with message None, stored as "Cuentas: None" |
| Pagos.PagosStore.constructor | pagos-service/app/routers/pagos.py:15-19 | an empty collection |
| Pagos.PagosStore.CreatePagoAsWritten | pagos-service/app/routers/pagos.py:85-88 | as written, `create_pago` always ends in a server error before anything is stored |
| Pagos.PagosStore.CreatePago | pagos-service/app/routers/pagos.py:85-114 | exactly one document written under the fresh id, `PagoDoc` of the debit and provider outcomes; 402 with the accounts message when the debit fails, else 201 with the stored document |
| Pagos.PagosStore.GetPago | pagos-service/app/routers/pagos.py:76-82 | None (404) iff absent; otherwise the stored document |
| Pagos.PagosStore.ListPagos | pagos-service/app/routers/pagos.py:60-73 | exactly the stored payments passing both optional filters, each once |
| Prestamos.EstadoInicial | prestamos-service/app/routers/prestamos.py:54 | APROBADO iff monto ≤ 20000, EN_EVALUACION iff monto > 20000 |
| Prestamos.PrestamosStore.constructor | prestamos-service/app/routers/prestamos.py:14 | an empty collection |
| Prestamos.PrestamosStore.Crear | prestamos-service/app/routers/prestamos.py:48-68 | one loan stored under the fresh id with the request's fields, the request time and the approval rule's estado; the answer is that document and id |
| Prestamos.PrestamosStore.Obtener | prestamos-service/app/routers/prestamos.py:35-44 | None (404) iff absent; otherwise the stored loan with its id |
| Prestamos.PrestamosStore.Actualizar | prestamos-service/app/routers/prestamos.py:72-86 | 404 iff absent and then nothing changes; otherwise only that loan's estado changes, and the answer is the updated loan |
| Prestamos.PrestamosStore.Listar | prestamos-service/app/routers/prestamos.py:11-31 | exactly the loans passing both optional filters, each once, with its id |
| Documents.Get | fastapi-oauth/app/repos/users_repo.py:76 | `dict.get`: the stored value when present, else the default |
| Documents.OfOption | fastapi-oauth/app/repos/users_repo.py:51-53 | None becomes a null field, a string a string field |
| Documents.Merge | fastapi-oauth/app/repos/users_repo.py:77 | `set(merge=True)`: fields written win, every other field stays |
| Documents.NonNull | fastapi-oauth/app/repos/clientes_repo.py:60 | exactly the payload fields that are not None, with their values |
| Documents.MergeNonNullKeeps | fastapi-oauth/app/repos/clientes_repo.py:60-62 | merging the non-None fields never removes a field nor clears a non-null one, and an all-None payload changes nothing |
| Documents.WithId | fastapi-oauth/app/repos/people_repo.py:17 | the document plus its key as "id", every other field unchanged |
| UsersRepo.LeadingSpaces | fastapi-oauth/app/repos/users_repo.py:46 | the length of the run of whitespace the input starts with: everything before it is whitespace and the character after it is not |
| UsersRepo.TrailingSpaces | fastapi-oauth/app/repos/users_repo.py:46 | the length of the run of whitespace the input ends with: everything after it is whitespace and the character before it is not |
| UsersRepo.Strip | fastapi-oauth/app/repos/users_repo.py:46 | no whitespace at either end, never longer than the input (the exact slice is `StripSpec`) |
| UsersRepo.StripSpec | fastapi-oauth/app/repos/users_repo.py:46 | the result is the slice of the input left after dropping exactly its leading and trailing whitespace: only whitespace lies before and after the slice |
| UsersRepo.StripKeepsChars | fastapi-oauth/app/repos/users_repo.py:46 | stripping only removes characters |
| UsersRepo.LowerChar | fastapi-oauth/app/repos/users_repo.py:46 | an upper-case letter becomes the same letter 32 code points up (its lower-case form); other characters unchanged; the result is never upper-case |
| UsersRepo.Lower | fastapi-oauth/app/repos/users_repo.py:46 | same length as the input |
| UsersRepo.LowerSpec | fastapi-oauth/app/repos/users_repo.py:46 | lower-casing works character by character |
| UsersRepo.BaseUsername | fastapi-oauth/app/repos/users_repo.py:46 | a username of 1 to 16 characters |
| UsersRepo.BaseUsernameSpec | fastapi-oauth/app/repos/users_repo.py:46 | "user" when the stripped source is empty; otherwise its first 16 characters lower-cased, starting with no space; never an upper-case letter; no `@` when taken from the e-mail |
| UsersRepo.EpochToDt | fastapi-oauth/app/repos/users_repo.py:14-15 | None iff the timestamp is absent or zero; otherwise the timestamp |
| UsersRepo.ToUserOut | fastapi-oauth/app/repos/users_repo.py:17-26 | the output carries uid, names, e-mail and username from the document; active unless `active` is stored falsy; no last update iff `updated_at` is absent, null or 0 |
| UsersRepo.LoginData | fastapi-oauth/app/repos/users_repo.py:48-61 | every login writes uid, e-mail, username, active, provider google and both timestamps, and never roles or `created_at` |
| UsersRepo.StoredUser | fastapi-oauth/app/repos/users_repo.py:63-77 | every login field is stored; a new user gets HR_ADMIN iff the collection was empty (else EMPLOYEE) and `created_at`; an existing user keeps stored roles (EMPLOYEE if none) and every field the login does not write |
| UsersRepo.UsersRepository.constructor | fastapi-oauth/app/repos/users_repo.py:10-12 | an empty collection |
| UsersRepo.UsersRepository.GetUserDoc | fastapi-oauth/app/repos/users_repo.py:39-41 | None iff the uid is unknown; otherwise the stored document |
| UsersRepo.UsersRepository.CreateOrUpdateFromGoogle | fastapi-oauth/app/repos/users_repo.py:43-79 | only the caller's document changes, to `StoredUser` with the derived username, and the answer is built from that stored document |
| UsersRepo.UsersRepository.SetRoles | fastapi-oauth/app/repos/users_repo.py:81-83 | roles overwritten, `updated_at` stamped, every other field and every other user kept; the answer is the stored document |
| CivilDates.YearUp | fastapi-oauth/app/repos/clientes_repo.py:19 | the remaining day count fits in the year reached |
| CivilDates.YearDown | fastapi-oauth/app/repos/clientes_repo.py:19 | the remaining day count fits in the year reached |
| CivilDates.MonthWalk | fastapi-oauth/app/repos/clientes_repo.py:19 | yields a valid date in the given year |
| CivilDates.CivilFromDays | fastapi-oauth/app/repos/clientes_repo.py:19 | every day number gives a valid calendar date |
| CivilDates.MonthsFillYear | fastapi-oauth/app/repos/clientes_repo.py:19 | the twelve months add up to the year's length |
| CivilDates.NextYear | fastapi-oauth/app/repos/clientes_repo.py:19 | consecutive years are one year length apart |
| CivilDates.YearUpSum | fastapi-oauth/app/repos/clientes_repo.py:19 | walking forward by years loses no days |
| CivilDates.YearDownSum | fastapi-oauth/app/repos/clientes_repo.py:19 | walking backward by years loses no days |
| CivilDates.MonthWalkSum | fastapi-oauth/app/repos/clientes_repo.py:19 | splitting a day of the year into month and day loses no days |
| CivilDates.CivilRoundTrip | fastapi-oauth/app/repos/clientes_repo.py:19 | counting days back from the computed date gives the day number again (round trip) |
| CivilDates.EpochDate | fastapi-oauth/app/repos/clientes_repo.py:19 | the UTC date of any timestamp is a valid date |
| CivilDates.EpochDateContains | fastapi-oauth/app/repos/clientes_repo.py:19 | the timestamp lies within the day its date denotes |
| CivilDates.IsoDate | fastapi-oauth/app/repos/clientes_repo.py:19 | `isoformat()`: ten characters, digits with dashes at positions 4 and 7 |
| CivilDates.IsoDateRoundTrip | fastapi-oauth/app/repos/clientes_repo.py:19 | reading year, month and day back from the ISO text gives the date (round trip) |
| CivilDates.IsoDateParts | fastapi-oauth/app/repos/clientes_repo.py:19 | the three fields of the ISO text are the zero-padded year, month and day |
| CivilDates.SmallDigits | fastapi-oauth/app/repos/clientes_repo.py:19 | a number that fits in its field reads back exactly |
| ClientesRepo.IsoFromEpoch | fastapi-oauth/app/repos/clientes_repo.py:19 | succeeds iff the timestamp's date lies in years 1..9999, and then `fecha_alta` becomes its ISO date |
| ClientesRepo.Normalize | fastapi-oauth/app/repos/clientes_repo.py:11-24 | adds the key as "id" and keeps every other field; a numeric, boolean or timestamp `fecha_alta` becomes the ISO date; any other value, or none, is left as it is |
| ClientesRepo.NormalizedDateIsTimestampDay | fastapi-oauth/app/repos/clientes_repo.py:16-19 | the normalised `fecha_alta` is ten characters that read back as the valid date whose day contains the stored timestamp |
| ClientesRepo.NewCliente | fastapi-oauth/app/repos/clientes_repo.py:38-51 | the new document keeps nombre and e-mail, defaults apellidos "" and estado ACTIVO, stamps today's ISO date and has no id field |
| ClientesRepo.ClientesRepository.constructor | fastapi-oauth/app/repos/clientes_repo.py:8-9 | an empty collection |
| ClientesRepo.ClientesRepository.GetCliente | fastapi-oauth/app/repos/clientes_repo.py:32-36 | None iff absent; otherwise the normalised document |
| ClientesRepo.ClientesRepository.ListClientes | fastapi-oauth/app/repos/clientes_repo.py:26-30 | every client normalised, each once with its id, nothing else; fails only when some client's normalisation raises |
| ClientesRepo.ClientesRepository.CreateCliente | fastapi-oauth/app/repos/clientes_repo.py:38-54 | one new document under the fresh id; the answer is it with its id |
| ClientesRepo.ClientesRepository.UpdateCliente | fastapi-oauth/app/repos/clientes_repo.py:56-63 | None iff absent and then nothing changes; otherwise the non-None fields are merged in and the answer is the re-read document |
| ClientesRepo.ClientesRepository.DeleteCliente | fastapi-oauth/app/repos/clientes_repo.py:65-78 | false iff absent, nothing changes; hard removes only that client; soft sets only its estado to INACTIVO |
| PeopleRepo.Stream | fastapi-oauth/app/repos/people_repo.py:12-19 | exactly the selected documents, each once, each with its key as "id" |
| PeopleRepo.SeedPosition | fastapi-oauth/app/repos/people_repo.py:26-28 | every seeded position has a name and no unit |
| PeopleRepo.NewEmployee | fastapi-oauth/app/repos/people_repo.py:77-83 | a new employee is ACTIVE with the payload's name and e-mail |
| PeopleRepo.NewContract | fastapi-oauth/app/repos/people_repo.py:148-155 | a new contract references the employee and the payload's position, with currency BOB unless given |
| PeopleRepo.PeopleRepository.constructor | fastapi-oauth/app/repos/people_repo.py:4-9 | three empty collections; e-mails unique |
| PeopleRepo.PeopleRepository.ListPositions | fastapi-oauth/app/repos/people_repo.py:12-19 | every position once, with its id, nothing else |
| PeopleRepo.PeopleRepository.SeedPositionsIfEmpty | fastapi-oauth/app/repos/people_repo.py:21-28 | a non-empty collection is untouched; an empty one gets exactly the three seed positions |
| PeopleRepo.PeopleRepository.CreatePosition | fastapi-oauth/app/repos/people_repo.py:33-41 | one new position under the fresh id with name, unit and grade; the answer is it with its id |
| PeopleRepo.PeopleRepository.GetPosition | fastapi-oauth/app/repos/people_repo.py:43-49 | None iff absent; otherwise the position with its id |
| PeopleRepo.PeopleRepository.PositionExists | fastapi-oauth/app/repos/people_repo.py:30-31 | true exactly when `get_position` finds the id, and exactly when a `positionId` holding it passes the contract checks |
| PeopleRepo.PeopleRepository.UpdatePosition | fastapi-oauth/app/repos/people_repo.py:51-60 | None iff absent; an all-None payload changes nothing; otherwise its non-None fields are merged in, and the answer is the re-read document |
| PeopleRepo.PeopleRepository.DeletePosition | fastapi-oauth/app/repos/people_repo.py:62-67 | true iff it existed; it is gone afterwards, nothing else changes |
| PeopleRepo.PeopleRepository.FindByEmail | fastapi-oauth/app/repos/people_repo.py:73-74 | None iff no employee has that e-mail; otherwise an employee that has it |
| PeopleRepo.PeopleRepository.CreateEmployee | fastapi-oauth/app/repos/people_repo.py:71-86 | ValueError iff some employee already has the e-mail, and nothing changes; otherwise exactly one new ACTIVE employee; e-mails stay unique |
| PeopleRepo.PeopleRepository.ListEmployees | fastapi-oauth/app/repos/people_repo.py:88-95 | every employee once, with its id, nothing else |
| PeopleRepo.PeopleRepository.GetEmployee | fastapi-oauth/app/repos/people_repo.py:97-103 | None iff absent; otherwise the employee with its id |
| PeopleRepo.PeopleRepository.UpdateEmployee | fastapi-oauth/app/repos/people_repo.py:105-124 | None iff absent; ValueError iff a new truthy e-mail belongs to another employee, and nothing changes; otherwise the non-None fields are merged in; e-mails stay unique |
| PeopleRepo.PeopleRepository.DeleteEmployeeSoft | fastapi-oauth/app/repos/people_repo.py:126-131 | false iff absent; otherwise the employee stays, INACTIVE, nothing else changes |
| PeopleRepo.PeopleRepository.DeleteEmployeeHard | fastapi-oauth/app/repos/people_repo.py:133-138 | true iff it existed; it is gone afterwards, nothing else changes |
| PeopleRepo.PeopleRepository.CreateContract | fastapi-oauth/app/repos/people_repo.py:142-158 | LookupError iff the employee is missing, ValueError iff the position is missing, and then nothing changes; otherwise exactly one new contract |
| PeopleRepo.PeopleRepository.GetContract | fastapi-oauth/app/repos/people_repo.py:160-166 | None iff absent; otherwise the contract with its id |
| PeopleRepo.PeopleRepository.ListContractsByEmployee | fastapi-oauth/app/repos/people_repo.py:168-175 | exactly that employee's contracts, each once, with its id |
| PeopleRepo.PeopleRepository.UpdateContract | fastapi-oauth/app/repos/people_repo.py:177-192 | None iff absent; ValueError iff a non-None `positionId` names no position, and nothing changes; otherwise the non-None fields are merged in |
| PeopleRepo.PeopleRepository.DeleteContract | fastapi-oauth/app/repos/people_repo.py:194-199 | true iff it existed; it is gone afterwards, nothing else changes |
| AuthService.FindFirst | fastapi-oauth/app/services/auth_service.py:22 | `.first()`: the first matching index, or None when nothing matches |
| AuthService.NewRowKeepsConsistent | fastapi-oauth/app/services/auth_service.py:29-48 | adding a staff row with a fresh id keeps ids distinct and every link pointing at a row |
| AuthService.LinkedRowExists | fastapi-oauth/app/services/auth_service.py:22-24 | in a consistent directory every Google link finds its staff row |
| AuthService.NewStaff | fastapi-oauth/app/services/auth_service.py:29-39 | names default to "Google"/"User" when empty, the e-mail is kept, there is no password, and the username is exactly `split("@")[0][:16]`: an `@`-free prefix of the e-mail of at most 16 characters, cut short only at the first `@` or the end of the e-mail |
| AuthService.StaffDirectory.constructor | fastapi-oauth/app/services/auth_service.py:20 | starts from a staff table with distinct ids and no links |
| AuthService.StaffDirectory.GetOrCreateStaffFromGoogle | fastapi-oauth/app/services/auth_service.py:20-48 | an existing Google link returns its staff row and writes nothing; otherwise the first staff row with that e-mail is reused or a new one appended, and exactly one link to the returned row is appended; ids stay distinct and links valid |

## Left out

- HTTP transport, FastAPI routing and dependency injection, Firestore and SQLAlchemy
  clients, the OAuth/JWT exchange, configuration and application start-up: requests and
  replies are values, collections are maps or sequences.
- Concurrency between requests; every operation is one atomic step on the model state.
- Floating point: `monto`, `saldo`, `tasa_anual` and `baseSalary` are whole numbers; float
  timestamps for `fecha_alta` are not modelled (integers, booleans and stored timestamps are).
- Clocks, `random`, `uuid` and Firestore auto-ids are parameters; fresh ids are assumed
  fresh, as those generators provide.
- The accounts service's own deposit/withdraw arithmetic lives in another service; the
  transfers model reduces it to "known account" and, for withdrawals, "enough balance".
- The transfers service has no rollback: the model states the partial effect rather than
  restoring it (`TransferService.DepositRefusedAfterWithdraw`).
- The transfers service's read-side ownership filter calls `_user_owns_cuenta` without
  awaiting it; a coroutine object is truthy, so the filter lets everything through, and
  `GetAll`/`GetById` are modelled as pass-through.
- TransferRouter.PositiveAmount: of the strings pydantic's lax `float` accepts, only plain
  digit strings are modelled (`LaxNumber`); signs, fractions, exponents, surrounding
  whitespace, underscores and "inf" are refused by the model.
- A transfer body without a `tipo` key raises KeyError, which the handler does not catch:
  modelled as a 500 rather than the 422 the other validation errors get.
- CuentasRepo.CuentasRepository.GenerarNumeroCuentaUnico: the source draws until it finds
  an unused number; the model consumes a finite sequence of draws and answers None when all
  are taken, so non-termination is not modelled.
- CuentasRepo.CuentasRepository.Update: Firestore raises NotFound for a missing document;
  the model answers `false` and changes nothing.
- CuentasRepo.CuentasRepository.Update: the patch carries only tipo, moneda, saldo and
  estado; the source writes every key of `update_data`, `numero_cuenta` included, so the
  model does not promise unique numbers or an unchanged identity for other patches.
- TransferLedger.TransferenciasRepo.Update: likewise, `found == false` stands for NotFound.
- Listing order: Firestore stream order is not specified, so listings state membership,
  uniqueness and (for movements) the newest-first order the code requests, not positions.
- UsersRepo.Strip and UsersRepo.Lower: only ASCII whitespace and ASCII letters; Unicode
  case mapping and Unicode whitespace are not modelled.
- AuthService.StaffDirectory.GetOrCreateStaffFromGoogle: the staff e-mail lookup compares
  exactly; the staff table lives in MySQL, whose default collation ignores case, so there
  "Alice@x.com" reuses the row of "alice@x.com" while the model appends a new row.
- PeopleRepo.PositionIn: a `positionId` that is not a string is treated as naming no position.
- UsersRepo.UsersRepository.SetRoles: creates the document when the uid is unknown, as
  `set(merge=True)` does; the router's 404 guard in front of it is not part of this model.
- `get_user_by_uid` (a composition of `get_user_doc` and `_to_user_out`) and
  `staff_to_out` (a schema conversion) are not modelled separately.
- ClientesRepo.Normalize: a stored datetime's `.date()` is taken in UTC; time zones other
  than UTC are not modelled.
- The pagos provider's 90% success draw is the boolean parameter `providerAccepts`.

## Findings

| source | as written | input that shows it | evidently intended | confidence | as-written member | corrected member |
|---|---|---|---|---|---|---|
| pagos-service/app/routers/pagos.py:35 | `_call_accounts_service` reads `CUENTAS_SERVICE_URL`, which is bound nowhere in the module, so every call raises NameError and `create_pago` answers 500 without storing anything | any payment, e.g. monto 500 on any account | with no service URL configured, use the simulation rule: debit payments up to 1000, refuse larger ones | not executed | Pagos.CallAccountsServiceAsWritten, Pagos.PagosStore.CreatePagoAsWritten, Pagos.NameErrorHidesSimulation | Pagos.CallAccountsService, Pagos.PagosStore.CreatePago |
