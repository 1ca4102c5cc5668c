/** The HR store of the OAuth service (fastapi-oauth/app/repos/people_repo.py): positions,
    employees and contracts as three Firestore collections, with e-mail uniqueness among
    employees, merges of non-None fields, soft and hard deletes, and reference checks on
    contracts. Fresh document ids are inputs. */
module PeopleRepo {
  import opened Common
  import opened Documents

  /** A repository call either returns or raises one of the two errors the module uses. */
  datatype Outcome<T> = Done(value: T) | ValueError(msg: string) | LookupError(msg: string)

  /** `where(field, "==", v)` on one document. */
  predicate FieldIs(d: Doc, field: string, v: Value) {
    field in d && d[field] == v
  }

  predicate Selected(d: Doc, filter: Option<(string, Value)>) {
    filter.None? || FieldIs(d, filter.value.0, filter.value.1)
  }

  /** Streams a collection (optionally filtered on one field) into a list of documents, each
      with its key added as "id": exactly the selected documents, each once. */
  method Stream(col: map<string, Doc>, filter: Option<(string, Value)>) returns (r: seq<Doc>)
    ensures forall k :: k in col && Selected(col[k], filter) ==> WithId(k, col[k]) in r
    ensures forall x: Doc :: x in r ==> ("id" in x && x["id"].Str? && x["id"].s in col
                                         && Selected(col[x["id"].s], filter) && x == WithId(x["id"].s, col[x["id"].s]))
    ensures forall i, j :: 0 <= i < j < |r| ==> r[i]["id"] != r[j]["id"]
  {
    var keys := col.Keys;
    r := [];
    while keys != {}
      invariant keys <= col.Keys
      invariant forall k :: k in col && k !in keys && Selected(col[k], filter) ==> WithId(k, col[k]) in r
      invariant forall x: Doc :: x in r ==> ("id" in x && x["id"].Str? && x["id"].s in col && x["id"].s !in keys
                                             && Selected(col[x["id"].s], filter) && x == WithId(x["id"].s, col[x["id"].s]))
      invariant forall i, j :: 0 <= i < j < |r| ==> r[i]["id"] != r[j]["id"]
      decreases keys
    {
      var k :| k in keys;
      if Selected(col[k], filter) {
        r := r + [WithId(k, col[k])];
      }
      keys := keys - {k};
    }
  }

  /** The three positions the seeding writes. */
  function SeedPosition(i: nat): (d: Doc)
    requires i < 3
    ensures "name" in d && "unitId" in d && d["unitId"] == Null
  {
    if i == 0 then map["name" := Str("Analista"), "unitId" := Null, "grade" := Str("P1")]
    else if i == 1 then map["name" := Str("Jefe de Operaciones"), "unitId" := Null, "grade" := Str("M1")]
    else map["name" := Str("Gerente de RRHH"), "unitId" := Null, "grade" := Str("M2")]
  }

  /** The e-mail an employee document holds (Null when it has none). */
  function EmailOf(d: Doc): Value {
    Get(d, "email", Null)
  }

  /** No two employees share a truthy e-mail. */
  predicate UniqueEmails(employees: map<string, Doc>) {
    forall a, b :: a in employees && b in employees && a != b && Truthy(EmailOf(employees[a]))
                   ==> EmailOf(employees[a]) != EmailOf(employees[b])
  }

  /** Replacing one employee's document keeps e-mails unique when its e-mail is unchanged,
      falsy, or held by no other employee. */
  lemma ReplaceKeepsUnique(employees: map<string, Doc>, empId: string, d: Doc)
    requires UniqueEmails(employees) && empId in employees
    requires EmailOf(d) == EmailOf(employees[empId]) || !Truthy(EmailOf(d))
             || forall k :: k in employees && k != empId ==> EmailOf(employees[k]) != EmailOf(d)
    ensures UniqueEmails(employees[empId := d])
  {
  }

  /** The document `create_employee` stores. */
  function NewEmployee(payload: Doc): (d: Doc)
    requires "name" in payload && "email" in payload
    ensures "status" in d && d["status"] == Str("ACTIVE")
    ensures EmailOf(d) == payload["email"] && "name" in d && d["name"] == payload["name"]
  {
    map["ci" := Get(payload, "ci", Null), "name" := payload["name"], "email" := payload["email"],
        "phone" := Get(payload, "phone", Null), "status" := Str("ACTIVE")]
  }

  /** A value names an existing position. A value that is not a string names none. */
  predicate PositionIn(positions: map<string, Doc>, v: Value) {
    v.Str? && v.s in positions
  }

  /** `ContractCreate`'s required fields, as `create_contract` reads them. */
  predicate IsContractPayload(payload: Doc) {
    "positionId" in payload && "baseSalary" in payload && "startDate" in payload
  }

  /** The document `create_contract` stores. */
  function NewContract(empId: string, payload: Doc): (d: Doc)
    requires IsContractPayload(payload)
    ensures "employeeId" in d && d["employeeId"] == Str(empId)
    ensures "positionId" in d && d["positionId"] == payload["positionId"]
    ensures "currency" in d && d["currency"] == Get(payload, "currency", Str("BOB"))
  {
    map["employeeId" := Str(empId), "positionId" := payload["positionId"],
        "baseSalary" := payload["baseSalary"], "currency" := Get(payload, "currency", Str("BOB")),
        "startDate" := payload["startDate"], "endDate" := Get(payload, "endDate", Null)]
  }

  class PeopleRepository {
    var positions: map<string, Doc>
    var employees: map<string, Doc>
    var contracts: map<string, Doc>

    ghost predicate Valid()
      reads this
    {
      UniqueEmails(employees)
    }

    constructor ()
      ensures Valid() && positions == map[] && employees == map[] && contracts == map[]
    {
      positions := map[];
      employees := map[];
      contracts := map[];
    }

    // ---------------- Positions ----------------

    /** `list_positions`. */
    method ListPositions() returns (r: seq<Doc>)
      ensures forall k :: k in positions ==> WithId(k, positions[k]) in r
      ensures forall x: Doc :: x in r ==> ("id" in x && x["id"].Str? && x["id"].s in positions
                                           && x == WithId(x["id"].s, positions[x["id"].s]))
      ensures forall i, j :: 0 <= i < j < |r| ==> r[i]["id"] != r[j]["id"]
    {
      r := Stream(positions, None);
    }

    /** `seed_positions_if_empty`: three positions, and only into an empty collection. */
    method SeedPositionsIfEmpty(ids: seq<string>)
      requires |ids| == 3 && Distinct(ids)
      requires forall i :: 0 <= i < 3 ==> ids[i] !in positions
      modifies this
      ensures employees == old(employees) && contracts == old(contracts)
      ensures old(positions) != map[] ==> positions == old(positions)
      ensures old(positions) == map[] ==> positions == map[ids[0] := SeedPosition(0), ids[1] := SeedPosition(1), ids[2] := SeedPosition(2)]
    {
      if positions != map[] {
        return;
      }
      positions := positions[ids[0] := SeedPosition(0)];
      positions := positions[ids[1] := SeedPosition(1)];
      positions := positions[ids[2] := SeedPosition(2)];
    }

    /** `position_exists`: the id names a stored position, so `get_position` finds it, and a
        `positionId` field holding that id passes the contract checks. */
    function PositionExists(positionId: string): (b: bool)
      reads this
      ensures b <==> GetPosition(positionId).Some?
      ensures b <==> PositionIn(positions, Str(positionId))
    {
      positionId in positions
    }

    /** `create_position`. */
    method CreatePosition(payload: Doc, newId: string) returns (r: Doc)
      requires "name" in payload && newId !in positions
      modifies this
      ensures employees == old(employees) && contracts == old(contracts)
      ensures positions == old(positions)[newId := map["name" := payload["name"], "unitId" := Get(payload, "unitId", Null),
                                                          "grade" := Get(payload, "grade", Null)]]
      ensures r == WithId(newId, positions[newId])
    {
      var data := map["name" := payload["name"], "unitId" := Get(payload, "unitId", Null), "grade" := Get(payload, "grade", Null)];
      positions := positions[newId := data];
      r := WithId(newId, data);
    }

    /** `get_position`. */
    function GetPosition(positionId: string): (r: Option<Doc>)
      reads this
      ensures r.None? <==> positionId !in positions
      ensures r.Some? ==> r.value == WithId(positionId, positions[positionId])
    {
      if positionId in positions then Some(WithId(positionId, positions[positionId])) else None
    }

    /** `update_position`: None for a missing id; a payload without non-None fields changes
        nothing; otherwise those fields are merged in. */
    method UpdatePosition(positionId: string, payload: Doc) returns (r: Option<Doc>)
      modifies this
      ensures employees == old(employees) && contracts == old(contracts)
      ensures r.None? <==> positionId !in old(positions)
      ensures r.None? || NonNull(payload) == map[] ==> positions == old(positions)
      ensures r.Some? ==> positions == old(positions)[positionId := Merge(old(positions)[positionId], NonNull(payload))]
                          && r == GetPosition(positionId)
    {
      if positionId !in positions {
        return None;
      }
      var data := NonNull(payload);
      if data == map[] {
        MergeNonNullKeeps(positions[positionId], payload);
        return GetPosition(positionId);
      }
      positions := positions[positionId := Merge(positions[positionId], data)];
      r := GetPosition(positionId);
    }

    /** `delete_position`. */
    method DeletePosition(positionId: string) returns (ok: bool)
      modifies this
      ensures employees == old(employees) && contracts == old(contracts)
      ensures ok <==> positionId in old(positions)
      ensures positions == old(positions) - {positionId}
    {
      ok := positionId in positions;
      positions := positions - {positionId};
    }

    // ---------------- Employees ----------------

    /** The `where("email", "==", v).limit(1)` query: some employee with that e-mail. */
    method FindByEmail(v: Value) returns (found: Option<string>)
      ensures found.None? <==> forall k :: k in employees ==> !FieldIs(employees[k], "email", v)
      ensures found.Some? ==> found.value in employees && FieldIs(employees[found.value], "email", v)
    {
      var keys := employees.Keys;
      while keys != {}
        invariant keys <= employees.Keys
        invariant forall k :: k in employees && k !in keys ==> !FieldIs(employees[k], "email", v)
        decreases keys
      {
        var k :| k in keys;
        if FieldIs(employees[k], "email", v) {
          return Some(k);
        }
        keys := keys - {k};
      }
      return None;
    }

    /** `create_employee`: raises when some employee already has the e-mail; otherwise one
        new ACTIVE employee. */
    method CreateEmployee(payload: Doc, newId: string) returns (r: Outcome<Doc>)
      requires Valid() && "name" in payload && "email" in payload && newId !in employees
      modifies this
      ensures Valid() && positions == old(positions) && contracts == old(contracts)
      ensures r.ValueError? <==> exists k :: k in old(employees) && FieldIs(old(employees)[k], "email", payload["email"])
      ensures r.ValueError? ==> employees == old(employees)
      ensures !r.ValueError? ==> r == Done(WithId(newId, NewEmployee(payload)))
                                 && employees == old(employees)[newId := NewEmployee(payload)]
      ensures !r.LookupError?
    {
      var dup := FindByEmail(payload["email"]);
      if dup.Some? {
        return ValueError("Email ya registrado");
      }
      var data := NewEmployee(payload);
      employees := employees[newId := data];
      r := Done(WithId(newId, data));
    }

    /** `list_employees`. */
    method ListEmployees() returns (r: seq<Doc>)
      ensures forall k :: k in employees ==> WithId(k, employees[k]) in r
      ensures forall x: Doc :: x in r ==> ("id" in x && x["id"].Str? && x["id"].s in employees
                                           && x == WithId(x["id"].s, employees[x["id"].s]))
      ensures forall i, j :: 0 <= i < j < |r| ==> r[i]["id"] != r[j]["id"]
    {
      r := Stream(employees, None);
    }

    /** `get_employee`. */
    function GetEmployee(empId: string): (r: Option<Doc>)
      reads this
      ensures r.None? <==> empId !in employees
      ensures r.Some? ==> r.value == WithId(empId, employees[empId])
    {
      if empId in employees then Some(WithId(empId, employees[empId])) else None
    }

    /** `update_employee`: None for a missing id; raises when a new truthy e-mail (different
        from the current one) belongs to another employee; otherwise merges the non-None
        payload fields. Keeping the same e-mail never raises. */
    method UpdateEmployee(empId: string, payload: Doc) returns (r: Outcome<Option<Doc>>)
      requires Valid()
      modifies this
      ensures Valid() && positions == old(positions) && contracts == old(contracts)
      ensures r == Done(None) <==> empId !in old(employees)
      ensures r.ValueError? <==>
                empId in old(employees) && "email" in NonNull(payload)
                && Truthy(payload["email"]) && payload["email"] != EmailOf(old(employees)[empId])
                && exists k :: k in old(employees) && k != empId && FieldIs(old(employees)[k], "email", payload["email"])
      ensures !r.LookupError?
      ensures r.ValueError? || empId !in old(employees) ==> employees == old(employees)
      ensures r.Done? && empId in old(employees) ==>
                employees == old(employees)[empId := Merge(old(employees)[empId], NonNull(payload))]
                && r.value == GetEmployee(empId)
    {
      if empId !in employees {
        return Done(None);
      }
      var current := employees[empId];
      var data := NonNull(payload);
      var newEmail := Get(data, "email", Null);
      if Truthy(newEmail) && newEmail != EmailOf(current) {
        var other := FindByEmail(newEmail);
        if other.Some? && other.value != empId {
          return ValueError("Email ya registrado por otro empleado");
        }
        assert forall k :: k in employees && k != empId ==> EmailOf(employees[k]) != newEmail;
      }
      if data != map[] {
        assert EmailOf(Merge(current, data)) == if "email" in data then newEmail else EmailOf(current);
        ReplaceKeepsUnique(employees, empId, Merge(current, data));
        employees := employees[empId := Merge(current, data)];
      } else {
        MergeNonNullKeeps(current, payload);
      }
      r := Done(GetEmployee(empId));
    }

    /** `delete_employee_soft`: false for a missing id; otherwise the employee stays, INACTIVE. */
    method DeleteEmployeeSoft(empId: string) returns (ok: bool)
      requires Valid()
      modifies this
      ensures Valid() && positions == old(positions) && contracts == old(contracts)
      ensures ok <==> empId in old(employees)
      ensures !ok ==> employees == old(employees)
      ensures ok ==> employees == old(employees)[empId := old(employees)[empId]["status" := Str("INACTIVE")]]
    {
      if empId !in employees {
        return false;
      }
      var current := employees[empId];
      assert Merge(current, map["status" := Str("INACTIVE")]) == current["status" := Str("INACTIVE")];
      employees := employees[empId := Merge(current, map["status" := Str("INACTIVE")])];
      ok := true;
    }

    /** `delete_employee_hard`: false for a missing id; otherwise the document is removed. */
    method DeleteEmployeeHard(empId: string) returns (ok: bool)
      requires Valid()
      modifies this
      ensures Valid() && positions == old(positions) && contracts == old(contracts)
      ensures ok <==> empId in old(employees)
      ensures employees == old(employees) - {empId}
    {
      ok := empId in employees;
      employees := employees - {empId};
    }

    // ---------------- Contracts ----------------

    /** `create_contract`: LookupError for a missing employee (checked first), ValueError for
        a missing position; otherwise one new contract, `currency` BOB unless given. */
    method CreateContract(empId: string, payload: Doc, newId: string) returns (r: Outcome<Doc>)
      requires IsContractPayload(payload) && newId !in contracts
      modifies this
      ensures positions == old(positions) && employees == old(employees)
      ensures r.LookupError? <==> empId !in employees
      ensures r.ValueError? <==> empId in employees && !PositionIn(positions, payload["positionId"])
      ensures !r.Done? ==> contracts == old(contracts)
      ensures r.Done? ==> contracts == old(contracts)[newId := NewContract(empId, payload)]
                          && r.value == WithId(newId, NewContract(empId, payload))
    {
      if GetEmployee(empId).None? {
        return LookupError("Empleado no encontrado");
      }
      if !(payload["positionId"].Str? && PositionExists(payload["positionId"].s)) {
        return ValueError("positionId inválido");
      }
      var data := NewContract(empId, payload);
      contracts := contracts[newId := data];
      r := Done(WithId(newId, data));
    }

    /** `get_contract`. */
    function GetContract(contractId: string): (r: Option<Doc>)
      reads this
      ensures r.None? <==> contractId !in contracts
      ensures r.Some? ==> r.value == WithId(contractId, contracts[contractId])
    {
      if contractId in contracts then Some(WithId(contractId, contracts[contractId])) else None
    }

    /** `list_contracts_by_employee`: exactly that employee's contracts, each once. */
    method ListContractsByEmployee(empId: string) returns (r: seq<Doc>)
      ensures forall k :: k in contracts && FieldIs(contracts[k], "employeeId", Str(empId)) ==> WithId(k, contracts[k]) in r
      ensures forall x: Doc :: x in r ==> ("id" in x && x["id"].Str? && x["id"].s in contracts
                                           && FieldIs(contracts[x["id"].s], "employeeId", Str(empId))
                                           && x == WithId(x["id"].s, contracts[x["id"].s]))
      ensures forall i, j :: 0 <= i < j < |r| ==> r[i]["id"] != r[j]["id"]
    {
      r := Stream(contracts, Some(("employeeId", Str(empId))));
    }

    /** `update_contract`: None for a missing id; ValueError when a non-None `positionId`
        names no position; otherwise the non-None payload fields are merged in. */
    method UpdateContract(contractId: string, payload: Doc) returns (r: Outcome<Option<Doc>>)
      modifies this
      ensures positions == old(positions) && employees == old(employees)
      ensures r == Done(None) <==> contractId !in old(contracts)
      ensures r.ValueError? <==> contractId in old(contracts) && "positionId" in NonNull(payload)
                                 && !PositionIn(positions, payload["positionId"])
      ensures !r.LookupError?
      ensures r.ValueError? || contractId !in old(contracts) ==> contracts == old(contracts)
      ensures r.Done? && contractId in old(contracts) ==>
                contracts == old(contracts)[contractId := Merge(old(contracts)[contractId], NonNull(payload))]
                && r.value == GetContract(contractId)
    {
      if contractId !in contracts {
        return Done(None);
      }
      var data := NonNull(payload);
      if "positionId" in data && data["positionId"] != Null {
        if !(data["positionId"].Str? && PositionExists(data["positionId"].s)) {
          return ValueError("positionId inválido");
        }
      }
      if data != map[] {
        contracts := contracts[contractId := Merge(contracts[contractId], data)];
      } else {
        MergeNonNullKeeps(contracts[contractId], payload);
      }
      r := Done(GetContract(contractId));
    }

    /** `delete_contract`. */
    method DeleteContract(contractId: string) returns (ok: bool)
      modifies this
      ensures positions == old(positions) && employees == old(employees)
      ensures ok <==> contractId in old(contracts)
      ensures contracts == old(contracts) - {contractId}
    {
      ok := contractId in contracts;
      contracts := contracts - {contractId};
    }
  }
}
