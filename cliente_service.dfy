/**
 * src/services/clienteService.ts: the client registry.
 *
 * The database is an in-memory state: the client table (id to the stored
 * properties), the order table (order id to order) and the next
 * autoincrement id. `CreateOutcome`, `UpdateOutcome` and `DeleteOutcome`
 * decide what a call returns or throws; the class `ClienteStore` performs the
 * calls step by step on its state. Each call is atomic.
 */
module ClienteService {
  import opened Wrappers
  import opened JsValues
  import opened Validation
  import opened Ordering

  // ---------------------------------------------------------------------------
  // The service's own schemas (not those of src/schemas/validation.ts)

  const ServiceCreate: Schema := [
    Field("nome", Str([MinLen(1), MaxLen(100)]), false),
    Field("email", Str([Email, MaxLen(100)]), false),
    Field("cpf", Str([Length(11), Digits]), false),
    Field("telefone", Str([MaxLen(20)]), true)
  ]

  const ServiceUpdate: Schema := Partial(ServiceCreate)

  /** The properties a client has. */
  const ClienteFields: set<string> := {"nome", "email", "cpf", "telefone"}

  lemma ServiceNames()
    ensures Names(ServiceCreate) == ClienteFields
    ensures Names(ServiceUpdate) == ClienteFields
  {
    assert ServiceCreate[0].name == "nome" && ServiceCreate[1].name == "email";
    assert ServiceCreate[2].name == "cpf" && ServiceCreate[3].name == "telefone";
    assert forall n :: n in Names(ServiceCreate) ==> n in ClienteFields;
  }

  lemma ShortTextAccepts(v: Json)
    ensures RuleAccepts(Str([MaxLen(20)]), v) <==> TextWithin(v, 0, 20)
  {
    assert [MaxLen(20)][0] == MaxLen(20);
  }

  /** The service accepts nome 1..100, an email of at most 100, an 11-digit CPF and an optional telefone of at most 20. */
  lemma ServiceCreateAccepts(body: Json)
    ensures Accepts(ServiceCreate, body) <==>
      && body.JObj?
      && "nome" in body.fields && TextWithin(body.fields["nome"], 1, 100)
      && "email" in body.fields && body.fields["email"].JStr?
      && IsEmail(body.fields["email"].s) && |body.fields["email"].s| <= 100
      && "cpf" in body.fields && IsCpf(body.fields["cpf"])
      && ("telefone" in body.fields ==> TextWithin(body.fields["telefone"], 0, 20))
  {
    AcceptsFields(ServiceCreate, body);
    if body.JObj? {
      var m := body.fields;
      if "nome" in m { StrPairAccepts(MinLen(1), MaxLen(100), m["nome"]); }
      if "email" in m { StrPairAccepts(Email, MaxLen(100), m["email"]); }
      if "cpf" in m { CpfAccepts(m["cpf"]); }
      if "telefone" in m { ShortTextAccepts(m["telefone"]); }
    }
  }

  /** The update schema: any subset of the properties, each under its create rule. */
  lemma ServiceUpdateAccepts(body: Json)
    ensures Accepts(ServiceUpdate, body) <==>
      && body.JObj?
      && ("nome" in body.fields ==> TextWithin(body.fields["nome"], 1, 100))
      && ("email" in body.fields ==>
            body.fields["email"].JStr? && IsEmail(body.fields["email"].s) && |body.fields["email"].s| <= 100)
      && ("cpf" in body.fields ==> IsCpf(body.fields["cpf"]))
      && ("telefone" in body.fields ==> TextWithin(body.fields["telefone"], 0, 20))
  {
    AcceptsFields(ServiceUpdate, body);
    if body.JObj? {
      var m := body.fields;
      if "nome" in m { StrPairAccepts(MinLen(1), MaxLen(100), m["nome"]); }
      if "email" in m { StrPairAccepts(Email, MaxLen(100), m["email"]); }
      if "cpf" in m { CpfAccepts(m["cpf"]); }
      if "telefone" in m { ShortTextAccepts(m["telefone"]); }
    }
  }

  /**
   * The two client schemas disagree both ways: a one-letter name passes the
   * service and fails src/schemas/validation.ts, a 102-character email the
   * other way round.
   */
  lemma ClienteSchemasDiffer()
    ensures var body := JObj(map["nome" := JStr("A"), "email" := JStr("a@b.co"), "cpf" := JStr("12345678901")]);
      Accepts(ServiceCreate, body) && !Accepts(CreateCliente, body)
    ensures var long := seq(97, _ => 'a') + "@b.co";
      var body := JObj(map["nome" := JStr("Ana"), "email" := JStr(long), "cpf" := JStr("12345678901")]);
      !Accepts(ServiceCreate, body) && Accepts(CreateCliente, body)
  {
    var cpf := "12345678901";
    assert AllDigits(cpf) by {
      assert forall i :: 0 <= i < |cpf| ==> IsDigit(cpf[i]);
    }
    var short := "a@b.co";
    assert NoAt(short[..1]) && IsDomain(short[2..]) by {
      assert short[2..] == "b.co";
      assert short[2..][1] == '.';
    }
    assert IsEmail(short);
    var body1 := JObj(map["nome" := JStr("A"), "email" := JStr(short), "cpf" := JStr(cpf)]);
    ServiceCreateAccepts(body1);
    CreateClienteAccepts(body1);

    var long := seq(97, _ => 'a') + "@b.co";
    assert long[97] == '@' && long[..97] == seq(97, _ => 'a') && long[98..] == "b.co";
    assert NoAt(long[..97]) && IsDomain(long[98..]) by {
      assert long[98..][1] == '.';
    }
    assert IsEmail(long);
    var body2 := JObj(map["nome" := JStr("Ana"), "email" := JStr(long), "cpf" := JStr(cpf)]);
    ServiceCreateAccepts(body2);
    CreateClienteAccepts(body2);
  }

  lemma EmailNotEmpty(s: string)
    requires IsEmail(s)
    ensures s != ""
  {
  }

  // ---------------------------------------------------------------------------
  // The state

  datatype PedidoItem = PedidoItem(id: int, produtoId: int, quantidade: int, precoUnitario: real)

  /** An order row: `data` is its timestamp. */
  datatype Pedido = Pedido(id: int, clienteId: int, data: int, total: real, status: string, itens: seq<PedidoItem>)

  /** A client row as returned by create and update. */
  datatype Cliente = Cliente(id: int, fields: Record)

  type Table = map<int, Record>
  type Orders = map<int, Pedido>

  /** `findUnique({ where: { key: v } })` finds a row. */
  predicate InUse(tbl: Table, key: string, v: Json)
  {
    exists id :: id in tbl && key in tbl[id] && tbl[id][key] == v
  }

  /** No two clients share a value of `key` (the unique email and CPF columns). */
  ghost predicate Unique(tbl: Table, key: string)
  {
    forall a, b :: a in tbl && b in tbl && a != b && key in tbl[a] && key in tbl[b] ==> tbl[a][key] != tbl[b][key]
  }

  /**
   * The store invariant: ids below the autoincrement counter, every row
   * satisfies the service schema, email and CPF are unique, and every order
   * belongs to an existing client and is stored under its own id.
   */
  ghost predicate Inv(tbl: Table, orders: Orders, nextId: int)
  {
    && nextId >= 1
    && (forall id :: id in tbl ==> 1 <= id < nextId)
    && (forall id :: id in tbl ==> Accepts(ServiceCreate, JObj(tbl[id])))
    && Unique(tbl, "email")
    && Unique(tbl, "cpf")
    && (forall oid :: oid in orders ==> orders[oid].id == oid && orders[oid].clienteId in tbl)
  }

  datatype ServiceError =
    | InvalidData(issues: seq<Issue>)
    | EmailTaken
    | CpfTaken
    | NotFound
    | HasOrders

  const EmailTakenText: string := "Email já cadastrado"
  const CpfTakenText: string := "CPF já cadastrado"
  const NotFoundText: string := "Cliente não encontrado"
  // The message of clienteService.ts:163, written in two parts: the verifier
  // reads the characters of short string literals only.
  const HasOrdersText: string := "Não é possível excluir " + "cliente com pedidos associados"

  const InvalidDataPrefix: string := "Dados inválidos: "

  /**
   * The text of the `Error` the service throws: a validation failure is the
   * only one that starts with "Dados inválidos: ".
   */
  function Message(e: ServiceError): (m: string)
    ensures e.InvalidData? <==> InvalidDataPrefix <= m
  {
    match e
    case InvalidData(issues) => InvalidDataPrefix + JoinPaths(issues)
    case EmailTaken => assert EmailTakenText[0] != InvalidDataPrefix[0]; EmailTakenText
    case CpfTaken => assert CpfTakenText[0] != InvalidDataPrefix[0]; CpfTakenText
    case NotFound => assert NotFoundText[0] != InvalidDataPrefix[0]; NotFoundText
    case HasOrders => assert HasOrdersText[0] != InvalidDataPrefix[0]; HasOrdersText
  }

  function JoinPaths(issues: seq<Issue>): string
  {
    if issues == [] then ""
    else if |issues| == 1 then issues[0].path
    else issues[0].path + ", " + JoinPaths(issues[1..])
  }

  // ---------------------------------------------------------------------------
  // create

  /**
   * `create(data)`: validate, refuse a taken email, then a taken CPF, then
   * insert exactly the validated properties under the next id.
   */
  function CreateOutcome(tbl: Table, nextId: int, body: Json): (r: Result<Cliente, ServiceError>)
    ensures (r.Failure? && r.error.InvalidData?) <==> !Accepts(ServiceCreate, body)
    ensures Accepts(ServiceCreate, body) ==> body.JObj? && "email" in body.fields && "cpf" in body.fields
    ensures Accepts(ServiceCreate, body) ==>
      var email := body.fields["email"];
      var cpf := body.fields["cpf"];
      && (r == Failure(EmailTaken) <==> InUse(tbl, "email", email))
      && (r == Failure(CpfTaken) <==> !InUse(tbl, "email", email) && InUse(tbl, "cpf", cpf))
      && (r.Success? <==> !InUse(tbl, "email", email) && !InUse(tbl, "cpf", cpf))
    ensures r.Success? ==>
      && r.value.id == nextId
      && r.value.fields.Keys == body.fields.Keys * ClienteFields
      && forall k :: k in r.value.fields ==> r.value.fields[k] == body.fields[k]
    ensures r.Failure? ==> r.error.InvalidData? || r.error == EmailTaken || r.error == CpfTaken
  {
    ServiceCreateAccepts(body);
    ServiceNames();
    match Parse(ServiceCreate, body)
    case Failure(issues) => Failure(InvalidData(issues))
    case Success(data) =>
      if InUse(tbl, "email", data["email"]) then Failure(EmailTaken)
      else if InUse(tbl, "cpf", data["cpf"]) then Failure(CpfTaken)
      else Success(Cliente(nextId, data))
  }

  /** How `create` goes on once the payload has parsed to `data`. */
  lemma CreateAfterParse(tbl: Table, nextId: int, body: Json, data: Record)
    requires Parse(ServiceCreate, body) == Success(data)
    ensures "email" in data && "cpf" in data
    ensures CreateOutcome(tbl, nextId, body) ==
      if InUse(tbl, "email", data["email"]) then Failure(EmailTaken)
      else if InUse(tbl, "cpf", data["cpf"]) then Failure(CpfTaken)
      else Success(Cliente(nextId, data))
  {
    ParsedHasRequired(ServiceCreate, body, 1);
    ParsedHasRequired(ServiceCreate, body, 2);
    assert ServiceCreate[1].name == "email" && ServiceCreate[2].name == "cpf";
  }

  /** No row other than `id` holds `rec`'s value of `key`. */
  predicate FreeFor(tbl: Table, id: int, rec: Record, key: string)
  {
    key in rec ==> forall b :: b in tbl && b != id && key in tbl[b] ==> tbl[b][key] != rec[key]
  }

  /** Writing one valid row whose email and CPF no other row holds keeps the invariant. */
  lemma WriteKeepsInv(tbl: Table, orders: Orders, nextId: int, id: int, rec: Record, nextId': int)
    requires Inv(tbl, orders, nextId)
    requires 1 <= id < nextId' && nextId <= nextId'
    requires Accepts(ServiceCreate, JObj(rec))
    requires FreeFor(tbl, id, rec, "email") && FreeFor(tbl, id, rec, "cpf")
    ensures Inv(tbl[id := rec], orders, nextId')
  {
    var t := tbl[id := rec];
    forall a, b | a in t && b in t && a != b && "email" in t[a] && "email" in t[b]
      ensures t[a]["email"] != t[b]["email"]
    {
    }
    forall a, b | a in t && b in t && a != b && "cpf" in t[a] && "cpf" in t[b]
      ensures t[a]["cpf"] != t[b]["cpf"]
    {
    }
  }

  /** A successful create keeps the invariant and adds exactly one client. */
  lemma CreateKeepsInv(tbl: Table, orders: Orders, nextId: int, body: Json)
    requires Inv(tbl, orders, nextId)
    requires CreateOutcome(tbl, nextId, body).Success?
    ensures var c := CreateOutcome(tbl, nextId, body).value;
      && c.id !in tbl
      && Inv(tbl[c.id := c.fields], orders, nextId + 1)
      && Count(tbl[c.id := c.fields]) == Count(tbl) + 1
  {
    var data := Parse(ServiceCreate, body).value;
    CreateAfterParse(tbl, nextId, body, data);
    NewRowFacts(tbl, nextId, body);
    WriteKeepsInv(tbl, orders, nextId, nextId, data, nextId + 1);
    InsertCount(tbl, nextId, data);
  }

  /** Writing a row under a new id adds one client. */
  lemma InsertCount(tbl: Table, id: int, row: Record)
    requires id !in tbl
    ensures Count(tbl[id := row]) == Count(tbl) + 1
  {
    assert tbl[id := row].Keys == tbl.Keys + {id};
  }

  /** The row a successful create writes satisfies the schema and clashes with no other row. */
  lemma NewRowFacts(tbl: Table, nextId: int, body: Json)
    requires CreateOutcome(tbl, nextId, body).Success?
    ensures var c := CreateOutcome(tbl, nextId, body).value;
      && Accepts(ServiceCreate, JObj(c.fields))
      && FreeFor(tbl, c.id, c.fields, "email") && FreeFor(tbl, c.id, c.fields, "cpf")
  {
    var data := Parse(ServiceCreate, body).value;
    CreateAfterParse(tbl, nextId, body, data);
    ParseIdempotent(ServiceCreate, body);
    assert !InUse(tbl, "email", data["email"]) && !InUse(tbl, "cpf", data["cpf"]);
  }

  // ---------------------------------------------------------------------------
  // update

  /**
   * `if (validatedData[key] && validatedData[key] !== cliente[key])`: the
   * property is supplied, truthy, and differs from the client's own value.
   */
  predicate Rechecks(current: Record, patch: Record, key: string)
  {
    key in patch && Truthy(patch[key]) && (key !in current || current[key] != patch[key])
  }

  /**
   * `update(id, data)`: validate first, then require the client to exist,
   * then re-check email and CPF only where they change, then overwrite the
   * supplied properties.
   */
  function UpdateOutcome(tbl: Table, id: int, body: Json): (r: Result<Cliente, ServiceError>)
    ensures (r.Failure? && r.error.InvalidData?) <==> !Accepts(ServiceUpdate, body)
    ensures r == Failure(NotFound) <==> Accepts(ServiceUpdate, body) && id !in tbl
    ensures r.Success? ==> id in tbl && r.value.id == id
    ensures r.Failure? ==> r.error.InvalidData? || r.error == NotFound || r.error == EmailTaken || r.error == CpfTaken
  {
    match Parse(ServiceUpdate, body)
    case Failure(issues) => Failure(InvalidData(issues))
    case Success(patch) =>
      if id !in tbl then Failure(NotFound)
      else if Rechecks(tbl[id], patch, "email") && InUse(tbl, "email", patch["email"]) then Failure(EmailTaken)
      else if Rechecks(tbl[id], patch, "cpf") && InUse(tbl, "cpf", patch["cpf"]) then Failure(CpfTaken)
      else Success(Cliente(id, tbl[id] + patch))
  }

  /** How `update` goes on once the payload has parsed to `patch`. */
  lemma UpdateAfterParse(tbl: Table, id: int, body: Json, patch: Record)
    requires Parse(ServiceUpdate, body) == Success(patch)
    ensures id !in tbl ==> UpdateOutcome(tbl, id, body) == Failure(NotFound)
    ensures id in tbl ==>
      var emailTaken := Rechecks(tbl[id], patch, "email") && InUse(tbl, "email", patch["email"]);
      var cpfTaken := Rechecks(tbl[id], patch, "cpf") && InUse(tbl, "cpf", patch["cpf"]);
      UpdateOutcome(tbl, id, body) ==
        if emailTaken then Failure(EmailTaken)
        else if cpfTaken then Failure(CpfTaken)
        else Success(Cliente(id, tbl[id] + patch))
  {
  }

  /**
   * An update is refused for a taken email exactly when the email is
   * supplied, truthy, differs from the client's own and some client holds
   * it; likewise for the CPF, checked after the email.
   */
  lemma UpdateRefusals(tbl: Table, id: int, body: Json)
    requires Accepts(ServiceUpdate, body) && id in tbl
    ensures var r := UpdateOutcome(tbl, id, body);
      && (r == Failure(EmailTaken) <==>
            Rechecks(tbl[id], body.fields, "email") && InUse(tbl, "email", body.fields["email"]))
      && (r == Failure(CpfTaken) <==>
            !(Rechecks(tbl[id], body.fields, "email") && InUse(tbl, "email", body.fields["email"]))
            && Rechecks(tbl[id], body.fields, "cpf") && InUse(tbl, "cpf", body.fields["cpf"]))
      && (r.Success? <==>
            !(Rechecks(tbl[id], body.fields, "email") && InUse(tbl, "email", body.fields["email"]))
            && !(Rechecks(tbl[id], body.fields, "cpf") && InUse(tbl, "cpf", body.fields["cpf"])))
  {
    ServiceNames();
    var patch := Parse(ServiceUpdate, body).value;
    UpdateAfterParse(tbl, id, body, patch);
    assert Rechecks(tbl[id], patch, "email") == Rechecks(tbl[id], body.fields, "email");
    assert Rechecks(tbl[id], patch, "cpf") == Rechecks(tbl[id], body.fields, "cpf");
  }

  /**
   * A successful update overwrites exactly the supplied client properties
   * of that client and keeps the rest of its row.
   */
  lemma UpdateWrites(tbl: Table, id: int, body: Json)
    requires UpdateOutcome(tbl, id, body).Success?
    ensures var c := UpdateOutcome(tbl, id, body).value;
      && (forall k :: k in ClienteFields && k in body.fields ==> k in c.fields && c.fields[k] == body.fields[k])
      && (forall k :: !(k in ClienteFields && k in body.fields) ==>
            (k in c.fields <==> k in tbl[id]) && (k in tbl[id] ==> c.fields[k] == tbl[id][k]))
  {
    var patch := Parse(ServiceUpdate, body).value;
    UpdateAfterParse(tbl, id, body, patch);
    ServiceNames();
  }

  /** A value the email rule or the CPF rule accepts is a non-empty string, hence truthy. */
  lemma UniqueKeyTruthy(i: nat, v: Json)
    requires i == 1 || i == 2
    requires RuleAccepts(ServiceCreate[i].rule, v)
    ensures Truthy(v)
  {
    var cs := ServiceCreate[i].rule.strChecks;
    if i == 1 {
      assert cs[0] == Email;
      EmailNotEmpty(v.s);
    } else {
      assert cs[0] == Length(11);
    }
  }

  /** A stored row holds a truthy email and a truthy CPF. */
  lemma RowKeys(row: Record)
    requires Accepts(ServiceCreate, JObj(row))
    ensures "email" in row && Truthy(row["email"])
    ensures "cpf" in row && Truthy(row["cpf"])
  {
    assert FieldAccepts(ServiceCreate[1], row) && FieldAccepts(ServiceCreate[2], row);
    UniqueKeyTruthy(1, row["email"]);
    UniqueKeyTruthy(2, row["cpf"]);
  }

  /** In an accepted update payload, a supplied email or CPF is truthy. */
  lemma PatchKeys(body: Json)
    requires Accepts(ServiceUpdate, body)
    ensures "email" in body.fields ==> Truthy(body.fields["email"])
    ensures "cpf" in body.fields ==> Truthy(body.fields["cpf"])
  {
    PartialAccepts(ServiceCreate, body);
    assert ServiceCreate[1].name == "email" && ServiceCreate[2].name == "cpf";
    if "email" in body.fields {
      UniqueKeyTruthy(1, body.fields["email"]);
    }
    if "cpf" in body.fields {
      UniqueKeyTruthy(2, body.fields["cpf"]);
    }
  }

  /**
   * A unique value that the update either leaves as it was or re-checks and
   * finds free is held by no other client after the update.
   */
  lemma UpdatedRowFree(tbl: Table, id: int, patch: Record, key: string)
    requires id in tbl && Unique(tbl, key) && key in tbl[id]
    requires key in patch ==> Truthy(patch[key])
    requires !(Rechecks(tbl[id], patch, key) && InUse(tbl, key, patch[key]))
    ensures FreeFor(tbl, id, tbl[id] + patch, key)
  {
    if key in patch && tbl[id][key] != patch[key] {
      assert !InUse(tbl, key, patch[key]);
    }
  }

  /** The row a successful update writes satisfies the schema and clashes with no other row. */
  lemma UpdatedRowFits(tbl: Table, id: int, body: Json, patch: Record)
    requires id in tbl && Accepts(ServiceCreate, JObj(tbl[id]))
    requires Unique(tbl, "email") && Unique(tbl, "cpf")
    requires Parse(ServiceUpdate, body) == Success(patch)
    requires UpdateOutcome(tbl, id, body).Success?
    ensures Accepts(ServiceCreate, JObj(tbl[id] + patch))
    ensures FreeFor(tbl, id, tbl[id] + patch, "email") && FreeFor(tbl, id, tbl[id] + patch, "cpf")
  {
    UpdateAfterParse(tbl, id, body, patch);
    ParseIdempotent(ServiceUpdate, body);
    PatchPreservesAcceptance(ServiceCreate, tbl[id], patch);
    RowKeys(tbl[id]);
    PatchKeys(JObj(patch));
    UpdatedRowFree(tbl, id, patch, "email");
    UpdatedRowFree(tbl, id, patch, "cpf");
  }

  /** A successful update keeps the invariant and the number of clients. */
  lemma UpdateKeepsInv(tbl: Table, orders: Orders, nextId: int, id: int, body: Json)
    requires Inv(tbl, orders, nextId)
    requires UpdateOutcome(tbl, id, body).Success?
    ensures var c := UpdateOutcome(tbl, id, body).value;
      && Inv(tbl[id := c.fields], orders, nextId)
      && Count(tbl[id := c.fields]) == Count(tbl)
  {
    var patch := Parse(ServiceUpdate, body).value;
    UpdateAfterParse(tbl, id, body, patch);
    var c := UpdateOutcome(tbl, id, body).value;
    UpdatedRowFits(tbl, id, body, patch);
    WriteKeepsInv(tbl, orders, nextId, id, c.fields, nextId);
    assert tbl[id := c.fields].Keys == tbl.Keys;
  }

  /** An accepted update payload that names only client properties parses to itself. */
  lemma UpdateParsesToItself(body: Json)
    requires Accepts(ServiceUpdate, body) && body.fields.Keys <= ClienteFields
    ensures Parse(ServiceUpdate, body) == Success(body.fields)
  {
    ServiceNames();
    ParseKeepsNamedOnly(ServiceUpdate, body);
  }

  /** Re-submitting a client's own email and CPF succeeds and changes nothing. */
  lemma ResubmitOwnValues(tbl: Table, orders: Orders, nextId: int, id: int)
    requires Inv(tbl, orders, nextId) && id in tbl
    ensures "email" in tbl[id] && "cpf" in tbl[id]
    ensures var body := JObj(map["email" := tbl[id]["email"], "cpf" := tbl[id]["cpf"]]);
      UpdateOutcome(tbl, id, body) == Success(Cliente(id, tbl[id]))
  {
    ResubmitRow(tbl, id);
  }

  lemma ResubmitRow(tbl: Table, id: int)
    requires id in tbl && Accepts(ServiceCreate, JObj(tbl[id]))
    ensures "email" in tbl[id] && "cpf" in tbl[id]
    ensures var body := JObj(map["email" := tbl[id]["email"], "cpf" := tbl[id]["cpf"]]);
      UpdateOutcome(tbl, id, body) == Success(Cliente(id, tbl[id]))
  {
    RowKeys(tbl[id]);
    var body := JObj(map["email" := tbl[id]["email"], "cpf" := tbl[id]["cpf"]]);
    PartOfAcceptedAccepted(ServiceCreate, tbl[id], body.fields);
    UpdateParsesToItself(body);
    var patch := body.fields;
    UpdateAfterParse(tbl, id, body, patch);
    assert !Rechecks(tbl[id], patch, "email") && !Rechecks(tbl[id], patch, "cpf");
    MergeOwnValues(tbl[id], patch);
  }

  /** Overwriting properties with the values they already have changes nothing. */
  lemma MergeOwnValues(row: Record, patch: Record)
    requires forall k :: k in patch ==> k in row && row[k] == patch[k]
    ensures row + patch == row
  {
    assert (row + patch).Keys == row.Keys;
  }

  /** Moving a client to another client's email fails with "Email já cadastrado". */
  lemma UpdateToOthersEmail(tbl: Table, orders: Orders, nextId: int, id: int, other: int)
    requires Inv(tbl, orders, nextId) && id in tbl && other in tbl && id != other
    ensures "email" in tbl[other]
    ensures UpdateOutcome(tbl, id, JObj(map["email" := tbl[other]["email"]])) == Failure(EmailTaken)
  {
    RowKeys(tbl[id]);
    RowKeys(tbl[other]);
    var body := JObj(map["email" := tbl[other]["email"]]);
    PartOfAcceptedAccepted(ServiceCreate, tbl[other], body.fields);
    UpdateParsesToItself(body);
    var patch := body.fields;
    UpdateAfterParse(tbl, id, body, patch);
    assert Rechecks(tbl[id], patch, "email");
    assert InUse(tbl, "email", patch["email"]);
  }

  // ---------------------------------------------------------------------------
  // delete

  /** The orders of client `cid`. */
  function OrdersOf(orders: Orders, cid: int): map<int, Pedido>
  {
    map oid | oid in orders && orders[oid].clienteId == cid :: orders[oid]
  }

  /** `prisma.pedido.count({ where: { clienteId } })`. */
  function OrderCount(orders: Orders, cid: int): (n: nat)
    ensures n > 0 <==> exists oid :: oid in orders && orders[oid].clienteId == cid
  {
    OrdersOfNonEmpty(orders, cid);
    |OrdersOf(orders, cid)|
  }

  lemma OrdersOfNonEmpty(orders: Orders, cid: int)
    ensures |OrdersOf(orders, cid)| > 0 <==> exists oid :: oid in orders && orders[oid].clienteId == cid
  {
    if exists oid :: oid in orders && orders[oid].clienteId == cid {
      var oid :| oid in orders && orders[oid].clienteId == cid;
      assert oid in OrdersOf(orders, cid).Keys;
    }
  }

  /** `delete(id)`: the client must exist and own no order. */
  function DeleteOutcome(tbl: Table, orders: Orders, id: int): (r: Result<(), ServiceError>)
    ensures r == Failure(NotFound) <==> id !in tbl
    ensures r == Failure(HasOrders) <==>
      id in tbl && exists oid :: oid in orders && orders[oid].clienteId == id
    ensures r.Success? <==>
      id in tbl && forall oid :: oid in orders ==> orders[oid].clienteId != id
  {
    if id !in tbl then Failure(NotFound)
    else if OrderCount(orders, id) > 0 then Failure(HasOrders)
    else Success(())
  }

  /** A successful delete keeps the invariant (no order is orphaned) and removes one client. */
  lemma DeleteKeepsInv(tbl: Table, orders: Orders, nextId: int, id: int)
    requires Inv(tbl, orders, nextId)
    requires DeleteOutcome(tbl, orders, id).Success?
    ensures Inv(tbl - {id}, orders, nextId)
    ensures Count(tbl - {id}) == Count(tbl) - 1
  {
    assert (tbl - {id}).Keys == tbl.Keys - {id};
  }

  // ---------------------------------------------------------------------------
  // Queries

  /** `prisma.cliente.count()`. */
  function Count(tbl: Table): (n: nat)
    ensures n == 0 <==> tbl == map[]
    ensures forall id :: id in tbl ==> n >= 1
  {
    |tbl|
  }

  predicate NewerOrSame(p: Pedido, q: Pedido)
  {
    p.data >= q.data
  }

  /** The stored name of a client ("" if it has none). */
  function NomeOf(rec: Record): string
  {
    if "nome" in rec && rec["nome"].JStr? then rec["nome"].s else ""
  }

  predicate NomeLe(a: Record, b: Record)
  {
    StrLe(NomeOf(a), NomeOf(b))
  }

  lemma NewerOrSameIsTotalPreorder()
    ensures TotalPreorder(NewerOrSame)
  {
  }

  lemma NomeLeIsTotalPreorder()
    ensures TotalPreorder(NomeLe)
  {
    forall a: Record, b: Record ensures NomeLe(a, b) || NomeLe(b, a) {
      StrLeTotal(NomeOf(a), NomeOf(b));
    }
    forall a: Record, b: Record, c: Record | NomeLe(a, b) && NomeLe(b, c) ensures NomeLe(a, c) {
      StrLeTransitive(NomeOf(a), NomeOf(b), NomeOf(c));
    }
  }

  /** The values of `m` at the keys `ks`, in that order. */
  function ValuesAt<T>(m: map<int, T>, ks: seq<int>): (vs: seq<T>)
    requires forall i :: 0 <= i < |ks| ==> ks[i] in m
    ensures |vs| == |ks| && forall i :: 0 <= i < |ks| ==> vs[i] == m[ks[i]]
  {
    seq(|ks|, i requires 0 <= i < |ks| => m[ks[i]])
  }

  /** All orders of a client, newest first (`orderBy: { data: 'desc' }`). */
  ghost function History(orders: Orders, cid: int): (h: seq<Pedido>)
    ensures |h| == OrderCount(orders, cid)
    ensures forall i :: 0 <= i < |h| ==> h[i] in orders.Values && h[i].clienteId == cid
    ensures forall oid :: oid in orders && orders[oid].clienteId == cid ==> orders[oid] in h
    ensures forall i, j :: 0 <= i < j < |h| ==> h[i].data >= h[j].data
  {
    NewerOrSameIsTotalPreorder();
    var ks := SortBy(OrdersOf(orders, cid), NewerOrSame);
    HistoryFacts(orders, cid, ks);
    ValuesAt(OrdersOf(orders, cid), ks)
  }

  lemma HistoryFacts(orders: Orders, cid: int, ks: seq<int>)
    requires |ks| == |OrdersOf(orders, cid)|
    requires forall i :: 0 <= i < |ks| ==> ks[i] in OrdersOf(orders, cid)
    requires forall k :: k in OrdersOf(orders, cid) ==> k in ks
    requires forall i, j :: 0 <= i < j < |ks| ==> NewerOrSame(OrdersOf(orders, cid)[ks[i]], OrdersOf(orders, cid)[ks[j]])
    ensures var h := ValuesAt(OrdersOf(orders, cid), ks);
      && (forall i :: 0 <= i < |h| ==> h[i] in orders.Values && h[i].clienteId == cid)
      && (forall oid :: oid in orders && orders[oid].clienteId == cid ==> orders[oid] in h)
      && (forall i, j :: 0 <= i < j < |h| ==> h[i].data >= h[j].data)
  {
    var om := OrdersOf(orders, cid);
    var h := ValuesAt(om, ks);
    forall i | 0 <= i < |h| ensures h[i] in orders.Values && h[i].clienteId == cid {
      assert h[i] == orders[ks[i]];
    }
    forall oid | oid in orders && orders[oid].clienteId == cid ensures orders[oid] in h {
      assert oid in om;
      var p :| 0 <= p < |ks| && ks[p] == oid;
      assert h[p] == orders[oid];
    }
  }

  /** The columns of an order that the listing selects. */
  datatype PedidoResumo = PedidoResumo(id: int, data: int, total: real, status: string)

  function Resumo(p: Pedido): PedidoResumo
  {
    PedidoResumo(p.id, p.data, p.total, p.status)
  }

  /** The summaries of the first `n` orders of `h`. */
  function Summaries(h: seq<Pedido>, n: nat): (r: seq<PedidoResumo>)
    requires n <= |h|
    ensures |r| == n && forall i :: 0 <= i < n ==> r[i] == Resumo(h[i])
  {
    seq(n, i requires 0 <= i < n => Resumo(h[i]))
  }

  /** Order `oid` of client `cid` is newer than the last of `r`, or `r` has room. */
  predicate MustList(orders: Orders, cid: int, r: seq<PedidoResumo>, oid: int)
  {
    oid in orders && orders[oid].clienteId == cid && (|r| < 5 || orders[oid].data > r[|r| - 1].data)
  }

  /**
   * The at most five newest orders of a client (`take: 5`): a prefix of its
   * history, and any order strictly newer than the last one listed is listed.
   */
  ghost function Recent(orders: Orders, cid: int): (r: seq<PedidoResumo>)
    ensures |r| == if OrderCount(orders, cid) < 5 then OrderCount(orders, cid) else 5
    ensures forall i :: 0 <= i < |r| ==> r[i] == Resumo(History(orders, cid)[i])
    ensures forall i, j :: 0 <= i < j < |r| ==> r[i].data >= r[j].data
    ensures forall oid :: MustList(orders, cid, r, oid) ==> Resumo(orders[oid]) in r
  {
    var h := History(orders, cid);
    var r := Summaries(h, if |h| < 5 then |h| else 5);
    RecentFacts(orders, cid, h, r);
    r
  }

  lemma RecentFacts(orders: Orders, cid: int, h: seq<Pedido>, r: seq<PedidoResumo>)
    requires forall oid :: oid in orders && orders[oid].clienteId == cid ==> orders[oid] in h
    requires forall i, j :: 0 <= i < j < |h| ==> h[i].data >= h[j].data
    requires |r| == if |h| < 5 then |h| else 5
    requires forall i :: 0 <= i < |r| ==> r[i] == Resumo(h[i])
    ensures forall oid :: MustList(orders, cid, r, oid) ==> Resumo(orders[oid]) in r
  {
    forall oid | MustList(orders, cid, r, oid) ensures Resumo(orders[oid]) in r {
      var p :| 0 <= p < |h| && h[p] == orders[oid];
      if p >= |r| {
        assert false;
      }
      assert r[p] == Resumo(orders[oid]);
    }
  }

  /** A row of the client listing: the client and its newest orders. */
  datatype ClienteResumo = ClienteResumo(id: int, fields: Record, pedidos: seq<PedidoResumo>)

  /**
   * `findAll()`: every client exactly once, by name ascending, each with its
   * five newest orders.
   */
  ghost function FindAll(tbl: Table, orders: Orders): (r: seq<ClienteResumo>)
    ensures |r| == Count(tbl)
    ensures forall i :: 0 <= i < |r| ==>
      r[i].id in tbl && r[i].fields == tbl[r[i].id] && r[i].pedidos == Recent(orders, r[i].id)
    ensures forall id :: id in tbl ==> exists i :: 0 <= i < |r| && r[i].id == id
    ensures forall i, j :: 0 <= i < j < |r| ==> r[i].id != r[j].id
    ensures forall i, j :: 0 <= i < j < |r| ==> StrLe(NomeOf(r[i].fields), NomeOf(r[j].fields))
  {
    NomeLeIsTotalPreorder();
    var ks := SortBy(tbl, NomeLe);
    var r := Listing(tbl, orders, ks);
    FindAllFacts(tbl, orders, ks, r);
    r
  }

  /** The listing rows of the clients `ks`, in that order. */
  ghost function Listing(tbl: Table, orders: Orders, ks: seq<int>): (r: seq<ClienteResumo>)
    requires forall i :: 0 <= i < |ks| ==> ks[i] in tbl
    ensures |r| == |ks|
    ensures forall i :: 0 <= i < |ks| ==> r[i] == ClienteResumo(ks[i], tbl[ks[i]], Recent(orders, ks[i]))
  {
    seq(|ks|, i requires 0 <= i < |ks| => ClienteResumo(ks[i], tbl[ks[i]], Recent(orders, ks[i])))
  }

  lemma FindAllFacts(tbl: Table, orders: Orders, ks: seq<int>, r: seq<ClienteResumo>)
    requires forall i :: 0 <= i < |ks| ==> ks[i] in tbl
    requires forall k :: k in tbl ==> k in ks
    requires forall i, j :: 0 <= i < j < |ks| ==> NomeLe(tbl[ks[i]], tbl[ks[j]])
    requires |r| == |ks| && forall i :: 0 <= i < |ks| ==> r[i] == ClienteResumo(ks[i], tbl[ks[i]], Recent(orders, ks[i]))
    ensures forall id :: id in tbl ==> exists i :: 0 <= i < |r| && r[i].id == id
    ensures forall i, j :: 0 <= i < j < |r| ==> StrLe(NomeOf(r[i].fields), NomeOf(r[j].fields))
  {
    forall id | id in tbl ensures exists i :: 0 <= i < |r| && r[i].id == id {
      var p :| 0 <= p < |ks| && ks[p] == id;
      assert r[p].id == id;
    }
  }

  /** A client with its full order history. */
  datatype ClienteDetalhe = ClienteDetalhe(id: int, fields: Record, pedidos: seq<Pedido>)

  /** `findById(id)`: the client with all its orders newest first, or null. */
  ghost function FindById(tbl: Table, orders: Orders, id: int): (r: Option<ClienteDetalhe>)
    ensures r.Some? <==> id in tbl
    ensures r.Some? ==> r.value.id == id && r.value.fields == tbl[id] && r.value.pedidos == History(orders, id)
  {
    if id in tbl then Some(ClienteDetalhe(id, tbl[id], History(orders, id))) else None
  }

  /**
   * `findByEmail(email)`: the client holding that email, or null. The model
   * lists its orders newest first.
   */
  ghost function FindByEmail(tbl: Table, orders: Orders, email: string): (r: Option<ClienteDetalhe>)
    ensures r.Some? <==> InUse(tbl, "email", JStr(email))
    ensures r.Some? ==> r.value.id in tbl && "email" in r.value.fields && r.value.fields["email"] == JStr(email)
    ensures r.Some? ==> FindById(tbl, orders, r.value.id) == r
  {
    if InUse(tbl, "email", JStr(email)) then
      var id :| id in tbl && "email" in tbl[id] && tbl[id]["email"] == JStr(email);
      Some(ClienteDetalhe(id, tbl[id], History(orders, id)))
    else None
  }

  /** With unique emails, looking a client up by its email finds that very client. */
  lemma FindByEmailFindsOwner(tbl: Table, orders: Orders, nextId: int, id: int)
    requires Inv(tbl, orders, nextId) && id in tbl
    ensures "email" in tbl[id] && tbl[id]["email"].JStr?
    ensures FindByEmail(tbl, orders, tbl[id]["email"].s) == FindById(tbl, orders, id)
  {
    ServiceCreateAccepts(JObj(tbl[id]));
    var r := FindByEmail(tbl, orders, tbl[id]["email"].s);
    assert InUse(tbl, "email", tbl[id]["email"]);
    assert r.value.id == id;
  }

  // ---------------------------------------------------------------------------
  // The service object over its in-memory tables

  class ClienteStore {
    var clientes: Table
    var pedidos: Orders
    var nextId: int

    ghost predicate Valid()
      reads this
    {
      Inv(clientes, pedidos, nextId)
    }

    /** A store over existing tables that already satisfy the invariant. */
    constructor (clientes0: Table, pedidos0: Orders, nextId0: int)
      requires Inv(clientes0, pedidos0, nextId0)
      ensures Valid()
      ensures clientes == clientes0 && pedidos == pedidos0 && nextId == nextId0
    {
      clientes := clientes0;
      pedidos := pedidos0;
      nextId := nextId0;
    }

    method Create(body: Json) returns (r: Result<Cliente, ServiceError>)
      requires Valid()
      modifies this
      ensures Valid()
      ensures r == CreateOutcome(old(clientes), old(nextId), body)
      ensures r.Success? ==> clientes == old(clientes)[r.value.id := r.value.fields] && nextId == old(nextId) + 1
      ensures r.Failure? ==> clientes == old(clientes) && nextId == old(nextId)
      ensures pedidos == old(pedidos)
    {
      var parsed := Parse(ServiceCreate, body);
      if parsed.Failure? {
        return Failure(InvalidData(parsed.error));
      }
      var data := parsed.value;
      CreateAfterParse(clientes, nextId, body, data);
      if InUse(clientes, "email", data["email"]) {
        return Failure(EmailTaken);
      }
      if InUse(clientes, "cpf", data["cpf"]) {
        return Failure(CpfTaken);
      }
      CreateKeepsInv(clientes, pedidos, nextId, body);
      r := Success(Cliente(nextId, data));
      clientes := clientes[nextId := data];
      nextId := nextId + 1;
    }

    method Update(id: int, body: Json) returns (r: Result<Cliente, ServiceError>)
      requires Valid()
      modifies this
      ensures Valid()
      ensures r == UpdateOutcome(old(clientes), id, body)
      ensures r.Success? ==> clientes == old(clientes)[id := r.value.fields]
      ensures r.Failure? ==> clientes == old(clientes)
      ensures pedidos == old(pedidos) && nextId == old(nextId)
    {
      var parsed := Parse(ServiceUpdate, body);
      if parsed.Failure? {
        return Failure(InvalidData(parsed.error));
      }
      var patch := parsed.value;
      UpdateAfterParse(clientes, id, body, patch);
      if id !in clientes {
        return Failure(NotFound);
      }
      var current := clientes[id];
      if Rechecks(current, patch, "email") && InUse(clientes, "email", patch["email"]) {
        return Failure(EmailTaken);
      }
      if Rechecks(current, patch, "cpf") && InUse(clientes, "cpf", patch["cpf"]) {
        return Failure(CpfTaken);
      }
      UpdateKeepsInv(clientes, pedidos, nextId, id, body);
      clientes := clientes[id := current + patch];
      r := Success(Cliente(id, current + patch));
    }

    method Delete(id: int) returns (r: Result<(), ServiceError>)
      requires Valid()
      modifies this
      ensures Valid()
      ensures r == DeleteOutcome(old(clientes), old(pedidos), id)
      ensures r.Success? ==> clientes == old(clientes) - {id}
      ensures r.Failure? ==> clientes == old(clientes)
      ensures pedidos == old(pedidos) && nextId == old(nextId)
    {
      if id !in clientes {
        return Failure(NotFound);
      }
      if OrderCount(pedidos, id) > 0 {
        return Failure(HasOrders);
      }
      DeleteKeepsInv(clientes, pedidos, nextId, id);
      clientes := clientes - {id};
      r := Success(());
    }
  }
}
