/**
 * The request schemas of src/schemas/validation.ts.
 *
 * A zod object schema is a value: an ordered list of fields, each with a
 * chain of checks and an `optional` flag. `Parse` is what `schema.parse(body)`
 * does with such a value, and `Partial` is `schema.partial()`. Every string or
 * number check of a chain runs and reports its own issue; a value of the wrong
 * type reports only that.
 */
module Validation {
  import opened Wrappers
  import opened JsValues

  /** One link of a `z.string()` chain. */
  datatype StrCheck =
    | MinLen(min: nat)      // .min(n)
    | MaxLen(max: nat)      // .max(n)
    | Length(len: nat)      // .length(n)
    | Email                 // .email()
    | Digits                // .regex(/^\d+$/)

  /** One link of a `z.number()` chain. */
  datatype NumCheck =
    | Int                   // .int()
    | Positive              // .positive()
    | NonNegative           // .nonnegative()

  /**
   * What `new Date(s)` and `new Date()` stand for: a parser giving epoch
   * milliseconds (None for an invalid date) and the current time.
   */
  datatype Clock = Clock(parseDate: string -> Option<int>, now: int)

  datatype Rule =
    | Str(strChecks: seq<StrCheck>)
    | Num(numChecks: seq<NumCheck>)
    | DateNotAfterNow(clock: Clock)   // string refined to a valid, non-future date

  datatype Field = Field(name: string, rule: Rule, optional: bool)

  /** A `z.object({...})` shape, in declaration order. */
  type Schema = seq<Field>

  datatype Violation =
    | Required
    | WrongType
    | StrFailed(strCheck: StrCheck)
    | NumFailed(numCheck: NumCheck)
    | InvalidDate
    | FutureDate
    | NotPositive

  /** A zod issue: the property it is about ("" for the object itself) and what failed. */
  datatype Issue = Issue(path: string, violation: Violation)

  // ---------------------------------------------------------------------------
  // Checks

  /**
   * The email format check. The library's own pattern is not part of this
   * model; this stands for it: a non-empty local part, one '@', and a domain
   * with a '.' that is neither its first nor its last character.
   */
  predicate IsEmail(s: string)
  {
    exists i :: 0 < i < |s| && s[i] == '@' && NoAt(s[..i]) && IsDomain(s[i + 1..])
  }

  predicate NoAt(s: string)
  {
    forall i :: 0 <= i < |s| ==> s[i] != '@'
  }

  predicate IsDomain(d: string)
  {
    NoAt(d) && exists j :: 0 < j < |d| - 1 && d[j] == '.'
  }

  predicate StrCheckHolds(c: StrCheck, s: string)
  {
    match c
    case MinLen(n) => |s| >= n
    case MaxLen(n) => |s| <= n
    case Length(n) => |s| == n
    case Email => IsEmail(s)
    case Digits => AllDigits(s)
  }

  predicate IsWhole(x: real)
  {
    x.Floor as real == x
  }

  predicate NumCheckHolds(c: NumCheck, x: real)
  {
    match c
    case Int => IsWhole(x)
    case Positive => x > 0.0
    case NonNegative => x >= 0.0
  }

  /** A `dataPedido` refinement pair: a valid date that is not in the future. */
  predicate DateOk(clock: Clock, s: string)
  {
    clock.parseDate(s).Some? && clock.parseDate(s).value <= clock.now
  }

  /** What it means for one value to satisfy a rule. */
  predicate RuleAccepts(rule: Rule, v: Json)
  {
    match rule
    case Str(cs) => v.JStr? && forall i :: 0 <= i < |cs| ==> StrCheckHolds(cs[i], v.s)
    case Num(cs) => v.JNum? && forall i :: 0 <= i < |cs| ==> NumCheckHolds(cs[i], v.n)
    case DateNotAfterNow(clock) => v.JStr? && DateOk(clock, v.s)
  }

  /** The issues of a string chain, one per failing link, in chain order. */
  function StrViolations(cs: seq<StrCheck>, s: string): (vs: seq<Violation>)
    ensures vs == [] <==> forall i :: 0 <= i < |cs| ==> StrCheckHolds(cs[i], s)
    ensures forall v :: v in vs ==> v.StrFailed? && v.strCheck in cs && !StrCheckHolds(v.strCheck, s)
    ensures forall c :: c in cs && !StrCheckHolds(c, s) ==> StrFailed(c) in vs
  {
    if cs == [] then []
    else
      var rest := StrViolations(cs[1..], s);
      assert forall i :: 1 <= i < |cs| ==> cs[i] == cs[1..][i - 1];
      assert forall c :: c in cs && c != cs[0] ==> c in cs[1..];
      if StrCheckHolds(cs[0], s) then rest else [StrFailed(cs[0])] + rest
  }

  /** The issues of a number chain, one per failing link, in chain order. */
  function NumViolations(cs: seq<NumCheck>, x: real): (vs: seq<Violation>)
    ensures vs == [] <==> forall i :: 0 <= i < |cs| ==> NumCheckHolds(cs[i], x)
    ensures forall v :: v in vs ==> v.NumFailed? && v.numCheck in cs && !NumCheckHolds(v.numCheck, x)
    ensures forall c :: c in cs && !NumCheckHolds(c, x) ==> NumFailed(c) in vs
  {
    if cs == [] then []
    else
      var rest := NumViolations(cs[1..], x);
      assert forall i :: 1 <= i < |cs| ==> cs[i] == cs[1..][i - 1];
      assert forall c :: c in cs && c != cs[0] ==> c in cs[1..];
      if NumCheckHolds(cs[0], x) then rest else [NumFailed(cs[0])] + rest
  }

  /**
   * The issues one value raises against a rule. Both date refinements run:
   * an invalid date also fails the "not in the future" comparison.
   */
  function RuleViolations(rule: Rule, v: Json): (vs: seq<Violation>)
    ensures vs == [] <==> RuleAccepts(rule, v)
    ensures (rule.Str? && !v.JStr?) || (rule.Num? && !v.JNum?) || (rule.DateNotAfterNow? && !v.JStr?) ==>
      vs == [WrongType]
    ensures rule.Str? && v.JStr? ==>
      && (forall x :: x in vs ==> x.StrFailed? && x.strCheck in rule.strChecks)
      && (forall c :: c in rule.strChecks ==> (StrFailed(c) in vs <==> !StrCheckHolds(c, v.s)))
    ensures rule.Num? && v.JNum? ==>
      && (forall x :: x in vs ==> x.NumFailed? && x.numCheck in rule.numChecks)
      && (forall c :: c in rule.numChecks ==> (NumFailed(c) in vs <==> !NumCheckHolds(c, v.n)))
    ensures rule.DateNotAfterNow? && v.JStr? ==>
      && (forall x :: x in vs ==> x == InvalidDate || x == FutureDate)
      && (InvalidDate in vs <==> rule.clock.parseDate(v.s).None?)
      && (FutureDate in vs <==> !DateOk(rule.clock, v.s))
  {
    match rule
    case Str(cs) => if v.JStr? then StrViolations(cs, v.s) else [WrongType]
    case Num(cs) => if v.JNum? then NumViolations(cs, v.n) else [WrongType]
    case DateNotAfterNow(clock) =>
      if !v.JStr? then [WrongType]
      else
        (if clock.parseDate(v.s).None? then [InvalidDate] else [])
        + (if DateOk(clock, v.s) then [] else [FutureDate])
  }

  // ---------------------------------------------------------------------------
  // Object schemas

  function Names(schema: Schema): set<string>
  {
    set i | 0 <= i < |schema| :: schema[i].name
  }

  /** A field is satisfied when present and accepted by its rule, or absent and optional. */
  predicate FieldAccepts(f: Field, m: Record)
  {
    if f.name in m then RuleAccepts(f.rule, m[f.name]) else f.optional
  }

  /** What it means for a payload to satisfy an object schema. */
  predicate Accepts(schema: Schema, body: Json)
  {
    body.JObj? && forall i :: 0 <= i < |schema| ==> FieldAccepts(schema[i], body.fields)
  }

  /** The properties named by a list of issues. */
  function Paths(issues: seq<Issue>): set<string>
  {
    set iss | iss in issues :: iss.path
  }

  /** The properties of a schema that a record does not satisfy. */
  function FailingFields(schema: Schema, m: Record): set<string>
  {
    set i | 0 <= i < |schema| && !FieldAccepts(schema[i], m) :: schema[i].name
  }

  function FieldIssues(f: Field, m: Record): (issues: seq<Issue>)
    ensures issues == [] <==> FieldAccepts(f, m)
    ensures Paths(issues) == if FieldAccepts(f, m) then {} else {f.name}
  {
    if f.name !in m then
      (if f.optional then [] else [Issue(f.name, Required)])
    else
      var vs := RuleViolations(f.rule, m[f.name]);
      var issues := seq(|vs|, i requires 0 <= i < |vs| => Issue(f.name, vs[i]));
      assert issues != [] ==> issues[0] in issues;
      issues
  }

  /** The issues of all fields, field by field in declaration order. */
  function SchemaIssues(schema: Schema, m: Record): (issues: seq<Issue>)
    ensures Paths(issues) == FailingFields(schema, m)
  {
    if schema == [] then []
    else
      var first := FieldIssues(schema[0], m);
      var rest := SchemaIssues(schema[1..], m);
      PathsConcat(first, rest);
      FailingFieldsCons(schema, m);
      first + rest
  }

  lemma PathsConcat(a: seq<Issue>, b: seq<Issue>)
    ensures Paths(a + b) == Paths(a) + Paths(b)
  {
    assert forall iss :: iss in a + b <==> iss in a || iss in b;
  }

  lemma FailingFieldsCons(schema: Schema, m: Record)
    requires |schema| > 0
    ensures FailingFields(schema, m) ==
      (if FieldAccepts(schema[0], m) then {} else {schema[0].name}) + FailingFields(schema[1..], m)
  {
    var tail := schema[1..];
    forall n | n in FailingFields(tail, m) ensures n in FailingFields(schema, m) {
      var i :| 0 <= i < |tail| && !FieldAccepts(tail[i], m) && tail[i].name == n;
      assert schema[i + 1] == tail[i];
    }
    forall n | n in FailingFields(schema, m)
      ensures n in (if FieldAccepts(schema[0], m) then {} else {schema[0].name}) + FailingFields(tail, m)
    {
      var i :| 0 <= i < |schema| && !FieldAccepts(schema[i], m) && schema[i].name == n;
      if i > 0 {
        assert tail[i - 1] == schema[i];
      }
    }
  }

  /** No property fails exactly when every field is satisfied. */
  lemma NoFailingFields(schema: Schema, m: Record)
    ensures FailingFields(schema, m) == {} <==> forall i :: 0 <= i < |schema| ==> FieldAccepts(schema[i], m)
  {
    if exists i :: 0 <= i < |schema| && !FieldAccepts(schema[i], m) {
      var i :| 0 <= i < |schema| && !FieldAccepts(schema[i], m);
      assert schema[i].name in FailingFields(schema, m);
    }
  }

  /**
   * `schema.parse(body)`: the payload restricted to the schema's properties,
   * or every issue found: the issues name exactly the properties that fail.
   */
  function Parse(schema: Schema, body: Json): (r: Result<Record, seq<Issue>>)
    ensures r.Success? <==> Accepts(schema, body)
    ensures r.Success? ==>
      && r.value.Keys == body.fields.Keys * Names(schema)
      && forall k :: k in r.value ==> r.value[k] == body.fields[k]
    ensures r.Failure? ==> r.error != []
    ensures !body.JObj? ==> r == Failure([Issue("", WrongType)])
    ensures r.Failure? && body.JObj? ==> Paths(r.error) == FailingFields(schema, body.fields)
  {
    if !body.JObj? then Failure([Issue("", WrongType)])
    else
      var issues := SchemaIssues(schema, body.fields);
      NoFailingFields(schema, body.fields);
      assert issues != [] ==> issues[0].path in Paths(issues);
      if issues == [] then
        Success(map k | k in body.fields && k in Names(schema) :: body.fields[k])
      else Failure(issues)
  }

  /** A successful parse keeps every required property. */
  lemma ParsedHasRequired(schema: Schema, body: Json, i: nat)
    requires Parse(schema, body).Success? && i < |schema| && !schema[i].optional
    ensures schema[i].name in Parse(schema, body).value
  {
    assert FieldAccepts(schema[i], body.fields);
    assert schema[i].name in Names(schema);
  }

  /** A payload that satisfies the schema and names only its properties parses to itself. */
  lemma ParseKeepsNamedOnly(schema: Schema, body: Json)
    requires Accepts(schema, body) && body.fields.Keys <= Names(schema)
    ensures Parse(schema, body) == Success(body.fields)
  {
    var out := Parse(schema, body).value;
    assert out.Keys == body.fields.Keys;
    assert forall k :: k in out ==> out[k] == body.fields[k];
    assert out == body.fields;
  }

  /** Parsing is idempotent: what `parse` returns parses to itself. */
  lemma ParseIdempotent(schema: Schema, body: Json)
    requires Accepts(schema, body)
    ensures Accepts(schema, JObj(Parse(schema, body).value))
    ensures Parse(schema, JObj(Parse(schema, body).value)) == Parse(schema, body)
  {
    var out := Parse(schema, body).value;
    forall i | 0 <= i < |schema| ensures FieldAccepts(schema[i], out) {
      assert schema[i].name in Names(schema);
      assert FieldAccepts(schema[i], body.fields);
    }
    var again := Parse(schema, JObj(out)).value;
    assert again == out;
  }

  /** `schema.partial()`: the same fields and rules, every field optional. */
  function Partial(schema: Schema): (p: Schema)
    ensures |p| == |schema| && Names(p) == Names(schema)
    ensures forall i :: 0 <= i < |p| ==>
      p[i].name == schema[i].name && p[i].rule == schema[i].rule && p[i].optional
  {
    var p := seq(|schema|, i requires 0 <= i < |schema| => schema[i].(optional := true));
    assert forall n :: n in Names(p) ==> n in Names(schema) by {
      forall n | n in Names(p) ensures n in Names(schema) {
        var i :| 0 <= i < |p| && p[i].name == n;
        assert schema[i].name == n;
      }
    }
    assert forall n :: n in Names(schema) ==> n in Names(p) by {
      forall n | n in Names(schema) ensures n in Names(p) {
        var i :| 0 <= i < |schema| && schema[i].name == n;
        assert p[i].name == n;
      }
    }
    p
  }

  // ---------------------------------------------------------------------------
  // Properties of every schema

  /** A partial schema accepts exactly the objects whose present properties pass their own rule. */
  lemma PartialAccepts(schema: Schema, body: Json)
    ensures Accepts(Partial(schema), body) <==>
      body.JObj? && forall i :: 0 <= i < |schema| && schema[i].name in body.fields ==>
        RuleAccepts(schema[i].rule, body.fields[schema[i].name])
  {
    var p := Partial(schema);
    if body.JObj? {
      assert forall i :: 0 <= i < |schema| ==>
        (FieldAccepts(p[i], body.fields) <==>
          (schema[i].name in body.fields ==> RuleAccepts(schema[i].rule, body.fields[schema[i].name])));
    }
  }

  /** Every partial schema accepts the empty object. */
  lemma PartialAcceptsEmpty(schema: Schema)
    ensures Accepts(Partial(schema), JObj(map[]))
    ensures Parse(Partial(schema), JObj(map[])) == Success(map[])
  {
    PartialAccepts(schema, JObj(map[]));
  }

  /** Whatever a schema accepts, its partial form accepts too. */
  lemma PartialWeakens(schema: Schema, body: Json)
    requires Accepts(schema, body)
    ensures Accepts(Partial(schema), body)
  {
    PartialAccepts(schema, body);
    forall i | 0 <= i < |schema| && schema[i].name in body.fields
      ensures RuleAccepts(schema[i].rule, body.fields[schema[i].name])
    {
      assert FieldAccepts(schema[i], body.fields);
    }
  }

  /** A payload missing a required property is rejected, with an issue naming it. */
  lemma MissingRequiredRejected(schema: Schema, body: Json, i: nat)
    requires i < |schema| && !schema[i].optional
    requires body.JObj? && schema[i].name !in body.fields
    ensures !Accepts(schema, body)
    ensures Parse(schema, body).Failure? && schema[i].name in Paths(Parse(schema, body).error)
  {
    assert !FieldAccepts(schema[i], body.fields);
    assert schema[i].name in FailingFields(schema, body.fields);
  }

  /** Any part of an object the schema accepts is accepted by its partial form. */
  lemma PartOfAcceptedAccepted(schema: Schema, full: Record, part: Record)
    requires Accepts(schema, JObj(full))
    requires forall k :: k in part ==> k in full && part[k] == full[k]
    ensures Accepts(Partial(schema), JObj(part))
  {
    PartialAccepts(schema, JObj(part));
    forall i | 0 <= i < |schema| && schema[i].name in part
      ensures RuleAccepts(schema[i].rule, part[schema[i].name])
    {
      assert FieldAccepts(schema[i], full);
    }
  }

  /**
   * Applying an accepted partial payload over an object the full schema
   * accepts gives an object the full schema still accepts.
   */
  lemma PatchPreservesAcceptance(schema: Schema, full: Record, patch: Record)
    requires Accepts(schema, JObj(full))
    requires Accepts(Partial(schema), JObj(patch))
    ensures Accepts(schema, JObj(full + patch))
  {
    PartialAccepts(schema, JObj(patch));
    forall i | 0 <= i < |schema|
      ensures FieldAccepts(schema[i], full + patch)
    {
      assert FieldAccepts(schema[i], full);
      if schema[i].name in patch {
        assert RuleAccepts(schema[i].rule, patch[schema[i].name]);
      }
    }
  }

  // ---------------------------------------------------------------------------
  // The schemas of src/schemas/validation.ts

  const CategoriaNome: Rule := Str([MinLen(2), MaxLen(100)])
  const ProdutoNome: Rule := Str([MinLen(2), MaxLen(150)])
  const PositiveNumber: Rule := Num([Positive])
  const Estoque: Rule := Num([Int, NonNegative])
  const PositiveInt: Rule := Num([Int, Positive])
  const ClienteNome: Rule := Str([MinLen(2), MaxLen(100)])
  const ClienteEmail: Rule := Str([Email, MaxLen(255)])
  const Cpf: Rule := Str([Length(11), Digits])
  const Telefone: Rule := Str([MinLen(10), MaxLen(15)])

  const CreateCategoria: Schema := [Field("nome", CategoriaNome, false)]

  const CreateProduto: Schema := [
    Field("nome", ProdutoNome, false),
    Field("preco", PositiveNumber, false),
    Field("estoque", Estoque, false),
    Field("categoriaId", PositiveInt, false)
  ]

  const CreateCliente: Schema := [
    Field("nome", ClienteNome, false),
    Field("email", ClienteEmail, false),
    Field("cpf", Cpf, false),
    Field("telefone", Telefone, true)
  ]

  function CreatePedido(clock: Clock): Schema
  {
    [Field("clienteId", PositiveInt, false), Field("dataPedido", DateNotAfterNow(clock), false)]
  }

  const CreatePedidoItem: Schema := [
    Field("pedidoId", PositiveInt, false),
    Field("produtoId", PositiveInt, false),
    Field("quantidade", PositiveInt, false),
    Field("precoUnitario", PositiveNumber, false)
  ]

  const UpdateCategoria: Schema := Partial(CreateCategoria)
  const UpdateProduto: Schema := Partial(CreateProduto)
  const UpdateCliente: Schema := Partial(CreateCliente)
  const UpdatePedidoItem: Schema := Partial(CreatePedidoItem)

  function UpdatePedido(clock: Clock): Schema
  {
    Partial(CreatePedido(clock))
  }

  // ---------------------------------------------------------------------------
  // What each schema accepts, property by property

  /** A string whose length lies in [lo, hi], both ends included. */
  predicate TextWithin(v: Json, lo: nat, hi: nat)
  {
    v.JStr? && lo <= |v.s| <= hi
  }

  /** Exactly eleven ASCII digits. */
  predicate IsCpf(v: Json)
  {
    v.JStr? && |v.s| == 11 && AllDigits(v.s)
  }

  /** An integral number no smaller than lo. */
  predicate WholeAtLeast(v: Json, lo: int)
  {
    v.JNum? && IsWhole(v.n) && v.n >= lo as real
  }

  predicate PositiveNum(v: Json)
  {
    v.JNum? && v.n > 0.0
  }

  lemma StrPairAccepts(a: StrCheck, b: StrCheck, v: Json)
    ensures RuleAccepts(Str([a, b]), v) <==> v.JStr? && StrCheckHolds(a, v.s) && StrCheckHolds(b, v.s)
  {
    var cs := [a, b];
    assert cs[0] == a && cs[1] == b;
  }

  lemma NumOneAccepts(a: NumCheck, v: Json)
    ensures RuleAccepts(Num([a]), v) <==> v.JNum? && NumCheckHolds(a, v.n)
  {
    assert [a][0] == a;
  }

  lemma NumPairAccepts(a: NumCheck, b: NumCheck, v: Json)
    ensures RuleAccepts(Num([a, b]), v) <==> v.JNum? && NumCheckHolds(a, v.n) && NumCheckHolds(b, v.n)
  {
    var cs := [a, b];
    assert cs[0] == a && cs[1] == b;
  }

  /** An object schema of up to four fields, written out field by field. */
  lemma AcceptsFields(schema: Schema, body: Json)
    requires 1 <= |schema| <= 4
    ensures Accepts(schema, body) <==>
      && body.JObj?
      && FieldAccepts(schema[0], body.fields)
      && (|schema| > 1 ==> FieldAccepts(schema[1], body.fields))
      && (|schema| > 2 ==> FieldAccepts(schema[2], body.fields))
      && (|schema| > 3 ==> FieldAccepts(schema[3], body.fields))
  {
    if body.JObj? {
      var m := body.fields;
      assert forall i :: 0 <= i < |schema| ==>
        schema[i] == schema[0] || schema[i] == schema[1] || schema[i] == schema[2] || schema[i] == schema[3];
    }
  }

  /** `.int().positive()` accepts the integers from 1 up, so 0 and 0.5 are out. */
  lemma PositiveIntAccepts(v: Json)
    ensures RuleAccepts(PositiveInt, v) <==> WholeAtLeast(v, 1)
  {
    NumPairAccepts(Int, Positive, v);
    if v.JNum? && IsWhole(v.n) && v.n > 0.0 {
      assert v.n.Floor >= 1;
    }
  }

  /** `.int().nonnegative()` accepts 0 and every positive integer. */
  lemma EstoqueAccepts(v: Json)
    ensures RuleAccepts(Estoque, v) <==> WholeAtLeast(v, 0)
  {
    NumPairAccepts(Int, NonNegative, v);
  }

  /** `.length(11).regex(/^\d+$/)`: eleven characters, all digits. */
  lemma CpfAccepts(v: Json)
    ensures RuleAccepts(Cpf, v) <==> IsCpf(v)
  {
    StrPairAccepts(Length(11), Digits, v);
  }

  lemma CreateCategoriaAccepts(body: Json)
    ensures Accepts(CreateCategoria, body) <==>
      body.JObj? && "nome" in body.fields && TextWithin(body.fields["nome"], 2, 100)
  {
    AcceptsFields(CreateCategoria, body);
    if body.JObj? && "nome" in body.fields {
      StrPairAccepts(MinLen(2), MaxLen(100), body.fields["nome"]);
    }
  }

  lemma CreateProdutoAccepts(body: Json)
    ensures Accepts(CreateProduto, body) <==>
      && body.JObj?
      && "nome" in body.fields && TextWithin(body.fields["nome"], 2, 150)
      && "preco" in body.fields && PositiveNum(body.fields["preco"])
      && "estoque" in body.fields && WholeAtLeast(body.fields["estoque"], 0)
      && "categoriaId" in body.fields && WholeAtLeast(body.fields["categoriaId"], 1)
  {
    AcceptsFields(CreateProduto, body);
    if body.JObj? {
      var m := body.fields;
      if "nome" in m { StrPairAccepts(MinLen(2), MaxLen(150), m["nome"]); }
      if "preco" in m { NumOneAccepts(Positive, m["preco"]); }
      if "estoque" in m { EstoqueAccepts(m["estoque"]); }
      if "categoriaId" in m { PositiveIntAccepts(m["categoriaId"]); }
    }
  }

  /** The optional telefone may be left out; email is format-checked and at most 255 long. */
  lemma CreateClienteAccepts(body: Json)
    ensures Accepts(CreateCliente, body) <==>
      && body.JObj?
      && "nome" in body.fields && TextWithin(body.fields["nome"], 2, 100)
      && "email" in body.fields && body.fields["email"].JStr?
      && IsEmail(body.fields["email"].s) && |body.fields["email"].s| <= 255
      && "cpf" in body.fields && IsCpf(body.fields["cpf"])
      && ("telefone" in body.fields ==> TextWithin(body.fields["telefone"], 10, 15))
  {
    AcceptsFields(CreateCliente, body);
    if body.JObj? {
      var m := body.fields;
      if "nome" in m { StrPairAccepts(MinLen(2), MaxLen(100), m["nome"]); }
      if "email" in m { StrPairAccepts(Email, MaxLen(255), m["email"]); }
      if "cpf" in m { CpfAccepts(m["cpf"]); }
      if "telefone" in m { StrPairAccepts(MinLen(10), MaxLen(15), m["telefone"]); }
    }
  }

  lemma CreatePedidoAccepts(clock: Clock, body: Json)
    ensures Accepts(CreatePedido(clock), body) <==>
      && body.JObj?
      && "clienteId" in body.fields && WholeAtLeast(body.fields["clienteId"], 1)
      && "dataPedido" in body.fields && body.fields["dataPedido"].JStr?
      && DateOk(clock, body.fields["dataPedido"].s)
  {
    AcceptsFields(CreatePedido(clock), body);
    if body.JObj? && "clienteId" in body.fields {
      PositiveIntAccepts(body.fields["clienteId"]);
    }
  }

  lemma CreatePedidoItemAccepts(body: Json)
    ensures Accepts(CreatePedidoItem, body) <==>
      && body.JObj?
      && "pedidoId" in body.fields && WholeAtLeast(body.fields["pedidoId"], 1)
      && "produtoId" in body.fields && WholeAtLeast(body.fields["produtoId"], 1)
      && "quantidade" in body.fields && WholeAtLeast(body.fields["quantidade"], 1)
      && "precoUnitario" in body.fields && PositiveNum(body.fields["precoUnitario"])
  {
    AcceptsFields(CreatePedidoItem, body);
    if body.JObj? {
      var m := body.fields;
      if "pedidoId" in m { PositiveIntAccepts(m["pedidoId"]); }
      if "produtoId" in m { PositiveIntAccepts(m["produtoId"]); }
      if "quantidade" in m { PositiveIntAccepts(m["quantidade"]); }
      if "precoUnitario" in m { NumOneAccepts(Positive, m["precoUnitario"]); }
    }
  }

  /** The client update schema: any subset of the properties, each under its create rule. */
  lemma UpdateClienteAccepts(body: Json)
    ensures Accepts(UpdateCliente, body) <==>
      && body.JObj?
      && ("nome" in body.fields ==> TextWithin(body.fields["nome"], 2, 100))
      && ("email" in body.fields ==>
            body.fields["email"].JStr? && IsEmail(body.fields["email"].s) && |body.fields["email"].s| <= 255)
      && ("cpf" in body.fields ==> IsCpf(body.fields["cpf"]))
      && ("telefone" in body.fields ==> TextWithin(body.fields["telefone"], 10, 15))
  {
    AcceptsFields(UpdateCliente, body);
    if body.JObj? {
      var m := body.fields;
      if "nome" in m { StrPairAccepts(MinLen(2), MaxLen(100), m["nome"]); }
      if "email" in m { StrPairAccepts(Email, MaxLen(255), m["email"]); }
      if "cpf" in m { CpfAccepts(m["cpf"]); }
      if "telefone" in m { StrPairAccepts(MinLen(10), MaxLen(15), m["telefone"]); }
    }
  }

  /** Every update schema accepts `{}`. */
  lemma UpdateSchemasAcceptEmpty(clock: Clock)
    ensures Accepts(UpdateCategoria, JObj(map[]))
    ensures Accepts(UpdateProduto, JObj(map[]))
    ensures Accepts(UpdateCliente, JObj(map[]))
    ensures Accepts(UpdatePedido(clock), JObj(map[]))
    ensures Accepts(UpdatePedidoItem, JObj(map[]))
  {
    PartialAcceptsEmpty(CreateCategoria);
    PartialAcceptsEmpty(CreateProduto);
    PartialAcceptsEmpty(CreateCliente);
    PartialAcceptsEmpty(CreatePedido(clock));
    PartialAcceptsEmpty(CreatePedidoItem);
  }

  // ---------------------------------------------------------------------------
  // idParamSchema

  /**
   * The `id` rule: digits only, read as a decimal number, which must be
   * positive. "007" reads as 7; "0" and "000" are rejected.
   */
  function ParseId(s: string): (r: Result<nat, Violation>)
    ensures r.Success? <==> AllDigits(s) && exists i :: 0 <= i < |s| && s[i] != '0'
    ensures r.Success? ==> r.value > 0 && r.value == DecimalValue(s)
    ensures !AllDigits(s) ==> r == Failure(StrFailed(Digits))
  {
    if !AllDigits(s) then Failure(StrFailed(Digits))
    else if DecimalValue(s) == 0 then Failure(NotPositive)
    else Success(DecimalValue(s))
  }

  /** `idParamSchema.parse(params)`: the positive id, or the issues. */
  function ParseIdParam(params: Json): (r: Result<nat, seq<Issue>>)
    ensures r.Success? <==>
      params.JObj? && "id" in params.fields && params.fields["id"].JStr? && ParseId(params.fields["id"].s).Success?
    ensures r.Success? ==> r.value == ParseId(params.fields["id"].s).value
    ensures r.Failure? ==> r.error != []
  {
    if !params.JObj? then Failure([Issue("", WrongType)])
    else if "id" !in params.fields then Failure([Issue("id", Required)])
    else
      var v := params.fields["id"];
      if !v.JStr? then Failure([Issue("id", WrongType)])
      else
        match ParseId(v.s)
        case Success(n) => Success(n)
        case Failure(why) => Failure([Issue("id", why)])
  }

  /** Every positive number's decimal spelling parses back to it. */
  lemma ParseIdRoundTrip(n: nat)
    requires n > 0
    ensures ParseId(DecimalString(n)) == Success(n)
  {
    DecimalRoundTrip(n);
    var s := DecimalString(n);
    assert s[0] != '0';
  }

  /** A leading zero changes nothing: "007" is the same id as "7". */
  lemma ParseIdLeadingZero(s: string)
    requires AllDigits(s)
    ensures ParseId("0" + s) == ParseId(s)
  {
    LeadingZeroIgnored(s);
    var t := "0" + s;
    forall i | 0 <= i < |t| ensures IsDigit(t[i]) {
      if i > 0 {
        assert t[i] == s[i - 1];
      }
    }
    assert AllDigits(t);
  }

  lemma ParseIdExamples()
    ensures ParseId("007") == Success(7)
    ensures ParseId("0").Failure? && ParseId("000").Failure? && ParseId("").Failure?
    ensures ParseId("-1").Failure? && ParseId("1a").Failure?
  {
    assert DecimalString(7) == "7";
    ParseIdRoundTrip(7);
    ParseIdLeadingZero("7");
    ParseIdLeadingZero("07");
    assert "0" + "07" == "007";
    assert "0" + "7" == "07";
    assert !IsDigit("-1"[0]);
    assert !IsDigit("1a"[1]);
  }

  // ---------------------------------------------------------------------------
  // getProductsQuerySchema

  /** The parsed product-listing query: `categoriaId` is optional. */
  datatype ProductsQuery = ProductsQuery(categoriaId: Option<real>)

  /**
   * `getProductsQuerySchema.parse(query)` with `z.coerce.number().optional()`:
   * an absent `categoriaId` stays absent; a present one is passed through
   * `Number()` (the parameter `toNumber` applied to `String(value)`, None
   * standing for NaN) and rejected only when that is not a number.
   */
  function ParseProductsQuery(query: map<string, QueryValue>, toNumber: string -> Option<real>): (r: Result<ProductsQuery, seq<Issue>>)
    ensures "categoriaId" !in query ==> r == Success(ProductsQuery(None))
    ensures "categoriaId" in query ==>
      (r.Success? <==> toNumber(QueryText(query["categoriaId"])).Some?)
    ensures r.Success? && "categoriaId" in query ==>
      r.value.categoriaId == toNumber(QueryText(query["categoriaId"]))
    ensures r.Failure? ==> r.error == [Issue("categoriaId", WrongType)]
  {
    if "categoriaId" !in query then Success(ProductsQuery(None))
    else
      match toNumber(QueryText(query["categoriaId"]))
      case None => Failure([Issue("categoriaId", WrongType)])
      case Some(n) => Success(ProductsQuery(Some(n)))
  }
}
