# loja-api: validation, client registry and HTTP outcome mapping in Dafny

loja-api is a small shop API: Express handlers over Prisma tables of
categories, products, clients, orders and order items, with request bodies
checked by zod schemas. This project models the three pieces of it that
carry logic of their own and proves what they promise.

- **Request schemas** (`validation.dfy`, module `Validation`). A zod object
  schema is a value: a list of fields, each with a chain of string or number
  checks and an `optional` flag. `Parse` is `schema.parse(body)`, reporting
  one issue per failing check, and `Partial` is `schema.partial()`. Every
  create and update schema of `src/schemas/validation.ts` is written down as
  such a value; the id parameter and the product query are functions. It
  is then characterised field by field: inclusive length bounds, an 11-digit
  CPF, integers from 1 up, `estoque` from 0 up, optional `telefone`. The id
  route parameter is parsed as a positive decimal number. The product
  listing query coerces `categoriaId` with `Number()`.
- **Client registry** (`cliente_service.dfy`, module `ClienteService`). The
  service keeps its own client schema, which differs from the one above.
  The database is an in-memory client table, an order table and the next
  autoincrement id.
  - `CreateOutcome`, `UpdateOutcome` and `DeleteOutcome` decide what each
    call returns or throws.
  - The class `ClienteStore` performs the calls on its fields. Each method
    is proved to return that outcome and to keep the store invariant: ids
    below the counter, every row valid, email and CPF unique, no orphaned
    order.
  - The read queries are functions of the state: `findAll` sorted by name
    with each client's five newest orders, `findById` with all orders
    newest first, and `findByEmail` and `count`.
- **HTTP mapping** (`http.dfy`, `cliente_controller.dfy`,
  `produto_controller.dfy`). Each handler is a function from how its
  service call ended (a value, `null`, a thrown `ZodError`, a thrown
  `Error` or some other thrown value) to the status and body it sends.
  Composed with the registry, this shows for example that updating a
  missing client answers 400 "Cliente não encontrado", never 404. It also
  covers the product listing's filter, which drops a `categoriaId` that
  converts to 0.

Shared pieces: `wrappers.dfy` (Option, Result), `js_values.dfy` (JSON
values, `req.query` values, JavaScript truthiness, decimal digit strings) and `ordering.dfy`
(lexicographic string order, and sorting a table by any total preorder).

## Model

| member | source | states |
|---|---|---|
| Validation.RuleViolations | src/schemas/validation.ts:6-10 | a value raises no issue exactly when it satisfies its rule; a value of the wrong type raises only that; otherwise every issue is a failing check of the chain and every failing check is reported; a date raises "invalid" exactly when it does not parse and "future" exactly when it is not a valid date up to now |
| Validation.Parse | src/schemas/validation.ts:6-11 | `parse` succeeds exactly when the schema accepts the body; the result holds exactly the schema's properties present in the body, unchanged; a failure names exactly the failing properties, and a non-object body fails with one root issue |
| Validation.ParseIdempotent | src/schemas/validation.ts:6-11 | what `parse` returns is accepted and parses to itself |
| Validation.ParsedHasRequired | src/schemas/validation.ts:56-74 | a successful parse keeps every non-optional property |
| Validation.ParseKeepsNamedOnly | src/schemas/validation.ts:56-74 | an accepted body that names only schema properties parses to itself |
| Validation.Partial | src/schemas/validation.ts:13 | `.partial()` keeps every property name and rule and makes each optional |
| Validation.PartialAccepts | src/schemas/validation.ts:76 | a partial schema accepts exactly the objects whose present properties pass their create rule |
| Validation.PartialAcceptsEmpty | src/schemas/validation.ts:36 | every partial schema accepts `{}` and parses it to `{}` |
| Validation.PartialWeakens | src/schemas/validation.ts:99 | whatever a create schema accepts, its update schema accepts |
| Validation.MissingRequiredRejected | src/schemas/validation.ts:18-34 | a body missing a required property is rejected with an issue at that property |
| Validation.PartOfAcceptedAccepted | src/schemas/validation.ts:122 | any part of an accepted object is accepted by the partial schema |
| Validation.PatchPreservesAcceptance | src/schemas/validation.ts:76 | an accepted partial payload applied over an accepted object leaves an accepted object |
| Validation.PositiveIntAccepts | src/schemas/validation.ts:30-33 | `.int().positive()` accepts exactly the integers ≥ 1 |
| Validation.EstoqueAccepts | src/schemas/validation.ts:26-29 | `estoque` accepts exactly the integers ≥ 0 |
| Validation.CpfAccepts | src/schemas/validation.ts:65-68 | a CPF is accepted exactly when it is a string of 11 characters, all digits |
| Validation.CreateCategoriaAccepts | src/schemas/validation.ts:6-11 | a category is accepted exactly when `nome` is a string of length 2..100 |
| Validation.CreateProdutoAccepts | src/schemas/validation.ts:18-34 | a product needs `nome` 2..150, `preco` > 0, `estoque` an integer ≥ 0 and `categoriaId` an integer ≥ 1 |
| Validation.CreateClienteAccepts | src/schemas/validation.ts:56-74 | a client needs `nome` 2..100, a well-formed `email` of at most 255, an 11-digit `cpf`, and `telefone` 10..15 only when present |
| Validation.CreatePedidoAccepts | src/schemas/validation.ts:81-97 | an order needs `clienteId` an integer ≥ 1 and `dataPedido` a valid date not after now |
| Validation.CreatePedidoItemAccepts | src/schemas/validation.ts:104-120 | an item needs `pedidoId`, `produtoId` and `quantidade` integers ≥ 1 and `precoUnitario` > 0 |
| Validation.UpdateClienteAccepts | src/schemas/validation.ts:76 | a client update may hold any subset of the properties, each under its create rule |
| Validation.UpdateSchemasAcceptEmpty | src/schemas/validation.ts:13 | all five update schemas accept `{}` |
| Validation.ParseId | src/schemas/validation.ts:127-133 | an id is accepted exactly when it is all digits with a non-zero digit; its value is then its decimal value and positive |
| Validation.ParseIdParam | src/schemas/validation.ts:127-133 | the route parameters parse exactly when `id` is a string `ParseId` accepts |
| Validation.ParseIdRoundTrip | src/schemas/validation.ts:127-133 | the decimal spelling of every positive number parses back to it |
| Validation.ParseIdLeadingZero | src/schemas/validation.ts:127-133 | a leading zero does not change the id |
| Validation.ParseIdExamples | src/schemas/validation.ts:127-133 | "007" is 7; "0", "000", "", "-1" and "1a" are rejected |
| Validation.ParseProductsQuery | src/schemas/validation.ts:49-51 | an absent `categoriaId` yields no filter value; a present one is the `Number()` value of its string form (a list joined with ","), and the query is rejected exactly when that is NaN |
| JsValues.QueryText | src/controllers/produtoController.ts:13 | `String()` of a query value: a string is itself, a one-item list is its item, a list of two or more holds a "," |
| ClienteService.ServiceCreateAccepts | src/services/clienteService.ts:7-12 | the service accepts `nome` 1..100, an email of at most 100, an 11-digit CPF and an optional `telefone` of at most 20 |
| ClienteService.ServiceUpdateAccepts | src/services/clienteService.ts:14 | the service update accepts any subset of those properties, each under its create rule |
| ClienteService.ClienteSchemasDiffer | src/services/clienteService.ts:7-12 | the two client schemas disagree both ways: a one-letter name and a 102-character email |
| ClienteService.CreateOutcome | src/services/clienteService.ts:72-103 | invalid data first, then a taken email, then a taken CPF, each exactly when it applies; on success, the new client has the next id and exactly the validated properties |
| ClienteService.CreateKeepsInv | src/services/clienteService.ts:94-96 | a successful create keeps email and CPF unique and the invariant, and adds exactly one client under a fresh id |
| ClienteService.NewRowFacts | src/services/clienteService.ts:77-96 | the row a create writes is valid and shares no email or CPF with any other client |
| ClienteService.WriteKeepsInv | src/services/clienteService.ts:94-96 | writing a valid row whose email and CPF no other client holds keeps the invariant |
| ClienteService.UpdateOutcome | src/services/clienteService.ts:105-147 | validation comes before the existence check; a missing id fails with NotFound exactly when the payload is valid; a success keeps the id; the only refusals are invalid data, NotFound, EmailTaken and CpfTaken |
| ClienteService.UpdateRefusals | src/services/clienteService.ts:116-135 | an update fails on the email exactly when the email is supplied, truthy, differs from the client's own and is held by some client; likewise the CPF, checked after the email; for a valid payload and an existing client, the update succeeds exactly when neither refusal applies |
| ClienteService.UpdateWrites | src/services/clienteService.ts:137-140 | a successful update overwrites exactly the supplied client properties and keeps the rest of the row |
| ClienteService.UpdatedRowFree | src/services/clienteService.ts:116-135 | a unique value that the update keeps, or re-checks and finds free, is held by no other client afterwards |
| ClienteService.UpdatedRowFits | src/services/clienteService.ts:107-140 | the row a successful update writes is valid and shares no email or CPF with another client |
| ClienteService.UpdateKeepsInv | src/services/clienteService.ts:137-140 | a successful update keeps email and CPF unique and the invariant, and keeps the number of clients |
| ClienteService.ResubmitOwnValues | src/services/clienteService.ts:116-135 | re-submitting a client's own email and CPF succeeds and leaves the row as it was |
| ClienteService.UpdateToOthersEmail | src/services/clienteService.ts:116-124 | moving a client to another client's email fails with "Email já cadastrado" |
| ClienteService.OrderCount | src/services/clienteService.ts:158-160 | the count is positive exactly when some order belongs to the client |
| ClienteService.DeleteOutcome | src/services/clienteService.ts:149-172 | not found exactly when the id is missing; refused exactly when the client owns an order; success otherwise |
| ClienteService.DeleteKeepsInv | src/services/clienteService.ts:166-168 | a successful delete orphans no order, keeps the invariant and removes exactly one client |
| ClienteService.Count | src/services/clienteService.ts:195-201 | the count is 0 exactly when there is no client, and at least 1 while any client exists |
| ClienteService.History | src/services/clienteService.ts:49-64 | a client's orders, each exactly once, all of them and only theirs, newest first |
| ClienteService.Recent | src/services/clienteService.ts:22-33 | at most five orders, a prefix of the history, newest first; an order newer than the last one listed is listed |
| ClienteService.FindAll | src/services/clienteService.ts:18-42 | every client exactly once, by name ascending, each with its five newest orders |
| ClienteService.FindById | src/services/clienteService.ts:44-70 | the client with all its orders newest first exactly when the id exists, null otherwise |
| ClienteService.FindByEmail | src/services/clienteService.ts:174-193 | a client holding that email exactly when one exists, null otherwise |
| ClienteService.FindByEmailFindsOwner | src/services/clienteService.ts:174-193 | with unique emails, looking a client up by its email finds that very client |
| ClienteService.ClienteStore.constructor | src/services/clienteService.ts:16 | a store over tables that satisfy the invariant |
| ClienteService.ClienteStore.Create | src/services/clienteService.ts:72-103 | returns `CreateOutcome` of the old state; inserts the client and advances the id only on success; keeps the invariant |
| ClienteService.ClienteStore.Update | src/services/clienteService.ts:105-147 | returns `UpdateOutcome` of the old state; rewrites only client `id`, and only on success; keeps the invariant |
| ClienteService.ClienteStore.Delete | src/services/clienteService.ts:149-172 | returns `DeleteOutcome` of the old state; removes exactly that client, and only on success; keeps the invariant |
| Ordering.SortBy | src/services/clienteService.ts:35-37 | `orderBy`: every key exactly once, rows in order |
| Ordering.MinIn | src/services/clienteService.ts:35-37 | every non-empty set of rows has a least one under a total preorder |
| Ordering.StrLeIsTotalPreorder | src/services/clienteService.ts:35-37 | name order `asc` is total and transitive |
| Http.FieldErrors | src/controllers/produtoController.ts:28 | `flatten().fieldErrors`: one entry per property with an issue, holding exactly that property's violations |
| Http.Listed | src/controllers/clienteController.ts:8-15 | 200 with the value, or 500 with the fallback message on any throw |
| Http.Found | src/controllers/clienteController.ts:17-30 | 404 exactly on null, 200 with the row on a hit, 500 exactly on a throw |
| Http.Saved | src/controllers/clienteController.ts:32-48 | success status exactly on a value; 400 exactly on an Error, with the issues for a ZodError (checked first) and the message otherwise; 500 exactly on other throws |
| Http.Deleted | src/controllers/clienteController.ts:69-80 | 204 with no body exactly on success, 400 with the message exactly on an Error, 500 otherwise |
| ClienteController.FromService | src/services/clienteService.ts:97-101 | a refusal reaches the controller as a thrown `Error` carrying the service's message |
| ClienteController.GetAll | src/controllers/clienteController.ts:8-15 | 200 with the listing exactly when it returned, otherwise 500 "Erro ao buscar clientes" |
| ClienteController.GetById | src/controllers/clienteController.ts:17-30 | 404 "Cliente não encontrado" exactly on null, 200 with the client when one is found, 500 "Erro ao buscar cliente" exactly on a throw |
| ClienteController.Create | src/controllers/clienteController.ts:32-48 | 201 with the new client exactly on success, 400 exactly on an Error, 500 "Erro ao criar cliente" on other throws |
| ClienteController.Update | src/controllers/clienteController.ts:50-67 | 200 with the updated client exactly on success, 400 exactly on an Error, 500 "Erro ao atualizar cliente" on other throws |
| ClienteController.Delete | src/controllers/clienteController.ts:69-80 | 204 exactly on success, 400 exactly on an Error, 500 "Erro ao deletar cliente" on other throws |
| ClienteController.CreateResponse | src/controllers/clienteController.ts:32-48 | composed with the service: 201 exactly on success, otherwise 400 with the service's message, never the ZodError body |
| ClienteController.UpdateResponse | src/controllers/clienteController.ts:50-67 | composed with the service: never 404; a missing client is 400 "Cliente não encontrado"; invalid data is 400 "Dados inválidos: …" |
| ClienteController.DeleteResponse | src/controllers/clienteController.ts:69-80 | composed with the service: 204 exactly when the client exists and owns no order, otherwise 400 naming the reason |
| ClienteController.GetByIdResponse | src/controllers/clienteController.ts:17-30 | composed with `findById`: 404 exactly when no client has the id, otherwise 200 with the client |
| ClienteService.Message | src/services/clienteService.ts:82-163 | the text of each thrown Error; it starts with "Dados inválidos: " exactly when the refusal is a validation failure |
| ClienteController.MessagesIdentifyCause | src/services/clienteService.ts:82-163 | distinct refusals carry distinct messages, none of which starts like an invalid-data message |
| ProdutoController.ProductFilter | src/controllers/produtoController.ts:16-18 | the filter holds `categoriaId` exactly when the parsed value is present and non-zero, and then holds that value |
| ProdutoController.ListProducts | src/controllers/produtoController.ts:21-32 | 200 with the products exactly on a value, 400 exactly on a ZodError, 500 "Erro ao buscar produtos" otherwise |
| ProdutoController.GetAll | src/controllers/produtoController.ts:10-33 | a query that does not parse is 400 "Parâmetro de filtro inválido" with its field errors; otherwise the listing runs with the filter built from the query |
| ProdutoController.GetAllFiltersByCategory | src/controllers/produtoController.ts:13-21 | `?categoriaId=5` lists category 5 |
| ProdutoController.GetAllWithoutFilter | src/controllers/produtoController.ts:13-21 | no `categoriaId`, or one that converts to 0, lists every product |
| ProdutoController.GetAllRejectsNaN | src/controllers/produtoController.ts:25-30 | a `categoriaId` that is not a number is 400 with that field's error |
| ProdutoController.GetAllBracketedKey | src/controllers/produtoController.ts:13-21 | `?categoriaId[]=5` answers exactly as `?categoriaId=5` |
| ProdutoController.GetAllRejectsRepeatedKey | src/controllers/produtoController.ts:13-30 | a repeated `categoriaId` reads as a comma-joined string, which `Number()` rejects: 400 with that field's error |
| ProdutoController.GetById | src/controllers/produtoController.ts:35-48 | 404 "Produto não encontrado" exactly on null, 200 with the product when one is found, 500 "Erro ao buscar produto" exactly on a throw |
| ProdutoController.Create | src/controllers/produtoController.ts:50-66 | 201 with the new product exactly on success, 400 exactly on an Error (ZodError first), 500 "Erro ao criar produto" otherwise |
| ProdutoController.Update | src/controllers/produtoController.ts:68-85 | 200 with the updated product exactly on success, 400 exactly on an Error (ZodError first), 500 "Erro ao atualizar produto" otherwise |
| ProdutoController.Delete | src/controllers/produtoController.ts:87-98 | 204 exactly on success, 400 exactly on an Error, 500 "Erro ao deletar produto" otherwise |
| JsValues.DecimalRoundTrip | src/schemas/validation.ts:131 | `Number()` of the decimal spelling of n is n |
| JsValues.LeadingZeroIgnored | src/schemas/validation.ts:131 | a leading zero does not change a decimal value |

## Left out

- Database I/O: Prisma calls are reads and writes of in-memory maps, and each service call is atomic. Connection failures, the check-then-write race between concurrent requests, and the `catch` blocks that rewrap database failures ("Erro ao buscar clientes" and the like) are not modelled. The controllers take "some other throw" as an abstract outcome instead.
- Validation.IsEmail: zod's email pattern is library code. `IsEmail` stands for it: a non-empty local part without '@', one '@', and a domain with an inner '.'. Proofs rely only on an email being non-empty and on the two concrete witnesses.
- ClienteService.Message: "Dados inválidos: …" joins the issues' paths, where the service joins the issues' messages. Most of those message texts come from zod's defaults, which are library text, so the model keeps only the prefix and issue order.
- Validation.RuleViolations: issue messages are not modelled. An issue is its path and the check that failed.
- Lengths count characters, whereas JavaScript's `.length` counts UTF-16 code units.
- JavaScript numbers are reals: NaN and Infinity are not representable in a body, and precision loss in `Number()` on long digit strings is not modelled. `Number()` in the product query is the parameter `toNumber`, with None standing for NaN. `toNumber` cannot return Infinity, so `?categoriaId=Infinity` or `?categoriaId=1e400`, which zod accepts and passes on to the product filter, is not modelled. `new Date(...)` and the current time are the parameter `Clock`.
- `parseInt` in the controllers is not modelled. The handlers take the service's outcome, and the registry takes an integer id.
- Ordering.SortBy: rows that tie on the sort column may come back in any order; the model picks one. Names compare by code point, not by the database collation.
- ClienteService.FindByEmail: the source gives the orders no order. The model lists them newest first. Each order keeps its items, but not the product (and, in `FindById`, its category) that the source nests inside each item.
- ClienteService.FindAll: the order summaries keep id, date, total and status, as the source selects; the client's other columns (timestamps) are not modelled.
- The product, category and order services, `dist/` and the Express routing in `src/index.ts` are not part of this model. The product handlers take the outcome of their service call.
- Query values are strings or lists of strings. Nested objects (`?categoriaId[a]=1`) are not modelled.
- `flatten().formErrors` (issues about the query object itself) is not modelled; `FieldErrors` drops the root path.
