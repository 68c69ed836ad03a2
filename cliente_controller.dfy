/**
 * src/controllers/clienteController.ts: the client handlers. Each handler
 * takes how its service call ended and yields the response it sends.
 */
module ClienteController {
  import opened Wrappers
  import opened JsValues
  import opened Validation
  import opened Http
  import opened ClienteService

  /** A service call ends by returning its value or throwing `new Error(message)`. */
  function FromService<T>(r: Result<T, ServiceError>): (o: Outcome<T>)
    ensures o.Returned? <==> r.Success?
    ensures r.Success? ==> o.value == r.value
    ensures r.Failure? ==> o.thrown == Error(Message(r.error))
  {
    match r
    case Success(v) => Returned(v)
    case Failure(e) => Threw(Error(Message(e)))
  }

  function GetAll<T>(o: Outcome<T>): (r: Response<T>)
    ensures r.status == 200 || r == Response(500, ErrorMessage("Erro ao buscar clientes"))
    ensures r.status == 200 <==> o.Returned?
    ensures o.Returned? ==> r.body == Json(o.value)
  {
    Listed(o, "Erro ao buscar clientes")
  }

  function GetById<T>(o: Outcome<Option<T>>): (r: Response<T>)
    ensures r.status == 404 <==> o == Returned(None)
    ensures r.status == 404 ==> r.body == ErrorMessage("Cliente não encontrado")
    ensures o.Returned? && o.value.Some? ==> r == Response(200, Json(o.value.value))
    ensures r.status == 500 <==> o.Threw?
    ensures o.Threw? ==> r.body == ErrorMessage("Erro ao buscar cliente")
  {
    Found(o, "Cliente não encontrado", "Erro ao buscar cliente")
  }

  function Create<T>(o: Outcome<T>): (r: Response<T>)
    ensures r.status == 201 <==> o.Returned?
    ensures o.Returned? ==> r.body == Json(o.value)
    ensures r.status == 400 <==> o.Threw? && IsError(o.thrown)
    ensures o.Threw? && !IsError(o.thrown) ==> r == Response(500, ErrorMessage("Erro ao criar cliente"))
  {
    Saved(o, 201, "Erro ao criar cliente")
  }

  function Update<T>(o: Outcome<T>): (r: Response<T>)
    ensures r.status == 200 <==> o.Returned?
    ensures o.Returned? ==> r.body == Json(o.value)
    ensures r.status == 400 <==> o.Threw? && IsError(o.thrown)
    ensures o.Threw? && !IsError(o.thrown) ==> r == Response(500, ErrorMessage("Erro ao atualizar cliente"))
  {
    Saved(o, 200, "Erro ao atualizar cliente")
  }

  function Delete(o: Outcome<()>): (r: Response<()>)
    ensures r.status == 204 <==> o.Returned?
    ensures r.status == 400 <==> o.Threw? && IsError(o.thrown)
    ensures o.Threw? && !IsError(o.thrown) ==> r == Response(500, ErrorMessage("Erro ao deletar cliente"))
  {
    Deleted(o, "Erro ao deletar cliente")
  }

  const InvalidPrefix: string := InvalidDataPrefix

  /**
   * POST /clientes: 201 with the new client, otherwise 400 with the
   * service's message; the ZodError branch is never reached, because the
   * service rethrows validation failures as plain Errors.
   */
  lemma CreateResponse(tbl: Table, nextId: int, body: Json)
    ensures var out := CreateOutcome(tbl, nextId, body);
      var resp := Create(FromService(out));
      && (resp.status == 201 <==> out.Success?)
      && (resp.status == 400 <==> out.Failure?)
      && !resp.body.Details?
      && (!Accepts(ServiceCreate, body) ==> resp.body.ErrorMessage? && InvalidPrefix <= resp.body.error)
      && (out == Failure(EmailTaken) ==> resp.body == ErrorMessage(EmailTakenText))
      && (out == Failure(CpfTaken) ==> resp.body == ErrorMessage(CpfTakenText))
  {
  }

  /**
   * PUT /clientes/:id: an invalid payload is reported before the id is
   * looked up, and a missing client is 400 "Cliente não encontrado", never 404.
   */
  lemma UpdateResponse(tbl: Table, id: int, body: Json)
    ensures var out := UpdateOutcome(tbl, id, body);
      var resp := Update(FromService(out));
      && resp.status != 404
      && (resp.status == 200 <==> out.Success?)
      && (!Accepts(ServiceUpdate, body) ==> resp.status == 400 && InvalidPrefix <= resp.body.error)
      && (Accepts(ServiceUpdate, body) && id !in tbl ==> resp == Response(400, ErrorMessage(NotFoundText)))
  {
  }

  /** DELETE /clientes/:id: 204, or 400 naming why the client was not removed. */
  lemma DeleteResponse(tbl: Table, orders: Orders, id: int)
    ensures var resp := Delete(FromService(DeleteOutcome(tbl, orders, id)));
      && (resp.status == 204 <==> id in tbl && forall oid :: oid in orders ==> orders[oid].clienteId != id)
      && (id !in tbl ==> resp == Response(400, ErrorMessage(NotFoundText)))
      && (id in tbl && (exists oid :: oid in orders && orders[oid].clienteId == id) ==>
            resp == Response(400, ErrorMessage(HasOrdersText)))
  {
    var out := DeleteOutcome(tbl, orders, id);
    match out
    case Success(_) =>
      assert Delete(FromService(out)) == Response(204, NoContent);
    case Failure(e) =>
      assert Delete(FromService(out)) == Response(400, ErrorMessage(Message(e)));
  }

  /** GET /clientes/:id: 404 exactly when no client has that id. */
  lemma GetByIdResponse(tbl: Table, orders: Orders, id: int)
    ensures var resp := GetById(Returned(FindById(tbl, orders, id)));
      && (resp.status == 404 <==> id !in tbl)
      && (id in tbl ==> resp == Response(200, Json(ClienteDetalhe(id, tbl[id], History(orders, id)))))
  {
  }

  /**
   * The message of every refusal other than invalid data identifies its
   * cause, and none of them looks like an invalid-data message.
   */
  lemma MessagesIdentifyCause(e1: ServiceError, e2: ServiceError)
    requires !e1.InvalidData? && !e2.InvalidData?
    ensures Message(e1) == Message(e2) ==> e1 == e2
    ensures !(InvalidPrefix <= Message(e1))
  {
  }
}
