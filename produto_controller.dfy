/**
 * src/controllers/produtoController.ts: the product handlers. The product
 * service is not part of this model: each handler takes how its call ended.
 */
module ProdutoController {
  import opened Wrappers
  import opened JsValues
  import opened Validation
  import opened Http

  /** The filter handed to the product listing: `{}` or `{ categoriaId }`. */
  datatype Filter = Filter(categoriaId: Option<real>)

  /**
   * `...(categoriaId && { categoriaId: Number(categoriaId) })`: the category
   * is filtered on only when the parsed number is truthy, so 0 lists
   * everything.
   */
  function ProductFilter(q: ProductsQuery): (f: Filter)
    ensures f.categoriaId.Some? <==> q.categoriaId.Some? && q.categoriaId.value != 0.0
    ensures f.categoriaId.Some? ==> f.categoriaId == q.categoriaId
  {
    match q.categoriaId
    case Some(n) => if n != 0.0 then Filter(Some(n)) else Filter(None)
    case None => Filter(None)
  }

  const FilterInvalidText: string := "Parâmetro de filtro inválido"

  /** What GET /produtos sends once the listing call has ended. */
  function ListProducts<T>(o: Outcome<T>): (r: Response<T>)
    ensures r.status == 200 <==> o.Returned?
    ensures o.Returned? ==> r.body == Json(o.value)
    ensures r.status == 400 <==> o.Threw? && o.thrown.ZodError?
    ensures o.Threw? && !o.thrown.ZodError? ==> r == Response(500, ErrorMessage("Erro ao buscar produtos"))
  {
    match o
    case Returned(v) => Response(200, Json(v))
    case Threw(ZodError(issues, _)) => Response(400, FieldDetails(FilterInvalidText, FieldErrors(issues)))
    case Threw(_) => Response(500, ErrorMessage("Erro ao buscar produtos"))
  }

  /**
   * GET /produtos: parse the query, build the filter, list. A query that
   * does not parse is 400 and the listing is not called.
   */
  function GetAll<T>(query: map<string, QueryValue>, toNumber: string -> Option<real>, findAll: Filter -> Outcome<T>): (r: Response<T>)
    ensures ParseProductsQuery(query, toNumber).Failure? ==>
      r == Response(400, FieldDetails(FilterInvalidText, FieldErrors(ParseProductsQuery(query, toNumber).error)))
    ensures ParseProductsQuery(query, toNumber).Success? ==>
      r == ListProducts(findAll(ProductFilter(ParseProductsQuery(query, toNumber).value)))
  {
    match ParseProductsQuery(query, toNumber)
    case Failure(issues) => Response(400, FieldDetails(FilterInvalidText, FieldErrors(issues)))
    case Success(q) => ListProducts(findAll(ProductFilter(q)))
  }

  /** `?categoriaId=5` lists category 5. */
  lemma GetAllFiltersByCategory<T>(query: map<string, QueryValue>, toNumber: string -> Option<real>, findAll: Filter -> Outcome<T>, n: real)
    requires "categoriaId" in query && toNumber(QueryText(query["categoriaId"])) == Some(n) && n != 0.0
    ensures GetAll(query, toNumber, findAll) == ListProducts(findAll(Filter(Some(n))))
  {
  }

  /** No `categoriaId`, or one that converts to 0 (such as `?categoriaId=`), lists every product. */
  lemma GetAllWithoutFilter<T>(query: map<string, QueryValue>, toNumber: string -> Option<real>, findAll: Filter -> Outcome<T>)
    requires "categoriaId" in query ==> toNumber(QueryText(query["categoriaId"])) == Some(0.0)
    ensures GetAll(query, toNumber, findAll) == ListProducts(findAll(Filter(None)))
  {
  }

  /** A `categoriaId` that is not a number is 400 with the field's error, whatever the listing would do. */
  lemma GetAllRejectsNaN<T>(query: map<string, QueryValue>, toNumber: string -> Option<real>, findAll: Filter -> Outcome<T>)
    requires "categoriaId" in query && toNumber(QueryText(query["categoriaId"])).None?
    ensures GetAll(query, toNumber, findAll) == Response(400, FieldDetails(FilterInvalidText, map["categoriaId" := [WrongType]]))
  {
    var issues := [Issue("categoriaId", WrongType)];
    assert Paths(issues) == {"categoriaId"};
    assert ViolationsAt(issues, "categoriaId") == [WrongType];
    assert FieldErrors(issues) == map["categoriaId" := [WrongType]];
  }

  /** `?categoriaId[]=5` is read as `?categoriaId=5`. */
  lemma GetAllBracketedKey<T>(query: map<string, QueryValue>, toNumber: string -> Option<real>, findAll: Filter -> Outcome<T>, s: string)
    requires "categoriaId" in query && query["categoriaId"] == QList([s])
    ensures GetAll(query, toNumber, findAll) == GetAll(query["categoriaId" := QText(s)], toNumber, findAll)
  {
  }

  /**
   * A repeated key (`?categoriaId=1&categoriaId=2`) reads as "1,2", which
   * `Number()` does not accept: 400, and the listing is not called.
   */
  lemma GetAllRejectsRepeatedKey<T>(query: map<string, QueryValue>, toNumber: string -> Option<real>, findAll: Filter -> Outcome<T>)
    requires forall t :: ',' in t ==> toNumber(t).None?
    requires "categoriaId" in query && query["categoriaId"].QList? && |query["categoriaId"].items| >= 2
    ensures GetAll(query, toNumber, findAll) == Response(400, FieldDetails(FilterInvalidText, map["categoriaId" := [WrongType]]))
  {
    GetAllRejectsNaN(query, toNumber, findAll);
  }

  function GetById<T>(o: Outcome<Option<T>>): (r: Response<T>)
    ensures r.status == 404 <==> o == Returned(None)
    ensures r.status == 404 ==> r.body == ErrorMessage("Produto não encontrado")
    ensures o.Returned? && o.value.Some? ==> r == Response(200, Json(o.value.value))
    ensures r.status == 500 <==> o.Threw?
    ensures o.Threw? ==> r.body == ErrorMessage("Erro ao buscar produto")
  {
    Found(o, "Produto não encontrado", "Erro ao buscar produto")
  }

  function Create<T>(o: Outcome<T>): (r: Response<T>)
    ensures r.status == 201 <==> o.Returned?
    ensures o.Returned? ==> r.body == Json(o.value)
    ensures r.status == 400 <==> o.Threw? && IsError(o.thrown)
    ensures o.Threw? && !IsError(o.thrown) ==> r == Response(500, ErrorMessage("Erro ao criar produto"))
  {
    Saved(o, 201, "Erro ao criar produto")
  }

  function Update<T>(o: Outcome<T>): (r: Response<T>)
    ensures r.status == 200 <==> o.Returned?
    ensures o.Returned? ==> r.body == Json(o.value)
    ensures r.status == 400 <==> o.Threw? && IsError(o.thrown)
    ensures o.Threw? && !IsError(o.thrown) ==> r == Response(500, ErrorMessage("Erro ao atualizar produto"))
  {
    Saved(o, 200, "Erro ao atualizar produto")
  }

  function Delete(o: Outcome<()>): (r: Response<()>)
    ensures r.status == 204 <==> o.Returned?
    ensures r.status == 400 <==> o.Threw? && IsError(o.thrown)
    ensures o.Threw? && !IsError(o.thrown) ==> r == Response(500, ErrorMessage("Erro ao deletar produto"))
  {
    Deleted(o, "Erro ao deletar produto")
  }
}
