/**
 * GetProductHandler: the server-side handler of GetProductAction. It looks the
 * action's id up in the product database and either returns the product or
 * throws "Product not found". The database is a map from id to product; the
 * product type is a parameter, since Product is outside this model.
 */
module GetProductHandlers {
  import opened Wrappers

  datatype GetProductAction = GetProductAction(id: int)

  datatype GetProductResult<Product> = GetProductResult(product: Product)

  datatype ActionException = ActionException(message: string)

  /** The Class objects getActionType can name. */
  datatype ActionClass = GetProductActionClass | GetProductListActionClass

  const NOT_FOUND := "Product not found"

  /** execute: the product stored under the action's id, or the exception. */
  function Execute<Product>(database: map<int, Product>, action: GetProductAction)
    : (r: Result<GetProductResult<Product>, ActionException>)
    ensures r.Failure? <==> action.id !in database
    ensures r.Failure? ==> r.error == ActionException("Product not found")
    ensures r.Success? ==> r.value.product == database[action.id]
  {
    if action.id !in database then Failure(ActionException(NOT_FOUND))
    else Success(GetProductResult(database[action.id]))
  }

  /** undo: nothing to undo, the database is what it was. */
  function Undo<Product>(database: map<int, Product>, action: GetProductAction,
                         result: GetProductResult<Product>): (after: map<int, Product>)
    ensures after == database
  {
    database
  }

  function GetActionType(): (c: ActionClass)
    ensures c == GetProductActionClass
  {
    GetProductActionClass
  }

  /** The answer depends on the database only through the entry for the
      requested id: storing under another id does not change it. */
  lemma {:induction false} ExecuteReadsOnlyItsEntry<Product>(
    database: map<int, Product>, action: GetProductAction, id: int, product: Product)
    requires id != action.id
    ensures Execute(database[id := product], action) == Execute(database, action)
  {
    assert action.id in database[id := product] <==> action.id in database;
  }

  /** Every lookup after an undo gives the answer it gave before it. */
  lemma UndoChangesNoAnswer<Product>(
    database: map<int, Product>, done: GetProductAction, result: GetProductResult<Product>,
    action: GetProductAction)
    ensures Execute(Undo(database, done, result), action) == Execute(database, action)
  {
  }

  /** Once a product is stored under an id, executing the action for that id
      returns exactly that product. */
  lemma ExecuteFindsWhatWasStored<Product>(database: map<int, Product>, id: int, product: Product)
    ensures Execute(database[id := product], GetProductAction(id)) == Success(GetProductResult(product))
  {
  }
}
