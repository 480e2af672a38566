/** Result and error types shared by the route handlers and the cart. */
module Common {

  datatype Option<+T> = None | Some(value: T)

  /** The error taxonomy of the back office. Each route answers with one of
      these instead of an HTTP status code. */
  datatype Error =
    | ValidationError                                            // 400, express-validator rejected the body
    | ProductNotFound(productoId: int)                           // 400, create sale: unknown product on a line
    | InsufficientStock(productoId: int, available: int, requested: int)  // 400, create sale: stock < cantidad
    | NotFound                                                   // 404, no row matched the id
    | InvalidState                                               // 400, cancel of a sale that is not completada
    | PersistenceFailure                                         // 500, the database refused a write; rolled back

  datatype Result<+T> = Success(value: T) | Failure(error: Error)

  /** A result that carries no value (routes that answer only with a message). */
  datatype Outcome = Pass | Fail(error: Error)

  /** A field of a JSON request body: left out, or given with a value. */
  datatype Field<+T> = Absent | Given(value: T)
  {
    /** The given value, or `d` when the field was left out. */
    function Or(d: T): T
    {
      if Given? then value else d
    }
  }
}
