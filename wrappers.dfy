/** Option and Result, and the ways a request to the backend can fail. */
module Wrappers {

  datatype Option<T> = None | Some(value: T) {
    /** The value, or `default` when there is none. */
    function GetOr(default: T): T {
      if Some? then value else default
    }
  }

  /** How a request fails.
      - Http: an HTTPException raised by a route handler (status code and detail text);
      - Unprocessable: the request body does not match its Pydantic schema (status 422),
        with the names of the offending fields;
      - UniqueViolation, CheckViolation: the database refuses the row at commit time
        (an IntegrityError), naming the unique column or the check constraint. */
  datatype Failure =
    | Http(code: int, detail: string)
    | Unprocessable(fields: set<string>)
    | UniqueViolation(column: string)
    | CheckViolation(constraint: string)

  datatype Result<T> = Ok(value: T) | Err(failure: Failure)
}
