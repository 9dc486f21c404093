/**
 * Shared vocabulary of the fleet backend model: optional values, the
 * presence of a key in a JSON request body, and the outcome of a request
 * handler (the HTTP status the route returns, with the reason of a 400).
 */
module Common {

  datatype Option<T> = None | Some(value: T)

  /** A key of a JSON request body: `Given(v)` when `key in data` holds, with `data[key] == v`. */
  datatype Field<T> = Absent | Given(value: T)

  /** The value a partial update leaves in a column: the supplied one, else the current one. */
  function Or<T>(f: Field<T>, current: T): T
  {
    if f.Given? then f.value else current
  }

  /** Python truthiness of a string field: present and not the empty string. */
  predicate Supplied(f: Field<string>)
  {
    f.Given? && f.value != ""
  }

  /** Python truthiness of a field that may hold a string or JSON null. */
  predicate SuppliedText(f: Field<Option<string>>)
  {
    f.Given? && f.value.Some? && f.value.value != ""
  }

  /** Python truthiness of an integer id field: present and not 0. */
  predicate SuppliedId(f: Field<int>)
  {
    f.Given? && f.value != 0
  }

  /** Why a handler answered 400; the field named is the one its message names. */
  datatype Reason =
    | MissingField(field: string)        // "Missing required field: <field>"
    | InvalidValue(field: string)        // "Invalid <field>. Must be one of: ..."
    | AlreadyExists(field: string)       // "... already exists"
    | BadFormat(field: string)           // "Invalid <field> format. Use ..."
    | HasTrips                           // "Cannot delete ... with associated trips"
    | SelfDelete                         // "Cannot delete your own account"
    | NotPlanned                         // start_trip outside `planned`
    | NotOpen                            // complete_trip outside `planned`/`in_progress`
    | CredentialsRequired                // login / change-password without both values
    | WrongPassword                      // change-password with a wrong current password

  /** What a route handler returns. */
  datatype Outcome =
    | Ok
    | Created(id: int)
    | BadRequest(reason: Reason)
    | Unauthorized
    | Forbidden
    | NotFound
    | ServerError

  /** The HTTP status code the handler pairs with its JSON envelope. */
  function StatusCode(o: Outcome): (code: int)
    ensures code == 400 <==> o.BadRequest?
    ensures code == 401 <==> o.Unauthorized?
    ensures code == 403 <==> o.Forbidden?
    ensures code == 404 <==> o.NotFound?
    ensures o.Ok? || o.Created? <==> 200 <= code < 300
  {
    match o
    case Ok => 200
    case Created(_) => 201
    case BadRequest(_) => 400
    case Unauthorized => 401
    case Forbidden => 403
    case NotFound => 404
    case ServerError => 500
  }

  /** The exceptions a handler body can raise that this model follows. */
  datatype Exception =
    | HttpNotFound     // werkzeug's NotFound, raised by `query.get_or_404(id)`
    | IntegrityError   // a NOT NULL or UNIQUE constraint failing at commit
    | TypeError        // `strptime` given JSON null

  /**
   * The handlers' `except Exception` clause as written: roll back and answer 500.
   * werkzeug's NotFound is an `Exception`, so a missing id also ends here.
   */
  function HandlerExceptionAsWritten(e: Exception): (o: Outcome)
    ensures StatusCode(o) == 500
  {
    ServerError
  }

  /** The same clause letting `get_or_404`'s NotFound through as the 404 it stands for. */
  function HandlerException(e: Exception): (o: Outcome)
    ensures o == NotFound <==> e == HttpNotFound
    ensures o != NotFound ==> StatusCode(o) == 500
  {
    if e == HttpNotFound then NotFound else ServerError
  }

  /** `Model.query.get_or_404(id)`. */
  datatype Lookup<T> = Found(value: T) | Raised(error: Exception)

  function GetOr404<T>(table: map<int, T>, id: int): (r: Lookup<T>)
    ensures r.Found? <==> id in table
    ensures r.Found? ==> r.value == table[id]
    ensures r.Raised? ==> r.error == HttpNotFound
  {
    if id in table then Found(table[id]) else Raised(HttpNotFound)
  }

  /** As written, a request for a missing id is answered 500, not 404. */
  lemma MissingIdAnswered500<T>(table: map<int, T>, id: int)
    requires id !in table
    ensures GetOr404(table, id).Raised?
    ensures StatusCode(HandlerExceptionAsWritten(GetOr404(table, id).error)) == 500
  {
  }

  /** With NotFound let through, a missing id is answered 404 and nothing else is. */
  lemma MissingIdAnswered404<T>(table: map<int, T>, id: int)
    ensures GetOr404(table, id).Raised? <==> id !in table
    ensures id !in table ==> StatusCode(HandlerException(GetOr404(table, id).error)) == 404
  {
  }

  /** The envelope's `success` flag. */
  predicate Success(o: Outcome)
  {
    o.Ok? || o.Created?
  }
}
