/** Vocabulary shared by every controller: optional request fields, the
    HTTP error kinds an `APIError` carries, the requesting principal, the
    administrator guard of the catalogue controllers, the unwrapping step
    at the end of every `publicize`, and the paging defaults of `list`. */
module Common {

  /** A field of a request body or a document that may be `undefined`. */
  datatype Option<+T> = None | Some(value: T) {
    function GetOr(default: T): T {
      match this
      case Some(v) => v
      case None => default
    }
  }

  /** The `http-status` codes the controllers report through `next(...)`. */
  datatype HttpStatus = BadRequest | Unauthorized | InternalServerError | BadGateway

  /** `new APIError(message, status)`. */
  datatype ApiError = ApiError(message: string, status: HttpStatus)

  /** A promise that resolves with a value or rejects with an `APIError`. */
  datatype Result<+T> = Ok(value: T) | Err(error: ApiError)

  /** The authenticated caller (`req.user`). */
  datatype Principal = Principal(email: string, isAdmin: bool)

  const MustBeAdministrator := ApiError("Must be Administrator", Unauthorized)

  /** The guard that opens `create`, `update` and `remove` of the product,
      category and department controllers: a non-administrator is turned
      away with UNAUTHORIZED and nothing else happens. */
  function AdminGuard(user: Principal): (e: Option<ApiError>)
    ensures e.None? <==> user.isAdmin
    ensures e.Some? ==> e.value.status == Unauthorized && e.value.message == "Must be Administrator"
  {
    if user.isAdmin then None else Some(MustBeAdministrator)
  }

  /** What `publicize` hands to `res.json`: the sole element of a
      one-element array, the array itself otherwise. */
  datatype Unwrapped<T> = One(item: T) | Many(items: seq<T>)

  function Unwrap<T>(s: seq<T>): (u: Unwrapped<T>)
    ensures u.One? <==> |s| == 1
    ensures u.One? ==> [u.item] == s
    ensures u.Many? ==> u.items == s
  {
    if |s| == 1 then One(s[0]) else Many(s)
  }

  /** Paging of every `list`: `const { limit = 50, skip = 0 } = req.query`. */
  datatype Page = Page(limit: int, skip: int)

  const DefaultLimit := 50
  const DefaultSkip := 0

  function Paging(limit: Option<int>, skip: Option<int>): (p: Page)
    ensures limit.Some? ==> p.limit == limit.value
    ensures limit.None? ==> p.limit == 50
    ensures skip.Some? ==> p.skip == skip.value
    ensures skip.None? ==> p.skip == 0
  {
    Page(limit.GetOr(DefaultLimit), skip.GetOr(DefaultSkip))
  }

  /** The query a catalogue `list` runs: a fuzzy search on the name when the
      request carries `q`, the model's plain `list` otherwise. */
  datatype ListQuery = Fuzzy(q: string, page: Page) | Plain(page: Page)

  function ChooseQuery(q: Option<string>, limit: Option<int>, skip: Option<int>): (r: ListQuery)
    ensures r.Fuzzy? <==> q.Some?
    ensures r.Fuzzy? ==> r.q == q.value
    ensures r.page == Paging(limit, skip)
  {
    match q
    case Some(text) => Fuzzy(text, Paging(limit, skip))
    case None => Plain(Paging(limit, skip))
  }
}
