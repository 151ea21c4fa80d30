/** The RemoteData container the wallet's state slices use for every value
    fetched asynchronously: a request not yet made, a request in flight, a
    request that failed with an error, or a request that delivered a value.
    Exactly one of the four holds at a time. */
module Remote {
  import opened Wrappers

  datatype RemoteData<E, T> =
    | NotAsked
    | Loading
    | Failure(error: E)
    | Success(value: T)

  /** The tag of a RemoteData value with its payload forgotten, so that fields
      holding different payload types can be compared by state. */
  datatype Status = NotAskedStatus | LoadingStatus | FailureStatus | SuccessStatus

  function StatusOf<E, T>(rd: RemoteData<E, T>): (st: Status)
    ensures st == NotAskedStatus <==> rd.NotAsked?
    ensures st == LoadingStatus <==> rd.Loading?
    ensures st == FailureStatus <==> rd.Failure?
    ensures st == SuccessStatus <==> rd.Success?
  {
    match rd
    case NotAsked => NotAskedStatus
    case Loading => LoadingStatus
    case Failure(_) => FailureStatus
    case Success(_) => SuccessStatus
  }

  /** The error a failed value carries; nothing in the three other states. */
  function ErrorOf<E, T>(rd: RemoteData<E, T>): (r: Option<E>)
    ensures r.Some? <==> rd.Failure?
    ensures r.Some? ==> r.value == rd.error
  {
    if rd.Failure? then Some(rd.error) else None
  }

  /** One handler per state; `cata` demands all four, so no state can be
      silently dropped by a consumer. */
  datatype Handlers<!E, !T, R> = Handlers(
    onNotAsked: () -> R,
    onLoading: () -> R,
    onFailure: E -> R,
    onSuccess: T -> R)

  /** The exhaustive eliminator: the handler of the state the value is in,
      given the carried payload as it is. */
  function Cata<E, T, R>(rd: RemoteData<E, T>, h: Handlers<E, T, R>): (r: R)
    ensures rd.NotAsked? ==> r == h.onNotAsked()
    ensures rd.Loading? ==> r == h.onLoading()
    ensures rd.Failure? ==> r == h.onFailure(rd.error)
    ensures rd.Success? ==> r == h.onSuccess(rd.value)
  {
    match rd
    case NotAsked => h.onNotAsked()
    case Loading => h.onLoading()
    case Failure(e) => h.onFailure(e)
    case Success(v) => h.onSuccess(v)
  }

  /** The payload of a successful value, or the caller's default in the three
      other states. */
  function GetOrElse<E, T>(rd: RemoteData<E, T>, default: T): (r: T)
    ensures rd.Success? ==> r == rd.value
    ensures !rd.Success? ==> r == default
  {
    if rd.Success? then rd.value else default
  }

  /** GetOrElse is the catamorphism whose three non-success handlers all give
      the default and whose success handler is the identity. */
  lemma GetOrElseIsCata<E, T>(rd: RemoteData<E, T>, default: T)
    ensures GetOrElse(rd, default)
         == Cata(rd, Handlers(() => default, () => default, (_: E) => default, (v: T) => v))
  {
  }
}
