/** The rejection interceptor installed on the HTTP client: it turns a failed
    call whose body is the service's error envelope into a typed NabuError,
    passes every other failure through unchanged, and never turns a failure
    into a success. */
module NabuErrorInterceptor {
  import opened Wrappers

  /** A response the server sent back; only its body is read. */
  datatype Response<B> = Response(data: B)

  /** The rejection of a failed network call. `response` is absent when no
      response arrived at all (a timeout, a dropped connection). */
  datatype NetworkError<B> = NetworkError(message: string, response: Option<Response<B>>)

  /** What the runtime throws when a property is destructured out of an
      absent value. */
  datatype Thrown = TypeError(message: string)

  /** How an evaluation ends: with a value, or by throwing. */
  datatype Completion<T> = Normal(value: T) | Abrupt(thrown: Thrown)

  /** The typed service error, built from the envelope's ux detail. */
  datatype NabuError<U> = NabuError(ux: U)

  /** What a rejected promise carries. */
  datatype Reason<B, U> = Original(error: NetworkError<B>) | Typed(nabuError: NabuError<U>)

  /** A settled promise: fulfilled with a response, or rejected with a reason. */
  datatype Settled<B, U> = Fulfilled(response: Response<B>) | Rejected(reason: Reason<B, U>)

  /** The interceptor's result together with its one side effect: the value
      it wrote to the diagnostic log, if any. */
  datatype Handled<B, U> = Handled(promise: Settled<B, U>, logged: Option<Thrown>)

  /** The service-error predicate on a response body and the read of the
      body's `ux` member; their definitions are not part of this model. */
  datatype EnvelopeReader<!B, U> = EnvelopeReader(
    isNabuErrorInNetworkResponse: B -> bool,
    ux: B -> U)

  const MissingResponse: Thrown := TypeError("Cannot destructure property 'data' of 'error.response' as it is undefined.")

  /** Destructuring `data` out of `error.response`: throws when there is no
      response, and otherwise yields the body as it is. */
  function ReadResponseData<B>(error: NetworkError<B>): (r: Completion<B>)
    ensures r.Abrupt? <==> error.response.None?
    ensures r.Normal? ==> r.value == error.response.value.data
  {
    match error.response
    case None => Abrupt(MissingResponse)
    case Some(response) => Normal(response.data)
  }

  /** The guarded block: read the body, then reject with a NabuError when the
      body is the envelope and with the original error when it is not. It
      throws only when the read does, and it never fulfils. */
  function TryBlock<B, U>(reader: EnvelopeReader<B, U>, error: NetworkError<B>): (r: Completion<Settled<B, U>>)
    ensures r.Abrupt? <==> error.response.None?
    ensures r.Normal? ==> r.value.Rejected?
    ensures r.Normal? ==>
              (r.value.reason.Typed? <==> reader.isNabuErrorInNetworkResponse(error.response.value.data))
    ensures r.Normal? && r.value.reason.Original? ==> r.value.reason.error == error
    ensures r.Normal? && r.value.reason.Typed? ==>
              r.value.reason.nabuError.ux == reader.ux(error.response.value.data)
  {
    match ReadResponseData(error)
    case Abrupt(thrown) => Abrupt(thrown)
    case Normal(data) =>
      if reader.isNabuErrorInNetworkResponse(data) then
        Normal(Rejected(Typed(NabuError(reader.ux(data)))))
      else
        Normal(Rejected(Original(error)))
  }

  /** The interceptor: the guarded block, with whatever it throws logged and
      answered by rejecting with the original error. */
  function Intercept<B, U>(reader: EnvelopeReader<B, U>, error: NetworkError<B>): (r: Completion<Handled<B, U>>)
    // never throws, and always rejects
    ensures r.Normal? && r.value.promise.Rejected?
    // the envelope is recognised: a NabuError from its ux detail, nothing logged
    ensures error.response.Some? && reader.isNabuErrorInNetworkResponse(error.response.value.data) ==>
              r.value == Handled(Rejected(Typed(NabuError(reader.ux(error.response.value.data)))), None)
    // any other body: the original error, nothing logged
    ensures error.response.Some? && !reader.isNabuErrorInNetworkResponse(error.response.value.data) ==>
              r.value == Handled(Rejected(Original(error)), None)
    // no response: the read's failure is logged, the original error rejected
    ensures error.response.None? ==>
              r.value == Handled(Rejected(Original(error)), Some(MissingResponse))
    // the log is written exactly when the read fails
    ensures r.value.logged.Some? <==> error.response.None?
  {
    match TryBlock(reader, error)
    case Normal(settled) => Normal(Handled(settled, None))
    case Abrupt(parsingError) => Normal(Handled(Rejected(Original(error)), Some(parsingError)))
  }

  /** The factory: it takes nothing from its caller, so every interceptor it
      makes is the same function of the failed call. */
  function CreateNabuErrorRejectedInterceptor<B(!new), U>(reader: EnvelopeReader<B, U>)
    : (interceptor: NetworkError<B> -> Completion<Handled<B, U>>)
    ensures forall error :: interceptor(error) == Intercept(reader, error)
  {
    error => Intercept(reader, error)
  }
}
