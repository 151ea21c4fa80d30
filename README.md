# Dex state slice and service-error interceptor of the wallet front end

This project models two small pieces of sequential logic of the
blockchain.com wallet web front end and proves their properties in Dafny.

- **The Dex state slice** (`dex/slice.ts`): the state behind the
  decentralized-exchange screens, five independently fetched values
  (`chains`, `currentChain`, `currentChainTokens`, `isUserEligible`,
  `swapQuote`), each a RemoteData value. Each reducer assigns one field in
  place or does nothing. `DexSlice.Reduce` is the reducer as a pure function
  on `DexState`. The class `DexSlice.DexStore` holds the five fields. Each
  assigning reducer is a method with `modifies this`; the three trigger
  reducers are methods that modify nothing. Each method is proved to leave
  the store in the state `Reduce` gives. `Replay` folds `Reduce` over a
  run of dispatched actions, so that properties of several dispatches can be
  stated.
- **RemoteData** (module `Remote`): the four-state container
  `NotAsked | Loading | Failure(e) | Success(v)`, with its exhaustive
  eliminator `Cata` and `GetOrElse`. The library that defines it is not
  part of this model. It is declared from the way the front end uses it.
- **The service-error rejection interceptor**
  (`createNabuErrorRejectedInterceptor.ts`): it reads
  `error.response.data`. It rejects with a `NabuError` built from
  `data.ux` when the body is the service's error envelope, and with the
  original error otherwise. When the read throws because there is no response,
  it logs the thrown value and rejects with the original error. The model
  makes the JavaScript `try`/`catch` explicit: `Completion` is either a
  normal result or a throw. The promise is `Settled`, either fulfilled or
  rejected. The `console.error` call becomes the `logged` field of
  `Handled`. The envelope predicate and the read of `ux` are passed in as
  an `EnvelopeReader` record, because their code is not part of this model.

Nothing in the reducers orders a field's states: `fetchChainsSuccess` may
directly follow `fetchChainsFailure` (lemma
`DexSlice.SuccessMayFollowFailure`), and `setCurrentChain` goes from any
state straight to `Success`.

`DexSlice.Replay` is not part of the slice itself. It stands for the Redux
store applying `dexReducer` (slice.ts:69) to each dispatched action in turn,
and is introduced only to state properties of runs of actions.
`DexSlice.ReplayConcat` holds for any reducer folded this way; the other
`Replay` lemmas are specific to this slice.

Files: `wrappers.dfy` (Option), `remote.dfy`, `dex_slice.dfy`,
`nabu_error_interceptor.dfy`.

## Model

| member | source | states |
|---|---|---|
| Remote.Cata | packages/blockchain-wallet-v4-frontend/src/modals/RequestCrypto/ShowAddress/index.tsx:74-85 | a consumer gets exactly the handler of the state the value is in, given the failure error or success payload unchanged |
| Remote.GetOrElse | packages/blockchain-wallet-v4-frontend/src/modals/RequestCrypto/ShowAddress/index.tsx:135 | the payload of a successful value, and the caller's default in each of the three other states |
| Remote.GetOrElseIsCata | packages/blockchain-wallet-v4-frontend/src/modals/RequestCrypto/ShowAddress/index.tsx:135 | GetOrElse is the catamorphism whose non-success handlers return the default and whose success handler is the identity |
| DexSlice.Target | packages/blockchain-wallet-v4-frontend/src/data/components/dex/slice.ts:23-64 | an action assigns no field exactly when it is one of the three triggers fetchChainAllTokens, fetchChains, fetchUserEligibility |
| DexSlice.Reduce | packages/blockchain-wallet-v4-frontend/src/data/components/dex/slice.ts:19-65 | triggers return the state unchanged; every other action leaves the four fields it does not target unchanged, puts its own field in its status (NotAsked, Loading, Failure, Success), and a failure stores its message |
| DexSlice.InitialStateNotAsked | packages/blockchain-wallet-v4-frontend/src/data/components/dex/slice.ts:8-14 | all five fields of the initial state are NotAsked |
| DexSlice.ReduceOverwrites | packages/blockchain-wallet-v4-frontend/src/data/components/dex/slice.ts:20-64 | the value an action writes does not depend on what its field held before |
| DexSlice.SuccessStoresPayload | packages/blockchain-wallet-v4-frontend/src/data/components/dex/slice.ts:30-64 | each success action, and setCurrentChain, stores Success of its payload unchanged in its own field, from any prior state |
| DexSlice.ReduceIdempotent | packages/blockchain-wallet-v4-frontend/src/data/components/dex/slice.ts:20-64 | applying any action twice gives the same state as applying it once |
| DexSlice.ReplayConcat | packages/blockchain-wallet-v4-frontend/src/data/components/dex/slice.ts:68-69 | running the reducer over two runs of actions in turn is running it over their concatenation |
| DexSlice.ReplayFrame | packages/blockchain-wallet-v4-frontend/src/data/components/dex/slice.ts:20-64 | a field that no action of a run targets keeps its value through the run |
| DexSlice.ReplayTriggers | packages/blockchain-wallet-v4-frontend/src/data/components/dex/slice.ts:23-52 | a run made only of trigger actions leaves the whole state unchanged |
| DexSlice.ReplayLastWriteWins | packages/blockchain-wallet-v4-frontend/src/data/components/dex/slice.ts:20-64 | after a run, a field holds what the last action targeting it wrote, whatever preceded that action |
| DexSlice.SuccessMayFollowFailure | packages/blockchain-wallet-v4-frontend/src/data/components/dex/slice.ts:34-42 | a failure followed directly by a success leaves the field in Success; the reducers do not require Loading in between |
| DexSlice.DexStore.constructor | packages/blockchain-wallet-v4-frontend/src/data/components/dex/slice.ts:8-14 | the store starts in the initial state |
| DexSlice.DexStore.ClearCurrentSwapQuote | packages/blockchain-wallet-v4-frontend/src/data/components/dex/slice.ts:20-22 | swapQuote becomes NotAsked; the other four fields are unchanged |
| DexSlice.DexStore.FetchChainAllTokens | packages/blockchain-wallet-v4-frontend/src/data/components/dex/slice.ts:23 | the state is left as it is |
| DexSlice.DexStore.FetchChainAllTokensFailure | packages/blockchain-wallet-v4-frontend/src/data/components/dex/slice.ts:24-26 | currentChainTokens becomes Failure(message); nothing else changes |
| DexSlice.DexStore.FetchChainAllTokensLoading | packages/blockchain-wallet-v4-frontend/src/data/components/dex/slice.ts:27-29 | currentChainTokens becomes Loading; nothing else changes |
| DexSlice.DexStore.FetchChainAllTokensSuccess | packages/blockchain-wallet-v4-frontend/src/data/components/dex/slice.ts:30-32 | currentChainTokens becomes Success(tokens); nothing else changes |
| DexSlice.DexStore.FetchChains | packages/blockchain-wallet-v4-frontend/src/data/components/dex/slice.ts:33 | the state is left as it is |
| DexSlice.DexStore.FetchChainsFailure | packages/blockchain-wallet-v4-frontend/src/data/components/dex/slice.ts:34-36 | chains becomes Failure(message); nothing else changes |
| DexSlice.DexStore.FetchChainsLoading | packages/blockchain-wallet-v4-frontend/src/data/components/dex/slice.ts:37-39 | chains becomes Loading; nothing else changes |
| DexSlice.DexStore.FetchChainsSuccess | packages/blockchain-wallet-v4-frontend/src/data/components/dex/slice.ts:40-42 | chains becomes Success(chainList); nothing else changes |
| DexSlice.DexStore.FetchSwapQuoteFailure | packages/blockchain-wallet-v4-frontend/src/data/components/dex/slice.ts:43-45 | swapQuote becomes Failure(message); nothing else changes |
| DexSlice.DexStore.FetchSwapQuoteLoading | packages/blockchain-wallet-v4-frontend/src/data/components/dex/slice.ts:46-48 | swapQuote becomes Loading; nothing else changes |
| DexSlice.DexStore.FetchSwapQuoteSuccess | packages/blockchain-wallet-v4-frontend/src/data/components/dex/slice.ts:49-51 | swapQuote becomes Success(quote); nothing else changes |
| DexSlice.DexStore.FetchUserEligibility | packages/blockchain-wallet-v4-frontend/src/data/components/dex/slice.ts:52 | the state is left as it is |
| DexSlice.DexStore.FetchUserEligibilityFailure | packages/blockchain-wallet-v4-frontend/src/data/components/dex/slice.ts:53-55 | isUserEligible becomes Failure(message); nothing else changes |
| DexSlice.DexStore.FetchUserEligibilityLoading | packages/blockchain-wallet-v4-frontend/src/data/components/dex/slice.ts:56-58 | isUserEligible becomes Loading; nothing else changes |
| DexSlice.DexStore.FetchUserEligibilitySuccess | packages/blockchain-wallet-v4-frontend/src/data/components/dex/slice.ts:59-61 | isUserEligible becomes Success(eligible); nothing else changes |
| DexSlice.DexStore.SetCurrentChain | packages/blockchain-wallet-v4-frontend/src/data/components/dex/slice.ts:62-64 | currentChain becomes Success(chain) from any prior state, NotAsked included; nothing else changes |
| DexSlice.DexStore.Dispatch | packages/blockchain-wallet-v4-frontend/src/data/components/dex/slice.ts:68-69 | the slice's reducer routes each action to its own reducer and leaves the store in the state Reduce gives |
| NabuErrorInterceptor.ReadResponseData | packages/blockchain-wallet-v4-frontend/src/services/errors/NabuError/utils/createNabuErrorRejectedInterceptor/createNabuErrorRejectedInterceptor.ts:8 | destructuring data from error.response throws exactly when there is no response, and otherwise yields the body unchanged |
| NabuErrorInterceptor.TryBlock | packages/blockchain-wallet-v4-frontend/src/services/errors/NabuError/utils/createNabuErrorRejectedInterceptor/createNabuErrorRejectedInterceptor.ts:7-16 | the guarded block throws only when the read does and never fulfils; the service-error predicate decides between the typed rejection, which carries the ux of the body, and the plain one, which carries the original error |
| NabuErrorInterceptor.Intercept | packages/blockchain-wallet-v4-frontend/src/services/errors/NabuError/utils/createNabuErrorRejectedInterceptor/createNabuErrorRejectedInterceptor.ts:6-21 | never throws and always rejects; the envelope gives NabuError(data.ux); any other body gives the original error; a missing response gives the original error; the log is written exactly on the missing-response path |
| NabuErrorInterceptor.CreateNabuErrorRejectedInterceptor | packages/blockchain-wallet-v4-frontend/src/services/errors/NabuError/utils/createNabuErrorRejectedInterceptor/createNabuErrorRejectedInterceptor.ts:5-6 | every interceptor the factory makes gives Intercept's outcome on every failed call, so all of them agree |

## Left out

- React rendering, styling, routing and navigation are not modelled. This covers the address view, the bank account row, the coin select box, the Dex layout and header, the authenticator step and the Dex styles.
- The quote and fee arithmetic of the swap view is not modelled. It uses JavaScript floating point and an external big-number library.
- Address formatting and fiat formatting are not modelled. They are calls into the core package, whose code is not part of this model.
- Redux Toolkit mechanics are left out: createSlice, action creators, selectors, Immer drafts. Actions of other slices, which the reducer ignores, are left out too. Only the resulting field assignments are modelled.
- The slice's types module (DexStateType) and the Dex API types are not part of this model. The payload types are opaque. Every failure message is a string, matching the reducers' payload types.
- NabuErrorInterceptor.Intercept: the predicate isNabuErrorInNetworkResponse, the read of data.ux and the NabuError constructor are assumed not to throw. If one of them threw inside the try block, the source would log the error and reject with the original error; the model does not cover that path.
- The exact text of the TypeError thrown on a missing response depends on the JavaScript engine. The model uses one fixed constant.
- Promises and the HTTP client's interceptor registration are replaced by the Settled and Handled values. console.error is replaced by the logged field.
