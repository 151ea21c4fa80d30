/** The state slice of the decentralized-exchange ("Dex") screens: five
    independently fetched values, each a RemoteData, and one reducer per
    action, each of which assigns exactly one of the five or does nothing. */
module DexSlice {
  import opened Wrappers
  import opened Remote

  /** Payload types defined by the Dex network API; only their identity
      matters here. */
  type DexChain(==)
  type DexToken(==)
  type DexSwapQuote(==)

  /** The five fields of the slice, in the order the source declares them. */
  datatype DexState = DexState(
    chains: RemoteData<string, seq<DexChain>>,
    currentChain: RemoteData<string, DexChain>,
    currentChainTokens: RemoteData<string, seq<DexToken>>,
    isUserEligible: RemoteData<string, bool>,
    swapQuote: RemoteData<string, DexSwapQuote>)

  datatype Field = Chains | CurrentChain | CurrentChainTokens | IsUserEligible | SwapQuote

  /** Every value all five fields start from. */
  const InitialState: DexState :=
    DexState(NotAsked, NotAsked, NotAsked, NotAsked, NotAsked)

  /** One constructor per reducer of the slice, with the action's payload. */
  datatype Action =
    | ClearCurrentSwapQuote
    | FetchChainAllTokens(search: string)
    | FetchChainAllTokensFailure(message: string)
    | FetchChainAllTokensLoading
    | FetchChainAllTokensSuccess(tokens: seq<DexToken>)
    | FetchChains
    | FetchChainsFailure(message: string)
    | FetchChainsLoading
    | FetchChainsSuccess(chainList: seq<DexChain>)
    | FetchSwapQuoteFailure(message: string)
    | FetchSwapQuoteLoading
    | FetchSwapQuoteSuccess(quote: DexSwapQuote)
    | FetchUserEligibility
    | FetchUserEligibilityFailure(message: string)
    | FetchUserEligibilityLoading
    | FetchUserEligibilitySuccess(eligible: bool)
    | SetCurrentChain(chain: DexChain)
  {
    /** The actions whose reducer has an empty body: they only start a fetch
        elsewhere. */
    predicate IsTrigger() {
      FetchChainAllTokens? || FetchChains? || FetchUserEligibility?
    }
  }

  /** The field an action assigns, if any. */
  function Target(a: Action): (f: Option<Field>)
    ensures f.None? <==> a.IsTrigger()
  {
    match a
    case ClearCurrentSwapQuote => Some(SwapQuote)
    case FetchChainAllTokens(_) => None
    case FetchChainAllTokensFailure(_) => Some(CurrentChainTokens)
    case FetchChainAllTokensLoading => Some(CurrentChainTokens)
    case FetchChainAllTokensSuccess(_) => Some(CurrentChainTokens)
    case FetchChains => None
    case FetchChainsFailure(_) => Some(Chains)
    case FetchChainsLoading => Some(Chains)
    case FetchChainsSuccess(_) => Some(Chains)
    case FetchSwapQuoteFailure(_) => Some(SwapQuote)
    case FetchSwapQuoteLoading => Some(SwapQuote)
    case FetchSwapQuoteSuccess(_) => Some(SwapQuote)
    case FetchUserEligibility => None
    case FetchUserEligibilityFailure(_) => Some(IsUserEligible)
    case FetchUserEligibilityLoading => Some(IsUserEligible)
    case FetchUserEligibilitySuccess(_) => Some(IsUserEligible)
    case SetCurrentChain(_) => Some(CurrentChain)
  }

  /** The state an assigning action leaves its field in; nothing for a
      trigger, which assigns no field. */
  function WrittenStatus(a: Action): (st: Option<Status>)
    ensures st.None? <==> a.IsTrigger()
  {
    match a
    case ClearCurrentSwapQuote => Some(NotAskedStatus)
    case FetchChainAllTokens(_) => None
    case FetchChainAllTokensFailure(_) => Some(FailureStatus)
    case FetchChainAllTokensLoading => Some(LoadingStatus)
    case FetchChainAllTokensSuccess(_) => Some(SuccessStatus)
    case FetchChains => None
    case FetchChainsFailure(_) => Some(FailureStatus)
    case FetchChainsLoading => Some(LoadingStatus)
    case FetchChainsSuccess(_) => Some(SuccessStatus)
    case FetchSwapQuoteFailure(_) => Some(FailureStatus)
    case FetchSwapQuoteLoading => Some(LoadingStatus)
    case FetchSwapQuoteSuccess(_) => Some(SuccessStatus)
    case FetchUserEligibility => None
    case FetchUserEligibilityFailure(_) => Some(FailureStatus)
    case FetchUserEligibilityLoading => Some(LoadingStatus)
    case FetchUserEligibilitySuccess(_) => Some(SuccessStatus)
    case SetCurrentChain(_) => Some(SuccessStatus)
  }

  function FieldStatus(s: DexState, f: Field): Status
  {
    match f
    case Chains => StatusOf(s.chains)
    case CurrentChain => StatusOf(s.currentChain)
    case CurrentChainTokens => StatusOf(s.currentChainTokens)
    case IsUserEligible => StatusOf(s.isUserEligible)
    case SwapQuote => StatusOf(s.swapQuote)
  }

  /** The failure message a field holds, if it is in the failure state; every
      field of the slice fails with a string. */
  function FieldError(s: DexState, f: Field): Option<string>
  {
    match f
    case Chains => ErrorOf(s.chains)
    case CurrentChain => ErrorOf(s.currentChain)
    case CurrentChainTokens => ErrorOf(s.currentChainTokens)
    case IsUserEligible => ErrorOf(s.isUserEligible)
    case SwapQuote => ErrorOf(s.swapQuote)
  }

  /** Two states hold the same value in field f. */
  predicate SameField(s: DexState, t: DexState, f: Field)
  {
    match f
    case Chains => s.chains == t.chains
    case CurrentChain => s.currentChain == t.currentChain
    case CurrentChainTokens => s.currentChainTokens == t.currentChainTokens
    case IsUserEligible => s.isUserEligible == t.isUserEligible
    case SwapQuote => s.swapQuote == t.swapQuote
  }

  /** The slice's reducer: what each action does to the state. */
  function Reduce(s: DexState, a: Action): (r: DexState)
    ensures Target(a).None? ==> r == s
    ensures forall g :: Target(a) != Some(g) ==> SameField(s, r, g)
    ensures Target(a).Some? ==> WrittenStatus(a) == Some(FieldStatus(r, Target(a).value))
    ensures WrittenStatus(a) == Some(FailureStatus) && Target(a).Some? ==>
              FieldError(r, Target(a).value) == Some(a.message)
  {
    match a
    case ClearCurrentSwapQuote => s.(swapQuote := NotAsked)
    case FetchChainAllTokens(_) => s
    case FetchChainAllTokensFailure(msg) => s.(currentChainTokens := Failure(msg))
    case FetchChainAllTokensLoading => s.(currentChainTokens := Loading)
    case FetchChainAllTokensSuccess(tokens) => s.(currentChainTokens := Success(tokens))
    case FetchChains => s
    case FetchChainsFailure(msg) => s.(chains := Failure(msg))
    case FetchChainsLoading => s.(chains := Loading)
    case FetchChainsSuccess(chainList) => s.(chains := Success(chainList))
    case FetchSwapQuoteFailure(msg) => s.(swapQuote := Failure(msg))
    case FetchSwapQuoteLoading => s.(swapQuote := Loading)
    case FetchSwapQuoteSuccess(quote) => s.(swapQuote := Success(quote))
    case FetchUserEligibility => s
    case FetchUserEligibilityFailure(msg) => s.(isUserEligible := Failure(msg))
    case FetchUserEligibilityLoading => s.(isUserEligible := Loading)
    case FetchUserEligibilitySuccess(eligible) => s.(isUserEligible := Success(eligible))
    case SetCurrentChain(chain) => s.(currentChain := Success(chain))
  }

  /** The slice starts with every field not yet asked for. */
  lemma InitialStateNotAsked()
    ensures forall f :: FieldStatus(InitialState, f) == NotAskedStatus
  {
  }

  /** What an assigning action writes does not depend on what its field held
      before: two states reduced by the same action agree on that field. */
  lemma ReduceOverwrites(s: DexState, t: DexState, a: Action)
    requires Target(a).Some?
    ensures SameField(Reduce(s, a), Reduce(t, a), Target(a).value)
  {
  }

  /** Success actions store their payload as given, in their own field. */
  lemma SuccessStoresPayload(s: DexState, a: Action)
    ensures a.FetchChainAllTokensSuccess? ==> Reduce(s, a).currentChainTokens == Success(a.tokens)
    ensures a.FetchChainsSuccess? ==> Reduce(s, a).chains == Success(a.chainList)
    ensures a.FetchSwapQuoteSuccess? ==> Reduce(s, a).swapQuote == Success(a.quote)
    ensures a.FetchUserEligibilitySuccess? ==> Reduce(s, a).isUserEligible == Success(a.eligible)
    ensures a.SetCurrentChain? ==> Reduce(s, a).currentChain == Success(a.chain)
  {
  }

  /** Every reducer is idempotent. */
  lemma ReduceIdempotent(s: DexState, a: Action)
    ensures Reduce(Reduce(s, a), a) == Reduce(s, a)
  {
  }

  /** The state after the store has applied the reducer to each dispatched
      action in turn. */
  function Replay(s: DexState, actions: seq<Action>): DexState
    decreases actions
  {
    if actions == [] then s else Replay(Reduce(s, actions[0]), actions[1..])
  }

  /** Replaying two runs of actions one after the other is replaying their
      concatenation. */
  lemma {:induction false} ReplayConcat(s: DexState, xs: seq<Action>, ys: seq<Action>)
    ensures Replay(s, xs + ys) == Replay(Replay(s, xs), ys)
    decreases xs
  {
    if xs == [] {
      assert xs + ys == ys;
    } else {
      assert (xs + ys)[1..] == xs[1..] + ys;
      ReplayConcat(Reduce(s, xs[0]), xs[1..], ys);
    }
  }

  /** A field that no action of a run assigns holds, after the run, the value
      it held before. */
  lemma {:induction false} ReplayFrame(s: DexState, actions: seq<Action>, f: Field)
    requires forall i :: 0 <= i < |actions| ==> Target(actions[i]) != Some(f)
    ensures SameField(s, Replay(s, actions), f)
    decreases actions
  {
    if actions != [] {
      ReplayFrame(Reduce(s, actions[0]), actions[1..], f);
    }
  }

  /** A run made only of trigger actions leaves the whole state unchanged. */
  lemma {:induction false} ReplayTriggers(s: DexState, actions: seq<Action>)
    requires forall i :: 0 <= i < |actions| ==> actions[i].IsTrigger()
    ensures Replay(s, actions) == s
    decreases actions
  {
    if actions != [] {
      ReplayTriggers(Reduce(s, actions[0]), actions[1..]);
    }
  }

  /** Last write wins: a field holds what the last action assigning it wrote,
      whatever came before that action and whatever came after it without
      touching the field. */
  lemma {:induction false} ReplayLastWriteWins(
    s: DexState, before: seq<Action>, a: Action, after: seq<Action>, t: DexState)
    requires Target(a).Some?
    requires forall i :: 0 <= i < |after| ==> Target(after[i]) != Target(a)
    ensures SameField(Replay(s, before + [a] + after), Reduce(t, a), Target(a).value)
  {
    var f := Target(a).value;
    ReplayConcat(s, before + [a], after);
    ReplayConcat(s, before, [a]);
    var mid := Replay(s, before);
    assert Replay(mid, [a]) == Replay(Reduce(mid, a), []);
    ReplayFrame(Reduce(mid, a), after, f);
    ReduceOverwrites(mid, t, a);
  }

  /** Nothing in the reducers sequences a field's states: a success may
      follow a failure directly, with no loading state between them. */
  lemma SuccessMayFollowFailure(s: DexState, message: string, chainList: seq<DexChain>)
    ensures Replay(s, [FetchChainsFailure(message), FetchChainsSuccess(chainList)]).chains
         == Success(chainList)
  {
    var run := [FetchChainsFailure(message), FetchChainsSuccess(chainList)];
    var failed := Reduce(s, run[0]);
    assert failed.chains == Failure(message);
    assert run[1..] == [FetchChainsSuccess(chainList)];
    assert Replay(failed, run[1..]) == Replay(Reduce(failed, run[1]), []);
  }

  /** The slice's state as the store holds it: the reducers assign its fields
      in place. */
  class DexStore {
    var chains: RemoteData<string, seq<DexChain>>
    var currentChain: RemoteData<string, DexChain>
    var currentChainTokens: RemoteData<string, seq<DexToken>>
    var isUserEligible: RemoteData<string, bool>
    var swapQuote: RemoteData<string, DexSwapQuote>

    /** The value the fields hold together. */
    function State(): DexState
      reads this
    {
      DexState(chains, currentChain, currentChainTokens, isUserEligible, swapQuote)
    }

    constructor ()
      ensures State() == InitialState
    {
      chains, currentChain, currentChainTokens := NotAsked, NotAsked, NotAsked;
      isUserEligible, swapQuote := NotAsked, NotAsked;
    }

    method ClearCurrentSwapQuote()
      modifies this
      ensures State() == old(State()).(swapQuote := NotAsked)
      ensures State() == Reduce(old(State()), Action.ClearCurrentSwapQuote)
    {
      swapQuote := NotAsked;
    }

    /** A trigger: starts the token search elsewhere and leaves the state as it is. */
    method FetchChainAllTokens(search: string)
      ensures State() == old(State()) == Reduce(old(State()), Action.FetchChainAllTokens(search))
    {
    }

    method FetchChainAllTokensFailure(message: string)
      modifies this
      ensures State() == old(State()).(currentChainTokens := Failure(message))
      ensures State() == Reduce(old(State()), Action.FetchChainAllTokensFailure(message))
    {
      currentChainTokens := Failure(message);
    }

    method FetchChainAllTokensLoading()
      modifies this
      ensures State() == old(State()).(currentChainTokens := Loading)
      ensures State() == Reduce(old(State()), Action.FetchChainAllTokensLoading)
    {
      currentChainTokens := Loading;
    }

    method FetchChainAllTokensSuccess(tokens: seq<DexToken>)
      modifies this
      ensures State() == old(State()).(currentChainTokens := Success(tokens))
      ensures State() == Reduce(old(State()), Action.FetchChainAllTokensSuccess(tokens))
    {
      currentChainTokens := Success(tokens);
    }

    /** A trigger: starts the chains fetch elsewhere and leaves the state as it is. */
    method FetchChains()
      ensures State() == old(State()) == Reduce(old(State()), Action.FetchChains)
    {
    }

    method FetchChainsFailure(message: string)
      modifies this
      ensures State() == old(State()).(chains := Failure(message))
      ensures State() == Reduce(old(State()), Action.FetchChainsFailure(message))
    {
      chains := Failure(message);
    }

    method FetchChainsLoading()
      modifies this
      ensures State() == old(State()).(chains := Loading)
      ensures State() == Reduce(old(State()), Action.FetchChainsLoading)
    {
      chains := Loading;
    }

    method FetchChainsSuccess(chainList: seq<DexChain>)
      modifies this
      ensures State() == old(State()).(chains := Success(chainList))
      ensures State() == Reduce(old(State()), Action.FetchChainsSuccess(chainList))
    {
      chains := Success(chainList);
    }

    method FetchSwapQuoteFailure(message: string)
      modifies this
      ensures State() == old(State()).(swapQuote := Failure(message))
      ensures State() == Reduce(old(State()), Action.FetchSwapQuoteFailure(message))
    {
      swapQuote := Failure(message);
    }

    method FetchSwapQuoteLoading()
      modifies this
      ensures State() == old(State()).(swapQuote := Loading)
      ensures State() == Reduce(old(State()), Action.FetchSwapQuoteLoading)
    {
      swapQuote := Loading;
    }

    method FetchSwapQuoteSuccess(quote: DexSwapQuote)
      modifies this
      ensures State() == old(State()).(swapQuote := Success(quote))
      ensures State() == Reduce(old(State()), Action.FetchSwapQuoteSuccess(quote))
    {
      swapQuote := Success(quote);
    }

    /** A trigger: starts the eligibility check elsewhere and leaves the state as it is. */
    method FetchUserEligibility()
      ensures State() == old(State()) == Reduce(old(State()), Action.FetchUserEligibility)
    {
    }

    method FetchUserEligibilityFailure(message: string)
      modifies this
      ensures State() == old(State()).(isUserEligible := Failure(message))
      ensures State() == Reduce(old(State()), Action.FetchUserEligibilityFailure(message))
    {
      isUserEligible := Failure(message);
    }

    method FetchUserEligibilityLoading()
      modifies this
      ensures State() == old(State()).(isUserEligible := Loading)
      ensures State() == Reduce(old(State()), Action.FetchUserEligibilityLoading)
    {
      isUserEligible := Loading;
    }

    method FetchUserEligibilitySuccess(eligible: bool)
      modifies this
      ensures State() == old(State()).(isUserEligible := Success(eligible))
      ensures State() == Reduce(old(State()), Action.FetchUserEligibilitySuccess(eligible))
    {
      isUserEligible := Success(eligible);
    }

    method SetCurrentChain(chain: DexChain)
      modifies this
      ensures State() == old(State()).(currentChain := Success(chain))
      ensures State() == Reduce(old(State()), Action.SetCurrentChain(chain))
    {
      currentChain := Success(chain);
    }

    /** The slice's reducer run on the store: each action goes to its own
        reducer, and the store ends in the state Reduce gives. */
    method Dispatch(a: Action)
      modifies this
      ensures State() == Reduce(old(State()), a)
    {
      match a
      case ClearCurrentSwapQuote => ClearCurrentSwapQuote();
      case FetchChainAllTokens(search) => FetchChainAllTokens(search);
      case FetchChainAllTokensFailure(message) => FetchChainAllTokensFailure(message);
      case FetchChainAllTokensLoading => FetchChainAllTokensLoading();
      case FetchChainAllTokensSuccess(tokens) => FetchChainAllTokensSuccess(tokens);
      case FetchChains => FetchChains();
      case FetchChainsFailure(message) => FetchChainsFailure(message);
      case FetchChainsLoading => FetchChainsLoading();
      case FetchChainsSuccess(chainList) => FetchChainsSuccess(chainList);
      case FetchSwapQuoteFailure(message) => FetchSwapQuoteFailure(message);
      case FetchSwapQuoteLoading => FetchSwapQuoteLoading();
      case FetchSwapQuoteSuccess(quote) => FetchSwapQuoteSuccess(quote);
      case FetchUserEligibility => FetchUserEligibility();
      case FetchUserEligibilityFailure(message) => FetchUserEligibilityFailure(message);
      case FetchUserEligibilityLoading => FetchUserEligibilityLoading();
      case FetchUserEligibilitySuccess(eligible) => FetchUserEligibilitySuccess(eligible);
      case SetCurrentChain(chain) => SetCurrentChain(chain);
    }
  }
}
