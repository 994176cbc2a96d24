/** The wizard store: the `Steps` enum, the `State` record with its five
    idle/loading/success/error envelopes, the `Action` union, the initial
    state built from the `Store` props, and the reducer handed to
    `useReducer`. The live store is the fold of `Reduce` over the actions
    dispatched so far (`Run`). */
module Store {
  import opened Prelude
  import Catalog

  // ---------------------------------------------------------------------------
  // Phases (the `Steps` enum)

  /** The names of the `Steps` enum, including its trailing `__LENGTH` member. */
  datatype Phase =
    | AssetSelection | NetworkSelection | PaymentMethod | SwitchChain
    | EnterAmount | WalletConnect | QRCode | Result | LengthMarker

  /** The numeric value of each enum member. */
  function PhaseOrdinal(p: Phase): nat {
    match p
    case AssetSelection => 0
    case NetworkSelection => 1
    case PaymentMethod => 2
    case SwitchChain => 3
    case EnterAmount => 4
    case WalletConnect => 5
    case QRCode => 6
    case Result => 7
    case LengthMarker => 8
  }

  /** The enum's reverse mapping `Steps[n]`: the member whose value is `n`, or
      `undefined` when no member has that value. */
  function PhaseName(n: int): (r: Option<Phase>)
    ensures r.Some? <==> 0 <= n <= 8
    ensures r.Some? ==> PhaseOrdinal(r.value) == n
    ensures forall p :: PhaseOrdinal(p) == n ==> r == Some(p)
  {
    if n == 0 then Some(AssetSelection)
    else if n == 1 then Some(NetworkSelection)
    else if n == 2 then Some(PaymentMethod)
    else if n == 3 then Some(SwitchChain)
    else if n == 4 then Some(EnterAmount)
    else if n == 5 then Some(WalletConnect)
    else if n == 6 then Some(QRCode)
    else if n == 7 then Some(Result)
    else if n == 8 then Some(LengthMarker)
    else None
  }

  /** The phase list every widget starts with. */
  const DefaultSteps: seq<Phase> := [AssetSelection, NetworkSelection, PaymentMethod, EnterAmount, Result]

  // ---------------------------------------------------------------------------
  // State

  datatype Status = Idle | Loading | Success | Error

  /** The account envelope: on error, `data` holds the error message. */
  datatype AccountEnvelope = AccountEnvelope(data: Option<string>, status: Status)

  datatype DepositAddress = DepositAddress(address: string, memo: Option<string>)
  datatype DepositEnvelope = DepositEnvelope(data: Option<DepositAddress>, status: Status)

  /** The envelope with an error field, used for the prebuilt transaction, the
      provider and the transaction (whose `data` is the transaction hash). */
  datatype Envelope<T> = Envelope(data: Option<T>, error: Option<string>, status: Status)

  /** The fee estimate of a prebuilt transaction. */
  datatype PrebuiltTx = PrebuiltTx(
    feeError: bool, gasLimit: int, gasPrice: int, maxLimitFormatted: string, maxLimitRaw: int)

  /** Opaque handles to an injected provider and to a pairing-session client. */
  datatype ProviderHandle = ProviderHandle(id: nat)
  datatype ConnectorHandle = ConnectorHandle(id: nat)
  /** The pairing-session connector the code reads as `state.connector.data`. */
  datatype Connector = Connector(data: Option<ConnectorHandle>)

  datatype Theme = Dark | Light
  datatype Colors = Colors(progressBar: Option<string>, scrollBar: Option<string>)

  datatype State = State(
    account: AccountEnvelope,
    asset: Option<Catalog.Asset>,
    colors: Option<Colors>,
    depositAddress: DepositEnvelope,
    fiat: Option<string>,
    paymentMethod: Option<Catalog.PaymentMethod>,
    network: Option<Catalog.Network>,
    prebuiltTx: Envelope<PrebuiltTx>,
    provider: Option<Envelope<ProviderHandle>>,
    providerChainId: Option<int>,
    slug: Option<string>,
    step: int,
    steps: seq<Phase>,
    theme: Option<Theme>,
    transaction: Option<Envelope<string>>,
    connector: Option<Connector>)

  /** The props of the `Store` component that reach the state. */
  datatype Props = Props(
    asset: Option<Catalog.Asset>,
    colors: Option<Colors>,
    fiat: Option<string>,
    network: Option<Catalog.Network>,
    theme: Option<Theme>)

  /** `initialState`: every envelope idle and empty, no transaction record. */
  const Initial: State := State(
    AccountEnvelope(None, Idle), None, None, DepositEnvelope(None, Idle), None, None, None,
    Envelope(None, None, Idle), Some(Envelope(None, None, Idle)), None, None,
    0, DefaultSteps, None, None, None)

  /** The starting step: the first phase whose prerequisite is missing. The
      number is the enum value of that phase, which is also its position in
      the default phase list. */
  function InitialStep(asset: Option<Catalog.Asset>, network: Option<Catalog.Network>): (r: int)
    ensures 0 <= r < |DefaultSteps| && PhaseOrdinal(DefaultSteps[r]) == r
    ensures asset.None? ==> DefaultSteps[r] == AssetSelection
    ensures asset.Some? && network.None? ==> DefaultSteps[r] == NetworkSelection
    ensures asset.Some? && network.Some? ==> DefaultSteps[r] == PaymentMethod
  {
    if asset.Some? && network.Some? then PhaseOrdinal(PaymentMethod)
    else if asset.Some? then PhaseOrdinal(NetworkSelection)
    else 0
  }

  /** The state `useReducer` starts from: the props' asset, network, colors,
      fiat and theme, the default phase list positioned at the first phase
      whose prerequisite is missing, and every envelope idle and empty. */
  function InitialState(p: Props): (r: State)
    ensures r.asset == p.asset && r.network == p.network && r.colors == p.colors &&
            r.fiat == p.fiat && r.theme == p.theme
    ensures r.steps == DefaultSteps && 0 <= r.step < |r.steps|
    ensures r.steps[r.step] == (if p.asset.None? then AssetSelection
                                else if p.network.None? then NetworkSelection
                                else PaymentMethod)
    ensures r.account == AccountEnvelope(None, Idle) && r.transaction.None? &&
            r.paymentMethod.None? && r.connector.None?
  {
    Initial.(asset := p.asset, colors := p.colors, fiat := p.fiat, network := p.network,
             step := InitialStep(p.asset, p.network), theme := p.theme)
  }

  // ---------------------------------------------------------------------------
  // Actions and the reducer

  datatype Action =
    | ResetState
    | SetAsset(asset: Catalog.Asset)
    | SetNetwork(network: Catalog.Network)
    | SetPaymentMethod(selected: Option<Catalog.PaymentMethod>)
    | SetStep(ordinal: int)
    | SetSteps(phases: seq<Phase>)
    | GenerateDepositAddressSuccess(deposit: DepositAddress)
    | GenerateDepositAddressError
    | GenerateDepositAddressLoading
    | GenerateDepositAddressIdle
    | SetAccountIdle
    | SetAccountLoading
    | SetAccountSuccess(account: string)
    | SetAccountError(accountError: string)
    | SetProviderIdle
    | SetProviderLoading
    | SetProviderSuccess(handle: ProviderHandle)
    | SetProviderError(providerError: string)
    | SetTransactionSuccess(hash: Option<string>)
    | SetTransactionError(transactionError: string)
    | SetTransactionLoading
    | SetBalanceLoading
    | SetBalanceSuccess(assetBalance: int, chainBalance: int)
    | SetBalanceError(balanceError: string)
    | SetBalanceIdle
    | SetPrebuiltTxLoading
    | SetPrebuiltTxSuccess(prebuilt: PrebuiltTx)
    | SetPrebuiltTxError(prebuiltError: string)
    | SetPrebuiltTxIdle
    | SetProviderChainId(chainId: Option<int>)

  /** The fields of the state record. */
  datatype Field =
    | AccountField | AssetField | ColorsField | DepositAddressField | FiatField | MethodField
    | NetworkField | PrebuiltTxField | ProviderField | ProviderChainIdField | SlugField
    | StepField | StepsField | ThemeField | TransactionField | ConnectorField

  /** `s` and `t` agree on every field other than `f` (on every field when
      `f` is `None`). */
  predicate SameExcept(s: State, t: State, f: Option<Field>) {
    (f != Some(AccountField) ==> s.account == t.account) &&
    (f != Some(AssetField) ==> s.asset == t.asset) &&
    (f != Some(ColorsField) ==> s.colors == t.colors) &&
    (f != Some(DepositAddressField) ==> s.depositAddress == t.depositAddress) &&
    (f != Some(FiatField) ==> s.fiat == t.fiat) &&
    (f != Some(MethodField) ==> s.paymentMethod == t.paymentMethod) &&
    (f != Some(NetworkField) ==> s.network == t.network) &&
    (f != Some(PrebuiltTxField) ==> s.prebuiltTx == t.prebuiltTx) &&
    (f != Some(ProviderField) ==> s.provider == t.provider) &&
    (f != Some(ProviderChainIdField) ==> s.providerChainId == t.providerChainId) &&
    (f != Some(SlugField) ==> s.slug == t.slug) &&
    (f != Some(StepField) ==> s.step == t.step) &&
    (f != Some(StepsField) ==> s.steps == t.steps) &&
    (f != Some(ThemeField) ==> s.theme == t.theme) &&
    (f != Some(TransactionField) ==> s.transaction == t.transaction) &&
    (f != Some(ConnectorField) ==> s.connector == t.connector)
  }

  /** The four status actions of each envelope. */
  predicate DepositAddressAction(a: Action) {
    a.GenerateDepositAddressSuccess? || a.GenerateDepositAddressError? ||
    a.GenerateDepositAddressLoading? || a.GenerateDepositAddressIdle?
  }
  predicate AccountAction(a: Action) {
    a.SetAccountSuccess? || a.SetAccountError? || a.SetAccountLoading? || a.SetAccountIdle?
  }
  predicate PrebuiltTxAction(a: Action) {
    a.SetPrebuiltTxSuccess? || a.SetPrebuiltTxError? || a.SetPrebuiltTxLoading? || a.SetPrebuiltTxIdle?
  }
  predicate ProviderAction(a: Action) {
    a.SetProviderSuccess? || a.SetProviderError? || a.SetProviderLoading? || a.SetProviderIdle?
  }
  predicate TransactionAction(a: Action) {
    a.SetTransactionSuccess? || a.SetTransactionError? || a.SetTransactionLoading?
  }

  /** The one field (or envelope) an action other than a reset writes; none
      for the declared but unhandled balance actions. */
  function Touched(a: Action): Option<Field>
    requires !a.ResetState?
  {
    if DepositAddressAction(a) then Some(DepositAddressField)
    else if AccountAction(a) then Some(AccountField)
    else if PrebuiltTxAction(a) then Some(PrebuiltTxField)
    else if ProviderAction(a) then Some(ProviderField)
    else if TransactionAction(a) then Some(TransactionField)
    else
      match a
      case SetAsset(_) => Some(AssetField)
      case SetNetwork(_) => Some(NetworkField)
      case SetPaymentMethod(_) => Some(MethodField)
      case SetStep(_) => Some(StepField)
      case SetSteps(_) => Some(StepsField)
      case SetProviderChainId(_) => Some(ProviderChainIdField)
      case _ => None
  }

  /** `state.steps.indexOf(Steps[n])`: the position of the phase named by the
      enum value `n` in the current phase list; -1 when the name is absent
      from the list or `n` names no phase. */
  function StepIndex(steps: seq<Phase>, n: int): (r: int)
    ensures -1 <= r < |steps|
    ensures r == -1 <==> PhaseName(n).None? || PhaseName(n).value !in steps
    ensures 0 <= r ==> PhaseOrdinal(steps[r]) == n && steps[r] !in steps[..r]
  {
    match PhaseName(n)
    case None => -1
    case Some(p) => IndexOf(steps, p)
  }

  /** The envelope each status action writes, in place of the old one: the
      status the action names, the payload on success, and nothing else. */
  function DepositAddressAfter(a: Action): (e: DepositEnvelope)
    requires DepositAddressAction(a)
    ensures e.data.Some? <==> e.status == Success
    ensures e.data.Some? ==> a == GenerateDepositAddressSuccess(e.data.value)
    ensures e.status == Success <==> a.GenerateDepositAddressSuccess?
    ensures e.status == Error <==> a.GenerateDepositAddressError?
    ensures e.status == Loading <==> a.GenerateDepositAddressLoading?
    ensures e.status == Idle <==> a.GenerateDepositAddressIdle?
  {
    match a
    case GenerateDepositAddressSuccess(d) => DepositEnvelope(Some(d), Success)
    case GenerateDepositAddressError => DepositEnvelope(None, Error)
    case GenerateDepositAddressLoading => DepositEnvelope(None, Loading)
    case _ => DepositEnvelope(None, Idle)
  }

  function AccountAfter(a: Action): (e: AccountEnvelope)
    requires AccountAction(a)
    ensures e.data.Some? <==> e.status == Success || e.status == Error
    ensures e.status == Error ==> a == SetAccountError(e.data.value)
    ensures e.status == Success ==> a == SetAccountSuccess(e.data.value)
    ensures e.status == Success <==> a.SetAccountSuccess?
    ensures e.status == Error <==> a.SetAccountError?
    ensures e.status == Loading <==> a.SetAccountLoading?
    ensures e.status == Idle <==> a.SetAccountIdle?
  {
    match a
    case SetAccountSuccess(x) => AccountEnvelope(Some(x), Success)
    case SetAccountError(m) => AccountEnvelope(Some(m), Error)
    case SetAccountLoading => AccountEnvelope(None, Loading)
    case _ => AccountEnvelope(None, Idle)
  }

  function PrebuiltTxAfter(a: Action): (e: Envelope<PrebuiltTx>)
    requires PrebuiltTxAction(a)
    ensures EnvelopeOk(e) && (e.data.Some? <==> e.status == Success)
    ensures e.data.Some? ==> a == SetPrebuiltTxSuccess(e.data.value)
    ensures e.error.Some? ==> a == SetPrebuiltTxError(e.error.value)
    ensures e.status == Success <==> a.SetPrebuiltTxSuccess?
    ensures e.status == Error <==> a.SetPrebuiltTxError?
    ensures e.status == Loading <==> a.SetPrebuiltTxLoading?
    ensures e.status == Idle <==> a.SetPrebuiltTxIdle?
    ensures a.SetPrebuiltTxSuccess? ==> e.data == Some(a.prebuilt)
    ensures a.SetPrebuiltTxError? ==> e.error == Some(a.prebuiltError)
  {
    match a
    case SetPrebuiltTxSuccess(x) => Envelope(Some(x), None, Success)
    case SetPrebuiltTxError(m) => Envelope(None, Some(m), Error)
    case SetPrebuiltTxLoading => Envelope(None, None, Loading)
    case _ => Envelope(None, None, Idle)
  }

  function ProviderAfter(a: Action): (e: Envelope<ProviderHandle>)
    requires ProviderAction(a)
    ensures EnvelopeOk(e) && (e.data.Some? <==> e.status == Success)
    ensures e.data.Some? ==> a == SetProviderSuccess(e.data.value)
    ensures e.error.Some? ==> a == SetProviderError(e.error.value)
    ensures e.status == Success <==> a.SetProviderSuccess?
    ensures e.status == Error <==> a.SetProviderError?
    ensures e.status == Loading <==> a.SetProviderLoading?
    ensures e.status == Idle <==> a.SetProviderIdle?
    ensures a.SetProviderSuccess? ==> e.data == Some(a.handle)
    ensures a.SetProviderError? ==> e.error == Some(a.providerError)
  {
    match a
    case SetProviderSuccess(h) => Envelope(Some(h), None, Success)
    case SetProviderError(m) => Envelope(None, Some(m), Error)
    case SetProviderLoading => Envelope(None, None, Loading)
    case _ => Envelope(None, None, Idle)
  }

  function TransactionAfter(a: Action): (e: Envelope<string>)
    requires TransactionAction(a)
    ensures EnvelopeOk(e) && e.status != Idle
    ensures e.status == Success ==> a == SetTransactionSuccess(e.data)
    ensures e.error.Some? ==> a == SetTransactionError(e.error.value)
    ensures e.status == Success <==> a.SetTransactionSuccess?
    ensures e.status == Error <==> a.SetTransactionError?
    ensures e.status == Loading <==> a.SetTransactionLoading?
  {
    match a
    case SetTransactionSuccess(h) => Envelope(h, None, Success)
    case SetTransactionError(m) => Envelope(None, Some(m), Error)
    case _ => Envelope(None, None, Loading)
  }

  /** The reducer. `p` holds the props of the render that created it, which
      `RESET_STATE` reads. Each handled action writes only the field it
      names; an action without a case (the `SET_BALANCE_*` ones) falls to the
      default branch and returns the state as it is. */
  function Reduce(p: Props, s: State, a: Action): (t: State)
    ensures !a.ResetState? ==> SameExcept(s, t, Touched(a))
    ensures a.SetAsset? ==> t.asset == Some(a.asset)
    ensures a.SetNetwork? ==> t.network == Some(a.network)
    ensures a.SetPaymentMethod? ==> t.paymentMethod == a.selected
    ensures a.SetStep? ==> t.step == StepIndex(s.steps, a.ordinal)
    ensures a.SetSteps? ==> t.steps == a.phases
    ensures a.SetProviderChainId? ==> t.providerChainId == a.chainId
  {
    if a.ResetState? then
      Initial.(asset := p.asset, fiat := p.fiat, network := p.network,
               step := InitialStep(p.asset, p.network), theme := p.theme)
    else if DepositAddressAction(a) then s.(depositAddress := DepositAddressAfter(a))
    else if AccountAction(a) then s.(account := AccountAfter(a))
    else if PrebuiltTxAction(a) then s.(prebuiltTx := PrebuiltTxAfter(a))
    else if ProviderAction(a) then s.(provider := Some(ProviderAfter(a)))
    else if TransactionAction(a) then s.(transaction := Some(TransactionAfter(a)))
    else
      match a
      case SetAsset(x) => s.(asset := Some(x))
      case SetNetwork(x) => s.(network := Some(x))
      case SetPaymentMethod(m) => s.(paymentMethod := m)
      case SetStep(n) => s.(step := StepIndex(s.steps, n))
      case SetSteps(ps) => s.(steps := ps)
      case SetProviderChainId(c) => s.(providerChainId := c)
      case _ => s
  }

  /** The store after dispatching `actions` in order; a script that ends
      with a reset ends in the reset state, whatever came before. */
  function Run(p: Props, s: State, actions: seq<Action>): (r: State)
    ensures |actions| == 0 ==> r == s
    ensures |actions| > 0 && actions[|actions| - 1].ResetState? ==> r == InitialState(p).(colors := None)
    decreases |actions|
  {
    if |actions| == 0 then s else Run(p, Reduce(p, s, actions[0]), actions[1..])
  }

  // ---------------------------------------------------------------------------
  // Properties of single transitions

  /** `SET_STEP n` moves to the first position of phase `Steps[n]` in the
      current list and leaves the list alone; when that phase is absent, or
      `n` names none, the step becomes -1, outside the list. */
  lemma SetStepResolvesPhase(p: Props, s: State, n: int)
    ensures var t := Reduce(p, s, SetStep(n));
            t.steps == s.steps &&
            (t.step == -1 <==> PhaseName(n).None? || PhaseName(n).value !in s.steps) &&
            (0 <= t.step ==> t.step < |s.steps| && PhaseOrdinal(s.steps[t.step]) == n &&
                             s.steps[t.step] !in s.steps[..t.step])
  {
  }

  /** The step is not kept inside the phase list: on the default list,
      asking for the `SwitchChain` phase, which that list lacks, yields -1. */
  lemma SetStepCanLeaveTheList(p: Props, s: State)
    requires s.steps == DefaultSteps
    ensures Reduce(p, s, SetStep(PhaseOrdinal(SwitchChain))).step == -1
  {
    assert SwitchChain !in DefaultSteps;
  }

  /** The declared balance actions have no case in the reducer. */
  lemma BalanceActionsAreIgnored(p: Props, s: State, a: Action)
    requires a.SetBalanceLoading? || a.SetBalanceSuccess? || a.SetBalanceError? || a.SetBalanceIdle?
    ensures Reduce(p, s, a) == s
  {
    assert Touched(a) == None;
  }

  /** The deposit address carries data only right after
      `GENERATE_DEPOSIT_ADDRESS_SUCCESS`; error, loading, idle and reset all
      clear it. */
  lemma DepositAddressDataOnlyFromSuccess(p: Props, s: State, a: Action)
    ensures var t := Reduce(p, s, a);
            (t.depositAddress.data.Some? ==>
               (a.GenerateDepositAddressSuccess? && t.depositAddress == DepositEnvelope(Some(a.deposit), Success)) ||
               t.depositAddress == s.depositAddress) &&
            ((a.GenerateDepositAddressError? || a.GenerateDepositAddressLoading? ||
              a.GenerateDepositAddressIdle? || a.ResetState?) ==> t.depositAddress.data.None?) &&
            (a.GenerateDepositAddressSuccess? ==> t.depositAddress == DepositEnvelope(Some(a.deposit), Success)) &&
            (a.GenerateDepositAddressError? ==> t.depositAddress == DepositEnvelope(None, Error)) &&
            (a.GenerateDepositAddressLoading? ==> t.depositAddress == DepositEnvelope(None, Loading)) &&
            (a.GenerateDepositAddressIdle? || a.ResetState? ==> t.depositAddress == DepositEnvelope(None, Idle))
  {
  }

  /** On the account envelope the error message is stored in `data`; loading
      and idle set `data` to undefined. */
  lemma AccountEnvelopeTransitions(p: Props, s: State, a: Action)
    ensures var t := Reduce(p, s, a);
            (a.SetAccountError? ==> t.account.data == Some(a.accountError) && t.account.status == Error) &&
            (a.SetAccountSuccess? ==> t.account.data == Some(a.account) && t.account.status == Success) &&
            (a.SetAccountLoading? || a.SetAccountIdle? || a.ResetState? ==> t.account.data.None?) &&
            (a.SetAccountLoading? ==> t.account == AccountEnvelope(None, Loading)) &&
            (a.SetAccountIdle? || a.ResetState? ==> t.account == AccountEnvelope(None, Idle)) &&
            (t.account != s.account ==>
               a.SetAccountError? || a.SetAccountSuccess? || a.SetAccountLoading? ||
               a.SetAccountIdle? || a.ResetState?)
  {
  }

  /** The prebuilt transaction's error comes only from
      `SET_PREBUILT_TX_ERROR`, its data only from `SET_PREBUILT_TX_SUCCESS`,
      and loading, idle and reset clear both. */
  lemma PrebuiltTxEnvelopeTransitions(p: Props, s: State, a: Action)
    ensures var t := Reduce(p, s, a);
            (t.prebuiltTx.error.Some? ==>
               t.prebuiltTx == s.prebuiltTx || a == SetPrebuiltTxError(t.prebuiltTx.error.value)) &&
            (t.prebuiltTx.data.Some? ==>
               t.prebuiltTx == s.prebuiltTx || a == SetPrebuiltTxSuccess(t.prebuiltTx.data.value)) &&
            (a.SetPrebuiltTxLoading? || a.SetPrebuiltTxIdle? || a.ResetState? ==>
               t.prebuiltTx.data.None? && t.prebuiltTx.error.None?) &&
            (a.SetPrebuiltTxSuccess? ==> t.prebuiltTx == Envelope(Some(a.prebuilt), None, Success)) &&
            (a.SetPrebuiltTxError? ==> t.prebuiltTx == Envelope(None, Some(a.prebuiltError), Error)) &&
            (a.SetPrebuiltTxLoading? ==> t.prebuiltTx.status == Loading) &&
            (a.SetPrebuiltTxIdle? || a.ResetState? ==> t.prebuiltTx.status == Idle)
  {
  }

  /** The same for the provider envelope. */
  lemma ProviderEnvelopeTransitions(p: Props, s: State, a: Action)
    ensures var t := Reduce(p, s, a);
            (t.provider.Some? && t.provider.value.error.Some? ==>
               t.provider == s.provider || a == SetProviderError(t.provider.value.error.value)) &&
            (t.provider.Some? && t.provider.value.data.Some? ==>
               t.provider == s.provider || a == SetProviderSuccess(t.provider.value.data.value)) &&
            (a.SetProviderLoading? || a.SetProviderIdle? || a.ResetState? ==>
               t.provider.Some? && t.provider.value.data.None? && t.provider.value.error.None?) &&
            (a.SetProviderSuccess? ==> t.provider == Some(Envelope(Some(a.handle), None, Success))) &&
            (a.SetProviderError? ==> t.provider == Some(Envelope(None, Some(a.providerError), Error))) &&
            (a.SetProviderLoading? ==> t.provider == Some(Envelope(None, None, Loading))) &&
            (a.SetProviderIdle? || a.ResetState? ==> t.provider == Some(Envelope(None, None, Idle)))
  {
  }

  /** The same for the transaction envelope, whose data is the hash; a reset
      removes the transaction record altogether. */
  lemma TransactionEnvelopeTransitions(p: Props, s: State, a: Action)
    ensures var t := Reduce(p, s, a);
            (t.transaction.Some? && t.transaction.value.error.Some? ==>
               t.transaction == s.transaction || a == SetTransactionError(t.transaction.value.error.value)) &&
            (t.transaction.Some? && t.transaction.value.data.Some? ==>
               t.transaction == s.transaction || a == SetTransactionSuccess(t.transaction.value.data)) &&
            (a.SetTransactionLoading? ==>
               t.transaction.Some? && t.transaction.value.data.None? && t.transaction.value.error.None?) &&
            (a.SetTransactionSuccess? ==> t.transaction == Some(Envelope(a.hash, None, Success))) &&
            (a.SetTransactionError? ==> t.transaction == Some(Envelope(None, Some(a.transactionError), Error))) &&
            (a.SetTransactionLoading? ==> t.transaction == Some(Envelope(None, None, Loading))) &&
            (a.ResetState? ==> t.transaction.None?)
  {
  }

  /** `RESET_STATE` rebuilds the initial state from the current props, except
      that the colors are not restored: every envelope is idle and empty, no
      method, chain id, connector or transaction remains, the phase list is the
      default one, and the step is the initial step of the props. */
  lemma ResetRestoresInitialState(p: Props, s: State)
    ensures var t := Reduce(p, s, ResetState);
            t == InitialState(p).(colors := None) &&
            t.account == AccountEnvelope(None, Idle) &&
            t.depositAddress == DepositEnvelope(None, Idle) &&
            t.prebuiltTx == Envelope(None, None, Idle) &&
            t.provider == Some(Envelope(None, None, Idle)) &&
            t.transaction.None? && t.paymentMethod.None? && t.providerChainId.None? && t.connector.None? &&
            t.steps == DefaultSteps && t.colors.None? &&
            t.asset == p.asset && t.network == p.network && t.fiat == p.fiat && t.theme == p.theme &&
            t.step == InitialState(p).step
  {
  }

  /** Every action, dispatched twice in a row, has the effect of dispatching
      it once. */
  lemma ReduceIdempotent(p: Props, s: State, a: Action)
    ensures Reduce(p, Reduce(p, s, a), a) == Reduce(p, s, a)
  {
  }

  // ---------------------------------------------------------------------------
  // Properties of dispatch sequences

  /** Dispatching `xs` and then `ys` is dispatching `xs + ys`. */
  lemma {:induction false} RunAppend(p: Props, s: State, xs: seq<Action>, ys: seq<Action>)
    ensures Run(p, s, xs + ys) == Run(p, Run(p, s, xs), ys)
    decreases |xs|
  {
    if |xs| > 0 {
      assert (xs + ys)[1..] == xs[1..] + ys;
      RunAppend(p, Reduce(p, s, xs[0]), xs[1..], ys);
    } else {
      assert xs + ys == ys;
    }
  }

  /** `k` copies of one action. */
  function Repeat(a: Action, k: nat): (r: seq<Action>)
    ensures |r| == k && forall i :: 0 <= i < k ==> r[i] == a
  {
    if k == 0 then [] else [a] + Repeat(a, k - 1)
  }

  /** Dispatching the same action `k >= 1` times in a row ends where a single
      dispatch does. */
  lemma {:induction false} RunRepeated(p: Props, s: State, a: Action, k: nat)
    requires k >= 1
    ensures Run(p, s, Repeat(a, k)) == Reduce(p, s, a)
    decreases k
  {
    if k > 1 {
      var t := Reduce(p, s, a);
      assert Repeat(a, k)[1..] == Repeat(a, k - 1);
      RunRepeated(p, t, a, k - 1);
      ReduceIdempotent(p, s, a);
    }
  }

  /** The transaction envelope reflects the last action of a script when
      that action is a transaction action. */
  lemma {:induction false} LastTransactionActionDecides(p: Props, s: State, xs: seq<Action>)
    requires |xs| > 0 && TransactionAction(xs[|xs| - 1])
    ensures Run(p, s, xs).transaction == Some(TransactionAfter(xs[|xs| - 1]))
  {
    var n := |xs| - 1;
    assert xs == xs[..n] + [xs[n]];
    RunAppend(p, s, xs[..n], [xs[n]]);
    var t := Run(p, s, xs[..n]);
    assert Run(p, t, [xs[n]]) == Run(p, Reduce(p, t, xs[n]), []);
    assert Reduce(p, t, xs[n]) == t.(transaction := Some(TransactionAfter(xs[n])));
  }

  /** After a reset the history before it no longer matters. */
  lemma ResetForgetsHistory(p: Props, s1: State, s2: State, ys: seq<Action>)
    ensures Run(p, s1, [ResetState] + ys) == Run(p, s2, [ResetState] + ys)
  {
    assert ([ResetState] + ys)[1..] == ys;
  }

  // ---------------------------------------------------------------------------
  // The envelope invariant

  /** Data only on success and an error message exactly on error. */
  predicate EnvelopeOk<T>(e: Envelope<T>) {
    (e.data.Some? ==> e.status == Success) && (e.error.Some? <==> e.status == Error)
  }

  /** The envelope invariant over the whole state: the account holds data only
      on success or error (where it is the message), the deposit address and
      the prebuilt transaction hold data exactly on success, and the other
      envelopes satisfy `EnvelopeOk`. */
  predicate WellFormed(s: State) {
    (s.account.data.Some? ==> s.account.status == Success || s.account.status == Error) &&
    (s.depositAddress.data.Some? <==> s.depositAddress.status == Success) &&
    EnvelopeOk(s.prebuiltTx) && (s.prebuiltTx.data.Some? <==> s.prebuiltTx.status == Success) &&
    (s.provider.Some? ==> EnvelopeOk(s.provider.value)) &&
    (s.transaction.Some? ==> EnvelopeOk(s.transaction.value))
  }

  lemma InitialStateWellFormed(p: Props)
    ensures WellFormed(InitialState(p))
  {
  }

  /** A status action rewrites one envelope, and the envelope it writes is
      well formed (one lemma per envelope keeps each proof small). */
  lemma DepositAddressActionPreservesWellFormed(p: Props, s: State, a: Action)
    requires WellFormed(s) && DepositAddressAction(a)
    ensures WellFormed(Reduce(p, s, a))
  {
    assert Reduce(p, s, a) == s.(depositAddress := DepositAddressAfter(a));
  }

  lemma AccountActionPreservesWellFormed(p: Props, s: State, a: Action)
    requires WellFormed(s) && AccountAction(a)
    ensures WellFormed(Reduce(p, s, a))
  {
    assert Reduce(p, s, a) == s.(account := AccountAfter(a));
  }

  lemma PrebuiltTxActionPreservesWellFormed(p: Props, s: State, a: Action)
    requires WellFormed(s) && PrebuiltTxAction(a)
    ensures WellFormed(Reduce(p, s, a))
  {
    assert Reduce(p, s, a) == s.(prebuiltTx := PrebuiltTxAfter(a));
  }

  lemma ProviderActionPreservesWellFormed(p: Props, s: State, a: Action)
    requires WellFormed(s) && ProviderAction(a)
    ensures WellFormed(Reduce(p, s, a))
  {
    assert Reduce(p, s, a) == s.(provider := Some(ProviderAfter(a)));
  }

  lemma TransactionActionPreservesWellFormed(p: Props, s: State, a: Action)
    requires WellFormed(s) && TransactionAction(a)
    ensures WellFormed(Reduce(p, s, a))
  {
    assert Reduce(p, s, a) == s.(transaction := Some(TransactionAfter(a)));
  }

  /** Every action keeps the envelope invariant. */
  lemma ReducePreservesWellFormed(p: Props, s: State, a: Action)
    requires WellFormed(s)
    ensures WellFormed(Reduce(p, s, a))
  {
    if DepositAddressAction(a) {
      DepositAddressActionPreservesWellFormed(p, s, a);
    } else if AccountAction(a) {
      AccountActionPreservesWellFormed(p, s, a);
    } else if PrebuiltTxAction(a) {
      PrebuiltTxActionPreservesWellFormed(p, s, a);
    } else if ProviderAction(a) {
      ProviderActionPreservesWellFormed(p, s, a);
    } else if TransactionAction(a) {
      TransactionActionPreservesWellFormed(p, s, a);
    } else if !a.ResetState? {
      assert SameExcept(s, Reduce(p, s, a), Touched(a));
    }
  }

  /** Whatever actions are dispatched from the initial state, in whatever
      order, the envelope invariant holds after each of them. */
  lemma {:induction false} RunPreservesWellFormed(p: Props, s: State, actions: seq<Action>)
    requires WellFormed(s)
    ensures WellFormed(Run(p, s, actions))
    decreases |actions|
  {
    if |actions| > 0 {
      ReducePreservesWellFormed(p, s, actions[0]);
      RunPreservesWellFormed(p, Reduce(p, s, actions[0]), actions[1..]);
    }
  }
}
