# map3 payments widget: the wizard store and its drivers, in Dafny

The map3 payments SDK is a checkout widget that runs as a sequence of steps:
choose an asset, choose a network, choose a payment method, then enter an
amount and pay. This project models the core of that widget:

- **The wizard store** (`store.dfy`, module `Store`). It holds:
  - the `Steps` enum;
  - the `State` record and its five idle/loading/success/error envelopes
    (account, deposit address, prebuilt transaction, provider, transaction);
  - the `Action` union;
  - the initial step taken from the `Store` props;
  - the reducer (`Reduce`).

  The live store is the fold `Run` of the reducer over the dispatched actions.
- **The `useWeb3` hook** (`use_web3.dfy`, module `Web3Hook`):
  - discovery of injected wallets;
  - the routing of `wallet_switchEthereumChain`;
  - `sendTransaction`, which builds native or ERC-20 transfer parameters and
    dispatches the transaction's status actions.
- **The injected-wallet payment method** (`web3_method.dfy`, module `Web3Method`):
  - provider selection;
  - the `connect` script driven by `eth_accounts` and `eth_requestAccounts`;
  - the `accountsChanged` listeners each connection registers
    (class `WalletConnection`);
  - the button's label, `disabled` and `loading` props.
- **The chain-switch step** (`switch_chain.dfy`, module `SwitchChainStep`):
  - the missing-method guard;
  - `handleSwitch`, with its add-chain fallback, over the step's own state
    (class `SwitchChainView`).
- **Boot routing** (`app.dfy`, module `AppRouting`): the `slug` split on `:`
  and the choice of wrapper.
- **Boot by address and network** (`app_with_address_and_network.dfy`, module
  `AddressAndNetworkBoot`):
  - first-match lookup of the network and the asset;
  - the loading and error precedence;
  - the props handed to the store.

Supporting modules:

- `prelude.dfy` (module `Prelude`) states the JavaScript built-ins the core
  relies on, over sequences: `indexOf`, `find`, `includes`, `replace` with a
  string pattern, `split` and truthiness.
- `catalog.dfy` (module `Catalog`) holds the catalogue entities (asset,
  network, payment method).

Everything outside the widget becomes an input: the wallet's replies, the
query results, the host page's `window.ethereum`, and each thrown error. The
ethers helpers are kept uninterpreted:

- `parseEther(amount)` is the term `EtherHex(amount)`.
- The ABI encoding of `transfer(to, parseUnits(amount, decimals))` is
  `EncodedTransfer(...)`.
- `toHex(chainId)` is `ToHex(chainId)`.
- The gas limit is the integer handed to `hexlify`.

Where the code and the widget's documentation disagree, the model follows
the code:

- The step is not kept inside the phase list. `SET_STEP` uses `indexOf` and
  yields -1 for a phase the list lacks (`Store.SetStepCanLeaveTheList`).
- The account envelope stores an error message in `data`.
- `RESET_STATE` restores asset, fiat, network, theme and the step from the
  props, but not the colors.
- Without a memo, ERC-20 call data ends in the text `undefined`. The
  expression parses as `(encoded + memo?.replace('0x','')) || ''`.
- `replace('0x', '')` removes the first `0x`, wherever it occurs.
- On the pairing-session (WalletConnect) transport, a failed send dispatches
  the error and then a success without hash, so the transaction ends in
  success.
- `sendTransaction` proceeds whenever `account.data` is non-empty. This
  includes an account in error, whose `data` is the error message.
- Every `connect` (on mount and on each `web3_connect` message) registers one
  more `accountsChanged` listener. After n connections, each account change
  dispatches the listener's action n times. The store ends as after one
  dispatch (`Store.RunRepeated`).
- Nothing in the reducer prevents any status transition. For example, an
  idle account can go straight to success.
- `handleSwitch` calls `addChain`, but `useWeb3` does not return one. In the
  code as shipped, the fallback call therefore throws a `TypeError`, the
  inner `catch` takes it, and its message becomes the form error. The model
  keeps `addChain`'s outcome as an input, so both that case and a working
  `addChain` are covered.

## Model

| member | source | states |
|---|---|---|
| Prelude.IndexOf | src/providers/Store/index.tsx:219-221 | `Array.prototype.indexOf`: -1 exactly when the element is absent; otherwise a position holding it with no earlier occurrence |
| Prelude.FindIndex | src/components/methods/Web3/index.tsx:15-17 | the first position satisfying the predicate, no earlier position satisfies it, -1 when none does |
| Prelude.Find | src/App.withAddressAndNetwork.tsx:27-34 | `Array.prototype.find`: a result exactly when some element satisfies the predicate; the result is the element at a position that satisfies it, with no earlier position satisfying it (the first match) |
| Prelude.FirstIndexOf | src/hooks/useWeb3.tsx:88 | `String.prototype.indexOf`: -1 exactly when the pattern never occurs, else the first position where it occurs |
| Prelude.Includes | src/steps/SwitchChain/index.tsx:34 | `String.prototype.includes`: true exactly when the pattern occurs at some position |
| Prelude.ReplaceFirst | src/hooks/useWeb3.tsx:88 | `replace` with a string pattern leaves a string without the pattern unchanged; otherwise, at the first occurrence `i` (no earlier position holds the pattern), the result has length `|s| - |pat| + |rep|`, keeps `s[..i]`, holds `rep` next, and then continues with `s` after the occurrence |
| Prelude.ReplaceFirstRemovesOneOccurrence | src/hooks/useWeb3.tsx:88 | removing the first occurrence shortens by the pattern's length, and re-inserting the pattern there restores the original |
| Prelude.Split | src/App.tsx:14 | `split` on one character yields at least one piece; the pieces hold no separator, and joined with it they give back the string |
| Prelude.SplitWithoutSeparator | src/App.tsx:14 | a string without the separator splits into itself alone |
| Prelude.SplitAtFirstSeparator | src/App.tsx:14 | splitting `a:b`, where `a` has no `:`, yields `a` followed by the pieces of `b` |
| Store.PhaseName | src/providers/Store/index.tsx:11-21 | the enum's reverse mapping `Steps[n]` is defined exactly for 0..8 and names the member whose value is `n` |
| Store.InitialStep | src/providers/Store/index.tsx:199-207 | start at asset selection without an asset (even with a network), at network selection with only an asset, and at the payment method with both; the number is that phase's position in the default list |
| Store.Initial | src/providers/Store/index.tsx:129-163 | a constant: every envelope idle and empty, the default phase list, step 0; `InitialStateWellFormed` and `InitialState` state what the store starts from |
| Store.InitialState | src/providers/Store/index.tsx:195-207 | the store starts with the props' asset, network, colors, fiat and theme, the default phase list, and the step at asset selection without an asset, network selection with only an asset, and the payment method with both; the account is idle and empty, with no transaction, method or connector |
| Store.DepositAddressAfter | src/providers/Store/index.tsx:228-259 | each of the four actions sets its own status (success, error, loading, idle); the envelope holds data exactly on success, and that data is the success payload |
| Store.AccountAfter | src/providers/Store/index.tsx:260-291 | each of the four actions sets its own status (success, error, loading, idle); the account holds data exactly on success or error: the account on success, the message on error |
| Store.PrebuiltTxAfter | src/providers/Store/index.tsx:292-327 | each of the four actions sets its own status; success stores its payload, error stores its message; data appears only on success and an error only on error |
| Store.ProviderAfter | src/providers/Store/index.tsx:328-363 | each of the four actions sets its own status; success stores the provider handle, error stores its message; data appears only on success and an error only on error |
| Store.TransactionAfter | src/providers/Store/index.tsx:369-395 | each of the three actions sets its own status and the envelope is never idle; a success carries the payload hash, an error the payload message |
| Store.Reduce | src/providers/Store/index.tsx:210-403 | every action other than a reset changes only the one field or envelope it names, and unhandled actions change nothing; `SET_ASSET`, `SET_NETWORK`, `SET_PAYMENT_METHOD`, `SET_STEPS` and `SET_PROVIDER_CHAIN_ID` store their payload, and `SET_STEP n` stores the phase position `StepIndex` |
| Store.StepIndex | src/providers/Store/index.tsx:216-222 | `state.steps.indexOf(Steps[n])`: -1 exactly when `n` names no phase or that phase is absent from the list; otherwise the first position of the phase whose enum value is `n` |
| Store.Run | src/providers/Store/index.tsx:209-406 | dispatching nothing leaves the state; a script that ends in `RESET_STATE` ends in the reset state built from the props, whatever the state and actions before it (further properties in `RunAppend`, `RunRepeated`, `RunPreservesWellFormed`) |
| Store.SetStepResolvesPhase | src/providers/Store/index.tsx:216-222 | `SET_STEP n` keeps the list and moves to the first position of phase `Steps[n]`; the step is -1 exactly when that phase is absent or `n` names none |
| Store.SetStepCanLeaveTheList | src/providers/Store/index.tsx:216-222 | on the default list, asking for `SwitchChain` sets the step to -1, outside the list |
| Store.BalanceActionsAreIgnored | src/providers/Store/index.tsx:399-402 | the four declared `SET_BALANCE_*` actions leave the state unchanged |
| Store.DepositAddressDataOnlyFromSuccess | src/providers/Store/index.tsx:228-259 | `GENERATE_DEPOSIT_ADDRESS_SUCCESS d` gives data `d` with status success; error, loading and idle give no data and their own status; reset gives the idle envelope; deposit data after an action comes from that action or was already there |
| Store.AccountEnvelopeTransitions | src/providers/Store/index.tsx:260-291 | `SET_ACCOUNT_ERROR` stores its message in `data` with status error; success stores the account; loading gives the empty loading envelope; idle and reset the empty idle one; no other action changes the account |
| Store.PrebuiltTxEnvelopeTransitions | src/providers/Store/index.tsx:292-327 | success stores its payload with status success, error its message with status error; loading, idle and reset clear both and set their status; a new error or new data comes only from those actions |
| Store.ProviderEnvelopeTransitions | src/providers/Store/index.tsx:328-363 | success stores the handle with status success, error its message with status error; loading, idle and reset give the empty envelope with their status; a new error or new data comes only from those actions |
| Store.TransactionEnvelopeTransitions | src/providers/Store/index.tsx:369-395 | success stores the hash with status success, error its message with status error, loading the empty loading envelope; a new error or hash comes only from those actions; a reset removes the record |
| Store.ResetRestoresInitialState | src/providers/Store/index.tsx:396-398 | reset gives the initial state built from the props except the colors: envelopes idle and empty; no method, chain id, connector or transaction; the default phase list; the props' asset, fiat, network, theme and initial step |
| Store.ReduceIdempotent | src/providers/Store/index.tsx:210-403 | dispatching any action twice in a row is the same as dispatching it once |
| Store.RunAppend | src/providers/Store/index.tsx:209-406 | folding `xs + ys` is folding `xs` and then `ys` |
| Store.RunRepeated | src/providers/Store/index.tsx:209-406 | `k >= 1` copies of one action end where a single dispatch does |
| Store.LastTransactionActionDecides | src/providers/Store/index.tsx:369-395 | after a script ending in a transaction action, the transaction envelope is the one that action writes |
| Store.ResetForgetsHistory | src/providers/Store/index.tsx:396-398 | after a reset, the states the store came from no longer matter |
| Store.InitialStateWellFormed | src/providers/Store/index.tsx:129-163 | the initial state satisfies the envelope invariant |
| Store.DepositAddressActionPreservesWellFormed | src/providers/Store/index.tsx:228-259 | deposit-address actions keep the envelope invariant |
| Store.AccountActionPreservesWellFormed | src/providers/Store/index.tsx:260-291 | account actions keep the envelope invariant |
| Store.PrebuiltTxActionPreservesWellFormed | src/providers/Store/index.tsx:292-327 | prebuilt-transaction actions keep the envelope invariant |
| Store.ProviderActionPreservesWellFormed | src/providers/Store/index.tsx:328-363 | provider actions keep the envelope invariant |
| Store.TransactionActionPreservesWellFormed | src/providers/Store/index.tsx:369-395 | transaction actions keep the envelope invariant |
| Store.ReducePreservesWellFormed | src/providers/Store/index.tsx:210-403 | every action keeps the envelope invariant |
| Store.RunPreservesWellFormed | src/providers/Store/index.tsx:209-406 | any sequence of dispatches keeps the envelope invariant |
| Web3Hook.MarkAvailable | src/hooks/useWeb3.tsx:17-20 | the `reduce` callback adds every key, sets it to true, and keeps the other entries |
| Web3Hook.DiscoverProviders | src/hooks/useWeb3.tsx:14-33 | a `providers` array, even an empty one, gives all its indices; else `isMetaMask` gives MetaMask; else `isCoinbaseWallet` gives CoinbaseWallet; else nothing; every value is true |
| Web3Hook.ActiveTransport | src/hooks/useWeb3.tsx:96-111 | requests go through the connector exactly for `isWalletConnect` and through the provider otherwise; there is no transport when that object is absent; the transport carries exactly `state.connector.data` or `state.provider.data` |
| Web3Hook.IsWalletConnect | src/hooks/useWeb3.tsx:96 | no contract of its own; `ActiveTransport`, `SwitchChainRequest` and `SubmissionScript` state that it picks the connector, and that a failed send then ends in success |
| Web3Hook.SwitchChainRequest | src/hooks/useWeb3.tsx:43-61 | `wallet_switchEthereumChain` with `toHex(chainId)`, sent as a JSON-RPC 2.0 custom request on the connector for `isWalletConnect`, or by `send` on the provider |
| Web3Hook.ExtraGas | src/hooks/useWeb3.tsx:73 | `memo.length / 2 * 16`, evaluated as a real number, is exactly 8 per memo character; 0 without a memo |
| Web3Hook.MemoTail | src/hooks/useWeb3.tsx:84-88 | the text `undefined` without a memo; otherwise the memo with only its first `0x` removed, wherever it occurs |
| Web3Hook.NativeParams | src/hooks/useWeb3.tsx:75-81 | native parameters: the sender as `from`, the memo (or `0x`) as data, the recipient as `to`, `parseEther(amount)` as value, and 21000 gas plus 8 per memo character |
| Web3Hook.TxParamsFor | src/hooks/useWeb3.tsx:75-92 | the sender is always the account; a native transfer uses the native parameters; a token transfer goes to the token contract with value `0x0` and 79000 more gas than the native one (the data in `TokenTransferOverridesNative`) |
| Web3Hook.NativeTransfer | src/hooks/useWeb3.tsx:75-81 | native parameters: data is the memo or `0x`, `to` the recipient, value `parseEther(amount)`, gas 21000 plus 8 per memo character |
| Web3Hook.TokenTransferOverridesNative | src/hooks/useWeb3.tsx:83-92 | token parameters keep the sender; `to` is the token contract; value is `0x0`; data encodes `transfer` followed by the memo tail; gas is the native gas plus 79000 |
| Web3Hook.NativeGasExamples | src/steps/WalletConnect/WalletConnect.test.tsx:102-133 | gas `0x5208` with data `0x` without a memo; gas `0x5238` with the memo as data for `123456` |
| Web3Hook.TokenTransferWithoutMemo | src/hooks/useWeb3.tsx:84-91 | without a memo, a token transfer has gas 100000 and data ending in `undefined` |
| Web3Hook.MemoTailStripsPrefix | src/hooks/useWeb3.tsx:88 | `0xabcd` loses its prefix; an empty memo stays empty |
| Web3Hook.MemoTailStripsInnerOccurrence | src/hooks/useWeb3.tsx:88 | in `ab0xcd` the inner `0x` is removed |
| Web3Hook.SubmissionScript | src/hooks/useWeb3.tsx:94-112 | two or three actions, all on the transaction envelope, loading first; an error is dispatched exactly when a transport exists and its send failed |
| Web3Hook.SendTransaction | src/hooks/useWeb3.tsx:63-113 | with no account it throws `No account` before any dispatch; an error thrown by the ethers helpers while the parameters are built escapes before any dispatch; otherwise it submits `TxParamsFor` on the active transport and dispatches `SubmissionScript`; after a dispatch it throws exactly when a provider send failed, and then the wallet's message |
| Web3Hook.SubmissionStartsWithLoading | src/hooks/useWeb3.tsx:94-112 | loading is dispatched first, and the script ends in success unless a provider send failed |
| Web3Hook.InjectedFailureEndsInError | src/hooks/useWeb3.tsx:102-112 | a failed provider send dispatches no success and leaves the transaction in error with the wallet's message |
| Web3Hook.WalletConnectFailureEndsInSuccess | src/hooks/useWeb3.tsx:96-112 | a failed connector send ends with the transaction in success and no hash |
| Web3Hook.SentEndsInSuccessWithHash | src/hooks/useWeb3.tsx:94-112 | a successful send, on either transport, leaves the transaction in success with the returned hash |
| Web3Method.SelectedProvider | src/components/methods/Web3/index.tsx:14-17 | the first aggregated provider whose property named by the method's value is set; none when no such provider exists |
| Web3Method.ChooseProvider | src/components/methods/Web3/index.tsx:19-31 | no provider exactly when `window.ethereum` lacks the flag and no aggregated provider has it; a selected provider is preferred over `window.ethereum`; without a selected provider the choice is `window.ethereum` itself |
| Web3Method.DownloadMessage | src/components/methods/Web3/index.tsx:24 | no contract of its own; `NoProviderStops` states that it is the form error set when no provider is found |
| Web3Method.ConnectScript | src/components/methods/Web3/index.tsx:13-70 | the listener goes to the chosen provider; without one, exactly `SET_ACCOUNT_ERROR('No provider found.')` and the download message; with one, loading first and at most one more action; only account actions; `eth_requestAccounts` is made exactly when `eth_accounts` returned no usable account; a form error with a provider is one of the two rejection messages, dispatched as the account error |
| Web3Method.AccountsChangedAction | src/components/methods/Web3/index.tsx:35-41 | success with the first account when it is non-empty, idle otherwise |
| Web3Method.HasAccount | src/components/methods/Web3/index.tsx:36-51 | no contract of its own; `AccountsChangedAction`, `ConnectScript` and `AuthorizationRequestConnects` state that only a non-empty first account connects |
| Web3Method.WalletConnection.Connect | src/components/methods/Web3/index.tsx:13-70 | performs the connection script step by step, with the same outcome as `ConnectScript`; it adds one listener exactly when a provider was found |
| Web3Method.WalletConnection.OnMessage | src/components/methods/Web3/index.tsx:75-79 | only a `web3_connect` message connects again, with one more listener; any other message changes nothing |
| Web3Method.WalletConnection.AccountsChanged | src/components/methods/Web3/index.tsx:35-41 | an account change from a provider dispatches the handler's action once per listener registered on it |
| Web3Method.ReconnectThenSwitchAccount | src/components/methods/Web3/index.tsx:72-86 | two connections to the same provider make one account change dispatch the action twice |
| Web3Method.TwoListenersDispatchTwice | src/components/methods/Web3/index.tsx:35-41 | two listeners on one provider count as two, and make two copies of its action |
| Web3Method.NoProviderStops | src/components/methods/Web3/index.tsx:19-27 | without a provider: exactly `SET_ACCOUNT_ERROR('No provider found.')`, the form error `Please download the <name> extension.`, no listener, no request |
| Web3Method.ProviderFoundStartsLoading | src/components/methods/Web3/index.tsx:33-50 | with a provider: the listener is registered and loading is dispatched first; an authorized account gives exactly loading then success, with no request; the request is made exactly when `eth_accounts` gave no account |
| Web3Method.OnlyRejectionsSurface | src/components/methods/Web3/index.tsx:49-67 | a form error appears exactly for the two rejection messages, together with `SET_ACCOUNT_ERROR` of that message; any other failure, an empty grant or a throwing `eth_accounts` leaves only the loading action |
| Web3Method.AuthorizationRequestConnects | src/hooks/tests/useWeb3.test.tsx:37-56 | for every `eth_accounts` reply without a usable account and every grant whose first account is non-empty: exactly loading then success with that account; the label reads `Connecting...` and then `Confirm Payment` |
| Web3Method.ConnectOnlyTouchesAccount | src/components/methods/Web3/index.tsx:43-67 | a connection changes nothing in the store but the account, which stays loading exactly when nothing followed the loading action |
| Web3Method.RunAccountActions | src/providers/Store/index.tsx:260-291 | a run of account actions changes only the account, which ends as the last action sets it |
| Web3Method.CtaLabel | src/components/methods/Web3/index.tsx:88-98 | `Connecting...` while loading, `Connect Wallet` on error or idle, `Confirm Payment` on success |
| Web3Method.CallToAction | src/components/methods/Web3/index.tsx:88-98 | the `let` and the `switch` compute that label |
| Web3Method.ButtonDisabled | src/components/methods/Web3/index.tsx:103-109 | no contract of its own; `LabelAgreesWithButton` and `ConnectOutcomeOnButton` state when the button is disabled |
| Web3Method.ButtonLoading | src/components/methods/Web3/index.tsx:111-114 | no contract of its own; `LabelAgreesWithButton` states that the button spins while connecting |
| Web3Method.LabelAgreesWithButton | src/components/methods/Web3/index.tsx:88-114 | while connecting the button is disabled and loading; once connected it is disabled exactly by the prop or a zero amount; idle, or after an error other than a missing provider, only the prop disables it |
| Web3Method.ConnectOutcomeOnButton | src/components/methods/Web3/index.tsx:103-109 | after a missing provider the button stays disabled whatever its props; after a rejection it reads `Connect Wallet` and only the prop disables it |
| SwitchChainStep.GuardActions | src/steps/SwitchChain/index.tsx:24-27 | with no method it dispatches exactly `SET_STEP PaymentMethod`; with one, nothing |
| SwitchChainStep.GuardReturnsToMethodChoice | src/steps/SwitchChain/index.tsx:24-27 | the guard only moves the step, to the payment method's position in the phase list (2 in the default list) |
| SwitchChainStep.PaymentMethodIsThirdDefaultPhase | src/providers/Store/index.tsx:155-161 | the payment-method phase is at position 2 of the default phase list |
| SwitchChainStep.ChainIsMissing | src/steps/SwitchChain/index.tsx:34 | no contract of its own; `ChainMissingAnywhere` states that any message containing the text qualifies and an error without a message does not |
| SwitchChainStep.AddChainAttempts | src/steps/SwitchChain/index.tsx:34-36 | no contract of its own; `HandleSwitch` counts its calls with it, and `MissingChainFallsBackToAddChain` and `OtherErrorsShowTheirMessage` state its value |
| SwitchChainStep.FormErrorAfter | src/steps/SwitchChain/index.tsx:29-46 | no contract of its own; `HandleSwitch` ends with it, and `SwitchSuccessSetsNoError`, `MissingChainFallsBackToAddChain`, `OtherErrorsShowTheirMessage` and `FormErrorComesFromLastFailure` state it |
| SwitchChainStep.SwitchChainView.HandleSwitch | src/steps/SwitchChain/index.tsx:29-46 | `loading` is set true, then false on every path; one switch request; `addChain` is called once exactly for a chain-missing error; the form error follows `FormErrorAfter`; nothing is dispatched |
| SwitchChainStep.SwitchSuccessSetsNoError | src/steps/SwitchChain/index.tsx:29-33 | a successful switch sets no form error and never calls `addChain` |
| SwitchChainStep.MissingChainFallsBackToAddChain | src/steps/SwitchChain/index.tsx:34-42 | a chain-missing error gives one `addChain` attempt; on success no error is set, on failure `addChain`'s message replaces the original |
| SwitchChainStep.OtherErrorsShowTheirMessage | src/steps/SwitchChain/index.tsx:34-42 | any other error sets its own message and does not call `addChain` |
| SwitchChainStep.FormErrorComesFromLastFailure | src/steps/SwitchChain/index.tsx:33-42 | the form error changes only to the message of the last call that failed |
| SwitchChainStep.ChainMissingAnywhere | src/steps/SwitchChain/index.tsx:34 | every message containing `Unrecognized chain ID`, wherever it occurs, takes the fallback; an error without a message does not |
| AppRouting.SlugPieces | src/App.tsx:14 | no slug gives two undefined pieces; otherwise the first `split` piece, and the second when there is one |
| AppRouting.ChooseWrapper | src/App.tsx:26-35 | without a slug the plain store boots; a wrapper that looks up an asset needs a `:` in the slug; the asset-only wrapper boots exactly for slugs starting with `:` among those, and both pieces for slugs that do not |
| AppRouting.NetworkIsPrefixBeforeFirstColon | src/App.tsx:14 | the network piece is the slug up to its first `:`, or all of it |
| AppRouting.FirstTwoPiecesChoose | src/App.tsx:14 | `network:asset` and `network:asset:rest` both give the pieces `network` and `asset` |
| AppRouting.NoSlugBootsPlainStore | src/App.tsx:26-35 | without a slug the plain store boots |
| AppRouting.SlugWithoutAssetBootsPlainStore | src/App.tsx:26-35 | a slug without `:` has no asset piece and boots the plain store |
| AppRouting.WrapperFollowsPieces | src/App.tsx:26-35 | for `network:asset`, and for `network:asset:rest` whatever `rest` is: non-empty network and asset boot with both; an empty network boots with the asset alone; an empty asset boots the plain store |
| AddressAndNetworkBoot.NetworkMatches | src/App.withAddressAndNetwork.tsx:27-29 | no contract of its own; `NullNetworkEntryFailsUndefinedCode` states how a `null` entry compares with an undefined code |
| AddressAndNetworkBoot.AssetMatches | src/App.withAddressAndNetwork.tsx:30-34 | no contract of its own; `StoreGetsFirstMatches` states that a booted asset has the configured address and network code |
| AddressAndNetworkBoot.FindNetwork | src/App.withAddressAndNetwork.tsx:27-29 | a match exactly when some entry's network code strictly equals the configured one; the result is the first such entry |
| AddressAndNetworkBoot.FindAsset | src/App.withAddressAndNetwork.tsx:30-34 | a match exactly when some entry's address and network code both strictly equal the configured ones; the result is the first such entry |
| AddressAndNetworkBoot.StoreProps | src/App.withAddressAndNetwork.tsx:47-48 | no contract of its own; `StoreGetsFirstMatches` states the props the store receives |
| AddressAndNetworkBoot.Boot | src/App.withAddressAndNetwork.tsx:25-51 | the loading view exactly while a query loads; a store view only without query errors, with a matching network and a matching asset taken from the lists |
| AddressAndNetworkBoot.LoadingComesFirst | src/App.withAddressAndNetwork.tsx:25 | while either query loads, the loading view is shown whatever the errors |
| AddressAndNetworkBoot.ErrorViewExactly | src/App.withAddressAndNetwork.tsx:36-46 | once loaded, the error view appears exactly when a query failed or a lookup found no object |
| AddressAndNetworkBoot.StoreGetsFirstMatches | src/App.withAddressAndNetwork.tsx:27-51 | the store receives the first matching network and the first matching asset, with the configuration's colors, fiat and theme |
| AddressAndNetworkBoot.NullNetworkEntryFailsUndefinedCode | src/App.withAddressAndNetwork.tsx:27-36 | with no configured network code, a `null` first network entry is what `find` returns, and the boot fails |
| AddressAndNetworkBoot.BootStartsAtPaymentMethod | src/App.withAddressAndNetwork.tsx:47-51 | a booted store starts at the payment-method phase |

## Left out

- JSX, styling and the modal chrome. The rendering branches of the QR-code and result steps are left out too; their only store logic is dispatches of actions already in `Store`.
- The ethers helpers (`parseEther`, `parseUnits`, `hexlify`, ABI encoding) and `toHex` are uninterpreted terms. Their decimal parsing and hex formatting are not modelled.
- The wallet RPC transports, the WalletConnect client and the GraphQL queries are not modelled: their results are inputs.
- `getChainID` in src/hooks/useWeb3.tsx is a pass-through to the transports and is not modelled.
- React's hook and effect lifecycle, and interleaving between overlapping asynchronous requests, are not modelled. Each flow is one sequential script.
- The removal of the window `message` listener on unmount is not modelled. Neither is the fact that `connect` keeps reading the payment method of its first render. `Connect` takes the method as a parameter.
- The `tx` field of the prebuilt transaction is omitted (it is opaque). Provider, connector and balance payloads are opaque handles or integers.
- Web3Hook.DiscoverProviders: the keys of an aggregated `providers` array are kept as indices, not as the strings `"0"`, `"1"`, ….
- Web3Hook.SendTransaction: the memo's `length` counts UTF-16 code units, while the model counts characters, so a memo with characters outside the Basic Multilingual Plane gets less extra gas here than in the source. Which inputs make the ethers helpers throw is not modelled; that error is an input.
- Web3Hook.ExtraGas: counts characters, not UTF-16 code units, for the same reason.
- Web3Method.ButtonDisabled: the amount is a number. `Number(amount)` of text that is not a number (NaN) is not modelled.
- Web3Method.ChooseProvider: the `eth.provider` check in src/components/methods/Web3/index.tsx:33 is taken to hold. An ethers `Web3Provider` built from a provider object always has one.
- Web3Method.ConnectScript: a throwing `eth_accounts` is recorded as an error that escapes `connect` (an unhandled rejection). What the host page then does with it is not modelled.
- AddressAndNetworkBoot.Boot: the retry callback of the error view (both queries are refetched) is not modelled.
