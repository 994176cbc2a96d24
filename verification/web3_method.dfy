/** The injected-wallet payment method component: `connect` (provider
    selection, the account script driven by `eth_accounts` and
    `eth_requestAccounts`, and the `accountsChanged` listener it registers),
    the button label, and the button's `disabled` and `loading` props.

    The wallet's answers are inputs: `RpcReply` says what each request
    returned or threw. The listeners a component instance has registered are
    the state of a `WalletConnection` object. */
module Web3Method {
  import opened Prelude
  import opened Store
  import opened Web3Hook
  import Catalog

  const NoProviderFound := "No provider found."
  const UserRejected := "User rejected the request."
  const UserDenied := "User denied account authorization"

  // ---------------------------------------------------------------------------
  // Provider selection

  /** `window.ethereum.providers.find(x => x[value])`, as an index. */
  function SelectedProvider(ethereum: Option<Ethereum>, value: string): (r: Option<nat>)
    ensures r.Some? ==>
              ethereum.Some? && ethereum.value.providers.Some? &&
              r.value < |ethereum.value.providers.value| &&
              value in ethereum.value.providers.value[r.value].flags &&
              forall i :: 0 <= i < r.value ==> value !in ethereum.value.providers.value[i].flags
    ensures r.None? && ethereum.Some? && ethereum.value.providers.Some? ==>
              forall i :: 0 <= i < |ethereum.value.providers.value| ==>
                value !in ethereum.value.providers.value[i].flags
  {
    if ethereum.None? || ethereum.value.providers.None? then None
    else
      var k := FindIndex(ethereum.value.providers.value, (x: InjectedProvider) => value in x.flags);
      if k < 0 then None else Some(k)
  }

  /** The provider object a connection uses. */
  datatype ProviderChoice = Entry(index: nat) | Root

  /** The guard and `selectedProvider || window.ethereum`: no provider when
      `window.ethereum` lacks the flag and no aggregated provider has it;
      otherwise the aggregated one, which is preferred, or `window.ethereum`. */
  function ChooseProvider(ethereum: Option<Ethereum>, value: string): (r: Option<ProviderChoice>)
    ensures r.None? <==>
              (ethereum.None? || value !in ethereum.value.flags) && SelectedProvider(ethereum, value).None?
    ensures SelectedProvider(ethereum, value).Some? ==> r == Some(Entry(SelectedProvider(ethereum, value).value))
    ensures r == Some(Root) ==> ethereum.Some? && value in ethereum.value.flags
    ensures SelectedProvider(ethereum, value).None? && r.Some? ==> r == Some(Root)
  {
    match SelectedProvider(ethereum, value)
    case Some(i) => Some(Entry(i))
    case None => if ethereum.Some? && value in ethereum.value.flags then Some(Root) else None
  }

  // ---------------------------------------------------------------------------
  // The connection script

  /** What a wallet request returned (`accounts`) or the message it threw. */
  datatype RpcReply = Accounts(list: seq<string>) | Threw(message: string)

  /** `accounts && accounts[0]`: a first account that is a non-empty string. */
  predicate HasAccount(accounts: seq<string>) {
    |accounts| > 0 && accounts[0] != ""
  }

  /** The outcome of one `connect` call: the actions dispatched in order, the
      form error set, the error logged to the console, the error that escapes
      `connect` as a rejected promise, whether authorization was requested,
      and the provider the new `accountsChanged` listener was attached to. */
  datatype ConnectOutcome = ConnectOutcome(
    dispatched: seq<Action>,
    formError: Option<string>,
    logged: Option<string>,
    unhandled: Option<string>,
    requested: bool,
    listener: Option<ProviderChoice>)

  /** The message `connect` shows when no provider offers the method. */
  function DownloadMessage(name: string): string {
    "Please download the " + name + " extension."
  }

  /** One `connect` call for the method `m`, given the wallet's replies to
      `eth_accounts` and `eth_requestAccounts` (the latter read only when
      the request is made). */
  function ConnectScript(ethereum: Option<Ethereum>, m: Catalog.PaymentMethod,
                         accountsReply: RpcReply, requestReply: RpcReply): (r: ConnectOutcome)
    requires Truthy(m.value)
    ensures r.listener == ChooseProvider(ethereum, m.value.value)
    ensures r.listener.None? ==>
              r.dispatched == [SetAccountError(NoProviderFound)] && r.formError == Some(DownloadMessage(m.name))
    ensures r.listener.Some? ==> 1 <= |r.dispatched| <= 2 && r.dispatched[0] == SetAccountLoading
    ensures forall i :: 0 <= i < |r.dispatched| ==> AccountAction(r.dispatched[i])
    ensures r.requested <==> r.listener.Some? && accountsReply.Accounts? && !HasAccount(accountsReply.list)
    ensures r.formError.Some? && r.listener.Some? ==>
              (r.formError.value == UserRejected || r.formError.value == UserDenied) &&
              r.dispatched == [SetAccountLoading, SetAccountError(r.formError.value)]
  {
    match ChooseProvider(ethereum, m.value.value)
    case None => ConnectOutcome([SetAccountError(NoProviderFound)], Some(DownloadMessage(m.name)), None, None, false, None)
    case Some(choice) =>
      match accountsReply
      case Threw(e) => ConnectOutcome([SetAccountLoading], None, None, Some(e), false, Some(choice))
      case Accounts(xs) =>
        if HasAccount(xs) then
          ConnectOutcome([SetAccountLoading, SetAccountSuccess(xs[0])], None, None, None, false, Some(choice))
        else
          match requestReply
          case Accounts(ys) =>
            if HasAccount(ys) then
              ConnectOutcome([SetAccountLoading, SetAccountSuccess(ys[0])], None, None, None, true, Some(choice))
            else ConnectOutcome([SetAccountLoading], None, None, None, true, Some(choice))
          case Threw(e) =>
            if e == UserRejected || e == UserDenied then
              ConnectOutcome([SetAccountLoading, SetAccountError(e)], Some(e), None, None, true, Some(choice))
            else ConnectOutcome([SetAccountLoading], None, Some(e), None, true, Some(choice))
  }

  /** The action the `accountsChanged` listener dispatches. */
  function AccountsChangedAction(accounts: seq<string>): (a: Action)
    ensures HasAccount(accounts) ==> a == SetAccountSuccess(accounts[0])
    ensures !HasAccount(accounts) ==> a == SetAccountIdle
  {
    if HasAccount(accounts) then SetAccountSuccess(accounts[0]) else SetAccountIdle
  }

  /** How many of `listeners` are attached to `source`. */
  function ListenersOn(listeners: seq<ProviderChoice>, source: ProviderChoice): (n: nat)
    ensures n <= |listeners|
  {
    if |listeners| == 0 then 0
    else ListenersOn(listeners[..|listeners| - 1], source) + (if listeners[|listeners| - 1] == source then 1 else 0)
  }

  /** The `accountsChanged` listeners one mounted component has registered:
      each `connect` that finds a provider adds one, and none is removed. */
  class WalletConnection {
    var listeners: seq<ProviderChoice>

    constructor ()
      ensures listeners == []
    {
      listeners := [];
    }

    /** `connect()`, run on mount and on every `web3_connect` message. */
    method Connect(ethereum: Option<Ethereum>, m: Catalog.PaymentMethod,
                   accountsReply: RpcReply, requestReply: RpcReply) returns (outcome: ConnectOutcome)
      requires Truthy(m.value)
      modifies this
      ensures outcome == ConnectScript(ethereum, m, accountsReply, requestReply)
      ensures outcome.listener == ChooseProvider(ethereum, m.value.value)
      ensures listeners == old(listeners) + (if outcome.listener.Some? then [outcome.listener.value] else [])
    {
      var value := m.value.value;
      var choice := ChooseProvider(ethereum, value);
      if choice.None? {
        return ConnectOutcome([SetAccountError(NoProviderFound)], Some(DownloadMessage(m.name)), None, None, false, None);
      }
      listeners := listeners + [choice.value];
      var dispatched := [SetAccountLoading];
      var formError: Option<string> := None;
      var logged: Option<string> := None;
      var requested := false;
      match accountsReply {
        case Threw(e) =>
          return ConnectOutcome(dispatched, None, None, Some(e), false, choice);
        case Accounts(xs) =>
          if HasAccount(xs) {
            dispatched := dispatched + [SetAccountSuccess(xs[0])];
          } else {
            requested := true;
            match requestReply {
              case Accounts(ys) =>
                if HasAccount(ys) {
                  dispatched := dispatched + [SetAccountSuccess(ys[0])];
                }
              case Threw(e) =>
                if e == UserRejected || e == UserDenied {
                  dispatched := dispatched + [SetAccountError(e)];
                  formError := Some(e);
                } else {
                  logged := Some(e);
                }
            }
          }
      }
      outcome := ConnectOutcome(dispatched, formError, logged, None, requested, choice);
    }

    /** The window `message` handler: only a `web3_connect` message connects
        again. */
    method OnMessage(messageType: Option<string>, ethereum: Option<Ethereum>, m: Catalog.PaymentMethod,
                     accountsReply: RpcReply, requestReply: RpcReply) returns (outcome: Option<ConnectOutcome>)
      requires Truthy(m.value)
      modifies this
      ensures messageType != Some("web3_connect") ==> outcome.None? && listeners == old(listeners)
      ensures messageType == Some("web3_connect") ==>
                outcome == Some(ConnectScript(ethereum, m, accountsReply, requestReply)) &&
                listeners == old(listeners) +
                  (if outcome.value.listener.Some? then [outcome.value.listener.value] else [])
    {
      outcome := None;
      if messageType == Some("web3_connect") {
        var o := Connect(ethereum, m, accountsReply, requestReply);
        outcome := Some(o);
      }
    }

    /** An `accountsChanged` event from `source`: every listener registered
        on it runs, so the same action is dispatched once per listener. */
    method AccountsChanged(source: ProviderChoice, accounts: seq<string>) returns (dispatched: seq<Action>)
      ensures dispatched == Repeat(AccountsChangedAction(accounts), ListenersOn(listeners, source))
    {
      var a := AccountsChangedAction(accounts);
      dispatched := [];
      var i := 0;
      while i < |listeners|
        invariant 0 <= i <= |listeners|
        invariant dispatched == Repeat(a, ListenersOn(listeners[..i], source))
      {
        assert listeners[..i + 1][..i] == listeners[..i];
        if listeners[i] == source {
          RepeatSnoc(a, ListenersOn(listeners[..i], source));
          dispatched := dispatched + [a];
        }
        i := i + 1;
      }
      assert listeners[..|listeners|] == listeners;
    }
  }

  /** One more copy of an action at the end. */
  lemma RepeatSnoc(a: Action, k: nat)
    ensures Repeat(a, k) + [a] == Repeat(a, k + 1)
  {
    var l, r := Repeat(a, k) + [a], Repeat(a, k + 1);
    assert |l| == |r|;
    forall i | 0 <= i < |l| ensures l[i] == r[i] {
    }
  }

  /** Connecting twice to the same provider and then switching accounts in
      the wallet dispatches the listener's action twice. */
  method ReconnectThenSwitchAccount(ethereum: Ethereum, m: Catalog.PaymentMethod,
                                   accountsReply: RpcReply, requestReply: RpcReply, accounts: seq<string>)
    returns (dispatched: seq<Action>)
    requires Truthy(m.value) && ChooseProvider(Some(ethereum), m.value.value).Some?
    ensures dispatched == [AccountsChangedAction(accounts), AccountsChangedAction(accounts)]
  {
    var source := ChooseProvider(Some(ethereum), m.value.value).value;
    var connection := new WalletConnection();
    var first := connection.Connect(Some(ethereum), m, accountsReply, requestReply);
    assert first.listener == Some(source);
    assert connection.listeners == [source];
    var second := connection.Connect(Some(ethereum), m, accountsReply, requestReply);
    assert second.listener == Some(source);
    assert connection.listeners == [source, source];
    TwoListenersDispatchTwice(source, AccountsChangedAction(accounts));
    dispatched := connection.AccountsChanged(source, accounts);
  }

  /** Two listeners on one provider make two copies of its action. */
  lemma TwoListenersDispatchTwice(source: ProviderChoice, a: Action)
    ensures ListenersOn([source, source], source) == 2
    ensures Repeat(a, ListenersOn([source, source], source)) == [a, a]
  {
    assert [source, source][..1] == [source];
    assert [source][..0] == [];
    assert Repeat(a, 2) == [a] + Repeat(a, 1);
  }

  // ---------------------------------------------------------------------------
  // Properties of the connection script

  /** Without a provider offering the method, `connect` dispatches only the
      account error, asks the user to install the extension, registers no
      listener and stops. */
  lemma NoProviderStops(ethereum: Option<Ethereum>, m: Catalog.PaymentMethod, r1: RpcReply, r2: RpcReply)
    requires Truthy(m.value) && ChooseProvider(ethereum, m.value.value).None?
    ensures var o := ConnectScript(ethereum, m, r1, r2);
            o.dispatched == [SetAccountError("No provider found.")] &&
            o.formError == Some("Please download the " + m.name + " extension.") &&
            o.listener.None? && !o.requested
  {
  }

  /** With a provider, the listener is registered and loading is dispatched
      first; already authorized accounts succeed without a request. */
  lemma ProviderFoundStartsLoading(ethereum: Option<Ethereum>, m: Catalog.PaymentMethod, r1: RpcReply, r2: RpcReply)
    requires Truthy(m.value) && ChooseProvider(ethereum, m.value.value).Some?
    ensures var o := ConnectScript(ethereum, m, r1, r2);
            o.listener == ChooseProvider(ethereum, m.value.value) &&
            |o.dispatched| >= 1 && o.dispatched[0] == SetAccountLoading &&
            (r1.Accounts? && HasAccount(r1.list) ==>
               o.dispatched == [SetAccountLoading, SetAccountSuccess(r1.list[0])] && !o.requested) &&
            (o.requested <==> r1.Accounts? && !HasAccount(r1.list))
  {
  }

  /** Only the two rejection messages reach the store and the form; any
      other failure, and an empty authorization result, leave nothing after
      the loading action. */
  lemma OnlyRejectionsSurface(ethereum: Option<Ethereum>, m: Catalog.PaymentMethod, r1: RpcReply, r2: RpcReply)
    requires Truthy(m.value) && ChooseProvider(ethereum, m.value.value).Some?
    ensures var o := ConnectScript(ethereum, m, r1, r2);
            (o.formError.Some? <==> o.requested && r2.Threw? && (r2.message == UserRejected || r2.message == UserDenied)) &&
            (o.formError.Some? ==> o.dispatched == [SetAccountLoading, SetAccountError(o.formError.value)]) &&
            (o.dispatched == [SetAccountLoading] <==>
               r1.Threw? || (o.requested && ((r2.Accounts? && !HasAccount(r2.list)) ||
                                             (r2.Threw? && r2.message != UserRejected && r2.message != UserDenied))))
  {
  }

  /** A wallet with no usable authorized account that grants one on request
      dispatches loading then success with the first granted account, and
      ends connected to it after showing the connecting label. */
  lemma AuthorizationRequestConnects(p: Props, st: State, ethereum: Option<Ethereum>, m: Catalog.PaymentMethod,
                                     xs: seq<string>, ys: seq<string>)
    requires Truthy(m.value) && ChooseProvider(ethereum, m.value.value).Some?
    requires !HasAccount(xs) && HasAccount(ys)
    ensures var o := ConnectScript(ethereum, m, Accounts(xs), Accounts(ys));
            o.requested && o.formError.None? &&
            o.dispatched == [SetAccountLoading, SetAccountSuccess(ys[0])] &&
            CtaLabel(Run(p, st, o.dispatched[..1]).account.status) == "Connecting..." &&
            Run(p, st, o.dispatched).account == AccountEnvelope(Some(ys[0]), Success) &&
            CtaLabel(Run(p, st, o.dispatched).account.status) == "Confirm Payment"
  {
    var o := ConnectScript(ethereum, m, Accounts(xs), Accounts(ys));
    RunAccountActions(p, st, o.dispatched[..1]);
    RunAccountActions(p, st, o.dispatched);
  }

  /** Every action `connect` dispatches is an account action, so a
      connection changes nothing in the store but the account envelope; the
      script leaves the account loading exactly when it dispatched nothing
      after the loading action. */
  lemma ConnectOnlyTouchesAccount(p: Props, st: State, ethereum: Option<Ethereum>, m: Catalog.PaymentMethod,
                                  r1: RpcReply, r2: RpcReply)
    requires Truthy(m.value)
    ensures var o := ConnectScript(ethereum, m, r1, r2);
            var t := Run(p, st, o.dispatched);
            SameExcept(st, t, Some(AccountField)) &&
            (t.account.status == Loading <==> o.dispatched == [SetAccountLoading])
  {
    var o := ConnectScript(ethereum, m, r1, r2);
    RunAccountActions(p, st, o.dispatched);
    var n := |o.dispatched| - 1;
    if o.dispatched[n] != SetAccountLoading {
      assert o.dispatched[n].SetAccountSuccess? || o.dispatched[n].SetAccountError?;
    }
  }

  /** Dispatching only account actions changes only the account, which ends as
      the last action sets it. */
  lemma {:induction false} RunAccountActions(p: Props, s: State, xs: seq<Action>)
    requires forall i :: 0 <= i < |xs| ==> AccountAction(xs[i])
    ensures SameExcept(s, Run(p, s, xs), Some(AccountField))
    ensures |xs| > 0 ==> Run(p, s, xs).account == AccountAfter(xs[|xs| - 1])
    decreases |xs|
  {
    if |xs| > 0 {
      var t := Reduce(p, s, xs[0]);
      assert t == s.(account := AccountAfter(xs[0]));
      RunAccountActions(p, t, xs[1..]);
      if |xs| > 1 {
        assert xs[1..][|xs[1..]| - 1] == xs[|xs| - 1];
      }
    }
  }

  // ---------------------------------------------------------------------------
  // The button

  /** The label the `cta` switch leaves. */
  function CtaLabel(status: Status): (text: string)
    ensures status == Loading ==> text == "Connecting..."
    ensures status == Error || status == Idle ==> text == "Connect Wallet"
    ensures status == Success ==> text == "Confirm Payment"
  {
    match status
    case Loading => "Connecting..."
    case Error => "Connect Wallet"
    case Idle => "Connect Wallet"
    case Success => "Confirm Payment"
  }

  /** `let cta = 'Confirm Payment'` followed by the switch on the account
      status. */
  method CallToAction(status: Status) returns (cta: string)
    ensures cta == CtaLabel(status)
  {
    cta := "Confirm Payment";
    match status {
      case Loading => cta := "Connecting...";
      case Error => cta := "Connect Wallet";
      case Idle => cta := "Connect Wallet";
      case Success =>
    }
  }

  /** The button's `disabled` prop; `amount` is the entered number. */
  predicate ButtonDisabled(disabled: bool, account: AccountEnvelope, amount: real) {
    disabled ||
    (account.status == Error && account.data == Some(NoProviderFound)) ||
    (account.status == Success && amount == 0.0) ||
    account.status == Loading
  }

  /** The button's `loading` prop. */
  predicate ButtonLoading(account: AccountEnvelope, depositAddress: DepositEnvelope) {
    account.status == Loading || depositAddress.status == Loading
  }

  /** The label and the button agree: while connecting, the button is
      disabled and spinning; once connected it is enabled unless the prop
      or a zero amount disables it; when idle, or after any account error
      other than the missing provider, the user can press it again. */
  lemma LabelAgreesWithButton(disabled: bool, account: AccountEnvelope, deposit: DepositEnvelope, amount: real)
    ensures CtaLabel(account.status) == "Connecting..." ==>
              ButtonDisabled(disabled, account, amount) && ButtonLoading(account, deposit)
    ensures CtaLabel(account.status) == "Confirm Payment" ==>
              (ButtonDisabled(disabled, account, amount) <==> disabled || amount == 0.0)
    ensures account.status == Idle ||
            (account.status == Error && account.data != Some(NoProviderFound)) ==>
              CtaLabel(account.status) == "Connect Wallet" &&
              (ButtonDisabled(disabled, account, amount) <==> disabled)
  {
  }

  /** After `connect` finds no provider, the button stays disabled whatever
      its props; after a rejected authorization it reads `Connect Wallet`
      and is enabled again unless the prop disables it. */
  lemma ConnectOutcomeOnButton(p: Props, st: State, ethereum: Option<Ethereum>, m: Catalog.PaymentMethod,
                               r1: RpcReply, r2: RpcReply, disabled: bool, amount: real)
    requires Truthy(m.value)
    ensures var o := ConnectScript(ethereum, m, r1, r2);
            var t := Run(p, st, o.dispatched);
            (ChooseProvider(ethereum, m.value.value).None? ==> ButtonDisabled(disabled, t.account, amount)) &&
            (o.formError.Some? && o.listener.Some? ==>
               CtaLabel(t.account.status) == "Connect Wallet" &&
               (ButtonDisabled(disabled, t.account, amount) <==> disabled))
  {
    var o := ConnectScript(ethereum, m, r1, r2);
    RunAccountActions(p, st, o.dispatched);
    if o.formError.Some? && o.listener.Some? {
      assert o.dispatched[|o.dispatched| - 1] == SetAccountError(o.formError.value);
      assert o.formError.value != NoProviderFound;
    }
  }
}
