/** The `useWeb3` hook: discovery of the injected wallets, the routing of a
    chain-switch request, and `sendTransaction`, which builds the transfer
    parameters and dispatches the transaction's status actions.

    The ethers helpers are kept uninterpreted: `parseEther(amount)`, the
    ABI encoding of `transfer(to, parseUnits(amount, decimals))` and
    `toHex(chainId)` appear as constructor terms that name the call, and the
    gas limit is the integer handed to `hexlify`. */
module Web3Hook {
  import opened Prelude
  import opened Store
  import Catalog

  // ---------------------------------------------------------------------------
  // The host page's `window.ethereum`

  /** An injected provider object, described by the names of its truthy
      properties (`isMetaMask`, `isCoinbaseWallet`, ...). */
  datatype InjectedProvider = InjectedProvider(flags: set<string>)

  /** `window.ethereum`: its own truthy properties, and the `providers` array
      some hosts add when several wallets are installed. */
  datatype Ethereum = Ethereum(flags: set<string>, providers: Option<seq<InjectedProvider>>)

  /** The keys `Object.keys` yields: array indices for the `providers` array,
      names otherwise. */
  datatype ProviderKey = Index(i: nat) | Named(name: string)

  /** The `reduce` callback applied over `keys`: each key is set to true in
      the accumulator. */
  function MarkAvailable(keys: seq<ProviderKey>, acc: map<ProviderKey, bool>): (r: map<ProviderKey, bool>)
    ensures r.Keys == acc.Keys + set k | k in keys
    ensures forall k :: k in keys ==> r[k]
    ensures forall k :: k in acc && k !in keys ==> r[k] == acc[k]
    decreases |keys|
  {
    if |keys| == 0 then acc
    else
      var r := MarkAvailable(keys[1..], acc[keys[0] := true]);
      assert forall k :: k in keys ==> k == keys[0] || k in keys[1..];
      r
  }

  /** `Object.keys` of an array of `n` entries. */
  function IndexKeys(n: nat): (keys: seq<ProviderKey>)
    ensures |keys| == n && forall i :: 0 <= i < n ==> keys[i] == Index(i)
  {
    if n == 0 then [] else IndexKeys(n - 1) + [Index(n - 1)]
  }

  /** The availability map computed once on mount. An aggregator array, even
      an empty one, wins; then the MetaMask flag; then the Coinbase flag;
      otherwise nothing is available. Every listed wallet maps to true. */
  function DiscoverProviders(ethereum: Option<Ethereum>): (r: map<ProviderKey, bool>)
    ensures forall k :: k in r ==> r[k]
    ensures ethereum.Some? && ethereum.value.providers.Some? ==>
              r.Keys == set i | 0 <= i < |ethereum.value.providers.value| :: Index(i)
    ensures ethereum.Some? && ethereum.value.providers.None? && "isMetaMask" in ethereum.value.flags ==>
              r.Keys == {Named("MetaMask")}
    ensures ethereum.Some? && ethereum.value.providers.None? && "isMetaMask" !in ethereum.value.flags &&
            "isCoinbaseWallet" in ethereum.value.flags ==>
              r.Keys == {Named("CoinbaseWallet")}
    ensures ethereum.None? ||
            (ethereum.value.providers.None? && "isMetaMask" !in ethereum.value.flags &&
             "isCoinbaseWallet" !in ethereum.value.flags) ==>
              r == map[]
  {
    if ethereum.Some? && ethereum.value.providers.Some? then
      var keys := IndexKeys(|ethereum.value.providers.value|);
      var r := MarkAvailable(keys, map[]);
      assert forall k :: k in keys <==> exists i :: 0 <= i < |keys| && k == Index(i);
      r
    else if ethereum.Some? && "isMetaMask" in ethereum.value.flags then map[Named("MetaMask") := true]
    else if ethereum.Some? && "isCoinbaseWallet" in ethereum.value.flags then map[Named("CoinbaseWallet") := true]
    else map[]
  }

  // ---------------------------------------------------------------------------
  // Transports

  /** The selected payment method is the pairing-session wallet. */
  predicate IsWalletConnect(s: State) {
    s.paymentMethod.Some? && s.paymentMethod.value.value == Some("isWalletConnect")
  }

  /** `state.connector?.data` and `state.provider?.data`. */
  function ConnectorClient(s: State): Option<ConnectorHandle> {
    if s.connector.Some? then s.connector.value.data else None
  }
  function ProviderClient(s: State): Option<ProviderHandle> {
    if s.provider.Some? then s.provider.value.data else None
  }

  datatype Transport = ViaConnector(connector: ConnectorHandle) | ViaProvider(provider: ProviderHandle)

  /** The object a request goes to: the connector for the pairing-session
      wallet, the provider otherwise; none when that object is absent, in
      which case the optional chain makes the call a no-op. */
  function ActiveTransport(s: State): (r: Option<Transport>)
    ensures r.Some? ==> (r.value.ViaConnector? <==> IsWalletConnect(s))
    ensures IsWalletConnect(s) ==> (r.Some? <==> ConnectorClient(s).Some?)
    ensures !IsWalletConnect(s) ==> (r.Some? <==> ProviderClient(s).Some?)
    ensures r.Some? && r.value.ViaConnector? ==> ConnectorClient(s) == Some(r.value.connector)
    ensures r.Some? && r.value.ViaProvider? ==> ProviderClient(s) == Some(r.value.provider)
  {
    if IsWalletConnect(s) then
      (match ConnectorClient(s) case Some(c) => Some(ViaConnector(c)) case None => None)
    else
      (match ProviderClient(s) case Some(h) => Some(ViaProvider(h)) case None => None)
  }

  // ---------------------------------------------------------------------------
  // switchChain

  /** The text `toHex(n)`. */
  datatype HexText = ToHex(n: int)

  /** A `wallet_switchEthereumChain` request: a JSON-RPC custom request
      through the connector, or `send` on the provider. */
  datatype SwitchRequest =
    | CustomRequest(connector: ConnectorHandle, jsonrpc: string, rpcMethod: string, chainIdHex: HexText)
    | ProviderSend(provider: ProviderHandle, rpcMethod: string, chainIdHex: HexText)

  /** The request `switchChain(chainId)` makes, if any. */
  function SwitchChainRequest(s: State, chainId: int): (r: Option<SwitchRequest>)
    ensures r.Some? <==> ActiveTransport(s).Some?
    ensures r.Some? ==> r.value.rpcMethod == "wallet_switchEthereumChain" && r.value.chainIdHex == ToHex(chainId)
    ensures r.Some? ==> (r.value.CustomRequest? <==> IsWalletConnect(s))
    ensures r.Some? && r.value.CustomRequest? ==>
              r.value.jsonrpc == "2.0" && ActiveTransport(s) == Some(ViaConnector(r.value.connector))
    ensures r.Some? && r.value.ProviderSend? ==> ActiveTransport(s) == Some(ViaProvider(r.value.provider))
  {
    match ActiveTransport(s)
    case None => None
    case Some(ViaConnector(c)) => Some(CustomRequest(c, "2.0", "wallet_switchEthereumChain", ToHex(chainId)))
    case Some(ViaProvider(h)) => Some(ProviderSend(h, "wallet_switchEthereumChain", ToHex(chainId)))
  }

  // ---------------------------------------------------------------------------
  // Transaction parameters

  /** `value`: the hex text of `parseEther(amount)`, or the literal `'0x0'`. */
  datatype TxValue = EtherHex(amount: string) | ZeroHex

  /** `data`: a literal hex string, or the ABI encoding of
      `transfer(recipient, parseUnits(amount, decimals))` followed by the
      string `tail`. The encoding always starts with `0x` and a selector, so
      the `|| ''` fallback after it never applies. */
  datatype CallData =
    | Text(text: string)
    | EncodedTransfer(recipient: string, amount: string, decimals: Option<int>, tail: string)

  /** `to` is optional because the token path reads `state.asset?.address`. */
  datatype TxParams = TxParams(data: CallData, from: string, gas: int, to: Option<string>, value: TxValue)

  /** `memo ? (memo.length / 2) * 16 : 0`, computed as the source does, in
      floating point; for every length it is exactly 8 gas per memo
      character, 16 per byte of a hex memo. */
  function ExtraGas(memo: Option<string>): (g: int)
    ensures g == if Truthy(memo) then 8 * |memo.value| else 0
  {
    if Truthy(memo) then ((|memo.value| as real / 2.0) * 16.0).Floor else 0
  }

  /** `memo?.replace('0x', '')` as the operand of `+`: the text `undefined`
      when there is no memo, otherwise the memo without its first `0x`,
      wherever that occurs. */
  function MemoTail(memo: Option<string>): (tail: string)
    ensures memo.None? ==> tail == "undefined"
    ensures memo.Some? && !Includes(memo.value, "0x") ==> tail == memo.value
    ensures memo.Some? && Includes(memo.value, "0x") ==>
              var i := FirstIndexOf(memo.value, "0x");
              |tail| == |memo.value| - 2 && tail[..i] + "0x" + tail[i..] == memo.value
  {
    match memo
    case None => "undefined"
    case Some(m) =>
      if Includes(m, "0x") then ReplaceFirstRemovesOneOccurrence(m, "0x"); ReplaceFirst(m, "0x", "")
      else ReplaceFirst(m, "0x", "")
  }

  /** `state.asset?.address` and `state.asset?.decimals`. */
  function AssetAddress(s: State): Option<string> {
    if s.asset.Some? then s.asset.value.address else None
  }
  function AssetDecimals(s: State): Option<int> {
    if s.asset.Some? then s.asset.value.decimals else None
  }

  /** The parameters of a native transfer: the memo (or `0x`) as data, the
      recipient as `to`, the parsed amount as value, and 21000 gas plus 8 per
      memo character. */
  function NativeParams(from: string, amount: string, address: string, memo: Option<string>): (t: TxParams)
    ensures t.from == from && t.to == Some(address) && t.value == EtherHex(amount)
    ensures t.data == Text(if Truthy(memo) then memo.value else "0x")
    ensures t.gas == 21000 + (if Truthy(memo) then 8 * |memo.value| else 0)
  {
    TxParams(Text(if Truthy(memo) then memo.value else "0x"), from, 21000 + ExtraGas(memo),
             Some(address), EtherHex(amount))
  }

  /** The parameters `sendTransaction` submits for the account `from`: the
      native ones, or, for a token, the native ones with `data`, `to`,
      `value` and `gas` overwritten. */
  function TxParamsFor(s: State, from: string, amount: string, address: string,
                       memo: Option<string>, isErc20: bool): (t: TxParams)
    ensures t.from == from
    ensures !isErc20 ==> t == NativeParams(from, amount, address, memo)
    ensures isErc20 ==> t.to == AssetAddress(s) && t.value == ZeroHex &&
                        t.gas == NativeParams(from, amount, address, memo).gas + 79000
  {
    var native := NativeParams(from, amount, address, memo);
    if !isErc20 then native
    else native.(data := EncodedTransfer(address, amount, AssetDecimals(s), MemoTail(memo)),
                 to := AssetAddress(s), value := ZeroHex, gas := 100000 + ExtraGas(memo))
  }

  /** A native transfer carries the memo (or `0x`) as data, goes to the
      recipient, sends the parsed amount, and pays 21000 gas plus 8 per
      memo character. */
  lemma NativeTransfer(s: State, from: string, amount: string, address: string, memo: Option<string>)
    ensures var t := TxParamsFor(s, from, amount, address, memo, false);
            t.from == from && t.to == Some(address) && t.value == EtherHex(amount) &&
            t.data == Text(if Truthy(memo) then memo.value else "0x") &&
            t.gas == 21000 + (if Truthy(memo) then 8 * |memo.value| else 0)
  {
  }

  /** A token transfer keeps the sender, goes to the token contract, sends
      `0x0`, encodes `transfer(recipient, amount)` followed by the memo tail,
      and raises the native gas by exactly 79000. */
  lemma TokenTransferOverridesNative(s: State, from: string, amount: string, address: string, memo: Option<string>)
    ensures var native := TxParamsFor(s, from, amount, address, memo, false);
            var token := TxParamsFor(s, from, amount, address, memo, true);
            token.from == native.from && token.to == AssetAddress(s) && token.value == ZeroHex &&
            token.data == EncodedTransfer(address, amount, AssetDecimals(s), MemoTail(memo)) &&
            token.gas == native.gas + 79000
  {
  }

  /** The figures the test suite asserts: gas `0x5208` and data `0x` without a
      memo, gas `0x5238` and the memo as data for the memo `123456`. */
  lemma NativeGasExamples(s: State, from: string, amount: string, address: string)
    ensures TxParamsFor(s, from, amount, address, None, false).gas == 0x5208
    ensures TxParamsFor(s, from, amount, address, None, false).data == Text("0x")
    ensures TxParamsFor(s, from, amount, address, Some("123456"), false).gas == 0x5238
    ensures TxParamsFor(s, from, amount, address, Some("123456"), false).data == Text("123456")
  {
  }

  /** Without a memo a token transfer pays 100000 gas and its data ends in
      the text `undefined`. */
  lemma TokenTransferWithoutMemo(s: State, from: string, amount: string, address: string)
    ensures TxParamsFor(s, from, amount, address, None, true).gas == 0x186A0
    ensures TxParamsFor(s, from, amount, address, None, true).data.tail == "undefined"
  {
  }

  /** A memo `0x..` loses only its prefix, and an empty memo stays empty. */
  lemma MemoTailStripsPrefix()
    ensures MemoTail(Some("0xabcd")) == "abcd"
    ensures MemoTail(Some("")) == ""
  {
    assert OccursAt("0xabcd", "0x", 0);
  }

  /** In a memo without the prefix, a `0x` further inside is removed. */
  lemma MemoTailStripsInnerOccurrence()
    ensures MemoTail(Some("ab0xcd")) == "abcd"
  {
    var m := "ab0xcd";
    assert OccursAt(m, "0x", 2);
    assert !OccursAt(m, "0x", 0) by { assert m[0..2][0] == 'a'; }
    assert !OccursAt(m, "0x", 1) by { assert m[1..3][0] == 'b'; }
    var i := FirstIndexOf(m, "0x");
    assert i == 2;
    assert m[..2] + m[4..] == "abcd";
  }

  // ---------------------------------------------------------------------------
  // sendTransaction

  /** What the wallet does with the transaction: returns its hash, or throws
      an error with a message. */
  datatype SendReply = Sent(hash: string) | Failed(message: string)

  /** A transaction handed to a transport. */
  datatype Submission = Submission(via: Transport, params: TxParams)

  /** The actions `sendTransaction` dispatches once the account check has
      passed. Loading comes first. Without a transport object the optional
      chain yields an undefined hash; a failure on the connector is recorded
      and then overwritten by a success without hash; a failure on the
      provider is recorded and ends the script. */
  function SubmissionScript(s: State, reply: SendReply): (r: seq<Action>)
    ensures 2 <= |r| <= 3 && r[0] == SetTransactionLoading
    ensures forall i :: 0 <= i < |r| ==> TransactionAction(r[i])
    ensures (exists i :: 0 <= i < |r| && r[i].SetTransactionError?) <==>
              ActiveTransport(s).Some? && reply.Failed?
  {
    if ActiveTransport(s).None? then [SetTransactionLoading, SetTransactionSuccess(None)]
    else
      match reply
      case Sent(h) => [SetTransactionLoading, SetTransactionSuccess(Some(h))]
      case Failed(m) =>
        var script := if IsWalletConnect(s) then [SetTransactionLoading, SetTransactionError(m), SetTransactionSuccess(None)]
                      else [SetTransactionLoading, SetTransactionError(m)];
        assert script[1] == SetTransactionError(m);
        script
  }

  /** `sendTransaction(amount, address, memo, isErc20)` from state `s`, with
      the wallet's `reply`: what is submitted and through which transport,
      the actions dispatched in order, and the error thrown to the caller.
      `helperError` is the message of the first error the ethers helpers
      throw while the parameters are built (`parseEther`, and for a token
      transfer `parseUnits` and `encodeFunctionData`), if any. */
  method SendTransaction(s: State, amount: string, address: string, memo: Option<string>,
                         isErc20: bool, helperError: Option<string>, reply: SendReply)
    returns (submitted: Option<Submission>, dispatched: seq<Action>, thrown: Option<string>)
    ensures !Truthy(s.account.data) ==>
              thrown == Some("No account") && dispatched == [] && submitted.None?
    ensures Truthy(s.account.data) && helperError.Some? ==>
              thrown == helperError && dispatched == [] && submitted.None?
    ensures Truthy(s.account.data) && helperError.None? ==>
              dispatched == SubmissionScript(s, reply) &&
              (submitted.Some? <==> ActiveTransport(s).Some?) &&
              (submitted.Some? ==>
                 submitted.value.via == ActiveTransport(s).value &&
                 submitted.value.params == TxParamsFor(s, s.account.data.value, amount, address, memo, isErc20)) &&
              (thrown.Some? <==> submitted.Some? && submitted.value.via.ViaProvider? && reply.Failed?) &&
              (thrown.Some? ==> thrown.value == reply.message)
  {
    if !Truthy(s.account.data) {
      return None, [], Some("No account");
    }
    var extraGas := ExtraGas(memo);
    var params := TxParams(Text(if Truthy(memo) then memo.value else "0x"), s.account.data.value,
                           21000 + extraGas, Some(address), EtherHex(amount));
    if helperError.Some? {
      return None, [], helperError;
    }
    if isErc20 {
      params := params.(data := EncodedTransfer(address, amount, AssetDecimals(s), MemoTail(memo)));
      params := params.(to := AssetAddress(s));
      params := params.(value := ZeroHex);
      params := params.(gas := 100000 + extraGas);
    }

    dispatched := [SetTransactionLoading];
    thrown := None;
    submitted := None;
    var hash: Option<string> := None;
    var transport := ActiveTransport(s);
    if IsWalletConnect(s) {
      if transport.Some? {
        submitted := Some(Submission(transport.value, params));
        match reply
        case Sent(h) => hash := Some(h);
        case Failed(m) => dispatched := dispatched + [SetTransactionError(m)];
      }
    } else {
      if transport.Some? {
        submitted := Some(Submission(transport.value, params));
        match reply
        case Sent(h) => hash := Some(h);
        case Failed(m) =>
          dispatched := dispatched + [SetTransactionError(m)];
          thrown := Some(m);
          return;
      }
    }
    dispatched := dispatched + [SetTransactionSuccess(hash)];
  }

  // ---------------------------------------------------------------------------
  // What the dispatched script does to the store

  /** Loading is always dispatched first, and the script ends in success
      unless the provider path failed. */
  lemma SubmissionStartsWithLoading(s: State, reply: SendReply)
    ensures var script := SubmissionScript(s, reply);
            |script| >= 2 && script[0] == SetTransactionLoading &&
            (script[|script| - 1].SetTransactionSuccess? <==>
               !(ActiveTransport(s).Some? && !IsWalletConnect(s) && reply.Failed?))
  {
  }

  /** A failed injected send leaves the transaction in error with the
      wallet's message and never dispatches a success. */
  lemma InjectedFailureEndsInError(p: Props, st: State, s: State, m: string)
    requires ActiveTransport(s).Some? && !IsWalletConnect(s)
    ensures var script := SubmissionScript(s, Failed(m));
            (forall i :: 0 <= i < |script| ==> !script[i].SetTransactionSuccess?) &&
            Run(p, st, script).transaction == Some(Envelope(None, Some(m), Error))
  {
    var script := SubmissionScript(s, Failed(m));
    assert script == [SetTransactionLoading, SetTransactionError(m)];
    LastTransactionActionDecides(p, st, script);
  }

  /** A failed send through the pairing session dispatches the error and then
      a success without hash, so the store ends in success. */
  lemma WalletConnectFailureEndsInSuccess(p: Props, st: State, s: State, m: string)
    requires ActiveTransport(s).Some? && IsWalletConnect(s)
    ensures Run(p, st, SubmissionScript(s, Failed(m))).transaction == Some(Envelope(None, None, Success))
  {
    var script := SubmissionScript(s, Failed(m));
    assert script == [SetTransactionLoading, SetTransactionError(m), SetTransactionSuccess(None)];
    LastTransactionActionDecides(p, st, script);
  }

  /** A successful send leaves the transaction in success with the returned
      hash, on either transport. */
  lemma SentEndsInSuccessWithHash(p: Props, st: State, s: State, h: string)
    requires ActiveTransport(s).Some?
    ensures Run(p, st, SubmissionScript(s, Sent(h))).transaction == Some(Envelope(Some(h), None, Success))
  {
    var script := SubmissionScript(s, Sent(h));
    assert script == [SetTransactionLoading, SetTransactionSuccess(Some(h))];
    LastTransactionActionDecides(p, st, script);
  }
}
