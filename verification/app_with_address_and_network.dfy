/** Booting the wizard from a contract address and a network code: the
    network list and the organisation's assets are fetched, the first
    network and the first asset that match the configuration are looked up,
    and the store starts with both.

    The two query results are inputs. Entries of a result list may be
    `null`; `None` in a configuration field stands for `undefined`, and in
    an asset field for `null`, so JavaScript's strict equality is spelled
    out below. */
module AddressAndNetworkBoot {
  import opened Prelude
  import opened Store
  import Catalog

  /** The configuration fields this wrapper reads. */
  datatype Config = Config(
    address: Option<string>,
    networkCode: Option<string>,
    colors: Option<Colors>,
    fiat: Option<string>,
    theme: Option<Theme>)

  /** A query's `loading`, `error` and its list (absent while there is no
      `data` or the list field is `null`). */
  datatype Query<T> = Query(loading: bool, error: bool, list: Option<seq<Option<T>>>)

  /** What the wrapper renders. */
  datatype View = LoadingView | ErrorView | StoreView(props: Props)

  /** `network?.networkCode === config.networkCode`: a `null` entry gives
      `undefined`, which equals only an undefined configuration value. */
  predicate NetworkMatches(entry: Option<Catalog.Network>, c: Config) {
    match entry
    case None => c.networkCode.None?
    case Some(n) => c.networkCode == Some(n.networkCode)
  }

  /** `asset?.address === config.address && asset?.networkCode ===
      config.networkCode`; a `null` field of an asset never equals the
      configuration, since `null !== undefined`. */
  predicate AssetMatches(entry: Option<Catalog.Asset>, c: Config) {
    match entry
    case None => c.address.None? && c.networkCode.None?
    case Some(a) => a.address.Some? && a.address == c.address &&
                    a.networkCode.Some? && a.networkCode == c.networkCode
  }

  /** `list?.find(pred)`: `None` when there is no list or no entry matches;
      otherwise the first matching entry, which may itself be `null`. */
  function FindNetwork(q: Query<Catalog.Network>, c: Config): (r: Option<Option<Catalog.Network>>)
    ensures r.Some? <==> q.list.Some? && exists i :: 0 <= i < |q.list.value| && NetworkMatches(q.list.value[i], c)
    ensures r.Some? ==> NetworkMatches(r.value, c) && r.value in q.list.value
    ensures r.Some? ==>
              exists i :: 0 <= i < |q.list.value| && q.list.value[i] == r.value &&
                          forall j :: 0 <= j < i ==> !NetworkMatches(q.list.value[j], c)
  {
    if q.list.None? then None else Find(q.list.value, (e: Option<Catalog.Network>) => NetworkMatches(e, c))
  }

  function FindAsset(q: Query<Catalog.Asset>, c: Config): (r: Option<Option<Catalog.Asset>>)
    ensures r.Some? <==> q.list.Some? && exists i :: 0 <= i < |q.list.value| && AssetMatches(q.list.value[i], c)
    ensures r.Some? ==> AssetMatches(r.value, c) && r.value in q.list.value
    ensures r.Some? ==>
              exists i :: 0 <= i < |q.list.value| && q.list.value[i] == r.value &&
                          forall j :: 0 <= j < i ==> !AssetMatches(q.list.value[j], c)
  {
    if q.list.None? then None else Find(q.list.value, (e: Option<Catalog.Asset>) => AssetMatches(e, c))
  }

  /** The props handed to `Store`: the configuration with the found asset
      and network. */
  function StoreProps(c: Config, asset: Catalog.Asset, network: Catalog.Network): Props {
    Props(Some(asset), c.colors, c.fiat, Some(network), c.theme)
  }

  /** The render: loading first, then the error view when a query failed or
      a lookup found nothing (or a `null` entry), else the store. */
  function Boot(c: Config, networks: Query<Catalog.Network>, assets: Query<Catalog.Asset>): (r: View)
    ensures r == LoadingView <==> networks.loading || assets.loading
    ensures r.StoreView? ==>
              !networks.error && !assets.error && networks.list.Some? && assets.list.Some? &&
              r.props.network.Some? && NetworkMatches(r.props.network, c) && r.props.network in networks.list.value &&
              r.props.asset.Some? && AssetMatches(r.props.asset, c) && r.props.asset in assets.list.value
  {
    if networks.loading || assets.loading then LoadingView
    else
      var network := FindNetwork(networks, c);
      var asset := FindAsset(assets, c);
      if networks.error || assets.error || network.None? || network.value.None? ||
         asset.None? || asset.value.None?
      then ErrorView
      else StoreView(StoreProps(c, asset.value.value, network.value.value))
  }

  /** While either query is loading, the loading view is shown, whatever the
      errors and data. */
  lemma LoadingComesFirst(c: Config, networks: Query<Catalog.Network>, assets: Query<Catalog.Asset>)
    requires networks.loading || assets.loading
    ensures Boot(c, networks, assets) == LoadingView
  {
  }

  /** Once neither query is loading, the error view is shown exactly when a
      query failed or a lookup did not yield an object. */
  lemma ErrorViewExactly(c: Config, networks: Query<Catalog.Network>, assets: Query<Catalog.Asset>)
    requires !networks.loading && !assets.loading
    ensures Boot(c, networks, assets) == ErrorView <==>
              networks.error || assets.error ||
              !(FindNetwork(networks, c).Some? && FindNetwork(networks, c).value.Some?) ||
              !(FindAsset(assets, c).Some? && FindAsset(assets, c).value.Some?)
    ensures Boot(c, networks, assets) != LoadingView
  {
  }

  /** The store receives the first network whose code equals the configured
      one and the first asset whose address and network code both equal the
      configured ones, with the configuration's colors, fiat and theme. */
  lemma StoreGetsFirstMatches(c: Config, networks: Query<Catalog.Network>, assets: Query<Catalog.Asset>)
    requires Boot(c, networks, assets).StoreView?
    ensures var p := Boot(c, networks, assets).props;
            p.network.Some? && p.asset.Some? &&
            p.colors == c.colors && p.fiat == c.fiat && p.theme == c.theme &&
            networks.list.Some? && assets.list.Some? &&
            (exists i :: 0 <= i < |networks.list.value| && networks.list.value[i] == p.network &&
                         forall j :: 0 <= j < i ==> !NetworkMatches(networks.list.value[j], c)) &&
            (exists i :: 0 <= i < |assets.list.value| && assets.list.value[i] == p.asset &&
                         forall j :: 0 <= j < i ==> !AssetMatches(assets.list.value[j], c)) &&
            c.networkCode == Some(p.network.value.networkCode) &&
            c.address == p.asset.value.address && c.networkCode == p.asset.value.networkCode
  {
    var p := Boot(c, networks, assets).props;
    var ns := networks.list.value;
    var k := FindIndex(ns, (e: Option<Catalog.Network>) => NetworkMatches(e, c));
    assert ns[k] == p.network;
    var as_ := assets.list.value;
    var m := FindIndex(as_, (e: Option<Catalog.Asset>) => AssetMatches(e, c));
    assert as_[m] == p.asset;
  }

  /** With an undefined network code, a `null` first entry in the network
      list is what `find` returns, and the boot fails. */
  lemma NullNetworkEntryFailsUndefinedCode(c: Config, networks: Query<Catalog.Network>, assets: Query<Catalog.Asset>)
    requires c.networkCode.None? && !networks.loading && !assets.loading
    requires networks.list.Some? && |networks.list.value| > 0 && networks.list.value[0].None?
    ensures Boot(c, networks, assets) == ErrorView
  {
    assert FindIndex(networks.list.value, (e: Option<Catalog.Network>) => NetworkMatches(e, c)) == 0;
  }

  /** A booted store starts at the payment-method phase. */
  lemma BootStartsAtPaymentMethod(c: Config, networks: Query<Catalog.Network>, assets: Query<Catalog.Asset>)
    requires Boot(c, networks, assets).StoreView?
    ensures var s := InitialState(Boot(c, networks, assets).props);
            s.step == 2 && s.steps[s.step] == PaymentMethod
  {
  }
}
