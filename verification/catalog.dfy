/** The catalog entities the widget receives from its query service (the
    generated GraphQL types), reduced to the fields the core reads. They are
    data only; the queries that produce them are not part of this model. */
module Catalog {
  import opened Prelude

  /** A blockchain network; `chainId` is `identifiers.chainId`. */
  datatype Network = Network(networkCode: string, chainId: Option<int>, name: string)

  /** An asset offered by the organisation. `address` is the token contract
      (null for a chain's native asset); `None` in a field stands for `null`. */
  datatype Asset = Asset(
    address: Option<string>,
    networkCode: Option<string>,
    decimals: Option<int>,
    symbol: Option<string>)

  /** A payment method. For injected wallets `value` names the capability flag
      the wallet sets on its provider object (`isMetaMask`,
      `isCoinbaseWallet`); remote pairing wallets use `isWalletConnect`. */
  datatype PaymentMethod = PaymentMethod(name: string, value: Option<string>)
}
