/** The widget's entry point: the optional `slug` of the configuration is
    split on ':' into a network code and an asset, and the pieces choose
    which wrapper boots the wizard. */
module AppRouting {
  import opened Prelude

  /** The three ways the modal boots the wizard. */
  datatype Wrapper = WithAssetAndNetwork | WithAsset | PlainStore

  /** `const [network, asset] = config.slug?.split(':') ?? []`: the first two
      pieces, each `undefined` when absent. */
  function SlugPieces(slug: Option<string>): (r: (Option<string>, Option<string>))
    ensures slug.None? ==> r == (None, None)
    ensures slug.Some? ==> r.0 == Some(Split(slug.value, ':')[0])
    ensures slug.Some? ==> (r.1.Some? <==> |Split(slug.value, ':')| > 1)
  {
    match slug
    case None => (None, None)
    case Some(s) =>
      var pieces := Split(s, ':');
      (Some(pieces[0]), if |pieces| > 1 then Some(pieces[1]) else None)
  }

  /** `asset && network ? … : asset ? … : <Store>`, on the truthiness of
      the two pieces. Only a slug with a ':' boots a wrapper that looks up an
      asset; it boots with the asset alone exactly when the slug starts with
      ':' (an empty network piece). */
  function ChooseWrapper(slug: Option<string>): (r: Wrapper)
    ensures slug.None? ==> r == PlainStore
    ensures r != PlainStore ==> slug.Some? && ':' in slug.value
    ensures r == WithAsset ==> slug.Some? && |slug.value| > 0 && slug.value[0] == ':'
    ensures r == WithAssetAndNetwork ==> slug.Some? && |slug.value| > 0 && slug.value[0] != ':'
  {
    var (network, asset) := SlugPieces(slug);
    var r := if Truthy(asset) && Truthy(network) then WithAssetAndNetwork
             else if Truthy(asset) then WithAsset
             else PlainStore;
    if slug.None? then r
    else
      NetworkIsPrefixBeforeFirstColon(slug.value);
      if ':' in slug.value then r
      else SplitWithoutSeparator(slug.value, ':'); r
  }

  /** The network piece is the slug up to its first ':' (or all of it). */
  lemma NetworkIsPrefixBeforeFirstColon(s: string)
    ensures var network := SlugPieces(Some(s)).0.value;
            ':' !in network && network <= s && (|network| < |s| ==> s[|network|] == ':')
  {
    var pieces := Split(s, ':');
    if |pieces| > 1 {
      assert s == pieces[0] + [':'] + Join(pieces[1..], ':');
    }
  }

  /** With a slug of the form `network:asset:rest`, the pieces are `network`
      and `asset`, whatever follows; with `network:asset` they are the same. */
  lemma {:induction false} FirstTwoPiecesChoose(network: string, asset: string, rest: Option<string>)
    requires ':' !in network && ':' !in asset
    ensures var slug := if rest.None? then network + [':'] + asset
                        else network + [':'] + asset + [':'] + rest.value;
            SlugPieces(Some(slug)) == (Some(network), Some(asset))
  {
    if rest.None? {
      SplitAtFirstSeparator(network, asset, ':');
      SplitWithoutSeparator(asset, ':');
    } else {
      assert network + [':'] + asset + [':'] + rest.value == network + [':'] + (asset + [':'] + rest.value);
      SplitAtFirstSeparator(network, asset + [':'] + rest.value, ':');
      SplitAtFirstSeparator(asset, rest.value, ':');
    }
  }

  /** Without a slug, the plain store boots. */
  lemma NoSlugBootsPlainStore()
    ensures SlugPieces(None) == (None, None)
    ensures ChooseWrapper(None) == PlainStore
  {
  }

  /** A slug with no ':' has no asset piece and boots the plain store,
      whatever the network piece is. */
  lemma SlugWithoutAssetBootsPlainStore(s: string)
    requires ':' !in s
    ensures SlugPieces(Some(s)) == (Some(s), None)
    ensures ChooseWrapper(Some(s)) == PlainStore
  {
    SplitWithoutSeparator(s, ':');
  }

  /** Non-empty network and asset pieces boot with both; an empty network
      piece (`:asset`) boots with the asset alone; an empty asset piece
      boots the plain store; whatever follows a second ':' is ignored. */
  lemma WrapperFollowsPieces(network: string, asset: string, rest: Option<string>)
    requires ':' !in network && ':' !in asset
    ensures var slug := if rest.None? then network + [':'] + asset
                        else network + [':'] + asset + [':'] + rest.value;
            (network != "" && asset != "" ==> ChooseWrapper(Some(slug)) == WithAssetAndNetwork) &&
            (network == "" && asset != "" ==> ChooseWrapper(Some(slug)) == WithAsset) &&
            (asset == "" ==> ChooseWrapper(Some(slug)) == PlainStore)
  {
    FirstTwoPiecesChoose(network, asset, rest);
  }
}
