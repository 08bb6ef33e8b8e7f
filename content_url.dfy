/**
 * The content-URL resolver chain: an ordered list of guarded resolvers,
 * each turning an asset identifier into the base URL its content is
 * served from, or into nothing. The chain returns the first non-empty URL
 * and `null` when no resolver gives one. Hosts come from the caller's
 * options when set, otherwise from the network (`ropsten` is served from
 * the `.zone` hosts, every other network from the `.org` hosts).
 */
module ContentUrlResolver {
  import opened Optional
  import opened Strings
  import opened Types
  import opened Helpers

  /** The caller's host overrides; each may be absent. */
  datatype ResolversOptions = ResolversOptions(contentServerHost: Option<string>, wearablesServerHost: Option<string>)

  /** What a missing configuration stands for: no override at all. */
  const NO_OPTIONS := ResolversOptions(None, None)

  const CONTENT_HOST_ZONE := "peer.telestoworld.zone"
  const CONTENT_HOST_ORG := "peer.telestoworld.org"
  const WEARABLES_HOST_ZONE := "wearable-api.telestoworld.zone"
  const WEARABLES_HOST_ORG := "wearable-api.telestoworld.org"

  // ---------------------------------------------------------------------
  // host selection

  /**
   * `defaultContentServerForNetwork`: a non-empty override wins whatever
   * the network; otherwise the `.zone` host is chosen exactly for
   * `ropsten` and the `.org` host for everything else.
   */
  function DefaultContentServerForNetwork(network: string, options: ResolversOptions): (host: string)
    ensures Truthy(options.contentServerHost) ==> host == options.contentServerHost.value
    ensures !Truthy(options.contentServerHost) ==> host in {CONTENT_HOST_ZONE, CONTENT_HOST_ORG}
    ensures !Truthy(options.contentServerHost) ==> (host == CONTENT_HOST_ZONE <==> network == "ropsten")
    ensures host != ""
  {
    if Truthy(options.contentServerHost) then options.contentServerHost.value
    else if network == "ropsten" then CONTENT_HOST_ZONE
    else CONTENT_HOST_ORG
  }

  /** `defaultWearablesServerForNetwork`: the same rule over the wearables hosts. */
  function DefaultWearablesServerForNetwork(network: string, options: ResolversOptions): (host: string)
    ensures Truthy(options.wearablesServerHost) ==> host == options.wearablesServerHost.value
    ensures !Truthy(options.wearablesServerHost) ==> host in {WEARABLES_HOST_ZONE, WEARABLES_HOST_ORG}
    ensures !Truthy(options.wearablesServerHost) ==> (host == WEARABLES_HOST_ZONE <==> network == "ropsten")
    ensures host != ""
  {
    if Truthy(options.wearablesServerHost) then options.wearablesServerHost.value
    else if network == "ropsten" then WEARABLES_HOST_ZONE
    else WEARABLES_HOST_ORG
  }

  /**
   * Which override a host depends on: the content host never reads the
   * wearables override and the wearables host never reads the content
   * override, and an empty override is the same as none.
   */
  lemma HostOverridesAreIndependent(network: string, content: Option<string>, wearables: Option<string>)
    ensures DefaultContentServerForNetwork(network, ResolversOptions(content, wearables))
            == DefaultContentServerForNetwork(network, ResolversOptions(content, None))
    ensures DefaultWearablesServerForNetwork(network, ResolversOptions(content, wearables))
            == DefaultWearablesServerForNetwork(network, ResolversOptions(None, wearables))
    ensures DefaultContentServerForNetwork(network, ResolversOptions(Some(""), wearables))
            == DefaultContentServerForNetwork(network, NO_OPTIONS)
  {
  }

  // ---------------------------------------------------------------------
  // the four registered resolvers

  /** The resolvers, in registration order. */
  datatype ContentResolver =
      /** Off-chain assets of `static-portable-experiences`. */
    | PortableExperiences
      /** Off-chain base avatars, served by the wearables server of mainnet. */
    | BaseAvatars
      /** Collections-v1 wearables other than base avatars. */
    | WearablesV1
      /** Parcels: the scene deployed at the decoded coordinates. */
    | Land

  const REGISTERED: seq<ContentResolver> := [PortableExperiences, BaseAvatars, WearablesV1, Land]

  /**
   * The `pointer` of a parcel's scene: the decoded coordinates as
   * `${x},${y}`, so that splitting it at the comma gives two decimal
   * numerals that read back as `x` and `y`. A token id that does not
   * decode renders as `NaN,NaN`.
   */
  function ScenePointer(id: string, env: Env): (pointer: string)
    ensures env.decodeTokenId(id).Some? ==>
              var (x, y) := env.decodeTokenId(id).value;
              var pieces := Split(pointer, ',');
              && pieces == [IntToString(x), IntToString(y)]
              && IsDecimalInt(pieces[0]) && SignedValueOf(pieces[0]) == x
              && IsDecimalInt(pieces[1]) && SignedValueOf(pieces[1]) == y
    ensures env.decodeTokenId(id).None? ==> pointer == "NaN,NaN"
  {
    match env.decodeTokenId(id)
    case Some((x, y)) =>
      DecimalPairReadBack(x, y);
      IntToString(x) + "," + IntToString(y)
    case None => "NaN,NaN"
  }

  /** The guard of each resolver: whether it returns a URL for `asset`. */
  predicate Fires(r: ContentResolver, asset: AssetIdentifier, env: Env) {
    match r
    case PortableExperiences => asset.Type() == TYPE_OFF_CHAIN && asset.registry == "static-portable-experiences"
    case BaseAvatars => asset.Type() == TYPE_OFF_CHAIN && asset.registry == "base-avatars"
    case WearablesV1 =>
      && asset.Type() == TYPE_COLLECTION_V1
      && asset.collectionName != Some("base-avatars")
      && Truthy(asset.collectionName)
    case Land =>
      && asset.Type() == TYPE_BLOCKCHAIN_ASSET
      && env.getContract(asset.network, "SPACEProxy") == Some(Lower(asset.contractAddress))
  }

  /**
   * One resolver applied to an asset. It returns a URL exactly when its
   * guard holds, and that URL is an `https` URL.
   */
  function Apply(r: ContentResolver, asset: AssetIdentifier, options: ResolversOptions, env: Env): (url: Option<string>)
    ensures url.Some? <==> Fires(r, asset, env)
    ensures url.Some? ==> StartsWith(url.value, "https://") && |url.value| > |"https://"|
  {
    match r
    case PortableExperiences =>
      if asset.Type() == TYPE_OFF_CHAIN && asset.registry == "static-portable-experiences" then
        Some("https://" + "static-pe.telestoworld.io/" + asset.id + "/mappings")
      else None
    case BaseAvatars =>
      if asset.Type() == TYPE_OFF_CHAIN && asset.registry == "base-avatars" then
        var host := DefaultWearablesServerForNetwork("ethereum", options);
        Some("https://" + host + "/v2/collections/" + asset.registry + "/wearables/" + asset.id)
      else None
    case WearablesV1 =>
      if asset.Type() == TYPE_COLLECTION_V1 && asset.collectionName != Some("base-avatars") then
        var host := DefaultWearablesServerForNetwork(asset.network, options);
        if Truthy(asset.collectionName) then
          Some("https://" + host + "/v2/collections/" + asset.collectionName.value + "/wearables/" + asset.id)
        else None
      else None
    case Land =>
      if asset.Type() == TYPE_BLOCKCHAIN_ASSET
         && env.getContract(asset.network, "SPACEProxy") == Some(Lower(asset.contractAddress)) then
        var host := DefaultContentServerForNetwork(asset.network, options);
        Some("https://" + host + "/content/entities/scene?pointer=" + ScenePointer(asset.id, env))
      else None
  }

  /** A resolver result the chain accepts: a string of length > 0. */
  predicate Produces(url: Option<string>) {
    url.Some? && |url.value| > 0
  }

  /** Every resolver's result for one asset under one set of options. */
  function Resolution(asset: AssetIdentifier, options: ResolversOptions, env: Env): ContentResolver -> Option<string> {
    r => Apply(r, asset, options, env)
  }

  /**
   * The chain over `rs`: the first accepted result, or nothing. A result
   * is a non-empty string one of the resolvers gave; nothing comes out
   * only when no resolver gives one.
   */
  function FirstUrl(rs: seq<ContentResolver>, results: ContentResolver -> Option<string>): (url: Option<string>)
    ensures url.Some? ==> Produces(url) && exists k :: 0 <= k < |rs| && url == results(rs[k])
    ensures url.None? ==> forall k :: 0 <= k < |rs| ==> !Produces(results(rs[k]))
  {
    if rs == [] then None
    else if Produces(results(rs[0])) then results(rs[0])
    else
      var rest := FirstUrl(rs[1..], results);
      assert forall k :: 1 <= k < |rs| ==> rs[k] == rs[1..][k - 1];
      rest
  }

  /**
   * `resolveContentUrl` as a value: no asset gives `null`, a missing
   * configuration means no overrides. A result is an `https` URL from a
   * resolver whose guard holds for the asset.
   */
  function ContentUrl(asset: Option<AssetIdentifier>, config: Option<ResolversOptions>, env: Env): (url: Option<string>)
    ensures asset.None? ==> url.None?
    ensures url.Some? ==>
              && StartsWith(url.value, "https://")
              && exists k :: 0 <= k < |REGISTERED| && Fires(REGISTERED[k], asset.value, env)
                             && url == Apply(REGISTERED[k], asset.value, config.GetOr(NO_OPTIONS), env)
  {
    match asset
    case None => None
    case Some(a) =>
      var results := Resolution(a, config.GetOr(NO_OPTIONS), env);
      var r := FirstUrl(REGISTERED, results);
      assert forall k :: 0 <= k < |REGISTERED| ==> results(REGISTERED[k]) == Apply(REGISTERED[k], a, config.GetOr(NO_OPTIONS), env);
      r
  }

  /**
   * `resolveContentUrl`: tries the registered resolvers in order and
   * returns the first non-empty URL; no earlier resolver gave one, and
   * when none does the result is `null`.
   */
  method ResolveContentUrl(asset: Option<AssetIdentifier>, config: Option<ResolversOptions>, env: Env)
    returns (url: Option<string>)
    ensures url == ContentUrl(asset, config, env)
    ensures asset.None? ==> url.None?
    ensures url.Some? ==>
              exists k :: 0 <= k < |REGISTERED| && url == Apply(REGISTERED[k], asset.value, config.GetOr(NO_OPTIONS), env)
                          && forall j :: 0 <= j < k ==> !Produces(Apply(REGISTERED[j], asset.value, config.GetOr(NO_OPTIONS), env))
    ensures asset.Some? && url.None? ==>
              forall k :: 0 <= k < |REGISTERED| ==> !Produces(Apply(REGISTERED[k], asset.value, config.GetOr(NO_OPTIONS), env))
  {
    if asset.None? {
      return None;
    }
    var a := asset.value;
    var options := config.GetOr(NO_OPTIONS);
    var results := Resolution(a, options, env);
    var i := 0;
    while i < |REGISTERED|
      invariant 0 <= i <= |REGISTERED|
      invariant forall j :: 0 <= j < i ==> !Produces(Apply(REGISTERED[j], a, options, env))
      invariant FirstUrl(REGISTERED, results) == FirstUrl(REGISTERED[i..], results)
    {
      var r := Apply(REGISTERED[i], a, options, env);
      assert results(REGISTERED[i]) == r;
      assert REGISTERED[i..][0] == REGISTERED[i] && REGISTERED[i..][1..] == REGISTERED[i + 1..];
      if r.Some? && |r.value| > 0 {
        return r;
      }
      i := i + 1;
    }
    return None;
  }

  /**
   * The chain as a value is first-match: it is `null` exactly when no
   * resolver produces a URL, and otherwise it is the result of the first
   * one that does.
   */
  lemma {:induction false} FirstUrlIsFirstMatch(rs: seq<ContentResolver>, results: ContentResolver -> Option<string>)
    ensures FirstUrl(rs, results).None? <==> forall k :: 0 <= k < |rs| ==> !Produces(results(rs[k]))
    ensures FirstUrl(rs, results).Some? ==>
              exists k :: 0 <= k < |rs| && FirstUrl(rs, results) == results(rs[k])
                          && forall j :: 0 <= j < k ==> !Produces(results(rs[j]))
  {
    if rs != [] {
      FirstUrlIsFirstMatch(rs[1..], results);
      if !Produces(results(rs[0])) {
        forall k | 1 <= k < |rs| ensures rs[k] == rs[1..][k - 1] {
        }
        if FirstUrl(rs, results).Some? {
          var k :| 0 <= k < |rs[1..]| && FirstUrl(rs[1..], results) == results(rs[1..][k])
                   && forall j :: 0 <= j < k ==> !Produces(results(rs[1..][j]));
          forall j | 0 <= j < k + 1 ensures !Produces(results(rs[j])) {
            if j > 0 {
              assert rs[j] == rs[1..][j - 1];
            }
          }
        }
      }
    }
  }

  /** At most one registered resolver fires for any asset. */
  lemma GuardsAreDisjoint(asset: AssetIdentifier, env: Env, i: nat, j: nat)
    requires i < j < |REGISTERED|
    ensures !(Fires(REGISTERED[i], asset, env) && Fires(REGISTERED[j], asset, env))
  {
  }

  /**
   * Registration order does not decide the result: whichever resolver
   * fires, its URL is the chain's result.
   */
  lemma ContentUrlIsTheFiringResolver(asset: AssetIdentifier, config: Option<ResolversOptions>, env: Env, k: nat)
    requires k < |REGISTERED| && Fires(REGISTERED[k], asset, env)
    ensures ContentUrl(Some(asset), config, env) == Apply(REGISTERED[k], asset, config.GetOr(NO_OPTIONS), env)
  {
    var options := config.GetOr(NO_OPTIONS);
    var results := Resolution(asset, options, env);
    forall j | 0 <= j < |REGISTERED| ensures results(REGISTERED[j]) == Apply(REGISTERED[j], asset, options, env) {
    }
    forall j | 0 <= j < |REGISTERED| && j != k ensures !Fires(REGISTERED[j], asset, env) {
      if j < k {
        GuardsAreDisjoint(asset, env, j, k);
      } else {
        GuardsAreDisjoint(asset, env, k, j);
      }
    }
    FirstUrlIsFirstMatch(REGISTERED, results);
  }

  /** An asset none of whose guards holds has no content URL. */
  lemma NoFiringResolverMeansNull(asset: AssetIdentifier, config: Option<ResolversOptions>, env: Env)
    requires forall k :: 0 <= k < |REGISTERED| ==> !Fires(REGISTERED[k], asset, env)
    ensures ContentUrl(Some(asset), config, env).None?
  {
    var options := config.GetOr(NO_OPTIONS);
    var results := Resolution(asset, options, env);
    forall j | 0 <= j < |REGISTERED| ensures results(REGISTERED[j]) == Apply(REGISTERED[j], asset, options, env) {
    }
    FirstUrlIsFirstMatch(REGISTERED, results);
  }

  // ---------------------------------------------------------------------
  // the URLs of the known asset kinds

  /** A portable experience is served from its static mappings, whatever the options. */
  lemma PortableExperienceUrl(uri: string, id: string, config: Option<ResolversOptions>, env: Env)
    ensures ContentUrl(Some(OffChainAsset(uri, "static-portable-experiences", id)), config, env)
            == Some("https://static-pe.telestoworld.io/" + id + "/mappings")
  {
    var asset := OffChainAsset(uri, "static-portable-experiences", id);
    ContentUrlIsTheFiringResolver(asset, config, env, 0);
    assert Apply(PortableExperiences, asset, config.GetOr(NO_OPTIONS), env)
           == Some("https://" + "static-pe.telestoworld.io/" + id + "/mappings");
    PortableExperiencePrefix(id);
  }

  lemma PortableExperiencePrefix(id: string)
    ensures "https://" + "static-pe.telestoworld.io/" + id + "/mappings"
            == "https://static-pe.telestoworld.io/" + id + "/mappings"
  {
    assert "https://" + "static-pe.telestoworld.io/" == "https://static-pe.telestoworld.io/";
  }

  /** A base avatar is served by the mainnet wearables server, or by the wearables override. */
  lemma BaseAvatarUrl(uri: string, id: string, config: Option<ResolversOptions>, env: Env)
    ensures ContentUrl(Some(OffChainAsset(uri, "base-avatars", id)), config, env)
            == Some("https://" + DefaultWearablesServerForNetwork("ethereum", config.GetOr(NO_OPTIONS))
                    + "/v2/collections/" + "base-avatars" + "/wearables/" + id)
  {
    ContentUrlIsTheFiringResolver(OffChainAsset(uri, "base-avatars", id), config, env, 1);
  }

  /** Without options, a base avatar's URL is on the `.org` wearables server. */
  lemma BaseAvatarDefaultUrl(uri: string, id: string, env: Env)
    ensures ContentUrl(Some(OffChainAsset(uri, "base-avatars", id)), None, env)
            == Some("https://wearable-api.telestoworld.org/v2/collections/base-avatars/wearables/" + id)
  {
    BaseAvatarUrl(uri, id, None, env);
    BaseAvatarPrefix();
  }

  lemma BaseAvatarPrefix()
    ensures "https://" + WEARABLES_HOST_ORG + "/v2/collections/" + "base-avatars" + "/wearables/"
            == "https://wearable-api.telestoworld.org/v2/collections/base-avatars/wearables/"
  {
    WearablesCollectionsPrefix();
    BaseAvatarCollectionPath();
  }

  lemma WearablesCollectionsPrefix()
    ensures "https://" + WEARABLES_HOST_ORG + "/v2/collections/"
            == "https://wearable-api.telestoworld.org/v2/collections/"
  {
    assert "https://" + "wearable-api.telestoworld.org" == "https://wearable-api.telestoworld.org";
  }

  lemma BaseAvatarCollectionPath()
    ensures "https://wearable-api.telestoworld.org/v2/collections/" + "base-avatars" + "/wearables/"
            == "https://wearable-api.telestoworld.org/v2/collections/base-avatars/wearables/"
  {
    assert "https://wearable-api.telestoworld.org/v2/collections/" + "base-avatars"
           == "https://wearable-api.telestoworld.org/v2/collections/base-avatars";
  }


  /**
   * A collections-v1 item is served under its collection name by the
   * wearables server of its network, except that a base-avatars or
   * unresolved collection name gives no URL at all.
   */
  lemma CollectionV1Url(uri: string, network: string, contract: Option<string>, id: string,
                        name: Option<string>, config: Option<ResolversOptions>, env: Env)
    ensures var asset := BlockchainCollectionV1Asset(uri, network, contract, id, name);
            ContentUrl(Some(asset), config, env)
            == if name == Some("base-avatars") || !Truthy(name) then None
               else Some("https://" + DefaultWearablesServerForNetwork(network, config.GetOr(NO_OPTIONS))
                         + "/v2/collections/" + name.value + "/wearables/" + id)
  {
    var asset := BlockchainCollectionV1Asset(uri, network, contract, id, name);
    if name == Some("base-avatars") || !Truthy(name) {
      NoFiringResolverMeansNull(asset, config, env);
    } else {
      ContentUrlIsTheFiringResolver(asset, config, env, 2);
    }
  }

  /**
   * A parcel whose contract is the SPACE proxy of its network is served as
   * the scene at its decoded coordinates by the content server; any other
   * generic or parcel asset has no content URL.
   */
  lemma LandUrl(asset: AssetIdentifier, config: Option<ResolversOptions>, env: Env)
    requires asset.BlockchainAsset? || asset.BlockchainLandAsset?
    ensures ContentUrl(Some(asset), config, env)
            == if env.getContract(asset.network, "SPACEProxy") == Some(Lower(asset.contractAddress))
               then Some("https://" + DefaultContentServerForNetwork(asset.network, config.GetOr(NO_OPTIONS))
                         + "/content/entities/scene?pointer=" + ScenePointer(asset.id, env))
               else None
  {
    if env.getContract(asset.network, "SPACEProxy") == Some(Lower(asset.contractAddress)) {
      ContentUrlIsTheFiringResolver(asset, config, env, 3);
    } else {
      NoFiringResolverMeansNull(asset, config, env);
    }
  }

  /** A collections-v2 item has no content URL: no resolver handles it. */
  lemma CollectionV2HasNoUrl(asset: AssetIdentifier, config: Option<ResolversOptions>, env: Env)
    requires asset.BlockchainCollectionV2Asset?
    ensures ContentUrl(Some(asset), config, env).None?
  {
    NoFiringResolverMeansNull(asset, config, env);
  }

  /**
   * The parcel at 13,-137 on a ropsten SPACE proxy, with and without a
   * content-server override.
   */
  lemma RopstenParcelUrls(asset: AssetIdentifier, env: Env)
    requires asset.BlockchainLandAsset? && asset.network == "ropsten"
    requires env.getContract("ropsten", "SPACEProxy") == Some(Lower(asset.contractAddress))
    requires env.decodeTokenId(asset.id) == Some((13, -137))
    ensures ContentUrl(Some(asset), None, env)
            == Some("https://peer.telestoworld.zone/content/entities/scene?pointer=13,-137")
    ensures ContentUrl(Some(asset), Some(ResolversOptions(Some("localhost:7666"), None)), env)
            == Some("https://localhost:7666/content/entities/scene?pointer=13,-137")
  {
    LandUrl(asset, None, env);
    LandUrl(asset, Some(ResolversOptions(Some("localhost:7666"), None)), env);
    PointerOf13Minus137();
    SceneUrlLiterals();
  }

  lemma PointerOf13Minus137()
    ensures IntToString(13) + "," + IntToString(-137) == "13,-137"
  {
    assert NatToString(13, 10) == NatToString(1, 10) + [DigitChar(3)] == "13";
    assert NatToString(137, 10) == NatToString(13, 10) + [DigitChar(7)] == "137";
    assert "13" + "," == "13,";
    assert "13," + "-137" == "13,-137";
  }

  lemma SceneUrlLiterals()
    ensures "https://" + CONTENT_HOST_ZONE + "/content/entities/scene?pointer=" + "13,-137"
            == "https://peer.telestoworld.zone/content/entities/scene?pointer=13,-137"
    ensures "https://" + "localhost:7666" + "/content/entities/scene?pointer=" + "13,-137"
            == "https://localhost:7666/content/entities/scene?pointer=13,-137"
  {
    ZoneSceneUrl();
    LocalSceneUrl();
  }

  lemma ZoneSceneUrl()
    ensures "https://" + "peer.telestoworld.zone" + "/content/entities/scene?pointer=" + "13,-137"
            == "https://peer.telestoworld.zone/content/entities/scene?pointer=13,-137"
  {
    assert "https://" + "peer.telestoworld.zone" == "https://peer.telestoworld.zone";
    ZoneScenePrefix();
    ZoneScenePointer();
  }

  lemma ZoneScenePrefix()
    ensures "https://peer.telestoworld.zone" + "/content/entities/scene?pointer="
            == "https://peer.telestoworld.zone/content/entities/scene?pointer="
  {
  }

  lemma ZoneScenePointer()
    ensures "https://peer.telestoworld.zone/content/entities/scene?pointer=" + "13,-137"
            == "https://peer.telestoworld.zone/content/entities/scene?pointer=13,-137"
  {
  }

  lemma LocalSceneUrl()
    ensures "https://" + "localhost:7666" + "/content/entities/scene?pointer=" + "13,-137"
            == "https://localhost:7666/content/entities/scene?pointer=13,-137"
  {
    assert "https://" + "localhost:7666" == "https://localhost:7666";
    assert "https://localhost:7666" + "/content/entities/scene?pointer="
           == "https://localhost:7666/content/entities/scene?pointer=";
    assert "https://localhost:7666/content/entities/scene?pointer=" + "13,-137"
           == "https://localhost:7666/content/entities/scene?pointer=13,-137";
  }
}
