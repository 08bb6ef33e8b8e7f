/**
 * The entry points: `parseUrn` chooses between the template router and
 * the legacy translator by the identifier's scheme, and
 * `resolveUrlFromUrn` composes parsing with the content-URL chain. The
 * scheme and the legacy host and path are read from `url`, what the URL
 * parser makes of the identifier string.
 */
module Index {
  import opened Optional
  import opened Strings
  import opened Types
  import opened Helpers
  import opened Router
  import opened Resolvers
  import opened ContentUrlResolver

  /**
   * `parseUrn`. A `urn:` identifier goes to the template router, a `tcl:`
   * one to the legacy translator, and any other scheme gives nothing.
   * Every record carries a canonical `urn:telestoworld:` identifier as its
   * `uri`: the input itself for `urn:`, the rewritten URN for `tcl:`.
   */
  function ParseUrn(urn: string, url: Url, env: Env): (r: Option<AssetIdentifier>)
    ensures url.protocol == "urn:" ==> r == InternalResolver(urn, env)
    ensures url.protocol == "tcl:" ==> r == ResolveLegacyDclUrl(url, env)
    ensures url.protocol != "urn:" && url.protocol != "tcl:" ==> r.None?
    ensures r.Some? ==>
              var parts := Split(r.value.uri, ':');
              |parts| >= 2 && parts[0] == "urn" && parts[1] == "telestoworld"
    ensures r.Some? && url.protocol == "urn:" ==> r.value.uri == urn
    ensures r.Some? && url.protocol == "tcl:" ==> LegacyUrn(url).Some? && r.value.uri == LegacyUrn(url).value
  {
    if url.protocol == "urn:" then
      RoutedRecordFacts(urn, env);
      InternalResolver(urn, env)
    else if url.protocol == "tcl:" then
      match LegacyUrn(url)
      case None => None
      case Some(canonical) =>
        RoutedRecordFacts(canonical, env);
        ResolveLegacyDclUrl(url, env)
    else None
  }

  /** `resolveUrlFromUrn` as a value: the content URL of the parsed record, `null` when parsing fails. */
  function UrlFromUrn(urn: string, url: Url, options: Option<ResolversOptions>, env: Env): Option<string> {
    ContentUrl(ParseUrn(urn, url, env), options, env)
  }

  /**
   * `resolveUrlFromUrn`: parses, and hands a record to the content-URL
   * chain. A result is always a non-empty URL.
   */
  method ResolveUrlFromUrn(urn: string, url: Url, options: Option<ResolversOptions>, env: Env)
    returns (result: Option<string>)
    ensures result == UrlFromUrn(urn, url, options, env)
    ensures ParseUrn(urn, url, env).None? ==> result.None?
    ensures result.Some? ==> StartsWith(result.value, "https://")
  {
    var parsed := ParseUrn(urn, url, env);
    if parsed.Some? {
      result := ResolveContentUrl(parsed, options, env);
    } else {
      result := None;
    }
  }

  // ---------------------------------------------------------------------
  // end to end

  /** The canonical off-chain URN of a base avatar. */
  function BaseAvatarUrn(name: string): string {
    Join(["urn", "telestoworld", "off-chain", "base-avatars", name], ':')
  }

  /**
   * `tcl://base-avatars/{name}` parses to the very record of its canonical
   * URN, whatever the canonical URN's parsed host and path.
   */
  lemma LegacyBaseAvatarIsCanonical(name: string, canonicalUrl: Url, env: Env)
    requires IsSegment(name) && '/' !in name
    requires canonicalUrl.protocol == "urn:"
    ensures ParseUrn("tcl://base-avatars/" + name, Url("tcl:", "base-avatars", "/" + name), env)
            == ParseUrn(BaseAvatarUrn(name), canonicalUrl, env)
            == Some(OffChainAsset(BaseAvatarUrn(name), "base-avatars", name))
  {
    LegacyBaseAvatar(name, env);
    OffChainRoute("base-avatars", name, env);
  }

  /**
   * The legacy and canonical spellings of a base avatar resolve to the same
   * content URL, on the `.org` wearables server when no options are given.
   */
  lemma BaseAvatarSpellingsShareUrl(name: string, canonicalUrl: Url, env: Env)
    requires IsSegment(name) && '/' !in name
    requires canonicalUrl.protocol == "urn:"
    ensures UrlFromUrn("tcl://base-avatars/" + name, Url("tcl:", "base-avatars", "/" + name), None, env)
            == UrlFromUrn(BaseAvatarUrn(name), canonicalUrl, None, env)
            == Some("https://wearable-api.telestoworld.org/v2/collections/base-avatars/wearables/" + name)
  {
    LegacyBaseAvatarIsCanonical(name, canonicalUrl, env);
    BaseAvatarDefaultUrl(BaseAvatarUrn(name), name, env);
  }

  /**
   * A legacy URL that has a rewrite parses to exactly the record of the
   * canonical URN it is rewritten to, whatever the identifier string.
   */
  lemma LegacyParsesAsCanonical(s: string, url: Url, canonicalUrl: Url, env: Env)
    requires url.protocol == "tcl:" && LegacyUrn(url).Some?
    requires canonicalUrl.protocol == "urn:"
    ensures ParseUrn(s, url, env) == ParseUrn(LegacyUrn(url).value, canonicalUrl, env)
  {
  }

  /**
   * `tcl://{c}/{name}` for a collection the directory does not know
   * parses to a collections-v1 record on ethereum with no contract,
   * collection name `c`, id `name`, and the canonical collections-v1 URN
   * as its `uri`.
   */
  lemma LegacyCollectionV1ByName(c: string, name: string, env: Env)
    requires IsSegment(c) && '/' !in c && c != "base-avatars" && !MatchesHex(c)
    requires IsSegment(name) && '/' !in name
    requires env.getCollection(c).None?
    ensures ParseUrn("tcl://" + c + "/" + name, Url("tcl:", c, "/" + name), env)
            == Some(BlockchainCollectionV1Asset(Join(["urn", "telestoworld", "ethereum", "collections-v1", c, name], ':'),
                                                "ethereum", None, name, Some(c)))
  {
    LegacyCollectionV1(c, name, env);
  }

  /** `urn:telestoworld:off-chain:static-portable-experiences:{name}` is served from its static mappings. */
  lemma PortableExperienceFromUrn(name: string, url: Url, options: Option<ResolversOptions>, env: Env)
    requires IsSegment(name) && url.protocol == "urn:"
    ensures var urn := Join(["urn", "telestoworld", "off-chain", "static-portable-experiences", name], ':');
            UrlFromUrn(urn, url, options, env) == Some("https://static-pe.telestoworld.io/" + name + "/mappings")
  {
    var urn := Join(["urn", "telestoworld", "off-chain", "static-portable-experiences", name], ':');
    OffChainRoute("static-portable-experiences", name, env);
    PortableExperienceUrl(urn, name, options, env);
  }

  /**
   * A collections-v1 URN naming a collection by name on `ethereum`, which
   * the directory does not know, is served under that name; the name
   * `base-avatars` gives no URL.
   */
  lemma CollectionV1ByNameFromUrn(c: string, name: string, url: Url, env: Env)
    requires IsSegment(c) && IsSegment(name) && !MatchesHex(c) && url.protocol == "urn:"
    requires env.getCollection(c).None?
    ensures var urn := Join(["urn", "telestoworld", "ethereum", "collections-v1", c, name], ':');
            UrlFromUrn(urn, url, None, env)
            == if c == "base-avatars" then None
               else Some("https://" + WEARABLES_HOST_ORG + "/v2/collections/" + c + "/wearables/" + name)
  {
    var urn := Join(["urn", "telestoworld", "ethereum", "collections-v1", c, name], ':');
    CollectionV1Route("ethereum", c, name, env);
    var asset := BlockchainCollectionV1Asset(urn, "ethereum", None, name, Some(c));
    assert ParseUrn(urn, url, env) == Some(asset);
    CollectionV1Url(urn, "ethereum", None, name, Some(c), None, env);
  }

  /**
   * `urn:telestoworld:{protocol}:SPACE:{position}` ends, when the parcel
   * resolves and its contract is the SPACE proxy of its network, at the
   * scene of its decoded coordinates on the content server.
   */
  lemma LandUrlFromUrn(protocol: string, position: string, url: Url, env: Env)
    requires IsSegment(protocol) && IsSegment(position) && protocol != "off-chain" && url.protocol == "urn:"
    ensures var urn := Join(["urn", "telestoworld", protocol, "SPACE", position], ':');
            var r := ResolveLandAsset(urn, protocol, position, env);
            r.Some? && env.getContract(r.value.network, "SPACEProxy") == Some(Lower(r.value.contractAddress)) ==>
              UrlFromUrn(urn, url, None, env)
              == Some("https://" + DefaultContentServerForNetwork(r.value.network, NO_OPTIONS)
                      + "/content/entities/scene?pointer=" + ScenePointer(r.value.id, env))
  {
    var urn := Join(["urn", "telestoworld", protocol, "SPACE", position], ':');
    LandRoute(protocol, position, env);
    var r := ResolveLandAsset(urn, protocol, position, env);
    if r.Some? {
      LandUrl(r.value, None, env);
    }
  }

  /** An identifier of any scheme other than `urn:` and `tcl:` has no content URL. */
  lemma OtherSchemesHaveNoUrl(urn: string, url: Url, options: Option<ResolversOptions>, env: Env)
    requires url.protocol != "urn:" && url.protocol != "tcl:"
    ensures UrlFromUrn(urn, url, options, env).None?
  {
  }
}
