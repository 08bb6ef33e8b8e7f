/**
 * The URN handler table and its handlers: each handler turns the captured
 * segments of a URN into one identifier record or nothing, guarded by
 * protocol validity, `protocol == "ethereum"` and directory lookups. The
 * table is tried in order and the first record produced wins. The legacy
 * translator rewrites `tcl://host/name` into a canonical URN and routes it.
 */
module Resolvers {
  import opened Optional
  import opened Strings
  import opened Types
  import opened Helpers
  import opened Router

  /** The handler functions of the table. */
  datatype Handler =
    | OffChainHandler
    | CollectionV1Handler
    | CollectionV1ByNameHandler
    | CollectionV2Handler
    | LandHandler

  datatype Template = Template(segments: seq<Segment>, handler: Handler)

  /** The ordered table of templates. */
  const RESOLVERS: seq<Template> := [
    Template([Literal("telestoworld"), Literal("off-chain"), Capture("registry", AnySegment),
              Capture("name", AnySegment)], OffChainHandler),
    Template([Literal("telestoworld"), Capture("protocol", AnySegment), Literal("collections-v1"),
              Capture("contract", HexPattern), Capture("name", AnySegment)], CollectionV1Handler),
    Template([Literal("telestoworld"), Capture("protocol", AnySegment), Literal("collections-v1"),
              Capture("collectionName", AnySegment), Capture("name", AnySegment)], CollectionV1ByNameHandler),
    Template([Literal("telestoworld"), Capture("protocol", AnySegment), Literal("collections-v2"),
              Capture("contract", HexPattern), Capture("id", HexPattern)], CollectionV2Handler),
    Template([Literal("telestoworld"), Capture("protocol", AnySegment), Literal("collections-v2"),
              Capture("contract", HexPattern), Capture("id", DecimalPattern)], CollectionV2Handler),
    Template([Literal("telestoworld"), Capture("protocol", AnySegment), Literal("SPACE"),
              Capture("position", AnySegment)], LandHandler)
  ]

  // ---------------------------------------------------------------------
  // handlers

  /**
   * The `network` of an on-chain record: `ethereum` is mainnet, any other
   * protocol is its own lower-cased name. Either way it is lower case.
   */
  function NetworkName(protocol: string): (network: string)
    ensures IsLowerCase(network)
    ensures protocol == "ethereum" ==> network == "mainnet"
    ensures protocol != "ethereum" ==> network == Lower(protocol)
  {
    if protocol == "ethereum" then "mainnet" else Lower(protocol)
  }

  /**
   * A generic on-chain asset. It exists exactly when the protocol is valid
   * and the contract lookup hits; its fields are the inputs and the
   * address found.
   */
  function ResolveEthereumAsset(uri: string, protocol: string, contract: string, tokenId: string, env: Env)
    : (r: Option<AssetIdentifier>)
    ensures r.Some? <==> env.isValidProtocol(protocol) && Truthy(env.getContract(protocol, contract))
    ensures r.Some? ==> r.value.BlockchainAsset? && r.value.uri == uri && r.value.id == tokenId
    ensures r.Some? ==> r.value.network == NetworkName(protocol)
    ensures r.Some? ==> Some(r.value.contractAddress) == env.getContract(protocol, contract)
  {
    if !env.isValidProtocol(protocol) then None
    else
      var contractAddress := env.getContract(protocol, contract);
      if Truthy(contractAddress) then
        Some(BlockchainAsset(uri, NetworkName(protocol), contractAddress.value, tokenId))
      else None
  }

  /** An off-chain asset always resolves, copying the registry and taking the name as its id. */
  function ResolveOffchainAsset(uri: string, registry: string, name: string): (r: Option<AssetIdentifier>)
    ensures r.Some? && r.value.OffChainAsset?
    ensures r.value.uri == uri && r.value.registry == registry && r.value.id == name
  {
    Some(OffChainAsset(uri, registry, name))
  }

  /**
   * A collections-v1 item named by its collection: only on `ethereum`, and
   * then always a record. A directory miss leaves the contract null and
   * keeps the given collection name; a hit supplies both (an empty field
   * of the hit counts as missing, as JavaScript's `||` does).
   */
  function ResolveCollectionV1AssetByCollectionName(uri: string, protocol: string, collectionName: string,
                                                    name: string, env: Env)
    : (r: Option<AssetIdentifier>)
    ensures r.Some? <==> protocol == "ethereum"
    ensures r.Some? ==> r.value.BlockchainCollectionV1Asset? && r.value.uri == uri && r.value.id == name
    ensures r.Some? ==> r.value.network == "ethereum" && r.value.collectionName.Some?
    ensures r.Some? && env.getCollection(collectionName).None? ==>
              r.value.contractAddressOrNull.None? && r.value.collectionName == Some(collectionName)
    ensures r.Some? && env.getCollection(collectionName).Some? ==>
              var c := env.getCollection(collectionName).value;
              && r.value.contractAddressOrNull == (if c.contractAddress != "" then Some(c.contractAddress) else None)
              && r.value.collectionName == Some(if c.collectionId != "" then c.collectionId else collectionName)
  {
    if protocol != "ethereum" then None
    else
      var collection := env.getCollection(collectionName);
      Some(BlockchainCollectionV1Asset(
        uri,
        Lower(protocol),
        if collection.Some? && collection.value.contractAddress != "" then Some(collection.value.contractAddress) else None,
        name,
        Some(if collection.Some? && collection.value.collectionId != "" then collection.value.collectionId else collectionName)))
  }

  /**
   * A collections-v1 item named by contract: exists exactly when the
   * protocol is valid and the contract lookup hits; the contract is then
   * never null, and the collection name is the collection found by that
   * address, or null on a miss.
   */
  function ResolveCollectionV1Asset(uri: string, protocol: string, contract: string, name: string, env: Env)
    : (r: Option<AssetIdentifier>)
    ensures r.Some? <==> env.isValidProtocol(protocol) && Truthy(env.getContract(protocol, contract))
    ensures r.Some? ==> r.value.BlockchainCollectionV1Asset? && r.value.uri == uri && r.value.id == name
    ensures r.Some? ==> r.value.network == NetworkName(protocol)
    ensures r.Some? ==> r.value.contractAddressOrNull == env.getContract(protocol, contract)
    ensures r.Some? ==>
              var collection := env.getCollection(env.getContract(protocol, contract).value);
              r.value.collectionName == (if collection.Some? then Some(collection.value.collectionId) else None)
  {
    if !env.isValidProtocol(protocol) then None
    else
      var contractAddress := env.getContract(protocol, contract);
      if Truthy(contractAddress) then
        var collection := env.getCollection(contractAddress.value);
        Some(BlockchainCollectionV1Asset(
          uri,
          NetworkName(protocol),
          Some(contractAddress.value),
          name,
          if collection.Some? then Some(collection.value.collectionId) else None))
      else None
  }

  /** A collections-v2 item: exists exactly when the protocol is valid and the contract lookup hits. */
  function ResolveCollectionV2Asset(uri: string, protocol: string, contract: string, id: string, env: Env)
    : (r: Option<AssetIdentifier>)
    ensures r.Some? <==> env.isValidProtocol(protocol) && Truthy(env.getContract(protocol, contract))
    ensures r.Some? ==> r.value.BlockchainCollectionV2Asset? && r.value.uri == uri && r.value.id == id
    ensures r.Some? ==> r.value.network == NetworkName(protocol)
    ensures r.Some? ==> Some(r.value.contractAddress) == env.getContract(protocol, contract)
  {
    if !env.isValidProtocol(protocol) then None
    else
      var contractAddress := env.getContract(protocol, contract);
      if Truthy(contractAddress) then
        Some(BlockchainCollectionV2Asset(uri, NetworkName(protocol), contractAddress.value, id))
      else None
  }

  /**
   * The coordinates of a parcel position: a `"x,y"` pair, or failing that a
   * token id decoded; `None` when neither gives two numbers.
   */
  function Coordinates(position: string, env: Env): (r: Option<(int, int)>)
    ensures env.parseParcelPosition(position).Some? ==> r == env.parseParcelPosition(position)
    ensures env.parseParcelPosition(position).None? ==> r == env.decodeTokenId(position)
    ensures r.None? <==> env.parseParcelPosition(position).None? && env.decodeTokenId(position).None?
  {
    if env.parseParcelPosition(position).Some? then env.parseParcelPosition(position)
    else env.decodeTokenId(position)
  }

  /**
   * A parcel. It exists exactly when the protocol is valid, the position
   * gives coordinates, the `LandProxy` lookup hits and the generic asset
   * resolves for that address on the lower-cased protocol. The record is
   * that generic asset with the coordinates added, and its id is the
   * token id of the coordinates in lower-case hex after `0x`.
   */
  function ResolveLandAsset(uri: string, protocol: string, position: string, env: Env)
    : (r: Option<AssetIdentifier>)
    ensures r.Some? <==>
              && env.isValidProtocol(protocol)
              && Coordinates(position, env).Some?
              && Truthy(env.getContract(protocol, "LandProxy"))
              && ResolveEthereumAsset(uri, Lower(protocol), env.getContract(protocol, "LandProxy").value, "", env).Some?
    ensures r.Some? ==>
              var (x, y) := Coordinates(position, env).value;
              var generic := ResolveEthereumAsset(uri, Lower(protocol), env.getContract(protocol, "LandProxy").value,
                                                  "0x" + NatToString(env.encodeTokenId(x, y), 16), env);
              && generic.Some?
              && r.value.BlockchainLandAsset?
              && r.value.WithoutCoordinates() == generic.value
              && r.value.x == x && r.value.y == y
  {
    if !env.isValidProtocol(protocol) then None
    else
      var contract := env.getContract(protocol, "LandProxy");
      var position := Coordinates(position, env);
      if position.None? then None
      else
        var (x, y) := position.value;
        var tokenId := env.encodeTokenId(x, y);
        if Truthy(contract) then
          var r := ResolveEthereumAsset(uri, Lower(protocol), contract.value, "0x" + NatToString(tokenId, 16), env);
          if r.Some? then
            Some(BlockchainLandAsset(r.value.uri, r.value.network, r.value.contractAddress, r.value.id, x, y))
          else None
        else None
  }

  /** Two spellings of one parcel position (a pair, a hex id, a decimal id) give the same record. */
  lemma LandPositionSpellingsAgree(uri: string, protocol: string, p1: string, p2: string, env: Env)
    requires Coordinates(p1, env) == Coordinates(p2, env)
    ensures ResolveLandAsset(uri, protocol, p1, env) == ResolveLandAsset(uri, protocol, p2, env)
  {
  }

  /** A parcel's id is `0x` and hex digits, and its network is `mainnet` whatever the case of `ethereum`. */
  lemma LandRecordShape(uri: string, protocol: string, position: string, env: Env)
    requires ResolveLandAsset(uri, protocol, position, env).Some?
    ensures MatchesHex(ResolveLandAsset(uri, protocol, position, env).value.id)
    ensures Lower(protocol) == "ethereum" ==> ResolveLandAsset(uri, protocol, position, env).value.network == "mainnet"
  {
    var (x, y) := Coordinates(position, env).value;
    HexRenderingMatches(env.encodeTokenId(x, y));
  }

  // ---------------------------------------------------------------------
  // routing

  /** How many captures each handler takes. */
  function Arity(h: Handler): nat {
    match h
    case OffChainHandler => 2
    case LandHandler => 2
    case _ => 3
  }

  /** Calls handler `h` with the captured segments, in the order the template names them. */
  function Handle(h: Handler, uri: string, caps: seq<string>, env: Env): (r: Option<AssetIdentifier>)
    ensures r.Some? ==> |caps| == Arity(h) && r.value.uri == uri
  {
    if |caps| != Arity(h) then None
    else
      match h
      case OffChainHandler => ResolveOffchainAsset(uri, caps[0], caps[1])
      case CollectionV1Handler => ResolveCollectionV1Asset(uri, caps[0], caps[1], caps[2], env)
      case CollectionV1ByNameHandler => ResolveCollectionV1AssetByCollectionName(uri, caps[0], caps[1], caps[2], env)
      case CollectionV2Handler => ResolveCollectionV2Asset(uri, caps[0], caps[1], caps[2], env)
      case LandHandler => ResolveLandAsset(uri, caps[0], caps[1], env)
  }

  /**
   * One template tried on a URN: its handler's record when the URN has its
   * shape. A record only comes from a template the URN fits, and carries
   * the URN as its `uri`.
   */
  function Attempt(t: Template, urn: string, env: Env): (r: Option<AssetIdentifier>)
    ensures r.Some? ==> Fits(t.segments, Split(urn, ':')) && r.value.uri == urn
  {
    match Match(t.segments, urn)
    case None => None
    case Some(caps) => Handle(t.handler, urn, caps, env)
  }

  /**
   * Templates tried in order; a template whose handler yields nothing
   * passes the URN on. A record is what one of the templates produced.
   */
  function Route(ts: seq<Template>, urn: string, env: Env): (r: Option<AssetIdentifier>)
    ensures r.Some? ==> exists k :: 0 <= k < |ts| && r == Attempt(ts[k], urn, env)
  {
    if ts == [] then None
    else
      var r := Attempt(ts[0], urn, env);
      if r.Some? then r
      else
        var rest := Route(ts[1..], urn, env);
        assert rest.Some? ==> exists k :: 1 <= k < |ts| && rest == Attempt(ts[k], urn, env) by {
          if rest.Some? {
            var k :| 0 <= k < |ts[1..]| && rest == Attempt(ts[1..][k], urn, env);
            assert ts[1..][k] == ts[k + 1];
          }
        }
        rest
  }

  /**
   * The router built from the table. A record comes from a template the
   * URN fits, and its `uri` is the URN.
   */
  function InternalResolver(urn: string, env: Env): (r: Option<AssetIdentifier>)
    ensures r.Some? ==> r.value.uri == urn
    ensures r.Some? ==>
              exists k :: 0 <= k < |RESOLVERS| && Fits(RESOLVERS[k].segments, Split(urn, ':'))
                          && r == Attempt(RESOLVERS[k], urn, env)
  {
    Route(RESOLVERS, urn, env)
  }

  /**
   * The captures each template hands its handler, by position in the URN
   * (position 0 is the `urn` scheme). Their number is always the handler's
   * arity, so `Handle` never sees a wrong number of captures from the table.
   */
  lemma TemplateCaptures(k: nat, parts: seq<string>)
    requires k < |RESOLVERS| && |parts| == |RESOLVERS[k].segments| + 1
    ensures k == 0 ==> Captured(RESOLVERS[k].segments, parts[1..]) == [parts[3], parts[4]]
    ensures 1 <= k <= 4 ==> Captured(RESOLVERS[k].segments, parts[1..]) == [parts[2], parts[4], parts[5]]
    ensures k == 5 ==> Captured(RESOLVERS[k].segments, parts[1..]) == [parts[2], parts[4]]
    ensures |Captured(RESOLVERS[k].segments, parts[1..])| == Arity(RESOLVERS[k].handler)
  {
    var segs, q := RESOLVERS[k].segments, parts[1..];
    if k == 0 || k == 5 {
      CapturedFour(segs, q);
    } else {
      CapturedFive(segs, q);
    }
  }

  /**
   * First match wins: the router yields nothing exactly when every template
   * yields nothing, and otherwise yields the record of the first template
   * that produces one.
   */
  lemma {:induction false} RouteIsFirstMatch(ts: seq<Template>, urn: string, env: Env)
    ensures Route(ts, urn, env).None? <==> forall k :: 0 <= k < |ts| ==> Attempt(ts[k], urn, env).None?
    ensures Route(ts, urn, env).Some? ==>
              exists k :: 0 <= k < |ts| && Route(ts, urn, env) == Attempt(ts[k], urn, env)
                          && forall j :: 0 <= j < k ==> Attempt(ts[j], urn, env).None?
  {
    if ts != [] {
      RouteIsFirstMatch(ts[1..], urn, env);
      if Attempt(ts[0], urn, env).None? {
        forall k | 1 <= k < |ts| ensures Attempt(ts[k], urn, env) == Attempt(ts[1..][k - 1], urn, env) {
        }
        if Route(ts, urn, env).Some? {
          var k :| 0 <= k < |ts[1..]| && Route(ts[1..], urn, env) == Attempt(ts[1..][k], urn, env)
                   && forall j :: 0 <= j < k ==> Attempt(ts[1..][j], urn, env).None?;
          assert ts[1..][k] == ts[k + 1];
          forall j | 0 <= j < k + 1 ensures Attempt(ts[j], urn, env).None? {
            if j > 0 {
              assert ts[j] == ts[1..][j - 1];
            }
          }
        }
      }
    }
  }

  // ---------------------------------------------------------------------
  // which template handles which URN

  /** `a` if it holds a record, otherwise `b`. */
  function OrElse(a: Option<AssetIdentifier>, b: Option<AssetIdentifier>): Option<AssetIdentifier> {
    if a.Some? then a else b
  }

  /** The router over the table, written out template by template. */
  lemma RouteUnrolled(urn: string, env: Env)
    ensures InternalResolver(urn, env)
            == OrElse(Attempt(RESOLVERS[0], urn, env),
               OrElse(Attempt(RESOLVERS[1], urn, env),
               OrElse(Attempt(RESOLVERS[2], urn, env),
               OrElse(Attempt(RESOLVERS[3], urn, env),
               OrElse(Attempt(RESOLVERS[4], urn, env),
                      Attempt(RESOLVERS[5], urn, env))))))
  {
    var ts := RESOLVERS;
    assert ts[5..][1..] == [];
    assert Route(ts[5..], urn, env) == OrElse(Attempt(ts[5], urn, env), None);
    assert ts[4..][1..] == ts[5..];
    assert Route(ts[4..], urn, env) == OrElse(Attempt(ts[4], urn, env), Route(ts[5..], urn, env));
    assert ts[3..][1..] == ts[4..];
    assert Route(ts[3..], urn, env) == OrElse(Attempt(ts[3], urn, env), Route(ts[4..], urn, env));
    assert ts[2..][1..] == ts[3..];
    assert Route(ts[2..], urn, env) == OrElse(Attempt(ts[2], urn, env), Route(ts[3..], urn, env));
    assert ts[1..][1..] == ts[2..];
    assert Route(ts[1..], urn, env) == OrElse(Attempt(ts[1], urn, env), Route(ts[2..], urn, env));
    assert Route(ts, urn, env) == OrElse(Attempt(ts[0], urn, env), Route(ts[1..], urn, env));
  }

  /** A text that can stand as one capture with no inline pattern. */
  predicate IsSegment(s: string) {
    s != "" && ':' !in s
  }

  /** `urn:telestoworld:off-chain:{registry}:{name}` */
  lemma AttemptOffChain(urn: string, env: Env)
    ensures var parts := Split(urn, ':');
            Attempt(RESOLVERS[0], urn, env)
            == if |parts| == 5 && parts[0] == "urn" && parts[1] == "telestoworld" && parts[2] == "off-chain"
                  && parts[3] != "" && parts[4] != ""
               then ResolveOffchainAsset(urn, parts[3], parts[4])
               else None
  {
    var parts, segs := Split(urn, ':'), RESOLVERS[0].segments;
    FitsFour(segs, parts);
    if |parts| == 5 && parts[0] == "urn" && parts[1] == "telestoworld" && parts[2] == "off-chain"
       && parts[3] != "" && parts[4] != "" {
      TemplateCaptures(0, parts);
    }
  }

  /** `urn:telestoworld:{protocol}:collections-v1:{contract(0x[a-fA-F0-9]+)}:{name}` */
  lemma AttemptCollectionV1(urn: string, env: Env)
    ensures var parts := Split(urn, ':');
            Attempt(RESOLVERS[1], urn, env)
            == if |parts| == 6 && parts[0] == "urn" && parts[1] == "telestoworld" && parts[2] != ""
                  && parts[3] == "collections-v1" && MatchesHex(parts[4]) && parts[5] != ""
               then ResolveCollectionV1Asset(urn, parts[2], parts[4], parts[5], env)
               else None
  {
    var parts, segs := Split(urn, ':'), RESOLVERS[1].segments;
    FitsFive(segs, parts);
    if |parts| == 6 && parts[0] == "urn" && parts[1] == "telestoworld" && parts[2] != ""
       && parts[3] == "collections-v1" && MatchesHex(parts[4]) && parts[5] != "" {
      TemplateCaptures(1, parts);
    }
  }

  /** `urn:telestoworld:{protocol}:collections-v1:{collectionName}:{name}` */
  lemma AttemptCollectionV1ByName(urn: string, env: Env)
    ensures var parts := Split(urn, ':');
            Attempt(RESOLVERS[2], urn, env)
            == if |parts| == 6 && parts[0] == "urn" && parts[1] == "telestoworld" && parts[2] != ""
                  && parts[3] == "collections-v1" && parts[4] != "" && parts[5] != ""
               then ResolveCollectionV1AssetByCollectionName(urn, parts[2], parts[4], parts[5], env)
               else None
  {
    var parts, segs := Split(urn, ':'), RESOLVERS[2].segments;
    FitsFive(segs, parts);
    if |parts| == 6 && parts[0] == "urn" && parts[1] == "telestoworld" && parts[2] != ""
       && parts[3] == "collections-v1" && parts[4] != "" && parts[5] != "" {
      TemplateCaptures(2, parts);
    }
  }

  /**
   * `urn:telestoworld:{protocol}:collections-v2:{contract(0x[a-fA-F0-9]+)}:{id(0x[a-fA-F0-9]+)}` when
   * `hexId`, and the `{id([0-9]+)}` template otherwise.
   */
  lemma AttemptCollectionV2(urn: string, env: Env, hexId: bool)
    ensures var parts := Split(urn, ':');
            Attempt(RESOLVERS[if hexId then 3 else 4], urn, env)
            == if |parts| == 6 && parts[0] == "urn" && parts[1] == "telestoworld" && parts[2] != ""
                  && parts[3] == "collections-v2" && MatchesHex(parts[4])
                  && (if hexId then MatchesHex(parts[5]) else MatchesDecimal(parts[5]))
               then ResolveCollectionV2Asset(urn, parts[2], parts[4], parts[5], env)
               else None
  {
    var k := if hexId then 3 else 4;
    var parts, segs := Split(urn, ':'), RESOLVERS[k].segments;
    FitsFive(segs, parts);
    if |parts| == 6 && parts[0] == "urn" && parts[1] == "telestoworld" && parts[2] != ""
       && parts[3] == "collections-v2" && MatchesHex(parts[4])
       && (if hexId then MatchesHex(parts[5]) else MatchesDecimal(parts[5])) {
      TemplateCaptures(k, parts);
    }
  }

  /** `urn:telestoworld:{protocol}:SPACE:{position}` */
  lemma AttemptLand(urn: string, env: Env)
    ensures var parts := Split(urn, ':');
            Attempt(RESOLVERS[5], urn, env)
            == if |parts| == 5 && parts[0] == "urn" && parts[1] == "telestoworld" && parts[2] != ""
                  && parts[3] == "SPACE" && parts[4] != ""
               then ResolveLandAsset(urn, parts[2], parts[4], env)
               else None
  {
    var parts, segs := Split(urn, ':'), RESOLVERS[5].segments;
    FitsFour(segs, parts);
    if |parts| == 5 && parts[0] == "urn" && parts[1] == "telestoworld" && parts[2] != ""
       && parts[3] == "SPACE" && parts[4] != "" {
      TemplateCaptures(5, parts);
    }
  }

  /** Every template's attempt, written out. */
  lemma AttemptAll(urn: string, env: Env)
    ensures var parts := Split(urn, ':');
            Attempt(RESOLVERS[0], urn, env)
            == if |parts| == 5 && parts[0] == "urn" && parts[1] == "telestoworld" && parts[2] == "off-chain"
                  && parts[3] != "" && parts[4] != ""
               then ResolveOffchainAsset(urn, parts[3], parts[4])
               else None
    ensures var parts := Split(urn, ':');
            Attempt(RESOLVERS[1], urn, env)
            == if |parts| == 6 && parts[0] == "urn" && parts[1] == "telestoworld" && parts[2] != ""
                  && parts[3] == "collections-v1" && MatchesHex(parts[4]) && parts[5] != ""
               then ResolveCollectionV1Asset(urn, parts[2], parts[4], parts[5], env)
               else None
    ensures var parts := Split(urn, ':');
            Attempt(RESOLVERS[2], urn, env)
            == if |parts| == 6 && parts[0] == "urn" && parts[1] == "telestoworld" && parts[2] != ""
                  && parts[3] == "collections-v1" && parts[4] != "" && parts[5] != ""
               then ResolveCollectionV1AssetByCollectionName(urn, parts[2], parts[4], parts[5], env)
               else None
    ensures var parts := Split(urn, ':');
            Attempt(RESOLVERS[3], urn, env)
            == if |parts| == 6 && parts[0] == "urn" && parts[1] == "telestoworld" && parts[2] != ""
                  && parts[3] == "collections-v2" && MatchesHex(parts[4]) && MatchesHex(parts[5])
               then ResolveCollectionV2Asset(urn, parts[2], parts[4], parts[5], env)
               else None
    ensures var parts := Split(urn, ':');
            Attempt(RESOLVERS[4], urn, env)
            == if |parts| == 6 && parts[0] == "urn" && parts[1] == "telestoworld" && parts[2] != ""
                  && parts[3] == "collections-v2" && MatchesHex(parts[4]) && MatchesDecimal(parts[5])
               then ResolveCollectionV2Asset(urn, parts[2], parts[4], parts[5], env)
               else None
    ensures var parts := Split(urn, ':');
            Attempt(RESOLVERS[5], urn, env)
            == if |parts| == 5 && parts[0] == "urn" && parts[1] == "telestoworld" && parts[2] != ""
                  && parts[3] == "SPACE" && parts[4] != ""
               then ResolveLandAsset(urn, parts[2], parts[4], env)
               else None
  {
    AttemptOffChain(urn, env);
    AttemptCollectionV1(urn, env);
    AttemptCollectionV1ByName(urn, env);
    AttemptCollectionV2(urn, env, true);
    AttemptCollectionV2(urn, env, false);
    AttemptLand(urn, env);
  }

  /** `urn:telestoworld:off-chain:{registry}:{name}` is always an off-chain record. */
  lemma OffChainRoute(registry: string, name: string, env: Env)
    requires IsSegment(registry) && IsSegment(name)
    ensures var urn := Join(["urn", "telestoworld", "off-chain", registry, name], ':');
            InternalResolver(urn, env) == Some(OffChainAsset(urn, registry, name))
  {
    var parts := ["urn", "telestoworld", "off-chain", registry, name];
    var urn := Join(parts, ':');
    SplitJoin(parts, ':');
    RouteUnrolled(urn, env);
    AttemptOffChain(urn, env);
  }

  /**
   * `urn:telestoworld:{protocol}:collections-v1:{c}:{name}`: a hex `c` is
   * tried as a contract first; only when that yields nothing (or `c` is
   * not hex) is `c` taken as a collection name.
   */
  lemma CollectionV1Route(protocol: string, c: string, name: string, env: Env)
    requires IsSegment(protocol) && IsSegment(c) && IsSegment(name)
    ensures var urn := Join(["urn", "telestoworld", protocol, "collections-v1", c, name], ':');
            var byContract := ResolveCollectionV1Asset(urn, protocol, c, name, env);
            InternalResolver(urn, env)
            == if MatchesHex(c) && byContract.Some? then byContract
               else ResolveCollectionV1AssetByCollectionName(urn, protocol, c, name, env)
  {
    var parts := ["urn", "telestoworld", protocol, "collections-v1", c, name];
    var urn := Join(parts, ':');
    SplitJoin(parts, ':');
    RouteUnrolled(urn, env);
    AttemptAll(urn, env);
  }

  /**
   * `urn:telestoworld:{protocol}:collections-v2:{contract}:{id}`: a
   * collections-v2 record when the contract is hex and the id is hex or
   * decimal and the handler resolves it; nothing otherwise, so an id such
   * as `test_name` yields nothing.
   */
  lemma CollectionV2Route(protocol: string, contract: string, id: string, env: Env)
    requires IsSegment(protocol) && IsSegment(contract) && IsSegment(id)
    ensures var urn := Join(["urn", "telestoworld", protocol, "collections-v2", contract, id], ':');
            InternalResolver(urn, env)
            == if MatchesHex(contract) && (MatchesHex(id) || MatchesDecimal(id))
               then ResolveCollectionV2Asset(urn, protocol, contract, id, env)
               else None
  {
    var parts := ["urn", "telestoworld", protocol, "collections-v2", contract, id];
    var urn := Join(parts, ':');
    SplitJoin(parts, ':');
    RouteUnrolled(urn, env);
    AttemptAll(urn, env);
    HexAndDecimalDisjoint(id);
  }

  /** `urn:telestoworld:{protocol}:SPACE:{position}` is the land handler's, unless the protocol reads `off-chain`. */
  lemma LandRoute(protocol: string, position: string, env: Env)
    requires IsSegment(protocol) && IsSegment(position) && protocol != "off-chain"
    ensures var urn := Join(["urn", "telestoworld", protocol, "SPACE", position], ':');
            InternalResolver(urn, env) == ResolveLandAsset(urn, protocol, position, env)
  {
    var parts := ["urn", "telestoworld", protocol, "SPACE", position];
    var urn := Join(parts, ':');
    SplitJoin(parts, ':');
    RouteUnrolled(urn, env);
    AttemptAll(urn, env);
  }

  /**
   * What every record the router produces satisfies: its `uri` is the URN
   * given, that URN starts `urn:telestoworld:`, its network (if any) is
   * lower case, a collections-v2 id is hex or decimal, a parcel id is
   * `0x` and hex digits, and a bare generic asset never comes out.
   */
  lemma RoutedRecordFacts(urn: string, env: Env)
    ensures InternalResolver(urn, env).Some? ==>
              var a := InternalResolver(urn, env).value;
              && a.uri == urn
              && Split(urn, ':')[0] == "urn" && |Split(urn, ':')| >= 2 && Split(urn, ':')[1] == "telestoworld"
              && !a.BlockchainAsset?
              && (a.Network().Some? ==> IsLowerCase(a.network))
              && (a.BlockchainCollectionV2Asset? ==> MatchesHex(a.id) || MatchesDecimal(a.id))
              && (a.BlockchainLandAsset? ==> MatchesHex(a.id))
  {
    RouteUnrolled(urn, env);
    AttemptAll(urn, env);
    var parts := Split(urn, ':');
    if |parts| == 5 && parts[0] == "urn" && parts[1] == "telestoworld" && parts[2] != ""
       && parts[3] == "SPACE" && parts[4] != "" && ResolveLandAsset(urn, parts[2], parts[4], env).Some? {
      LandRecordShape(urn, parts[2], parts[4], env);
    }
  }

  // ---------------------------------------------------------------------
  // legacy identifiers

  /** The components of a parsed URL that the legacy translator reads. */
  datatype Url = Url(protocol: string, host: string, pathname: string)

  /**
   * Host and path segments of a legacy URL. A pathname starting with `//`
   * means the URL parser left the host inside the path; otherwise the host
   * is the parsed host and the path is the pathname without its leading
   * `/`, split at `/`.
   */
  function LegacyHostAndPath(url: Url): (hp: (string, seq<string>))
    ensures StartsWith(url.pathname, "//") ==> '/' !in hp.0
    ensures forall k :: 0 <= k < |hp.1| ==> '/' !in hp.1[k]
    ensures StartsWith(url.pathname, "//") ==> Join([hp.0] + hp.1, '/') == url.pathname[2..]
    ensures !StartsWith(url.pathname, "//") ==>
              && hp.0 == url.host
              && |hp.1| >= 1
              && Join(hp.1, '/') == if StartsWith(url.pathname, "/") then url.pathname[1..] else url.pathname
  {
    if StartsWith(url.pathname, "//") then
      var res := Split(url.pathname[2..], '/');
      JoinSplit(url.pathname[2..], '/');
      assert [res[0]] + res[1..] == res;
      (res[0], res[1..])
    else
      var rest := if StartsWith(url.pathname, "/") then url.pathname[1..] else url.pathname;
      JoinSplit(rest, '/');
      (url.host, Split(rest, '/'))
  }

  /**
   * The canonical URN a legacy URL is rewritten to: only for `tcl:` with
   * exactly one path segment; host `base-avatars` names the off-chain
   * registry, any other host a collections-v1 collection on ethereum.
   */
  function LegacyUrn(url: Url): (urn: Option<string>)
    ensures urn.Some? <==> url.protocol == "tcl:" && |LegacyHostAndPath(url).1| == 1
  {
    var hp := LegacyHostAndPath(url);
    if url.protocol == "tcl:" && |hp.1| == 1 then
      if hp.0 == "base-avatars" then Some("urn:" + "telestoworld:" + "off-chain:" + "base-avatars:" + hp.1[0])
      else Some("urn:" + "telestoworld:" + "ethereum:" + "collections-v1:" + hp.0 + ":" + hp.1[0])
    else None
  }

  /**
   * The rewritten URN is the canonical off-chain or collections-v1 URN
   * whose segments are the host and the one path segment.
   */
  lemma LegacyUrnSegments(url: Url)
    ensures LegacyUrn(url).Some? ==>
              var host, path := LegacyHostAndPath(url).0, LegacyHostAndPath(url).1;
              LegacyUrn(url).value
              == if host == "base-avatars"
                 then Join(["urn", "telestoworld", "off-chain", "base-avatars", path[0]], ':')
                 else Join(["urn", "telestoworld", "ethereum", "collections-v1", host, path[0]], ':')
  {
    var hp := LegacyHostAndPath(url);
    if LegacyUrn(url).Some? {
      if hp.0 == "base-avatars" {
        OffChainLegacyJoin(hp.1[0]);
      } else {
        CollectionLegacyJoin(hp.0, hp.1[0]);
      }
    }
  }

  lemma OffChainLegacyJoin(name: string)
    ensures "urn:" + "telestoworld:" + "off-chain:" + "base-avatars:" + name
            == Join(["urn", "telestoworld", "off-chain", "base-avatars", name], ':')
  {
    JoinFive("urn", "telestoworld", "off-chain", "base-avatars", name, ':');
    assert "urn:" == "urn" + [':'] && "telestoworld:" == "telestoworld" + [':'];
    assert "off-chain:" == "off-chain" + [':'] && "base-avatars:" == "base-avatars" + [':'];
  }

  lemma CollectionLegacyJoin(host: string, name: string)
    ensures "urn:" + "telestoworld:" + "ethereum:" + "collections-v1:" + host + ":" + name
            == Join(["urn", "telestoworld", "ethereum", "collections-v1", host, name], ':')
  {
    JoinSix("urn", "telestoworld", "ethereum", "collections-v1", host, name, ':');
    assert "urn:" == "urn" + [':'] && "telestoworld:" == "telestoworld" + [':'];
    assert "ethereum:" == "ethereum" + [':'] && "collections-v1:" == "collections-v1" + [':'];
  }

  /**
   * `resolveLegacyDclUrl`: the rewritten URN, routed. A record from it
   * carries the canonical URN as its `uri`, never the legacy URL.
   */
  function ResolveLegacyDclUrl(url: Url, env: Env): (r: Option<AssetIdentifier>)
    ensures r == if LegacyUrn(url).Some? then InternalResolver(LegacyUrn(url).value, env) else None
    ensures r.Some? ==> LegacyUrn(url).Some? && r.value.uri == LegacyUrn(url).value
    ensures r.Some? ==> url.protocol == "tcl:"
  {
    match LegacyUrn(url)
    case None => None
    case Some(urn) => InternalResolver(urn, env)
  }

  /** `tcl://base-avatars/{name}` is the off-chain base-avatar record of its canonical URN. */
  lemma LegacyBaseAvatar(name: string, env: Env)
    requires IsSegment(name) && '/' !in name
    ensures var urn := Join(["urn", "telestoworld", "off-chain", "base-avatars", name], ':');
            && LegacyUrn(Url("tcl:", "base-avatars", "/" + name)) == Some(urn)
            && ResolveLegacyDclUrl(Url("tcl:", "base-avatars", "/" + name), env) == Some(OffChainAsset(urn, "base-avatars", name))
  {
    var url := Url("tcl:", "base-avatars", "/" + name);
    NativePathname(name);
    assert Split(name, '/') == [name];
    LegacyUrnSegments(url);
    OffChainRoute("base-avatars", name, env);
  }

  /**
   * `tcl://{c}/{name}` for a collection `c` other than `base-avatars` is
   * the collections-v1 URN of `c` and `name` on ethereum; when `c` is not
   * hex it resolves by collection name, whatever the directory holds. For
   * `tcl://halloween_2019/bride_of_frankie_earring` that is a
   * collections-v1 record with id `bride_of_frankie_earring` and the
   * canonical URN as its `uri`.
   */
  lemma LegacyCollectionV1(c: string, name: string, env: Env)
    requires IsSegment(c) && '/' !in c && c != "base-avatars" && !MatchesHex(c)
    requires IsSegment(name) && '/' !in name
    ensures var urn := Join(["urn", "telestoworld", "ethereum", "collections-v1", c, name], ':');
            && LegacyUrn(Url("tcl:", c, "/" + name)) == Some(urn)
            && ResolveLegacyDclUrl(Url("tcl:", c, "/" + name), env)
               == ResolveCollectionV1AssetByCollectionName(urn, "ethereum", c, name, env)
  {
    var url := Url("tcl:", c, "/" + name);
    NativePathname(name);
    assert Split(name, '/') == [name];
    LegacyUrnSegments(url);
    CollectionV1Route("ethereum", c, name, env);
  }

  /**
   * Both places a URL parser may leave the host give the same host and
   * path: `//host/rest` as a pathname, and `host` with pathname `/rest`.
   */
  lemma LegacyHostSpellingsAgree(protocol: string, parsedHost: string, host: string, rest: string)
    requires '/' !in host && (rest == [] || rest[0] != '/')
    ensures LegacyHostAndPath(Url(protocol, parsedHost, "//" + host + "/" + rest))
            == LegacyHostAndPath(Url(protocol, host, "/" + rest))
  {
    var inPath := "//" + host + "/" + rest;
    assert StartsWith(inPath, "//");
    assert inPath[2..] == host + ['/'] + rest;
    SplitConcat(host, rest, '/');
    NativePathname(rest);
  }

  /** A pathname `/rest` whose rest does not start with `/` is read as `rest`. */
  lemma NativePathname(rest: string)
    requires rest == [] || rest[0] != '/'
    ensures !StartsWith("/" + rest, "//") && StartsWith("/" + rest, "/") && ("/" + rest)[1..] == rest
  {
    var native := "/" + rest;
    if |native| >= 2 {
      assert native[1] == rest[0];
      assert native[..2] != "//";
    }
  }

  /** A legacy path of more than one segment is rejected, whatever the host. */
  lemma LegacyRejectsNestedPath(host: string, rest: string, env: Env)
    requires (rest == [] || rest[0] != '/') && '/' in rest
    ensures ResolveLegacyDclUrl(Url("tcl:", host, "/" + rest), env).None?
  {
    NativePathname(rest);
  }

  /**
   * `tcl://base-avatars/` and `tcl://base-avatars` pass the one-segment
   * check with an empty name, and the router then rejects them.
   */
  lemma LegacyEmptyNameRejected(pathname: string, env: Env)
    requires pathname == "" || pathname == "/"
    ensures ResolveLegacyDclUrl(Url("tcl:", "base-avatars", pathname), env).None?
  {
    var url := Url("tcl:", "base-avatars", pathname);
    assert !StartsWith(pathname, "//");
    assert (if StartsWith(pathname, "/") then pathname[1..] else pathname) == "";
    assert Split("", '/') == [""];
    var parts := ["urn", "telestoworld", "off-chain", "base-avatars", ""];
    var urn := Join(parts, ':');
    LegacyUrnSegments(url);
    SplitJoin(parts, ':');
    RouteUnrolled(urn, env);
    AttemptAll(urn, env);
  }
}
