/**
 * The asset identifier record: a closed union of five shapes. `namespace`
 * (always `telestoworld`) and `blockchain` (always `ethereum` on the
 * on-chain shapes) are literal types in the source, so they are not
 * stored; `Namespace()` and `Blockchain()` give them back. `uri` is the
 * identifier string the record was parsed from.
 */
module Types {
  import opened Optional

  const TYPE_BLOCKCHAIN_ASSET := "blockchain-asset"
  const TYPE_OFF_CHAIN := "off-chain"
  const TYPE_COLLECTION_V1 := "blockchain-collection-v1"
  const TYPE_COLLECTION_V2 := "blockchain-collection-v2"

  datatype AssetIdentifier =
      /** Generic on-chain asset: a contract plus a token id. */
    | BlockchainAsset(uri: string, network: string, contractAddress: string, id: string)
      /** A parcel: the generic on-chain asset plus its decoded coordinates. */
    | BlockchainLandAsset(uri: string, network: string, contractAddress: string, id: string, x: int, y: int)
      /** Legacy collection item; contract and collection name may be unresolved (null). */
    | BlockchainCollectionV1Asset(uri: string, network: string, contractAddressOrNull: Option<string>,
                                  id: string, collectionName: Option<string>)
      /** Current collection item. */
    | BlockchainCollectionV2Asset(uri: string, network: string, contractAddress: string, id: string)
      /** Statically hosted asset: a registry and an id, nothing on chain. */
    | OffChainAsset(uri: string, registry: string, id: string)
  {
    function Namespace(): string {
      "telestoworld"
    }

    /**
     * The `type` discriminant. Every record carries one of four tags, and
     * the tag tells the shapes apart except that a parcel carries the
     * generic asset's tag.
     */
    function Type(): (t: string)
      ensures t in {TYPE_BLOCKCHAIN_ASSET, TYPE_OFF_CHAIN, TYPE_COLLECTION_V1, TYPE_COLLECTION_V2}
      ensures t == TYPE_BLOCKCHAIN_ASSET <==> BlockchainAsset? || BlockchainLandAsset?
      ensures t == TYPE_OFF_CHAIN <==> OffChainAsset?
      ensures t == TYPE_COLLECTION_V1 <==> BlockchainCollectionV1Asset?
      ensures t == TYPE_COLLECTION_V2 <==> BlockchainCollectionV2Asset?
    {
      match this
      case BlockchainAsset(_, _, _, _) => TYPE_BLOCKCHAIN_ASSET
      case BlockchainLandAsset(_, _, _, _, _, _) => TYPE_BLOCKCHAIN_ASSET
      case BlockchainCollectionV1Asset(_, _, _, _, _) => TYPE_COLLECTION_V1
      case BlockchainCollectionV2Asset(_, _, _, _) => TYPE_COLLECTION_V2
      case OffChainAsset(_, _, _) => TYPE_OFF_CHAIN
    }

    /** The `blockchain` field: `ethereum` on every on-chain shape, absent off chain. */
    function Blockchain(): (b: Option<string>)
      ensures b.Some? <==> !OffChainAsset?
      ensures b.Some? ==> b.value == "ethereum"
    {
      if OffChainAsset? then None else Some("ethereum")
    }

    /** The `network` field, absent off chain. */
    function Network(): (n: Option<string>)
      ensures n.Some? <==> !OffChainAsset?
      ensures n.Some? ==> n.value == network
    {
      if OffChainAsset? then None else Some(network)
    }

    /**
     * The `contractAddress` field, `None` where it is null or absent: only
     * a collections-v1 record can have a null contract on chain.
     */
    function ContractAddress(): (c: Option<string>)
      ensures OffChainAsset? ==> c.None?
      ensures BlockchainCollectionV1Asset? ==> c == contractAddressOrNull
      ensures !OffChainAsset? && !BlockchainCollectionV1Asset? ==> c == Some(contractAddress)
      ensures c.None? && !OffChainAsset? ==> BlockchainCollectionV1Asset?
    {
      match this
      case OffChainAsset(_, _, _) => None
      case BlockchainCollectionV1Asset(_, _, c, _, _) => c
      case _ => Some(contractAddress)
    }

    /** A parcel with its coordinates dropped: the generic asset it extends. */
    function WithoutCoordinates(): (a: AssetIdentifier)
      requires BlockchainLandAsset?
      ensures a.BlockchainAsset? && a.Type() == Type()
      ensures a.uri == uri && a.network == network && a.contractAddress == contractAddress && a.id == id
    {
      BlockchainAsset(uri, network, contractAddress, id)
    }
  }
}
