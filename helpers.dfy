/**
 * The collaborators the resolver calls but whose code is not part of this
 * model: the directory lookups (`isValidProtocol`, `getContract`,
 * `getCollection`) and the parcel coordinate codec (`parseParcelPosition`,
 * `decodeTokenId`, `encodeTokenId`). They are passed in as a record of
 * total functions, so every property proved holds for any directory and
 * any codec.
 */
module Helpers {
  import opened Optional

  /** What `getCollection` returns when it finds a collection. */
  datatype Collection = Collection(contractAddress: string, collectionId: string)

  datatype Env = Env(
    /** Whether a chain/protocol name is supported. */
    isValidProtocol: string -> bool,
    /** Deployed address of a contract (by symbolic name or address) on a protocol; `None` on a miss. */
    getContract: (string, string) -> Option<string>,
    /** Collection metadata by collection name or contract address; `None` on a miss. */
    getCollection: string -> Option<Collection>,
    /** `"x,y"` to coordinates; `None` where either coordinate comes out `NaN`. */
    parseParcelPosition: string -> Option<(int, int)>,
    /** Token id (decimal or `0x` hex) to coordinates; `None` where either comes out `NaN`. */
    decodeTokenId: string -> Option<(int, int)>,
    /** Coordinates to the unsigned token id. */
    encodeTokenId: (int, int) -> nat
  )
}
