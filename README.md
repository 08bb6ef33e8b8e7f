# urn-resolver, modelled in Dafny

This project models the asset-identifier resolver: the library that turns
an identifier string for a world asset into a typed record, and then
turns that record into the base URL its content is served from.

- **Identifiers** (`src/types.ts`) form a closed union of five record
  shapes: off-chain, generic blockchain asset, land parcel,
  collections-v1 item and collections-v2 item (`Types.AssetIdentifier`).
- **The URN router** (`src/resolvers.ts`) is an ordered table of six URN
  templates (`Resolvers.RESOLVERS`). Each template has a handler that
  builds a record or yields nothing. The handlers are guarded by protocol
  validity, by `protocol == "ethereum"` and by directory lookups. The
  first template whose handler produces a record wins
  (`Resolvers.InternalResolver`).
- **The legacy translator** rewrites `tcl://host/name` into the canonical
  URN and routes that URN (`Resolvers.ResolveLegacyDclUrl`).
- **The content-URL chain** (`src/content-url-resolver.ts`) holds four
  guarded resolvers, tried in registration order. The first non-empty URL
  is returned, or `null` when there is none. The chain is an imperative
  loop (`ContentUrlResolver.ResolveContentUrl`) proved against the
  function `ContentUrlResolver.ContentUrl`.
- **Host selection**: a non-empty override from the caller wins.
  Otherwise `ropsten` is served from the `.zone` hosts and every other
  network from the `.org` hosts.
- **The entry points** (`src/index.ts`) dispatch on the scheme
  (`Index.ParseUrn`). `Index.ResolveUrlFromUrn` composes parsing with the
  chain.

Two parts of the code are not shown, so the model takes them as
parameters: the directory lookups (`getContract`, `getCollection`,
`isValidProtocol`) and the parcel coordinate codec (`LandUtils`). The
record `Helpers.Env` carries them as total functions, so every property
holds for any directory and any codec.

The template matcher `createParser` is not shown either, and it is not a
parameter: `module Router` rebuilds it concretely from the template
syntax. That commits the model to three assumptions about it: a capture
never matches an empty segment, the first segment of a URN must be `urn`,
and literals and patterns are compared without case folding. In detail:

- A URN is split at `:`, and its first segment must be `urn`.
- Every literal segment must be equal to the template's.
- A capture with no inline pattern matches any non-empty segment.
- The inline patterns are `0x[a-fA-F0-9]+` and `[0-9]+`, anchored at both
  ends of the segment.
- A template whose handler yields nothing passes the URN on to the next
  template.

The `namespace` of a record is always `telestoworld`
(`AssetIdentifier.Namespace`). The `blockchain` of an on-chain record is
always `ethereum`. Both are literal types in `src/types.ts`, so they are
not stored as fields.

JavaScript behaviour the code relies on is written out in
`module Strings`:

- `split` with a one-character separator, where `""` splits into `[""]`;
- `toLowerCase`;
- `BigInt.prototype.toString(16)`;
- the decimal rendering of integers in template literals.

JavaScript truthiness of lookup results, where `""` is falsy, is
`Optional.Truthy`.

## Model

| member | source | states |
|---|---|---|
| Types.AssetIdentifier.Type | src/types.ts:100-105 | every record carries one of the four `type` tags; each tag identifies exactly one shape, except that land shares `blockchain-asset` with the generic asset |
| Types.AssetIdentifier.Blockchain | src/types.ts:11 | `blockchain` is `ethereum` on every on-chain shape and absent off chain |
| Types.AssetIdentifier.Network | src/types.ts:83-95 | an off-chain record has no `network`; every other shape has one |
| Types.AssetIdentifier.ContractAddress | src/types.ts:19 | an off-chain record has no contract; a collections-v1 item's may be null; every other on-chain shape gives its stored contract |
| Types.AssetIdentifier.WithoutCoordinates | src/types.ts:36-39 | a parcel minus `x`/`y` is a generic asset with the same `type`, uri, network, contract and id |
| Strings.Split | src/resolvers.ts:79 | `split` gives at least one piece and no piece contains the separator |
| Strings.SplitJoin | src/resolvers.ts:84-86 | joining separator-free pieces and splitting again gives the pieces back |
| Strings.JoinSplit | src/resolvers.ts:74 | splitting and joining again gives the string back |
| Strings.Lower | src/resolvers.ts:56 | `toLowerCase` keeps the length, turns every upper-case letter into its lower-case letter in place (code point + 32), and keeps every other character |
| Strings.LowerChar | src/resolvers.ts:56 | one character of `toLowerCase`: an upper-case letter becomes its lower-case letter, anything else is kept |
| Strings.NatToStringRoundTrip | src/resolvers.ts:57 | the hex rendering of the token id reads back as the same number |
| Strings.IntToStringRoundTrip | src/content-url-resolver.ts:71 | the decimal rendering of a coordinate is a decimal numeral and reads back as the same integer |
| Strings.IntToString | src/content-url-resolver.ts:71 | the decimal rendering of an integer is non-empty and starts with `-` exactly when the integer is negative |
| Strings.DecimalPairReadBack | src/content-url-resolver.ts:71 | `${x},${y}` splits at the comma into the two renderings, which read back as `x` and `y` |
| Router.Match | src/resolvers.ts:16-31 | a template yields captures exactly when the URN's segments fit it: `urn` first, equal literals, each capture matching its pattern; there is one capture per placeholder, and the `k`-th capture is the URN segment at the `k`-th placeholder |
| Router.CapturePositionsAreCaptures | src/resolvers.ts:16-29 | every capture position of a template holds a placeholder |
| Router.CapturePositionsIncrease | src/resolvers.ts:16-29 | capture positions run left to right, each placeholder once |
| Router.CapturePositionsAreComplete | src/resolvers.ts:16-29 | every placeholder of a template is at a capture position |
| Router.CapturedAtPositions | src/resolvers.ts:16-29 | the `k`-th captured text is the segment at the `k`-th placeholder |
| Router.HexAndDecimalDisjoint | src/resolvers.ts:24-26 | no id matches both the hex and the decimal v2 pattern |
| Router.HexRenderingMatches | src/resolvers.ts:57 | `0x` plus a hex rendering matches `0x[a-fA-F0-9]+` |
| Resolvers.NetworkName | src/resolvers.ts:105 | `ethereum` is `mainnet`; any other protocol is its lower-cased name; the network is always lower case |
| Resolvers.ResolveEthereumAsset | src/resolvers.ts:91-109 | a record exists iff the protocol is valid and the contract lookup is truthy; its fields are the inputs and the address found |
| Resolvers.ResolveOffchainAsset | src/resolvers.ts:111-122 | always a record; registry copied, `name` becomes the id, uri passed through |
| Resolvers.ResolveCollectionV1AssetByCollectionName | src/resolvers.ts:124-143 | a record iff the protocol is `ethereum`; network is the lower-cased protocol; on a miss the contract is null and the name falls back to the input; on a hit empty fields count as missing |
| Resolvers.ResolveCollectionV1Asset | src/resolvers.ts:145-167 | a record iff the protocol is valid and the lookup hits; the contract is never null; the collection name comes from the lookup by address, or is null on a miss |
| Resolvers.ResolveCollectionV2Asset | src/resolvers.ts:169-187 | a record iff the protocol is valid and the lookup hits; network by `NetworkName` |
| Resolvers.Coordinates | src/resolvers.ts:41-49 | a position that parses as a pair wins; otherwise the decoded token id is used; there are no coordinates only when both fail |
| Resolvers.ResolveLandAsset | src/resolvers.ts:33-67 | a parcel iff: the protocol is valid, the position or the decoded token id gives coordinates, the `LandProxy` lookup is truthy and the generic asset resolves on the lower-cased protocol; the record is that generic asset with id `0x`+hex(encode(x,y)), plus x and y |
| Resolvers.LandPositionSpellingsAgree | src/resolvers.ts:41-51 | a pair, a hex id and a decimal id with the same coordinates give the same parcel |
| Resolvers.LandRecordShape | src/resolvers.ts:51-58 | a parcel id always matches `0x[a-fA-F0-9]+`; any spelling of `ethereum` gives `mainnet` |
| Resolvers.Handle | src/resolvers.ts:16-29 | a handler's record always carries the URN it was called with, and comes only from the right number of captures |
| Resolvers.Attempt | src/resolvers.ts:16-31 | a template gives a record only when the URN fits it, and the record's uri is the URN |
| Resolvers.Route | src/resolvers.ts:16-31 | a routed record is the record of one of the templates |
| Resolvers.InternalResolver | src/resolvers.ts:31 | a record's uri is the URN, and it is the record of a table template that the URN fits |
| Resolvers.TemplateCaptures | src/resolvers.ts:16-29 | each template hands its handler the captures in placeholder order, as many as the handler takes |
| Resolvers.RouteIsFirstMatch | src/resolvers.ts:16-31 | the router yields nothing iff every template does; otherwise it yields the first template's record |
| Resolvers.RouteUnrolled | src/resolvers.ts:16-29 | the router over the table is the six attempts chained in table order |
| Resolvers.AttemptOffChain | src/resolvers.ts:18 | when the off-chain template applies and which record it gives |
| Resolvers.AttemptCollectionV1 | src/resolvers.ts:20 | when the v1 by-contract template applies (hex contract) and which record it gives |
| Resolvers.AttemptCollectionV1ByName | src/resolvers.ts:22 | when the v1 by-name template applies and which record it gives |
| Resolvers.AttemptCollectionV2 | src/resolvers.ts:24-26 | when the two v2 templates apply (hex contract; hex or decimal id) and which record they give |
| Resolvers.AttemptLand | src/resolvers.ts:28 | when the SPACE template applies and which record it gives |
| Resolvers.OffChainRoute | src/resolvers.ts:18 | `urn:telestoworld:off-chain:{registry}:{name}` always routes to the off-chain record |
| Resolvers.CollectionV1Route | src/resolvers.ts:20-22 | a hex contract segment is tried as a contract first; the by-name handler runs only when that yields nothing or the segment is not hex |
| Resolvers.CollectionV2Route | src/resolvers.ts:24-26 | a v2 URN routes to the v2 handler iff the contract is hex and the id is hex or decimal; any other id, such as `test_name`, gives nothing |
| Resolvers.LandRoute | src/resolvers.ts:28 | a `SPACE` URN is the land handler's, unless the protocol segment reads `off-chain` |
| Resolvers.RoutedRecordFacts | src/resolvers.ts:16-31 | every routed record: its uri is the URN, which starts `urn:telestoworld:`; its network is lower case; a v2 id is hex or decimal; a parcel id is hex; no bare generic asset |
| Resolvers.LegacyHostAndPath | src/resolvers.ts:70-80 | with the host left in the pathname, host and path joined with `/` give back the pathname minus `//`; otherwise the host is the parsed host and the path joined gives back the pathname minus one leading `/`; no path piece, and no host taken from the pathname, contains `/` |
| Resolvers.LegacyUrn | src/resolvers.ts:82 | a rewrite exists iff the protocol is `tcl:` and the path has exactly one segment |
| Resolvers.LegacyUrnSegments | src/resolvers.ts:83-87 | host `base-avatars` rewrites to the off-chain URN with the segment as name; any other host to the collections-v1 URN of that host |
| Resolvers.ResolveLegacyDclUrl | src/resolvers.ts:69-89 | the result is the router's record for the rewritten URN, and nothing when there is no rewrite; a record only for `tcl:`, with the rewritten canonical URN as its uri |
| Resolvers.LegacyBaseAvatar | src/resolvers.ts:82-84 | `tcl://base-avatars/{name}` rewrites to the off-chain base-avatar URN and resolves to its off-chain record |
| Resolvers.LegacyCollectionV1 | src/resolvers.ts:82-87 | `tcl://{c}/{name}` with a non-hex `c` other than `base-avatars` (such as `tcl://halloween_2019/bride_of_frankie_earring`) rewrites to the collections-v1 URN on ethereum and resolves by collection name, for any directory |
| Resolvers.LegacyHostSpellingsAgree | src/resolvers.ts:70-80 | a host left in the pathname (`//host/rest`) and a host parsed natively give the same host and path |
| Resolvers.LegacyRejectsNestedPath | src/resolvers.ts:82 | a path of more than one segment gives nothing |
| Resolvers.LegacyEmptyNameRejected | src/resolvers.ts:79-84 | `tcl://base-avatars/` passes the one-segment check with an empty name and the router rejects it |
| ContentUrlResolver.DefaultContentServerForNetwork | src/content-url-resolver.ts:75-81 | a truthy override wins; otherwise `.zone` exactly for `ropsten`, `.org` for everything else; never empty |
| ContentUrlResolver.DefaultWearablesServerForNetwork | src/content-url-resolver.ts:83-89 | the same three-way rule over the wearables hosts |
| ContentUrlResolver.HostOverridesAreIndependent | src/content-url-resolver.ts:75-89 | each host reads only its own override, and an empty override counts as none |
| ContentUrlResolver.ScenePointer | src/content-url-resolver.ts:70-71 | the pointer splits at its comma into two decimal numerals that read back as the decoded `x` and `y`; an undecodable id gives `NaN,NaN` |
| ContentUrlResolver.Apply | src/content-url-resolver.ts:42-73 | each resolver returns a URL exactly when its guard holds, and that URL is an https URL |
| ContentUrlResolver.FirstUrl | src/content-url-resolver.ts:30-37 | a result is a non-empty URL that one of the resolvers gave; nothing only when no resolver gives one |
| ContentUrlResolver.ContentUrl | src/content-url-resolver.ts:25-37 | no asset gives `null`; a URL is an https URL from a resolver whose guard holds for the asset |
| ContentUrlResolver.ResolveContentUrl | src/content-url-resolver.ts:25-38 | no asset gives `null`; the loop returns the first resolver's non-empty URL, after none of the earlier ones produced one, or `null` when none does |
| ContentUrlResolver.FirstUrlIsFirstMatch | src/content-url-resolver.ts:30-37 | the chain is `null` iff no resolver produces a non-empty URL; otherwise it is the first one's |
| ContentUrlResolver.GuardsAreDisjoint | src/content-url-resolver.ts:42-73 | no asset satisfies two resolver guards |
| ContentUrlResolver.ContentUrlIsTheFiringResolver | src/content-url-resolver.ts:30-35 | whichever resolver fires, its URL is the chain's result, so registration order does not decide it |
| ContentUrlResolver.NoFiringResolverMeansNull | src/content-url-resolver.ts:36-37 | when no guard holds the result is `null` |
| ContentUrlResolver.PortableExperienceUrl | src/content-url-resolver.ts:42-46 | a `static-portable-experiences` asset maps to `https://static-pe.telestoworld.io/{id}/mappings` |
| ContentUrlResolver.BaseAvatarUrl | src/content-url-resolver.ts:48-53 | an off-chain base avatar maps to the mainnet wearables host's `/v2/collections/base-avatars/wearables/{id}` |
| ContentUrlResolver.BaseAvatarDefaultUrl | src/content-url-resolver.ts:48-53 | without options that host is `wearable-api.telestoworld.org` |
| ContentUrlResolver.CollectionV1Url | src/content-url-resolver.ts:55-62 | a v1 item gives nothing when its collection name is `base-avatars`, null or empty, and otherwise its network's wearables URL under that name |
| ContentUrlResolver.LandUrl | src/content-url-resolver.ts:64-73 | a generic or parcel asset gives the scene URL at its decoded coordinates iff the SPACEProxy lookup equals its lower-cased contract, and otherwise nothing |
| ContentUrlResolver.CollectionV2HasNoUrl | src/content-url-resolver.ts:42-73 | no resolver serves a collections-v2 item |
| ContentUrlResolver.RopstenParcelUrls | src/content-url-resolver.ts:64-81 | parcel 13,-137 on ropsten: `peer.telestoworld.zone`, or the override `localhost:7666` |
| Index.ParseUrn | src/index.ts:11-18 | `urn:` gives the router's record, `tcl:` the legacy translator's, any other scheme nothing; the record's uri is the input URN or the rewritten URN, and always starts `urn:telestoworld:` |
| Index.LegacyParsesAsCanonical | src/index.ts:14-15 | a legacy URL with a rewrite parses to exactly the record its canonical URN parses to |
| Index.LegacyCollectionV1ByName | src/index.ts:15 | `tcl://{c}/{name}` for a collection unknown to the directory parses to a collections-v1 record with null contract, collection name `c`, id `name` and the collections-v1 URN as uri |
| Index.ResolveUrlFromUrn | src/index.ts:24-32 | `null` when parsing fails, otherwise the chain's URL for the parsed record; a URL is always https |
| Index.LegacyBaseAvatarIsCanonical | src/index.ts:14-15 | `tcl://base-avatars/{name}` parses to the very record of `urn:telestoworld:off-chain:base-avatars:{name}` |
| Index.BaseAvatarSpellingsShareUrl | src/index.ts:24-32 | both spellings of a base avatar give the same `.org` wearables URL |
| Index.PortableExperienceFromUrn | src/index.ts:24-32 | a static portable experience URN ends at its static mappings URL |
| Index.CollectionV1ByNameFromUrn | src/index.ts:24-32 | a v1 URN by unknown collection name is served under that name; the name `base-avatars` gives `null` |
| Index.LandUrlFromUrn | src/index.ts:24-32 | a `SPACE` URN whose parcel resolves on a SPACE-proxy contract ends at the content server's scene URL for its decoded coordinates |
| Index.OtherSchemesHaveNoUrl | src/index.ts:17 | any other scheme gives `null` |

## Left out

- URL parsing: `new URL(...)` is not modelled. `Index.ParseUrn` takes the
  parser's `protocol`, `host` and `pathname` as a `Resolvers.Url` value
  next to the identifier string, and does not check that the two agree.
- `uri` is a URL object in the source and a string here. Preserving a query
  string or fragment in `uri` is not modelled. The model would keep such
  a suffix inside the last URN segment.
- `createParser` is not part of this model. Its matching is rebuilt from
  the template syntax (see above), with non-empty captures, a leading
  `urn` segment and no case folding assumed. That a template whose handler yields
  nothing passes the URN on to the next template follows the library's
  design, not code.
- The directory lookups and the coordinate codec are parameters. No
  encode/decode round trip is claimed. Their `NaN` results are `None`.
- `toLowerCase` is modelled for ASCII letters only.
- Resolvers.Coordinates: decoded coordinates are exact integers. The
  source converts them with `Number(...)` (src/resolvers.ts:45-46), which
  rounds to a double, so coordinates beyond 2^53 differ from the model.
- `async`/`await` is modelled as plain sequential calls. `console.dir` is
  left out.
- ContentUrlResolver.ScenePointer: a token id that does not decode is
  rendered as `NaN,NaN`. This assumes the codec fails on both halves
  together; a codec that throws is not modelled.
- Resolvers.Handle: its guard on the number of captures never fires for
  the table (`Resolvers.TemplateCaptures`). It only keeps the function
  total.
- Index.ParseUrn: the `urn:` branch is stated for any `Url` whose
  protocol is `urn:`. Which strings parse to that protocol is left to the
  URL parser.
- Network naming as written: the generic, v1-by-contract and v2 handlers
  compare the raw protocol with `ethereum`, so `ETHEREUM` gives network
  `ethereum`. The land handler lower-cases first, so it gives `mainnet`.
  Both are kept as written.
