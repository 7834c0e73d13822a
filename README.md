# Sia block explorer core, modelled in Dafny

This project models the core of the Sia block explorer, a small web server
that answers questions about the Sia blockchain by querying the local Sia
daemon. The model covers the following parts:

- **Output resolution** (`hashpage.go`):
  - `findOutputBlock` and `findOutputTransaction` locate a coin output by its
    ID. They scan the miner payouts of a block. In a transaction they scan the
    standard outputs, then each file contract's valid-proof and missed-proof
    outputs, then each revision's new valid-proof and missed-proof outputs.
  - `findOutput` chains two daemon lookups into one of these searches.
- **Dispatch on the daemon's `ResponseType`** (`hashpage.go`):
  - the hash page handler;
  - `parseTransaction`, with its zero-hash guard and its block-summary merge;
  - `parseTransactions`, the loop that concatenates pages.
- **The daemon client** (`api/api.go`):
  - `New`;
  - `Get`, with its status check;
  - `Query`, which assembles a query string in a loop;
  - the parameter list of `GetBlockData`.
- **The hosts page**:
  - `hosts.go`: the projection of host settings into display rows, and the
    handler's index-by-index conversion loop;
  - `static/hosts.js`: the three row comparators, the comparator choice, and
    the unit selection of `formatStorage`.

The ledger's ID derivations are Sia library hashes. The model keeps them as
the uninterpreted function fields of `OutputSearch.IdScheme` and assumes
nothing about them, not even injectivity. Where a property needs a
no-collision fact, that fact is an explicit hypothesis of the lemma.

The daemon, the JSON decoder and the HTML templates are oracles, given as
function-valued parameters:

- `HashDispatch.Env` in the dispatch code;
- `ApiClient.Transport` in the client;
- `decode`/`encode` parameters in the hosts handler.

Modules:

| file | module | models |
|---|---|---|
| sia_types.dfy | SiaTypes | hashes, outputs, file contracts, revisions, transactions, blocks, block summaries, errors |
| output_search.dfy | OutputSearch | `findOutputBlock`, `findOutputTransaction` |
| hash_dispatch.dfy | HashDispatch | `hashPageHandler`, `parseTransaction`, `parseTransactions`, `findOutput` |
| api_client.dfy | ApiClient | `ApiLink`, `New`, `Get`, `Query`, `GetBlockData` |
| hosts.dfy | Hosts | `hostDisplayInfo`, `NewHostDisplayInfo`, `hostsHandler` |
| host_table.dfy | HostTable | `addrSort`, `storageSort`, `priceSort`, `getSortFunc`, `formatStorage` |

Each search loop is a Dafny `method` proved equal to a specification
function:

- `FindOutputBlock` is proved equal to `FindInBlock`.
- `FindOutputTransaction`, with its loops `ScanContracts`, `ScanContract`,
  `ScanRevisions` and `ScanRevision`, is proved equal to `FirstMatch` over
  the search order `Order`.
- `ParseTransactions` is proved equal to `ParseAll`.
- `Query` is proved equal to `Fetch` of `QueryString`.
- `ConvertHosts` is proved equal to `DisplayList`.

Separate lemmas then relate each specification function to an independent
characterisation:

- the least matching position under the search order `Before`;
- a query-string reader;
- a decimal reader;
- the lexicographic order `LexLess`.

## Model

| member | source | states |
|---|---|---|
| OutputSearch.FindInBlockCorrect | hashpage.go:302-309 | the block search succeeds iff some miner payout index derives the ID. It then returns the payout at the smallest such index. Otherwise it fails with "output not found in block" |
| OutputSearch.FindOutputBlock | hashpage.go:302-309 | the payout loop with its early return computes exactly the block search |
| OutputSearch.MinerPayoutRoundTrip | hashpage.go:303-306 | searching a block for the ID of payout `i` finds payout `i` when no earlier payout has the same ID |
| OutputSearch.BeforeIsStrictTotal | hashpage.go:313-344 | the search order over output locations is irreflexive, asymmetric and total |
| OutputSearch.OrderMembers | hashpage.go:313-344 | the transaction search visits every existing output location and nothing else |
| OutputSearch.OrderSorted | hashpage.go:313-344 | the search visits locations in this order: standard outputs, then contracts, then revisions. Within a contract or revision, valid-proof outputs come before missed-proof outputs, and indexes ascend |
| OutputSearch.SearchStopsAtLeastMatch | hashpage.go:313-345 | when the transaction search succeeds, it stops at the least matching location |
| OutputSearch.LeastMatchUnique | hashpage.go:313-345 | at most one location is the least match for an ID |
| OutputSearch.FindInTransactionIsLeastMatch | hashpage.go:313-345 | the transaction search returns `o` iff `o` sits at the earliest location, in search order, whose derived ID equals the target. So a match in an earlier category wins |
| OutputSearch.FindInTransactionNotFound | hashpage.go:345 | the transaction search fails iff no location derives the ID. It then fails with "output not found in transaction" |
| OutputSearch.StandardOutputRoundTrip | hashpage.go:314-318 | searching a transaction for the ID of standard output `i` finds output `i` when no earlier standard output has the same ID |
| OutputSearch.MissedProofFoundAfterValidProofs | hashpage.go:319-331 | consider a transaction with one contract and no standard outputs. A missed-proof output is found when neither the contract's valid-proof outputs nor its earlier missed-proof outputs carry its ID |
| OutputSearch.RevisionSearchIgnoresContractIDs | hashpage.go:332-344 | a revision's proof outputs are identified through `parentID`; the transaction's own contract-ID derivation plays no part |
| OutputSearch.ScanContract | hashpage.go:319-331 | the two inner loops for contract `k` are the first match among its valid-proof outputs (tag true), then its missed-proof outputs (tag false). Their IDs hang off `FileContractID(k)` |
| OutputSearch.ScanRevision | hashpage.go:332-344 | the two inner loops for revision `k` are the first match among its new valid-proof outputs, then its new missed-proof outputs. Their IDs hang off `parentID` |
| OutputSearch.ScanContracts | hashpage.go:319-331 | the loop over the file contracts is the first match over all contracts' proof outputs, contract by contract |
| OutputSearch.ScanRevisions | hashpage.go:332-344 | the loop over the revisions is the first match over all revisions' proof outputs, revision by revision |
| OutputSearch.FindOutputTransaction | hashpage.go:313-345 | the nested loops with early returns compute exactly the transaction search |
| HashDispatch.Classify | hashpage.go:48-59 | a `ResponseType` is one of the five known kinds iff it is one of the five exact strings, and the kind's name is that string |
| HashDispatch.ClassifyName | hashpage.go:48-58 | classification inverts naming for the five known kinds |
| HashDispatch.HashPageDispatch | hashpage.go:33-61 | "Block", "Transaction", "Output", "Address" and "FileContract" each go to their own page with the daemon's reply, and the last three also get the hash. Any other type is a 500 error "siad returned: " plus the reply. A failed lookup or decode is a 500 error |
| HashDispatch.HashPage | hashpage.go:33-61 | every error the handler produces after decoding the hash has status 500. Every page carries the daemon's reply, whose decoded type is one of the five known ones |
| HashDispatch.MergeSummary | hashpage.go:97-103 | the block template gets the block and height from the block reply. Target and size come from the summary, and the expected hashes come from the summary's target |
| HashDispatch.ParseTransaction | hashpage.go:64-114 | the zero hash gives an empty page. A failed lookup or type decode returns that error. A Block reply is decoded, the summaries of its height's `[h, h+1)` query are fetched (with uint64 wrap-around of `h+1`), and the first summary is merged into the block template. A Transaction reply is decoded and rendered with the transaction template. Every decode, summary-query and render error on the way is returned. A type other than Block or Transaction gives an empty page. A non-empty page only comes from a Block or Transaction reply |
| SiaTypes.NextHeight | hashpage.go:92 | `b.Height+1` in uint64 arithmetic: one more than the height, except that the largest height wraps to 0 |
| HashDispatch.ParseTransactionOfBlock | hashpage.go:83-103 | a Block reply is rendered from the reply's block and height and the target, size and expected hash count of the first summary of that height's query |
| HashDispatch.ParseTransactionOfTransaction | hashpage.go:104-111 | a Transaction reply is rendered with the transaction template, never through the block path |
| HashDispatch.ParseTransactions | hashpage.go:117-129 | the loop computes the ordered concatenation of the parsed pages, or the error of the first hash that fails. Only the hashes the loop reaches need their block summary to be available |
| HashDispatch.ParseAllStopsAtError | hashpage.go:121-125 | a hash that fails to parse ends the loop with its error, whatever hashes follow it; those are never parsed |
| HashDispatch.ParseAllOk | hashpage.go:117-129 | `parseTransactions` succeeds iff every hash is reached and parses |
| HashDispatch.ParseAllAppend | hashpage.go:117-129 | the pages for `a + b` are the pages for `a` followed by those for `b`; an error in `a` takes precedence, and `b` is reached only when all of `a` parses |
| HashDispatch.ParseAllSingle | hashpage.go:117-129 | on one hash, `parseTransactions` is `parseTransaction` |
| HashDispatch.ParseAllFirstError | hashpage.go:121-125 | a failure is the error of the first hash that does not parse, and all earlier hashes were reached and parsed |
| HashDispatch.FindOutput | hashpage.go:254-298 | the two lookups and the switch compute exactly `ResolveOutput` |
| HashDispatch.ResolveOutputFound | hashpage.go:254-298 | a successful `findOutput` returns one of three things. For a block creator it is the payout at the least matching index. For a transaction creator it is the output at the least matching location. For any other creator it is the zero output |
| HashDispatch.ResolveOutputDispatch | hashpage.go:254-296 | a failed lookup or decode, at either step, is returned as the error. A block creator is searched with `findOutputBlock`, a transaction creator with `findOutputTransaction` |
| HashDispatch.ResolveOutputFindsLeast | hashpage.go:279-295 | the converse of `ResolveOutputFound`. For a block or transaction creator that decodes, the output at the least matching position is returned. When no position matches, the search's not-found error is returned |
| HashDispatch.ResolveOutputOtherCreator | hashpage.go:279-297 | a creator that is neither a block nor a transaction gives the zero output and no error |
| ApiClient.New | api/api.go:32-38 | a new link has url "http://localhost:" and the given port, unchanged |
| ApiClient.Fetch | api/api.go:41-58 | a transport failure gives no body and that error. A status other than 200 gives the body and the error "Sia Daemon Returned Non-200: " plus the body. Status 200 gives the body and the read error, if any |
| ApiClient.FetchErrorIffNot200 | api/api.go:50-55 | a reply that arrived is an error iff its status is not 200 or its body could not be read |
| ApiClient.ApiLink.Get | api/api.go:41-58 | `Get` fetches `url + port + apiCall` with the outcome above |
| ApiClient.QueryString | api/api.go:62-69 | the query always begins with the call and "?", and it is exactly that for no parameters |
| ApiClient.QuerySeparators | api/api.go:63-68 | each further parameter is appended after exactly one "&". The string ends with the last rendered parameter, never with "&" |
| ApiClient.QueryRoundTrip | api/api.go:62-69 | reading back the query part gives the parameters verbatim and in order, whenever keys hold no "=" or "&" and values hold no "&" |
| ApiClient.ApiLink.Query | api/api.go:61-72 | the loop builds exactly the query string and fetches it |
| ApiClient.DecimalRoundTrip | api/api.go:131-135 | decimal rendering reads back to the number |
| ApiClient.ItoaHeight | api/api.go:131-135 | the rendering is in canonical form (no leading zero, no "-0") and reads back, as a signed decimal, to the height cast to a 64-bit int. Heights below 2^63 are plain decimal digits. Heights from 2^63 on wrap to a negative rendering |
| ApiClient.ItoaHeightUnique | api/api.go:131-135 | exactly one canonical signed decimal denotes a height's 64-bit value, so the rendering is determined by its contract |
| ApiClient.BlockDataParams | api/api.go:127-136 | exactly two parameters, "start" then "finish". Their values are the `Itoa` renderings of the two heights, which read back to the heights below 2^63 |
| ApiClient.ApiLink.GetBlockData | api/api.go:126-147 | the block-data query's error is returned with no blocks. Otherwise the reply is decoded and the decoder's outcome returned |
| HostTable.StrLessIsLex | static/hosts.js:6-7 | JavaScript string `<` is the lexicographic order: a proper prefix, or the first differing character is smaller |
| HostTable.StrLessTrichotomy | static/hosts.js:6-8 | two distinct strings are ordered one way exactly |
| HostTable.StrLessTransitive | static/hosts.js:6-7 | string order is transitive |
| HostTable.AddrSort | static/hosts.js:5-9 | the answer is -1, 0 or 1, and it is 0 iff the addresses are equal |
| HostTable.StorageSort | static/hosts.js:11-13 | negative iff the first row has less total storage, zero iff both have the same |
| HostTable.PriceSort | static/hosts.js:15-17 | negative iff the first row is cheaper, zero iff both have the same price |
| HostTable.AddrSortOrder | static/hosts.js:5-9 | `addrSort` is -1 iff the first address is lexicographically smaller, 1 iff it is larger, and 0 iff they are equal. Swapping the arguments negates it |
| HostTable.NumericSortSigns | static/hosts.js:11-17 | the signs of `storageSort` and `priceSort` are the signs of the storage and price differences; swapping the arguments negates them |
| HostTable.CompareConsistent | static/hosts.js:5-17 | each comparator is antisymmetric in sign, and "not after" is transitive |
| HostTable.GetSortFunc | static/hosts.js:37-52 | address order iff sort is "addr"; storage order iff sort is "storage"; price order when sort is missing or anything else |
| HostTable.ToUpper | static/hosts.js:23 | upper-casing keeps the length, maps every lower-case ASCII letter to its upper-case letter, and keeps every other character |
| HostTable.IndexOf | static/hosts.js:23 | `indexOf` is -1 iff absent, else the first position holding the value |
| HostTable.ChosenFormatChoice | static/hosts.js:22-25 | the format is kept iff its upper-case form is B, KB, MB, GB or TB, and "GB" is used otherwise |
| HostTable.SuffixIndexFound | static/hosts.js:26-30 | after the replacement, the second lookup always finds the unit, so the fallback to index 2 is never taken |
| HostTable.BytesPerUnits | static/hosts.js:31 | the divisor is 1000 to the unit's position: 1, 10^3, 10^6, 10^9, 10^12; an unknown unit gives 10^9 |
| HostTable.FormatStorage | static/hosts.js:21-33 | the text is the formatted quotient of the byte count by 1000 to the chosen unit's position, then " ", then the chosen unit |
| HostTable.FormatStorageEnds | static/hosts.js:32 | the text ends with " " and the format as given when it is known, " GB" otherwise |
| Hosts.NewHostDisplayInfo | hosts.go:20-22 | the row has the host's address, total storage and price, unchanged |
| Hosts.DisplayKeepsOnlyShownFields | hosts.go:14-22 | two hosts give the same row iff they agree on address, storage and price; no other setting matters |
| Hosts.DisplayList | hosts.go:40-43 | the row list has one row per host, and row `i` is host `i` projected |
| Hosts.DisplayListCovers | hosts.go:40-43 | a row is listed iff it is the projection of some host: nothing dropped, nothing added |
| Hosts.ConvertHosts | hosts.go:40-43 | the conversion loop fills a new array of the hosts' length with row `i` = projection of host `i` |
| Hosts.HostsHandler | hosts.go:24-52 | a failed fetch, decode or encode yields a 500 error and no host list. Otherwise the reply is the encoding of the projected rows |

## Left out

- The HTTP plumbing:
  - routing, the server setup and `writeJSON`;
  - `apiGet`, `apiGetHash` and `apiGetBlockData` (network I/O, an oracle here);
  - `http.Get`, `ioutil.ReadAll` and closing the body (the `Transport` oracle).
- JSON encoding and decoding are oracles. Decoding is modelled per response shape, including the `ResponseType` tag.
- `fmt.Sscanf` parsing of the hex hash in `hashPageHandler` and its 400 reply are left out. The model starts from the decoded hash.
- The page renderers `blockPage`, `txPage`, `outputPage`, `addressPage` and `contractPage` are left out. The hash page model ends at the choice of renderer.
- `parseTemplate` is an oracle (`renderBlock`, `renderTransaction`).
- `expectedHashes` is an oracle.
- The Sia ID derivations (`MinerPayoutID`, `SiacoinOutputID`, `FileContractID`, `StorageProofOutputID`) are uninterpreted.
- OutputSearch.StandardOutputRoundTrip: assumes no earlier standard output derives the same ID. The search resolves ID collisions only by its order.
- OutputSearch.MinerPayoutRoundTrip: assumes no earlier payout derives the same ID, for the same reason.
- HashDispatch.ParseTransaction: requires that, when the hash names a block, the successful summary query for that block's height returns at least one summary. The source reads the first summary without checking, and an empty reply would crash it. `ParseTransactions` asks this only of the hashes its loop reaches, up to the first failure.
- HashDispatch.ParseTransaction: Go's nil page is modelled as the empty string, so "no page" and "an empty page" coincide.
- HashDispatch.FindOutput: a creator that is neither a block nor a transaction yields the zero output with no error, as the code does. A stricter resolver would report the output as not found; the model does not.
- HashDispatch.FindOutput: no position of the found output is returned. The code returns only the output.
- ApiClient.FetchErrorIffNot200: the error condition includes a failed body read at status 200, as the code does. It is not "an error exactly when the status is not 200".
- ApiClient.ApiLink.GetBlockData: on a decode failure the model returns no blocks. Go's decoder may leave a partly filled list.
- HostTable.StrLess: compares strings by Unicode scalar value, while JavaScript's `<` compares UTF-16 code units. The two orders agree on text in the Basic Multilingual Plane. They can differ when a character above U+FFFF meets one in U+E000–U+FFFF, where `addrSort` may answer the opposite sign.
- HostTable.FormatStorage: the floating-point division and `toFixed(2)` are the parameter `fixed`. The model states the divisor and the unit, not the digits.
- The price formatting by 10^24 in `populateHostTable` is left out (floating point).
- HostTable.NumericSortSigns: storage and price are unbounded integers. JavaScript numbers are doubles and lose precision above 2^53.
- HostTable.ToUpper: only ASCII letters are upper-cased. Other characters, which `toUpperCase` may map, are kept.
- HostTable.GetSortFunc: takes the parsed query string as a map. `URI.parseQuery` of `window.location.search` is not part of this model.
- `populateHostTable`, `setTableSorting`, `setLocation`, `populateHostCount` and `initPage` are left out: the in-place `sort`, DOM updates, `pushState` and `$.getJSON`.
- Hosts.HostSettings: keeps the three shown fields and a representative few others, not every field of `modules.HostSettings`.
- Several `ApiLink` methods are not part of this model: `BlockChain`, `GetCurrent`, `Siacoins` and `FileContracts`. Each is a GET followed by a JSON decode.
