# Chacha: a verified model

Chacha is a caching HTTP proxy that validates every hit with the origin. It keeps responses in a disk cache with a
size limit, shards that cache over a cluster by rendezvous hashing, and, on macOS, dials through a helper process
that passes sockets back as descriptors. This project models those three parts in Dafny 4.11 and proves what they
promise, for every input, every interleaving and every reachable state. `dafny verify dfyconfig.toml` checks it.

## How it is built

**One specification for every cache.** `LossyMap` is a map in which a Put replaces an entry atomically and any
entry may be lost at any time. The disk refines it (`DiskRuns`), the KV client and its handlers are proved equal to
the owner's disk (`KvProtocol`), and the sharded cluster refines one such map (`ClusterTheorems`).

**Step systems for what runs concurrently.** `DiskModel`, `ProxyModel` and `HelperModel` are states, steps, an
`Enabled` and an `Apply`; runs are sequences of enabled steps. A Put is split where other goroutines can run. A
proxy handler is split at lock, cache read, answer, decision, each chunk and the end, and every server's handlers,
KV requests, evictions and the changing origin interleave freely. The helper's dials finish in any order and its
reads coalesce at will. `Deployment` puts the first two together: its handlers hold readers and temporary files on
disks that are step systems themselves, and every run of it is proved to be a run of `ProxyModel`.

**Classes and loops for what changes in place.** `DiskObject`, `HelperObject`, `KvProtocol`, `Rendezvous` and
`ProxyObject` hold the imperative code, each method proved to perform the step or to compute the function that the
theorems are about.

| module | models |
|---|---|
| `LossyMap` | the specification of a cache |
| `Eviction`, `Sorting`, `DiskModel`, `DiskRuns`, `DiskSize`, `DiskLru`, `DiskLruLimits`, `DiskObject` | `internal/cache/disk` |
| `Base64`, `MetadataJson`, `Utf8Runes`, `KvHeaders`, `KvProtocol` | `internal/cache/kv` and its handlers |
| `Rendezvous` | `internal/server/cluster` |
| `Splitting`, `CacheControl`, `StoragePolicy`, `UrlEscape`, `UrlQuery`, `RawQuery`, `CacheKey` | the parsing, policy and key of `handleProxyDefault` |
| `ProxyModel`, `ProxyObject`, `ProxyRuns`, `ProxyTheorems`, `Progress`, `Freshness`, `Witness`, `ClusterTheorems`, `KvCalls` | `handleProxyDefault` on all servers, over abstract disks |
| `Deployment`, `DeploymentRuns`, `DeploymentSteps`, `DeploymentDisks`, `DeploymentTheorems`, `DeploymentProgress`, `DeploymentFaults` | the same over the disks of `DiskModel`, and the proof that it is the same |
| `DirectConnect`, `DirectConnectRuns` | direct connect |
| `HelperModel`, `HelperRuns`, `HelperDelivery`, `HelperProgress`, `HelperObject` | `pkg/localnetworkhelper` |

## What the code does not do

Where a promise fails, the model keeps the code as it is and says exactly when it holds.

- A size limit above 2^63 is not respected: the `uint64` sum wraps (`DiskSize.SizeBoundIsExact`).
- An entry carries the time at which its temporary file was written, not the time at which it was accepted, so
  eviction is least-recently-used exactly up to entries that were overtaken in between
  (`DiskLru.EvictsLeastRecentlyUsed`, `DiskLruLimits.LateAcceptIsTakenForOld`).
- Client headers are copied over the cached ETag, so a client's own `If-None-Match` can turn a stale entry into a
  hit; and an ETag that is not valid UTF-8 is altered by JSON before it is stored (`Witness.FreshnessIsExact`).
- A read error on the owner's disk after the first buffer ends `handleClusterGet`'s response early but cleanly, so
  the asking node takes the shorter blob for the whole one (`DiskObject.LateErrorsAreLost`, `KvProtocol.Client.Get`,
  `Witness.ShortHitsHappen`).
- An error of the server's own disk, or of the client's connection, comes after status 200, so the client gets a
  prefix of the entry, or nothing of it, as a success (`ProxyTheorems.CutOffIsPrefix`, `Witness.CutOffsHappen`).
- The lock of a key is released when its handler returns, but a Put that has reached another server goes on, so it
  can replace a newer entry (`Witness.LatePutReplacesNewer`); hits stay fresh, since they are always validated.
- With an empty secret the KV client sends no credentials and is refused; an owner without a cluster answers 404,
  which the client takes for a missing entry (`KvProtocol.Client.Get`).
- Of several field lines of one name only the last is passed on, in either direction (`ProxyObject.LastValueIsLast`,
  `ProxyObject.DownstreamHeaders`).
- Commas inside quoted arguments are taken for separators (`CacheControl.QuotedCommasAreMisread`).
- A successful dial yields its connection only if its response is the first of its read and no other response in
  that read has a descriptor (`HelperDelivery.DeliversExactly`).

## Assumptions

- SHA-256 is injective on the keys in use: the directory is keyed by key.
- The container of an entry is its metadata after JSON, its blob and a size of its own, at least the blob's and
  below 2^63. Files have POSIX unlink and rename semantics. Each disk step has a time of its own; times that tie in
  the listing may be ordered either way.
- The rank of a node for a key is a parameter. Placement and refinement of the cluster assume no ties, one node set
  and one secret on all servers, all of whose disks start empty.
- A token's signature verifies under the secret that made it and no other.
- The helper's tokens are fresh, its reads return whole messages, a failed write delivers no complete request, and
  errors of the runtime have a text.
- The origin of `Freshness` answers 200 only with its current version and 304 only if the precondition is its
  current ETag, and its ETags determine its bodies.
- The server passes on paths that are empty, start with a slash or are `*`, as `net/http` does.
- A blob is read in whole buffers; a read that fails yields nothing.
- Which rule matches a URL, clocks, I/O failures and the order of concurrent steps are parameters.

## Model

| member | source | states |
|---|---|---|
| `LossyMap.OnlyTheLastPutIsVisible` | internal/cache/disk/disk.go:48-150 | The specification of every cache: whatever a run of the lossy map shows under a key is the entry of the last Put of that key, never an older or mixed one |
| `LossyMap.GetsReturnTheLastPut` | internal/cache/disk/disk.go:48-85 | Every Get of a run answers not-found or the last Put of its key |
| `Eviction.RemoveStopsFirst` | internal/cache/disk/disk.go:295-308 | The removal loop, in `uint64` arithmetic and with removals that may fail, stops at the first suffix that passes the wrapped test or before the first file it cannot remove |
| `Eviction.NoWrap` | internal/cache/disk/disk.go:297 | Below 2^64 the wrapped test is the integer test on every suffix of the listing |
| `Eviction.MinimalEviction` | internal/cache/disk/disk.go:253-309 | When nothing wraps and removals succeed, the removed prefix is the shortest that leaves room; it is empty when the entry already fits or can never fit; success exactly when the entry is within the limit. The order of ties is arbitrary |
| `Sorting.SortPermutes` | internal/cache/disk/disk.go:287-289 | The sorted listing is a permutation of the listing, ordered by modification time |
| `Sorting.SortDistinct` | internal/cache/disk/disk.go:287-289 | Sorting keeps the names distinct and the listing the same set of files |
| `DiskModel.ApplyKeepsWellFormed` | internal/cache/disk/disk.go:48-309 | Every step of every interleaving keeps the directory well formed: names point at sealed files of their own key, temporary files are not named, readers hold existing inodes |
| `DiskModel.FilesStay` | internal/cache/disk/disk.go:87-150 | A sealed file is never rewritten, by any step; only its time changes |
| `DiskModel.NamesAfter` | internal/cache/disk/disk.go:176-190 | Only `accept` and a successful `Delete` change the directory |
| `DiskRuns.StepRefines` | internal/cache/disk/disk.go:48-309 | Every step of the disk is the step of the lossy map that it means; a Put takes effect at the rename |
| `DiskRuns.RunRefines` | internal/cache/disk/disk.go:48-309 | A run of concurrent Gets, multi-step Puts and Deletes is, event by event, a run of the lossy map |
| `DiskRuns.FailedPutOnlyLoses` | internal/cache/disk/disk.go:87-150 | A Put that fails at any point leaves each key unchanged or absent |
| `DiskRuns.ReaderSurvives` | internal/cache/disk/disk.go:200-233 | An open reader keeps yielding the entry of Get time through later Puts, Deletes and evictions |
| `DiskRuns.GetYieldsTheLastPut` | internal/cache/disk/disk.go:48-85 | In a run from an empty directory, what a Get opens, read at any later time, is exactly the last accepted Put of the key |
| `DiskSize.ListingAddsUp` | internal/cache/disk/disk.go:267-293 | The sum over any ordering of the listing is the size of the directory |
| `DiskSize.NeverWraps` | internal/cache/disk/disk.go:291-297 | Within the bound, `usedBytes + needBytes` stays below 2^64, so no sum or difference of the loop wraps |
| `DiskSize.EvictMakesRoom` | internal/cache/disk/disk.go:295-308 | If `evict` succeeds, what is left and the new entry fit |
| `DiskSize.StepKeepsBound` | internal/cache/disk/disk.go:235-309 | Every step keeps the total at or below the limit: overwrites, failed accepts and failed removals included |
| `DiskSize.SizeBound` | internal/cache/disk/disk.go:235-309 | In every run from an empty directory the total stays at or below a limit of at most 2^63 |
| `DiskSize.OverflowingRunExceeds` | internal/cache/disk/disk.go:291-299 | For every limit above 2^63 a run of three Puts ends with 2^64 bytes in the directory, because the sum that the loop compares wraps to zero |
| `DiskSize.SizeBoundIsExact` | internal/cache/disk/disk.go:235-309 | The limit is respected by every run if and only if it is at most 2^63 |
| `DiskLru.TimeIsLastStamp` | internal/cache/disk/disk.go:62-75 | In every run the time of a file is the position of its last stamp: the end of its writing or the last Get that found it |
| `DiskLru.EvictsLeastRecentlyStamped` | internal/cache/disk/disk.go:253-309 | In every run everything a Put evicts was last stamped before everything that survives |
| `DiskLru.OrdersDisagreeExactly` | internal/cache/disk/disk.go:62-75 | Of two entries one looks older though it was accessed later if and only if it was overtaken: its last access is its acceptance, and the other got its last stamp and last access between its writing and that acceptance |
| `DiskLru.EvictsLeastRecentlyUsed` | internal/cache/disk/disk.go:253-309 | In every run an evicted entry was last accessed before a survivor if and only if the survivor did not overtake it |
| `DiskLru.AtomicPutsAreNotOvertaken` | internal/cache/disk/disk.go:87-150 | When Puts write and rename at once nothing is overtaken, so eviction is least-recently-used |
| `DiskLruLimits.LateAcceptIsTakenForOld` | internal/cache/disk/disk.go:130-147 | A run in which an entry is overtaken while it waits to be accepted, and is evicted before one that was accessed earlier |
| `DiskObject.Disk.constructor` | internal/cache/disk/disk.go:34-46 | An empty directory with the given limit |
| `DiskObject.Disk.ReadDir` | internal/cache/disk/disk.go:267-285 | Each file of the directory exactly once, with its size and time |
| `DiskObject.SumSizes` | internal/cache/disk/disk.go:291-293 | The `uint64` sum of the sizes, equal to the true sum modulo 2^64 |
| `DiskObject.Disk.RemoveOldest` | internal/cache/disk/disk.go:295-308 | The loop with the running `uint64` counter removes exactly what `Eviction.Remove` says, which is defined without the counter |
| `DiskObject.Disk.Evict` | internal/cache/disk/disk.go:253-309 | Listing, sorting, summing and removing together perform the eviction of the model for some modification-time order, and nothing when listing fails |
| `DiskObject.Disk.Accept` | internal/cache/disk/disk.go:235-251 | Performs the Accept step; the key is bound only if room was made and the rename succeeded |
| `DiskObject.AcceptsWhatFits` | internal/cache/disk/disk.go:235-251 | Without faults an entry is accepted if and only if it is no larger than the limit |
| `DiskObject.Disk.Get` | internal/cache/disk/disk.go:48-85 | Performs the Get step: finds what is visible, stamps it and opens it; which failures leave the new time and which do not |
| `DiskObject.Disk.CopyOut` | internal/server/handle_kv.go:41-48 | Reading a buffer at a time yields the whole blob of Get time, or exactly the whole buffers before the read that fails; any error leaves the reader open |
| `DiskObject.LateErrorsAreLost` | internal/server/handle_kv.go:41-44 | A read that breaks in its first buffer is answered with 500; one that breaks later is answered with 200 and a proper, non-empty prefix of the blob |
| `DiskObject.FaultsShow` | internal/cache/disk/disk.go:235-309 | Whether listing, removing or renaming fails, the Put fails |
| `DiskObject.Disk.Delete` | internal/cache/disk/disk.go:176-190 | Removes the name, reports a missing entry, and changes nothing on failure |
| `DiskRuns.IsInvisible` | internal/cache/disk/disk.go:87-137 | Writing a temporary file, dropping it, reading and closing change nothing that a Get returns |
| `DiskObject.Disk.Begin` | internal/cache/disk/disk.go:88-115 | Performs the Begin step: the temporary file exists and no Get sees it |
| `DiskObject.Disk.Copy` | internal/cache/disk/disk.go:117-123 | Performs the Copy step: the next bytes are in the temporary file and no Get sees them |
| `DiskObject.Disk.Seal` | internal/cache/disk/disk.go:125-137 | Performs the Seal step: the container is complete, carries the time of its last write, and no Get sees it |
| `DiskObject.Disk.Abort` | internal/cache/disk/disk.go:117-123 | Performs the Abort step: the temporary file is gone and no Get notices |
| `DiskObject.Disk.WriteTemporary` | internal/cache/disk/disk.go:88-137 | Draining the reader a buffer at a time leaves a complete temporary file, or none if the reader fails anywhere |
| `DiskObject.Disk.Put` | internal/cache/disk/disk.go:87-150 | Run to completion, binds the key to the whole blob and the metadata as JSON keeps it, losing only what was evicted, or only loses; loses nothing if the body breaks off or the entry is larger than the limit; succeeds if nothing fails and it fits |
| `Base64.RoundTrip` | internal/cache/kv/header.go:17 | Decoding undoes encoding for all bytes (section 4 of RFC 4648) |
| `Base64.SymbolsAreTheAlphabet` | internal/cache/kv/header.go:17 | The alphabet of table 1 of section 4 of RFC 4648, character by character |
| `Base64.TestVectors` | internal/cache/kv/header.go:17 | The texts of section 10 of RFC 4648, padding included |
| `MetadataJson.UnescapeEscape` | internal/cache/cache.go:11-13 | A JSON string literal reads back as the original with every invalid byte replaced by U+FFFD |
| `MetadataJson.UnmarshalMarshal` | internal/cache/disk/info.go:14-47 | Metadata reads back from its JSON text with that replacement and no other change |
| `MetadataJson.SurvivesExactlyIfValid` | internal/cache/disk/info.go:14-47 | It reads back unchanged if and only if the ETag is valid UTF-8 |
| `Utf8Runes.EncodedIsValid` | internal/cache/disk/info.go:14-47 | The UTF-8 of any Unicode scalar values is valid |
| `Utf8Runes.ValidIsEncoded` | internal/cache/disk/info.go:14-47 | Every valid ETag is the UTF-8 of some Unicode scalar values |
| `Utf8Runes.CoercesExactly` | internal/cache/disk/info.go:14-47 | Scalar values of an ETag stay, and each byte at which none starts becomes U+FFFD |
| `MetadataJson.MarshalledForm` | internal/cache/cache.go:11-13 | Plain metadata prints as an object with the one member `etag`, and an empty ETag as an empty object |
| `MetadataJson.EscapedForms` | internal/cache/cache.go:11-13 | The two-character escapes of the ETag's literal |
| `MetadataJson.EscapedByCode` | internal/cache/cache.go:11-13 | Other unsafe characters are shown by four lower-case hexadecimal digits |
| `MetadataJson.CoercedTwice` | internal/cache/kv/header.go:50-59 | The replacement is idempotent, so one more trip through JSON changes nothing |
| `KvHeaders.SetKey` | internal/cache/kv/header.go:28-34 | Sets the header `X-Chacha-Key`, from which `GetKey` returns every non-empty key; an empty key reads as missing |
| `KvHeaders.SetMetadata` | internal/cache/kv/header.go:50-59 | Sets the header `X-Chacha-Metadata`, from which `GetMetadata` returns the metadata, replacement included |
| `KvHeaders.KeyRoundTrip` | internal/cache/kv/header.go:19-34 | `GetKey` after `SetKey` on any header map |
| `KvHeaders.MetadataRoundTrip` | internal/cache/kv/header.go:36-59 | `GetMetadata` after `SetMetadata` returns the metadata unchanged if and only if the ETag is valid UTF-8 |
| `KvHeaders.PasswordRoundTrip` | internal/server/handle_kv.go:85-92 | Basic authentication carries any secret, colons included |
| `KvHeaders.PasswordFollowsFirstColon` | internal/server/handle_kv.go:85-92 | Whatever the case of the scheme and whoever the user is, the password is what follows the first colon (section 2 of RFC 7617) |
| `KvHeaders.OtherSchemesAreRefused` | internal/server/handle_kv.go:85-88 | Credentials of another scheme, or none, are no password |
| `KvProtocol.Server.PerformClusterAuth` | internal/server/handle_kv.go:79-95 | Refused with 404 without a cluster, with 401 unless the password is the secret, and not otherwise |
| `KvProtocol.Server.HandleClusterGet` | internal/server/handle_kv.go:13-52 | Status, metadata header, body and disk effect for every request: refused, malformed, missing, failing, read to the end, or broken off at a given offset |
| `KvProtocol.Server.HandleClusterPut` | internal/server/handle_kv.go:54-77 | Status and disk effect for every way the upload can go, on metadata as `SetMetadata` writes it |
| `KvProtocol.Client.NewRequest` | internal/cache/kv/kv.go:44-58 | The request has exactly the key header and, with a secret, basic credentials with an empty user; the owner reads the same key and password |
| `KvProtocol.Client.Get` | internal/cache/kv/kv.go:40-85 | Composed with the handler: with equal non-empty secrets and a non-empty key, the metadata, blob, not-found and disk effect of a Get on the owner's disk, for every ETag; otherwise an error (not-found if the owner has no cluster) and no effect. A read that breaks is an error if it breaks in the first buffer; otherwise exactly the buffers read so far arrive as a complete blob |
| `KvProtocol.Client.Put` | internal/cache/kv/kv.go:87-125 | Composed with the handler: exactly the effect of a Put on the owner's disk, for every ETag; otherwise a failure and no effect |
| `KvProtocol.StoredMetadataSurvives` | internal/server/handle_kv.go:35-39 | The metadata of any stored entry passes through its header unchanged |
| `Rendezvous.Cluster.constructor` | internal/server/cluster/cluster.go:16-24 | The configured list becomes a set: duplicates and order do not matter |
| `Rendezvous.Cluster.TargetNode` | internal/server/cluster/cluster.go:34-44 | Collecting in any order, sorting in place and taking the first yields a node that ranks first; without ties the one such node |
| `Rendezvous.Sort` | internal/server/cluster/cluster.go:41 | In place: ordered by rank, a permutation |
| `Rendezvous.AddingMovesOnlyToTheNewNode` | internal/server/cluster/cluster.go:34-44 | Adding a node leaves the target of a key or makes it the new node |
| `Rendezvous.RemovingMovesOnlyItsKeys` | internal/server/cluster/cluster.go:34-44 | Removing a node changes the target only of the keys it owned |
| `CacheControl.HeadersContainDirective` | internal/server/handle_proxy_default.go:351-365 | The nested loops find a segment whose name matches, if and only if there is one |
| `CacheControl.JoiningLines` | internal/server/handle_proxy_default.go:351-365 | Joining any number of field lines with commas does not change the answer (section 5.3 of RFC 9110) |
| `CacheControl.ReorderingLines` | internal/server/handle_proxy_default.go:351-365 | Nor does reordering or repeating them |
| `CacheControl.ValueOfBlanks` | internal/server/handle_proxy_default.go:351-365 | Nor do blanks around a value |
| `CacheControl.ChangingCase` | internal/server/handle_proxy_default.go:351-365 | Nor does changing the case of the value |
| `CacheControl.FoldsExactly` | internal/server/handle_proxy_default.go:358 | Against an ASCII character exactly the two cases of a letter match, and the long s and the Kelvin sign, by code point |
| `CacheControl.RecasingLetters` | internal/server/handle_proxy_default.go:351-365 | Changing the case of any ASCII letters of any values, position by position, does not change the answer |
| `CacheControl.BlanksExactly` | internal/server/handle_proxy_default.go:358 | The blanks that are trimmed are the White_Space characters of Unicode, by code point |
| `CacheControl.PrintedList` | internal/server/handle_proxy_default.go:351-365 | On any printed list of directives the answer is yes exactly when one has the name, or an argument hides one behind a comma |
| `CacheControl.PrintedListIsExact` | internal/server/handle_proxy_default.go:351-365 | With comma-free arguments the answer is exact |
| `CacheControl.PrintedListsAreRead` | internal/server/handle_proxy_default.go:351-365 | On printed lists of ASCII directives the answer is exactly whether the directive is there, in any case of its letters |
| `CacheControl.QuotedCommasAreMisread` | internal/server/handle_proxy_default.go:355 | A quoted argument with a comma makes the code see a directive that is not there |
| `StoragePolicy.IsCacheableCacheControl` | internal/server/handle_proxy_default.go:323-333 | True exactly when neither `no-store` nor `private` is present |
| `StoragePolicy.CacheControlExplicitlyAllows` | internal/server/handle_proxy_default.go:335-349 | True exactly when `must-revalidate`, `public` or `s-maxage` is present |
| `StoragePolicy.ShouldCache` | internal/server/handle_proxy_default.go:279-321 | True exactly when the policy of sections 3 and 3.5 of RFC 9111 lets the response be stored |
| `StoragePolicy.PolicyOnPrintedFields` | internal/server/handle_proxy_default.go:279-349 | The policy on fields as they are printed, in terms of the directives listed: a rule, GET, 200, no Vary, neither `no-store` nor `private` on either side, no `no-cache` in Pragma, and for authorised requests one of the three directives or the override |
| `UrlEscape.UnescapeEscape` | internal/server/handle_proxy_default.go:259-264 | Percent-decoding undoes percent-encoding for every byte string (section 2.1 of RFC 3986), for hosts, paths and query components |
| `UrlEscape.EscapedAway` | internal/server/handle_proxy_default.go:259-264 | A byte that must be escaped does not occur in escaped text |
| `RawQuery.EscapesExactly` | internal/server/handle_proxy_default.go:259-264 | Which bytes each part of a URL keeps, by character; all others become a percent sign and two upper-case digits, a space in a query a plus sign |
| `RawQuery.ReadsPieces` | internal/server/handle_proxy_default.go:251 | Whatever way a client writes bytes (as they are, a plus for a space, percent signs and digits in either case) the parser reads those bytes |
| `RawQuery.BrokenIsRefused` | internal/server/handle_proxy_default.go:251 | A percent sign that two hexadecimal digits do not follow makes a name or value unreadable |
| `RawQuery.ReadsQuery` | internal/server/handle_proxy_default.go:251 | On any raw query each name has exactly its values in their order: with or without an equals sign, empty segments skipped, segments with a semicolon or a bad escape dropped |
| `RawQuery.IsQuery` | internal/server/handle_proxy_default.go:251 | Every byte string is such a raw query |
| `UrlQuery.ParseEncode` | internal/server/handle_proxy_default.go:251-263 | The query parser undoes the sorted query printer, for every map without empty lists |
| `UrlQuery.EncodeIsInjective` | internal/server/handle_proxy_default.go:263 | Equal printed queries come from equal maps |
| `UrlQuery.FirstDifferenceDecides` | internal/server/handle_proxy_default.go:263 | Names are in byte order: a proper prefix comes first, otherwise the first byte that differs decides |
| `UrlQuery.SortNames` | internal/server/handle_proxy_default.go:263 | The names in strictly increasing order, each once |
| `CacheKey.ComputeKey` | internal/server/handle_proxy_default.go:244-267 | Deleting the ignored parameters one by one and printing gives the key of the specification |
| `CacheKey.PathsPrintAlike` | internal/server/handle_proxy_default.go:259-266 | Two paths print alike if and only if they agree once a missing first slash is put in; `*` prints like no other path |
| `CacheKey.UrlsPrintAlike` | internal/server/handle_proxy_default.go:259-266 | Two URLs print alike if and only if scheme, host and query agree, and the paths up to a missing first slash |
| `CacheKey.SameKeyExactly` | internal/server/handle_proxy_default.go:244-267 | Under one rule any two requests share a key if and only if scheme, host, slashed path and the parsed query without ignored names agree, value order included; for the paths that the server passes on (empty, with a first slash, or `*`) if and only if the paths themselves agree |
| `CacheKey.SameKeyAsWritten` | internal/server/handle_proxy_default.go:244-267 | The same in terms of what clients write: keys agree if and only if scheme, host and path agree and every name that is not ignored is given the same values in the same order, however they are written |
| `CacheKey.EveryQueryIsWritten` | internal/server/handle_proxy_default.go:251 | So that is said of all requests |
| `CacheKey.KeysNameTheScheme` | internal/server/handle_proxy_default.go:244-266 | A key starts with `https://` or `http://`, as the request came |
| `CacheKey.KeysInOrder` | internal/server/handle_proxy_default.go:259-266 | Then come the escaped host, the escaped path and, behind a question mark, the query if there is any |
| `CacheKey.KeysAreAscii` | internal/server/handle_proxy_default.go:244-267 | A key is ASCII whatever the request holds |
| `ProxyObject.RemoveEndToEndHeaders` | internal/server/handle_proxy_default.go:367-391 | Exactly the eight hop-by-hop names, spelled out, are gone |
| `ProxyObject.UpstreamHeaders` | internal/server/handle_proxy_default.go:100-113 | None of the eight hop-by-hop names is sent; every other name, `Authorization` and `Range` among them, carries the client's last value; the cached ETag goes as `If-None-Match` only where the client brought none |
| `ProxyObject.LastValueIsLast` | internal/server/handle_proxy_default.go:106-110 | Of several values of a name the last one counts |
| `ProxyObject.OriginHeaders` | internal/server/handle_proxy_default.go:131-142 | The client gets the last value of each of the origin's headers, except the eight hop-by-hop ones and the direct-connect hint |
| `ProxyObject.DownstreamHeaders` | internal/server/handle_proxy_default.go:131-202 | The hint reaches the client exactly if this server redirects and its rule says so, whatever the origin sends; a redirect has its own location |
| `ProxyObject.Precondition` | internal/server/handle_proxy_default.go:100-113 | The precondition of the step system is the one these headers carry |
| `ProxyObject.PickCache` | internal/server/handle_proxy_default.go:269-277 | The disk used for a key belongs to a node that ranks first for it; remote only if that is another node |
| `ProxyRuns.StepKeepsInv` | internal/server/handle_proxy_default.go:20-242 | One step of any handler on any server, an eviction or a change at the origin keeps the invariant on stored records, disks, handlers and locks |
| `ProxyRuns.RunKeepsInv` | internal/server/handle_proxy_default.go:20-242 | The invariant holds in every reachable state of the deployment |
| `Progress.DecideExactly` | internal/server/handle_proxy_default.go:149-239 | Exactly when a handler refreshes its entry, redirects, serves it or passes the response through, as it shows in the handler |
| `Progress.WaitingGetsToAsk` | internal/server/handle_proxy_default.go:44-68 | From every reachable state a handler whose key is free on its server gets, by steps of its own, the lock and what the owner's disk shows, and can take any answer |
| `Progress.StorableGetsStored` | internal/server/handle_proxy_default.go:150-168 | From every reachable state in which the answer may be stored, whatever was found in the cache, the handler's own steps lead to a state where the client has the whole body and the owner's disk shows it |
| `Progress.ConfirmedGetsServed` | internal/server/handle_proxy_default.go:169-224 | From every reachable state in which the origin has confirmed what was found, and no redirect is due, its own steps lead to a hit that has sent the whole entry |
| `Progress.NoSecretNoRemoteCache` | internal/cache/kv/kv.go:49-52 | With an empty secret no handler of another server's key ever gets past asking that server |
| `Progress.RefreshCanBreakOff` | internal/server/handle_proxy_default.go:150-161 | From every reachable state a refresh can break off after any part of the body, which the client then has, with the Put failed |
| `Progress.AnythingCanFail` | internal/server/handle_proxy_default.go:52-241 | Looking, asking, putting and serving can fail wherever they happen |
| `Progress.AnythingCanHappen` | internal/server/handle_proxy_default.go:20-44 | Requests arrive on any server, entries get lost and the origin changes at any time |
| `ProxyTheorems.HitCoherence` | internal/server/handle_proxy_default.go:46-224 | A hit that ends without a read error has sent the whole blob of one accepted Put of the key, the Put whose ETag went upstream unless the client brought its own precondition |
| `ProxyTheorems.BrokenHitsAreRemote` | internal/server/handle_proxy_default.go:205-209 | A handler can miss a read error only of another server's disk, and has then sent a proper, non-empty prefix of the blob |
| `ProxyTheorems.CutOffIsPrefix` | internal/server/handle_proxy_default.go:201-209 | A handler that sees an error while it serves a hit has answered 200 before and has sent a prefix of the blob of an accepted Put |
| `Witness.ShortHitsHappen` | internal/server/handle_proxy_default.go:205-209 | In every cluster with a secret, for every stored body and every way of reading it that breaks past the first buffer, a run in which another node's client gets exactly what was read so far, as a hit |
| `Witness.ShortHitsAreYields` | internal/server/handle_proxy_default.go:205-209 | Conversely what a broken hit has sent is what some such way of reading yields |
| `Witness.CutOffsHappen` | internal/server/handle_proxy_default.go:201-209 | On any server, for every stored body and every cut, even before the first byte, a run in which the client gets status 200 and the body cut there |
| `ProxyTheorems.OnlyStorableIsStored` | internal/server/handle_proxy_default.go:150-168 | Whatever any disk shows in any reachable state is the whole body of a response that the storage policy allowed |
| `ProxyTheorems.MissConservation` | internal/server/handle_proxy_default.go:150-168 | During a refresh the client is ahead of the Put by no more than the chunk in hand and level with it whenever the Put can look, both with a prefix of the upstream's body; after a successful Put client, upstream and stored blob are the same; after a failed one the client has a prefix |
| `ProxyTheorems.ShortWritesFail` | internal/server/handle_proxy_default.go:152-161 | After a write to the client that took less than the chunk, the only step left to the handler is that the Put fails |
| `ProxyTheorems.Exclusion` | internal/server/handle_proxy_default.go:44-47 | On one server no two handlers of a key are between lock and return |
| `Witness.LatePutReplacesNewer` | internal/cache/kv/kv.go:110-115 | The lock does not cover a Put on another server whose client went away: an honest run in which such a Put is accepted after a later one of the same server and key, and the owner then shows the older response |
| `ProxyTheorems.RunKeepsKnowing` | internal/server/handle_proxy_default.go:44-68 | Without a cluster, a handler that has read the cache knows the latest entry of its key as long as that is on the disk |
| `ProxyTheorems.SendsTheLatestETag` | internal/server/handle_proxy_default.go:44-110 | So a request without a precondition of its own goes upstream with the ETag of the latest accepted Put, unless the entry was lost or has none |
| `ProxyTheorems.DisksOnlyLose` | internal/server/handle_proxy_default.go:150-168 | A step shows on a disk only what was there, except for the key of an accepted Put |
| `Freshness.HonestRunKeepsFresh` | internal/server/handle_proxy_default.go:20-242 | In runs with an honest origin every stored response and every exchange agrees with a version that the origin had |
| `Freshness.HitsAreFresh` | internal/server/handle_proxy_default.go:100-224 | Then a hit without a read error has sent the body that the origin had when it answered 304, if the client brought no precondition and the stored ETag is valid UTF-8, or its precondition is empty or the stored ETag |
| `Witness.UnsafeIsServedStale` | internal/server/handle_proxy_default.go:100-110 | In all other cases, on any server and for any key and body, a run with an honest origin in which the hit sends a body that the origin no longer has |
| `Witness.FreshnessIsExact` | internal/server/handle_proxy_default.go:100-224 | Over all runs with an honest origin, hits on an entry stored with an ETag are fresh for a request if and only if that condition holds |
| `ClusterTheorems.Placement` | internal/server/handle_proxy_default.go:269-277 | In every reachable state every entry on a node's disk has that node as its owner |
| `KvCalls.OneHop` | internal/server/handle_proxy_default.go:269-277 | In every run every KV request goes from a server that does not own the key straight to the one that does, and no handler makes a second one for the same operation |
| `KvCalls.CallsAreRecorded` | internal/server/handle_proxy_default.go:269-277 | In every run each handler that has used another server's disk has made its KV requests for it |
| `KvCalls.NoHopAtHome` | internal/server/handle_proxy_default.go:269-277 | A handler on the node that owns its key makes no KV request |
| `KvCalls.ServingIsLocal` | internal/server/handle_kv.go:13-77 | Serving a KV request makes no further one and changes no disk but the server's own |
| `ClusterTheorems.StepRefines` | internal/server/handle_proxy_default.go:20-277 | Every step of the sharded cluster is a step of one lossy map |
| `ClusterTheorems.RunRefines` | internal/server/handle_proxy_default.go:20-277 | Every run of the cluster is a run of one lossy map, whichever node serves the requests |
| `ClusterTheorems.AnyNodeReadsTheLastPut` | internal/server/handle_proxy_default.go:60-68 | A handler on any node reads the last entry that any node stored under the key, or nothing |
| `DeploymentDisks.StepSimulates` | internal/server/handle_proxy_default.go:20-242 | Every step of handlers, KV requests, temporary files (with their handlers or after them), readers and directories is a step of `ProxyModel`, or none while a temporary file is written |
| `DeploymentTheorems.RunSimulates` | internal/server/handle_proxy_default.go:20-277 | Every run of the deployment, in which handlers hold readers and temporary files on real disks, is a run of `ProxyModel`, in which disks are lossy maps |
| `DeploymentProgress.WaitingGetsToAsk` | internal/server/handle_proxy_default.go:44-68 | Over real disks: up to the origin, with what the owner's directory shows |
| `DeploymentProgress.StorableGetsStored` | internal/server/handle_proxy_default.go:150-168 | Over real disks: if the entry fits the limit and nothing fails, whatever was found, the client gets the whole body and the owner's directory names a file that holds it |
| `DeploymentProgress.ConfirmedGetsServed` | internal/server/handle_proxy_default.go:169-224 | Over real disks: a confirmed entry can be streamed to its end |
| `DeploymentProgress.LookingCanFail` | internal/server/handle_proxy_default.go:56-68 | Over real disks: looking can fail wherever it happens, before and after the entry is stamped |
| `DeploymentProgress.PuttingCanFail` | internal/server/handle_proxy_default.go:154-161 | Over real disks: a Put can fail at any time |
| `DeploymentProgress.HandlersCanFail` | internal/server/handle_proxy_default.go:64-241 | Over real disks: so can asking the origin and serving |
| `DeploymentProgress.AnythingCanHappen` | internal/server/handle_proxy_default.go:20-44 | Over real disks: the same, with deletions |
| `DeploymentFaults.PutsCanBeAbandoned` | internal/cache/kv/kv.go:87-125 | From every reachable state a client can leave once the Put on another server has the whole request; the key is free again while the Put goes on |
| `DeploymentFaults.AbandonedPutsStore` | internal/server/handle_kv.go:54-77 | From then on an abandoned Put can store its entry by itself |
| `DeploymentFaults.UnacknowledgedPutsStore` | internal/cache/kv/kv.go:87-125 | A Put on another server can store its entry although its handler reports a failure |
| `DeploymentFaults.RefreshCanBreakOff` | internal/server/handle_proxy_default.go:150-161 | Over real disks: a refresh can break off after any part of the body, with the directories as they were |
| `DeploymentFaults.ServingCanStop` | internal/server/handle_proxy_default.go:205-211 | Over real disks: serving can stop after any part of the entry, and, on another server's disk, pass for a hit |
| `DeploymentTheorems.DeployedHitCoherence` | internal/server/handle_proxy_default.go:46-224 | Hit coherence down to the disks: what was streamed from the reader is the whole blob of one accepted Put of the key, whose ETag went upstream unless the client brought its own precondition |
| `DeploymentTheorems.DeployedStorage` | internal/server/handle_proxy_default.go:150-168 | Storage policy and placement down to the directories: every named file holds the whole body of a response that the policy allowed, on the disk of the key's owner |
| `DeploymentTheorems.DeployedMissConservation` | internal/server/handle_proxy_default.go:150-168 | Miss conservation over real disks: client and Put level whenever the Put can look, whole bodies on success, a prefix on failure |
| `DeploymentTheorems.DeployedExclusion` | internal/server/handle_proxy_default.go:44-47 | Per-key exclusion of the handlers of one server |
| `DeploymentTheorems.DeployedFreshness` | internal/server/handle_proxy_default.go:100-224 | With an honest origin a hit that is safe for the request has streamed from the disk the body that the origin had when it answered |
| `DeploymentTheorems.DeployedRefinement` | internal/server/handle_proxy_default.go:20-277 | In a cluster, what the directory of a key's owner shows is what one lossy map shows that took the Puts, losses and Gets of all nodes |
| `DeploymentTheorems.DeployedSizeBound` | internal/cache/disk/disk.go:235-309 | Every disk of every run of the deployment respects a limit of at most 2^63 |
| `DirectConnect.PerformAuth` | internal/server/handle_direct_connect.go:88-135 | A refusal is 404 without a cluster and 401 with one |
| `DirectConnect.GrantedExactly` | internal/server/handle_direct_connect.go:88-135 | A token of any origin is granted if and only if it is signed with HS256 under the cluster's secret, names the issuer `chacha` and the audience `direct-connect`, and is in time; then for its subject |
| `DirectConnect.AcceptedExactly` | internal/server/handle_direct_connect.go:72-135 | A token is accepted by exactly the nodes with its secret, for exactly the whole seconds from ten before its issue to 610 after, and then for its key as JSON keeps it (sections 4.1.4 and 4.1.5 of RFC 7519) |
| `DirectConnect.GrantsTheKey` | internal/server/handle_direct_connect.go:72-135 | For a key that is valid UTF-8 the granted key is the very key |
| `DirectConnect.TokenTravels` | internal/server/handle_proxy_default.go:185-189 | The token's text survives the redirect's query |
| `DirectConnect.HandleDirectConnectGet` | internal/server/handle_direct_connect.go:26-70 | Status, body and disk effect for every token and every failure; the blob of the token's key when nothing fails |
| `DirectConnectRuns.UndisturbedStays` | internal/server/handle_proxy_default.go:60-68 | What a handler found stays on the owner's disk as long as no step overwrites or removes it |
| `DirectConnectRuns.FollowingEqualsHit` | internal/server/handle_proxy_default.go:169-196 | The redirect names the owner; following it with no intervening overwrite or removal yields the blob of the hit branch exactly while the token is good, and 401 otherwise; for keys that are valid UTF-8, as every key of `cacheKey` is |
| `HelperObject.LocalNetworkHelper.HandleRequest` | pkg/localnetworkhelper/localnetworkhelper.go:170-202 | One turn performs the Submit and Write steps: stored before it is written, forgotten and reported if the write fails |
| `HelperObject.LocalNetworkHelper.HandleRead` | pkg/localnetworkhelper/localnetworkhelper.go:204-272 | The decoding loop over one read performs the Process step for each message, the descriptors going to the first |
| `HelperObject.HandleDial` | pkg/localnetworkhelper/serve.go:89-136 | A TCP or UDP dial that connects, and whose system calls succeed, is answered without an error and with exactly its connection; every other dial with its own error text and no descriptor |
| `HelperRuns.StepKeepsInv` | pkg/localnetworkhelper/localnetworkhelper.go:144-310 | Every step of parent, child, callers and wires keeps the invariant on tokens, replies, wires and deliveries |
| `HelperRuns.TokenConservation` | pkg/localnetworkhelper/localnetworkhelper.go:144-272 | In every run a sent token is in exactly one of request stream, dial, response stream, current read, answered and lost; an unanswered one is still known to the parent |
| `HelperRuns.ResponsesAreExpected` | pkg/localnetworkhelper/localnetworkhelper.go:240-247 | A response for a non-existent request is unreachable |
| `HelperRuns.NeverBlocks` | pkg/localnetworkhelper/localnetworkhelper.go:154-168 | No step sends a second time on a reply channel, whether or not the caller is still there, so capacity one never blocks a loop |
| `HelperRuns.DeliversWhatWasAsked` | pkg/localnetworkhelper/localnetworkhelper.go:204-310 | In every run, for every order of dials and every coalescing, a delivered connection is the one dialled for that caller's network and address |
| `HelperDelivery.DeliversExactly` | pkg/localnetworkhelper/localnetworkhelper.go:204-272 | In every run all answered successful dials have reached their callers if and only if each came first in its read, had the only descriptor of it and converted |
| `HelperDelivery.DescriptorsFirstDelivers` | pkg/localnetworkhelper/localnetworkhelper.go:249-270 | So when every read carries a descriptor on its first message only, and descriptors convert, every answered successful dial has put exactly its own connection on its caller's channel |
| `HelperDelivery.SuccessfulDialsAreDelivered` | pkg/localnetworkhelper/localnetworkhelper.go:204-272 | From dial to caller, in every run: under the condition of `DeliversExactly`, whoever asked for a dial that succeeded, and was answered, got exactly the connection of that dial, to the network and address asked for |
| `HelperDelivery.EveryCallIsAnswered` | pkg/localnetworkhelper/localnetworkhelper.go:170-272 | In every run a request is under way until its caller has had exactly one reply, and no longer, whatever failed |
| `HelperProgress.CallsCanBeAnswered` | pkg/localnetworkhelper/localnetworkhelper.go:144-310 | From every quiet state of every run a new call to any address can be answered with the connection dialled for it |
| `HelperProgress.FatalErrorsAreFinal` | pkg/localnetworkhelper/localnetworkhelper.go:208-247 | A failed read is fatal, and after a fatal error nothing more is read or processed |
| `HelperProgress.GivingUpIsQuiet` | pkg/localnetworkhelper/localnetworkhelper.go:162-167 | A caller that gives up changes nothing but that |
| `HelperProgress.AnythingCanFail` | pkg/localnetworkhelper/localnetworkhelper.go:170-310 | Every call of the runtime can fail wherever it is made, and the child can go at any time |
| `HelperProgress.AnythingCanCoalesce` | pkg/localnetworkhelper/localnetworkhelper.go:196-236 | A read can return any number of the messages that wait |
| `HelperProgress.AnyDialCanFinish` | pkg/localnetworkhelper/serve.go:79-136 | Any dial can finish next, in any way |
| `HelperDelivery.EmptyErrorTextMisdelivers` | pkg/localnetworkhelper/localnetworkhelper.go:274-277 | Why error texts must not be empty: such a response would be opened with another caller's descriptor |

## Left out

- MetadataJson.UnmarshalMarshal: `Unmarshal` reads the shapes that `Marshal` writes, not other JSON texts of the same value.
- Eviction.MinimalEviction: is stated below 2^64; what the loop does when sums wrap is `Eviction.RemoveStopsFirst`.
- DiskObject.Disk.Put: runs without other goroutines in between; the interleaved form is the step system of `DiskModel`, to which its parts are proved equal.
- HelperObject.LocalNetworkHelper.HandleRead: the endless loops of the helper appear as one method per turn, on messages that are already decoded.
- CacheControl.HeadersContainDirective: works on decoded characters; `EqualFold` is modelled against ASCII names, the only ones the code passes.
- KvHeaders.SetKey: headers hold one value per name, which is all that the protocol uses.
- `handleProxyDefault` as one method over a live server: it is a step system on values, so aliasing of header maps is captured only in `ProxyObject`.
- A client's `If-None-Match` with several ETags, weak comparison or `*`: a precondition is one ETag.
- KvProtocol.Server.HandleClusterPut: answers 400 to metadata in JSON spellings other than the one that `SetMetadata` writes, which the code accepts.
- DeploymentTheorems.RunSimulates: a KV request is a step on the serving server, not bytes on a wire; what its headers do is `KvProtocol`.
- The body of a response that is passed through, redirected or failed: it is a step that ends the handler.
- Pre-existing directories: runs start from an empty one; foreign or corrupt files appear only as failing Gets.
- Removal of temporary files, `Walk` and the tool that uses it.
- TLS interception, CONNECT, the single-connection listener, dispatch, responders and the capturing writer.
- Regular expressions of rules, SHA-256, the hash inside hrw, HMAC, base64url and UUIDs.
- Zip bytes and HTTP framing: streams are complete or fail; a failed upload is a read error at the receiver.
- Recovery after a fatal helper error, and descriptors leaked when a caller gives up.
- Telemetry, logging, health checks, configuration, commands, privilege dropping, the no-op cache and platform stubs: no deep property of their own.
