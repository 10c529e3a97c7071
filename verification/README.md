# zk-storage-soundness — model of the storage-root check

`app.py` fetches a contract's storage root with `eth_getProof` at one block,
and optionally at a second block, and reports whether the two roots match.
This project models the two parts of it that decide anything:

- `get_storage_root` (module `StorageRoot`): checksum the address, issue
  `eth_getProof(address, [], block)`, and read `result.storageHash` from the reply.
  Every failure becomes `None`. The reply is the datatype `Payload`. It has
  four cases: no `result`, a null `result`, a non-object `result`, or a
  `result` object.
- the outcome of `main` (module `App`): the `http` prefix check, the
  connection check, the mandatory fetch at `--from-block`, and the optional
  fetch at `--to-block`. `--to-block` counts as given only when it is
  non-empty, as in Python truthiness. Then come the displayed MATCH/MISMATCH
  line, the JSON record and the exit code. `App.Decide` takes the
  environment as plain inputs. `App.Run` composes it with two
  `StorageRoot.FetchRoot` calls.

The checksum routine (`Web3.to_checksum_address`) and the provider
(`make_request`) are parameters. The checksum routine has type
`string -> Option<string>`. `FetchRoot` takes the provider as
`ProofRequest -> Option<Payload>`. `None` stands for "raised an exception".
In `App.Env` the provider also receives the call number: 0 for the source
fetch, 1 for the destination fetch. The two fetches are separate network
round trips, so the same request can get different answers
(`AppProperties.SameBlockCanDiffer`). Connectivity (`is_connected`) is a
boolean input.

Module `Ascii` holds the lower-casing used by the displayed comparison.
Module `AppProperties` holds the lemmas about `main`'s outcome.

In three places the code behaves differently from what one might expect; the model follows the code:

- An address the checksum routine rejects is not a separate fatal error
  raised before any network use. The code first checks the connection. It
  then catches the failure inside `get_storage_root`, and the run exits 2
  like any other failed fetch (`AppProperties.InvalidAddressIsFetchFailure`).
- No `0x` prefix is stripped before comparing.
- Comparisons are not all case-insensitive. The displayed status compares
  lower-cased roots (line 75). The JSON `match` member (line 92) and the exit
  code (line 97) compare raw strings. So roots that differ only in letter
  case display MATCH but exit 2 with `match: false`
  (`AppProperties.DisplayedMatchButExitTwo`).

## Model

Three helper predicates have no row of their own. `App.StartsWith` is the URL prefix test of line 41, and `AppProperties.UrlPrefixIsPlain` states its behaviour. `App.Given` is the Python truthiness of `--to-block` at lines 66, 74, 92 and 97, and `AppProperties.EmptyToBlockIsAbsent` and `AppProperties.DestinationIgnoredWhenAbsent` state its behaviour. `Ascii.EqualsIgnoreCase` is the comparison of line 75, and the `Ascii.EqualsIgnoreCaseIs…` lemmas state its behaviour.

| member | source | states |
|---|---|---|
| `StorageRoot.ExtractStorageHash` | app.py:19-22 | a reply without `result`, with a null or non-object `result`, or without `storageHash` yields None; a root is returned only when the `result` object's `storageHash` member is that string |
| `StorageRoot.ExtractProofReply` | app.py:19 | extraction recovers the root of any reply whose `result` object carries it, whatever other proof members are present |
| `StorageRoot.ExtractIgnoresOtherMembers` | app.py:19 | changing any `result` member other than `storageHash` never changes the extracted root |
| `StorageRoot.FetchRoot` | app.py:16-22 | a request is issued exactly when checksumming succeeds; it is `eth_getProof` with the checksummed address, an empty storage-key list and the block unchanged; a root comes back exactly when the provider answered and the answer carries one, and it is the extracted one |
| `Ascii.LowerChar` | app.py:75 | the result is never an upper-case letter; upper-case letters map to their lower-case partner and every other character is unchanged |
| `Ascii.Lower` | app.py:75 | lower-casing keeps the length and lower-cases each position independently |
| `Ascii.LowerIdempotent` | app.py:75 | lower-casing an already lower-cased root changes nothing |
| `Ascii.EqualsIgnoreCaseIsSameLetters` | app.py:75 | comparing lower-cased strings is the same as equal length plus position-wise equality after lower-casing (both directions) |
| `Ascii.EqualsIgnoreCaseIsEquivalence` | app.py:75 | the displayed comparison is reflexive, symmetric and transitive |
| `Ascii.EqualsIgnoreCaseIsCoarser` | app.py:75 | identical strings compare equal; "0xABCD" and "0xabcd" compare equal although they differ |
| `App.Compare` | app.py:75-76 | the displayed status is MATCH exactly when the roots have equal length and agree position-wise up to ASCII case |
| `App.Decide` | app.py:41-97 | exit 1 exactly on a bad URL or no connection, and then nothing is fetched; the exit code is at most 2; fetched blocks are a prefix of source-then-destination; a status is shown exactly when both fetches ran and succeeded with a destination given |
| `App.Issued` | app.py:59-68 | with a valid address each fetch issues one request, in order, for the same checksummed address, with no storage keys, at the queried block; with an invalid address none is issued |
| `App.Run` | app.py:59-97 | a run can exit 0 only if the address passed checksumming |
| `AppProperties.UrlPrefixIsPlain` | app.py:41 | the URL test is a case-sensitive prefix test: "httpx://…" and "https://…" pass, "ftp://…", "htt" and "HTTP://…" fail |
| `AppProperties.BadUrlExitsOne` | app.py:41-43 | a URL not starting with "http" exits 1 with no fetch, status or JSON |
| `AppProperties.NotConnectedExitsOne` | app.py:46-48 | an unconnected endpoint exits 1 with no fetch, status or JSON |
| `AppProperties.SourceFetchFailureExitsTwo` | app.py:59-62 | a failed source fetch exits 2 after that single fetch, without comparison, even when a destination block was given |
| `AppProperties.DestinationFetchFailureExitsTwo` | app.py:66-71 | a failed destination fetch exits 2 after both fetches, without comparison |
| `AppProperties.SingleBlockSucceeds` | app.py:74-97 | without a destination block a successful fetch exits 0, shows no status, and the JSON record (present exactly with `--json`) has null `root_to` and null `match` |
| `AppProperties.EmptyToBlockIsAbsent` | app.py:66-97 | an empty `--to-block` behaves like none, except that the JSON `to_block` member is "" |
| `AppProperties.TwoRootComparison` | app.py:74-97 | with two roots the status is MATCH iff they are equal ignoring case, while exit 0 and JSON `match` true both hold iff they are identical as raw strings; the JSON record exists exactly with `--json` and holds the URL, both blocks, both roots and that raw `match` |
| `AppProperties.ExitZeroImpliesNoMismatch` | app.py:75-97 | a run that exits 0 never displays MISMATCH |
| `AppProperties.DisplayedMatchButExitTwo` | app.py:75-97 | roots "0xABCD" and "0xabcd" display MATCH yet exit 2 with JSON `match` false |
| `AppProperties.ExitCodeCharacterization` | app.py:41-97 | over all inputs: exit 1 iff the URL or connection check fails; exit 0 iff the source root was fetched and either no destination was given or its root is raw-identical; exit 2 in every other case |
| `AppProperties.DestinationIgnoredWhenAbsent` | app.py:65-71 | without a destination block the second fetch's result never affects the outcome |
| `AppProperties.InvalidAddressIsFetchFailure` | app.py:16-62 | an address the checksum routine rejects exits 2 after the connection check, and no proof request reaches the provider |
| `AppProperties.RunRequestsArePlain` | app.py:18 | every proof request of a run carries the checksummed address, an empty storage-key list and the block exactly as given |
| `AppProperties.TwoBlockFetches` | app.py:16-22 | with a provider answering proof replies per block, each fetch (whatever its call number) returns the root of its own block |
| `AppProperties.SameRootScenario` | app.py:59-97 | equal roots at "latest" and "0x100" give MATCH and exit 0 |
| `AppProperties.DifferentRootScenario` | app.py:59-97 | different roots at "latest" and "0x100" give MISMATCH and exit 2 |
| `AppProperties.SameBlockCanDiffer` | app.py:59-97 | comparing "latest" with "latest" fetches twice, and when the second answer carries a different root the run shows MISMATCH and exits 2 |

## Left out

- `Ascii.Lower`: folds only ASCII 'A'-'Z'. Python's `str.lower` is Unicode-aware. Storage roots are hex strings, so the two agree on every root.
- `Ascii.LowerChar`: ASCII-only for the same reason.
- `StorageRoot.ExtractStorageHash`: a `storageHash` member that is neither null nor a string is not modelled. A JSON number there is returned as-is. Without a non-empty `--to-block`, `.lower()` is never called: the number is printed, serialised into the JSON record with `--json`, and the run exits 0. With one, and a destination fetch that returns a value, `.lower()` at line 75 raises an uncaught exception and the process exits 1; a failed destination fetch still exits 2 at line 71. `AppProperties.ExitCodeCharacterization` does not cover that exit, because such replies are not modelled.
- `App.Run`: the checksum routine is a function, so it always answers the same way for the same address. This is what makes the second fetch and the JSON `address` member (line 87) behave like the first. The provider, by contrast, answers each call separately.
- `StorageRoot.ExtractIgnoresOtherMembers`: `result` members are only null or strings, so the list members of a real proof reply (`accountProof`, `storageProof`) are not representable. This is harmless: extraction never reads any member but `storageHash`. The same holds for `StorageRoot.ExtractProofReply`.
- The JSON `address` member (line 87) is not part of `Report`. It is a second call of the foreign checksum routine.
- `Web3.HTTPProvider`, `make_request` and `is_connected` are network I/O. They are the `provider` parameter and the `connected` input.
- `Web3.to_checksum_address` is foreign code that needs keccak hashing. It is the `checksum` parameter, and its failure is folded into the fetch returning None.
- The `chain_id` lookup (lines 52-55) is best-effort and affects only printed output.
- `parse_args`, the `RPC_URL` environment default and `--timeout` are configuration plumbing. The parsed values are fields of `App.Args`.
- Wall-clock timing and `elapsed_seconds` use floating point.
- Console messages and JSON text formatting are left out. Only the displayed status and the JSON record's fields are kept.
