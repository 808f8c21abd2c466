# VirusTotal scanner front end: the logic of `src/App.tsx`

The application is a single React component that sends files, URLs and
indicators (domains, IP addresses, hashes) to version 3 of the VirusTotal
API and shows the report it gets back. This project models the parts of
`src/App.tsx` that decide what happens, and proves properties of them:

- **`Classify`**: `getSearchType`, the classifier that turns a search query
  into `IP`, `DOMAIN`, `HASH` or `null`. The IP and domain patterns become
  recognisers over the query's dot-separated fields, each proved equal to a
  predicate shaped like its regular expression. The hash pattern is written
  directly as its length bound and character class. The three classes are proved pairwise disjoint, so the order of
  the tests never matters.
- **`Hex`**: the digest key, `b.toString(16).padStart(2, '0')` for each byte,
  joined. `toString(16)` and `padStart` are modelled as written. The key is
  proved to decode back to the digest. A SHA-256 digest's key is proved to be
  64 hex digits, which the classifier reads as a hash.
- **`UrlId`**: the URL identifier, `btoa` followed by three `replace` calls.
  `btoa` is the padded base64 of section 4 of RFC 4648. The identifier is
  proved to be the unpadded base64url encoding of sections 5 and 3.2 of RFC
  4648. Also proved: its length, its alphabet, and that re-padding it gives
  back `btoa`'s output.
- **`Scan`**: what each handler does, as functions of the replies it receives.
  - `FileScan` covers the size guard, the swallowed lookup of an existing
    report, the upload, and the polling loop.
  - `UrlScan` covers the submission and its polling loop.
  - `Search` covers classification and one lookup.
  - The two polling loops share one definition, `Poll`, set up by a
    `PollPlan`: whether the sleep comes before each check, and which report
    to fetch.
  - Each run is an `Outcome` (a report, or what was thrown) plus the log of
    requests and sleeps it issued.
- **`Handlers`**: the same handlers as imperative code.
  - `ScanFile`, `ScanUrl` and `SearchIndicator` are the straight-line bodies
    of the `try` blocks.
  - `PollFileAnalysis` and `PollUrlAnalysis` are the two `while` loops, each
    over `attempts` and `analysisComplete`.
  - Class `Scanner` holds the component state `isLoading`, `scanResult` and
    `error`, with one method per scan handler (`handleFileUpload`,
    `handleUrlScan`, `handleSubmit`, `handleSearch`).
  - `ScanFile`, `ScanUrl`, `SearchIndicator` and the two loops are proved to
    compute the matching `Scan` function.
  - `HandleFileUpload`, `HandleUrlScan` and `HandleSearch` are proved to end
    with loading off and exactly one of a result or an error shown, the one
    the matching `Scan` function gives.
  - `HandleSubmit` either changes nothing and makes no request (an empty URL,
    or a scan already loading), or is `HandleUrlScan`.

The network is a set of reply oracles, one per place where the code calls
`fetch`. The status check takes a reply per attempt (`nat -> Reply`). A reply
is a rejected promise, or a response with `ok`, a `statusText` and a body. A
body either parses to the four things the code reads, or parsing throws:

- whether `data` is present;
- `data.id` (empty when absent);
- `data.attributes.status` (`completed`, `failed` or anything else);
- `error.message` (empty when absent).

The 5-second waits become `Sleep` events in the log.

`handleUrlScan` computes the URL identifier inside the branch for a completed
analysis. `ScanUrl` computes it once, before calling the loop. It is a pure
function of the URL, so the value fetched is the same.

The timeout message is `Analysis timed out`. The IP test checks only digit
counts, so `999.999.999.999` classifies as an IP.

## Model

| member | source | states |
|---|---|---|
| Classify.IpRecogniserIsRegex | src/App.tsx:234 | the field recogniser accepts exactly the strings of `^(\d{1,3}\.){3}\d{1,3}$`, written as three dotted digit groups followed by a fourth |
| Classify.DomainRecogniserIsRegex | src/App.tsx:236 | the field recogniser accepts exactly the strings of `^([a-zA-Z0-9-]+\.)+[a-zA-Z]{2,}$`: one or more labels, each followed by a dot, then a final label of at least two letters |
| Classify.HashIsNeitherIpNorDomain | src/App.tsx:238-242 | a string of hex digits has no dot, so it matches neither the IP nor the domain pattern |
| Classify.IpIsNotDomain | src/App.tsx:234-241 | no string is both an IP and a domain: the last field of an IP is digits, the last label of a domain is letters |
| Classify.SearchTypeIsTheUniqueMatch | src/App.tsx:232-244 | the three patterns are pairwise disjoint; the result is `IP` iff the IP regex matches, `DOMAIN` iff the domain regex matches, `HASH` iff the hash pattern matches, whatever the test order |
| Classify.AnyFourDigitGroupsAreIp | src/App.tsx:234-240 | any four groups of 1 to 3 digits joined by dots classify as `IP`; there is no 0-255 range check |
| Classify.PermissiveIpExample | src/App.tsx:234-240 | `999.999.999.999` classifies as `IP` |
| Classify.DotFreeQuery | src/App.tsx:232-244 | a query without a dot is a hash if it matches the hash pattern and `null` otherwise |
| Classify.HashLengthBoundary | src/App.tsx:238-242 | a string of hex digits (either case) is a `HASH` iff its length is 32 to 64; lengths 31 and 65 give `null` |
| Classify.TwoLabelDomain | src/App.tsx:236-241 | a label, a dot and a final label of letters classify as `DOMAIN` |
| Classify.DomainExample | src/App.tsx:236-241 | `example.com` classifies as `DOMAIN` |
| Classify.HashExample | src/App.tsx:238-242 | the 32-digit MD5 of the empty string classifies as `HASH` |
| Classify.InvalidExample | src/App.tsx:232-244 | `not a valid @@ string` classifies as `null` |
| Hex.ByteToHex | src/App.tsx:33 | `toString(16)` followed by `padStart(2, '0')` is exactly two lowercase digits, high nibble first, zero-padded |
| Hex.HexEncodeLength | src/App.tsx:32-33 | the key of n bytes has 2n characters |
| Hex.HexEncodeAt | src/App.tsx:32-33 | byte i occupies characters 2i and 2i+1 of the key, high digit first |
| Hex.HexEncodeIsLowercaseHex | src/App.tsx:33 | every character of the key is one of `0123456789abcdef` |
| Hex.HexDecodeEncode | src/App.tsx:32-33 | decoding the key gives back the digest bytes |
| Hex.HexEncodeInjective | src/App.tsx:32-33 | different digests give different keys |
| Hex.DigestKeyIsHashQuery | src/App.tsx:31-33 | the key of a 32-byte SHA-256 digest is 64 characters long and classifies as `HASH` |
| Hex.PaddingExample | src/App.tsx:33 | bytes 0, 10, 255 give `000aff`: small bytes are zero-padded |
| UrlId.UrlIdIsBase64Url | src/App.tsx:190-193 | `btoa`, then `+` to `-`, `/` to `_` and trailing `=` removed, is the unpadded base64url encoding of the URL's bytes |
| UrlId.UrlIdIsUrlSafe | src/App.tsx:190-193 | the identifier contains only `[A-Za-z0-9_-]`, never `+`, `/` or `=` |
| UrlId.UrlIdLength | src/App.tsx:190-193 | the identifier of n bytes has ceil(4n/3) characters |
| UrlId.RepadGivesBtoa | src/App.tsx:190-193 | restoring `+`, `/` and the `=` padding to a multiple of four gives back the output of `btoa` |
| UrlId.FoobarVector | src/App.tsx:190-193 | the identifier of `foobar` is `Zm9vYmFy` |
| UrlId.ShortVector | src/App.tsx:190-193 | the identifier of `fo` is `Zm8`: the `=` of `Zm8=` is removed |
| UrlId.SubstitutedVector | src/App.tsx:190-193 | bytes 251, 255 give `-_8`, where `btoa` gives `+/8=` |
| Scan.PollStopsAtFirstTerminal | src/App.tsx:86-122 | the loop runs one unfinished round for each pending status before the first one that is not pending, then ends with that attempt |
| Scan.PollTimesOut | src/App.tsx:86-127 | when each of the 30 statuses is pending, the loop performs 30 rounds and ends with `Analysis timed out` |
| Scan.PollExits | src/App.tsx:96-119 | when attempt k is the first non-pending one, the loop ends after k rounds and one more check. The outcome is what the status fetch threw, or the report fetch's outcome after `completed`, or `Analysis failed` |
| Scan.TerminalCounts | src/App.tsx:96-119 | the attempt that ends the loop makes one status check, sleeps first only on the URL path, and fetches the report exactly when the status is `completed` |
| Scan.PollEndsAtFirstTerminal | src/App.tsx:86-127 | with the first non-pending status at attempt k: k+1 checks, and k sleeps on the file path or k+1 on the URL path. One report fetch after `completed`, then the report's outcome; `Analysis failed` after `failed`; `Failed to get analysis status` after a refused response; a rejection or parse error is passed on |
| Scan.PollTimeoutCounts | src/App.tsx:84-127 | 30 pending statuses: `Analysis timed out` after exactly 30 checks and 30 sleeps, with no report fetched |
| Scan.PollChecksAtMostMax | src/App.tsx:84-86 | whatever the replies, the loop makes at most 30 status checks |
| Scan.QueuedQueuedCompleted | src/App.tsx:86-117 | two unfinished statuses (such as queued, queued) and then completed give exactly three checks and one report fetch; a readable report is the result |
| Scan.FileRoundShape | src/App.tsx:86-122 | on the file path the check is sent at once, and an unfinished check is immediately followed by a 5-second sleep |
| Scan.UrlRoundShape | src/App.tsx:171-175 | on the URL path every check is immediately preceded by a 5-second sleep |
| Scan.PlansHaveDistinctPaths | src/App.tsx:89-104 | the report paths `files/…` and `urls/…` differ from every status path `analyses/…` |
| Scan.FileSizeGuard | src/App.tsx:25-27 | a file over 32 MiB ends with `File size exceeds 32MB limit` before any request |
| Scan.FileSizeBoundary | src/App.tsx:25-37 | the limit is 33,554,432 bytes; a file of exactly that size passes and first looks its digest up |
| Scan.PreCheckShortCircuit | src/App.tsx:36-51 | an OK lookup with `data` shows that report after one request; no upload is made |
| Scan.PreCheckFailureIsSwallowed | src/App.tsx:36-67 | a lookup that is rejected, refused, unreadable or without `data` is followed by the upload, and the scan does not depend on how the lookup failed |
| Scan.SubmissionErrors | src/App.tsx:69-78 | a refused upload shows the service's `error.message` or, without one, `Upload failed: <statusText>`; an accepted one fails exactly when it carries no `data.id` |
| Scan.FileScanCompleted | src/App.tsx:18-127 | a complete file scan: lookup, upload, k unfinished rounds, the completed check and the report fetched by the same digest key, whose body is the result |
| Scan.UrlScanCompleted | src/App.tsx:136-216 | a complete URL scan: submission, k unfinished rounds, the sleep and completed check, and the report fetched under the unpadded base64url of the URL, whose body is the result |
| Scan.SearchRequests | src/App.tsx:253-271 | an unrecognised query makes no request and fails with the invalid-query message; a recognised one makes exactly one request, to the endpoint of its kind |
| Scan.EndpointPrefixes | src/App.tsx:258-269 | different kinds of indicator are looked up under different endpoints: the endpoint determines the kind. (The three prefixes of the `switch`, `domains/`, `ip_addresses/` and `files/`, are also stated.) |
| Scan.SearchOutcome | src/App.tsx:271-283 | a search succeeds iff the query is recognised and the lookup answers OK with a readable body; a refused lookup fails with `Failed to get <kind> report`: `domain`, `ip` or `hash` |
| Scan.SearchRejectsInvalidText | src/App.tsx:253-256 | searching `not a valid @@ string` fails with the invalid-query message and no request |
| Scan.ExactlyOneShown | src/App.tsx:128-133 | after `catch` and `finally` exactly one of result and error is set; a thrown non-`Error` shows the handler's fallback text |
| Handlers.ScanFile | src/App.tsx:23-127 | the body of `handleFileUpload` ends with the outcome and the requests of `FileScan` |
| Handlers.PollFileAnalysis | src/App.tsx:80-127 | the file-path `while` loop, with a check per attempt and a sleep after each unfinished one, computes `Poll` of the file plan |
| Handlers.ScanUrl | src/App.tsx:141-216 | the body of `handleUrlScan` ends with the outcome and the requests of `UrlScan` |
| Handlers.PollUrlAnalysis | src/App.tsx:166-216 | the URL-path `while` loop, with a sleep before every check, computes `Poll` of the URL plan |
| Handlers.SearchIndicator | src/App.tsx:252-283 | the body of `handleSearch` ends with the outcome and the requests of `Search` |
| Handlers.Scanner.constructor | src/App.tsx:13-15 | the initial state is not loading, with no result and no error |
| Handlers.Scanner.Start | src/App.tsx:19-21 | a handler starts by setting loading and clearing the result and the error |
| Handlers.Scanner.Finish | src/App.tsx:128-133 | a finished scan shows its report or its error message and turns loading off |
| Handlers.Scanner.HandleFileUpload | src/App.tsx:18-134 | ends not loading, showing exactly `FileScan`'s report or error, having made `FileScan`'s requests |
| Handlers.Scanner.HandleUrlScan | src/App.tsx:136-223 | ends not loading, showing exactly `UrlScan`'s report or error, having made `UrlScan`'s requests |
| Handlers.Scanner.HandleSubmit | src/App.tsx:225-230 | an empty URL, or a scan already loading, changes nothing and makes no request; otherwise it is `handleUrlScan` |
| Handlers.Scanner.HandleSearch | src/App.tsx:246-290 | ends not loading, showing `Search`'s report or error; an invalid query shows the invalid-query message with no request |

## Left out

- The `fetch` calls, the headers and the API key: they are network I/O. Each call site receives a reply from an oracle parameter, and only the path requested is recorded.
- JSON bodies beyond the four values the code reads. A status other than `completed` or `failed`, including a missing one, is the single value `Unfinished`. A body that parses but is not an object is not modelled.
- `crypto.subtle.digest` and `file.arrayBuffer()`: foreign calls. The digest is a parameter, and a rejection of either promise is not modelled.
- `setTimeout`: real time. Each wait is a `Sleep(5000)` event.
- `btoa` throwing for characters outside Latin-1: host-library behaviour. The URL is taken as the bytes `btoa` reads.
- Interleaving with `handleTabChange`, `onDrop` and `onFileSelect` (src/App.tsx:292-307, 352-361): event-driven concurrency. Each handler runs to completion alone.
- Intermediate states visible while a handler awaits. `setScanResult(fileData)` inside the loop is shown once, when the handler finishes.
- `console.log` and `console.error`: logging only.
- JSX rendering, `renderScanResult` and routing (src/App.tsx:309-527): presentation.
- src/pages/Terms.tsx and src/pages/Privacy.tsx: static text with no logic.
