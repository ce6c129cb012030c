# s3s — a Dafny model of the client-side listing and select logic

s3s is a thin Go façade over Amazon S3. Once the AWS SDK is taken away, it holds
three pieces of logic, each modelled here as pure functions over immutable
datatypes. Imperative methods mirror the Go loops. The pagination loop is proved
equal to a functional reference definition; the per-page and bucket copy loops
are proved against element-by-element contracts:

- **Compression inference** (`Compression`): `suggestCompressionType` maps an
  object key to `None`, `Gzip` or `Bzip2` by a case-sensitive suffix match.
- **Listing** (`Listing`): `GetS3Bucket` copies bucket names; `GetS3Dir` and
  `GetS3Keys` drain a `ListObjectsV2` paginator. The paginator is a function from
  the list request to the finite sequence of page results it yields (`PageOk` or
  `PageErr`). `Expected` is the reference semantics, a right fold. It concatenates
  page blocks in arrival order. The first failed page makes the whole listing fail
  and discards everything gathered so far. `Paginate` is the Go left-fold loop,
  proved equal to `Expected`.
- **Select** (`Select`): `S3Select` builds a select request, submits it, drains
  the event stream and prints each Records payload. It then returns the stream's
  terminal error. The consumer is a small state machine
  `Acquiring → (Rejected | Open) → Draining → (ClosedSuccess | ClosedError)` that
  counts how often the stream was closed.

Errors are opaque values (`Outcomes.Error`). The S3 service appears only as a
function parameter: the paginator for listings, and request-to-stream for select.
Standard output is the sequence of `fmt.Print` calls made (`Session.stdout`).
`Select.Stdout` gives the text they leave on the terminal.

Two details of the code shape the model:

- `S3Select` sends `RequestProgress{}`, which leaves `Enabled` at its zero value
  `false`, so Progress frames are not requested. `BuildRequest` states this.
- A flat-listing page whose `Contents` outnumber its `KeyCount` makes the Go code
  index out of range. A negative `KeyCount` makes `make` panic. Both are modelled
  as an explicit `Panicked` outcome rather than excluded by a precondition.

## Model

| member | source | states |
|---|---|---|
| Compression.SuggestCompressionType | s3s.go:136-145 | the hint is Gzip iff the key ends with `.gz`, Bzip2 iff it ends with `.bz2`, and None iff it ends with neither |
| Compression.HasSuffixByCharacters | s3s.go:138-140 | a suffix match means the key is long enough and its last characters are exactly the suffix's, character by character |
| Compression.SuffixesExclusive | s3s.go:137-144 | no key ends with both `.gz` and `.bz2`, so the order of the two cases never matters |
| Compression.UpperCaseSuffixMeansNone | s3s.go:138-143 | the match is case-sensitive: a key ending in `.GZ` or `.BZ2` gets no compression |
| Compression.SuggestionExamples | s3s.go:136-145 | `a.gz` is Gzip, `a.tar.bz2` is Bzip2, `a.json`, `a.GZ` and `a.gz.json` are None |
| Listing.RequestsSelectView | s3s.go:44-73 | the directory request carries delimiter `/` and so asks for the hierarchical view; the flat request carries none |
| Listing.ExpectedAppend | s3s.go:51-66 | pagination is lossless and order-preserving: listing pages `a + b` gives `a`'s keys followed by `b`'s, and `b` is never consulted when `a` fails |
| Listing.ListedIffAllHealthy | s3s.go:76-91 | a listing succeeds exactly when every page was fetched and its block could be built |
| Listing.FirstFaultDecides | s3s.go:52-56 | the first failing page decides the outcome: its error (or the panic), with earlier pages' keys dropped and later pages irrelevant |
| Listing.NotListedHasFirstFault | s3s.go:77-81 | every unsuccessful listing has a first stopping page whose error or panic is the outcome |
| Listing.DirectoriesNeverPanic | s3s.go:58-61 | collecting common prefixes can never panic |
| Listing.KeysPanicOnlyOnOversizedPage | s3s.go:83-86 | the flat listing panics only on a page with more `Contents` than its `KeyCount` |
| Listing.EmptyPagesListNothing | s3s.go:51-66 | when every page arrives but contributes nothing to the view (no common prefixes for directories; no contents and `KeyCount` 0 for keys), the listing succeeds with no keys rather than failing |
| Listing.HealthyListingIsConcatenation | s3s.go:51-66 | when every page arrives and its block can be built, the listing is exactly the concatenation of the pages' blocks in page order |
| Listing.KeysListingLength | s3s.go:83-88 | a successful flat listing holds exactly the sum of the pages' `KeyCount`s |
| Listing.GetS3Bucket | s3s.go:28-41 | a failed call returns its error; otherwise one name per bucket, the i-th name being the i-th bucket's |
| Listing.CopyPrefixes | s3s.go:58-61 | a page's directory block is its common prefixes, in order, one per entry |
| Listing.FillPageKeys | s3s.go:83-86 | a page's key block exists iff `Contents` fit in `KeyCount`; it has exactly `KeyCount` slots, the keys in order and then empty strings |
| Listing.Paginate | s3s.go:76-91 | the accumulation loop computes the reference listing `Expected` of the page sequence |
| Listing.GetS3Dir | s3s.go:43-67 | the directory listing is the reference listing of the `/`-delimited request's pages, and never panics |
| Listing.GetS3Keys | s3s.go:69-92 | the flat listing is the reference listing of the undelimited request's pages |
| Select.BuildRequest | s3s.go:95-112 | the request's compression is Gzip/Bzip2/None exactly as the key's suffix says; input is JSON Lines, output JSON, the expression SQL, and Progress frames are not requested |
| Select.RecordPayloadsAppend | s3s.go:121-127 | draining is incremental: two stretches of events print the first stretch's payloads, then the second's |
| Select.MetadataEventsPrintNothing | s3s.go:121-127 | Progress, Stats, Cont and End events print nothing |
| Select.PayloadsMatchRecords | s3s.go:121-127 | each string is printed exactly as many times as a Records event carries it, and nothing else is printed |
| Select.StdoutExample | s3s.go:122-126 | three Records payloads, the last one empty, leave only the first two on standard output |
| Select.Acquire | s3s.go:114-117 | a rejected request short-circuits with nothing printed and nothing closed; an accepted one opens the stream |
| Select.Receive | s3s.go:121-127 | each event keeps the stream open and appends only a Records event's payload |
| Select.Finish | s3s.go:119-133 | the deferred close runs once; the terminal error alone chooses the error or success phase; printed output is kept |
| Select.S3Select | s3s.go:94-134 | rejection returns that error with no output and no close; otherwise the stream is closed exactly once, the output is the Records payloads in event order, and an error is returned iff the stream's terminal error is set |

## Left out

- `NewApp` (s3s.go:18-26): configuration and credential loading belong to the SDK and hold no logic of their own.
- The SDK client calls, the `ListObjectsV2Paginator` cursor and has-more handling, `context.Context`, retries and transport: these are foreign code. Their results are abstract inputs here.
- Nil pointers: `*content.Name`, `*Prefix` and `*Key` are assumed present (the fields are plain strings in the model). A nil field would make the Go code panic.
- `fmt.Print` as real I/O: it is modelled as appending to `Session.stdout`.
- Go's nil slice and the empty slice are not distinguished; both are `[]`.
- The real paginator always makes at least one request. The model accepts any finite page sequence, including the empty one.
- Concurrency and caller abandonment: the code has neither beyond `defer`; its loop always drains the event channel.
- Payload bytes are modelled as characters of a Dafny `string`. A Records frame may end in the middle of a multi-byte UTF-8 character, and a `seq<char>` cannot hold such a fragment; the model treats each payload as an opaque string.
- The SDK generation in which `RequestProgress.Enabled` is a pointer (nil when unset) is not modelled; the model follows the generation whose `KeyCount` is a plain `int32`, where `Enabled` is a plain `bool`.
- Allocation failure for a very large `KeyCount` is not modelled.
