# s3uploader, modelled in Dafny

s3uploader copies files listed in a manifest (one source per line) into an S3
bucket. It has two program versions. Version 2.0.0 (`main.go`) uploads local files,
or copies objects from a source bucket ("copy mode"). Version 1.0.1 (`scotabc.go`)
uploads local files only.

In both versions a producer goroutine reads the manifest line by line. It skips the
first `-offset` lines. For every other line it derives the destination key by
removing the `-p` prefix, waits for a slot in a pool of `-c` slots, and starts an
upload worker. Each worker resolves the metadata of its source (reader, size, MIME
type, canned ACL) and streams the payload with `PutReader`. Its deferred block then
updates the shared counters and releases the slot. A monitor loop writes every
error message to the error log. At the top of each iteration it loads the shared
counters. Once a second it prints progress from the loaded values. It exits when
those values showed nothing in flight and every line read counted.

The model covers these parts:

- **The metadata decisions of package `internal`.**
  - `NewMeta` chooses the source (`MetaReader`).
  - `tryFromUrl` runs its chain of early-return checks over the source bucket's GET
    response (`CephMeta`).
  - `tryFromUrl` takes its ACL from `getAcl`, passing on `getAcl`'s error.
  - `getAcl` builds the AWS Signature Version 2 CanonicalizedResource. It also maps
    the object's grant list to one canned ACL: `ScanGrants` is the loop itself, proved
    against the declarative `GrantScan`.
  - `tryFromFile` and the two `getContentType` functions (`LocalMeta`, `Meta`).
  - The ACL document types (`CephAcl`) and the error sentinels (`Errors`).
- **Go library behaviour the decisions depend on.** `strconv.ParseInt(s, 10, 0)`,
  `%d`, the `uint64(int64)` conversion (`Decimal`), `strings.Replace(s, p, "", -1)` and
  `filepath.Ext` (`GoStrings`).
- **The workers of both versions** (`Upload`, `ScotUpload`). Each is a function from
  what its calls return to the messages it sends, the upload it attempts, and the
  amount its deferred block adds to `totalTransferred`.
- **The start-up parameter checks** (`Config`).
- **The shared bookkeeping** (`Pipeline`). A `Pipeline` object holds the shared
  counters, the producer's position, the pool and the messages channel as fields.
  Each method is one atomic step of a goroutine: the producer reads a line, takes a
  slot, or stops; a worker completes; the monitor loads the counters, receives a message, or ticks. Each
  method is specified by a step function on the `State` value its fields make up.
  The bookkeeping invariant `Accounted` is proved to hold initially and after every
  step function. It relates the state to a `History` of lines read, workers started
  and workers finished.

Calls into code outside the model are parameters of the model. `SourceBucket` holds
goamz's `GetResponse`, the signed ACL request, XML decoding and
`mimetype.DetectReader`. `LocalFs` holds `os.Open`, `os.Stat` and
`mimetype.DetectFile`, and `ScotFs` holds `os.Open`, `os.Stat` and
`mime.TypeByExtension`. `Resolver` adds `url.Parse`. `PutReader` is a function
parameter too. The clock enters as the `elapsed` seconds of a done message and the
`now` text of an error-log line.

A Go function that returns `(value, err)` is modelled as a record holding both
parts. So the partly filled `FileMeta` that comes back with an error is modelled
too. A panic is the `Panics` case of `Call`. The one panic in scope is the
`key[0:1]` slice of `getAcl` on an empty URL path, and the worker's deferred
`recover` catches it.

Where the code and its own messages or comments disagree, the model follows the code:

- `log.Fatalln` exits with status 1, so the `os.Exit(2)` after it (main.go:180-181)
  is never reached. An unopenable manifest or error log therefore ends 2.0.0 with
  status 1.
- The `-source-endpoint` help text says the destination's endpoint is used when the
  flag is empty. No code does that (main.go:117-135), so `Config.StartV2` leaves the
  endpoint empty.
- The exit test (main.go:240) does not ask whether the producer has finished.
  `Pipeline.ExitBeforeEndOfManifest` shows a run that exits with status 0 while
  manifest lines are still unread.
- The exit test decides on counters loaded before the monitor waited (main.go:190-193).
  `Pipeline.ExitWithWorkerInFlight` shows a run that exits with status 0 while a
  worker the producer started in the meantime is still uploading.
- An AllUsers grant with FULL_CONTROL leaves the ACL Private without an error.
  FULL_CONTROL raises the error only for grantees with a URI, so the owner's
  canonical-user grant does not.
- A zero-byte object is rejected in copy mode, but a zero-byte local file is
  accepted.

## Model

| member | source | states |
|---|---|---|
| Decimal.ToUint64 | main.go:373 | `uint64(n)` of an int64: congruent to n modulo 2^64, equal to n when n >= 0, above the int64 maximum when n < 0 |
| Decimal.ParseUintFrom | internal/cephMeta.go:35 | the digit loop of ParseUint stays in uint64 range; a syntax error yields 0 and a range error the largest uint64 |
| Decimal.ParseInt | internal/cephMeta.go:35 | `strconv.ParseInt(s, 10, 0)` yields an int64; a syntax error yields 0; a range error yields the minimum exactly for a '-' sign and the maximum otherwise; "" is (0, syntax error); there is no error only for an optional sign followed by digits alone, and such a string never gives a syntax error |
| Decimal.FormatInt | internal/cephMeta.go:38 | `%d` gives "0" for zero, never the empty string, and starts with '-' exactly for negative values |
| Decimal.FormatThenParse | internal/cephMeta.go:35-38 | for every int64, parsing its `%d` text gives the value back with no error |
| Decimal.ParseIntPlusSign | internal/cephMeta.go:35 | "+" followed by the digits of an int64 value parses to that value with no error |
| Decimal.ParseIntLeadingZero | internal/cephMeta.go:35 | a leading "0" before unsigned text changes neither the parsed value nor the error |
| Decimal.ParseIntNegativeZero | internal/cephMeta.go:35 | "-0" parses to 0 with no error |
| Errors.AnnotatedTextStartsWithBase | internal/cephMeta.go:38-57 | the text of an `fmt.Errorf("%+v ...", sentinel)` error starts with the sentinel's text |
| Errors.SentinelsDistinct | internal/cephMeta.go:16-17 | the four sentinels, these two and the two of internal/metaReader.go:18-19, have pairwise different texts |
| GoStrings.RemoveAll | main.go:318 | removing the prefix never lengthens the line, and a leading occurrence shortens it by at least the prefix length; RemoveAllFirstOccurrence covers an occurrence anywhere in the line |
| GoStrings.RemoveAllNoOccurrence | main.go:318 | a prefix that occurs nowhere leaves the line unchanged |
| GoStrings.RemoveAllEmptyPrefix | main.go:318 | an empty prefix leaves the line unchanged |
| GoStrings.RemoveAllLeading | main.go:318 | a leading occurrence is dropped and removal goes on right after it |
| GoStrings.RemoveAllFirstOccurrence | main.go:318 | wherever the first occurrence is, the text before it is kept unchanged, that occurrence is dropped and removal goes on in the text after it |
| GoStrings.RemoveAllSinglePass | main.go:318 | occurrences are removed in one left-to-right pass: "aabb" without "ab" is "ab" |
| GoStrings.Ext | scotabc.go:361-363 | the extension is a suffix of the path that starts with '.', has no '/' and no further '.' |
| GoStrings.ExtEmptyMeansNoDot | scotabc.go:361-363 | an empty extension means every '.' is followed by a later '/' |
| Meta.ContentTypeOfReader | internal/metaReader.go:38-46 | reader-form getContentType: ("", err) exactly when detection fails, otherwise the detected type and no error |
| CephMeta.SigningPath | internal/cephMeta.go:84-89 | for a non-empty key the signed resource is "/" + bucket + "/" + key with any leading "/" of the key not doubled |
| CephMeta.SigningPathLeadingSlashOptional | internal/cephMeta.go:84-89 | "/k" and "k" sign the same resource |
| CephMeta.SigningPathEndsWithKey | internal/cephMeta.go:84-89 | the signed resource is longer than the key and ends with it |
| CephMeta.PermissionAcl | internal/cephMeta.go:123-129 | READ gives PublicRead, WRITE gives PublicReadWrite, any other permission keeps the current ACL |
| CephMeta.FirstAllUsers | internal/cephMeta.go:121-131 | the index of the first AllUsers grant, or the length when there is none |
| CephMeta.ScanGrants | internal/cephMeta.go:121-145 | the scan loop with its break yields exactly GrantScan: the first AllUsers grant decides the ACL (Private if none), and the error is set exactly when an unmappable grant precedes it |
| CephMeta.GrantScanEmpty | internal/cephMeta.go:76-147 | an empty grant list gives Private and no error |
| CephMeta.GrantScanStopsAtFirstAllUsers | internal/cephMeta.go:122-131 | grants after the first AllUsers grant never change the outcome, and that grant's permission decides the ACL |
| CephMeta.FirstAllUsersAt | internal/cephMeta.go:121-131 | an AllUsers grant with none before it is the one found |
| CephMeta.GrantScanErrorSticky | internal/cephMeta.go:133-143 | an unmappable grant before the first AllUsers grant sets NotImplementedAclMapping and nothing later clears it |
| CephMeta.GrantScanErrorWithPublicRead | internal/cephMeta.go:121-139 | one scan can yield PublicRead together with the error |
| CephMeta.GrantScanIgnoresCanonicalUser | internal/cephMeta.go:141-143 | a leading grant with empty URI (the owner's FULL_CONTROL) does not change the outcome |
| CephMeta.FullControlNeedsUri | internal/cephMeta.go:141-143 | FULL_CONTROL to a canonical user is fine; to any other grantee with a URI it is the error |
| CephMeta.GrantScanReadsOnlyUriAndPermission | internal/cephMeta.go:121-145 | lists with the same URI and permission in each position scan alike; IDs and display names are never read |
| CephMeta.SingleGrantTable | internal/cephMeta.go:121-145 | the outcome for each kind of single grant, including AllUsers FULL_CONTROL giving Private without error |
| CephMeta.AclRequestFor | internal/cephMeta.go:84-95 | the ACL request for a key is signed over SigningPath of the bucket and key |
| CephMeta.FetchPolicy | internal/cephMeta.go:104-119 | a transport error is passed on, a non-200 status becomes NotSuccessHttpStatus, and a 200 response yields the XML decoding of its body, error or policy |
| CephMeta.GetAcl | internal/cephMeta.go:74-148 | panics exactly on an empty key; a failed fetch gives Private and the error; otherwise the grant scan of the decoded list, which yields one of the three canned ACLs |
| CephMeta.TryFromUrl | internal/cephMeta.go:19-72 | transport error as is; non-200 as NotSuccessHttpStatus; a length parsing to 0 as FileInvalidSize "; size: 0"; after the type check getAcl decides: its panic, its error as the result's error, or its ACL; on success a non-zero size, the checked type, getAcl's error-free ACL and a reader of the response body; on failure size, type and ACL unset; panics only on an empty path |
| CephMeta.TryFromUrlContentType | internal/cephMeta.go:42-54 | "text/plain" or "" is replaced by the sniffed type and the reader re-wraps the same bytes; any other header value and the body stream are kept |
| CephMeta.TryFromUrlUnrecognizedType | internal/cephMeta.go:44-59 | a failed sniff, or one that finds no type, is a MimeTypeNotRecognized error |
| CephMeta.TryFromUrlNegativeLength | internal/cephMeta.go:35-40 | a negative content-length is not rejected: with the type check passed and an error-free getAcl the resolution succeeds, and the negative value becomes the size |
| CephMeta.TryFromUrlResniffsTextPlain | internal/cephMeta.go:42-71 | a JPEG served as text/plain resolves to image/jpeg with the buffered body and the fetched ACL |
| LocalMeta.ContentTypeOfFile | internal/fileMeta.go:35-43 | file-form getContentType maps any detection error to "" |
| LocalMeta.TryFromFile | internal/fileMeta.go:10-33 | open then stat failures come back with nothing set; after both succeed the reader is the opened file, the size is the stat size, the ACL is PublicRead, and the error is set exactly when the type is empty, as MimeTypeNotRecognized, and the type is then left "" |
| LocalMeta.TryFromFileAcceptsEmptyFile | internal/fileMeta.go:22-32 | a zero-byte local file is accepted |
| MetaReader.NewMeta | internal/metaReader.go:21-36 | in copy mode a URL-parse failure comes back before any fetch and otherwise the result is exactly tryFromUrl's; in upload mode exactly tryFromFile's; only copy mode can panic |
| MetaReader.NewMetaSuccess | internal/metaReader.go:21-36 | a successful resolution has a non-empty type and a mapped ACL, a non-zero size in copy mode and PublicRead in upload mode |
| Tasks.MakeTask | main.go:317-318 | the task keeps the line as source, and its key is the line with every occurrence of the prefix removed, never longer than the line |
| Tasks.DoneText | main.go:349 | the done text starts with the quoted source and ends with " sec" (same text at scotabc.go:303) |
| Tasks.DoneMessages | main.go:347-350 | the deferred block sends one done message without error unless silent |
| Tasks.ErrorsOfDone | main.go:349 | done messages never reach the error log |
| Upload.Upload | main.go:330-385 | the worker sends its error messages and then its done message; a recovered panic sends no error and moves nothing; a NewMeta error is sent once with the source line and nothing is put; after a successful NewMeta the payload is put under the key with the resolved size, type and ACL, the size counts as transferred even if the put fails, and a put failure is sent once |
| ScotUpload.ContentTypeByExtension | scotabc.go:361-363 | the type registered for the name's extension as `filepath.Ext` gives it (".jpg" for "image.jpg"); a name without '.' is looked up under the empty extension |
| ScotUpload.Upload | scotabc.go:289-359 | returns nil always; an open or stat failure is sent once and nothing is put; otherwise the file is put PublicRead with the extension's type even when it is empty, the stat size counts as transferred, and an empty type and a put failure are each sent once, in that order |
| ScotUpload.MimeNotRecognizedIsNotTheSentinel | scotabc.go:342 | the empty-type error has the sentinel's text but is a different value |
| Config.StartV2 | main.go:111-135 | exits 1 exactly when a required parameter is empty; copy mode exactly when a source endpoint is given; a given source bucket, access key or secret key is kept, an empty one takes the destination's value; the endpoint is kept as given |
| Config.StartV2Idempotent | main.go:122-135 | feeding the resolved source values back in changes nothing |
| Config.StartV1 | scotabc.go:104-108 | exits 0 exactly when a required parameter is empty, otherwise goes on with the flags unchanged |
| Config.StartVersionsDiffer | scotabc.go:104-108 | on the same missing parameter 2.0.0 exits 1 and 1.0.1 exits 0 |
| Pipeline.TransferUnit | main.go:230-238 | the unit is the largest of KB, MB, GB strictly below the amount, or B (same thresholds at scotabc.go:190-198) |
| Pipeline.TransferUnitMonotone | main.go:230-238 | a larger amount is never shown in a smaller unit |
| Pipeline.TransferUnitBoundaries | main.go:230-238 | the comparisons are strict: 1024 is B and 1025 is KB, and likewise at MB and GB |
| Pipeline.LogLine | main.go:200 | the error-log line is the time, the source line and the error text, separated by " ### " and ending in a newline |
| Pipeline.ExitTestIffQuiescent | main.go:240 | ExitTest, on counters that are current, holds exactly when a message has been received, nothing runs or waits, and every line read has been counted; whether the producer has finished is not asked |
| Pipeline.TasksOf | main.go:291-326 | the tasks of a run of lines, one per line |
| Pipeline.TasksOfAt | main.go:316-321 | the i-th task is made from the i-th line |
| Pipeline.Skipped | main.go:305-311 | an offset of K consumes min(K, n) of n lines |
| Pipeline.InitialAccounted | main.go:20-26 | every start-up outcome with the counters at zero satisfies the bookkeeping invariant |
| Pipeline.AccountedBalances | main.go:303-363 | fileTotal is always fileCount plus currentRoutineSize; held slots never exceed maxRoutineSize; currentRoutineSize exceeds the held slots by at most one |
| Pipeline.QuiescentAtExit | main.go:240-242 | when the exit test holds on the current counters nothing runs or waits, every line read is counted, and the finished workers are exactly the started ones |
| Pipeline.SkipKeepsAccounts | main.go:303-311 | a line inside the offset is counted, uses up one unit of offset and is not dispatched |
| Pipeline.DispatchKeepsAccounts | main.go:312-318 | past the offset the line's task is the next one in manifest order |
| Pipeline.ReadLineKeepsAccounts | main.go:291-326 | reading a line keeps the invariant: the first min(K, n) lines are skipped and the rest dispatched in order (same producer at scotabc.go:250-285); loaded counters stay sound |
| Pipeline.AcquireKeepsAccounts | main.go:320-321 | taking a slot starts the waiting task and keeps the invariant and the soundness of the loaded counters |
| Pipeline.FinishKeepsAccounts | main.go:292-301 | the end of the manifest or a read error keeps the invariant and the soundness of the loaded counters |
| Pipeline.CompleteKeepsAccounts | main.go:347-363 | a worker's deferred block moves it from running to finished and keeps the invariant; loaded counters stay sound |
| Pipeline.AccountsIgnoreMonitor | main.go:196-213 | the invariant does not depend on the messages, the error log, appRunning, the exit status or the amount transferred |
| Pipeline.LoadKeepsAccounts | main.go:190-193 | loading keeps the invariant, and the loaded counters are balanced: total = count + in flight |
| Pipeline.ReceiveKeepsAccounts | main.go:196-213 | receiving a message keeps the invariant |
| Pipeline.TickKeepsAccounts | main.go:240-242 | a tick keeps the invariant; an exit with status 0 happens only when, at the load, nothing was in flight and every line read was counted, a count the current one has reached |
| Pipeline.TickOnCurrentCounters | main.go:190-242 | a tick whose loaded counters are still current exits only with nothing running or waiting and every line read counted |
| Pipeline.ExitBeforeEndOfManifest | main.go:240-242 | after one line and its done message, a tick exits with status 0 while the producer is still reading |
| Pipeline.ExitWithWorkerInFlight | main.go:190-242 | the monitor loads the counters after the first done message, the producer then starts a second worker, and the tick exits with status 0 while that worker is running |
| Pipeline.MissingLocalFileLogged | main.go:196-242 | a silent run over one unopenable local file logs one line with its source line and the open error, counts the line, transfers nothing and exits with status 0 |
| Pipeline.Pipeline.Version2 | main.go:269-273 | the counters start at zero; an unopenable manifest (or error log, main.go:176-181) exits with status 1 |
| Pipeline.Pipeline.Version1 | scotabc.go:232-258 | an unopenable manifest is not fatal: the producer sends the nil file's read error and stops; an unopenable error log exits with status 1 (scotabc.go:136-141) |
| Pipeline.Pipeline.ReadLine | main.go:303-318 | the new state is ReadLineStep of the old: fileTotal + 1, then either an offset skip or a dispatched task (scotabc.go:262-277 alike) |
| Pipeline.Pipeline.AcquireSlot | main.go:320-321 | the new state is AcquireStep of the old: one more slot and the waiting task running |
| Pipeline.Pipeline.FinishReading | main.go:292-301 | the new state is FinishStep of the old: the "read!" notice or the read error is queued and the producer stops |
| Pipeline.Pipeline.Complete | main.go:347-363 | the new state is CompleteStep of the old: messages queued, totalTransferred advanced modulo 2^64, currentRoutineSize - 1, fileCount + 1, slot released |
| Pipeline.Pipeline.CompleteV2 | main.go:330-385 | a 2.0.0 worker completes with the report of Upload on its NewMeta outcome |
| Pipeline.Pipeline.CompleteV1 | scotabc.go:289-359 | a 1.0.1 worker completes with the report of ScotUpload.Upload |
| Pipeline.Pipeline.Load | main.go:190-193 | the new state is LoadStep of the old: the monitor holds the current counters |
| Pipeline.Pipeline.Receive | main.go:196-213 | the new state is ReceiveStep of the old: an error message is logged as "now ### source ### error", a failed write exits with status 1, otherwise appRunning latches; the monitor returns to the top of its loop |
| Pipeline.Pipeline.Tick | main.go:215-242 | reports the loaded fileCount of fileTotal with the transfer unit, and exits with status 0 exactly on the exit test of the loaded counters, which then showed nothing in flight |

## Left out

- Goroutines, channels and atomics are not modelled as such. Each goroutine step is one atomic method on the `Pipeline` object, and no interleaving or scheduling property is claimed.
- The messages channel is an unbounded sequence. A sender blocked on its capacity of `2 * maxRoutineSize` is not modelled.
- The monitor's four atomic loads are taken as one step. Other goroutines can run between those loads in the code.
- A negative `-c` makes `make(chan ...)` panic. `maxRoutineSize` is a `nat`.
- `fileTotal`, `fileCount` and `currentRoutineSize` are unbounded. Their uint64 wrap-around needs more than 2^64 lines. `totalTransferred` wraps modulo 2^64, and a negative size converts as `uint64(int64)` does.
- Console output is left out: startup banners, `log.Println` of errors and notices, and the float32 text of the transferred amount. Only the choice of unit is modelled.
- Profiling (pprof, MemStats) and flag parsing are left out. So are bucket listing and creation (`findBucket`, `checkAndCreateBucket`) and client memoization.
- internal/cephClient.go is not part of this model. It only configures the HTTP and S3 clients.
- The ACL request's Date and Host headers and the HMAC signature are left out. Only the CanonicalizedResource is modelled.
- The XML decoding, the HTTP round trip, `GetResponse`, `url.Parse`, `PutReader`, MIME detection and `os.Open`/`os.Stat` are function parameters.
- bufio's `ReadLine` splitting of lines over its buffer size (`isPrefix`) is left out. The manifest is a sequence of whole lines.
- `ioutil.ReadAll` errors are ignored in the code. The model's buffered body is the whole response body.
- Strings are sequences of characters. `strings.Replace` and `filepath.Ext` work on bytes, which agrees for ASCII text.
- The recover in `saveToBucketFromFile` is left out. So is the closing of readers and files.
- Both versions start the producer before they open the error log (main.go:148 before main.go:176; scotabc.go:134 before scotabc.go:136). The model takes the open's outcome at start-up, so it does not model what the producer or the workers do before that fatal exit.
- Pipeline.Pipeline.Valid: the object carries only the pool and in-flight counts. The history-based invariant `Accounted` and the soundness of the loaded counters (`MonitorSound`) are proved about the step functions the methods are specified by, not kept by the object.
