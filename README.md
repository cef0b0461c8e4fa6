# keyflicks: the signed-manifest and job-status engine, in Dafny

keyflicks streams uploaded videos over HLS. A transcoding worker writes each
upload's variant folders and a master playlist into a streaming bucket and
publishes `ready` or `failed` on the job's Redis channel. Two interchangeable
API servers, one in Go (gin) and one in Python (FastAPI), then do four jobs:

- they hand out upload URLs and start the worker from the storage webhook;
- they sign every segment line of a variant playlist with an MD5/base64url
  signature and an expiry;
- they rewrite the master playlist so that it points at the signing endpoint;
- they report job status, either from a listing of the bucket or as a
  server-sent event stream.

This project models that engine in both dialects, and the worker's side of
it, and proves what each part promises and where the two servers agree or
differ.

Modules (one file each):

- `Text`: Go's `strings` functions and the Python string methods the handlers use.
- `Numbers`: `%d`/`str()` and `strconv.Atoi`/`int()`.
- `Utf8` and `Base64Url`: the encodings, each with its decoder.
- `JsonText`: JSON string literals as `json.Marshal` and `json.dumps` write them.
- `Signer`: `md5Hex`/`signURI` and `md5hex`/`sign_uri`.
- `VariantPlaylist`: `RewritePlaylist` and `rewrite_playlist_blocking`.
- `MasterPlaylist`: `RewriteMasterPlaylist` and `make_modified_line`.
- `CachePolicy`: the freshness decisions of the three cached endpoints.
- `Sorting`: `sort.Ints` and `sorted()`.
- `StatusAggregation`: `Stream_status` and `get_status`.
- `StatusStream`: `Get_status` and `stream_status`.
- `Upload`: the upload URL and the webhook.
- `Worker`: `process_video_from_s3`.
- `Pipeline`: lemmas that connect the worker's output to the endpoints that read it.

Small helpers: `Wrappers` (Option), `Bytes` (the octet type) and `Dialects` (`Go | Python`).

The two servers are modelled side by side, with a `Dialect` parameter wherever
they share a shape. Loops in the source are methods, each proved equal to a
specification function:

- `Worker.BuildMasterLines`, `MasterPlaylist.RewriteMasterPlaylist`;
- the aggregation loops;
- the stream loops;
- the worker's upload loops over a `Storage` object.

The worker is generic over its variant list and its `variant_info` table. The
worker's own constants are `Worker.Variants` and `Worker.VariantTable`.

## Model

| member | source | states |
|---|---|---|
| Signer.DigestText | backend/internals/signature/sign.go:11-14 | whatever 16-byte digest MD5 gives, the text is 22 characters, all from `A-Z a-z 0-9 - _` |
| Signer.SignUri | backend/internals/signature/sign.go:16-19 | every signature is 22 base64url characters |
| Signer.SignatureDecodes | backend/internals/signature/sign.go:16-19 | decoding a signature as unpadded base64url gives back the MD5 digest of the UTF-8 bytes of expiry, path and secret; the encoding loses nothing |
| Signer.RawMessageInjective | backend/internals/signature/sign.go:17 | for paths that start with `/`, equal hashed texts mean equal expiry and equal path (the decimal part holds no `/`) |
| Signer.SignatureCovers | backend/internals/signature/sign.go:16-19 | distinct (expiry, path) pairs feed MD5 distinct byte strings |
| Signer.PyUnsetSecret | fastapi_backend_version/src/components/routes.py:156-159 | with `URI_SIGNATURE_SECRET` unset, Python signs with the public text `None`: the same signatures as Go under the secret `None`, and as Python with the secret set to `None` |
| Signer.PySignAgrees | fastapi_backend_version/src/components/routes.py:152-159 | with the secret configured, `sign_uri` equals Go's `signURI` |
| Base64Url.DecodeEncode | backend/internals/signature/sign.go:13 | decoding unpadded base64url (section 5 of RFC 4648) undoes encoding |
| Base64Url.EncodeLength | backend/internals/signature/sign.go:13 | n bytes give 4·⌊n/3⌋ symbols plus 0, 2 or 3 for the remainder, with no padding |
| Base64Url.DigestLength | fastapi_backend_version/src/components/routes.py:154 | a 16-byte digest gives 22 symbols once `=` is stripped |
| Utf8.DecodeEncode | backend/internals/signature/sign.go:17 | the `[]byte(...)` conversion is undone by UTF-8 decoding |
| Utf8.EncodeInjective | backend/internals/signature/sign.go:17 | distinct texts have distinct UTF-8 bytes |
| Utf8.EncodeAscii | fastapi_backend_version/src/components/routes.py:153 | ASCII text encodes one byte per character, with the same code |
| Numbers.Decimal | backend/internals/signature/sign.go:17 | `%d` text is non-empty, has no `/` and no line break, and is digits after an optional `-` |
| Numbers.DecimalInjective | backend/internals/signature/sign.go:17 | distinct integers have distinct `%d` texts |
| Numbers.GoAtoiDecimal | backend/internals/handlers/stream_handlers.go:437 | `strconv.Atoi` reads back the `%d` text of every int64 |
| Numbers.PyIntDecimal | fastapi_backend_version/src/components/routes.py:348 | `int()` reads back `str(n)` for every integer |
| Numbers.AtoiAgreesWithInt | backend/internals/handlers/stream_handlers.go:437 | on plain digits within int64, `Atoi` and `int()` give the same value, the number the digits denote |
| Numbers.PyDigitsClean | fastapi_backend_version/src/components/routes.py:348 | `int()` drops `_` between digit groups, leaving only digits |
| VariantPlaylist.RewriteByLine | backend/internals/signature/sign.go:21-31 | split at `\n`, the output has as many lines as the input; lines the pattern does not match are kept verbatim; matched lines become the signed `/videos/{id}/{res}/{line}?st=…&sig=…` URL |
| VariantPlaylist.SignedLineChecks | backend/internals/signature/sign.go:24-28 | a signed line parses back into its public path and expiry, and its `sig` is the signature of that path and expiry (the verifier's round trip) |
| VariantPlaylist.SignedLineOneLine | backend/internals/signature/sign.go:26-28 | signing adds no line break |
| VariantPlaylist.RewriteEmpty | backend/internals/signature/sign.go:30 | empty input gives empty output |
| VariantPlaylist.RewriteTrailingNewline | backend/internals/signature/sign.go:30 | the output ends in `\n` iff the input does |
| VariantPlaylist.DialectsAgree | fastapi_backend_version/src/components/routes.py:161-174 | when no line starts with a character that only one regex engine counts as `\s`, Python's rewrite equals Go's |
| VariantPlaylist.VerticalTabLine | fastapi_backend_version/src/components/routes.py:166 | a line led by a vertical tab is a segment line for RE2 but not for Python `re` |
| VariantPlaylist.DialectsDiffer | fastapi_backend_version/src/components/routes.py:161-174 | on that line Go signs and Python copies, so the two rewriters differ |
| MasterPlaylist.RewriteMasterPlaylist | backend/internals/signature/sign.go:33-70 | the loop returns the Go master rewrite |
| MasterPlaylist.GoMasterLineKinds | backend/internals/signature/sign.go:44-61 | a line blank or `#`-led after `TrimSpace` is copied untrimmed; any other line becomes `/api/playlist/{id}/{dir}`, where `dir` is the trimmed line up to its first `/` |
| MasterPlaylist.GoMasterLineChars | backend/internals/signature/sign.go:53-61 | every character of a rewritten line comes from the input line, the id or `/api/playlist/` |
| MasterPlaylist.PyMasterLineChars | fastapi_backend_version/src/components/routes.py:277-289 | the same for `make_modified_line` |
| MasterPlaylist.MasterAddsNoQuery | fastapi_backend_version/src/components/routes.py:277-292 | when neither the stored master nor the id holds `?`, no rewritten line and no rewritten master of either server holds one, so the master rewrite adds no `?st=`/`sig=` query |
| MasterPlaylist.SlashStripNoop | fastapi_backend_version/src/components/routes.py:287 | `lstrip('/').rstrip('/')` on the text before the first `/` changes nothing |
| MasterPlaylist.GoMasterShape | backend/internals/signature/sign.go:36-69 | the output ends in `\n`; without that `\n` it splits into exactly one rewritten line per `\n`-separated input piece |
| MasterPlaylist.GoMasterEmpty | backend/internals/signature/sign.go:69 | `""` gives `"\n"` |
| MasterPlaylist.GoMasterDoubleNewline | backend/internals/signature/sign.go:36-69 | input ending in `\n` gives output ending in `\n\n` |
| MasterPlaylist.PyMasterEmpty | fastapi_backend_version/src/components/routes.py:291-292 | `""` gives `"\n"` |
| MasterPlaylist.PyMasterSingleNewline | fastapi_backend_version/src/components/routes.py:275-292 | when the last line is non-empty, the output ends in exactly one `\n` |
| MasterPlaylist.MasterLinesAgree | fastapi_backend_version/src/components/routes.py:277-289 | on a line with no leading or trailing whitespace, `make_modified_line` and the Go loop body agree |
| MasterPlaylist.MasterLinesListAgree | fastapi_backend_version/src/components/routes.py:291 | the same for whole line lists |
| MasterPlaylist.MastersAgree | fastapi_backend_version/src/components/routes.py:275-292 | unpadded lines joined with `\n` (last line non-empty) give the same master in both servers |
| MasterPlaylist.GoMasterOfJoin | backend/internals/signature/sign.go:36-69 | on such a text, Go's output is its rewritten lines joined with `\n`, plus `\n` |
| MasterPlaylist.PyMasterOfJoin | fastapi_backend_version/src/components/routes.py:275-292 | the same for Python |
| MasterPlaylist.MastersDisagreeOnFinalNewline | fastapi_backend_version/src/components/routes.py:291-292 | input ending in `\n` (last line non-empty) makes the two servers' masters differ |
| CachePolicy.TTL | backend/cmd/my-app/main.go:144 | the signature lifetime (1800 s in Go, 3600 s in Python) exceeds the 1500 s refresh threshold |
| CachePolicy.ServePlaylist | backend/internals/handlers/stream_handlers.go:246-308 | serves the cached playlist when it is fresh and writes nothing. Otherwise it serves the variant rewrite of the fetched text, signed with expiry `now + TTL`, and requests a write of `{body, now + TTL}` under `playlist:{id}:{res}` with lifetime TTL + 300. 404 iff nothing is cached and nothing is fetched |
| CachePolicy.FreshWindow | backend/internals/handlers/stream_handlers.go:258-271 | a rebuilt entry is served iff `now < written + TTL − 1500` (300 s in Go, 2100 s in Python); it is never served altered |
| CachePolicy.LifetimeCoversWindow | backend/internals/handlers/stream_handlers.go:294-308 | Redis keeps the entry through the whole fresh window |
| CachePolicy.ServedIsFresh | fastapi_backend_version/src/components/routes.py:187-200 | any served entry has more than 1500 s of signature left; Python serves only entries with both fields |
| CachePolicy.PlaylistWriteThenRead | backend/internals/handlers/stream_handlers.go:258-308 | what a rebuild writes, a later read within the window serves unchanged and without a new write |
| CachePolicy.ServedSignaturesOutlive | backend/internals/handlers/stream_handlers.go:290-291 | in a playlist rebuilt at `written` and still fresh at `later`, every segment line checks against its path and expiry, and that expiry is more than 1500 s after `later` |
| CachePolicy.CachedPlaylistOutlives | backend/internals/handlers/stream_handlers.go:258-308 | end to end: what the endpoint serves from its cache at `later`, after a rebuild at `now` stored it, has one line per stored line, and every segment line in it passes the signature check with an expiry more than 1500 s after `later` |
| CachePolicy.ServeMaster | backend/internals/handlers/stream_handlers.go:319-365 | any decodable cached master is served, with no time check. Otherwise the server's master rewrite of the fetched text is served and stored under `master:{id}` for TTL. 404 iff nothing is cached or fetched |
| CachePolicy.MasterWriteThenRead | fastapi_backend_version/src/components/routes.py:254-304 | a stored master is served back unchanged, without a new write |
| CachePolicy.ServeStatus | backend/internals/handlers/stream_handlers.go:389-470 | a cached status is served as is. On a miss, the reply is written iff it is a 200, and errors are 404 or 500 as aggregation decides |
| CachePolicy.StatusMiss | fastapi_backend_version/src/components/routes.py:316-362 | on a miss the aggregated reply is served and stored under `upload_status:{id}` for TTL; errors store nothing |
| CachePolicy.StatusWriteThenRead | backend/internals/handlers/stream_handlers.go:390-399 | a stored status is served unchanged, even after the bucket changes |
| CachePolicy.KeyFamiliesDisjoint | backend/internals/handlers/stream_handlers.go:249 | the `playlist:`, `master:` and `upload_status:` keys never collide |
| Sorting.Sort | backend/internals/handlers/stream_handlers.go:446 | the result is ascending and a permutation of the input |
| Sorting.SortedUnique | fastapi_backend_version/src/components/routes.py:353 | two ascending lists with the same elements are equal, so `sort.Ints` and `sorted()` agree |
| Sorting.SortPermutation | backend/internals/handlers/stream_handlers.go:446 | sorting depends only on the multiset of elements, so the order of map iteration does not matter |
| StatusAggregation.KeySet | backend/internals/handlers/stream_handlers.go:420-424 | every listed object's prefix-stripped name is a key, and every key comes from a listed object |
| StatusAggregation.CollectKeys | backend/internals/handlers/stream_handlers.go:420-424 | the loop builds exactly that key set |
| StatusAggregation.GoKeyResolution | backend/internals/handlers/stream_handlers.go:433-441 | one key adds at most one resolution: the `Atoi` value of its first `/`-piece without `p`, for a key containing `/` that ends in `playlist.m3u8` |
| StatusAggregation.GoResolutions | backend/internals/handlers/stream_handlers.go:429-443 | in whatever order the map yields the keys, the loop collects the same multiset of resolutions |
| StatusAggregation.GoStreamStatus | backend/internals/handlers/stream_handlers.go:403-451 | the handler's reply on a cache miss is the Go aggregation |
| StatusAggregation.PyKeyResolution | fastapi_backend_version/src/components/routes.py:337-348 | one key raises iff its label is not an `int()`; otherwise it adds what its contribution says |
| StatusAggregation.PyResolutions | fastapi_backend_version/src/components/routes.py:334-348 | the loop raises iff some key's label is not an `int()`; otherwise it collects the multiset of contributions |
| StatusAggregation.PyGetStatus | fastapi_backend_version/src/components/routes.py:325-354 | the handler's reply on a cache miss is the Python aggregation |
| StatusAggregation.AggregateMeaning | backend/internals/handlers/stream_handlers.go:405-446 | a listing error (500) iff the listing fails; 404 iff it is empty; a conversion error (Python only, a 500) iff `master.m3u8` is a key and some key's label makes `int()` raise; otherwise `ready` iff `master.m3u8` is a key, else `processing` with `[]`. The resolutions are ascending and, when ready, are exactly the keys' contributions, duplicates included |
| StatusAggregation.ResolutionsFromKeys | backend/internals/handlers/stream_handlers.go:429-443 | a value is reported iff some key contributes it |
| StatusAggregation.GoNeverRaises | backend/internals/handlers/stream_handlers.go:437 | a label `Atoi` rejects is skipped, so Go never fails on labels |
| StatusAggregation.SlashlessSkipped | fastapi_backend_version/src/components/routes.py:343-348 | although Python does not test for `/`, a key without one contributes nothing |
| StatusAggregation.ContributionsAgree | fastapi_backend_version/src/components/routes.py:343-348 | on labels of plain digits within int64, each key contributes the same in both servers |
| StatusAggregation.GatheredRemove | backend/internals/handlers/stream_handlers.go:431 | the multiset gathered does not depend on which key is taken first |
| StatusAggregation.GatheredMembers | backend/internals/handlers/stream_handlers.go:431-442 | a value is gathered iff some key adds it |
| StatusStream.GoStream | backend/internals/handlers/stream_handlers.go:174-239 | 400 iff the id is empty. Otherwise one `data: …\n\n` frame per status pushed; the stream is closed iff the session ended, and the subscription is released on every exit |
| StatusStream.PyStream | fastapi_backend_version/src/components/routes.py:82-106 | one frame per status pushed; the stream ends with the session; the subscription is released only when the client disconnects |
| StatusStream.PyStreamReleasing | fastapi_backend_version/src/components/routes.py:82-106 | with the close moved to a `finally`, the subscription is released on every exit |
| StatusStream.Advance | backend/internals/handlers/stream_handlers.go:198-238 | one step of the loop: a disconnect ends the session with nothing more sent; an idle wake-up sends nothing; a message is sent, and ends the session iff it is `ready` or `failed` |
| StatusStream.ResumesAtEnd | backend/internals/handlers/stream_handlers.go:198 | a trace that runs out leaves the session open, having sent every status |
| StatusStream.FirstExit | backend/internals/handlers/stream_handlers.go:225-236 | finds the first event that ends a session; none before it does |
| StatusStream.RunByFirstExit | backend/internals/handlers/stream_handlers.go:198-238 | a session sends every status up to and including the first terminal status or disconnect, and ends for that reason |
| StatusStream.RunShape | backend/internals/handlers/stream_handlers.go:225-228 | no status but the last one sent is terminal, and the session finished iff the last one is |
| StatusStream.FramesCounted | fastapi_backend_version/src/components/routes.py:100-104 | the same for the frames Python yields |
| StatusStream.SessionExamples | backend/internals/handlers/stream_handlers.go:198-238 | `processing, processing, ready` sends three and finishes; `failed, processing` sends one; a disconnect stops `processing, ⏏, ready` after one |
| StatusStream.PyKeepsSubscription | fastapi_backend_version/src/components/routes.py:103-104 | after `ready` the Python session ends without a disconnect, so the as-written stream keeps its subscription |
| StatusStream.StatusJsonOneLine | backend/internals/handlers/stream_handlers.go:215 | the status object has no line break, and its string literal reads back as the status |
| StatusStream.GoFrameIsOneEvent | backend/internals/handlers/stream_handlers.go:219 | a Go frame ends in `\n\n` and has no other line break, so each status is one event |
| StatusStream.PyFrameIsOneLine | fastapi_backend_version/src/components/routes.py:102 | a Python event's data is one line |
| StatusStream.PlainStatusQuoted | fastapi_backend_version/src/components/routes.py:102 | a status made of letters, digits and `_` is written verbatim between quotes |
| JsonText.UnescapeEscapeAll | backend/internals/handlers/stream_handlers.go:215 | JSON decoding undoes the string escaping of `json.Marshal` and of `json.dumps` |
| JsonText.UnquoteQuote | fastapi_backend_version/src/components/routes.py:102 | a quoted literal reads back as the text it quotes |
| JsonText.QuoteOneLine | backend/internals/handlers/stream_handlers.go:215 | a quoted literal is one line, whatever it quotes |
| JsonText.Hex4RoundTrip | fastapi_backend_version/src/components/routes.py:102 | four hex digits read back as the code unit they write |
| JsonText.PlainVerbatim | fastapi_backend_version/src/components/routes.py:102 | letters, digits and `_` are written as themselves |
| Text.JoinSplit | backend/internals/signature/sign.go:36-69 | splitting at a separator and joining with it gives the text back |
| Text.SplitJoin | backend/internals/signature/sign.go:69 | joining pieces free of the separator and splitting again gives the pieces back |
| Text.SplitLinesJoin | fastapi_backend_version/src/components/routes.py:275 | `splitlines()` undoes joining boundary-free lines with `\n` |
| Text.TrimEmpty | backend/internals/signature/sign.go:44-45 | trimming leaves `""` only when every character is stripped |
| Text.ReplaceAllAbsent | backend/internals/handlers/stream_handlers.go:101 | replacing a pattern that does not occur changes nothing |
| Upload.Hex | fastapi_backend_version/src/components/routes.py:30 | two lower-case hex digits per byte |
| Upload.HexDecodes | fastapi_backend_version/src/components/routes.py:30 | the digits at 2i and 2i+1 read back as the high and low halves of byte i |
| Upload.HexInjective | fastapi_backend_version/src/components/routes.py:30 | distinct UUIDs give distinct ids |
| Upload.VideoIDsAgree | backend/internals/handlers/stream_handlers.go:53-54 | for the same UUID, Go's dash-free text equals Python's `.hex`: 32 lower-case hex digits, with no `/` and no `.` |
| Upload.GoExt | backend/internals/handlers/stream_handlers.go:56 | `filepath.Ext` is a suffix starting at the last `.` with no further `.` and no `/`, or empty |
| Upload.GoExtension | backend/internals/handlers/stream_handlers.go:56-59 | the Go extension is never empty: `mp4` stands in for a missing one |
| Upload.PyExtension | fastapi_backend_version/src/components/routes.py:31 | the Python extension never contains a `.` |
| Upload.ExtensionOf | backend/internals/handlers/stream_handlers.go:56-59 | `name.Ext` gives Go `ext` lower-cased and Python `Ext` unchanged |
| Upload.TrailingDot | fastapi_backend_version/src/components/routes.py:31 | `name.` gives Go `mp4` and Python `""` |
| Upload.NoExtension | backend/internals/handlers/stream_handlers.go:56-59 | a name without `.` gives `mp4` in both |
| Upload.UploadKeysAgree | backend/internals/handlers/stream_handlers.go:61 | when the extension has no upper-case letter, both servers derive the same `pending/{id}.{ext}` key |
| Upload.GoContentType | backend/internals/handlers/stream_handlers.go:63-67 | the content type is never empty (octet-stream by default) |
| Upload.PyContentType | fastapi_backend_version/src/components/routes.py:34-36 | the same for Python |
| Upload.GoProto | backend/internals/handlers/stream_handlers.go:83-86 | the scheme is never empty (`http` by default) |
| Upload.GoHeaderMap | backend/internals/handlers/stream_handlers.go:88 | the server's header map holds every header except `Host` |
| Upload.PublicUrlMovesOrigin | backend/internals/handlers/stream_handlers.go:99-101 | a URL on `http://localhost:9000` moves to `{proto}://{host}` and keeps its path and query |
| Upload.PublicUrlElsewhere | fastapi_backend_version/src/components/routes.py:64-67 | a URL that does not mention the local endpoint is never changed |
| Upload.GoUploadAsWritten | backend/internals/handlers/stream_handlers.go:49-109 | 500 iff presigning fails; otherwise the reply carries the dash-free id, the key `pending/{id}.{ext}`, and the presigned URL unchanged |
| Upload.GoHostNeverSeen | backend/internals/handlers/stream_handlers.go:88-97 | `c.GetHeader("host")` is always empty, so the as-written handler returns the local URL untouched |
| Upload.GoUpload | backend/internals/handlers/stream_handlers.go:49-109 | 500 iff presigning fails; otherwise the reply carries the dash-free id and the key `pending/{id}.{ext}` |
| Upload.GoUploadUsesHost | backend/internals/handlers/stream_handlers.go:88-101 | reading the host from the request, both servers move the URL to the origin the client used |
| Upload.PyUpload | fastapi_backend_version/src/components/routes.py:25-76 | 500 iff presigning fails; otherwise the reply carries the hex id and the key `pending/{id}.{ext}` |
| Upload.PyUploadUsesHost | fastapi_backend_version/src/components/routes.py:56-67 | when the request names a host, Python returns the presigned local URL moved to `{proto}://{host}`, keeping its path and query |
| Upload.PyUploadKeepsUrl | fastapi_backend_version/src/components/routes.py:56-67 | without a Host header, or for a URL off the local endpoint, Python returns the presigned URL unchanged |
| Upload.KeyUploadID | backend/internals/handlers/stream_handlers.go:152-158 | the id read from a key has no `.` and no `/` |
| Upload.KeyRoundTrip | backend/internals/handlers/stream_handlers.go:152-158 | the id read back from `pending/{id}.{ext}` is the id it was built from, whatever the extension |
| Upload.GoWebhook | backend/internals/handlers/stream_handlers.go:112-171 | 400 iff the body does not bind; 422 when `Records` is missing, empty or not led by an object, when the key does not unescape, or when it is empty or has no `/`; otherwise a dispatch of the key and the id read from it, or 500 when the dispatch fails |
| Upload.PyWebhookAsWritten | fastapi_backend_version/src/components/routes.py:112-139 | a lookup error is 422 and any other error 500; an empty key is 500; any other key is handled as in the corrected handler |
| Upload.PyWebhook | fastapi_backend_version/src/components/routes.py:112-139 | a lookup error is 422 and any other error 500; an empty key is 422; a key with no `/` is 422; otherwise a dispatch of the key and the id read from it, or 500 when sending fails |
| Upload.WebhookFindsUpload | backend/internals/handlers/stream_handlers.go:135-165 | a notification for an issued key starts the job for that key and its id, in both servers |
| Upload.EmptyKeyAnswers | fastapi_backend_version/src/components/routes.py:125-139 | a key that decodes to `""`: Go answers 422, Python as written 500, corrected 422 |
| Upload.WebhooksAgree | fastapi_backend_version/src/components/routes.py:118-136 | on a notification whose key both decoders read alike, the two servers answer alike |
| Upload.MalformedBodies | backend/internals/handlers/stream_handlers.go:115-125 | a body that is not JSON gets 400 in Go and 500 in Python; a missing or empty `Records` gets 422 in both |
| Worker.VariantLines | worker_application/app/tasks.py:111-114 | each variant adds two lines |
| Worker.BuildMasterLines | worker_application/app/tasks.py:110-114 | the loop builds the header followed by two lines per variant |
| Worker.VariantLinesAt | worker_application/app/tasks.py:111-114 | lines 2k and 2k+1 of the variant lines belong to variant k |
| Worker.MasterInfLine | worker_application/app/tasks.py:113 | line 2k+2 is variant k's `#EXT-X-STREAM-INF:BANDWIDTH=…,RESOLUTION=…` line, from its table entry |
| Worker.MasterUriLine | worker_application/app/tasks.py:114 | line 2k+3 is `{res}p/playlist.m3u8` |
| Worker.MasterLayout | worker_application/app/tasks.py:110-114 | a master has 2 + 2n lines: the two header lines, then for each variant in order its STREAM-INF line and its playlist line |
| Worker.TaskMasterLines | worker_application/app/tasks.py:103-114 | the worker's master has ten lines, and line 6 announces 720 with bandwidth 2800000 and `1280x720` |
| Worker.TaskMasterText | worker_application/app/tasks.py:116-118 | the uploaded text ends in `1080p/playlist.m3u8`, with no line break after it |
| Worker.FolderPuts | worker_application/app/tasks.py:82-94 | one put per uploaded file, in walk order, under `videos/{id}/{res}p/{rel}` |
| Worker.UploadFolder | worker_application/app/tasks.py:82-94 | the bucket gains exactly the folder's uploaded files, the log gains their puts, and the pending bucket is untouched |
| Worker.SegmentPuts | worker_application/app/tasks.py:97-99 | segment uploads only put objects |
| Worker.UploadSegments | worker_application/app/tasks.py:97-99 | the bucket and log gain every folder's objects and puts, variant by variant |
| Worker.SegmentsSnoc | worker_application/app/tasks.py:98-99 | one more folder adds its puts and objects after the previous ones |
| Worker.PublishMaster | worker_application/app/tasks.py:110-129 | the master is stored with the joined lines unless its write or upload raises, and `ready` is published iff nothing raises |
| Worker.TryBlock | worker_application/app/tasks.py:26-129 | the block fails iff a step raises; it leaves the uploads made before that and publishes `ready` only on success |
| Worker.ProcessVideo | worker_application/app/tasks.py:17-145 | the job raises iff a step did, logs exactly the run's trace, stores the run's objects, and removes the pending upload iff the delete succeeds |
| Worker.OneStatusThenDelete | worker_application/app/tasks.py:129-145 | every run publishes exactly one status, `ready` or `failed`, and the delete is its last effect |
| Worker.ReadyAfterMaster | worker_application/app/tasks.py:121-129 | `ready` comes right after the master put, which follows all segment puts |
| Worker.SegmentFailuresUnobserved | worker_application/app/tasks.py:97-99 | whether segment uploads raise changes nothing about the status published |
| Worker.MasterWritten | worker_application/app/tasks.py:116-126 | a run that publishes `ready` holds the master text under `videos/{id}/master.m3u8` |
| Pipeline.Present | worker_application/app/tasks.py:82-94 | for each folder, whether its `playlist.m3u8` was uploaded |
| Pipeline.ListedOrigin | worker_application/app/tasks.py:98-99 | a listed resolution is a variant whose playlist was uploaded |
| Pipeline.ListedHas | worker_application/app/tasks.py:98-99 | every such variant is listed |
| Pipeline.ListedDistinct | worker_application/app/tasks.py:38 | distinct variants list distinct resolutions |
| Pipeline.ListedAll | worker_application/app/tasks.py:38 | with every playlist uploaded, every variant is listed |
| Pipeline.FolderObjectOrigin | worker_application/app/tasks.py:87 | each object of a folder is the key of one of its files |
| Pipeline.SegmentObjectOrigin | worker_application/app/tasks.py:87 | each segment object of a run is an uploaded file of some variant folder |
| Pipeline.SegmentObjectStored | worker_application/app/tasks.py:87 | every uploaded file of every folder is stored |
| Pipeline.RunKeys | backend/internals/handlers/stream_handlers.go:420-424 | a listing of what a run stored yields the keys `master.m3u8` (when written) and `{res}p/{rel}` for every uploaded file (unless the run failed early), and no others |
| Pipeline.PlaylistKeyGain | backend/internals/handlers/stream_handlers.go:433-438 | both servers read `{res}p/playlist.m3u8` back as `res` |
| Pipeline.SegmentSkipped | backend/internals/handlers/stream_handlers.go:433 | a `.ts` segment's name adds nothing |
| Pipeline.MasterSkipped | fastapi_backend_version/src/components/routes.py:343 | `master.m3u8` adds nothing |
| Pipeline.PlaylistKeyInjective | worker_application/app/tasks.py:114 | distinct resolutions have distinct playlist names |
| Pipeline.GatheredSkips | backend/internals/handlers/stream_handlers.go:431-442 | keys that all add nothing gather nothing |
| Pipeline.GatheredAdds | backend/internals/handlers/stream_handlers.go:431-442 | keys holding one distinct name per resolution, and otherwise adding nothing, gather exactly those resolutions |
| Pipeline.ListedFound | backend/internals/handlers/stream_handlers.go:433-441 | every listed resolution has its playlist key among the run's keys, and that key adds exactly that resolution |
| Pipeline.StoredKeyGain | backend/internals/handlers/stream_handlers.go:433-441 | any key of a run either adds nothing or is the playlist key of a listed resolution |
| Pipeline.ReadyKeys | backend/internals/handlers/stream_handlers.go:429-443 | the keys of a run that wrote its master gather exactly the listed resolutions, and no key raises in Python |
| Pipeline.StatusWhileMissing | backend/internals/handlers/stream_handlers.go:413-430 | before the master exists, a listing of the run is 404 or `processing` with `[]` |
| Pipeline.StatusWhenReady | backend/internals/handlers/stream_handlers.go:429-451 | once the master exists, a complete listing of the run is `ready` with the sorted resolutions of the uploaded playlists |
| Pipeline.StatusAfterRun | worker_application/app/tasks.py:82-129 | both cases together, for any run whose objects fit one listing page, and either server |
| Pipeline.KeyLessAfterPrefix | backend/internals/s3_store/s3_store.go:62-77 | in listing order, keys under one prefix are ordered by their first differing character after it |
| Pipeline.SegmentBeforeMaster | backend/internals/s3_store/s3_store.go:62-77 | every segment or playlist key of a run lists before the run's `master.m3u8` |
| Pipeline.PageMisses | backend/internals/s3_store/s3_store.go:62-77 | in an ascending listing, a key with at least a page of smaller keys is not on the first page, which is full |
| Pipeline.FirstPageOfLongRun | backend/internals/s3_store/s3_store.go:62-77 | a run that stored at least a page of segments and playlists has no master on the first page, and either server reports it `processing` with `[]` |
| Pipeline.CompleteRunReady | worker_application/app/tasks.py:38 | a run whose objects fit one listing page and that uploaded every playlist of sorted, distinct variants reports exactly those variants |
| Pipeline.TaskRunReady | worker_application/app/tasks.py:38 | for the worker's own variants and a run whose objects fit one listing page, that is `ready` with `[360, 480, 720, 1080]` |
| Pipeline.PublishFailureStillReady | worker_application/app/tasks.py:129-137 | when only the `ready` publish raises, the run publishes `failed` while both status endpoints already report `ready` |
| Pipeline.TaskVariants | worker_application/app/tasks.py:38-108 | the worker's variants are sorted, distinct and within int64, all in the table, with printable frame sizes |
| Pipeline.MasterLinesVisible | worker_application/app/tasks.py:110-114 | every master line is printable ASCII without spaces |
| Pipeline.MasterReadersAgree | worker_application/app/tasks.py:114-118 | Go's and Python's master rewrites return the same text for any master the worker writes |
| Pipeline.StreamEndsOnRunStatus | worker_application/app/tasks.py:129-137 | a client subscribed before the run's one status arrives gets every earlier status, then that one, and the stream finishes |
| Pipeline.UploadReachesWorker | backend/internals/handlers/stream_handlers.go:61 | the key an upload URL is issued for, once notified, starts the job for the issued id and key in both servers |

## Left out

- MD5 is a parameter, a function from bytes to a 16-byte digest. The model covers what is hashed and how the digest is written, not the digest itself.
- UUID generation, `mime.TypeByExtension`/`mimetypes.guess_type`, presigning, `url.QueryUnescape`/`unquote_plus` and the Celery dispatch are parameters or outcomes passed in: code outside the repository.
- The clock is a parameter (`now`).
- The Redis and storage reads are given as their results: a miss, an undecodable value or a hit for Redis; the fetched text or nothing for storage.
- JSON decoding of cache envelopes is given by its result. The Go server's `h.redis != nil` guard and a failing background write are not modelled.
- A background cache write is returned as a write request; its goroutine or `BackgroundTasks` scheduling is not modelled.
- Concurrency is not modelled. The segment uploads of the worker's thread pool are taken in variant order, and a folder's upload stops at the first file that raises. The model does not capture interleavings between folders.
- The transcode itself (ffmpeg, `subprocess`, `os.walk`, temporary directories) is not modelled. Each variant folder is given as the files it holds; `HlsFolders` says they are the playlist and `.ts` segments.
- `self.update_state` (tasks.py line 135) has no effect on what the engine reads and is not modelled.
- A `failed` publish that itself raises is not modelled.
- SSE framing beyond the data line is not modelled: gin's `c.Stream` flush, `EventSourceResponse` pings, the 20-second poll timeout. An idle wake-up is an `Idle` event.
- `verify_webhook_token` (routes.py lines 21-23) is not modelled: it checks a shared secret before the handler runs.
- The registration in app.py is not part of this model.
- `make_modified_line` takes the line's first `/`-piece with `split`. Python's `strip()` and Go's `TrimSpace` are modelled on their whitespace sets.
- `strings.ToLower` is modelled for ASCII letters only.
- `int()` is modelled for optional sign, surrounding whitespace, digits and `_` groups. Non-ASCII digits are not modelled.
- Signatures and expiries are unbounded integers. Go's `int64` is modelled only where it decides an outcome: `Atoi` range and the expiry in `%d`.
- Strings are sequences of Unicode scalar values. The Go handlers work on bytes, so invalid UTF-8 in a stored playlist passes through Go's rewrite; that is not modelled. Python's `message['data'].decode('utf-8')` (routes.py line 100) raises on a non-UTF-8 payload and ends the stream with an error; that is not modelled either, and every payload is a string.
- Pipeline.StatusAfterRun, Pipeline.StatusWhenReady, Pipeline.CompleteRunReady, Pipeline.TaskRunReady, Pipeline.StatusWhileMissing, Pipeline.PublishFailureStillReady: these take the listing to hold every object the run stored. Both servers read a single page of at most 1000 keys, in ascending byte order (s3_store.go lines 62-77 with stream_handlers.go line 407; routes.py line 326), and `master.m3u8` sorts after every `{res}p/` key, so these lemmas hold only for runs whose objects fit one page. `Pipeline.FirstPageOfLongRun` states what a longer run gets.
- Three behaviours of the code that a reader might expect otherwise, each modelled as written:
  - the Go master rewrite adds `\n` after the join even when the input already ends in one (sign.go line 69);
  - Python's extension is not lower-cased (routes.py line 31), while Go's is;
  - the Go aggregation sorts but does not deduplicate resolutions (stream_handlers.go line 446).

## Findings

| source | as written | input that shows it | evidently intended | confidence | as-written member | corrected member |
|---|---|---|---|---|---|---|
| fastapi_backend_version/src/components/routes.py:103-104 | after `ready`/`failed` the generator `break`s without `pubsub.close()`, which runs only on the disconnect branch | a session receiving `ready` | the subscription is released on every exit, as the Go handler's `defer` does | not executed | StatusStream.PyStream, StatusStream.PyKeepsSubscription | StatusStream.PyStreamReleasing |
| fastapi_backend_version/src/components/routes.py:125-139 | the `HTTPException(422)` for an empty key is caught by `except Exception` and re-raised as 500 | a notification whose key decodes to `""` | 422, as the message says and as Go answers | not executed | Upload.PyWebhookAsWritten, Upload.EmptyKeyAnswers | Upload.PyWebhook |
| backend/internals/handlers/stream_handlers.go:88 | the host is read with `c.GetHeader("host")`, but Go's server moves `Host` out of the header map, so it is always `""` and the URL stays on `localhost:9000` | any request with `Host: example.com` | the host the client used (`c.Request.Host`), as Python reads it | not executed | Upload.GoUploadAsWritten, Upload.GoHostNeverSeen | Upload.GoUpload, Upload.GoUploadUsesHost |
| backend/internals/s3_store/s3_store.go:62-77 | one `ListObjectsV2` call with no continuation token, and Python likewise makes one `list_objects_v2` call (routes.py line 326); a page holds at most 1000 keys in byte order, and `master.m3u8` sorts after every `{res}p/` key | a run that stored 1000 or more segments and playlists, about 250 six-second segments per variant | every page of the listing is read, so a finished run is `ready` with its resolutions | not executed | Pipeline.FirstPageOfLongRun | Pipeline.StatusWhenReady, Pipeline.CompleteRunReady |
