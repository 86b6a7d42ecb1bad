# Linkify share lifecycle, modelled in Dafny

Linkify is a file-sharing web service. A user uploads a file and gets a share link, and can ask the service to email that link once. The share link opens a page whose download route, `/files/download/<token>`, redirects to the stored blob. A daily job deletes every share older than 24 hours. This project models that lifecycle, plus the CORS origin check of the web application. The document store, the blob store and the mail relay are replaced by an in-memory model:

- `FilesRoutes.FileStore.records` is the document store: a map from token (`uuid`) to `FileRecord`.
- `FilesRoutes.FileStore.blobs` is the blob store: the set of blob keys (`public_id`).
- `FilesRoutes.FileStore.effects` is the writes and mail deliveries requested of outside services, in order; each is recorded whether or not it succeeded. Lookups (`File.findOne` in send and download) and the sweep's query are not recorded; their outcomes are the `lookup` and `query` parameters.

Each call into an outside service has an outcome, `Records.Outcome`: `Pass`, or `Fail(message)`. The caller supplies it, together with the clock (`now`) and the fresh token.

Modules, one per source file:

- `Records`: the shared data model, JavaScript truthiness of body fields, `error.message || ...`, and the size limit.
- `Decimal`: the decimal text of a number (`String(n)`) and its reading back (`parseInt`).
- `FilesRoutes` (`routes/files.routes.js`):
  - the store class, with `Upload` and `Send` as methods that change it;
  - the share link and the size label, as functions.
- `DownloadRoutes` (`routes/download.routes.js`): `Resolve`, a function of the record map. It never writes, so a token resolves the same way any number of times.
- `ExpirySweep` (`script.js`):
  - `DeleteData` and its loop body `SweepRecord`, proved equal to the fold `SweepAll` of the one-record step `Step` over the query's snapshot;
  - the log printed by the job, `Report`;
  - lemmas about `SweepAll`.
- `Cors` (`app.js`): `split(",")`, `trim()`, the allow-list and the origin decision.
- `Lifecycle`: end-to-end scenarios (upload, resolve, two sends, a sweep 25 hours later, the size limit, an unset base URL), proved on a freshly allocated store.

Behaviour of the code that is easy to misread:

- The upload limit is 100 × 1024 × 1024 bytes, not 10^8. A "101 MB" upload of 101,000,000 bytes is therefore accepted (`Lifecycle.SizeLimit`).
- Upload without a file answers with HTTP status 200 and the body `{error: "All fields are required."}`, not with an error status.
- The sweep reports only through console lines, modelled as `ExpirySweep.LogLine`. It returns no deleted/failed summary.
- A request-body field counts as missing when it is absent or the empty string (JavaScript falsiness).
- An unset `APP_BASE_URL` is interpolated into the share link as the text "undefined" (`Records.EnvText`; `Lifecycle.UnsetBaseUrl`).
- The sweep's cutoff is `now` minus 24 hours in milliseconds (`ExpirySweep.Cutoff`), and a record created exactly at the cutoff is kept (`ExpirySweep.Expired` is strict).

## Model

| member | source | states |
|---|---|---|
| `Records.Truthy` | routes/files.routes.js:83 | defines JavaScript truthiness of an optional string: present and not empty |
| `Records.EnvText` | routes/files.routes.js:72 | defines how a template literal prints an environment value: the value when set, the text "undefined" when unset (also at line 114) |
| `Records.ErrorText` | routes/files.routes.js:127 | the reported error text is the error's message when that is not empty, and "Something went wrong" when it is; it is never empty |
| `Decimal.NatToDecimal` | routes/files.routes.js:115 | the decimal text of a number is non-empty and all digits, and it starts with '0' only when the number is 0, whose text is exactly "0" |
| `Decimal.DecimalRoundTrip` | routes/files.routes.js:115 | reading back the decimal text of n (as `parseInt` does) gives n |
| `Decimal.DecimalInjective` | routes/files.routes.js:115 | different kilobyte counts never get the same text |
| `FilesRoutes.FileUrl` | routes/files.routes.js:71-73 | the link is the base URL, then "/files/", then the token |
| `FilesRoutes.FileUrlInjective` | routes/files.routes.js:71-73 | two tokens with the same link are the same token |
| `FilesRoutes.SizeLabel` | routes/files.routes.js:115 | the label is digits followed by " KB"; the digits are the canonical decimal text of k, where k·1000 ≤ size < (k+1)·1000 (whole kilobytes, rounded down) |
| `FilesRoutes.NewRecord` | routes/files.routes.js:58-64 | a freshly uploaded record has no sender and no receiver |
| `FilesRoutes.NotificationFor` | routes/files.routes.js:107-118 | the mail goes from the sender to the receiver, and carries the record's share link, its size label and the "24 hours" notice |
| `FilesRoutes.FileStore.Upload` | routes/files.routes.js:52-78 | no file: status 200 with "All fields are required.", nothing changes. Over the limit: refused, nothing changes. Otherwise the blob is stored and then the record is saved. On save success, exactly one new record appears under the fresh token (original name, path, size, blob key, no sender, created now), no other record changes, and the reply is the token's share link. On save failure: 500 "File upload failed", no record, and the blob stays orphaned |
| `FilesRoutes.FileStore.Send` | routes/files.routes.js:80-130 | checks in order: (1) missing field: 422, nothing read or changed; (2) lookup error: 500 with its message; (3) unknown token: 404 "File not found."; (4) sender already set: 422 "Email already sent.". For each, store and trace are unchanged. Otherwise sender and receiver are set and the save is requested before any delivery. A failed save: 500, store unchanged, no mail. A saved record stays marked as sent even when delivery then fails (500 with the error text). The sender of a record is never overwritten |
| `FilesRoutes.SendTwice` | routes/files.routes.js:96-104 | after a first valid send whose save succeeds, a second valid send on the same token is refused as already sent, whatever its addresses and whether the first mail was delivered |
| `DownloadRoutes.Resolve` | routes/download.routes.js:14-29 | redirects exactly when the lookup succeeds and the token is stored, and then to that record's path. An unknown token renders "Link has been expired."; a store error renders "Something went wrong." |
| `DownloadRoutes.ResolveDependsOnOwnRecord` | routes/download.routes.js:16-24 | what a link resolves to depends only on its own record |
| `DownloadRoutes.AbsentTokensLookAlike` | routes/download.routes.js:18 | a removed token and a never-issued token render the same expired page |
| `ExpirySweep.Cutoff` | script.js:40 | defines the cutoff `Date.now() - 24*60*60*1000`: `now` minus 86,400,000 ms |
| `ExpirySweep.Expired` | script.js:40 | defines the query's condition: created strictly before the cutoff |
| `ExpirySweep.Step` | script.js:45-57 | defines one iteration: request the blob destroy; on success drop the blob and request the removal; on its success drop the record; a failure stops the iteration with nothing else changed |
| `ExpirySweep.SweepAll` | script.js:44-58 | defines the loop over the snapshot as `Step` applied to each record in query order |
| `ExpirySweep.StepLine` | script.js:45-57 | a record's log line is the success line, with its filename, exactly when both of its deletions succeeded; a failed destroy logs the destroy's error, and a failed removal after a successful destroy logs the removal's error |
| `ExpirySweep.Report` | script.js:44-58 | the job prints one line per snapshot record, in order: the i-th is `StepLine` of the i-th record and its own outcomes, so it is the success line exactly when that record's own deletions succeeded |
| `ExpirySweep.SweepRecord` | script.js:45-57 | one iteration requests the blob destroy first; when the destroy fails the removal is never attempted, so the removal is requested only after a successful destroy; the record is removed only when both succeeded; the printed line is `StepLine` |
| `ExpirySweep.DeleteData` | script.js:38-62 | a failed query changes nothing and the job ends without "Job done!". Otherwise the stores and trace are those of `SweepAll` over the snapshot, the job always ends with "Job done!", and no sender is overwritten |
| `ExpirySweep.SweepAllStores` | script.js:44-58 | after the pass, the records are the old records minus exactly those whose destroy and removal both succeeded. The blobs are the old blobs minus exactly those whose destroy succeeded |
| `ExpirySweep.SweepDeletesExactlyExpired` | script.js:39-52 | when every deletion succeeds, the records left are exactly those created at or after the cutoff, each unchanged |
| `ExpirySweep.SweepFailureIsolated` | script.js:45-57 | each snapshot record is removed exactly when both of its own deletions succeed, whatever happened to the others. Its blob is gone when its own destroy succeeded. Records newer than the cutoff are untouched |
| `ExpirySweep.DestroyPrecedesRemove` | script.js:47-52 | in the request trace, every record removal comes immediately after the destroy of that record's blob |
| `ExpirySweep.SweptLinksResolve` | script.js:47-52 | after the sweep, a fully deleted record's link reads as expired. A record whose blob was destroyed but whose removal failed still redirects, to a blob that is gone |
| `Cors.ClientsSetting` | app.js:17 | defines `ALLOWED_CLIENTS || ""`: the setting when truthy, otherwise the empty string |
| `Cors.IsJsSpace` | app.js:19 | defines the characters `trim` removes: the ECMAScript WhiteSpace and LineTerminator code points |
| `Cors.Split` | app.js:18 | splitting yields at least one piece, and no piece contains a comma |
| `Cors.JoinSplit` | app.js:18 | joining the pieces with commas gives back the setting |
| `Cors.SplitJoin` | app.js:18 | splitting a comma-joined list of comma-free pieces gives back those pieces |
| `Cors.TrimStart` | app.js:19 | the result is a suffix, everything dropped is whitespace, and it does not start with whitespace |
| `Cors.TrimEnd` | app.js:19 | the result is a prefix, everything dropped is whitespace, and it does not end with whitespace |
| `Cors.Trim` | app.js:19 | the result neither starts nor ends with JavaScript whitespace |
| `Cors.TrimRemovesPadding` | app.js:19 | trimming whitespace + core + whitespace gives the core, for any core that is already trimmed |
| `Cors.AllowedClients` | app.js:17-19 | the allow-list has one entry per comma-separated piece of the setting; each entry is that piece trimmed, and is trimmed and comma-free |
| `Cors.CheckOrigin` | app.js:22-31 | allowed exactly when there is no origin (or an empty one) or the origin equals an entry; otherwise denied with "CORS not allowed" |
| `Cors.UnsetAllowsOnlyMissingOrigin` | app.js:17-30 | with the setting unset or empty, the list is [""] and only requests without an origin pass |
| `Cors.PaddedOriginDenied` | app.js:19-30 | the origin is not trimmed. An origin that starts or ends with whitespace, or contains a comma, is always denied |
| `Cors.ListedOriginAllowed` | app.js:17-28 | an origin written as one comma-separated entry of the setting, even with whitespace around it, is allowed |
| `Lifecycle.UploadResolveSendTwice` | routes/files.routes.js:52-130 | uploading a 5-byte "a.txt" returns `<base>/files/<token>`; its token resolves through `/files/download/<token>` to the stored blob. The first send succeeds; the second is refused as already sent |
| `Lifecycle.ExpiresAfterADay` | script.js:38-62 | a sweep 25 hours after upload deletes the record, whose link then reads as expired |
| `Lifecycle.StaleAndRecent` | script.js:39-41 | with records from 25 hours and 1 hour ago, the sweep deletes exactly the first |
| `Lifecycle.UnsetBaseUrl` | routes/files.routes.js:71-73 | with `APP_BASE_URL` unset, the upload replies with the link "undefined/files/<token>" |
| `Lifecycle.SizeLimit` | config/multer.js:16-19 | a 101,000,000-byte upload is accepted; a 101 MiB upload is refused and stores nothing |

## Left out

- Express routing and mounting, EJS rendering, static files, `dotenv`, the database connection, `console.log` (apart from the sweep's lines) and `process.exit`: wiring with no decisions.
- The show page under `/files/:uuid`: `routes/show.routes.js` is not part of this model. `DownloadRoutes.Resolve` models the `/files/download/:uuid` route.
- The mail template and SMTP transport: delivery is one outcome. The transport ignores the caller's `from` and sends from the configured address; the model records the `from` the handler passes.
- Upload middleware other than the size limit: blob naming (`Date.now()-name`) and Cloudinary upload errors. Those errors never reach the handler and create no record. The blob key and path are inputs.
- `uuidv4`: the fresh token is a parameter, and `FileStore.Upload` requires it to be unused.
- Concurrency: requests are modelled one after another. The race between two simultaneous sends on one token is not modelled.
- Request-body values that are neither absent nor strings (numbers, objects) are not modelled; body fields are `Option<string>`.
- The query's result order is the database's. `DeleteData` takes the snapshot as a parameter and requires it to be exactly the expired records, each once.
- FilesRoutes.SizeLabel: requires the size to be within the 100 MiB upload limit, which every stored record respects (`FileStore.Valid`). The model states the label only in that range; sizes where the quotient's floating-point rounding or exponent notation would matter are not modelled.
- The sweep's error line prints `String(err)`, which for an `Error` is "Error: <message>"; `ExpirySweep.LogLine.DeleteFailed` holds only the error's message, and the prefix is not modelled.
- Commented-out code (the old disk-storage upload and sweep, the local-file download) is not modelled.
