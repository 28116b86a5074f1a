# Git LFS batch server on AWS Lambda — a Dafny model

This project models the request handling of a small Git LFS server that runs
as an AWS Lambda function behind Netlify. The server implements the Git LFS
Batch API. A batch request names an operation (`upload` or `download`), a list
of transfer names and a list of objects (`oid`, `size`). The answer has one
entry per object, in input order. Each entry holds either a presigned S3 URL
(the `upload` or `download` action) or a per-object error. A failure to sign
one object never affects the other entries. Signed upload entries also get a
`verify` action. It points at the server's verify endpoint, which answers 200
only when the stored object's length equals the declared size.

Modules, one per source file:

- `Types` (`cmd/types.go`): the wire records, `IsUpload`/`IsDownload`, and
  `NewResponseError`, which builds whole-request error replies.
- `Sign` (`cmd/sign.go`): credential checking, the verify action, the
  per-object signing loop and the verify check. The loop is the method
  `SignObjects`. It preallocates an array of entries and fills it by index, as
  the Go code fills its preallocated slice. It is proved equal to the function
  `SignObjectsSpec`, and the lemmas about signing are stated on that function.
- `Commands` (`cmd/main.go`): routing on path and HTTP method, decoding, the
  operation check, the empty-batch short-circuit and the choice of transfer.
  These are pure functions, and the lemmas beside them state the routing
  properties.
- `Wrappers`: `Option` and `Result`.

External pieces are replaced by values passed in:

- The AWS SDK is the `Aws` record. It holds the two credential strings read
  from the environment, an optional session-construction error, and the
  `S3Service` that a session reaches. The service has two oracles. `presign`
  maps an `S3Request` to a URL or an error text. An `S3Request` holds the verb,
  the bucket, the key, and the headers set on the request before it is
  presigned. For an upload these are the `public-read` ACL and the declared size
  as content length; a download sets neither. `contentLength` maps a request to
  the stored length, or `None` for a missing object, a lookup error or a nil
  length.
- The Lambda context is `Option<LambdaContext>`: the request id and the
  client-context environment that holds `site_url`.
- JSON decoding is an oracle from the body text to the decoded value or the
  decoder's error text.
- A Go run-time panic is the `Panic` outcome of `Commands.Handler`. It is not
  an HTTP reply.

Sizes are `nat`. The source declares the object size `uint64`, but uses it in
two places that expect an `int64`. It passes the size to `strconv.FormatInt`,
which takes an `int64` (`cmd/sign.go:59`). It compares the size with the
`int64` content length (`cmd/sign.go:165`). Both are Go type errors as written.
The model takes the evident meaning: the decimal length header of the size, and
an equality of lengths. Unbounded naturals avoid choosing a width.

A download batch with objects but no transfers is modelled as an error case.
`signDownloads` reads `Transfers[0]` without checking the length
(`cmd/main.go:93`). The upload path falls back to the empty name instead
(`cmd/main.go:66-69`). The model keeps this asymmetry, and
`Commands.PanicOnlyWithoutTransfers` states exactly when it occurs.

## Model

| member | source | states |
|---|---|---|
| `Types.UploadDownloadExclusive` | cmd/types.go:70-76 | No batch is both an upload and a download. One of the two holds exactly when the operation is `"upload"` or `"download"`. |
| `Types.NewResponseError` | cmd/types.go:78-92 | The reply keeps the given status and its error body's message is the error text. The request id is the Lambda context's id when a context exists, else empty. Code and documentation URL stay at their zero values. |
| `Sign.NewS3Service` | cmd/sign.go:25-49 | A service exists iff both credentials are non-empty and the session builds. A missing key id or secret yields "Missing key ID" or "Missing key Secret", checked in that order. |
| `Sign.ObjectRequestFor` | cmd/sign.go:51-74 | Uploads presign a PUT and downloads a GET, of the object's oid as key in bucket `netlify-lfs`. The PUT also carries the `public-read` ACL and the declared size as content length. The GET carries neither. |
| `Sign.UploadRequestCoversSize` | cmd/sign.go:52-60 | Two uploads of the same oid with different sizes are different presign requests. Two downloads of them are the same request. |
| `Sign.SiteUrl` | cmd/sign.go:94-97 | The verify site is the client context's `site_url` when it is set and non-empty. Otherwise it is `https://elegant-turing-8674fb.netlify.com`. |
| `Sign.VerifyActionFor` | cmd/sign.go:87-103 | Only uploads get a verify action. Its href is the site URL followed by `/.netlify/functions/lfs/verify`. An upload without a Lambda context fails with "Unable to get client context". |
| `Sign.ObjectEntry` | cmd/sign.go:106-135 | An entry keeps the object's oid and size and is authenticated. It holds exactly one of an error and a non-empty action map. A presign failure gives an error whose message is the failure's text. A presign success gives the action name's action (URL, `X-Amz-Acl: public-read`, 900 s), plus `verify` when one is given. |
| `Sign.SignObjectsSpec` | cmd/sign.go:76-151 | Signing answers 200 or 500. It answers 200 iff a service exists and the batch is not an upload without a Lambda context. A 200 reply carries the LFS content type, the given transfer and one entry per object. |
| `Sign.SignObjects` | cmd/sign.go:76-151 | The imperative loop: it fills a preallocated array of entries by index and yields exactly the reply `SignObjectsSpec` describes. |
| `Sign.SignObjectUploads` | cmd/sign.go:51-63 | In a 200 upload reply, every entry whose PUT presign succeeded has the presigned URL under `upload`, and it also has a `verify` action. |
| `Sign.SignObjectDownloads` | cmd/sign.go:65-74 | In a 200 download reply, no entry has `verify`. Every entry whose GET presign succeeded has the presigned URL under `download`. |
| `Sign.VerifyObject` | cmd/sign.go:154-174 | Verify answers 200 iff a service exists and the stored length of the object's key equals the declared size. With a service, every other case (missing, lookup error, mismatch) is 404 with no body. Without one, the reply is 500 with the credential error. |
| `Sign.MissingCredentialsFailBeforeSigning` | cmd/sign.go:77-80 | Missing credentials give 500 with the credential message. The reply is the same for any presign oracle and any objects, so nothing is signed. |
| `Sign.UploadWithoutContextFails` | cmd/sign.go:88-92 | An upload with credentials but no Lambda context gives 500 "Unable to get client context". The reply is the same for any presign oracle and objects. |
| `Sign.SignedBatchEntries` | cmd/sign.go:82-138 | In a signed batch, entry i carries object i's oid and size and `authenticated = true`. It has actions iff it has no error. The batch has the given transfer and as many entries as objects. |
| `Sign.SignedEntryContents` | cmd/sign.go:112-131 | A presign failure on object i leaves entry i with only the error message. A success gives the action name's action the presigned href, exactly the header `{"X-Amz-Acl": "public-read"}` and `expires_in` 900. |
| `Sign.VerifyActionIffSignedUpload` | cmd/sign.go:87-103 | An entry has `verify` iff the batch is an upload and that object's presign succeeded. Its href is the site URL followed by `/.netlify/functions/lfs/verify`. |
| `Sign.PresignFailureIsolated` | cmd/sign.go:105-138 | Changing the presign oracle leaves the status unchanged. It changes only the entries of objects whose own presign outcome changed. |
| `Sign.FailedEntriesMatchFailedPresigns` | cmd/sign.go:105-138 | By induction over the objects: the oids of the built entries that carry an error are, in order, the oids of the objects whose presign fails. |
| `Sign.SignedBatchReportsExactlyFailedPresigns` | cmd/sign.go:105-138 | In a 200 batch reply, the entries with an error are exactly the objects whose presign failed, in input order. These are the objects a client has to retry. |
| `Commands.UploadTransfer` | cmd/main.go:66-69 | The upload transfer is the first listed transfer, or `""` when none is listed. |
| `Commands.SignUploads` | cmd/main.go:46-71 | A decode failure on the upload batch endpoint gives 422 with the decoder's message. Otherwise the reply is 200, 422 or 500. |
| `Commands.SignDownloads` | cmd/main.go:73-94 | A decode failure gives 422 with the decoder's message. The download path panics iff the batch decodes, is a download, has objects and lists no transfer. |
| `Commands.VerifyCommand` | cmd/main.go:96-103 | A decode failure gives 422. Otherwise the reply is 200 iff credentials are present and the stored length equals the decoded size. |
| `Commands.ObjectsCommand` | cmd/main.go:32-44 | Methods other than GET and POST on the batch endpoint give 404 with no body. Only GET can panic. |
| `Commands.Handler` | cmd/main.go:14-30 | Every reply has status 200, 404, 422 or 500. Only a GET on the batch endpoint can panic. |
| `Commands.HandlerRouting` | cmd/main.go:14-44 | The root path gives 200 "Netlify LFS server". Unknown paths, and batch methods other than GET and POST, give 404 with no body. Batch POST goes to uploads, batch GET to downloads, and the verify path to verify. |
| `Commands.PanicOnlyWithoutTransfers` | cmd/main.go:73-94 | The handler panics exactly on a GET of a decoded, non-empty download batch with no transfers. |
| `Commands.DecodeFailureIs422` | cmd/main.go:46-50 | A decode failure gives 422 with the decoder's message on both batch methods and on verify. |
| `Commands.OperationMismatchIs422` | cmd/main.go:52-54 | A POST whose batch is not an upload gives 422 "not an upload batch object". A GET whose batch is not a download gives 422 "not a download batch object". This holds whatever the objects are, empty or not. |
| `Commands.EmptyBatchNeverSigns` | cmd/main.go:56-64 | An empty batch of the right operation gives 200 with the LFS content type and body `{}`. The reply is the same for any credentials, presign oracle and Lambda context. |
| `Commands.UploadBatchSigned` | cmd/main.go:66-70 | A non-empty upload batch gives 500 iff credentials or the Lambda context are missing. A 200 reply has the first transfer (or `""`) and one entry per object. |
| `Commands.DownloadBatchSigned` | cmd/main.go:83-93 | A non-empty download batch with a transfer gives 500 iff credentials are missing; no Lambda context is needed. A 200 reply has the first transfer and one entry per object. |

## Left out

- AWS session construction and environment-variable reads: only the two credential strings and an optional session error are modelled.
- Presigning cryptography: `presign` is an oracle from the whole request, the PUT's `X-Amz-Acl` and `Content-Length` headers included, to a URL. The model does not capture how the signature covers those headers. It keeps only that the oracle sees them, so URLs for different sizes may differ. The content length is kept as the number, not as its decimal text.
- The S3 `GetObject` call is the `contentLength` oracle.
- JSON decoding is an oracle, and JSON encoding is left out. Bodies are kept as values (`Body`), not as serialised text. Marshalling the batch reply cannot fail here, since `expires_in` is always 900, so the 500 branch after `json.Marshal` in signObjects is not modelled.
- `expires_in` is the whole number 900, not the float `d.Seconds()`.
- The debug printing of the client environment and the site URL.
- `lambda.Start` and the Lambda runtime. A panic is the `Panic` outcome; what the runtime makes of it is not modelled.
- The `ref` field of a batch request is carried but never read, as in the source.
