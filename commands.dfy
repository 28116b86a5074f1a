/** The Lambda handler: routes a request on its path and HTTP method to the
    server identification, the batch endpoint (GET downloads, POST uploads)
    or the verify endpoint. JSON decoding is an oracle that gives the
    decoded value or the decoder's error text. */
module Commands {
  import opened Wrappers
  import opened Types
  import opened Sign

  const RootPath := "/.netlify/functions/lfs"
  const BatchPath := "/.netlify/functions/lfs/objects/batch"
  const ServerName := "Netlify LFS server"

  const NotUploadBatch := "not an upload batch object"
  const NotDownloadBatch := "not a download batch object"

  /** The run-time error of indexing the first transfer of an empty list. */
  const NoFirstTransfer := "runtime error: index out of range [0] with length 0"

  datatype Request = Request(path: string, httpMethod: string, body: string)

  /** Everything a request is handled against besides the request itself. */
  datatype Env = Env(
    ctx: Option<LambdaContext>,
    aws: Aws,
    decodeBatch: string -> Result<BatchRequest, string>,
    decodeObject: string -> Result<ObjectRequest, string>)

  /** A handler invocation either replies or panics (the Go runtime error
      ends the invocation without an HTTP response). */
  datatype Outcome = Reply(response: Response) | Panic(reason: string)

  /** The reply to a batch without objects; nothing is signed for it. */
  const EmptyBatchResponse := Response(200, LfsHeaders, Text("{}"))

  /** The transfer an upload batch answers with: the first one listed, or
      the empty name when the client lists none. */
  function UploadTransfer(b: BatchRequest): (t: string)
    ensures |b.transfers| > 0 ==> t == b.transfers[0]
    ensures |b.transfers| == 0 ==> t == ""
  {
    if |b.transfers| > 0 then b.transfers[0] else ""
  }

  /** POST on the batch endpoint: decode, check the operation, answer an
      empty batch at once, else sign the objects for upload. */
  function SignUploads(env: Env, req: Request): (r: Response)
    ensures env.decodeBatch(req.body).Failure? ==>
      r == NewResponseError(env.ctx, 422, env.decodeBatch(req.body).error)
    ensures r.statusCode in {200, 422, 500}
  {
    match env.decodeBatch(req.body)
    case Failure(e) => NewResponseError(env.ctx, 422, e)
    case Success(b) =>
      if !IsUpload(b) then NewResponseError(env.ctx, 422, NotUploadBatch)
      else if |b.objects| == 0 then EmptyBatchResponse
      else SignObjectUploads(env.ctx, env.aws, UploadTransfer(b), b.objects)
  }

  /** GET on the batch endpoint: as SignUploads, except that the first
      transfer is taken without checking that one exists. */
  function SignDownloads(env: Env, req: Request): (r: Outcome)
    ensures env.decodeBatch(req.body).Failure? ==>
      r == Reply(NewResponseError(env.ctx, 422, env.decodeBatch(req.body).error))
    ensures r.Reply? ==> r.response.statusCode in {200, 422, 500}
    ensures r.Panic? <==>
      && env.decodeBatch(req.body).Success?
      && IsDownload(env.decodeBatch(req.body).value)
      && |env.decodeBatch(req.body).value.objects| > 0
      && |env.decodeBatch(req.body).value.transfers| == 0
  {
    match env.decodeBatch(req.body)
    case Failure(e) => Reply(NewResponseError(env.ctx, 422, e))
    case Success(b) =>
      if !IsDownload(b) then Reply(NewResponseError(env.ctx, 422, NotDownloadBatch))
      else if |b.objects| == 0 then Reply(EmptyBatchResponse)
      else if |b.transfers| == 0 then Panic(NoFirstTransfer)
      else Reply(SignObjectDownloads(env.ctx, env.aws, b.transfers[0], b.objects))
  }

  /** The verify endpoint: decode the object, then check it in storage. */
  function VerifyCommand(env: Env, req: Request): (r: Response)
    ensures env.decodeObject(req.body).Failure? ==>
      r == NewResponseError(env.ctx, 422, env.decodeObject(req.body).error)
    ensures env.decodeObject(req.body).Success? ==>
      (r.statusCode == 200 <==>
        NewS3Service(env.aws).Success? &&
        env.aws.s3.contentLength(ObjectRequestFor(Get, env.decodeObject(req.body).value))
          == Some(env.decodeObject(req.body).value.size))
    ensures r.statusCode in {200, 404, 422, 500}
  {
    match env.decodeObject(req.body)
    case Failure(e) => NewResponseError(env.ctx, 422, e)
    case Success(o) => VerifyObject(env.ctx, env.aws, o)
  }

  /** The batch endpoint: GET signs downloads, POST signs uploads, any other
      method is not found. */
  function ObjectsCommand(env: Env, req: Request): (r: Outcome)
    ensures req.httpMethod !in {"GET", "POST"} ==> r == Reply(Response(404, map[], NoBody))
    ensures r.Panic? ==> req.httpMethod == "GET"
  {
    if req.httpMethod == "GET" then SignDownloads(env, req)
    else if req.httpMethod == "POST" then Reply(SignUploads(env, req))
    else Reply(Response(404, map[], NoBody))
  }

  /** The Lambda entry point: routes on the request path. Every reply has
      one of the statuses 200, 404, 422 or 500, and only a GET on the batch
      endpoint can panic. */
  function Handler(env: Env, req: Request): (r: Outcome)
    ensures r.Reply? ==> r.response.statusCode in {200, 404, 422, 500}
    ensures r.Panic? ==> req.path == BatchPath && req.httpMethod == "GET"
  {
    if req.path == RootPath then Reply(Response(200, map[], Text(ServerName)))
    else if req.path == BatchPath then ObjectsCommand(env, req)
    else if req.path == VerifyPath then Reply(VerifyCommand(env, req))
    else Reply(Response(404, map[], NoBody))
  }

  /** The root path identifies the server; a path outside the three
      endpoints, or a batch request with a method other than GET and POST,
      is not found with no body. */
  lemma HandlerRouting(env: Env, req: Request)
    ensures req.path == RootPath ==>
      Handler(env, req) == Reply(Response(200, map[], Text("Netlify LFS server")))
    ensures req.path !in {RootPath, BatchPath, VerifyPath} ==>
      Handler(env, req) == Reply(Response(404, map[], NoBody))
    ensures req.path == BatchPath && req.httpMethod !in {"GET", "POST"} ==>
      Handler(env, req) == Reply(Response(404, map[], NoBody))
    ensures req.path == BatchPath && req.httpMethod == "POST" ==>
      Handler(env, req) == Reply(SignUploads(env, req))
    ensures req.path == BatchPath && req.httpMethod == "GET" ==>
      Handler(env, req) == SignDownloads(env, req)
    ensures req.path == VerifyPath ==>
      Handler(env, req) == Reply(VerifyCommand(env, req))
  {
  }

  /** The handler panics exactly on a GET of a non-empty download batch that
      lists no transfer. */
  lemma PanicOnlyWithoutTransfers(env: Env, req: Request)
    ensures Handler(env, req).Panic? <==>
      && req.path == BatchPath && req.httpMethod == "GET"
      && env.decodeBatch(req.body).Success?
      && IsDownload(env.decodeBatch(req.body).value)
      && |env.decodeBatch(req.body).value.objects| > 0
      && |env.decodeBatch(req.body).value.transfers| == 0
  {
  }

  /** A body the decoder rejects answers 422 with the decoder's message on
      each endpoint that decodes. */
  lemma DecodeFailureIs422(env: Env, req: Request)
    ensures req.path == BatchPath && req.httpMethod in {"GET", "POST"} && env.decodeBatch(req.body).Failure? ==>
      Handler(env, req) == Reply(NewResponseError(env.ctx, 422, env.decodeBatch(req.body).error))
    ensures req.path == VerifyPath && env.decodeObject(req.body).Failure? ==>
      Handler(env, req) == Reply(NewResponseError(env.ctx, 422, env.decodeObject(req.body).error))
  {
  }

  /** A batch whose declared operation does not match the method answers
      422 with a fixed message, whatever its objects (empty or not) and
      whatever the credentials. */
  lemma OperationMismatchIs422(env: Env, req: Request, b: BatchRequest)
    requires req.path == BatchPath && env.decodeBatch(req.body) == Success(b)
    ensures req.httpMethod == "POST" && !IsUpload(b) ==>
      Handler(env, req) == Reply(NewResponseError(env.ctx, 422, "not an upload batch object"))
    ensures req.httpMethod == "GET" && !IsDownload(b) ==>
      Handler(env, req) == Reply(NewResponseError(env.ctx, 422, "not a download batch object"))
  {
  }

  /** A batch of the right operation without objects answers 200 with the
      body "{}" and never reaches signing: the answer is the same for any
      credentials, presign oracle and Lambda context. */
  lemma EmptyBatchNeverSigns(env: Env, req: Request, b: BatchRequest, otherAws: Aws, otherCtx: Option<LambdaContext>)
    requires req.path == BatchPath && env.decodeBatch(req.body) == Success(b)
    requires |b.objects| == 0
    requires (req.httpMethod == "POST" && IsUpload(b)) || (req.httpMethod == "GET" && IsDownload(b))
    ensures Handler(env, req) == Reply(Response(200, LfsHeaders, Text("{}")))
    ensures Handler(env.(aws := otherAws, ctx := otherCtx), req) == Handler(env, req)
  {
  }

  /** A non-empty upload batch answers with the signed batch for its first
      transfer (or the empty name): 500 without credentials or without a
      Lambda context, else 200 with one entry per object. */
  lemma UploadBatchSigned(env: Env, req: Request, b: BatchRequest)
    requires req.path == BatchPath && req.httpMethod == "POST"
    requires env.decodeBatch(req.body) == Success(b) && IsUpload(b) && |b.objects| > 0
    ensures var r := Handler(env, req);
      && r.Reply?
      && (r.response.statusCode == 500 <==> NewS3Service(env.aws).Failure? || env.ctx.None?)
      && (r.response.statusCode == 200 ==>
            && r.response.body.batch.transfer == (if |b.transfers| > 0 then b.transfers[0] else "")
            && |r.response.body.batch.objects| == |b.objects|)
  {
  }

  /** A non-empty download batch that lists a transfer answers with the
      signed batch for its first transfer: 500 without credentials (the
      Lambda context is not needed), else 200 with one entry per object. */
  lemma DownloadBatchSigned(env: Env, req: Request, b: BatchRequest)
    requires req.path == BatchPath && req.httpMethod == "GET"
    requires env.decodeBatch(req.body) == Success(b) && IsDownload(b) && |b.objects| > 0
    requires |b.transfers| > 0
    ensures var r := Handler(env, req);
      && r.Reply?
      && (r.response.statusCode == 500 <==> NewS3Service(env.aws).Failure?)
      && (r.response.statusCode == 200 ==>
            && r.response.body.batch.transfer == b.transfers[0]
            && |r.response.body.batch.objects| == |b.objects|)
  {
  }
}
