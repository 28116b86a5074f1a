/** The wire model of the Git LFS batch and verify protocol, the Lambda
    invocation context and the API Gateway response, with the two operation
    predicates and the builder of whole-request error responses. */
module Types {
  import opened Wrappers

  /** One object named in a batch or verify request. Sizes are unbounded
      naturals: the source mixes `uint64` and `int64` for them. */
  datatype ObjectRequest = ObjectRequest(oid: string, size: nat)

  /** How the client performs one step of a transfer. `expiresIn` is a whole
      number of seconds (the source's float is always 900 or absent);
      `expiresIn == 0` and `expiresAt == ""` are the omitted fields. */
  datatype Action = Action(href: string, header: map<string, string>, expiresIn: nat, expiresAt: string)

  /** Error body; `code == 0` and empty strings are the omitted fields. */
  datatype ResponseError = ResponseError(code: int, message: string, requestId: string, documentationUrl: string)

  /** One entry of a batch response. An empty `actions` map is the omitted
      (nil) map, `error == None` the nil pointer. */
  datatype ObjectResponse = ObjectResponse(
    oid: string,
    size: nat,
    authenticated: bool,
    actions: map<string, Action>,
    error: Option<ResponseError>)

  datatype Ref = Ref(name: string)

  datatype BatchRequest = BatchRequest(
    operation: string,
    transfers: seq<string>,
    ref: Option<Ref>,
    objects: seq<ObjectRequest>)

  datatype BatchResponse = BatchResponse(transfer: string, objects: seq<ObjectResponse>)

  /** The Lambda context as far as this server reads it: the invocation's
      request id and the client context's environment (`site_url`). */
  datatype LambdaContext = LambdaContext(awsRequestId: string, clientEnv: map<string, string>)

  /** What a response body holds, before JSON marshalling. */
  datatype Body =
    | NoBody
    | Text(text: string)
    | ErrorJson(err: ResponseError)
    | BatchJson(batch: BatchResponse)

  /** The API Gateway proxy response the handler returns. */
  datatype Response = Response(statusCode: int, headers: map<string, string>, body: Body)

  const LfsContentType := "application/vnd.git-lfs+json"

  /** Headers of every successful batch response, empty or not. */
  const LfsHeaders: map<string, string> := map["Content-Type" := LfsContentType]

  predicate IsUpload(b: BatchRequest) {
    b.operation == "upload"
  }

  predicate IsDownload(b: BatchRequest) {
    b.operation == "download"
  }

  /** No batch is both an upload and a download, so at most one of the two
      batch endpoints accepts a given body. */
  lemma UploadDownloadExclusive(b: BatchRequest)
    ensures !(IsUpload(b) && IsDownload(b))
    ensures IsUpload(b) || IsDownload(b) <==> b.operation in {"upload", "download"}
  {
  }

  /** A whole-request failure: the given status, an error body whose message
      is the error's text, the invocation's request id when a Lambda context
      exists, and no headers. */
  function NewResponseError(ctx: Option<LambdaContext>, status: int, message: string): (r: Response)
    ensures r.statusCode == status && r.headers == map[]
    ensures r.body.ErrorJson? && r.body.err.message == message
    ensures r.body.err.code == 0 && r.body.err.documentationUrl == ""
    ensures ctx.Some? ==> r.body.err.requestId == ctx.value.awsRequestId
    ensures ctx.None? ==> r.body.err.requestId == ""
  {
    var requestId := if ctx.Some? then ctx.value.awsRequestId else "";
    Response(status, map[], ErrorJson(ResponseError(0, message, requestId, "")))
  }
}
