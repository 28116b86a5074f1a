/** Signing of batch objects against S3 and the post-upload verify check.
    The AWS SDK is replaced by oracles: `presign` gives the presigned URL of
    a request (or the SDK's error text), `contentLength` the stored length of
    an object (None for a missing object, a lookup error or a nil length). */
module Sign {
  import opened Wrappers
  import opened Types

  const Bucket := "netlify-lfs"
  const DefaultSiteUrl := "https://elegant-turing-8674fb.netlify.com"
  const VerifyPath := "/.netlify/functions/lfs/verify"

  /** Presigned URLs live 15 minutes; actions carry that as seconds. */
  const PresignMinutes := 15
  const ExpirySeconds: nat := PresignMinutes * 60

  const MissingClientContext := "Unable to get client context"

  /** The single header every signed action tells the client to send. */
  const SignedHeader: map<string, string> := map["X-Amz-Acl" := "public-read"]

  /** Which S3 operation a batch signs: PUT for uploads, GET for downloads. */
  datatype Verb = Put | Get

  /** An S3 request before presigning: the verb, the object's location and
      the headers set on it, which the signature covers. Only the upload
      request sets them: the public-read ACL and the declared length. */
  datatype S3Request = S3Request(verb: Verb, bucket: string, key: string, acl: Option<string>, contentLength: Option<nat>)

  /** The S3 capabilities a session reaches. */
  datatype S3Service = S3Service(
    presign: S3Request -> Result<string, string>,
    contentLength: S3Request -> Option<nat>)

  /** The credentials read from the environment, whether a session can be
      built from them, and the S3 service such a session reaches. */
  datatype Aws = Aws(
    keyId: string,
    keySecret: string,
    sessionError: Option<string>,
    s3: S3Service)

  /** A service exists exactly when both credentials are set and the session
      could be built; otherwise the first failing check names the error. */
  function NewS3Service(aws: Aws): (r: Result<S3Service, string>)
    ensures r.Success? <==> aws.keyId != "" && aws.keySecret != "" && aws.sessionError.None?
    ensures r.Success? ==> r.value.presign == aws.s3.presign && r.value.contentLength == aws.s3.contentLength
    ensures aws.keyId == "" ==> r.Failure? && r.error == "Missing key ID"
    ensures aws.keyId != "" && aws.keySecret == "" ==> r.Failure? && r.error == "Missing key Secret"
  {
    if aws.keyId == "" then Failure("Missing key ID")
    else if aws.keySecret == "" then Failure("Missing key Secret")
    else if aws.sessionError.Some? then Failure(aws.sessionError.value)
    else Success(aws.s3)
  }

  /** The request the upload and download batches presign for one object:
      the object's oid is the key in the fixed bucket; a PUT also carries the
      public-read ACL and the declared size as its content length. */
  function ObjectRequestFor(verb: Verb, o: ObjectRequest): (r: S3Request)
    ensures r.bucket == Bucket && r.key == o.oid && r.verb == verb
    ensures verb == Put ==> r.acl == Some("public-read") && r.contentLength == Some(o.size)
    ensures verb == Get ==> r.acl == None && r.contentLength == None
  {
    match verb
    case Put => S3Request(Put, Bucket, o.oid, Some("public-read"), Some(o.size))
    case Get => S3Request(Get, Bucket, o.oid, None, None)
  }

  /** The upload request a URL is presigned from covers the declared size:
      two uploads of one oid with different sizes are different requests, so
      the presign oracle may give them different URLs. */
  lemma UploadRequestCoversSize(o: ObjectRequest, o': ObjectRequest)
    requires o.oid == o'.oid && o.size != o'.size
    ensures ObjectRequestFor(Put, o) != ObjectRequestFor(Put, o')
    ensures ObjectRequestFor(Get, o) == ObjectRequestFor(Get, o')
  {
  }

  /** The site the verify action points at: the client context's `site_url`,
      or the default site when it is missing or empty. */
  function SiteUrl(lc: LambdaContext): (r: string)
    ensures r != ""
    ensures "site_url" in lc.clientEnv && lc.clientEnv["site_url"] != "" ==> r == lc.clientEnv["site_url"]
    ensures "site_url" !in lc.clientEnv || lc.clientEnv["site_url"] == "" ==> r == DefaultSiteUrl
  {
    var site := if "site_url" in lc.clientEnv then lc.clientEnv["site_url"] else "";
    if site == "" then DefaultSiteUrl else site
  }

  /** The verify action added to signed upload entries: no header, no expiry. */
  function VerifyAction(lc: LambdaContext): Action {
    Action(SiteUrl(lc) + VerifyPath, map[], 0, "")
  }

  /** The verify action a batch adds to each signed entry: Some for uploads
      (or the error when the Lambda context is missing), None otherwise. */
  function VerifyActionFor(ctx: Option<LambdaContext>, actionName: string): (r: Result<Option<Action>, string>)
    ensures r.Failure? <==> actionName == "upload" && ctx.None?
    ensures r.Failure? ==> r.error == MissingClientContext
    ensures r.Success? ==> (r.value.Some? <==> actionName == "upload")
    ensures r.Success? && r.value.Some? ==> r.value.value.href == SiteUrl(ctx.value) + VerifyPath
  {
    if actionName != "upload" then Success(None)
    else if ctx.None? then Failure(MissingClientContext)
    else Success(Some(VerifyAction(ctx.value)))
  }

  /** The response entry of one object, given its presign outcome: the
      object's oid and size, always authenticated, and exactly one of an
      error (the presign error's text) or the actions (the signed action
      under `actionName`, plus `verify` when one is given). */
  function ObjectEntry(o: ObjectRequest, actionName: string, signed: Result<string, string>, verify: Option<Action>): (r: ObjectResponse)
    ensures r.oid == o.oid && r.size == o.size && r.authenticated
    ensures r.error.Some? <==> signed.Failure?
    ensures r.actions == map[] <==> signed.Failure?
    ensures signed.Failure? ==> r.error.value == ResponseError(0, signed.error, "", "")
    ensures signed.Success? ==>
      r.actions.Keys == {actionName} + (if verify.Some? then {"verify"} else {})
    ensures signed.Success? && actionName != "verify" ==>
      r.actions[actionName] == Action(signed.value, SignedHeader, ExpirySeconds, "")
    ensures signed.Success? && verify.Some? ==> r.actions["verify"] == verify.value
  {
    var ro := ObjectResponse(o.oid, o.size, true, map[], None);
    match signed
    case Failure(e) => ro.(error := Some(ResponseError(0, e, "", "")))
    case Success(url) =>
      var actions := map[actionName := Action(url, SignedHeader, ExpirySeconds, "")];
      var all := if verify.Some? then actions["verify" := verify.value] else actions;
      assert actionName in all;
      ro.(actions := all)
  }

  /** The batch entries of a signed batch, one per object, in input order. */
  function Entries(svc: S3Service, actionName: string, verb: Verb, verify: Option<Action>, objects: seq<ObjectRequest>): (r: seq<ObjectResponse>)
    ensures |r| == |objects|
    ensures forall i :: 0 <= i < |objects| ==>
      r[i] == ObjectEntry(objects[i], actionName, svc.presign(ObjectRequestFor(verb, objects[i])), verify)
  {
    seq(|objects|, i requires 0 <= i < |objects| =>
      ObjectEntry(objects[i], actionName, svc.presign(ObjectRequestFor(verb, objects[i])), verify))
  }

  /** What signing a batch answers: 500 when no S3 service can be built,
      500 when an upload has no Lambda context, else 200 with one entry per
      object. This is the specification of the method SignObjects. */
  function SignObjectsSpec(
    ctx: Option<LambdaContext>, aws: Aws, transfer: string, actionName: string, verb: Verb,
    objects: seq<ObjectRequest>): (r: Response)
    ensures r.statusCode in {200, 500}
    ensures r.statusCode == 200 <==> NewS3Service(aws).Success? && !(actionName == "upload" && ctx.None?)
    ensures r.statusCode == 200 ==>
      r.headers == LfsHeaders && r.body.BatchJson? &&
      r.body.batch.transfer == transfer && |r.body.batch.objects| == |objects|
  {
    match NewS3Service(aws)
    case Failure(e) => NewResponseError(ctx, 500, e)
    case Success(svc) =>
      match VerifyActionFor(ctx, actionName)
      case Failure(e) => NewResponseError(ctx, 500, e)
      case Success(verify) =>
        Response(200, LfsHeaders, BatchJson(BatchResponse(transfer, Entries(svc, actionName, verb, verify, objects))))
  }

  /** Signs every object of a batch: preallocates the response entries and
      fills them by index, each entry isolated from the others' failures. */
  method SignObjects(
    ctx: Option<LambdaContext>, aws: Aws, transfer: string, actionName: string, verb: Verb,
    objects: seq<ObjectRequest>) returns (r: Response)
    ensures r == SignObjectsSpec(ctx, aws, transfer, actionName, verb, objects)
  {
    var service := NewS3Service(aws);
    if service.Failure? {
      return NewResponseError(ctx, 500, service.error);
    }
    var svc := service.value;

    var entries := new ObjectResponse[|objects|];

    var verifyAction: Option<Action> := None;
    if actionName == "upload" {
      if ctx.None? {
        return NewResponseError(ctx, 500, MissingClientContext);
      }
      verifyAction := Some(VerifyAction(ctx.value));
    }

    var i := 0;
    while i < |objects|
      invariant 0 <= i <= |objects|
      invariant forall k :: 0 <= k < i ==>
        entries[k] == ObjectEntry(objects[k], actionName, svc.presign(ObjectRequestFor(verb, objects[k])), verifyAction)
    {
      var o := objects[i];
      var ro := ObjectResponse(o.oid, o.size, true, map[], None);
      var signed := svc.presign(ObjectRequestFor(verb, o));
      if signed.Failure? {
        ro := ro.(error := Some(ResponseError(0, signed.error, "", "")));
      } else {
        ro := ro.(actions := map[actionName := Action(signed.value, SignedHeader, ExpirySeconds, "")]);
        if verifyAction.Some? {
          ro := ro.(actions := ro.actions["verify" := verifyAction.value]);
        }
      }
      entries[i] := ro;
      i := i + 1;
    }

    r := Response(200, LfsHeaders, BatchJson(BatchResponse(transfer, entries[..])));
  }

  /** Upload batches sign PUT requests under the action name "upload". */
  function SignObjectUploads(ctx: Option<LambdaContext>, aws: Aws, transfer: string, objects: seq<ObjectRequest>): (r: Response)
    ensures r.statusCode == 200 ==>
      r.body.BatchJson? && |r.body.batch.objects| == |objects| &&
      forall i :: 0 <= i < |objects| && aws.s3.presign(ObjectRequestFor(Put, objects[i])).Success? ==>
        && "upload" in r.body.batch.objects[i].actions
        && r.body.batch.objects[i].actions["upload"].href == aws.s3.presign(ObjectRequestFor(Put, objects[i])).value
        && "verify" in r.body.batch.objects[i].actions
  {
    SignObjectsSpec(ctx, aws, transfer, "upload", Put, objects)
  }

  /** Download batches sign GET requests under the action name "download"
      and never carry a verify action. */
  function SignObjectDownloads(ctx: Option<LambdaContext>, aws: Aws, transfer: string, objects: seq<ObjectRequest>): (r: Response)
    ensures r.statusCode == 200 ==>
      r.body.BatchJson? && |r.body.batch.objects| == |objects| &&
      forall i :: 0 <= i < |objects| ==>
        && "verify" !in r.body.batch.objects[i].actions
        && (aws.s3.presign(ObjectRequestFor(Get, objects[i])).Success? ==>
              && "download" in r.body.batch.objects[i].actions
              && r.body.batch.objects[i].actions["download"].href == aws.s3.presign(ObjectRequestFor(Get, objects[i])).value)
  {
    SignObjectsSpec(ctx, aws, transfer, "download", Get, objects)
  }

  /** Verify answers 200 exactly when an S3 service exists and the stored
      object's length equals the declared size; a missing object, a lookup
      error and a size mismatch all answer 404, with no body. */
  function VerifyObject(ctx: Option<LambdaContext>, aws: Aws, o: ObjectRequest): (r: Response)
    ensures r.statusCode == 200 <==>
      NewS3Service(aws).Success? && aws.s3.contentLength(ObjectRequestFor(Get, o)) == Some(o.size)
    ensures NewS3Service(aws).Success? ==> r.statusCode in {200, 404} && r.body == NoBody && r.headers == map[]
    ensures NewS3Service(aws).Failure? ==> r == NewResponseError(ctx, 500, NewS3Service(aws).error)
  {
    match NewS3Service(aws)
    case Failure(e) => NewResponseError(ctx, 500, e)
    case Success(svc) =>
      var length := svc.contentLength(ObjectRequestFor(Get, o));
      if length.Some? && length.value == o.size then Response(200, map[], NoBody)
      else Response(404, map[], NoBody)
  }

  /** Missing credentials answer 500 with the credential error before any
      object is signed: the answer depends neither on the presign oracle nor
      on the objects. */
  lemma MissingCredentialsFailBeforeSigning(
    ctx: Option<LambdaContext>, aws: Aws, transfer: string, actionName: string, verb: Verb,
    objects: seq<ObjectRequest>, otherPresign: S3Request -> Result<string, string>, otherObjects: seq<ObjectRequest>)
    requires aws.keyId == "" || aws.keySecret == ""
    ensures var r := SignObjectsSpec(ctx, aws, transfer, actionName, verb, objects);
      && r.statusCode == 500
      && r.body.ErrorJson?
      && r.body.err.message == (if aws.keyId == "" then "Missing key ID" else "Missing key Secret")
      && r == SignObjectsSpec(ctx, aws.(s3 := aws.s3.(presign := otherPresign)), transfer, actionName, verb, otherObjects)
  {
  }

  /** An upload batch without a Lambda context answers 500 and signs
      nothing, whatever the objects and the presign oracle. */
  lemma UploadWithoutContextFails(
    aws: Aws, transfer: string, verb: Verb, objects: seq<ObjectRequest>,
    otherPresign: S3Request -> Result<string, string>, otherObjects: seq<ObjectRequest>)
    requires NewS3Service(aws).Success?
    ensures var r := SignObjectsSpec(None, aws, transfer, "upload", verb, objects);
      && r == NewResponseError(None, 500, MissingClientContext)
      && r == SignObjectsSpec(None, aws.(s3 := aws.s3.(presign := otherPresign)), transfer, "upload", verb, otherObjects)
  {
  }

  /** A signed batch has one entry per object, in input order: entry i
      carries object i's oid and size, is authenticated, and holds exactly
      one of actions and error. */
  lemma SignedBatchEntries(
    ctx: Option<LambdaContext>, aws: Aws, transfer: string, actionName: string, verb: Verb,
    objects: seq<ObjectRequest>, i: nat)
    requires SignObjectsSpec(ctx, aws, transfer, actionName, verb, objects).statusCode == 200
    requires i < |objects|
    ensures var batch := SignObjectsSpec(ctx, aws, transfer, actionName, verb, objects).body.batch;
      && batch.transfer == transfer
      && |batch.objects| == |objects|
      && batch.objects[i].oid == objects[i].oid
      && batch.objects[i].size == objects[i].size
      && batch.objects[i].authenticated
      && (batch.objects[i].actions != map[] <==> batch.objects[i].error.None?)
  {
  }

  /** When object i's presign fails, entry i holds only the error text; when
      it succeeds, entry i's action under `actionName` carries the presigned
      URL, exactly the public-read header and a 900-second expiry. */
  lemma SignedEntryContents(
    ctx: Option<LambdaContext>, aws: Aws, transfer: string, actionName: string, verb: Verb,
    objects: seq<ObjectRequest>, i: nat)
    requires actionName in {"upload", "download"}
    requires SignObjectsSpec(ctx, aws, transfer, actionName, verb, objects).statusCode == 200
    requires i < |objects|
    ensures var entry := SignObjectsSpec(ctx, aws, transfer, actionName, verb, objects).body.batch.objects[i];
      var signed := aws.s3.presign(ObjectRequestFor(verb, objects[i]));
      && (signed.Failure? ==>
            entry == ObjectResponse(objects[i].oid, objects[i].size, true, map[], Some(ResponseError(0, signed.error, "", ""))))
      && (signed.Success? ==>
            && entry.error.None?
            && actionName in entry.actions
            && entry.actions[actionName].href == signed.value
            && entry.actions[actionName].header == map["X-Amz-Acl" := "public-read"]
            && entry.actions[actionName].expiresIn == 900)
  {
  }

  /** A signed entry carries a `verify` action exactly when the batch is an
      upload and its presign succeeded; the action points at the site's
      verify endpoint. Download entries never carry one. */
  lemma VerifyActionIffSignedUpload(
    ctx: Option<LambdaContext>, aws: Aws, transfer: string, actionName: string, verb: Verb,
    objects: seq<ObjectRequest>, i: nat)
    requires actionName in {"upload", "download"}
    requires SignObjectsSpec(ctx, aws, transfer, actionName, verb, objects).statusCode == 200
    requires i < |objects|
    ensures var entry := SignObjectsSpec(ctx, aws, transfer, actionName, verb, objects).body.batch.objects[i];
      var signed := aws.s3.presign(ObjectRequestFor(verb, objects[i]));
      && ("verify" in entry.actions <==> actionName == "upload" && signed.Success?)
      && ("verify" in entry.actions ==>
            ctx.Some? && entry.actions["verify"].href == SiteUrl(ctx.value) + "/.netlify/functions/lfs/verify")
  {
  }

  /** Per-object failure isolation: changing the presign oracle changes the
      status of nothing and changes only the entries of objects whose own
      presign outcome changed. In particular a presign failure on object i
      leaves every entry with a different outcome as it was. */
  lemma PresignFailureIsolated(
    ctx: Option<LambdaContext>, aws: Aws, otherPresign: S3Request -> Result<string, string>,
    transfer: string, actionName: string, verb: Verb, objects: seq<ObjectRequest>)
    ensures var r := SignObjectsSpec(ctx, aws, transfer, actionName, verb, objects);
      var r' := SignObjectsSpec(ctx, aws.(s3 := aws.s3.(presign := otherPresign)), transfer, actionName, verb, objects);
      && r.statusCode == r'.statusCode
      && (r.statusCode == 200 ==>
            forall j ::
              (0 <= j < |objects| &&
               aws.s3.presign(ObjectRequestFor(verb, objects[j])) == otherPresign(ObjectRequestFor(verb, objects[j])))
              ==> r.body.batch.objects[j] == r'.body.batch.objects[j])
  {
  }

  /** The oids of the entries that carry an error, in response order: what
      a client has to retry. */
  function FailedOids(entries: seq<ObjectResponse>): seq<string> {
    if entries == [] then []
    else (if entries[0].error.Some? then [entries[0].oid] else []) + FailedOids(entries[1..])
  }

  /** The oids of the objects whose presign fails, in input order. */
  function UnsignableOids(presign: S3Request -> Result<string, string>, verb: Verb, objects: seq<ObjectRequest>): seq<string> {
    if objects == [] then []
    else
      var first := if presign(ObjectRequestFor(verb, objects[0])).Failure? then [objects[0].oid] else [];
      first + UnsignableOids(presign, verb, objects[1..])
  }

  lemma {:induction false} FailedEntriesMatchFailedPresigns(
    svc: S3Service, actionName: string, verb: Verb, verify: Option<Action>, objects: seq<ObjectRequest>)
    ensures FailedOids(Entries(svc, actionName, verb, verify, objects)) == UnsignableOids(svc.presign, verb, objects)
  {
    if objects != [] {
      var entries := Entries(svc, actionName, verb, verify, objects);
      assert entries[1..] == Entries(svc, actionName, verb, verify, objects[1..]);
      FailedEntriesMatchFailedPresigns(svc, actionName, verb, verify, objects[1..]);
    }
  }

  /** In a signed batch the entries that carry an error are exactly the
      objects whose presign failed, in input order: the batch reports every
      failure and no other. */
  lemma SignedBatchReportsExactlyFailedPresigns(
    ctx: Option<LambdaContext>, aws: Aws, transfer: string, actionName: string, verb: Verb,
    objects: seq<ObjectRequest>)
    requires SignObjectsSpec(ctx, aws, transfer, actionName, verb, objects).statusCode == 200
    ensures FailedOids(SignObjectsSpec(ctx, aws, transfer, actionName, verb, objects).body.batch.objects)
      == UnsignableOids(aws.s3.presign, verb, objects)
  {
    var svc := NewS3Service(aws).value;
    FailedEntriesMatchFailedPresigns(svc, actionName, verb, VerifyActionFor(ctx, actionName).value, objects);
  }
}
