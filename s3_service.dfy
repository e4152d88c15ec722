/** The object-storage facade `S3Service` (production build): key derivation, the
    choice between the default and the internal client/bucket pair, presigned URLs,
    and the operations that drive the backend, each with its own soft-fail or throw
    policy. */
module S3 {
  import opened Results
  import opened ObjectNames
  import opened Storage
  import opened Listing

  /** The read-time size ceiling: 513 MiB. */
  const MaxObjectSize: int := 513 * 1024 * 1024

  /** The ceiling is 513 MiB, a full MiB above 512 MiB and so well above "512 MiB +
      1 byte": a 512 MiB object and anything up to one byte short of 513 MiB is still
      accepted. */
  lemma MaxObjectSizeIs513MiB()
    ensures MaxObjectSize == 537919488
    ensures MaxObjectSize == 512 * 1024 * 1024 + 1024 * 1024
    ensures MaxObjectSize > 512 * 1024 * 1024 + 1
  {
  }

  /** A response is a success exactly when its status is in the 2xx class. */
  function IsSuccessStatusCode(statusCode: int): (ok: bool)
    ensures ok <==> statusCode / 100 == 2
  {
    statusCode >= 200 && statusCode <= 299
  }

  /** `string.IsNullOrEmpty`. */
  predicate IsNullOrEmpty(s: Option<string>) {
    s.None? || s.value == ""
  }

  /** The protocol a URL is signed for: HTTP when the client's service URL starts
      with `http://`, HTTPS otherwise. */
  function ProtocolFor(serviceUrl: string): (p: Protocol)
    ensures p == Http <==> |serviceUrl| >= 7 && serviceUrl[..7] == "http://"
  {
    if "http://" <= serviceUrl then Http else Https
  }

  class S3Service {
    /** `BUCKET_NAME` and `INTERNAL_BUCKET_NAME`. */
    const bucketName: string
    const internalBucketName: string
    /** The service URLs the two clients are configured with. */
    const serviceUrl: string
    const internalServiceUrl: string
    /** Whether `S3InternalClient` exists. */
    const hasInternalClient: bool
    /** `Constants.IS_SELF_HOSTED`. */
    const isSelfHosted: bool

    /** A missing bucket setting reads as `""`; the internal client is created only
        for a non-empty internal service URL. */
    constructor (bucketSetting: Option<string>, internalBucketSetting: Option<string>,
                 serviceUrlSetting: string, internalServiceUrlSetting: Option<string>, selfHosted: bool)
      ensures bucketName == bucketSetting.GetOr("")
      ensures internalBucketName == internalBucketSetting.GetOr("")
      ensures serviceUrl == serviceUrlSetting
      ensures hasInternalClient <==> !IsNullOrEmpty(internalServiceUrlSetting)
      ensures hasInternalClient ==> internalServiceUrl == internalServiceUrlSetting.value
      ensures isSelfHosted == selfHosted
    {
      bucketName := bucketSetting.GetOr("");
      internalBucketName := internalBucketSetting.GetOr("");
      serviceUrl := serviceUrlSetting;
      hasInternalClient := !IsNullOrEmpty(internalServiceUrlSetting);
      internalServiceUrl := internalServiceUrlSetting.GetOr("");
      isSelfHosted := selfHosted;
    }

    /** The internal client serves only INTERNAL mode, and only when it exists. */
    function GetS3Client(mode: Mode): (c: Client)
      ensures c == InternalClient <==> mode == Internal && hasInternalClient
    {
      if mode == Internal && hasInternalClient then InternalClient else DefaultClient
    }

    /** The bucket a client is paired with. */
    function BucketOf(c: Client): string {
      if c == InternalClient then internalBucketName else bucketName
    }

    /** The service URL a client is configured with. */
    function ServiceUrlOf(c: Client): (u: string)
      ensures c == GetS3Client(External) ==> u == serviceUrl
      ensures c == GetS3Client(Internal) ==> u == if hasInternalClient then internalServiceUrl else serviceUrl
    {
      if c == InternalClient then internalServiceUrl else serviceUrl
    }

    /** The bucket always belongs to the client the same mode selects. */
    function GetBucketName(mode: Mode): (b: string)
      ensures b == BucketOf(GetS3Client(mode))
    {
      if mode == Internal && hasInternalClient then internalBucketName else bucketName
    }

    /** `GetPresignedURL`: no URL for an invalid key; otherwise a URL for the namespaced
        key, signed by the mode's client for the mode's bucket, with the scheme of that
        client's service URL. */
    function GetPresignedUrl(userId: Option<string>, name: string, verb: Verb, mode: Mode): (r: Option<PresignedUrl>)
      ensures r.None? <==> FullObjectName(userId, name).None?
      ensures r.Some? ==>
        && r.value.key == FullObjectName(userId, name).value
        && r.value.verb == verb
        && r.value.part.None?
        && r.value.client == GetS3Client(mode)
        && r.value.bucket == BucketOf(r.value.client)
        && (r.value.protocol == Http <==> "http://" <= ServiceUrlOf(r.value.client))
    {
      var objectName := FullObjectName(userId, name);
      if userId.None? || objectName.None? then None
      else
        var client := GetS3Client(mode);
        Some(PresignedUrl(client, GetBucketName(mode), verb, objectName.value, None,
                          ProtocolFor(ServiceUrlOf(client))))
    }

    /** `GetPresignedURLForUploadPart`: a PUT for one part of an upload, always through
        the INTERNAL-mode client and bucket. */
    function GetPresignedUrlForUploadPart(objectName: string, uploadId: string, partNumber: int): (u: PresignedUrl)
      ensures u.verb == Put && u.key == objectName
      ensures u.part == Some(PartRef(partNumber, uploadId))
      ensures u.client == GetS3Client(Internal) && u.bucket == BucketOf(u.client)
      ensures u.protocol == Http <==> "http://" <= ServiceUrlOf(u.client)
    {
      var client := GetS3Client(Internal);
      PresignedUrl(client, GetBucketName(Internal), Put, objectName, Some(PartRef(partNumber, uploadId)),
                   ProtocolFor(ServiceUrlOf(client)))
    }

    /** `GetUploadObjectUrl`: null for an invalid key, else an EXTERNAL-mode PUT, which
        always uses the default client and `BUCKET_NAME`. */
    function GetUploadObjectUrl(userId: Option<string>, name: string): (r: Option<PresignedUrl>)
      ensures r.None? <==> FullObjectName(userId, name).None?
      ensures r.Some? ==>
        r.value == PresignedUrl(DefaultClient, bucketName, Put, FullObjectName(userId, name).value, None,
                                ProtocolFor(serviceUrl))
    {
      var url := GetPresignedUrl(userId, name, Put, External);
      if url.None? then None else url
    }

    /** `GetDownloadObjectUrl`: the same for a GET. */
    function GetDownloadObjectUrl(userId: Option<string>, name: string): (r: Option<PresignedUrl>)
      ensures r.None? <==> FullObjectName(userId, name).None?
      ensures r.Some? ==>
        r.value == PresignedUrl(DefaultClient, bucketName, Get, FullObjectName(userId, name).value, None,
                                ProtocolFor(serviceUrl))
    {
      var url := GetPresignedUrl(userId, name, Get, External);
      if url.None? then None else url
    }

    /** No signed URL ever has a scheme other than its endpoint's: an `http://`
        backend never yields an HTTPS URL and any other backend never an HTTP one. */
    lemma SignedUrlSchemeMatchesEndpoint(userId: Option<string>, name: string, verb: Verb, mode: Mode,
                                         objectName: string, uploadId: string, partNumber: int)
      ensures var r := GetPresignedUrl(userId, name, verb, mode);
        r.Some? ==> r.value.protocol == ProtocolFor(ServiceUrlOf(r.value.client))
      ensures var u := GetPresignedUrlForUploadPart(objectName, uploadId, partNumber);
        u.protocol == ProtocolFor(ServiceUrlOf(u.client))
    {
    }

    /** `DeleteObjectAsync`: throws on an invalid key without contacting the backend;
        otherwise one delete through the INTERNAL-mode pair, throwing on a non-2xx reply. */
    method DeleteObject(backend: Backend, userId: Option<string>, name: string) returns (r: Result<(), Error>)
      modifies backend
      ensures backend.pages == old(backend.pages)
      ensures FullObjectName(userId, name).None? ==>
        r == Err(InvalidObjectName) && backend.log == old(backend.log)
      ensures FullObjectName(userId, name).Some? ==>
        var request := DeleteObjectReq(GetBucketName(Internal), FullObjectName(userId, name).value);
        && backend.log == old(backend.log) + [S3Call(GetS3Client(Internal), request)]
        && r == if IsSuccessStatusCode(backend.status(request)) then Ok(()) else Err(CouldNotDeleteObject)
    {
      var objectName := FullObjectName(userId, name);
      if objectName.None? {
        return Err(InvalidObjectName);
      }
      var statusCode := backend.Send(GetS3Client(Internal), DeleteObjectReq(GetBucketName(Internal), objectName.value));
      if !IsSuccessStatusCode(statusCode) {
        return Err(CouldNotDeleteObject);
      }
      return Ok(());
    }

    /** `DeleteDirectoryAsync`: drain the listing under the prefix `userId` (no key
        validation, and a null id lists with no prefix), then issue no delete when no key
        was found, or one batched delete of every key, throwing on a non-2xx reply. */
    method DeleteDirectory(backend: Backend, userId: Option<string>) returns (r: Result<(), Error>)
      modifies backend
      ensures
        var client, bucket := GetS3Client(Internal), GetBucketName(Internal);
        var d := Drain(client, bucket, userId, None, old(backend.pages));
        var batch := DeleteObjectsReq(bucket, d.keys);
        && backend.pages == d.rest
        && (d.keys == [] ==> r == Ok(()) && backend.log == old(backend.log) + d.calls)
        && (d.keys != [] ==>
              && backend.log == old(backend.log) + d.calls + [S3Call(client, batch)]
              && r == if IsSuccessStatusCode(backend.status(batch)) then Ok(()) else Err(CouldNotDeleteDirectory))
    {
      var client, bucket := GetS3Client(Internal), GetBucketName(Internal);
      ghost var log0 := backend.log;
      ghost var all := Drain(client, bucket, userId, None, backend.pages);
      var token: Option<string> := None;
      var keys: seq<string> := [];
      var truncated := true;
      while truncated
        invariant truncated ==>
          var d := Drain(client, bucket, userId, token, backend.pages);
          keys + d.keys == all.keys && backend.log + d.calls == log0 + all.calls && d.rest == all.rest
        invariant !truncated ==>
          keys == all.keys && backend.log == log0 + all.calls && backend.pages == all.rest
        decreases |backend.pages| + (if truncated then 1 else 0)
      {
        ghost var before := backend.pages;
        var page := backend.SendList(client, ListObjectsV2Req(bucket, userId, token));
        keys := keys + page.keys;
        token := page.nextContinuationToken;
        truncated := page.isTruncated;
        assert before != [] && truncated ==>
          backend.log + Drain(client, bucket, userId, token, backend.pages).calls == log0 + all.calls;
      }
      if |keys| <= 0 {
        return Ok(());
      }
      var statusCode := backend.Send(client, DeleteObjectsReq(bucket, keys));
      if !IsSuccessStatusCode(statusCode) {
        return Err(CouldNotDeleteDirectory);
      }
      return Ok(());
    }

    /** `GetObjectSizeAsync`: 0 with no backend contact for an invalid key; otherwise a
        HEAD of an INTERNAL-mode presigned URL. Outside self-hosted deployments a length
        of at least `MaxObjectSize` deletes the object and fails; otherwise the
        Content-Length, or 0 when the header is absent. */
    method GetObjectSize(backend: Backend, userId: Option<string>, name: string) returns (r: Result<int, Error>)
      modifies backend
      ensures backend.pages == old(backend.pages)
      ensures r.Ok? && !isSelfHosted ==> 0 <= r.value < MaxObjectSize
      ensures
        var url := GetPresignedUrl(userId, name, Head, Internal);
        && (url.None? ==> r == Ok(0) && backend.log == old(backend.log))
        && (url.Some? ==>
              var length := backend.contentLength(url.value);
              var delete := DeleteObjectReq(GetBucketName(Internal), url.value.key);
              if !isSelfHosted && length.Some? && length.value >= MaxObjectSize then
                && backend.log == old(backend.log) + [HttpHead(url.value), S3Call(GetS3Client(Internal), delete)]
                && r == Err(if IsSuccessStatusCode(backend.status(delete)) then FileTooLarge else CouldNotDeleteObject)
              else
                && backend.log == old(backend.log) + [HttpHead(url.value)]
                && r == Ok(length.GetOr(0)))
    {
      var url := GetPresignedUrl(userId, name, Head, Internal);
      if url.None? {
        return Ok(0);
      }
      var length := backend.SendHead(url.value);
      if !isSelfHosted && length.Some? && length.value >= MaxObjectSize {
        var deleted := DeleteObject(backend, userId, name);
        if deleted.Err? {
          return Err(deleted.error);
        }
        return Err(FileTooLarge);
      }
      return Ok(length.GetOr(0));
    }

    /** `StartMultipartUploadAsync`: throws on an invalid key; initiates a new upload
        only when `uploadId` is null or empty, throwing on a non-2xx reply; then fills an
        array of exactly `parts` part URLs, the i-th for part number i+1, all bound to
        the same upload id. */
    method StartMultipartUpload(backend: Backend, userId: Option<string>, name: string, parts: int,
                                uploadId: Option<string>)
      returns (r: Result<MultipartUploadMeta, Error>)
      modifies backend
      ensures backend.pages == old(backend.pages)
      ensures FullObjectName(userId, name).None? ==>
        r == Err(CouldNotInitiateMultipartUpload) && backend.log == old(backend.log)
      ensures FullObjectName(userId, name).Some? ==>
        var key := FullObjectName(userId, name).value;
        var initiate := InitiateMultipartUploadReq(GetBucketName(Internal), key);
        var fails := IsNullOrEmpty(uploadId) && !IsSuccessStatusCode(backend.status(initiate));
        var id := if IsNullOrEmpty(uploadId) then backend.newUploadId(initiate) else uploadId.value;
        && backend.log == old(backend.log) + (if IsNullOrEmpty(uploadId) then [S3Call(GetS3Client(Internal), initiate)] else [])
        && (fails ==> r == Err(FailedToInitiateMultipartUpload))
        && (!fails && parts < 0 ==> r == Err(ArithmeticOverflow))
        && (!fails && parts >= 0 ==>
              && r.Ok? && fresh(r.value.parts)
              && r.value.uploadId == id
              && r.value.parts.Length == parts
              && forall i | 0 <= i < parts :: r.value.parts[i] == GetPresignedUrlForUploadPart(key, id, i + 1))
    {
      var objectName := FullObjectName(userId, name);
      if userId.None? || objectName.None? {
        return Err(CouldNotInitiateMultipartUpload);
      }
      var id := uploadId.GetOr("");
      if IsNullOrEmpty(uploadId) {
        var statusCode, newId := backend.SendInitiate(GetS3Client(Internal),
                                                      InitiateMultipartUploadReq(GetBucketName(Internal), objectName.value));
        if !IsSuccessStatusCode(statusCode) {
          return Err(FailedToInitiateMultipartUpload);
        }
        id := newId;
      }
      if parts < 0 {
        return Err(ArithmeticOverflow);
      }
      var signedUrls := new PresignedUrl[parts];
      for i := 0 to parts
        modifies signedUrls
        invariant forall j | 0 <= j < i :: signedUrls[j] == GetPresignedUrlForUploadPart(objectName.value, id, j + 1)
      {
        signedUrls[i] := GetPresignedUrlForUploadPart(objectName.value, id, i + 1);
      }
      return Ok(MultipartUploadMeta(id, signedUrls));
    }

    /** `AbortMultipartUploadAsync`: throws on an invalid key without contacting the
        backend; otherwise one abort through the INTERNAL-mode pair, throwing on a
        non-2xx reply. */
    method AbortMultipartUpload(backend: Backend, userId: Option<string>, name: string, uploadId: Option<string>)
      returns (r: Result<(), Error>)
      modifies backend
      ensures backend.pages == old(backend.pages)
      ensures FullObjectName(userId, name).None? ==>
        r == Err(CouldNotAbortMultipartUpload) && backend.log == old(backend.log)
      ensures FullObjectName(userId, name).Some? ==>
        var request := AbortMultipartUploadReq(GetBucketName(Internal), FullObjectName(userId, name).value, uploadId);
        && backend.log == old(backend.log) + [S3Call(GetS3Client(Internal), request)]
        && r == if IsSuccessStatusCode(backend.status(request)) then Ok(()) else Err(FailedToAbortMultipartUpload)
    {
      var objectName := FullObjectName(userId, name);
      if userId.None? || objectName.None? {
        return Err(CouldNotAbortMultipartUpload);
      }
      var statusCode := backend.Send(GetS3Client(Internal),
                                     AbortMultipartUploadReq(GetBucketName(Internal), objectName.value, uploadId));
      if !IsSuccessStatusCode(statusCode) {
        return Err(FailedToAbortMultipartUpload);
      }
      return Ok(());
    }

    /** `CompleteMultipartUploadAsync`: validates the key derived from `request.key`,
        throwing (with the abort message, as the source does) and leaving the request
        untouched when it is invalid; otherwise rewrites the request's key to the
        namespaced key and its bucket to the INTERNAL-mode bucket, submits it, and
        throws on a non-2xx reply. */
    method CompleteMultipartUpload(backend: Backend, userId: Option<string>, request: CompleteMultipartUploadRequest)
      returns (r: Result<(), Error>)
      modifies backend, request
      ensures backend.pages == old(backend.pages)
      ensures request.uploadId == old(request.uploadId) && request.partETags == old(request.partETags)
      ensures FullObjectName(userId, old(request.key)).None? ==>
        && r == Err(CouldNotAbortMultipartUpload) && backend.log == old(backend.log)
        && request.key == old(request.key) && request.bucketName == old(request.bucketName)
      ensures FullObjectName(userId, old(request.key)).Some? ==>
        && request.key == FullObjectName(userId, old(request.key)).value
        && request.bucketName == Some(GetBucketName(Internal))
        && backend.log == old(backend.log) + [S3Call(GetS3Client(Internal), request.AsRequest())]
        && r == if IsSuccessStatusCode(backend.status(request.AsRequest())) then Ok(())
                else Err(FailedToCompleteMultipartUpload)
    {
      var objectName := FullObjectName(userId, request.key);
      if userId.None? || objectName.None? {
        return Err(CouldNotAbortMultipartUpload);
      }
      request.key := objectName.value;
      request.bucketName := Some(GetBucketName(Internal));
      var statusCode := backend.Send(GetS3Client(Internal), request.AsRequest());
      if !IsSuccessStatusCode(statusCode) {
        return Err(FailedToCompleteMultipartUpload);
      }
      return Ok(());
    }
  }
}
