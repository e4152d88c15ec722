/** The vocabulary the facade shares with its S3-compatible backend: client modes,
    presigned URLs, the requests it sends, the listing pages it receives, the errors
    it throws, and a scripted backend that records every request. */
module Storage {
  import opened Results

  /** `S3ClientMode`: which client/bucket pair an operation targets. */
  datatype Mode = Internal | External

  /** The two SDK clients: the mandatory default one, and the optional one bound to
      the internal service URL. */
  datatype Client = DefaultClient | InternalClient

  datatype Verb = Get | Put | Head

  datatype Protocol = Http | Https

  /** The part of a multipart upload a presigned URL is bound to. */
  datatype PartRef = PartRef(partNumber: int, uploadId: string)

  /** A presigned URL, kept opaque: the inputs it is signed from. The one-hour expiry
      is wall-clock time and is not part of the value. */
  datatype PresignedUrl = PresignedUrl(
    client: Client,
    bucket: string,
    verb: Verb,
    key: string,
    part: Option<PartRef>,
    protocol: Protocol)

  /** One entry of a completion manifest. */
  datatype PartETag = PartETag(partNumber: int, eTag: string)

  /** The S3 requests the facade issues, one constructor per SDK request type. */
  datatype Request =
    | DeleteObjectReq(bucket: string, key: string)
    | ListObjectsV2Req(bucket: string, prefix: Option<string>, continuationToken: Option<string>)
    | DeleteObjectsReq(bucket: string, keys: seq<string>)
    | InitiateMultipartUploadReq(bucket: string, key: string)
    | AbortMultipartUploadReq(bucket: string, key: string, uploadId: Option<string>)
    | CompleteMultipartUploadReq(bucketName: Option<string>, key: string, uploadId: Option<string>, parts: seq<PartETag>)

  /** A request as the backend receives it: an S3 request through one of the two
      clients, or a plain HTTP HEAD of a presigned URL. */
  datatype Call = S3Call(client: Client, request: Request) | HttpHead(url: PresignedUrl)

  /** One page of a `ListObjectsV2` reply. */
  datatype Page = Page(keys: seq<string>, isTruncated: bool, nextContinuationToken: Option<string>)

  /** The reply to a listing once the scripted pages are used up. */
  const FinalEmptyPage: Page := Page([], false, None)

  /** What `StartMultipartUploadAsync` returns: the upload id and one URL per part. */
  datatype MultipartUploadMeta = MultipartUploadMeta(uploadId: string, parts: array<PresignedUrl>)

  /** The exceptions the facade throws; `Message` gives each one's text. */
  datatype Error =
    | InvalidObjectName
    | CouldNotDeleteObject
    | CouldNotDeleteDirectory
    | FileTooLarge
    | CouldNotInitiateMultipartUpload
    | FailedToInitiateMultipartUpload
    | CouldNotAbortMultipartUpload
    | FailedToAbortMultipartUpload
    | FailedToCompleteMultipartUpload
    | ArithmeticOverflow

  function Message(e: Error): (m: string)
    ensures |m| > 1 && m[|m| - 1] == '.'
  {
    match e
    case InvalidObjectName => "Invalid object name."
    case CouldNotDeleteObject => "Could not delete object."
    case CouldNotDeleteDirectory => "Could not delete directory."
    case FileTooLarge => "File size exceeds the maximum allowed size."
    case CouldNotInitiateMultipartUpload => "Could not initiate multipart upload."
    case FailedToInitiateMultipartUpload => "Failed to initiate multipart upload."
    case CouldNotAbortMultipartUpload => "Could not abort multipart upload."
    case FailedToAbortMultipartUpload => "Failed to abort multipart upload."
    case FailedToCompleteMultipartUpload => "Failed to complete multipart upload."
    case ArithmeticOverflow => "Arithmetic operation resulted in an overflow."
  }

  /** Each exception kind has its own text, so a caller can tell them apart. */
  lemma MessagesDistinct(e1: Error, e2: Error)
    ensures e1 != e2 ==> Message(e1) != Message(e2)
  {
  }

  /** The mutable request object `CompleteMultipartUploadAsync` receives from its
      caller and rewrites before submitting it. */
  class CompleteMultipartUploadRequest {
    var bucketName: Option<string>
    var key: string
    var uploadId: Option<string>
    var partETags: seq<PartETag>

    constructor (key: string, uploadId: Option<string>, partETags: seq<PartETag>)
      ensures this.bucketName == None && this.key == key
      ensures this.uploadId == uploadId && this.partETags == partETags
    {
      this.bucketName := None;
      this.key := key;
      this.uploadId := uploadId;
      this.partETags := partETags;
    }

    /** The request as it stands now, as the SDK reads it when it is submitted. */
    function AsRequest(): Request
      reads this
    {
      CompleteMultipartUploadReq(bucketName, key, uploadId, partETags)
    }
  }

  /** An S3-compatible backend whose replies are fixed in advance: the status code of
      each request, the upload id an initiation returns, the Content-Length of each
      HEAD, and the queue of listing pages. It records every request in `log`. */
  class Backend {
    var log: seq<Call>
    var pages: seq<Page>
    const status: Request -> int
    const newUploadId: Request -> string
    const contentLength: PresignedUrl -> Option<nat>

    constructor (pages: seq<Page>, status: Request -> int, newUploadId: Request -> string,
                 contentLength: PresignedUrl -> Option<nat>)
      ensures this.log == [] && this.pages == pages
      ensures this.status == status && this.newUploadId == newUploadId
      ensures this.contentLength == contentLength
    {
      this.log := [];
      this.pages := pages;
      this.status := status;
      this.newUploadId := newUploadId;
      this.contentLength := contentLength;
    }

    /** Sends `request` through `client` and answers with its status code. */
    method Send(client: Client, request: Request) returns (statusCode: int)
      modifies this
      ensures log == old(log) + [S3Call(client, request)] && pages == old(pages)
      ensures statusCode == status(request)
    {
      log := log + [S3Call(client, request)];
      statusCode := status(request);
    }

    /** Sends a listing request and answers with the next scripted page, or with
      the final empty page once the script is used up. */
    method SendList(client: Client, request: Request) returns (page: Page)
      modifies this
      ensures log == old(log) + [S3Call(client, request)]
      ensures old(pages) == [] ==> page == FinalEmptyPage && pages == []
      ensures old(pages) != [] ==> page == old(pages)[0] && pages == old(pages)[1..]
    {
      log := log + [S3Call(client, request)];
      if pages == [] {
        page := FinalEmptyPage;
      } else {
        page := pages[0];
        pages := pages[1..];
      }
    }

    /** Sends an initiation request and answers with its status and the upload id. */
    method SendInitiate(client: Client, request: Request) returns (statusCode: int, uploadId: string)
      modifies this
      ensures log == old(log) + [S3Call(client, request)] && pages == old(pages)
      ensures statusCode == status(request) && uploadId == newUploadId(request)
    {
      log := log + [S3Call(client, request)];
      statusCode := status(request);
      uploadId := newUploadId(request);
    }

    /** Sends an HTTP HEAD for `url` and answers with the Content-Length header. */
    method SendHead(url: PresignedUrl) returns (length: Option<nat>)
      modifies this
      ensures log == old(log) + [HttpHead(url)] && pages == old(pages)
      ensures length == contentLength(url)
    {
      log := log + [HttpHead(url)];
      length := contentLength(url);
    }
  }
}
