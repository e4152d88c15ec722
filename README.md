# Notesnook sync server: the S3 storage facade

This project models `S3Service`, the object-storage facade of the Notesnook sync
server, as it is compiled for production. The facade sits in front of an
S3-compatible store. It has two client/bucket pairs:

- a default one, always present;
- an internal one, created only when an internal service URL is configured.

It offers these operations:

- delete one object;
- delete every object under a user's prefix;
- measure an object's size, with a HEAD of a presigned URL;
- hand out presigned upload and download URLs;
- drive the multipart-upload lifecycle: start, abort and complete.

Modules:

- `Results` holds `Option`, for a nullable reference, and `Result`, for an operation
  that can throw.
- `ObjectNames` derives the key `"{userId}/{name}"` behind a character-class gate.
  It also proves what that gate admits, and that keys of different users do not
  collide when user ids hold no `/`.
- `Storage` holds the facade's vocabulary: modes, clients, presigned URLs (opaque
  values), requests, listing pages and errors. It also holds `Backend`, a scripted
  stand-in for the store. Its replies are fixed when it is built:
  - a status code for each request;
  - an upload id for each initiation;
  - a Content-Length for each HEAD;
  - a queue of listing pages.

  `Backend` records every request it receives, in order, in `log`.
- `Listing` specifies draining a paginated listing, as the function `Drain`. It
  proves which keys the drain collects and which continuation tokens it sends.
- `S3` holds the class `S3Service`. Its fields are read-only: the two bucket names,
  the two service URLs, whether the internal client exists, and whether the
  deployment is self-hosted. The pure helpers of the source are functions. The
  operations that talk to the backend are methods. Each method's postcondition gives
  the result and the exact sequence of requests it issued (none, on an invalid key).

Where the code departs from what its comments and names suggest, the model follows the code:

- **The name gate.** The pattern `[0-9a-zA-Z!` + `Regex.Escape("-")` + `_.*'()]` is
  built with an unescaped hyphen, because `Regex.Escape` does not escape `-`. So
  `!-_` is a range, and the class is exactly `!`..`_` plus `a`..`z`
  (`NameClassIsTwoRanges`). It admits 19 punctuation characters beyond the listed
  ones (`UnlistedCharsAdmitted`). The test is also a "contains" match: a name passes
  when any one of its characters is in the class (`ContainsNotFullMatch`).
- **The size ceiling** is `513 * 1024 * 1024` bytes, although its comment says 512 MB.
  An object is refused when its size is at least that much.
- **The prefix for deleting a directory** is the bare user id: it has no trailing `/`
  and is not validated. A null id lists with no prefix at all. So, against a real
  store, deleting the directory of user `a` also lists the objects of every user
  whose id starts with `a`, such as `ab` (`PrefixCoversExtendedUserIds`), and a null
  id lists the whole bucket. All the keys listed are then sent in one batched delete.
  They are deleted as long as they fit in one batch, which holds at most 1000 keys on
  AWS S3 (other stores set their own limit). Beyond that the store rejects the batch
  and nothing is deleted. Since an AWS S3 listing page holds up to 1000 keys, a listing
  that reads a truncated page there always ends in a rejected batch.
- **Completing a multipart upload** with an invalid key throws the abort message,
  "Could not abort multipart upload.".

## Model

| member | source | states |
|---|---|---|
| `ObjectNames.InNameClass` | Notesnook.API/Services/S3Service.cs:261 | Membership in `[0-9a-zA-Z!-_.*'()]` item by item, with `!-_` a range because `Regex.Escape("-")` leaves the hyphen unescaped. Only printable ASCII from `!` to `z` is ever admitted. |
| `ObjectNames.PassesNameCheck` | Notesnook.API/Services/S3Service.cs:261 | `Regex.IsMatch`: some character of the name is in the class, a "contains" test. The empty name never passes. |
| `ObjectNames.FullObjectName` | Notesnook.API/Services/S3Service.cs:259-263 | No key exactly when the user id is null or no character of the name is in the class. Otherwise the key is the user id, then `/`, then the name. |
| `ObjectNames.NameClassIsTwoRanges` | Notesnook.API/Services/S3Service.cs:261 | The class, read the way .NET parses it, is exactly the range `!`..`_` plus `a`..`z`. |
| `ObjectNames.ListedCharsAdmitted` | Notesnook.API/Services/S3Service.cs:261 | Every listed character is admitted: digits, letters and `!-_.*'()`. |
| `ObjectNames.UnlistedCharsAdmitted` | Notesnook.API/Services/S3Service.cs:261 | The class admits exactly 19 characters beyond the listed ones: ``"#$%&+,/:;<=>?@[\]^``. |
| `ObjectNames.ContainsNotFullMatch` | Notesnook.API/Services/S3Service.cs:261 | A name containing a space and a `~` still gets a key, because the gate only needs one admitted character. A name made only of unadmitted characters gets none. `/` is itself admitted, so the name `/` gets the key `u//`. |
| `ObjectNames.KeyUnderUserPrefix` | Notesnook.API/Services/S3Service.cs:259-263 | Every derived key starts with `userId + "/"`. So a listing by the prefix `userId` covers all of that user's objects (and, see the next row, not only theirs). |
| `ObjectNames.PrefixCoversExtendedUserIds` | Notesnook.API/Services/S3Service.cs:110-111 | The bare prefix `userId` also lies under the key of every user whose id extends `userId`, so a listing by it covers those users' objects too. |
| `ObjectNames.PrefixCoversOtherUser` | Notesnook.API/Services/S3Service.cs:110-111 | Concretely: the prefix `a` lies under user `ab`'s key `ab/x`. |
| `ObjectNames.SplitFullObjectName` | Notesnook.API/Services/S3Service.cs:262 | Round trip: for a user id without `/`, splitting the key at its first `/` gives back the user id and the name. |
| `ObjectNames.FullObjectNameInjective` | Notesnook.API/Services/S3Service.cs:262 | When user ids hold no `/`, equal keys mean the same user and the same name. |
| `ObjectNames.SlashInUserIdCollides` | Notesnook.API/Services/S3Service.cs:262 | Without that condition keys collide: (`a/b`, `c`) and (`a`, `b/c`) both give `a/b/c`. |
| `S3.MaxObjectSizeIs513MiB` | Notesnook.API/Services/S3Service.cs:148 | `MAX_SIZE` (the constant `S3.MaxObjectSize`) is 513 MiB = 537919488 bytes, a full MiB above 512 MiB (so 1 MiB − 1 byte above 512 MiB + 1 byte). |
| `S3.IsSuccessStatusCode` | Notesnook.API/Services/S3Service.cs:265-268 | A status is a success exactly when it is in the 2xx class, i.e. 200 to 299. |
| `S3.ProtocolFor` | Notesnook.API/Services/S3Service.cs:233 | The URL is signed for HTTP exactly when the service URL starts with `http://`, and for HTTPS otherwise. |
| `S3.S3Service.constructor` | Notesnook.API/Services/S3Service.cs:45-90 | A missing bucket setting becomes `""`. The internal client exists exactly when the internal service URL is neither null nor empty. |
| `S3.S3Service.ServiceUrlOf` | Notesnook.API/Services/S3Service.cs:233 | `client.Config.ServiceURL`: the EXTERNAL-mode client has the default service URL; the INTERNAL-mode client has the internal one when the internal client exists, else the default one. |
| `S3.S3Service.GetS3Client` | Notesnook.API/Services/S3Service.cs:270-274 | The internal client is chosen exactly when the mode is INTERNAL and the internal client exists. Every other case gets the default client. |
| `S3.S3Service.GetBucketName` | Notesnook.API/Services/S3Service.cs:276-280 | The bucket is always the one paired with the client that the same mode selects. |
| `S3.S3Service.GetPresignedUrl` | Notesnook.API/Services/S3Service.cs:218-237 | No URL exactly when the key is invalid. Otherwise: the namespaced key, the given verb, no part, the mode's client and that client's bucket, and HTTP exactly when that client's service URL starts with `http://`. |
| `S3.S3Service.GetPresignedUrlForUploadPart` | Notesnook.API/Services/S3Service.cs:239-257 | A PUT for the given part number and upload id, through the INTERNAL-mode client and its bucket. The scheme is that client's. |
| `S3.S3Service.GetUploadObjectUrl` | Notesnook.API/Services/S3Service.cs:158-163 | Null on an invalid key. Otherwise a PUT from the default client for `BUCKET_NAME`, even when an internal client exists, with the default service URL's scheme. |
| `S3.S3Service.GetDownloadObjectUrl` | Notesnook.API/Services/S3Service.cs:165-170 | The same as the upload URL, for a GET. |
| `S3.S3Service.SignedUrlSchemeMatchesEndpoint` | Notesnook.API/Services/S3Service.cs:218-257 | Every signed URL, object or part, carries the scheme of the service URL of the client that signed it. |
| `Storage.Message` | Notesnook.API/Services/S3Service.cs:95-216 | The text of each exception the facade throws, as at lines 98, 103, 138, 152, 175, 180, 201, 204, 210 and 215, plus the runtime's overflow text for a negative part count. |
| `Storage.MessagesDistinct` | Notesnook.API/Services/S3Service.cs:95-216 | Different exception kinds have different texts. The invalid-key throw of completion shares the abort kind, as in the source. |
| `S3.S3Service.DeleteObject` | Notesnook.API/Services/S3Service.cs:95-104 | An invalid key throws "Invalid object name." and sends nothing. Otherwise exactly one delete goes through the INTERNAL-mode pair, and a non-2xx reply throws. |
| `Listing.Drain` | Notesnook.API/Services/S3Service.cs:116-126 | The `do`/`while` listing loop as a recursive function: at least one listing request is sent, the first carrying the starting token, and at least one scripted page is read unless there are none. What it collects is stated by the lemmas below. |
| `Listing.FinalIndex` | Notesnook.API/Services/S3Service.cs:116-126 | The index of the first page that is not truncated: every earlier page is truncated. |
| `Listing.DrainCollectsPagesInOrder` | Notesnook.API/Services/S3Service.cs:116-126 | The collected keys are every page's keys in order, up to and including the first page that is not truncated. Later pages are left unread. |
| `Listing.DrainFollowsContinuationTokens` | Notesnook.API/Services/S3Service.cs:116-126 | One listing request per page read. The first request carries the starting token (none, when called from `DeleteDirectory`); each later one carries the previous page's continuation token. |
| `Listing.ConcatKeysHolds` | Notesnook.API/Services/S3Service.cs:119-122 | A key is collected exactly when one of the pages read holds it. |
| `S3.S3Service.DeleteDirectory` | Notesnook.API/Services/S3Service.cs:106-139 | The listing is drained first, with prefix `userId`. No keys: no delete, success. Otherwise exactly one batched delete of all the drained keys comes after the listing, and a non-2xx reply throws. |
| `S3.S3Service.GetObjectSize` | Notesnook.API/Services/S3Service.cs:141-155 | An invalid key returns 0 with no backend contact. Otherwise one HEAD of an INTERNAL-mode URL. When not self-hosted and the length is at least 513 MiB: a delete of the object follows, then a throw. Otherwise the Content-Length, or 0 when it is absent. When not self-hosted, any size returned is below 513 MiB. |
| `S3.S3Service.StartMultipartUpload` | Notesnook.API/Services/S3Service.cs:172-196 | An invalid key throws and sends nothing. A null or empty upload id triggers one initiation, and a non-2xx reply throws; a non-empty id is reused with no initiation. The result is a fresh array of exactly `parts` URLs. Entry i is the PUT for part i+1, and every entry carries the same upload id. |
| `S3.S3Service.AbortMultipartUpload` | Notesnook.API/Services/S3Service.cs:198-205 | An invalid key throws and sends nothing. Otherwise exactly one abort goes through the INTERNAL-mode pair, and a non-2xx reply throws. |
| `S3.S3Service.CompleteMultipartUpload` | Notesnook.API/Services/S3Service.cs:207-216 | An invalid key throws and leaves the request and the backend untouched. Otherwise the request's key becomes the namespaced key and its bucket the INTERNAL-mode bucket, with the other fields unchanged. It is submitted once, and a non-2xx reply throws. |

## Left out

- Streetwriters.Common/Interfaces/IClient.cs and Streetwriters.Data/Interfaces/IDbContext.cs are not part of this model. They declare interfaces with no behaviour.
- The SDK configuration in the constructor is not modelled: credentials, region, SigV4 signing, path-style addressing and the process-wide `UseSignatureVersion4` flag. Only the bucket names, the service URLs and the existence of the internal client are kept.
- Request signing is not modelled. A presigned URL is an opaque value built from its inputs, and its one-hour expiry (wall-clock time) is dropped.
- The `DEBUG || STAGING` build variants are not modelled: their fixed HTTP protocol and local test server.
- `async`/`Task` and the HTTP transport are not modelled. The backend's replies are inputs fixed when `Storage.Backend` is built. The same request always gets the same status code.
- When the scripted listing pages run out, the backend answers with a final empty page that is not truncated.
- The scripted listing replies ignore the request's prefix and continuation token: the backend answers each listing request with the next scripted page. So a script whose truncated page has no continuation token resends the first request and still gets the next page, where a real store would answer with the first page again and the source's `do`/`while` loop would not end. `Listing.DrainFollowsContinuationTokens` states which tokens are sent, but not that a store's reply depends on them.
- The store's limit on the keys of one batched delete (1000 on AWS S3) is not modelled. `Storage.Backend.status` may answer any batch, of any size, with any status code, so a rejected oversized batch is one of the failure replies `S3.S3Service.DeleteDirectory` already covers. The SDK's own exception for that rejection is not modelled (see below).
- Exceptions the AWS SDK itself may throw on error replies are not modelled, nor network failures. Only the facade's own status checks are. The listing replies are not checked, as in the source.
- A null `name` is not modelled (`Regex.IsMatch` would throw). Names are plain strings.
- `ProtocolFor`: `StartsWith("http://")` is modelled as an ordinal prefix test. .NET's default comparison is culture-sensitive and can ignore some zero-width characters.
- `S3.S3Service.StartMultipartUpload`: the upload id the backend returns is taken to be non-null.
- Integer widths are not modelled: `long` sizes are unbounded naturals and `int` part counts are unbounded integers. Part numbers `i + 1` never exceed `parts`, so they cannot overflow.
- Concurrency is not modelled. Every operation is one sequential run against the backend.
