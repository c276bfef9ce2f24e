# Multipart upload driver

A model of the command-line S3 multipart uploader in `main.go`. The program reads a
file into a buffer and asks the service to create a multipart upload. It then cuts the
buffer into parts of at most 5 MiB and uploads them in order, numbered from 1. Each
part gets up to 10 attempts. Finally it completes the upload with the ordered list of
completed parts. If a part still fails after its last attempt, the program aborts the
upload and stops.

The project has five modules:

- `Wrappers` (`wrappers.dfy`): `Option` and `Result`.
- `S3` (`s3.dfy`): the request records, the `Call` trace entries and an `Oracle` that
  fixes every reply. It also has the class `Service`, whose four methods answer from
  the oracle, count the UploadPart requests served (`partCalls`) and record every
  request in a ghost `trace`. The SDK client is modelled by this class.
- `Planner` (`planner.dfy`): the part plan that the loop walks through.
  - `PartLength` is `min(remaining, maxPartSize)`.
  - `PlanFrom` and `Plan` give the list of `(number, start, length)` ranges that the
    loop at main.go:100-122 walks through.
  - The lemmas prove the list's shape.
- `PartUploader` (`uploader.dfy`): `uploadPart` and `valueOr`.
  - The function `Retry` (with `RetryFrom`) is the specification of the retry loop
    at main.go:152-183.
  - The imperative `UploadPart` keeps the `tryNum` loop and is proved against `Retry`.
- `Orchestrator` (`orchestrator.dfy`): the upload section of `main`.
  - `UploadFrom` specifies the part loop (main.go:100-122), and `Run` specifies the
    whole upload (main.go:93-128).
  - The imperative `UploadParts` (the `curr`/`remaining`/`partNumber` loop) and
    `Upload` (create, parts, then complete or abort) are proved against them.
  - The `Run…` lemmas state what the request trace looks like in each way the upload
    can end.

Part size and retry count are parameters of the specification functions. The methods
use the program's constants: `MaxPartSize` is 5 MiB and `MaxRetries` is 10.

In two places the model follows the code rather than what a reader might expect:

- A missing ETag is passed through unchanged into the `CompletedPart`. `valueOr` only
  feeds the log line, so it is modelled on its own (`RetryOutcome` states that the tag
  is the reply's, absent or not).
- A zero-byte file uploads no part and still completes the upload with an empty list
  (`RunEmptyFile`). The code does not reject this input.

## Model

| member | source | states |
|---|---|---|
| PartUploader.ValueOr | main.go:145-150 | the result is `d` when the pointer is absent, and the pointed-to value when it is present |
| Planner.PartLength | main.go:105-109 | a part is never longer than what remains or than the maximum part size, and it is one of the two |
| Planner.PlanNumbers | main.go:103-120 | part numbers start at the first number and go up by one per part |
| Planner.PlanLengths | main.go:104-109 | every part is non-empty and at most the maximum size, and every part but the last is exactly the maximum size |
| Planner.PlanContiguous | main.go:100-122 | each part starts where the previous one ends; the first starts at `curr` and the last ends at `curr + remaining`; no part is planned exactly when nothing remains |
| Planner.PlanDisjoint | main.go:100-122 | the parts lie inside the remaining span and no two overlap |
| Planner.PlanFits | main.go:110 | every slice `buffer[curr:curr+partLength]` lies inside the buffer |
| Planner.PlanReassembles | main.go:100-122 | concatenating the parts' bytes in order gives back exactly the bytes from `curr` to the end |
| Planner.PlanCount | main.go:100-122 | the number of parts is `ceil(remaining / maxPartSize)`, the least count of full-size parts that holds the bytes |
| PartUploader.RetryOutcome | main.go:152-183 | at most `maxRetries` attempts; a part means every earlier attempt failed, the last reply succeeded, and the part carries that reply's ETag as-is and the part number; an error means all `maxRetries` attempts failed and it is the last one's; with `maxRetries >= 1` exactly one of part and error is returned, so `nil, nil` is unreachable; with `maxRetries == 0` nothing is sent |
| PartUploader.RetrySucceedsAt | main.go:163-180 | when the first `k-1` attempts fail and the `k`-th succeeds, exactly `k` attempts are made and the part is returned |
| PartUploader.RetryExhausted | main.go:163-171 | when every attempt fails, exactly `maxRetries` are made, no part is returned and the error is the last attempt's |
| PartUploader.RetryRejected | main.go:163-171 | when an error is returned, exactly `maxRetries` attempts were made, every one was answered with an error, and the error returned is the last attempt's |
| PartUploader.UploadPart | main.go:152-183 | the retry loop returns the part and error that `Retry` gives, and sends that many identical UploadPart requests for the upload's bucket, key and upload id, with the part number, the slice's length and its bytes |
| S3.Service.CreateMultipartUpload | main.go:93 | the reply is the oracle's; the request is appended to the trace |
| S3.Service.UploadPart | main.go:164 | the reply is the oracle's reply for the next UploadPart request served; the request is appended to the trace and counted |
| S3.Service.CompleteMultipartUpload | main.go:142 | the reply is the oracle's; the request is appended to the trace |
| S3.Service.AbortMultipartUpload | main.go:192 | the error is the oracle's; the request is appended to the trace |
| Orchestrator.CompleteMultipartUpload | main.go:133-143 | sends one complete request with the session's bucket, key and upload id and the given parts, and returns the reply |
| Orchestrator.AbortMultipartUpload | main.go:185-194 | sends one abort request with the session's bucket, key and upload id, and returns its error |
| Orchestrator.UploadFromServed | main.go:110 | the loop consumes exactly one UploadPart reply per request it sends |
| Orchestrator.UploadFromOnlyUploads | main.go:104-122 | the loop sends only UploadPart requests, all for the session's bucket, key and upload id |
| Orchestrator.UploadFromBound | main.go:104-122 | the total number of requests the loop sends is at most `maxRetries` times the number of planned parts |
| Orchestrator.UploadFromPerPart | main.go:104-122 | no part number gets more than `maxRetries` UploadPart requests: each part is tried by one call of `uploadPart` (main.go:163-181) and the loop then moves on to the next number |
| Orchestrator.UploadFromInOrder | main.go:103-122 | the loop uploads the parts in sequence: every request is for the first part number or a later one, and part numbers never decrease from one request to the next |
| Orchestrator.UploadFromDelivers | main.go:110-121 | when no part fails, every planned part was uploaded: the `j`-th completed part carries the `j`-th planned part's number and the ETag of the reply that accepted a request with exactly that part's number, length and bytes (the record built at main.go:176-179) |
| Orchestrator.UploadFromPlanned | main.go:104-122 | every request uploads a planned part: its part number, its length and exactly its bytes |
| Orchestrator.UploadFromCompleted | main.go:119-121 | when no part fails, there is one completed part per planned part, numbered from the first part number in order |
| Orchestrator.UploadFromFailed | main.go:110-118 | when a part fails, it is one of the planned parts and no request is sent for a later part |
| Orchestrator.UploadFromExhausted | main.go:110-118 | when a part fails, the loop's last `maxRetries` requests are all for the failed part and were all answered with an error, and the reported error is the last reply's (the retry loop at main.go:163-171) |
| Orchestrator.UploadParts | main.go:100-122 | the loop sends the requests of `UploadFrom` and returns its completed parts or the failed part and its error |
| Orchestrator.Upload | main.go:93-128 | the upload sends the requests of `Run` and ends as `Run` says |
| Orchestrator.RunInitFailed | main.go:93-97 | the upload ends with the create error exactly when creating fails, and then the create request is the only one sent |
| Orchestrator.RunPartFailed | main.go:110-118 | after a part failure the upload was created once; the last request is the single abort, with the session's bucket, key and upload id; nothing is completed; no part after the failed one is sent; the failed part is a planned one; the abort's own error is reported |
| Orchestrator.RunPartFailedExhausted | main.go:110-118 | after a part failure the upload sent exactly `maxRetries` requests for the failed part; they are the last ones before the abort, all were answered with an error, and the reported error is the last of them |
| Orchestrator.RunCompleted | main.go:119-128 | with no part failure the last request is the single complete, with the session's bucket, key and upload id and `ceil(size / maxPartSize)` parts numbered 1, 2, ... in order; the upload was created once; nothing is aborted, even when completing fails; the upload reports a complete failure exactly when the complete reply is an error |
| Orchestrator.RunCompletedDelivers | main.go:110-124 | with no part failure the requests between create and complete upload every planned part in order of part number, and the parts sent to complete are the planned parts in order, each with the ETag the service returned when it accepted that part's bytes |
| Orchestrator.RunEmptyFile | main.go:100-124 | a zero-byte buffer sends only the create request and a complete request with an empty part list |
| Orchestrator.RunCallCount | main.go:93-128 | the upload sends at most `2 + maxRetries * ceil(size / maxPartSize)` requests |

## Left out

- Flag and environment parsing, the required-field check, credentials, and building the session and client: this is configuration plumbing and calls into the AWS SDK.
- Opening, statting and reading the file: the file is the given byte sequence `buffer`, so a short read is not modelled.
- Content-type detection and building the object key from the file name: `Upload` takes the key and content type as parameters.
- All `fmt.Print*` logging and the process exit status: this is observational output. `valueOr`, which only feeds a log line, is modelled on its own.
- What the service does with the parts, whether ETags are valid, and server-side idempotence. The service is an oracle. It gives one fixed reply to create, complete and abort, and the n-th UploadPart request it serves gets the n-th part reply.
- PartUploader.UploadPart: each attempt is modelled as sending the whole slice. The source builds one request with a single `bytes.Reader` body and sends that same request, reader included, on every attempt. A retry sends the full slice again only if the SDK rewinds the reader, and the SDK is not part of this model.
- Nil pointers in SDK replies: a session always has its bucket, key and upload id.
- The distinction between `awserr.Error` and other errors in `uploadPart`: both branches return the same error value, so the model has a single error type.
- int64 arithmetic: sizes and part numbers are unbounded naturals. At a 5 MiB part size the program stays far from the int64 limit.
- Inlining of the part loop: the loop is a method of its own (`Orchestrator.UploadParts`) called by `Upload`, rather than inline code. The requests it sends and the values it produces are the same.
