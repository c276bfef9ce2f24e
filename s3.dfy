/** The object-storage service as the upload driver sees it: the request records it
    sends, the replies it gets back, and a service object that answers from a fixed
    oracle and remembers every request in a ghost trace. */
module S3 {
  import opened Wrappers

  newtype byte = x: int | 0 <= x < 256

  /** An error returned by the service (the SDK's `awserr.Error` or any other error). */
  datatype Error = Error(message: string)

  /** The reply to CreateMultipartUpload: the bucket, the key and the upload id the
      service issued. Every later request of the same upload copies these three. */
  datatype Session = Session(bucket: string, key: string, uploadId: string)

  /** The record of one stored part that CompleteMultipartUpload receives. The ETag is
      whatever UploadPart returned, possibly absent. */
  datatype CompletedPart = CompletedPart(etag: Option<string>, partNumber: nat)

  datatype CreateInput = CreateInput(bucket: string, key: string, contentType: string)

  datatype UploadPartInput = UploadPartInput(
    bucket: string, key: string, uploadId: string,
    partNumber: nat, contentLength: nat, body: seq<byte>)

  datatype CompleteInput = CompleteInput(
    bucket: string, key: string, uploadId: string, parts: seq<CompletedPart>)

  datatype AbortInput = AbortInput(bucket: string, key: string, uploadId: string)

  /** One request sent to the service. */
  datatype Call =
    | CreateMultipartUpload(createIn: CreateInput)
    | UploadPart(partIn: UploadPartInput)
    | CompleteMultipartUpload(completeIn: CompleteInput)
    | AbortMultipartUpload(abortIn: AbortInput)

  /** The kind of a request, which is what the request counts below are about. */
  datatype Kind = CreateKind | UploadKind | CompleteKind | AbortKind

  function KindOf(c: Call): Kind
  {
    match c
    case CreateMultipartUpload(_) => CreateKind
    case UploadPart(_) => UploadKind
    case CompleteMultipartUpload(_) => CompleteKind
    case AbortMultipartUpload(_) => AbortKind
  }

  /** How the service answers. Creating, completing and aborting always get the same
      reply; the n-th UploadPart request the service serves (counting from 0) gets
      `part(n)`, either an ETag (possibly absent) or an error. */
  datatype Oracle = Oracle(
    create: Result<Session, Error>,
    part: nat -> Result<Option<string>, Error>,
    complete: Result<string, Error>,
    abort: Option<Error>)

  /** The number of requests of kind `k` in `calls`. */
  function Count(calls: seq<Call>, k: Kind): (n: nat)
    ensures n <= |calls|
  {
    if calls == [] then 0
    else Count(calls[..|calls| - 1], k) + (if KindOf(calls[|calls| - 1]) == k then 1 else 0)
  }

  lemma {:induction false} CountAppend(a: seq<Call>, b: seq<Call>, k: Kind)
    ensures Count(a + b, k) == Count(a, k) + Count(b, k)
    decreases |b|
  {
    if b == [] {
      assert a + b == a;
    } else {
      assert (a + b)[..|a + b| - 1] == a + b[..|b| - 1];
      assert (a + b)[|a + b| - 1] == b[|b| - 1];
      CountAppend(a, b[..|b| - 1], k);
    }
  }

  lemma {:induction false} CountNone(calls: seq<Call>, k: Kind)
    requires forall i :: 0 <= i < |calls| ==> KindOf(calls[i]) != k
    ensures Count(calls, k) == 0
    decreases |calls|
  {
    if calls != [] {
      CountNone(calls[..|calls| - 1], k);
    }
  }

  class Service {
    const oracle: Oracle
    /** How many UploadPart requests have been answered: the index of the next reply. */
    var partCalls: nat
    /** Every request received, in order. */
    ghost var trace: seq<Call>

    ghost predicate Valid()
      reads this
    {
      partCalls == Count(trace, UploadKind)
    }

    constructor (oracle: Oracle)
      ensures Valid() && this.oracle == oracle
      ensures trace == [] && partCalls == 0
    {
      this.oracle := oracle;
      partCalls := 0;
      trace := [];
    }

    method CreateMultipartUpload(input: CreateInput) returns (r: Result<Session, Error>)
      requires Valid()
      modifies this
      ensures Valid() && partCalls == old(partCalls)
      ensures trace == old(trace) + [Call.CreateMultipartUpload(input)]
      ensures r == oracle.create
    {
      r := oracle.create;
      trace := trace + [Call.CreateMultipartUpload(input)];
    }

    method UploadPart(input: UploadPartInput) returns (r: Result<Option<string>, Error>)
      requires Valid()
      modifies this
      ensures Valid() && partCalls == old(partCalls) + 1
      ensures trace == old(trace) + [Call.UploadPart(input)]
      ensures r == oracle.part(old(partCalls))
    {
      r := oracle.part(partCalls);
      partCalls := partCalls + 1;
      trace := trace + [Call.UploadPart(input)];
    }

    method CompleteMultipartUpload(input: CompleteInput) returns (r: Result<string, Error>)
      requires Valid()
      modifies this
      ensures Valid() && partCalls == old(partCalls)
      ensures trace == old(trace) + [Call.CompleteMultipartUpload(input)]
      ensures r == oracle.complete
    {
      r := oracle.complete;
      trace := trace + [Call.CompleteMultipartUpload(input)];
    }

    method AbortMultipartUpload(input: AbortInput) returns (err: Option<Error>)
      requires Valid()
      modifies this
      ensures Valid() && partCalls == old(partCalls)
      ensures trace == old(trace) + [Call.AbortMultipartUpload(input)]
      ensures err == oracle.abort
    {
      err := oracle.abort;
      trace := trace + [Call.AbortMultipartUpload(input)];
    }
  }
}
