/** `uploadPart`: send one part to the service, retrying the same request after every
    error until it succeeds or `maxRetries` attempts have been made. */
module PartUploader {
  import opened Wrappers
  import opened S3

  /** How many times one part is tried before the upload gives up. */
  const MaxRetries: nat := 10

  /** `valueOr`: the pointed-to value, or `d` when the pointer is nil. */
  function ValueOr<A>(a: Option<A>, d: A): (r: A)
    ensures a.None? ==> r == d
    ensures a.Some? ==> r == a.value
  {
    match a
    case None => d
    case Some(v) => v
  }

  /** The request `uploadPart` sends for part `partNumber` of the upload `session`. */
  function PartInput(session: Session, partNumber: nat, body: seq<byte>): UploadPartInput
  {
    UploadPartInput(session.bucket, session.key, session.uploadId, partNumber, |body|, body)
  }

  /** What one call of `uploadPart` amounts to: how many UploadPart requests it sent, and
      the completed part or the error it returned (both absent is Go's `nil, nil`). */
  datatype PartOutcome = PartOutcome(attempts: nat, part: Option<CompletedPart>, err: Option<Error>)

  /** The retry loop from attempt `tryNum` on, when attempt `t` is answered by
      `reply(first + t - 1)`. */
  function RetryFrom(reply: nat -> Result<Option<string>, Error>, first: nat, partNumber: nat,
                     maxRetries: nat, tryNum: nat): PartOutcome
    requires tryNum >= 1
    decreases maxRetries - tryNum
  {
    if tryNum > maxRetries then PartOutcome(tryNum - 1, None, None)
    else match reply(first + tryNum - 1)
      case Failure(e) =>
        if tryNum == maxRetries then PartOutcome(tryNum, None, Some(e))
        else RetryFrom(reply, first, partNumber, maxRetries, tryNum + 1)
      case Success(etag) =>
        PartOutcome(tryNum, Some(CompletedPart(etag, partNumber)), None)
  }

  /** One call of `uploadPart` whose first attempt is answered by `reply(first)`. */
  function Retry(reply: nat -> Result<Option<string>, Error>, first: nat, partNumber: nat,
                 maxRetries: nat): PartOutcome
  {
    RetryFrom(reply, first, partNumber, maxRetries, 1)
  }

  /** What the retry loop does from attempt `tryNum` on, stated without the loop. */
  lemma {:induction false} RetryFromShape(reply: nat -> Result<Option<string>, Error>, first: nat,
                                          partNumber: nat, maxRetries: nat, tryNum: nat)
    requires 1 <= tryNum <= maxRetries + 1
    ensures tryNum - 1 <= RetryFrom(reply, first, partNumber, maxRetries, tryNum).attempts <= maxRetries
    ensures forall j :: first + tryNum - 1 <= j < first + RetryFrom(reply, first, partNumber, maxRetries, tryNum).attempts - 1 ==>
      reply(j).Failure?
    ensures var o := RetryFrom(reply, first, partNumber, maxRetries, tryNum);
      (o.part.Some? ==>
         (o.err.None? && o.attempts >= tryNum &&
          reply(first + o.attempts - 1) == Success(o.part.value.etag) &&
          o.part.value.partNumber == partNumber)) &&
      (o.err.Some? ==>
         (o.part.None? && o.attempts == maxRetries &&
          reply(first + maxRetries - 1) == Failure(o.err.value))) &&
      (o.part.None? && o.err.None? ==> tryNum == maxRetries + 1 && o.attempts == maxRetries)
    decreases maxRetries - tryNum
  {
    if tryNum <= maxRetries && reply(first + tryNum - 1).Failure? && tryNum < maxRetries {
      RetryFromShape(reply, first, partNumber, maxRetries, tryNum + 1);
    }
  }

  /** `uploadPart` never sends more than `maxRetries` requests. When it returns a part,
      every earlier attempt failed and the last one succeeded, and the part carries the
      ETag of that reply as it was, absent or not, with the part's own number. When it
      returns an error, all `maxRetries` attempts failed and the error is the last
      one's. With `maxRetries >= 1` it returns exactly one of the two, so the trailing
      `nil, nil` return cannot happen; with `maxRetries == 0` it sends nothing and
      returns neither. */
  lemma RetryOutcome(reply: nat -> Result<Option<string>, Error>, first: nat, partNumber: nat,
                     maxRetries: nat)
    ensures Retry(reply, first, partNumber, maxRetries).attempts <= maxRetries
    ensures forall j :: first <= j < first + Retry(reply, first, partNumber, maxRetries).attempts - 1 ==>
      reply(j).Failure?
    ensures var o := Retry(reply, first, partNumber, maxRetries);
      (o.part.Some? ==>
         (o.attempts >= 1 &&
          reply(first + o.attempts - 1) == Success(o.part.value.etag) &&
          o.part.value.partNumber == partNumber)) &&
      (o.err.Some? ==>
         (o.attempts == maxRetries &&
          reply(first + maxRetries - 1) == Failure(o.err.value))) &&
      (maxRetries >= 1 <==> (o.part.Some? != o.err.Some?)) &&
      (maxRetries == 0 ==> o == PartOutcome(0, None, None))
  {
    RetryFromShape(reply, first, partNumber, maxRetries, 1);
  }

  /** With at least one attempt allowed, `uploadPart` returns a part or an error. */
  lemma RetryAnswers(reply: nat -> Result<Option<string>, Error>, first: nat, partNumber: nat,
                     maxRetries: nat)
    requires maxRetries >= 1
    ensures Retry(reply, first, partNumber, maxRetries).attempts <= maxRetries
    ensures Retry(reply, first, partNumber, maxRetries).err.None? ==>
      Retry(reply, first, partNumber, maxRetries).part.Some? &&
      Retry(reply, first, partNumber, maxRetries).part.value.partNumber == partNumber
  {
    RetryOutcome(reply, first, partNumber, maxRetries);
  }

  /** When `uploadPart` returns no error, its last attempt was accepted and the part
      carries that reply's ETag. */
  lemma RetryAccepted(reply: nat -> Result<Option<string>, Error>, first: nat, partNumber: nat,
                      maxRetries: nat)
    requires maxRetries >= 1 && Retry(reply, first, partNumber, maxRetries).err.None?
    ensures var o := Retry(reply, first, partNumber, maxRetries);
      o.part.Some? && o.part.value.partNumber == partNumber &&
      1 <= o.attempts && reply(first + o.attempts - 1) == Success(o.part.value.etag)
  {
    RetryOutcome(reply, first, partNumber, maxRetries);
  }

  /** When `uploadPart` returns an error, every one of its `maxRetries` attempts was
      answered with an error and the error returned is the last one. */
  lemma RetryRejected(reply: nat -> Result<Option<string>, Error>, first: nat, partNumber: nat,
                      maxRetries: nat)
    requires Retry(reply, first, partNumber, maxRetries).err.Some?
    ensures var o := Retry(reply, first, partNumber, maxRetries);
      o.attempts == maxRetries >= 1 &&
      (forall j :: first <= j < first + maxRetries ==> reply(j).Failure?) &&
      reply(first + maxRetries - 1) == Failure(o.err.value)
  {
    RetryOutcome(reply, first, partNumber, maxRetries);
  }

  lemma {:induction false} RetryFromSucceedsAt(reply: nat -> Result<Option<string>, Error>, first: nat,
                                               partNumber: nat, maxRetries: nat, tryNum: nat, k: nat)
    requires 1 <= tryNum <= k <= maxRetries
    requires forall j :: first + tryNum - 1 <= j < first + k - 1 ==> reply(j).Failure?
    requires reply(first + k - 1).Success?
    ensures RetryFrom(reply, first, partNumber, maxRetries, tryNum) ==
      PartOutcome(k, Some(CompletedPart(reply(first + k - 1).value, partNumber)), None)
    decreases k - tryNum
  {
    if tryNum < k {
      assert reply(first + tryNum - 1).Failure?;
      RetryFromSucceedsAt(reply, first, partNumber, maxRetries, tryNum + 1, k);
    }
  }

  /** When the first `k - 1` attempts fail and the `k`-th succeeds (`1 <= k <=
      maxRetries`), `uploadPart` makes exactly `k` attempts and returns the part. */
  lemma RetrySucceedsAt(reply: nat -> Result<Option<string>, Error>, first: nat, partNumber: nat,
                        maxRetries: nat, k: nat)
    requires 1 <= k <= maxRetries
    requires forall j :: first <= j < first + k - 1 ==> reply(j).Failure?
    requires reply(first + k - 1).Success?
    ensures Retry(reply, first, partNumber, maxRetries) ==
      PartOutcome(k, Some(CompletedPart(reply(first + k - 1).value, partNumber)), None)
  {
    RetryFromSucceedsAt(reply, first, partNumber, maxRetries, 1, k);
  }

  lemma {:induction false} RetryFromExhausted(reply: nat -> Result<Option<string>, Error>, first: nat,
                                              partNumber: nat, maxRetries: nat, tryNum: nat)
    requires 1 <= tryNum <= maxRetries
    requires forall j :: first + tryNum - 1 <= j < first + maxRetries ==> reply(j).Failure?
    ensures RetryFrom(reply, first, partNumber, maxRetries, tryNum) ==
      PartOutcome(maxRetries, None, Some(reply(first + maxRetries - 1).error))
    decreases maxRetries - tryNum
  {
    assert reply(first + tryNum - 1).Failure?;
    if tryNum < maxRetries {
      RetryFromExhausted(reply, first, partNumber, maxRetries, tryNum + 1);
    }
  }

  /** When all `maxRetries` attempts fail, `uploadPart` makes exactly `maxRetries`
      attempts and returns no part and the last attempt's error. */
  lemma RetryExhausted(reply: nat -> Result<Option<string>, Error>, first: nat, partNumber: nat,
                       maxRetries: nat)
    requires maxRetries >= 1
    requires forall j :: first <= j < first + maxRetries ==> reply(j).Failure?
    ensures Retry(reply, first, partNumber, maxRetries) ==
      PartOutcome(maxRetries, None, Some(reply(first + maxRetries - 1).error))
  {
    RetryFromExhausted(reply, first, partNumber, maxRetries, 1);
  }

  /** `n` copies of `c`. */
  function Repeat(c: Call, n: nat): (s: seq<Call>)
    ensures |s| == n && forall i :: 0 <= i < n ==> s[i] == c
  {
    seq(n, _ => c)
  }

  /** `uploadPart(svc, resp, fileBytes, partNumber)`: sends the same UploadPart request
      until one succeeds or `maxRetries` have failed. */
  method UploadPart(svc: Service, session: Session, body: seq<byte>, partNumber: nat, maxRetries: nat)
    returns (part: Option<CompletedPart>, err: Option<Error>)
    requires svc.Valid()
    modifies svc
    ensures svc.Valid()
    ensures var o := Retry(svc.oracle.part, old(svc.partCalls), partNumber, maxRetries);
      part == o.part && err == o.err &&
      svc.partCalls == old(svc.partCalls) + o.attempts &&
      svc.trace == old(svc.trace) + Repeat(Call.UploadPart(PartInput(session, partNumber, body)), o.attempts)
  {
    var tryNum := 1;
    ghost var call := Call.UploadPart(PartInput(session, partNumber, body));
    ghost var first := svc.partCalls;
    while tryNum <= maxRetries
      invariant 1 <= tryNum <= maxRetries + 1
      invariant svc.Valid()
      invariant svc.partCalls == first + tryNum - 1
      invariant svc.trace == old(svc.trace) + Repeat(call, tryNum - 1)
      invariant Retry(svc.oracle.part, first, partNumber, maxRetries) ==
        RetryFrom(svc.oracle.part, first, partNumber, maxRetries, tryNum)
      decreases maxRetries + 1 - tryNum
    {
      var uploadResult := svc.UploadPart(PartInput(session, partNumber, body));
      match uploadResult
      case Failure(e) =>
        if tryNum == maxRetries {
          return None, Some(e);
        }
        tryNum := tryNum + 1;
      case Success(etag) =>
        return Some(CompletedPart(etag, partNumber)), None;
    }
    return None, None;
  }
}
