/** The upload section of `main`: create the multipart upload, upload the parts one
    after the other, then complete the upload with the ordered list of parts, or abort
    it as soon as one part fails. */
module Orchestrator {
  import opened Wrappers
  import opened S3
  import opened Planner
  import opened PartUploader

  /** The part that could not be uploaded and the error its last attempt got. */
  datatype PartError = PartError(partNumber: nat, err: Error)

  /** What uploading a run of parts amounts to: the requests sent, the number of
      UploadPart replies consumed so far, and the completed parts or the first error. */
  datatype PartsRun = PartsRun(calls: seq<Call>, served: nat, result: Result<seq<CompletedPart>, PartError>)

  /** How the upload ends, which is what `main` reports before it returns. */
  datatype UploadOutcome =
    | InitFailed(err: Error)
    | PartFailed(partNumber: nat, err: Error, abortErr: Option<Error>)
    | CompleteFailed(err: Error)
    | Uploaded(response: string)

  datatype RunResult = RunResult(calls: seq<Call>, outcome: UploadOutcome)

  function CompleteInputFor(session: Session, parts: seq<CompletedPart>): CompleteInput
  {
    CompleteInput(session.bucket, session.key, session.uploadId, parts)
  }

  function AbortInputFor(session: Session): AbortInput
  {
    AbortInput(session.bucket, session.key, session.uploadId)
  }

  /** `calls` followed by the run `r`, with `parts` in front of its completed parts. */
  function Prepend(calls: seq<Call>, parts: seq<CompletedPart>, r: PartsRun): PartsRun
  {
    PartsRun(calls + r.calls, r.served,
             match r.result
             case Success(ps) => Success(parts + ps)
             case Failure(e) => Failure(e))
  }

  /** The loop of `main` from the point where `curr` bytes of `buffer` are uploaded,
      `remaining` are left and the next part is `partNumber`: each turn uploads
      `PartLength(remaining, maxPart)` bytes with `uploadPart` and stops at the first
      part that fails. `reply(served)` answers the next UploadPart request. */
  function UploadFrom(buffer: seq<byte>, session: Session, curr: nat, remaining: nat, partNumber: nat,
                      maxPart: nat, reply: nat -> Result<Option<string>, Error>, served: nat,
                      maxRetries: nat): PartsRun
    requires maxPart > 0 && maxRetries >= 1 && curr + remaining <= |buffer|
    decreases remaining
  {
    if remaining == 0 then PartsRun([], served, Success([]))
    else
      var len := PartLength(remaining, maxPart);
      var o := Retry(reply, served, partNumber, maxRetries);
      var tried := Repeat(Call.UploadPart(PartInput(session, partNumber, buffer[curr..curr + len])), o.attempts);
      if o.err.Some? then
        PartsRun(tried, served + o.attempts, Failure(PartError(partNumber, o.err.value)))
      else
        RetryAnswers(reply, served, partNumber, maxRetries);
        Prepend(tried, [o.part.value],
                UploadFrom(buffer, session, curr + len, remaining - len, partNumber + 1, maxPart,
                           reply, served + o.attempts, maxRetries))
  }

  /** The whole upload of `buffer` to `key` in `bucket`, against a service that answers
      as `oracle` says and has already served `served` UploadPart requests. */
  function Run(oracle: Oracle, served: nat, bucket: string, key: string, contentType: string,
               buffer: seq<byte>, maxPart: nat, maxRetries: nat): RunResult
    requires maxPart > 0 && maxRetries >= 1
  {
    var create := Call.CreateMultipartUpload(CreateInput(bucket, key, contentType));
    match oracle.create
    case Failure(e) => RunResult([create], InitFailed(e))
    case Success(session) =>
      var parts := UploadFrom(buffer, session, 0, |buffer|, 1, maxPart, oracle.part, served, maxRetries);
      match parts.result
      case Failure(pe) =>
        RunResult([create] + parts.calls + [Call.AbortMultipartUpload(AbortInputFor(session))],
                  PartFailed(pe.partNumber, pe.err, oracle.abort))
      case Success(completed) =>
        RunResult([create] + parts.calls + [Call.CompleteMultipartUpload(CompleteInputFor(session, completed))],
                  match oracle.complete
                  case Failure(e) => CompleteFailed(e)
                  case Success(response) => Uploaded(response))
  }

  lemma PrependNothing(r: PartsRun)
    ensures r == Prepend([], [], r)
  {
    assert [] + r.calls == r.calls;
    if r.result.Success? {
      assert [] + r.result.value == r.result.value;
    }
  }

  /** Every request is an UploadPart request of the upload `session`. */
  predicate OnlyUploads(calls: seq<Call>, session: Session)
  {
    forall i :: 0 <= i < |calls| ==>
      calls[i].UploadPart? && calls[i].partIn.bucket == session.bucket &&
      calls[i].partIn.key == session.key && calls[i].partIn.uploadId == session.uploadId
  }

  /** No UploadPart request is for a part after part `n`. */
  predicate UploadsUpTo(calls: seq<Call>, n: nat)
  {
    forall i :: 0 <= i < |calls| && calls[i].UploadPart? ==> calls[i].partIn.partNumber <= n
  }

  /** The completed parts are numbered `number`, `number + 1`, ... in this order. */
  predicate NumberedFrom(parts: seq<CompletedPart>, number: nat)
  {
    forall i :: 0 <= i < |parts| ==> parts[i].partNumber == number + i
  }

  lemma PrependPrepend(a: seq<Call>, p: seq<CompletedPart>, b: seq<Call>, q: seq<CompletedPart>, r: PartsRun)
    ensures Prepend(a, p, Prepend(b, q, r)) == Prepend(a + b, p + q, r)
  {
    assert a + (b + r.calls) == a + b + r.calls;
    if r.result.Success? {
      assert p + (q + r.result.value) == p + q + r.result.value;
    }
  }

  /** Every request uploads one of the planned parts: it carries that part's number
      and exactly that part's bytes. */
  predicate UploadsPlanned(calls: seq<Call>, buffer: seq<byte>, plan: seq<PartRange>)
  {
    forall i :: 0 <= i < |calls| ==> InPlan(calls[i], buffer, plan)
  }

  /** `c` uploads one of the planned parts. */
  predicate InPlan(c: Call, buffer: seq<byte>, plan: seq<PartRange>)
  {
    exists j :: 0 <= j < |plan| && Planned(c, buffer, plan, j)
  }

  /** `c` uploads the planned part `plan[j]`: its number, its length and its bytes. */
  predicate Planned(c: Call, buffer: seq<byte>, plan: seq<PartRange>, j: nat)
    requires j < |plan|
  {
    plan[j].start + plan[j].length <= |buffer| &&
    c.UploadPart? && c.partIn.partNumber == plan[j].number &&
    c.partIn.contentLength == plan[j].length &&
    c.partIn.body == buffer[plan[j].start..plan[j].start + plan[j].length]
  }

  /** The loop consumes exactly one reply per request it sends. */
  lemma {:induction false} UploadFromServed(buffer: seq<byte>, session: Session, curr: nat, remaining: nat,
      partNumber: nat, maxPart: nat, reply: nat -> Result<Option<string>, Error>, served: nat, maxRetries: nat)
    requires maxPart > 0 && maxRetries >= 1 && curr + remaining <= |buffer|
    ensures UploadFrom(buffer, session, curr, remaining, partNumber, maxPart, reply, served, maxRetries).served == served + |UploadFrom(buffer, session, curr, remaining, partNumber, maxPart, reply, served, maxRetries).calls|
    decreases remaining
  {
    if remaining != 0 {
      var len := PartLength(remaining, maxPart);
      var o := Retry(reply, served, partNumber, maxRetries);
      RetryAnswers(reply, served, partNumber, maxRetries);
      if o.err.None? {
        UploadFromServed(buffer, session, curr + len, remaining - len, partNumber + 1, maxPart,
                  reply, served + o.attempts, maxRetries);
      }
    }
  }

  /** The loop sends only UploadPart requests, all for the upload `session`. */
  lemma {:induction false} UploadFromOnlyUploads(buffer: seq<byte>, session: Session, curr: nat, remaining: nat,
      partNumber: nat, maxPart: nat, reply: nat -> Result<Option<string>, Error>, served: nat, maxRetries: nat)
    requires maxPart > 0 && maxRetries >= 1 && curr + remaining <= |buffer|
    ensures OnlyUploads(UploadFrom(buffer, session, curr, remaining, partNumber, maxPart, reply, served, maxRetries).calls, session)
    decreases remaining
  {
    if remaining != 0 {
      var len := PartLength(remaining, maxPart);
      var o := Retry(reply, served, partNumber, maxRetries);
      RetryAnswers(reply, served, partNumber, maxRetries);
      if o.err.None? {
        UploadFromOnlyUploads(buffer, session, curr + len, remaining - len, partNumber + 1, maxPart,
                  reply, served + o.attempts, maxRetries);
      }
    }
  }

  /** In total, the loop sends at most `maxRetries` requests per planned part. */
  lemma {:induction false} UploadFromBound(buffer: seq<byte>, session: Session, curr: nat, remaining: nat,
      partNumber: nat, maxPart: nat, reply: nat -> Result<Option<string>, Error>, served: nat, maxRetries: nat)
    requires maxPart > 0 && maxRetries >= 1 && curr + remaining <= |buffer|
    ensures |UploadFrom(buffer, session, curr, remaining, partNumber, maxPart, reply, served, maxRetries).calls| <= maxRetries * |PlanFrom(curr, remaining, partNumber, maxPart)|
    decreases remaining
  {
    if remaining != 0 {
      var len := PartLength(remaining, maxPart);
      var o := Retry(reply, served, partNumber, maxRetries);
      RetryAnswers(reply, served, partNumber, maxRetries);
      var restPlan := PlanFrom(curr + len, remaining - len, partNumber + 1, maxPart);
      assert |PlanFrom(curr, remaining, partNumber, maxPart)| == 1 + |restPlan|;
      if o.err.None? {
        UploadFromBound(buffer, session, curr + len, remaining - len, partNumber + 1, maxPart,
                  reply, served + o.attempts, maxRetries);
        assert maxRetries * (1 + |restPlan|) == maxRetries + maxRetries * |restPlan|;
      } else {
        assert maxRetries <= maxRetries * (1 + |restPlan|);
      }
    }
  }

  /** Every request the loop sends uploads one of the planned parts, with that part's
      number, length and bytes. */
  lemma {:induction false} UploadFromPlanned(buffer: seq<byte>, session: Session, curr: nat, remaining: nat,
      partNumber: nat, maxPart: nat, reply: nat -> Result<Option<string>, Error>, served: nat, maxRetries: nat)
    requires maxPart > 0 && maxRetries >= 1 && curr + remaining <= |buffer|
    ensures UploadsPlanned(UploadFrom(buffer, session, curr, remaining, partNumber, maxPart, reply, served, maxRetries).calls, buffer, PlanFrom(curr, remaining, partNumber, maxPart))
    decreases remaining
  {
    if remaining != 0 {
      var len := PartLength(remaining, maxPart);
      var o := Retry(reply, served, partNumber, maxRetries);
      RetryAnswers(reply, served, partNumber, maxRetries);
      var call := Call.UploadPart(PartInput(session, partNumber, buffer[curr..curr + len]));
      var plan := PlanFrom(curr, remaining, partNumber, maxPart);
      var restPlan := PlanFrom(curr + len, remaining - len, partNumber + 1, maxPart);
      var calls := UploadFrom(buffer, session, curr, remaining, partNumber, maxPart, reply, served, maxRetries).calls;
      var tried := Repeat(call, o.attempts);
      assert plan == [PartRange(partNumber, curr, len)] + restPlan;
      assert Planned(call, buffer, plan, 0);
      if o.err.None? {
        var rest := UploadFrom(buffer, session, curr + len, remaining - len, partNumber + 1, maxPart,
                               reply, served + o.attempts, maxRetries);
        UploadFromPlanned(buffer, session, curr + len, remaining - len, partNumber + 1, maxPart,
                          reply, served + o.attempts, maxRetries);
        InPlanLater(rest.calls, buffer, PartRange(partNumber, curr, len), restPlan);
        assert calls == tried + rest.calls;
      } else {
        assert calls == tried;
      }
    }
  }

  /** What uploads a part of `rest` uploads a part of `[first] + rest`. */
  lemma InPlanLater(calls: seq<Call>, buffer: seq<byte>, first: PartRange, rest: seq<PartRange>)
    requires UploadsPlanned(calls, buffer, rest)
    ensures UploadsPlanned(calls, buffer, [first] + rest)
  {
    var plan := [first] + rest;
    forall i | 0 <= i < |calls|
      ensures InPlan(calls[i], buffer, plan)
    {
      var j :| 0 <= j < |rest| && Planned(calls[i], buffer, rest, j);
      assert plan[j + 1] == rest[j];
      assert Planned(calls[i], buffer, plan, j + 1);
    }
  }

  /** A successful loop returns one completed part per planned part, numbered from
      `partNumber` in order. */
  lemma {:induction false} UploadFromCompleted(buffer: seq<byte>, session: Session, curr: nat, remaining: nat,
      partNumber: nat, maxPart: nat, reply: nat -> Result<Option<string>, Error>, served: nat, maxRetries: nat)
    requires maxPart > 0 && maxRetries >= 1 && curr + remaining <= |buffer|
    ensures UploadFrom(buffer, session, curr, remaining, partNumber, maxPart, reply, served, maxRetries).result.Success? ==>
      |UploadFrom(buffer, session, curr, remaining, partNumber, maxPart, reply, served, maxRetries).result.value| == |PlanFrom(curr, remaining, partNumber, maxPart)| && NumberedFrom(UploadFrom(buffer, session, curr, remaining, partNumber, maxPart, reply, served, maxRetries).result.value, partNumber)
    decreases remaining
  {
    if remaining != 0 {
      var len := PartLength(remaining, maxPart);
      var o := Retry(reply, served, partNumber, maxRetries);
      RetryAnswers(reply, served, partNumber, maxRetries);
      if o.err.None? {
        var rest := UploadFrom(buffer, session, curr + len, remaining - len, partNumber + 1, maxPart,
                  reply, served + o.attempts, maxRetries);
        UploadFromCompleted(buffer, session, curr + len, remaining - len, partNumber + 1, maxPart,
                  reply, served + o.attempts, maxRetries);
        if rest.result.Success? {
          var ps := [o.part.value] + rest.result.value;
          assert forall i :: 1 <= i < |ps| ==> ps[i] == rest.result.value[i - 1];
        }
      }
    }
  }

  /** A failed loop names one of the planned parts, and sent no request for a later
      part. */
  lemma {:induction false} UploadFromFailed(buffer: seq<byte>, session: Session, curr: nat, remaining: nat,
      partNumber: nat, maxPart: nat, reply: nat -> Result<Option<string>, Error>, served: nat, maxRetries: nat)
    requires maxPart > 0 && maxRetries >= 1 && curr + remaining <= |buffer|
    ensures UploadFrom(buffer, session, curr, remaining, partNumber, maxPart, reply, served, maxRetries).result.Failure? ==>
      partNumber <= UploadFrom(buffer, session, curr, remaining, partNumber, maxPart, reply, served, maxRetries).result.error.partNumber < partNumber + |PlanFrom(curr, remaining, partNumber, maxPart)| &&
      UploadsUpTo(UploadFrom(buffer, session, curr, remaining, partNumber, maxPart, reply, served, maxRetries).calls, UploadFrom(buffer, session, curr, remaining, partNumber, maxPart, reply, served, maxRetries).result.error.partNumber)
    decreases remaining
  {
    if remaining != 0 {
      var len := PartLength(remaining, maxPart);
      var o := Retry(reply, served, partNumber, maxRetries);
      RetryAnswers(reply, served, partNumber, maxRetries);
      var tried := Repeat(Call.UploadPart(PartInput(session, partNumber, buffer[curr..curr + len])), o.attempts);
      if o.err.None? {
        var rest := UploadFrom(buffer, session, curr + len, remaining - len, partNumber + 1, maxPart,
                  reply, served + o.attempts, maxRetries);
        UploadFromFailed(buffer, session, curr + len, remaining - len, partNumber + 1, maxPart,
                  reply, served + o.attempts, maxRetries);
        var all := tried + rest.calls;
        assert forall i :: |tried| <= i < |all| ==> all[i] == rest.calls[i - |tried|];
      }
    }
  }

  /** Among `calls`, whose first request is answered by `reply(served)`, one uploads
      the planned part `plan[j]` and is answered with the ETag `etag`. */
  predicate Delivered(calls: seq<Call>, buffer: seq<byte>, plan: seq<PartRange>, j: nat,
                      reply: nat -> Result<Option<string>, Error>, served: nat, etag: Option<string>)
    requires j < |plan|
  {
    exists i :: 0 <= i < |calls| && Planned(calls[i], buffer, plan, j) && reply(served + i) == Success(etag)
  }

  /** There is one completed part per planned part, in order: the `j`-th carries the
      `j`-th planned part's number and the ETag of the reply that accepted an upload of
      exactly that part's bytes. */
  predicate AllDelivered(calls: seq<Call>, parts: seq<CompletedPart>, buffer: seq<byte>, plan: seq<PartRange>,
                         reply: nat -> Result<Option<string>, Error>, served: nat)
  {
    |parts| == |plan| &&
    forall j :: 0 <= j < |plan| ==>
      parts[j].partNumber == plan[j].number && Delivered(calls, buffer, plan, j, reply, served, parts[j].etag)
  }

  /** A successful loop uploaded every planned part, and each completed part carries
      the ETag that the service returned for that part. */
  lemma {:induction false} UploadFromDelivers(buffer: seq<byte>, session: Session, curr: nat, remaining: nat,
      partNumber: nat, maxPart: nat, reply: nat -> Result<Option<string>, Error>, served: nat, maxRetries: nat,
      r: PartsRun)
    requires maxPart > 0 && maxRetries >= 1 && curr + remaining <= |buffer|
    requires r == UploadFrom(buffer, session, curr, remaining, partNumber, maxPart, reply, served, maxRetries)
    requires r.result.Success?
    ensures AllDelivered(r.calls, r.result.value, buffer, PlanFrom(curr, remaining, partNumber, maxPart), reply, served)
    decreases remaining
  {
    if remaining != 0 {
      var len := PartLength(remaining, maxPart);
      var o := Retry(reply, served, partNumber, maxRetries);
      if o.err.None? {
        RetryAccepted(reply, served, partNumber, maxRetries);
        var call := Call.UploadPart(PartInput(session, partNumber, buffer[curr..curr + len]));
        var tried := Repeat(call, o.attempts);
        var first := PartRange(partNumber, curr, len);
        var restPlan := PlanFrom(curr + len, remaining - len, partNumber + 1, maxPart);
        var plan := PlanFrom(curr, remaining, partNumber, maxPart);
        assert plan == [first] + restPlan;
        var rest := UploadFrom(buffer, session, curr + len, remaining - len, partNumber + 1, maxPart,
                               reply, served + o.attempts, maxRetries);
        assert r == Prepend(tried, [o.part.value], rest);
        UploadFromDelivers(buffer, session, curr + len, remaining - len, partNumber + 1, maxPart,
                           reply, served + o.attempts, maxRetries, rest);
        DeliveredJoin(session, tried, o.attempts, rest.calls, o.part.value, rest.result.value, buffer, first, restPlan,
                      reply, served);
      }
    }
  }

  /** The part whose last request was accepted, followed by the parts a later run
      delivered, are the parts the whole run delivered. */
  lemma DeliveredJoin(session: Session, tried: seq<Call>, n: nat, calls: seq<Call>, part: CompletedPart, parts: seq<CompletedPart>,
                      buffer: seq<byte>, first: PartRange, rest: seq<PartRange>,
                      reply: nat -> Result<Option<string>, Error>, served: nat)
    requires n >= 1 && part.partNumber == first.number && first.start + first.length <= |buffer|
    requires tried == Repeat(Call.UploadPart(PartInput(session, first.number,
                                                       buffer[first.start..first.start + first.length])), n)
    requires reply(served + n - 1) == Success(part.etag)
    requires AllDelivered(calls, parts, buffer, rest, reply, served + n)
    ensures AllDelivered(tried + calls, [part] + parts, buffer, [first] + rest, reply, served)
  {
    var plan := [first] + rest;
    var all := [part] + parts;
    assert (tried + calls)[|tried| - 1] == tried[|tried| - 1];
    assert Planned(tried[|tried| - 1], buffer, plan, 0);
    assert Delivered(tried + calls, buffer, plan, 0, reply, served, part.etag);
    forall j | 1 <= j < |plan|
      ensures all[j].partNumber == plan[j].number && Delivered(tried + calls, buffer, plan, j, reply, served, all[j].etag)
    {
      assert all[j] == parts[j - 1] && plan[j] == rest[j - 1];
      DeliveredLater(tried, calls, buffer, first, rest, j - 1, reply, served, parts[j - 1].etag);
    }
  }

  /** A delivery by the later requests of a run is a delivery by the whole run, one
      planned part further on. */
  lemma DeliveredLater(tried: seq<Call>, calls: seq<Call>, buffer: seq<byte>, first: PartRange,
                       rest: seq<PartRange>, j: nat, reply: nat -> Result<Option<string>, Error>, served: nat,
                       etag: Option<string>)
    requires j < |rest|
    requires Delivered(calls, buffer, rest, j, reply, served + |tried|, etag)
    ensures Delivered(tried + calls, buffer, [first] + rest, j + 1, reply, served, etag)
  {
    var i :| 0 <= i < |calls| && Planned(calls[i], buffer, rest, j) && reply(served + |tried| + i) == Success(etag);
    var plan := [first] + rest;
    assert plan[j + 1] == rest[j];
    assert (tried + calls)[|tried| + i] == calls[i];
    assert Planned((tried + calls)[|tried| + i], buffer, plan, j + 1);
  }

  /** Every request is an UploadPart request for part `n` or a later one. */
  predicate PartsFrom(calls: seq<Call>, n: nat)
  {
    forall i :: 0 <= i < |calls| ==> calls[i].UploadPart? && calls[i].partIn.partNumber >= n
  }

  /** The UploadPart requests go to parts in ascending order of part number. */
  predicate InOrder(calls: seq<Call>)
  {
    forall i, k :: 0 <= i < k < |calls| && calls[i].UploadPart? && calls[k].UploadPart? ==>
      calls[i].partIn.partNumber <= calls[k].partIn.partNumber
  }

  /** The loop uploads the parts in sequence: it starts at `partNumber` and never goes
      back to an earlier part. */
  lemma {:induction false} UploadFromInOrder(buffer: seq<byte>, session: Session, curr: nat, remaining: nat,
      partNumber: nat, maxPart: nat, reply: nat -> Result<Option<string>, Error>, served: nat, maxRetries: nat,
      r: PartsRun)
    requires maxPart > 0 && maxRetries >= 1 && curr + remaining <= |buffer|
    requires r == UploadFrom(buffer, session, curr, remaining, partNumber, maxPart, reply, served, maxRetries)
    ensures PartsFrom(r.calls, partNumber) && InOrder(r.calls)
    decreases remaining
  {
    if remaining != 0 {
      var len := PartLength(remaining, maxPart);
      var o := Retry(reply, served, partNumber, maxRetries);
      RetryAnswers(reply, served, partNumber, maxRetries);
      var call := Call.UploadPart(PartInput(session, partNumber, buffer[curr..curr + len]));
      var tried := Repeat(call, o.attempts);
      if o.err.None? {
        var rest := UploadFrom(buffer, session, curr + len, remaining - len, partNumber + 1, maxPart,
                               reply, served + o.attempts, maxRetries);
        UploadFromInOrder(buffer, session, curr + len, remaining - len, partNumber + 1, maxPart,
                          reply, served + o.attempts, maxRetries, rest);
        assert r.calls == tried + rest.calls;
        OrderedJoin(tried, rest.calls, partNumber);
      }
    }
  }

  /** Requests for part `n` followed by ordered requests for later parts are ordered. */
  lemma OrderedJoin(tried: seq<Call>, rest: seq<Call>, n: nat)
    requires forall i :: 0 <= i < |tried| ==> tried[i].UploadPart? && tried[i].partIn.partNumber == n
    requires PartsFrom(rest, n + 1) && InOrder(rest)
    ensures PartsFrom(tried + rest, n) && InOrder(tried + rest)
  {
    var all := tried + rest;
    assert forall i :: |tried| <= i < |all| ==> all[i] == rest[i - |tried|];
    forall i, k | 0 <= i < k < |all| && all[i].UploadPart? && all[k].UploadPart?
      ensures all[i].partIn.partNumber <= all[k].partIn.partNumber
    {
      if k < |tried| {
        assert all[i] == tried[i] && all[k] == tried[k];
      } else if i < |tried| {
        assert all[i] == tried[i];
      }
    }
  }

  /** The number of UploadPart requests for part `n`. */
  function PartRequests(calls: seq<Call>, n: nat): (k: nat)
    ensures k <= |calls|
  {
    if calls == [] then 0
    else
      var c := calls[|calls| - 1];
      PartRequests(calls[..|calls| - 1], n) + (if c.UploadPart? && c.partIn.partNumber == n then 1 else 0)
  }

  lemma {:induction false} PartRequestsAppend(a: seq<Call>, b: seq<Call>, n: nat)
    ensures PartRequests(a + b, n) == PartRequests(a, n) + PartRequests(b, n)
    decreases |b|
  {
    if b == [] {
      assert a + b == a;
    } else {
      assert (a + b)[..|a + b| - 1] == a + b[..|b| - 1];
      assert (a + b)[|a + b| - 1] == b[|b| - 1];
      PartRequestsAppend(a, b[..|b| - 1], n);
    }
  }

  lemma {:induction false} PartRequestsNone(calls: seq<Call>, n: nat)
    requires forall i :: 0 <= i < |calls| && calls[i].UploadPart? ==> calls[i].partIn.partNumber != n
    ensures PartRequests(calls, n) == 0
    decreases |calls|
  {
    if calls != [] {
      PartRequestsNone(calls[..|calls| - 1], n);
    }
  }

  lemma {:induction false} PartRequestsAll(calls: seq<Call>, n: nat)
    requires forall i :: 0 <= i < |calls| ==> calls[i].UploadPart? && calls[i].partIn.partNumber == n
    ensures PartRequests(calls, n) == |calls|
    decreases |calls|
  {
    if calls != [] {
      PartRequestsAll(calls[..|calls| - 1], n);
    }
  }

  /** No part gets more than `maxRetries` requests. */
  lemma {:induction false} UploadFromPerPart(buffer: seq<byte>, session: Session, curr: nat, remaining: nat,
      partNumber: nat, maxPart: nat, reply: nat -> Result<Option<string>, Error>, served: nat, maxRetries: nat,
      r: PartsRun, n: nat)
    requires maxPart > 0 && maxRetries >= 1 && curr + remaining <= |buffer|
    requires r == UploadFrom(buffer, session, curr, remaining, partNumber, maxPart, reply, served, maxRetries)
    ensures PartRequests(r.calls, n) <= maxRetries
    decreases remaining
  {
    if remaining != 0 {
      var len := PartLength(remaining, maxPart);
      var o := Retry(reply, served, partNumber, maxRetries);
      RetryAnswers(reply, served, partNumber, maxRetries);
      var call := Call.UploadPart(PartInput(session, partNumber, buffer[curr..curr + len]));
      var tried := Repeat(call, o.attempts);
      if o.err.None? {
        var rest := UploadFrom(buffer, session, curr + len, remaining - len, partNumber + 1, maxPart,
                               reply, served + o.attempts, maxRetries);
        assert r.calls == tried + rest.calls;
        if n == partNumber {
          UploadFromInOrder(buffer, session, curr + len, remaining - len, partNumber + 1, maxPart,
                            reply, served + o.attempts, maxRetries, rest);
        } else {
          UploadFromPerPart(buffer, session, curr + len, remaining - len, partNumber + 1, maxPart,
                            reply, served + o.attempts, maxRetries, rest, n);
        }
        PerPartJoin(tried, rest.calls, partNumber, n, maxRetries);
      }
    }
  }

  /** The loop ended on an exhausted part: its last `maxRetries` requests are all for
      the failed part and were all answered with an error, and the error reported is
      the last reply's. */
  predicate Exhausted(calls: seq<Call>, reply: nat -> Result<Option<string>, Error>, served: nat,
                      pe: PartError, maxRetries: nat)
  {
    1 <= maxRetries <= |calls| &&
    (forall i :: |calls| - maxRetries <= i < |calls| ==>
       calls[i].UploadPart? && calls[i].partIn.partNumber == pe.partNumber && reply(served + i).Failure?) &&
    reply(served + |calls| - 1) == Failure(pe.err)
  }

  /** A failed loop gave up on its part only after `maxRetries` requests for it had all
      failed, and reports the last of those errors. */
  lemma {:induction false} UploadFromExhausted(buffer: seq<byte>, session: Session, curr: nat, remaining: nat,
      partNumber: nat, maxPart: nat, reply: nat -> Result<Option<string>, Error>, served: nat, maxRetries: nat,
      r: PartsRun)
    requires maxPart > 0 && maxRetries >= 1 && curr + remaining <= |buffer|
    requires r == UploadFrom(buffer, session, curr, remaining, partNumber, maxPart, reply, served, maxRetries)
    ensures r.result.Failure? ==> Exhausted(r.calls, reply, served, r.result.error, maxRetries)
    decreases remaining
  {
    if remaining != 0 {
      var len := PartLength(remaining, maxPart);
      var o := Retry(reply, served, partNumber, maxRetries);
      var call := Call.UploadPart(PartInput(session, partNumber, buffer[curr..curr + len]));
      var tried := Repeat(call, o.attempts);
      if o.err.Some? {
        RetryRejected(reply, served, partNumber, maxRetries);
        assert r.calls == tried && r.result.error == PartError(partNumber, o.err.value);
      } else {
        RetryAnswers(reply, served, partNumber, maxRetries);
        var rest := UploadFrom(buffer, session, curr + len, remaining - len, partNumber + 1, maxPart,
                               reply, served + o.attempts, maxRetries);
        assert r == Prepend(tried, [o.part.value], rest);
        UploadFromExhausted(buffer, session, curr + len, remaining - len, partNumber + 1, maxPart,
                            reply, served + o.attempts, maxRetries, rest);
        if rest.result.Failure? {
          ExhaustedLater(tried, o.attempts, rest.calls, reply, served, rest.result.error, maxRetries);
        }
      }
    }
  }

  /** Requests sent before an exhausted run do not change that it ended exhausted. */
  lemma ExhaustedLater(tried: seq<Call>, n: nat, calls: seq<Call>, reply: nat -> Result<Option<string>, Error>,
                       served: nat, pe: PartError, maxRetries: nat)
    requires |tried| == n && Exhausted(calls, reply, served + n, pe, maxRetries)
    ensures Exhausted(tried + calls, reply, served, pe, maxRetries)
  {
    var all := tried + calls;
    assert forall i :: |tried| <= i < |all| ==> all[i] == calls[i - |tried|];
  }

  /** At most `maxRetries` requests for part `p`, followed by requests for later parts
      of which none has more than `maxRetries`, leave no part with more. */
  lemma PerPartJoin(tried: seq<Call>, rest: seq<Call>, p: nat, n: nat, maxRetries: nat)
    requires |tried| <= maxRetries
    requires forall i :: 0 <= i < |tried| ==> tried[i].UploadPart? && tried[i].partIn.partNumber == p
    requires n == p ==> PartsFrom(rest, p + 1)
    requires n != p ==> PartRequests(rest, n) <= maxRetries
    ensures PartRequests(tried + rest, n) <= maxRetries
  {
    PartRequestsAppend(tried, rest, n);
    if n == p {
      PartRequestsNone(rest, n);
    } else {
      PartRequestsNone(tried, n);
    }
  }

  /** One turn of the loop in which the part is uploaded: if the run from `before`
      replies on is `done`, `parts` and then the loop from here, it is also `done`, the
      part's requests `tried`, `parts` and the part, and then the loop from the next
      part. */
  lemma LoopStep(whole: PartsRun, done: seq<Call>, parts: seq<CompletedPart>, buffer: seq<byte>,
                 session: Session, curr: nat, remaining: nat, partNumber: nat,
                 reply: nat -> Result<Option<string>, Error>, before: nat, after: nat,
                 len: nat, tried: seq<Call>, part: CompletedPart)
    requires curr + remaining <= |buffer| && remaining > 0 && len == PartLength(remaining, MaxPartSize)
    requires whole == Prepend(done, parts,
      UploadFrom(buffer, session, curr, remaining, partNumber, MaxPartSize, reply, before, MaxRetries))
    requires Retry(reply, before, partNumber, MaxRetries).part == Some(part)
    requires Retry(reply, before, partNumber, MaxRetries).err.None?
    requires after == before + Retry(reply, before, partNumber, MaxRetries).attempts
    requires tried == Repeat(Call.UploadPart(PartInput(session, partNumber, buffer[curr..curr + len])), after - before)
    ensures whole == Prepend(done + tried, parts + [part],
      UploadFrom(buffer, session, curr + len, remaining - len, partNumber + 1, MaxPartSize, reply, after, MaxRetries))
  {
    var next := UploadFrom(buffer, session, curr + len, remaining - len, partNumber + 1, MaxPartSize,
                           reply, after, MaxRetries);
    assert UploadFrom(buffer, session, curr, remaining, partNumber, MaxPartSize, reply, before, MaxRetries) ==
      Prepend(tried, [part], next);
    PrependPrepend(done, parts, tried, [part], next);
  }

  /** One turn of the loop in which the part fails: the run ends with the part's
      requests `tried` and its error. */
  lemma LoopFails(whole: PartsRun, done: seq<Call>, parts: seq<CompletedPart>, buffer: seq<byte>,
                  session: Session, curr: nat, remaining: nat, partNumber: nat,
                  reply: nat -> Result<Option<string>, Error>, before: nat, after: nat,
                  len: nat, tried: seq<Call>, err: Error)
    requires curr + remaining <= |buffer| && remaining > 0 && len == PartLength(remaining, MaxPartSize)
    requires whole == Prepend(done, parts,
      UploadFrom(buffer, session, curr, remaining, partNumber, MaxPartSize, reply, before, MaxRetries))
    requires Retry(reply, before, partNumber, MaxRetries).err == Some(err)
    requires after == before + Retry(reply, before, partNumber, MaxRetries).attempts
    requires tried == Repeat(Call.UploadPart(PartInput(session, partNumber, buffer[curr..curr + len])), after - before)
    ensures whole.calls == done + tried && whole.result == Failure(PartError(partNumber, err))
  {
  }

  /** If creating the upload fails, nothing else is sent: no UploadPart, no abort, no
      complete. */
  lemma RunInitFailed(oracle: Oracle, served: nat, bucket: string, key: string, contentType: string,
                      buffer: seq<byte>, maxPart: nat, maxRetries: nat)
    requires maxPart > 0 && maxRetries >= 1
    ensures var r := Run(oracle, served, bucket, key, contentType, buffer, maxPart, maxRetries);
      (r.outcome.InitFailed? <==> oracle.create.Failure?) &&
      (oracle.create.Failure? ==>
         r.calls == [Call.CreateMultipartUpload(CreateInput(bucket, key, contentType))] &&
         r.outcome == InitFailed(oracle.create.error))
  {
  }

  /** If a part fails, the upload is aborted exactly once, by the last request, with the
      upload's bucket, key and upload id; it is never completed; no part after the
      failed one is attempted. */
  lemma RunPartFailed(oracle: Oracle, served: nat, bucket: string, key: string, contentType: string,
                      buffer: seq<byte>, maxPart: nat, maxRetries: nat)
    requires maxPart > 0 && maxRetries >= 1
    requires Run(oracle, served, bucket, key, contentType, buffer, maxPart, maxRetries).outcome.PartFailed?
    ensures oracle.create.Success?
    ensures var r := Run(oracle, served, bucket, key, contentType, buffer, maxPart, maxRetries);
      var s := oracle.create.value;
      |r.calls| >= 2 &&
      r.calls[0] == Call.CreateMultipartUpload(CreateInput(bucket, key, contentType)) &&
      r.calls[|r.calls| - 1] == Call.AbortMultipartUpload(AbortInput(s.bucket, s.key, s.uploadId)) &&
      Count(r.calls, CreateKind) == 1 && Count(r.calls, AbortKind) == 1 && Count(r.calls, CompleteKind) == 0 &&
      UploadsUpTo(r.calls, r.outcome.partNumber) &&
      1 <= r.outcome.partNumber <= |Plan(|buffer|, maxPart)| &&
      r.outcome.abortErr == oracle.abort
  {
    var session := oracle.create.value;
    var create := Call.CreateMultipartUpload(CreateInput(bucket, key, contentType));
    var abort := Call.AbortMultipartUpload(AbortInputFor(session));
    var parts := UploadFrom(buffer, session, 0, |buffer|, 1, maxPart, oracle.part, served, maxRetries);
    UploadFromOnlyUploads(buffer, session, 0, |buffer|, 1, maxPart, oracle.part, served, maxRetries);
    UploadFromFailed(buffer, session, 0, |buffer|, 1, maxPart, oracle.part, served, maxRetries);
    var calls := [create] + parts.calls + [abort];
    CountBracketed(create, parts.calls, abort, CreateKind);
    CountBracketed(create, parts.calls, abort, AbortKind);
    CountBracketed(create, parts.calls, abort, CompleteKind);
    assert forall i :: 1 <= i < |calls| - 1 ==> calls[i] == parts.calls[i - 1];
  }

  /** If every part is uploaded, the upload is completed exactly once, by the last
      request, with the upload's bucket, key and upload id and one completed part per
      planned part, numbered 1, 2, ... in order, `ceil(size / maxPart)` of them; it is
      never aborted, not even when completing fails. */
  lemma RunCompleted(oracle: Oracle, served: nat, bucket: string, key: string, contentType: string,
                     buffer: seq<byte>, maxPart: nat, maxRetries: nat)
    requires maxPart > 0 && maxRetries >= 1
    requires var r := Run(oracle, served, bucket, key, contentType, buffer, maxPart, maxRetries);
      r.outcome.Uploaded? || r.outcome.CompleteFailed?
    ensures oracle.create.Success?
    ensures var r := Run(oracle, served, bucket, key, contentType, buffer, maxPart, maxRetries);
      var s := oracle.create.value;
      var last := r.calls[|r.calls| - 1];
      |r.calls| >= 2 &&
      r.calls[0] == Call.CreateMultipartUpload(CreateInput(bucket, key, contentType)) &&
      last.CompleteMultipartUpload? &&
      last.completeIn == CompleteInput(s.bucket, s.key, s.uploadId, last.completeIn.parts) &&
      |last.completeIn.parts| == (|buffer| + maxPart - 1) / maxPart &&
      NumberedFrom(last.completeIn.parts, 1) &&
      Count(r.calls, CreateKind) == 1 && Count(r.calls, AbortKind) == 0 && Count(r.calls, CompleteKind) == 1 &&
      (r.outcome.CompleteFailed? <==> oracle.complete.Failure?)
  {
    var session := oracle.create.value;
    var create := Call.CreateMultipartUpload(CreateInput(bucket, key, contentType));
    PlanCount(0, |buffer|, 1, maxPart);
    var parts := UploadFrom(buffer, session, 0, |buffer|, 1, maxPart, oracle.part, served, maxRetries);
    UploadFromOnlyUploads(buffer, session, 0, |buffer|, 1, maxPart, oracle.part, served, maxRetries);
    UploadFromCompleted(buffer, session, 0, |buffer|, 1, maxPart, oracle.part, served, maxRetries);
    var complete := Call.CompleteMultipartUpload(CompleteInputFor(session, parts.result.value));
    CountBracketed(create, parts.calls, complete, CreateKind);
    CountBracketed(create, parts.calls, complete, AbortKind);
    CountBracketed(create, parts.calls, complete, CompleteKind);
  }

  /** If every part is uploaded, the requests between creating and completing upload
      every planned part, in order of part number, and the parts sent to complete the
      upload are the planned parts in order, each with the ETag the service returned
      when it accepted that part's bytes. */
  lemma RunCompletedDelivers(oracle: Oracle, served: nat, bucket: string, key: string, contentType: string,
                             buffer: seq<byte>, maxPart: nat, maxRetries: nat)
    requires maxPart > 0 && maxRetries >= 1
    requires var r := Run(oracle, served, bucket, key, contentType, buffer, maxPart, maxRetries);
      r.outcome.Uploaded? || r.outcome.CompleteFailed?
    ensures var r := Run(oracle, served, bucket, key, contentType, buffer, maxPart, maxRetries);
      var last := r.calls[|r.calls| - 1];
      |r.calls| >= 2 && last.CompleteMultipartUpload? &&
      AllDelivered(r.calls[1..|r.calls| - 1], last.completeIn.parts, buffer, Plan(|buffer|, maxPart),
                   oracle.part, served) &&
      InOrder(r.calls[1..|r.calls| - 1])
  {
    var session := oracle.create.value;
    var parts := UploadFrom(buffer, session, 0, |buffer|, 1, maxPart, oracle.part, served, maxRetries);
    UploadFromDelivers(buffer, session, 0, |buffer|, 1, maxPart, oracle.part, served, maxRetries, parts);
    UploadFromInOrder(buffer, session, 0, |buffer|, 1, maxPart, oracle.part, served, maxRetries, parts);
    var r := Run(oracle, served, bucket, key, contentType, buffer, maxPart, maxRetries);
    assert r.calls[1..|r.calls| - 1] == parts.calls;
  }

  /** If a part fails, the upload sent exactly `maxRetries` requests for that part; they
      are the last requests before the abort, all were answered with an error, and the
      error reported is the last of them. */
  lemma RunPartFailedExhausted(oracle: Oracle, served: nat, bucket: string, key: string, contentType: string,
                               buffer: seq<byte>, maxPart: nat, maxRetries: nat)
    requires maxPart > 0 && maxRetries >= 1
    requires Run(oracle, served, bucket, key, contentType, buffer, maxPart, maxRetries).outcome.PartFailed?
    ensures var r := Run(oracle, served, bucket, key, contentType, buffer, maxPart, maxRetries);
      |r.calls| >= 2 &&
      Exhausted(r.calls[1..|r.calls| - 1], oracle.part, served,
                PartError(r.outcome.partNumber, r.outcome.err), maxRetries) &&
      PartRequests(r.calls, r.outcome.partNumber) == maxRetries
  {
    var session := oracle.create.value;
    var parts := UploadFrom(buffer, session, 0, |buffer|, 1, maxPart, oracle.part, served, maxRetries);
    var n := parts.result.error.partNumber;
    UploadFromExhausted(buffer, session, 0, |buffer|, 1, maxPart, oracle.part, served, maxRetries, parts);
    UploadFromPerPart(buffer, session, 0, |buffer|, 1, maxPart, oracle.part, served, maxRetries, parts, n);
    var create := Call.CreateMultipartUpload(CreateInput(bucket, key, contentType));
    var abort := Call.AbortMultipartUpload(AbortInputFor(session));
    var r := Run(oracle, served, bucket, key, contentType, buffer, maxPart, maxRetries);
    assert r.calls == [create] + parts.calls + [abort];
    assert r.calls[1..|r.calls| - 1] == parts.calls;
    ExhaustedCount(create, parts.calls, abort, n, maxRetries);
  }

  /** `maxRetries` trailing requests for part `n`, and no more than that in all, between
      two requests that are not uploads, make exactly `maxRetries` requests for part `n`. */
  lemma ExhaustedCount(first: Call, calls: seq<Call>, last: Call, n: nat, maxRetries: nat)
    requires !first.UploadPart? && !last.UploadPart?
    requires maxRetries <= |calls| && PartRequests(calls, n) <= maxRetries
    requires forall i :: |calls| - maxRetries <= i < |calls| ==>
      calls[i].UploadPart? && calls[i].partIn.partNumber == n
    ensures PartRequests([first] + calls + [last], n) == maxRetries
  {
    var k := |calls| - maxRetries;
    assert calls == calls[..k] + calls[k..];
    PartRequestsAll(calls[k..], n);
    PartRequestsAppend(calls[..k], calls[k..], n);
    PartRequestsNone([first], n);
    PartRequestsNone([last], n);
    PartRequestsAppend([first], calls, n);
    PartRequestsAppend([first] + calls, [last], n);
  }

  /** Between a first and a last request, UploadPart requests add nothing to the count
      of any other kind. */
  lemma CountBracketed(first: Call, middle: seq<Call>, last: Call, k: Kind)
    requires k != UploadKind
    requires forall i :: 0 <= i < |middle| ==> middle[i].UploadPart?
    ensures Count([first] + middle + [last], k) ==
      (if KindOf(first) == k then 1 else 0) + (if KindOf(last) == k then 1 else 0)
  {
    CountNone(middle, k);
    CountAppend([first], middle, k);
    CountAppend([first] + middle, [last], k);
  }

  /** A buffer of zero bytes uploads no part and completes the upload with an empty
      list of parts. */
  lemma RunEmptyFile(oracle: Oracle, served: nat, bucket: string, key: string, contentType: string,
                     buffer: seq<byte>, maxPart: nat, maxRetries: nat)
    requires maxPart > 0 && maxRetries >= 1
    requires |buffer| == 0 && oracle.create.Success?
    ensures var s := oracle.create.value;
      Run(oracle, served, bucket, key, contentType, buffer, maxPart, maxRetries).calls ==
        [Call.CreateMultipartUpload(CreateInput(bucket, key, contentType)),
         Call.CompleteMultipartUpload(CompleteInput(s.bucket, s.key, s.uploadId, []))]
  {
  }

  /** The whole upload sends at most `2 + maxRetries * ceil(size / maxPart)` requests. */
  lemma RunCallCount(oracle: Oracle, served: nat, bucket: string, key: string, contentType: string,
                     buffer: seq<byte>, maxPart: nat, maxRetries: nat)
    requires maxPart > 0 && maxRetries >= 1
    ensures |Run(oracle, served, bucket, key, contentType, buffer, maxPart, maxRetries).calls| <=
      2 + maxRetries * ((|buffer| + maxPart - 1) / maxPart)
  {
    if oracle.create.Success? {
      PlanCount(0, |buffer|, 1, maxPart);
      UploadFromBound(buffer, oracle.create.value, 0, |buffer|, 1, maxPart, oracle.part, served, maxRetries);
    }
  }

  /** `completeMultipartUpload(svc, resp, completedParts)`. */
  method CompleteMultipartUpload(svc: Service, session: Session, parts: seq<CompletedPart>)
    returns (r: Result<string, Error>)
    requires svc.Valid()
    modifies svc
    ensures svc.Valid() && svc.partCalls == old(svc.partCalls)
    ensures svc.trace == old(svc.trace) + [Call.CompleteMultipartUpload(CompleteInputFor(session, parts))]
    ensures r == svc.oracle.complete
  {
    r := svc.CompleteMultipartUpload(CompleteInputFor(session, parts));
  }

  /** `abortMultipartUpload(svc, resp)`. */
  method AbortMultipartUpload(svc: Service, session: Session) returns (err: Option<Error>)
    requires svc.Valid()
    modifies svc
    ensures svc.Valid() && svc.partCalls == old(svc.partCalls)
    ensures svc.trace == old(svc.trace) + [Call.AbortMultipartUpload(AbortInputFor(session))]
    ensures err == svc.oracle.abort
  {
    err := svc.AbortMultipartUpload(AbortInputFor(session));
  }

  /** The loop of `main` (lines 100-122): walks the buffer with `curr`, `remaining`,
      `partLength` and `partNumber`, uploads each part with `uploadPart` and appends its
      completed part, and stops at the first part that fails. */
  method UploadParts(svc: Service, session: Session, buffer: seq<byte>)
    returns (completedParts: seq<CompletedPart>, failure: Option<PartError>)
    requires svc.Valid()
    modifies svc
    ensures svc.Valid()
    ensures var run := UploadFrom(buffer, session, 0, |buffer|, 1, MaxPartSize, svc.oracle.part,
                                  old(svc.partCalls), MaxRetries);
      svc.trace == old(svc.trace) + run.calls &&
      (match run.result
       case Success(ps) => completedParts == ps && failure == None
       case Failure(pe) => failure == Some(pe))
  {
    var curr: nat, partLength: nat := 0, 0;
    var remaining: nat := |buffer|;
    completedParts := [];
    var partNumber: nat := 1;
    ghost var reply := svc.oracle.part;
    ghost var served := svc.partCalls;
    ghost var whole := UploadFrom(buffer, session, 0, |buffer|, 1, MaxPartSize, reply, served, MaxRetries);
    ghost var done: seq<Call> := [];
    PrependNothing(whole);
    while remaining != 0
      invariant curr + remaining == |buffer|
      invariant svc.Valid() && svc.partCalls == served
      invariant svc.trace == old(svc.trace) + done
      invariant whole == Prepend(done, completedParts,
        UploadFrom(buffer, session, curr, remaining, partNumber, MaxPartSize, reply, served, MaxRetries))
      decreases remaining
    {
      if remaining < MaxPartSize {
        partLength := remaining;
      } else {
        partLength := MaxPartSize;
      }
      var completedPart, err := PartUploader.UploadPart(svc, session, buffer[curr..curr + partLength], partNumber, MaxRetries);
      ghost var tried := Repeat(Call.UploadPart(PartInput(session, partNumber, buffer[curr..curr + partLength])),
                                svc.partCalls - served);
      AppendAssoc(old(svc.trace), done, tried);
      if err.Some? {
        LoopFails(whole, done, completedParts, buffer, session, curr, remaining, partNumber, reply,
                  served, svc.partCalls, partLength, tried, err.value);
        return completedParts, Some(PartError(partNumber, err.value));
      }
      RetryAnswers(reply, served, partNumber, MaxRetries);
      LoopStep(whole, done, completedParts, buffer, session, curr, remaining, partNumber, reply,
               served, svc.partCalls, partLength, tried, completedPart.value);
      served := svc.partCalls;
      remaining := remaining - partLength;
      partNumber := partNumber + 1;
      completedParts := completedParts + [completedPart.value];
      done := done + tried;
      curr := curr + partLength;
    }
    assert done + [] == done && completedParts + [] == completedParts;
    assert whole == PartsRun(done, served, Success(completedParts));
    return completedParts, None;
  }

  /** The upload section of `main` (lines 93-128), with 5 MiB parts and 10 attempts per
      part: the requests it sends and the way it ends are those of `Run`. */
  method Upload(svc: Service, bucket: string, key: string, contentType: string, buffer: seq<byte>)
    returns (outcome: UploadOutcome)
    requires svc.Valid()
    modifies svc
    ensures svc.Valid()
    ensures var run := Run(svc.oracle, old(svc.partCalls), bucket, key, contentType, buffer, MaxPartSize, MaxRetries);
      svc.trace == old(svc.trace) + run.calls && outcome == run.outcome
  {
    var resp := svc.CreateMultipartUpload(CreateInput(bucket, key, contentType));
    if resp.Failure? {
      return InitFailed(resp.error);
    }
    var session := resp.value;
    ghost var create := Call.CreateMultipartUpload(CreateInput(bucket, key, contentType));
    ghost var parts := UploadFrom(buffer, session, 0, |buffer|, 1, MaxPartSize, svc.oracle.part, svc.partCalls, MaxRetries);
    ghost var run := Run(svc.oracle, old(svc.partCalls), bucket, key, contentType, buffer, MaxPartSize, MaxRetries);
    var completedParts, failure := UploadParts(svc, session, buffer);
    if failure.Some? {
      var abortErr := AbortMultipartUpload(svc, session);
      ghost var abort := Call.AbortMultipartUpload(AbortInputFor(session));
      RunAborts(svc.oracle, old(svc.partCalls), bucket, key, contentType, buffer, session, parts);
      TraceAppend(old(svc.trace), create, parts.calls, abort);
      return PartFailed(failure.value.partNumber, failure.value.err, abortErr);
    }
    var completeResponse := CompleteMultipartUpload(svc, session, completedParts);
    ghost var complete := Call.CompleteMultipartUpload(CompleteInputFor(session, completedParts));
    RunCompletes(svc.oracle, old(svc.partCalls), bucket, key, contentType, buffer, session, parts);
    TraceAppend(old(svc.trace), create, parts.calls, complete);
    match completeResponse
    case Failure(e) => return CompleteFailed(e);
    case Success(response) => return Uploaded(response);
  }

  /** `Run` when creating succeeds and a part fails. */
  lemma RunAborts(oracle: Oracle, served: nat, bucket: string, key: string, contentType: string,
                  buffer: seq<byte>, session: Session, parts: PartsRun)
    requires oracle.create == Success(session)
    requires parts == UploadFrom(buffer, session, 0, |buffer|, 1, MaxPartSize, oracle.part, served, MaxRetries)
    requires parts.result.Failure?
    ensures Run(oracle, served, bucket, key, contentType, buffer, MaxPartSize, MaxRetries) ==
      RunResult([Call.CreateMultipartUpload(CreateInput(bucket, key, contentType))] + parts.calls +
                [Call.AbortMultipartUpload(AbortInputFor(session))],
                PartFailed(parts.result.error.partNumber, parts.result.error.err, oracle.abort))
  {
  }

  /** `Run` when creating succeeds and every part is uploaded. */
  lemma RunCompletes(oracle: Oracle, served: nat, bucket: string, key: string, contentType: string,
                     buffer: seq<byte>, session: Session, parts: PartsRun)
    requires oracle.create == Success(session)
    requires parts == UploadFrom(buffer, session, 0, |buffer|, 1, MaxPartSize, oracle.part, served, MaxRetries)
    requires parts.result.Success?
    ensures Run(oracle, served, bucket, key, contentType, buffer, MaxPartSize, MaxRetries) ==
      RunResult([Call.CreateMultipartUpload(CreateInput(bucket, key, contentType))] + parts.calls +
                [Call.CompleteMultipartUpload(CompleteInputFor(session, parts.result.value))],
                match oracle.complete
                case Failure(e) => CompleteFailed(e)
                case Success(response) => Uploaded(response))
  {
  }

  /** Regrouping a trace. Stated as a lemma, with the parts named, so that the methods
      above need not prove it among their own facts. */
  lemma AppendAssoc(a: seq<Call>, b: seq<Call>, c: seq<Call>)
    ensures (a + b) + c == a + (b + c)
  {
  }

  lemma TraceAppend(t: seq<Call>, first: Call, middle: seq<Call>, last: Call)
    ensures t + [first] + middle + [last] == t + ([first] + middle + [last])
  {
  }
}
