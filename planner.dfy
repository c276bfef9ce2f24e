/** How the upload driver cuts a buffer of `size` bytes into parts: the loop of
    `main` walks `curr` and `remaining` and takes `min(remaining, maxPartSize)` bytes
    at a time, numbering the parts 1, 2, 3, ... */
module Planner {
  import opened S3

  const MiB: nat := 1024 * 1024
  /** The largest part the driver uploads: 5 MiB. */
  const MaxPartSize: nat := 5 * MiB

  /** The byte span `[start, start + length)` uploaded as part `number`. */
  datatype PartRange = PartRange(number: nat, start: nat, length: nat)

  /** The length of the next part when `remaining` bytes are left. */
  function PartLength(remaining: nat, maxPart: nat): (len: nat)
    ensures len <= remaining && len <= maxPart
    ensures len == remaining || len == maxPart
  {
    if remaining < maxPart then remaining else maxPart
  }

  /** The parts the loop uploads from the point where `curr` bytes are done,
      `remaining` are left and the next part number is `number`. */
  function PlanFrom(curr: nat, remaining: nat, number: nat, maxPart: nat): seq<PartRange>
    requires maxPart > 0
    decreases remaining
  {
    if remaining == 0 then []
    else
      var len := PartLength(remaining, maxPart);
      [PartRange(number, curr, len)] + PlanFrom(curr + len, remaining - len, number + 1, maxPart)
  }

  /** All parts of a buffer of `size` bytes. */
  function Plan(size: nat, maxPart: nat): seq<PartRange>
    requires maxPart > 0
  {
    PlanFrom(0, size, 1, maxPart)
  }

  /** Every range lies inside a buffer of `size` bytes. */
  predicate Fits(ranges: seq<PartRange>, size: nat)
  {
    forall i :: 0 <= i < |ranges| ==> ranges[i].start + ranges[i].length <= size
  }

  /** The bytes of `buffer` the ranges select, one after the other. */
  function Reassemble(buffer: seq<byte>, ranges: seq<PartRange>): seq<byte>
    requires Fits(ranges, |buffer|)
  {
    if ranges == [] then []
    else buffer[ranges[0].start..ranges[0].start + ranges[0].length] + Reassemble(buffer, ranges[1..])
  }

  /** Part numbers start at `number` and go up by one per part. */
  predicate Dense(p: seq<PartRange>, number: nat)
  {
    forall i :: 0 <= i < |p| ==> p[i].number == number + i
  }

  /** Every part is non-empty and at most `maxPart` long; all but the last are full. */
  predicate Sized(p: seq<PartRange>, maxPart: nat)
  {
    (forall i :: 0 <= i < |p| ==> 0 < p[i].length <= maxPart) &&
    (forall i :: 0 <= i < |p| - 1 ==> p[i].length == maxPart)
  }

  /** The parts tile `[from, to)`: the first starts at `from`, each starts where the
      previous one ends, and the last ends at `to`. */
  predicate Tiles(p: seq<PartRange>, from: nat, to: nat)
  {
    (p == [] ==> from == to) &&
    (p != [] ==> p[0].start == from && p[|p| - 1].start + p[|p| - 1].length == to) &&
    (forall i :: 0 <= i < |p| - 1 ==> p[i + 1].start == p[i].start + p[i].length)
  }

  /** The parts lie inside `[from, to)` and none overlaps a later one. */
  predicate Disjoint(p: seq<PartRange>, from: nat, to: nat)
  {
    (forall i :: 0 <= i < |p| ==> from <= p[i].start && p[i].start + p[i].length <= to) &&
    (forall i, j :: 0 <= i < j < |p| ==> p[i].start + p[i].length <= p[j].start)
  }

  /** Part numbers are dense: they start at `number` and go up by one per part. */
  lemma {:induction false} PlanNumbers(curr: nat, remaining: nat, number: nat, maxPart: nat)
    requires maxPart > 0
    ensures Dense(PlanFrom(curr, remaining, number, maxPart), number)
    decreases remaining
  {
    if remaining != 0 {
      var len := PartLength(remaining, maxPart);
      var p := PlanFrom(curr, remaining, number, maxPart);
      var rest := PlanFrom(curr + len, remaining - len, number + 1, maxPart);
      assert p == [PartRange(number, curr, len)] + rest;
      PlanNumbers(curr + len, remaining - len, number + 1, maxPart);
      assert forall i :: 1 <= i < |p| ==> p[i] == rest[i - 1];
    }
  }

  /** Every part is non-empty and at most `maxPart` long, and all parts but the last
      are exactly `maxPart` long: only the final part can be short. */
  lemma {:induction false} PlanLengths(curr: nat, remaining: nat, number: nat, maxPart: nat)
    requires maxPart > 0
    ensures Sized(PlanFrom(curr, remaining, number, maxPart), maxPart)
    decreases remaining
  {
    if remaining != 0 {
      var len := PartLength(remaining, maxPart);
      var p := PlanFrom(curr, remaining, number, maxPart);
      var rest := PlanFrom(curr + len, remaining - len, number + 1, maxPart);
      assert p == [PartRange(number, curr, len)] + rest;
      PlanLengths(curr + len, remaining - len, number + 1, maxPart);
      PlanContiguous(curr + len, remaining - len, number + 1, maxPart);
      assert rest != [] ==> len == maxPart;
      assert forall i :: 1 <= i < |p| ==> p[i] == rest[i - 1];
    }
  }

  /** The parts are contiguous and in order and cover `[curr, curr + remaining)`;
      no part is planned exactly when nothing remains. */
  lemma {:induction false} PlanContiguous(curr: nat, remaining: nat, number: nat, maxPart: nat)
    requires maxPart > 0
    ensures Tiles(PlanFrom(curr, remaining, number, maxPart), curr, curr + remaining)
    ensures PlanFrom(curr, remaining, number, maxPart) == [] <==> remaining == 0
    decreases remaining
  {
    if remaining != 0 {
      var len := PartLength(remaining, maxPart);
      var p := PlanFrom(curr, remaining, number, maxPart);
      var rest := PlanFrom(curr + len, remaining - len, number + 1, maxPart);
      assert p == [PartRange(number, curr, len)] + rest;
      PlanContiguous(curr + len, remaining - len, number + 1, maxPart);
      assert forall i :: 1 <= i < |p| ==> p[i] == rest[i - 1];
    }
  }

  /** The parts do not overlap and lie inside `[curr, curr + remaining)`. */
  lemma {:induction false} PlanDisjoint(curr: nat, remaining: nat, number: nat, maxPart: nat)
    requires maxPart > 0
    ensures Disjoint(PlanFrom(curr, remaining, number, maxPart), curr, curr + remaining)
    decreases remaining
  {
    if remaining != 0 {
      var len := PartLength(remaining, maxPart);
      var p := PlanFrom(curr, remaining, number, maxPart);
      var rest := PlanFrom(curr + len, remaining - len, number + 1, maxPart);
      assert p == [PartRange(number, curr, len)] + rest;
      PlanDisjoint(curr + len, remaining - len, number + 1, maxPart);
      assert forall i :: 1 <= i < |p| ==> p[i] == rest[i - 1];
    }
  }

  /** The parts fit in the buffer that the loop slices. */
  lemma PlanFits(curr: nat, remaining: nat, number: nat, maxPart: nat)
    requires maxPart > 0
    ensures Fits(PlanFrom(curr, remaining, number, maxPart), curr + remaining)
  {
    PlanDisjoint(curr, remaining, number, maxPart);
  }

  /** Putting the parts' bytes back together gives exactly the bytes they were cut from. */
  lemma {:induction false} PlanReassembles(buffer: seq<byte>, curr: nat, number: nat, maxPart: nat)
    requires maxPart > 0 && curr <= |buffer|
    ensures Fits(PlanFrom(curr, |buffer| - curr, number, maxPart), |buffer|) &&
      Reassemble(buffer, PlanFrom(curr, |buffer| - curr, number, maxPart)) == buffer[curr..]
    decreases |buffer| - curr
  {
    PlanFits(curr, |buffer| - curr, number, maxPart);
    var remaining := |buffer| - curr;
    if remaining != 0 {
      var len := PartLength(remaining, maxPart);
      var p := PlanFrom(curr, remaining, number, maxPart);
      assert p[1..] == PlanFrom(curr + len, remaining - len, number + 1, maxPart);
      PlanReassembles(buffer, curr + len, number + 1, maxPart);
      assert buffer[curr..curr + len] + buffer[curr + len..] == buffer[curr..];
    }
  }

  /** The loop makes `ceil(remaining / maxPart)` parts: just enough parts of
      `maxPart` bytes to hold `remaining` bytes. */
  lemma {:induction false} PlanCount(curr: nat, remaining: nat, number: nat, maxPart: nat)
    requires maxPart > 0
    ensures var k := |PlanFrom(curr, remaining, number, maxPart)|;
      (k - 1) * maxPart < remaining <= k * maxPart || (k == 0 && remaining == 0)
    ensures |PlanFrom(curr, remaining, number, maxPart)| == (remaining + maxPart - 1) / maxPart
    decreases remaining
  {
    var k := |PlanFrom(curr, remaining, number, maxPart)|;
    if remaining == 0 {
      DivUnique(maxPart - 1, maxPart, 0);
    } else {
      var len := PartLength(remaining, maxPart);
      PlanCount(curr + len, remaining - len, number + 1, maxPart);
      assert k * maxPart == (k - 1) * maxPart + maxPart;
      assert (k - 1) * maxPart < remaining <= k * maxPart;
      assert (k - 1) * maxPart + maxPart <= remaining + maxPart - 1 < k * maxPart + maxPart;
      DivUnique(remaining + maxPart - 1, maxPart, k);
    }
  }

  lemma DivUnique(a: nat, m: nat, q: nat)
    requires m > 0 && q * m <= a < q * m + m
    ensures a / m == q
  {
    var q', r' := a / m, a % m;
    assert a == q' * m + r' && 0 <= r' < m;
    if q' < q {
      MulMono(q' + 1, q, m);
      assert false;
    } else if q' > q {
      MulMono(q + 1, q', m);
      assert false;
    }
  }

  lemma MulMono(x: nat, y: nat, m: nat)
    requires x <= y
    ensures x * m <= y * m
  {
    var d: nat := y - x;
    assert y * m == x * m + d * m;
  }
}
