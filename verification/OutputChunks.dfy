/** The output side of a file operation: `fileOpResultChunk` re-cuts the crypto stream's
    values into slices of a fixed size, and the host drains them into a file. */
module OutputChunks {
  import opened Common

  const DEFAULT_MAX_LENGTH: nat := 262144

  /** `maxLength` as the handler reads it: absent or zero means the default. */
  function Limit(maxLength: nat): nat {
    if maxLength == 0 then DEFAULT_MAX_LENGTH else maxLength
  }

  /** The pulls a total of `total` bytes takes: every full slice, and one that says done. */
  function Pulls(total: nat, max: nat): nat
    requires max > 0
    decreases total
  {
    if total < max then 1 else 1 + Pulls(total - max, max)
  }

  lemma MulSuccessor(m: int, k: int)
    ensures m * (k + 1) == m * k + m
  {
  }

  /** The number of pulls is the quotient of the total by the limit, plus one. */
  lemma {:induction false} PullsIsQuotientPlusOne(total: nat, max: nat)
    requires max > 0
    ensures max * (Pulls(total, max) - 1) <= total < max * Pulls(total, max)
    decreases total
  {
    if total >= max {
      PullsIsQuotientPlusOne(total - max, max);
      var k := Pulls(total - max, max);
      MulSuccessor(max, k);
      MulSuccessor(max, k - 1);
    }
  }

  /** The reader of the crypto stream's output together with the tail kept between pulls. */
  class OutputSession {
    var values: seq<Bytes>       // what the stream will still produce
    var pending: Option<Bytes>   // the tail beyond the last slice

    /** Every byte not handed out yet, in order. */
    ghost function Rest(): Bytes
      reads this
    {
      (if pending.Some? then pending.value else []) + Concat(values)
    }

    constructor (stream: seq<Bytes>)
      ensures Rest() == Concat(stream) && values == stream && pending.None?
    {
      values, pending := stream, None;
    }

    /** One `reader.read()`: the next value, or the end of the stream. */
    method Read() returns (value: Option<Bytes>)
      modifies this`values
      ensures old(values) == [] ==> value.None? && values == []
      ensures old(values) != [] ==> value == Some(old(values)[0]) && values == old(values)[1..]
    {
      if values == [] {
        value := None;
      } else {
        value, values := Some(values[0]), values[1..];
      }
    }

    method ResultChunk(maxLength: nat) returns (slice: Bytes, done: bool)
      modifies this
      ensures var max := if maxLength == 0 then 262144 else maxLength;
              && (done <==> |old(Rest())| < max)
              && |slice| == (if |old(Rest())| < max then |old(Rest())| else max)
      ensures slice + Rest() == old(Rest())
      ensures done ==> values == [] && pending.None?
    {
      var max := Limit(maxLength);
      var acc := if pending.Some? then pending.value else [];
      pending := None;
      var streamDone := false;
      while |acc| < max && !streamDone
        invariant acc + Concat(values) == old(Rest())
        invariant pending.None?
        invariant streamDone ==> values == [] && |acc| < max
        decreases |values|, !streamDone
      {
        var value := Read();
        if value.None? {
          streamDone := true;
        } else {
          acc := acc + value.value;
        }
      }
      slice := if |acc| > max then acc[..max] else acc;
      if |acc| > max {
        pending := Some(acc[max..]);
      }
      done := streamDone && pending.None?;
    }
  }

  /** The drain loop.  The slices spell the whole stream, every one but the last is full,
      `done` ends the loop the first time it is reported, and the number of pulls is the
      number of full slices plus one. */
  method PullSessionToFile(session: OutputSession, maxLength: nat)
    returns (written: Bytes, totalBytes: nat, slices: seq<Bytes>)
    modifies session
    ensures written == old(session.Rest()) && totalBytes == |written|
    ensures Concat(slices) == written
    ensures |slices| == Pulls(totalBytes, Limit(maxLength))
    ensures forall i :: 0 <= i < |slices| - 1 ==> |slices[i]| == Limit(maxLength)
    ensures |slices[|slices| - 1]| < Limit(maxLength)
    ensures session.Rest() == []
  {
    var max := Limit(maxLength);
    written, totalBytes, slices := [], 0, [];
    var done := false;
    while !done
      invariant done ==> session.Rest() == [] && slices != [] && |slices[|slices| - 1]| < max
      invariant written + session.Rest() == old(session.Rest())
      invariant Concat(slices) == written && totalBytes == |written|
      invariant !done ==> |slices| + Pulls(|session.Rest()|, max) == Pulls(|old(session.Rest())|, max)
      invariant done ==> |slices| == Pulls(|old(session.Rest())|, max)
      invariant forall i :: 0 <= i < |slices| - 1 ==> |slices[i]| == max
      invariant !done && slices != [] ==> |slices[|slices| - 1]| == max
      decreases |session.Rest()|, !done
    {
      ghost var before := session.Rest();
      var slice;
      slice, done := session.ResultChunk(maxLength);
      assert written + before == (written + slice) + session.Rest();
      assert |before| == |slice| + |session.Rest()|;
      if |slice| > 0 {
        written := written + slice;
        totalBytes := totalBytes + |slice|;
      }
      ConcatSnoc(slices, slice);
      slices := slices + [slice];
    }
  }

  lemma SingleSlice(a: seq<Bytes>, max: nat)
    requires max > 0 && a != []
    requires forall i :: 0 <= i < |a| - 1 ==> |a[i]| == max
    requires |a[|a| - 1]| < max
    ensures |a| == 1 <==> |Concat(a)| < max
    ensures |a| == 1 ==> a == [Concat(a)]
  {
    if |a| == 1 {
      assert a[1..] == [] && Concat(a[1..]) == [];
      assert a[0] + [] == a[0];
    }
  }

  /** How the stream happens to cut its values, empty or huge, has no influence on the slices. */
  lemma {:induction false} SlicesDetermined(a: seq<Bytes>, b: seq<Bytes>, max: nat)
    requires max > 0 && Concat(a) == Concat(b) && a != [] && b != []
    requires forall i :: 0 <= i < |a| - 1 ==> |a[i]| == max
    requires forall i :: 0 <= i < |b| - 1 ==> |b[i]| == max
    requires |a[|a| - 1]| < max && |b[|b| - 1]| < max
    ensures a == b
  {
    SingleSlice(a, max);
    SingleSlice(b, max);
    if |a| > 1 {
      assert a[0] == Concat(a)[..max] && b[0] == Concat(b)[..max];
      assert Concat(a[1..]) == Concat(a)[max..] && Concat(b[1..]) == Concat(b)[max..];
      SlicesDetermined(a[1..], b[1..], max);
    }
  }
}
