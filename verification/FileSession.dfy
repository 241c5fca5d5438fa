/** The WebView side of one streaming file session: the input queue, the parked
    stream pull and the parked chunk batches.  Every handler is cut at its awaits;
    each piece between two awaits is one segment.  A segment is a function from
    session to session, and the class below runs the same segments in place. */
module FileSession {
  import opened Common

  /** A parked chunk batch, with the queue length it waits for. */
  datatype Waiter = Waiter(id: nat, cap: nat)

  /** `waiters` holds the parked pulls, `drainWaiters` the parked chunk batches. */
  datatype Session = Session(
    queue: seq<Bytes>,
    waiters: seq<nat>,
    drainWaiters: seq<Waiter>,
    done: bool,
    error: Option<string>)

  const NEW_SESSION := Session([], [], [], false, None)

  datatype PullOutcome = Delivered(chunk: Bytes) | StreamClosed | StreamErrored(err: string) | PullParked
  datatype BatchOutcome = BatchParked | BatchAcked | BatchRejected

  /** What a segment leaves behind: the session, its own outcome, and whom it woke. */
  datatype Segment<+O> = Segment(session: Session, outcome: O, wokenPulls: seq<nat>, wokenBatches: seq<Waiter>)

  /** One turn of the pull loop: the queue is asked before `done`, `done` before `error`. */
  function PullSegment(s: Session, token: nat): Segment<PullOutcome> {
    if |s.queue| > 0 then
      Segment(s.(queue := s.queue[1..], drainWaiters := []), Delivered(s.queue[0]), [], s.drainWaiters)
    else if s.done then Segment(s, StreamClosed, [], [])
    else if s.error.Some? then Segment(s, StreamErrored(s.error.value), [], [])
    else Segment(s.(waiters := s.waiters + [token]), PullParked, [], [])
  }

  /** The failure path: the first error is kept, `done` is set, everybody wakes. */
  function FailSegment(s: Session, err: string): Segment<()> {
    Segment(
      s.(error := if s.error.Some? then s.error else Some(err), done := true, waiters := [], drainWaiters := []),
      (), s.waiters, s.drainWaiters)
  }

  /** All chunks enter the queue; each wakes one parked pull while there is one. */
  function PushSegment(s: Session, chunks: seq<Bytes>): Segment<()> {
    var k := Min(|chunks|, |s.waiters|);
    Segment(s.(queue := s.queue + chunks, waiters := s.waiters[k..]), (), s.waiters[..k], [])
  }

  /** The wait condition of a batch.  `listed` says whether the session can still be
      looked up by its id, which is what the failure path needs to reach it. */
  function BatchCheck(s: Session, id: nat, cap: nat, listed: bool): Segment<BatchOutcome> {
    if |s.queue| > cap && !s.done && s.error.None? then
      Segment(s.(drainWaiters := s.drainWaiters + [Waiter(id, cap)]), BatchParked, [], [])
    else if s.error.Some? then
      if listed then
        var f := FailSegment(s, s.error.value);
        Segment(f.session, BatchRejected, f.wokenPulls, f.wokenBatches)
      else Segment(s, BatchRejected, [], [])
    else Segment(s, BatchAcked, [], [])
  }

  /** The chunks before the first one whose base64 does not decode. */
  function Decodable(chunks: seq<Option<Bytes>>): (r: seq<Bytes>)
    ensures |r| <= |chunks|
    ensures forall i :: 0 <= i < |r| ==> chunks[i] == Some(r[i])
    ensures |r| < |chunks| ==> chunks[|r|].None?
  {
    if chunks == [] || chunks[0].None? then []
    else [chunks[0].value] + Decodable(chunks[1..])
  }

  /** Arrival of a chunk batch: push what decodes, then wait, reject or acknowledge. */
  function BatchSegment(s: Session, id: nat, chunks: seq<Option<Bytes>>, cap: nat): Segment<BatchOutcome> {
    var good := Decodable(chunks);
    var p := PushSegment(s, good);
    if |good| < |chunks| then
      var f := FailSegment(p.session, "decode");
      Segment(f.session, BatchRejected, p.wokenPulls + f.wokenPulls, f.wokenBatches)
    else
      var c := BatchCheck(p.session, id, cap, true);
      Segment(c.session, c.outcome, p.wokenPulls + c.wokenPulls, c.wokenBatches)
  }

  /** End of input (`fileOpFinishInput`, and the last lines of `fileOpEnd`): one parked pull
      wakes, parked batches do not. */
  function FinishSegment(s: Session): Segment<()> {
    var k := Min(1, |s.waiters|);
    Segment(s.(done := true, waiters := s.waiters[k..]), (), s.waiters[..k], [])
  }

  /** The single-chunk push: a queue of four refuses, and the refusal fails the session. */
  function ChunkSegment(s: Session, chunk: Option<Bytes>): Segment<BatchOutcome> {
    if chunk.None? || |s.queue| >= 4 then
      var f := FailSegment(s, if chunk.None? then "decode" else "input queue is full");
      Segment(f.session, BatchRejected, f.wokenPulls, f.wokenBatches)
    else
      var p := PushSegment(s, [chunk.value]);
      Segment(p.session, BatchAcked, p.wokenPulls, [])
  }

  function HardCap(drainBelow: Option<int>): nat {
    if drainBelow.Some? && drainBelow.value > 0 then drainBelow.value else 6
  }

  /** The session object the handlers share and mutate. */
  class FileSession {
    var queue: seq<Bytes>
    var waiters: seq<nat>
    var drainWaiters: seq<Waiter>
    var done: bool
    var error: Option<string>

    ghost function View(): Session
      reads this
    {
      Session(queue, waiters, drainWaiters, done, error)
    }

    constructor ()
      ensures View() == NEW_SESSION
    {
      queue, waiters, drainWaiters, done, error := [], [], [], false, None;
    }

    method Pull(token: nat) returns (outcome: PullOutcome, woken: seq<Waiter>)
      modifies this
      ensures Segment(View(), outcome, [], woken) == PullSegment(old(View()), token)
    {
      woken := [];
      if |queue| > 0 {
        outcome := Delivered(queue[0]);
        queue := queue[1..];
        woken, drainWaiters := drainWaiters, [];
      } else if done {
        outcome := StreamClosed;
      } else if error.Some? {
        outcome := StreamErrored(error.value);
      } else {
        waiters := waiters + [token];
        outcome := PullParked;
      }
    }

    method Fail(err: string) returns (wokenPulls: seq<nat>, wokenBatches: seq<Waiter>)
      modifies this
      ensures Segment(View(), (), wokenPulls, wokenBatches) == FailSegment(old(View()), err)
    {
      if error.None? {
        error := Some(err);
      }
      done := true;
      wokenPulls, waiters := waiters, [];
      wokenBatches, drainWaiters := drainWaiters, [];
    }

    /** Pushes one chunk and shifts one parked pull. */
    method PushChunk(chunk: Bytes) returns (woken: seq<nat>)
      modifies this`queue, this`waiters
      ensures Segment(View(), (), woken, []) == PushSegment(old(View()), [chunk])
    {
      queue := queue + [chunk];
      woken := [];
      if |waiters| > 0 {
        woken, waiters := [waiters[0]], waiters[1..];
      }
    }

    method CheckBatch(id: nat, cap: nat, listed: bool)
      returns (outcome: BatchOutcome, wokenPulls: seq<nat>, wokenBatches: seq<Waiter>)
      modifies this
      ensures Segment(View(), outcome, wokenPulls, wokenBatches) == BatchCheck(old(View()), id, cap, listed)
    {
      wokenPulls, wokenBatches := [], [];
      if |queue| > cap && !done && error.None? {
        drainWaiters := drainWaiters + [Waiter(id, cap)];
        outcome := BatchParked;
      } else if error.Some? {
        outcome := BatchRejected;
        if listed {
          wokenPulls, wokenBatches := Fail(error.value);
        }
      } else {
        outcome := BatchAcked;
      }
    }

    method ChunkBatch(id: nat, chunks: seq<Option<Bytes>>, drainBelow: Option<int>)
      returns (outcome: BatchOutcome, wokenPulls: seq<nat>, wokenBatches: seq<Waiter>)
      modifies this
      ensures Segment(View(), outcome, wokenPulls, wokenBatches)
              == BatchSegment(old(View()), id, chunks, HardCap(drainBelow))
    {
      ghost var start := View();
      ghost var pushed: seq<Bytes> := [];
      var i := 0;
      wokenPulls := [];
      while i < |chunks| && chunks[i].Some?
        invariant 0 <= i <= |chunks|
        invariant Decodable(chunks[..i]) == pushed && |pushed| == i
        invariant Segment(View(), (), wokenPulls, []) == PushSegment(start, pushed)
      {
        DecodableSnoc(chunks, i);
        PushOneMore(start, pushed, chunks[i].value);
        var w := PushChunk(chunks[i].value);
        wokenPulls := wokenPulls + w;
        pushed := pushed + [chunks[i].value];
        i := i + 1;
      }
      DecodableStops(chunks, i);
      if i < |chunks| {
        var ps, bs := Fail("decode");
        outcome, wokenPulls, wokenBatches := BatchRejected, wokenPulls + ps, bs;
      } else {
        var o, ps, bs := CheckBatch(id, HardCap(drainBelow), true);
        outcome, wokenPulls, wokenBatches := o, wokenPulls + ps, bs;
      }
    }

    method FinishInput() returns (woken: seq<nat>)
      modifies this`done, this`waiters
      ensures Segment(View(), (), woken, []) == FinishSegment(old(View()))
    {
      done := true;
      woken := [];
      if |waiters| > 0 {
        woken, waiters := [waiters[0]], waiters[1..];
      }
    }

    method Chunk(chunk: Option<Bytes>)
      returns (outcome: BatchOutcome, wokenPulls: seq<nat>, wokenBatches: seq<Waiter>)
      modifies this
      ensures Segment(View(), outcome, wokenPulls, wokenBatches) == ChunkSegment(old(View()), chunk)
    {
      if chunk.None? || |queue| >= 4 {
        wokenPulls, wokenBatches := Fail(if chunk.None? then "decode" else "input queue is full");
        outcome := BatchRejected;
      } else {
        wokenPulls := PushChunk(chunk.value);
        outcome, wokenBatches := BatchAcked, [];
      }
    }
  }

  lemma {:induction false} DecodableSnoc(chunks: seq<Option<Bytes>>, k: nat)
    requires k < |chunks| && |Decodable(chunks[..k])| == k && chunks[k].Some?
    ensures Decodable(chunks[..k + 1]) == Decodable(chunks[..k]) + [chunks[k].value]
  {
  }

  lemma {:induction false} DecodableStops(chunks: seq<Option<Bytes>>, k: nat)
    requires k <= |chunks| && |Decodable(chunks[..k])| == k
    requires k < |chunks| ==> chunks[k].None?
    ensures Decodable(chunks) == Decodable(chunks[..k])
  {
  }

  /** Pushing chunk by chunk is pushing all of them at once. */
  lemma PushOneMore(s: Session, chunks: seq<Bytes>, chunk: Bytes)
    ensures var p := PushSegment(s, chunks);
            var q := PushSegment(p.session, [chunk]);
            Segment(q.session, (), p.wokenPulls + q.wokenPulls, []) == PushSegment(s, chunks + [chunk])
  {
  }

  // ---- what a push is answered ----

  predicate AllDecode(chunks: seq<Option<Bytes>>) {
    forall i :: 0 <= i < |chunks| ==> chunks[i].Some?
  }

  lemma {:induction false} DecodableIff(chunks: seq<Option<Bytes>>)
    ensures |Decodable(chunks)| == |chunks| <==> AllDecode(chunks)
  {
    if chunks != [] && chunks[0].Some? {
      DecodableIff(chunks[1..]);
      assert forall i :: 0 < i < |chunks| ==> chunks[i] == chunks[1..][i - 1];
    }
  }

  /** A batch is rejected exactly if a chunk does not decode or the session has failed before, and
      the rejection leaves the session failed with its first error; otherwise all its chunks are
      queued, and it is parked exactly if the session is open and the queue longer than the cap it
      asked for, six if it asked for none. */
  lemma BatchAnswered(s: Session, id: nat, chunks: seq<Option<Bytes>>, drainBelow: Option<int>)
    requires s.error.Some? ==> s.done
    ensures var r := BatchSegment(s, id, chunks, HardCap(drainBelow));
            var cap := match drainBelow case Some(n) => if n > 0 then n else 6 case None => 6;
            && (r.outcome.BatchRejected? <==> !AllDecode(chunks) || s.error.Some?)
            && (r.outcome.BatchRejected? ==> r.session.done && r.session.error.Some?
                                             && (s.error.Some? ==> r.session.error == s.error))
            && (!r.outcome.BatchRejected? ==>
                  && |r.session.queue| == |s.queue| + |chunks| && s.queue <= r.session.queue
                  && (forall i :: 0 <= i < |chunks| ==> chunks[i] == Some(r.session.queue[|s.queue| + i]))
                  && (r.outcome.BatchParked? <==> !s.done && |r.session.queue| > cap)
                  && r.session.done == s.done && r.session.error == s.error)
  {
    DecodableIff(chunks);
  }

  /** A single chunk is taken exactly if it decodes and fewer than four are queued; a refusal fails
      the session, which keeps its first error, and leaves the queue alone. */
  lemma ChunkAnswered(s: Session, chunk: Option<Bytes>)
    ensures var r := ChunkSegment(s, chunk);
            if chunk.Some? && |s.queue| < 4
            then r.outcome == BatchAcked && r.session.queue == s.queue + [chunk.value]
                 && r.session.done == s.done && r.session.error == s.error
            else r.outcome == BatchRejected && r.session.queue == s.queue && r.session.done && r.session.error.Some?
                 && (s.error.Some? ==> r.session.error == s.error)
  {
  }

  /** A failure keeps the first error and wakes everybody who is parked. */
  lemma FailureWakesAll(s: Session, err: string)
    ensures var r := FailSegment(s, err);
            && r.session.error == (if s.error.Some? then s.error else Some(err))
            && r.session.done && r.session.queue == s.queue
            && r.wokenPulls == s.waiters && r.wokenBatches == s.drainWaiters
            && r.session.waiters == [] && r.session.drainWaiters == []
  {
  }

  /** A batch that finds its session failed is rejected, and while the session can still be looked
      up whoever is parked is woken by the same failure path. */
  lemma CheckAnswered(s: Session, id: nat, cap: nat, listed: bool)
    ensures var r := BatchCheck(s, id, cap, listed);
            && (r.outcome.BatchRejected? <==> s.error.Some?)
            && (r.outcome.BatchParked? <==> s.error.None? && !s.done && |s.queue| > cap)
            && (r.outcome.BatchParked? ==> r.session == s.(drainWaiters := s.drainWaiters + [Waiter(id, cap)]))
            && (s.error.Some? && listed ==> r.wokenPulls == s.waiters && r.wokenBatches == s.drainWaiters
                                            && r.session == s.(done := true, waiters := [], drainWaiters := []))
            && (!r.outcome.BatchParked? && !(s.error.Some? && listed) ==>
                  r.session == s && r.wokenPulls == [] && r.wokenBatches == [])
  {
  }
}
