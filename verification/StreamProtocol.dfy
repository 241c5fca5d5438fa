/** The whole input side of a file operation: the host feeding a file through a window of
    unacknowledged batches, the bridge carrying messages in order, the session, and the
    crypto stream pulling from it.  One event is one segment between two awaits; woken
    coroutines resume in any order. */
module StreamProtocol {
  import opened Common
  import opened FileSession
  import opened WebSession

  const CHUNK_BYTES: nat := 512 * 1024
  const MAX_IN_FLIGHT: nat := 4
  const DRAIN_BELOW: nat := 2

  datatype Message = Batch(id: nat, chunk: Bytes) | Finish

  /** The feed loop: its offset, whether it still runs, and the size of its window. */
  datatype Host = Host(off: nat, feeding: bool, inFlight: nat, nextId: nat)

  datatype System = System(
    file: Bytes,
    host: Host,
    channel: seq<Message>,   // host to WebView, in issue order
    web: Web,
    acks: nat,               // acknowledgements on their way to the host
    nacks: nat,              // rejections on their way to the host
    started: bool,           // the crypto stream exists and has asked for input
    cancelled: bool,         // the output reader was cancelled: no further pull starts
    ended: bool,             // fileOpEnd has deleted the session
    faulted: bool)           // something outside the error-free protocol happened

  datatype Event =
    | Issue
    | SendFinish
    | Arrive
    | StartPull
    | ResumePull
    | ResumeBatch(i: nat)
    | ReceiveAck
    | ReceiveNack
    | BatchTimeout
    | OperationFails(err: string)
    | CancelReader
    | End

  function Init(file: Bytes): System {
    System(file, Host(0, true, 0, 0), [], Web(NEW_SESSION, [], Idle, []), 0, 0, false, false, false, false)
  }

  predicate ErrorFree(e: Event) {
    e.Issue? || e.SendFinish? || e.Arrive? || e.StartPull? || e.ResumePull? || e.ResumeBatch? || e.ReceiveAck?
  }

  predicate Enabled(y: System, e: Event) {
    match e
    case Issue => y.host.feeding && y.host.off < |y.file| && y.host.inFlight < MAX_IN_FLIGHT
    case SendFinish => y.host.feeding && y.host.off >= |y.file| && y.host.inFlight == 0
    case Arrive => y.channel != []
    case StartPull => y.web.pull.Idle? && !y.cancelled
    case ResumePull => y.web.pull.Woken?
    case ResumeBatch(i) => i < |y.web.woken|
    case ReceiveAck => y.acks > 0
    case ReceiveNack => y.nacks > 0
    case BatchTimeout => y.host.feeding && y.host.inFlight > 0
    case OperationFails(_) => !y.ended
    case CancelReader => y.started && !y.ended
    case End => !y.ended
  }

  /** A batch of one chunk arrives, with the host's own cap. */
  function Take(w: Web, id: nat, chunk: Bytes): (Web, BatchOutcome) {
    TakeBatch(w, id, [Some(chunk)], Some(DRAIN_BELOW))
  }

  // ---- one event ----

  function Slice(file: Bytes, off: nat): Bytes
    requires off < |file|
  {
    file[off..Min(off + CHUNK_BYTES, |file|)]
  }

  function Answer(y: System, o: BatchOutcome): System {
    match o
    case BatchParked => y
    case BatchAcked => y.(acks := y.acks + 1)
    case BatchRejected => y.(nacks := y.nacks + 1)
  }

  function Receive(y: System, m: Message): System {
    match m
    case Finish =>
      // after fileOpEnd the session is unknown, and the host ignores this rejection
      if y.ended then y else y.(web := Absorb(y.web, FinishSegment(y.web.session)))
    case Batch(id, chunk) =>
      if y.ended then Answer(y, BatchRejected)  // unknown session
      else
        var (w, o) := Take(y.web, id, chunk);
        Answer(y.(web := w), o)
  }

  /** A batch promise settles; a late answer to a timed-out batch finds nothing to settle. */
  function Settled(h: Host): Host {
    h.(inFlight := if h.inFlight > 0 then h.inFlight - 1 else 0)
  }

  /** The host's `finally`: whatever ends the loop, the input side is closed once. */
  function StopFeeding(y: System): System {
    if y.host.feeding then y.(host := y.host.(feeding := false), channel := y.channel + [Finish]) else y
  }

  function Apply(y: System, e: Event): System
    requires Enabled(y, e)
  {
    match e
    case Issue =>
      y.(host := Host(y.host.off + CHUNK_BYTES, true, y.host.inFlight + 1, y.host.nextId + 1),
         channel := y.channel + [Batch(y.host.nextId, Slice(y.file, y.host.off))])
    case SendFinish => StopFeeding(y)
    case Arrive => Receive(y.(channel := y.channel[1..]), y.channel[0])
    case StartPull => y.(web := RunPull(y.web), started := true)
    case ResumePull => y.(web := RunPull(y.web))
    case ResumeBatch(i) =>
      var (w, o) := Recheck(y.web, i, !y.ended);
      Answer(y.(web := w), o)
    case ReceiveAck => y.(acks := y.acks - 1, host := Settled(y.host))
    case ReceiveNack => StopFeeding(y.(nacks := y.nacks - 1, host := Settled(y.host), faulted := true))
    case BatchTimeout => StopFeeding(y.(host := Settled(y.host), faulted := true))
    case OperationFails(err) => y.(web := Absorb(y.web, FailSegment(y.web.session, err)), faulted := true)
    case CancelReader => y.(cancelled := true, faulted := true)
    case End => y.(web := Absorb(y.web, FinishSegment(y.web.session)), ended := true, faulted := true)
  }

  ghost predicate Legal(y: System, es: seq<Event>)
    decreases |es|
  {
    es == [] || (Enabled(y, es[0]) && Legal(Apply(y, es[0]), es[1..]))
  }

  function Exec(y: System, es: seq<Event>): System
    requires Legal(y, es)
    decreases |es|
  {
    if es == [] then y else Exec(Apply(y, es[0]), es[1..])
  }

  // ---- what every reachable state satisfies ----

  function Chunks(ms: seq<Message>): (r: seq<Bytes>) {
    if ms == [] then []
    else if ms[0].Finish? then Chunks(ms[1..])
    else [ms[0].chunk] + Chunks(ms[1..])
  }

  /** Bytes of the file that have left the host. */
  function Sent(y: System): Bytes {
    y.file[..Min(y.host.off, |y.file|)]
  }

  /** The batches of this session whose answer the WebView still owes. */
  function Owed(w: Web): nat {
    |w.session.drainWaiters| + |w.woken|
  }

  /** Who waits, and why, when every batch waits for the host's own cap. */
  ghost predicate Waits(w: Web) {
    && Waiting(w)
    && (forall i :: 0 <= i < |w.session.drainWaiters| ==> w.session.drainWaiters[i].cap == DRAIN_BELOW)
    && (forall i :: 0 <= i < |w.woken| ==> w.woken[i].cap == DRAIN_BELOW)
    && (w.session.drainWaiters != [] ==> |w.session.queue| > DRAIN_BELOW)
  }

  /** The bytes the WebView has received: handed to the crypto stream, then still queued. */
  function Held(w: Web): Bytes {
    w.delivered + Concat(w.session.queue)
  }

  ghost predicate IsPrefix(a: Bytes, b: Bytes) {
    |a| <= |b| && a == b[..|a|]
  }

  /** Where the bytes are. */
  ghost predicate Conserved(y: System) {
    if y.ended then IsPrefix(Held(y.web), y.file)
    else Held(y.web) + Concat(Chunks(y.channel)) == Sent(y)
  }

  ghost predicate AllSmall(parts: seq<Bytes>) {
    forall i :: 0 <= i < |parts| ==> |parts[i]| <= CHUNK_BYTES
  }

  /** The window's arithmetic: `inChannel`, owed answers and answers on their way make up the
      window, and a queue over the cap is always paid for by an owed answer. */
  ghost predicate Bounded(y: System) {
    var inChannel, queued := |Chunks(y.channel)|, |y.web.session.queue|;
    && (y.host.feeding ==>
          && Finish !in y.channel
          && y.host.inFlight <= MAX_IN_FLIGHT
          && y.host.inFlight == inChannel + Owed(y.web) + y.acks + y.nacks
          && (!y.ended && y.web.session.done ==> y.web.session.error.Some?)
          && (!y.ended ==> queued + inChannel + y.acks <= DRAIN_BELOW + y.host.inFlight))
    && (!y.web.session.done ==> queued <= DRAIN_BELOW + Owed(y.web))
    && (!y.ended ==> queued + inChannel <= DRAIN_BELOW + MAX_IN_FLIGHT)
    && queued <= DRAIN_BELOW + MAX_IN_FLIGHT
  }

  /** What an error-free history adds. */
  ghost predicate Clean(y: System) {
    !y.faulted ==>
      && y.web.session.error.None? && !y.ended && !y.cancelled && y.nacks == 0
      && (y.host.feeding ==> !y.web.session.done)
      && (!y.host.feeding ==>
            && y.host.off >= |y.file|
            && Owed(y.web) == 0 && y.acks == 0
            && y.channel == (if y.web.session.done then [] else [Finish]))
      && (y.web.pull.Closed? ==> y.web.session.done && y.web.session.queue == [])
  }

  /** The host that has stopped feeding has told the session so. */
  predicate Announced(y: System) {
    y.host.feeding || y.ended || y.web.session.done || Finish in y.channel
  }

  ghost predicate Inv(y: System) {
    && Waits(y.web) && Conserved(y) && Bounded(y) && Clean(y) && Announced(y)
    && AllSmall(y.web.session.queue) && AllSmall(Chunks(y.channel))
  }

  // ---- the WebView's segments keep `Waiting`, and what else they do ----

  lemma PullEffect(w: Web)
    requires Waits(w) && !w.pull.Parked?
    ensures var v := RunPull(w);
            && Waits(v) && Owed(v) == Owed(w)
            && v.session.done == w.session.done && v.session.error == w.session.error
            && Held(v) == Held(w)
            && (v.pull.Closed? ==> w.session.done && v.session.queue == [])
            && (if w.session.queue == [] then
                  && v.session.queue == [] && |v.woken| == |w.woken|
                  && v.pull == (if w.session.done then Closed else Parked)
                else
                  && v.session.queue == w.session.queue[1..] && v.pull.Idle?
                  && v.session.drainWaiters == [] && |v.woken| == Owed(w))
  {
  }

  /** Where a checked batch ends up: parked, answered, or rejected while everybody wakes. */
  ghost predicate Checked(s: Session, woken: nat, o: BatchOutcome, v: Web) {
    && v.session.queue == s.queue && v.session.done == s.done && v.session.error == s.error
    && v.session.waiters == []
    && (o.BatchParked? <==> |s.queue| > DRAIN_BELOW && !s.done && s.error.None?)
    && (o.BatchRejected? <==> s.error.Some?)
    && Owed(v) == |s.drainWaiters| + woken + (if o.BatchParked? then 1 else 0)
    && (o.BatchParked? || |v.woken| == woken || o.BatchRejected?)
    && (o.BatchParked? ==> |v.woken| == woken)
  }

  lemma BatchEffect(w: Web, id: nat, chunk: Bytes)
    requires Waits(w)
    ensures var (v, o) := Take(w, id, chunk);
            && Waits(v) && v.delivered == w.delivered
            && v.pull == (if w.pull.Parked? then Woken else w.pull)
            && Checked(w.session.(queue := w.session.queue + [chunk]), |w.woken|, o, v)
  {
  }

  lemma RecheckEffect(w: Web, i: nat, listed: bool)
    requires Waits(w) && i < |w.woken|
    ensures var (v, o) := Recheck(w, i, listed);
            && Waits(v) && v.delivered == w.delivered
            && v.session.queue == w.session.queue
            && v.session.done == w.session.done && v.session.error == w.session.error
            && (v.pull == w.pull || v.pull.Woken?)
            && (v.pull.Closed? ==> w.pull.Closed?)
            && (o.BatchAcked? ==> w.session.error.None? && (|w.session.queue| <= DRAIN_BELOW || w.session.done))
            && (o.BatchRejected? ==> w.session.error.Some?)
            && Owed(v) == Owed(w) - (if o.BatchParked? then 0 else 1)
            && (!o.BatchRejected? ==> |v.woken| == |w.woken| - 1)
  {
  }

  lemma FinishEffect(w: Web)
    requires Waits(w)
    ensures var v := Absorb(w, FinishSegment(w.session));
            && Waits(v) && v.delivered == w.delivered && Owed(v) == Owed(w)
            && v.session == w.session.(done := true, waiters := [])
            && v.pull == (if w.pull.Parked? then Woken else w.pull)
  {
  }

  lemma FailEffect(w: Web, err: string)
    requires Waits(w)
    ensures var v := Absorb(w, FailSegment(w.session, err));
            && Waits(v) && v.delivered == w.delivered && Owed(v) == Owed(w)
            && v.session.queue == w.session.queue && v.session.done && v.session.error.Some?
  {
  }

  // ---- each event keeps the invariant ----

  lemma {:induction false} ChunksSnoc(ms: seq<Message>, m: Message)
    ensures Chunks(ms + [m]) == if m.Batch? then Chunks(ms) + [m.chunk] else Chunks(ms)
  {
    if ms == [] {
      assert ms + [m] == [m] && [m][1..] == [];
    } else {
      assert (ms + [m])[1..] == ms[1..] + [m];
      ChunksSnoc(ms[1..], m);
    }
  }

  /** What the host cuts off, the channel gains. */
  lemma SliceMoves(y: System, held: Bytes)
    requires Enabled(y, Issue) && held + Concat(Chunks(y.channel)) == Sent(y)
    ensures held + Concat(Chunks(y.channel) + [Slice(y.file, y.host.off)]) == Sent(Apply(y, Issue))
  {
    var chunk := Slice(y.file, y.host.off);
    ConcatSnoc(Chunks(y.channel), chunk);
    assert held + (Concat(Chunks(y.channel)) + chunk) == Sent(y) + chunk;
  }

  lemma IssueKeeps(y: System)
    requires Inv(y) && Enabled(y, Issue)
    ensures Inv(Apply(y, Issue))
  {
    ChunksSnoc(y.channel, Batch(y.host.nextId, Slice(y.file, y.host.off)));
    if !y.ended {
      SliceMoves(y, Held(y.web));
    }
  }

  lemma StopKeeps(y: System)
    requires Waits(y.web) && Conserved(y) && Bounded(y) && Announced(y)
    requires AllSmall(y.web.session.queue) && AllSmall(Chunks(y.channel))
    requires y.faulted || (Clean(y) && y.host.inFlight == 0 && y.host.off >= |y.file|)
    ensures Inv(StopFeeding(y))
  {
    ChunksSnoc(y.channel, Finish);
    assert Finish in y.channel + [Finish];
    if !y.faulted && y.host.feeding {
      assert Chunks(y.channel) == [];
      NoChunks(y.channel);
    }
  }

  lemma {:induction false} NoChunks(ms: seq<Message>)
    requires Finish !in ms && Chunks(ms) == []
    ensures ms == []
  {
  }

  lemma FinishArrives(y: System)
    requires Inv(y) && y.channel != [] && y.channel[0].Finish?
    ensures Inv(Apply(y, Arrive))
  {
    FinishEffect(y.web);
  }

  lemma FirstChunk(ms: seq<Message>)
    requires ms != [] && ms[0].Batch?
    ensures Chunks(ms) == [ms[0].chunk] + Chunks(ms[1..])
    ensures Concat(Chunks(ms)) == ms[0].chunk + Concat(Chunks(ms[1..]))
    ensures AllSmall(Chunks(ms)) ==> |ms[0].chunk| <= CHUNK_BYTES && AllSmall(Chunks(ms[1..]))
  {
  }

  /** What the channel loses, the queue gains. */
  lemma ChunkMoves(y: System, chunk: Bytes)
    requires y.channel != [] && y.channel[0].Batch? && y.channel[0].chunk == chunk
    requires AllSmall(Chunks(y.channel)) && AllSmall(y.web.session.queue)
    ensures |Chunks(y.channel)| == 1 + |Chunks(y.channel[1..])|
    ensures AllSmall(Chunks(y.channel[1..])) && AllSmall(y.web.session.queue + [chunk])
    ensures Held(y.web) + Concat(Chunks(y.channel))
         == (y.web.delivered + Concat(y.web.session.queue + [chunk])) + Concat(Chunks(y.channel[1..]))
  {
    FirstChunk(y.channel);
    ConcatSnoc(y.web.session.queue, chunk);
  }

  lemma BatchArrives(y: System)
    requires Inv(y) && y.channel != [] && y.channel[0].Batch?
    ensures Inv(Apply(y, Arrive))
  {
    ChunkMoves(y, y.channel[0].chunk);
    if !y.ended {
      BatchEffect(y.web, y.channel[0].id, y.channel[0].chunk);
    }
  }

  lemma PullKeeps(y: System, started: bool)
    requires Inv(y) && (y.web.pull.Idle? || y.web.pull.Woken?)
    ensures Inv(y.(web := RunPull(y.web), started := started))
  {
    PullEffect(y.web);
  }

  lemma RecheckKeeps(y: System, i: nat)
    requires Inv(y) && i < |y.web.woken|
    ensures Inv(Apply(y, ResumeBatch(i)))
  {
    RecheckEffect(y.web, i, !y.ended);
  }

  lemma AnswerKeeps(y: System, e: Event)
    requires Inv(y) && Enabled(y, e) && (e.ReceiveAck? || e.ReceiveNack? || e.BatchTimeout?)
    ensures Inv(Apply(y, e))
  {
    ChunksSnoc(y.channel, Finish);
  }

  lemma FailKeeps(y: System, err: string)
    requires Inv(y) && !y.ended
    ensures Inv(Apply(y, OperationFails(err)))
  {
    FailEffect(y.web, err);
  }

  lemma HeldIsPrefix(y: System)
    requires Conserved(y)
    ensures IsPrefix(Held(y.web), y.file)
  {
  }

  lemma EndKeeps(y: System)
    requires Inv(y) && !y.ended
    ensures Inv(Apply(y, End))
  {
    var v := Absorb(y.web, FinishSegment(y.web.session));
    FinishEffect(y.web);
    EndedKeeps(y, v);
    assert Apply(y, End) == y.(web := v, ended := true, faulted := true);
  }

  lemma EndedKeeps(y: System, v: Web)
    requires Inv(y) && Waits(v) && v.delivered == y.web.delivered && Owed(v) == Owed(y.web)
    requires v.session.queue == y.web.session.queue && v.session.done
    ensures Inv(y.(web := v, ended := true, faulted := true))
  {
  }

  lemma StepKeeps(y: System, e: Event)
    requires Inv(y) && Enabled(y, e)
    ensures Inv(Apply(y, e))
  {
    match e
    case Issue => IssueKeeps(y);
    case SendFinish => StopKeeps(y);
    case Arrive => if y.channel[0].Finish? { FinishArrives(y); } else { BatchArrives(y); }
    case StartPull => PullKeeps(y, true);
    case ResumePull => PullKeeps(y, y.started);
    case ResumeBatch(i) => RecheckKeeps(y, i);
    case ReceiveAck => AnswerKeeps(y, e);
    case ReceiveNack => AnswerKeeps(y, e);
    case BatchTimeout => AnswerKeeps(y, e);
    case OperationFails(err) => FailKeeps(y, err);
    case CancelReader =>
    case End => EndKeeps(y);
  }

  lemma {:induction false} RunKeeps(y: System, es: seq<Event>)
    requires Inv(y) && Legal(y, es)
    ensures Inv(Exec(y, es))
    decreases |es|
  {
    if es != [] {
      StepKeeps(y, es[0]);
      RunKeeps(Apply(y, es[0]), es[1..]);
    }
  }

  /** The state after a legal run of the protocol on a file. */
  function After(file: Bytes, es: seq<Event>): System
    requires Legal(Init(file), es)
  {
    Exec(Init(file), es)
  }

  lemma Reachable(file: Bytes, es: seq<Event>)
    requires Legal(Init(file), es)
    ensures Inv(After(file, es))
  {
    RunKeeps(Init(file), es);
  }

  lemma {:induction false} FileStays(y: System, es: seq<Event>)
    requires Legal(y, es)
    ensures Exec(y, es).file == y.file
    decreases |es|
  {
    if es != [] {
      FileStays(Apply(y, es[0]), es[1..]);
    }
  }

  // ---- the main results: safety of every run ----

  /** No wake-up is lost: whoever is parked has a reason to be, and the two sides are never
      parked together. */
  lemma NoDeadlock(file: Bytes, es: seq<Event>)
    requires Legal(Init(file), es)
    ensures var y := After(file, es);
            && (y.web.pull.Parked? <==> y.web.session.waiters != [])
            && (y.web.pull.Parked? ==> y.web.session.queue == [] && !y.web.session.done && y.web.session.error.None?)
            && (forall i :: 0 <= i < |y.web.session.drainWaiters| ==>
                  |y.web.session.queue| > y.web.session.drainWaiters[i].cap == DRAIN_BELOW)
            && (y.web.pull.Parked? ==> y.web.session.drainWaiters == [])
  {
    Reachable(file, es);
  }

  /** The buffer is bounded for a file of any size and in failing runs too. */
  lemma BufferBounded(file: Bytes, es: seq<Event>)
    requires Legal(Init(file), es)
    ensures var y := After(file, es);
            && (!y.web.session.done ==> |y.web.session.queue| <= DRAIN_BELOW + Owed(y.web))
            && |y.web.session.queue| <= 6
            && |Concat(y.web.session.queue)| <= 6 * 524288
  {
    Reachable(file, es);
    ConcatLength(After(file, es).web.session.queue, CHUNK_BYTES);
  }

  /** Nothing is lost, duplicated or reordered: what the crypto stream got, then the queue,
      then the bridge, spell the part of the file the host has cut off so far. */
  lemma InputConserved(file: Bytes, es: seq<Event>)
    requires Legal(Init(file), es)
    ensures var y := After(file, es);
            && (!y.ended ==>
                  y.web.delivered + Concat(y.web.session.queue) + Concat(Chunks(y.channel))
                  == file[..Min(y.host.off, |file|)])
            && y.web.delivered + Concat(y.web.session.queue) <= file
  {
    Reachable(file, es);
    FileStays(Init(file), es);
    HeldIsPrefix(After(file, es));
  }

  lemma ErrorFreeStaysClean(y: System, e: Event)
    requires Inv(y) && !y.faulted && ErrorFree(e) && Enabled(y, e)
    ensures !Apply(y, e).faulted
  {
  }

  lemma {:induction false} StaysClean(y: System, es: seq<Event>)
    requires Legal(y, es) && Inv(y) && !y.faulted && forall e :: e in es ==> ErrorFree(e)
    ensures !Exec(y, es).faulted
    decreases |es|
  {
    if es != [] {
      StepKeeps(y, es[0]);
      ErrorFreeStaysClean(y, es[0]);
      StaysClean(Apply(y, es[0]), es[1..]);
    }
  }

  lemma ClosedCleanIsWhole(y: System)
    requires Conserved(y) && Clean(y) && !y.faulted && y.web.pull.Closed?
    ensures y.web.delivered == y.file
  {
    assert Concat(Chunks(y.channel)) == [] && Concat(y.web.session.queue) == [];
    WholeIff(y.web.delivered, [], y.file, y.host.off);
  }

  /** In an error-free run the crypto stream sees end-of-input only after the whole file. */
  lemma ClosedMeansWholeFile(file: Bytes, es: seq<Event>)
    requires Legal(Init(file), es) && forall e :: e in es ==> ErrorFree(e)
    requires After(file, es).web.pull.Closed?
    ensures After(file, es).web.delivered == file
  {
    Reachable(file, es);
    StaysClean(Init(file), es);
    FileStays(Init(file), es);
    ClosedCleanIsWhole(After(file, es));
  }

  /** `controller.error` is never reached: whatever fails a session also sets `done`, and the
      pull asks `done` first.  Once its queue is empty, a failed session ends the crypto
      stream's input as if the file were complete. */
  lemma FailureLooksLikeEndOfFile(file: Bytes, es: seq<Event>)
    requires Legal(Init(file), es)
    ensures var y := After(file, es);
            && !y.web.pull.Errored?
            && (y.web.session.error.Some? && y.web.session.queue == [] ==>
                  forall e: Event :: (e.StartPull? || e.ResumePull?) && Enabled(y, e) ==> Apply(y, e).web.pull.Closed?)
  {
    Reachable(file, es);
  }

  lemma PullClosesEarlyIff(y: System)
    requires Waits(y.web) && Conserved(y) && !y.ended && (y.web.pull.Idle? || y.web.pull.Woken?)
    ensures RunPull(y.web).pull.Closed? && RunPull(y.web).delivered != y.file <==>
              && y.web.session.done && y.web.session.queue == []
              && (y.host.off < |y.file| || Concat(Chunks(y.channel)) != [])
  {
    PullEffect(y.web);
    if y.web.session.queue == [] {
      assert Held(y.web) == y.web.delivered;
      WholeIff(y.web.delivered, Concat(Chunks(y.channel)), y.file, y.host.off);
    }
  }

  /** Exactly when a turn of the pull ends the crypto stream's input before the whole file was
      handed over: input is done, nothing is queued, and part of the file has not been cut off
      or is still on the bridge. */
  lemma ClosesEarlyIff(file: Bytes, es: seq<Event>, e: Event)
    requires Legal(Init(file), es) && !After(file, es).ended
    requires (e.StartPull? || e.ResumePull?) && Enabled(After(file, es), e)
    ensures var y := After(file, es);
            Apply(y, e).web.pull.Closed? && Apply(y, e).web.delivered != file <==>
              && y.web.session.done && y.web.session.queue == []
              && (y.host.off < |file| || Concat(Chunks(y.channel)) != [])
  {
    Reachable(file, es);
    FileStays(Init(file), es);
    PullClosesEarlyIff(After(file, es));
  }

  lemma WholeIff(delivered: Bytes, onBridge: Bytes, file: Bytes, off: nat)
    requires delivered + onBridge == file[..Min(off, |file|)]
    ensures delivered == file <==> off >= |file| && onBridge == []
  {
    if off >= |file| && onBridge == [] {
      assert delivered == delivered + onBridge;
    }
    assert |delivered| + |onBridge| == |delivered + onBridge|;
  }

  /** A run in which the crypto stream is told that a one-byte file is empty: it waits for input
      when an operation on the session fails, and the wake-up ends its input. */
  lemma TruncatedInput()
    ensures var file, es := [7], [StartPull, OperationFails("stream failed"), ResumePull];
            && Legal(Init(file), es)
            && After(file, es).web.pull.Closed? && After(file, es).web.delivered == []
  {
    var parked := Apply(Init([7]), StartPull);
    var failed := Apply(parked, OperationFails("stream failed"));
    OneEvent(failed, ResumePull);
    ThenEvent(parked, OperationFails("stream failed"), [ResumePull]);
    ThenEvent(Init([7]), StartPull, [OperationFails("stream failed"), ResumePull]);
    assert [StartPull] + ([OperationFails("stream failed")] + [ResumePull])
        == [StartPull, OperationFails("stream failed"), ResumePull];
  }

  lemma ThenEvent(y: System, e: Event, es: seq<Event>)
    requires Enabled(y, e) && Legal(Apply(y, e), es)
    ensures Legal(y, [e] + es) && Exec(y, [e] + es) == Exec(Apply(y, e), es)
  {
    assert ([e] + es)[1..] == es;
  }

  lemma OneEvent(y: System, e: Event)
    requires Enabled(y, e)
    ensures Legal(y, [e]) && Exec(y, [e]) == Apply(y, e)
  {
    assert [e][1..] == [];
  }

  // ---- the host after a rejection ----

  lemma {:induction false} StoppedStays(y: System, es: seq<Event>)
    requires Legal(y, es) && !y.host.feeding
    ensures !Exec(y, es).host.feeding && Exec(y, es).host.off == y.host.off
    ensures forall e :: e in es ==> e != Issue && e != SendFinish
    decreases |es|
  {
    if es != [] {
      assert es[0] != Issue && es[0] != SendFinish;
      StoppedStays(Apply(y, es[0]), es[1..]);
      assert forall e :: e in es <==> e == es[0] || e in es[1..];
    }
  }

  /** A rejected or timed-out batch ends the feeding for good: the end of input is sent at once, if
      it was not sent before, and never again, and no further slice is cut. */
  lemma RejectionEndsFeeding(y: System, e: Event, es: seq<Event>)
    requires (e.ReceiveNack? || e.BatchTimeout?) && Enabled(y, e) && Legal(Apply(y, e), es)
    ensures Apply(y, e).channel == y.channel + (if y.host.feeding then [Finish] else [])
    ensures Apply(y, e).host.off == y.host.off && !Exec(Apply(y, e), es).host.feeding
    ensures forall d :: d in es ==> d != Issue && d != SendFinish
  {
    StoppedStays(Apply(y, e), es);
  }

  /** An arriving batch is rejected exactly if its session is gone or has failed; a rejection or an
      acknowledgement goes to the host, and a parked batch is answered later. */
  lemma ArrivalAnswered(y: System)
    requires Waits(y.web) && y.channel != [] && y.channel[0].Batch?
    ensures var z := Apply(y, Arrive);
            && (z.nacks == y.nacks + 1 <==> y.ended || y.web.session.error.Some?)
            && (z.acks == y.acks + 1 <==>
                  !y.ended && y.web.session.error.None? && (y.web.session.done || |y.web.session.queue| < 2))
            && y.acks + y.nacks <= z.acks + z.nacks <= y.acks + y.nacks + 1
  {
    BatchEffect(y.web, y.channel[0].id, y.channel[0].chunk);
  }

  // ---- the main results: progress of every error-free run ----

  /** Slices still to be cut from the file. */
  function Remaining(total: nat, off: nat): nat
    decreases total - off
  {
    if off >= total then 0 else 1 + Remaining(total, off + CHUNK_BYTES)
  }

  function Weight(ms: seq<Message>): nat {
    if ms == [] then 0 else (if ms[0].Batch? then 9 else 3) + Weight(ms[1..])
  }

  function PullRank(p: PullState): nat {
    match p
    case Woken => 3
    case Idle => 2
    case Parked => 1
    case _ => 0
  }

  /** A bound on the number of error-free events that can still happen. */
  function Fuel(y: System): nat {
    10 * Remaining(|y.file|, y.host.off) + Weight(y.channel) + 5 * |y.web.session.queue|
    + |y.web.session.drainWaiters| + 2 * |y.web.woken| + y.acks
    + (if y.host.feeding then 4 else 0) + PullRank(y.web.pull)
  }

  lemma {:induction false} WeightSnoc(ms: seq<Message>, m: Message)
    ensures Weight(ms + [m]) == Weight(ms) + (if m.Batch? then 9 else 3)
  {
    if ms == [] {
      assert ms + [m] == [m] && [m][1..] == [];
    } else {
      assert (ms + [m])[1..] == ms[1..] + [m];
      WeightSnoc(ms[1..], m);
    }
  }

  lemma PullBurns(y: System)
    requires Inv(y) && !y.faulted && (y.web.pull.Idle? || y.web.pull.Woken?)
    ensures Fuel(y.(web := RunPull(y.web))) < Fuel(y)
  {
  }

  lemma FinishBurns(y: System)
    requires Inv(y) && !y.ended && y.channel != [] && y.channel[0].Finish?
    ensures Fuel(Apply(y, Arrive)) < Fuel(y)
  {
  }

  lemma BatchBurns(y: System)
    requires Inv(y) && !y.ended && y.web.session.error.None? && y.channel != [] && y.channel[0].Batch?
    ensures Fuel(Apply(y, Arrive)) < Fuel(y)
  {
    var (v, o) := Take(y.web, y.channel[0].id, y.channel[0].chunk);
    BatchEffect(y.web, y.channel[0].id, y.channel[0].chunk);
    assert Apply(y, Arrive) == Answer(y.(channel := y.channel[1..], web := v), o);
    assert |v.session.queue| == |y.web.session.queue| + 1;
  }

  lemma StepBurns(y: System, e: Event)
    requires Inv(y) && !y.faulted && ErrorFree(e) && Enabled(y, e)
    ensures Fuel(Apply(y, e)) < Fuel(y)
  {
    match e
    case Issue => WeightSnoc(y.channel, Batch(y.host.nextId, Slice(y.file, y.host.off)));
    case SendFinish => WeightSnoc(y.channel, Finish);
    case Arrive => if y.channel[0].Finish? { FinishBurns(y); } else { BatchBurns(y); }
    case StartPull => PullBurns(y);
    case ResumePull => PullBurns(y);
    case ResumeBatch(i) => RecheckEffect(y.web, i, true);
    case ReceiveAck =>
  }

  lemma {:induction false} RunBurns(y: System, es: seq<Event>)
    requires Inv(y) && !y.faulted && Legal(y, es) && forall e :: e in es ==> ErrorFree(e)
    ensures |es| + Fuel(Exec(y, es)) <= Fuel(y)
    decreases |es|
  {
    if es != [] {
      StepKeeps(y, es[0]);
      StepBurns(y, es[0]);
      RunBurns(Apply(y, es[0]), es[1..]);
    }
  }

  lemma {:induction false} RemainingIsCeiling(total: nat, off: nat)
    ensures off < total ==>
              CHUNK_BYTES * (Remaining(total, off) - 1) < total - off <= CHUNK_BYTES * Remaining(total, off)
    ensures off >= total ==> Remaining(total, off) == 0
    decreases total - off
  {
    if off < total {
      RemainingIsCeiling(total, off + CHUNK_BYTES);
    }
  }

  /** The feed loop's slicing: consecutive, none empty, all full but the last, and nothing of
      the file missing. */
  method CutIntoSlices(file: Bytes) returns (slices: seq<Bytes>)
    ensures Concat(slices) == file && |slices| == Remaining(|file|, 0)
    ensures forall i :: 0 <= i < |slices| ==> 0 < |slices[i]| <= CHUNK_BYTES
    ensures forall i :: 0 <= i < |slices| - 1 ==> |slices[i]| == CHUNK_BYTES
  {
    slices := [];
    var off := 0;
    while off < |file|
      invariant Concat(slices) == file[..Min(off, |file|)]
      invariant |slices| + Remaining(|file|, off) == Remaining(|file|, 0)
      invariant forall i :: 0 <= i < |slices| ==> 0 < |slices[i]| <= CHUNK_BYTES
      invariant off <= |file| ==> forall i :: 0 <= i < |slices| ==> |slices[i]| == CHUNK_BYTES
      invariant forall i :: 0 <= i < |slices| - 1 ==> |slices[i]| == CHUNK_BYTES
    {
      ConcatSnoc(slices, Slice(file, off));
      slices := slices + [Slice(file, off)];
      off := off + CHUNK_BYTES;
    }
  }

  /** The events by which the host, the bridge and the WebView get on by themselves. */
  predicate Progress(e: Event) {
    ErrorFree(e) || e.ReceiveNack?
  }

  lemma StuckIsFinished(y: System)
    requires Inv(y) && !y.ended && !y.cancelled
    requires forall e :: Progress(e) ==> !Enabled(y, e)
    ensures y.web.pull.Closed? && !y.host.feeding && y.channel == [] && Owed(y.web) == 0 && y.acks == 0 && y.nacks == 0
  {
    assert !Enabled(y, Arrive) && !Enabled(y, StartPull) && !Enabled(y, ResumePull);
    assert !Enabled(y, ReceiveAck) && !Enabled(y, ReceiveNack);
    assert !Enabled(y, ResumeBatch(0)) && !Enabled(y, Issue) && !Enabled(y, SendFinish);
  }

  /** No deadlock before `fileOpEnd`, in failing runs too: if nothing can happen by itself any
      more, the stream has been closed, the host has stopped, and nobody is parked. */
  lemma OnlyFinishedStops(file: Bytes, es: seq<Event>)
    requires Legal(Init(file), es)
    requires !After(file, es).ended && !After(file, es).cancelled
    requires forall e :: Progress(e) ==> !Enabled(After(file, es), e)
    ensures var y := After(file, es);
            y.web.pull.Closed? && !y.host.feeding && y.channel == [] && Owed(y.web) == 0
  {
    Reachable(file, es);
    StuckIsFinished(After(file, es));
  }

  /** A failed session parks nobody: neither the pull nor a batch. */
  lemma FailureParksNobody(file: Bytes, es: seq<Event>)
    requires Legal(Init(file), es)
    ensures var w := After(file, es).web;
            w.session.error.Some? ==> !w.pull.Parked? && w.session.waiters == [] && w.session.drainWaiters == []
  {
    Reachable(file, es);
  }

  /** Every error-free run is short, and one that cannot be continued has handed the whole
      file to the crypto stream, closed it, and answered every batch: ten events for each
      slice of the file and six more. */
  lemma ErrorFreeRunsFinish(file: Bytes, es: seq<Event>)
    requires Legal(Init(file), es) && forall e :: e in es ==> ErrorFree(e)
    ensures |es| <= 10 * Remaining(|file|, 0) + 6
    ensures (forall e :: ErrorFree(e) ==> !Enabled(After(file, es), e)) ==>
              var y := After(file, es);
              y.web.pull.Closed? && y.web.delivered == file && !y.host.feeding && Owed(y.web) == 0
  {
    RunBurns(Init(file), es);
    Reachable(file, es);
    StaysClean(Init(file), es);
    if forall e :: ErrorFree(e) ==> !Enabled(After(file, es), e) {
      StuckIsFinished(After(file, es));
      ClosedMeansWholeFile(file, es);
    }
  }

  // ---- where liveness stops ----

  /** The output was cancelled, the session is deleted, and no pull is about to run. */
  predicate Stranded(y: System) {
    y.cancelled && y.ended && !y.web.pull.Woken?
  }

  lemma StepStrands(y: System, e: Event)
    requires Stranded(y) && Enabled(y, e)
    ensures Stranded(Apply(y, e))
    ensures y.web.session.drainWaiters <= Apply(y, e).web.session.drainWaiters
  {
  }

  lemma {:induction false} RunStrands(y: System, es: seq<Event>)
    requires Stranded(y) && Legal(y, es)
    ensures y.web.session.drainWaiters <= Exec(y, es).web.session.drainWaiters
    decreases |es|
  {
    if es != [] {
      StepStrands(y, es[0]);
      RunStrands(Apply(y, es[0]), es[1..]);
    }
  }

  /** Once the session is deleted, its parked batches can still be released exactly if a pull is
      about to run or the output was not cancelled. */
  lemma EndStrandsParkedBatches(y: System)
    requires Inv(y) && y.ended && y.web.session.drainWaiters != []
    ensures (exists es :: Legal(y, es) && Exec(y, es).web.session.drainWaiters == []) <==> !Stranded(y)
  {
    if Stranded(y) {
      forall es | Legal(y, es)
        ensures Exec(y, es).web.session.drainWaiters != []
      {
        RunStrands(y, es);
      }
    } else {
      var e := if y.web.pull.Woken? then ResumePull else StartPull;
      PullEffect(y.web);
      OneEvent(y, e);
      assert Exec(y, [e]).web == RunPull(y.web);
    }
  }
}
