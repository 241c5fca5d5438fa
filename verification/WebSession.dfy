/** The WebView side of a file session: the session, its woken batches and the crypto stream's
    one pull. */
module WebSession {
  import opened Common
  import opened FileSession

  datatype PullState = Idle | Parked | Woken | Closed | Errored

  /** The session, the batches released from their wait and not resumed yet, the stream's pull,
      and the bytes handed to the crypto stream so far. */
  datatype Web = Web(session: Session, woken: seq<Waiter>, pull: PullState, delivered: Bytes)

  // ---- segments ----

  /** Woken pulls become runnable; there is only one pull to wake. */
  function WakePull(p: PullState, tokens: seq<nat>): PullState {
    if tokens != [] then Woken else p
  }

  function RunPull(w: Web): Web {
    var r := PullSegment(w.session, 0);
    match r.outcome
    case Delivered(chunk) => Web(r.session, w.woken + r.wokenBatches, Idle, w.delivered + chunk)
    case StreamClosed => w.(pull := Closed)
    case StreamErrored(_) => w.(pull := Errored)
    case PullParked => w.(session := r.session, pull := Parked)
  }

  function Absorb<O>(w: Web, r: Segment<O>): Web {
    Web(r.session, w.woken + r.wokenBatches, WakePull(w.pull, r.wokenPulls), w.delivered)
  }

  /** A batch arrives at a listed session. */
  function TakeBatch(w: Web, id: nat, chunks: seq<Option<Bytes>>, drainBelow: Option<int>): (Web, BatchOutcome) {
    var r := BatchSegment(w.session, id, chunks, HardCap(drainBelow));
    (Absorb(w, r), r.outcome)
  }

  /** A released batch looks at the queue again. */
  function Recheck(w: Web, i: nat, listed: bool): (Web, BatchOutcome)
    requires i < |w.woken|
  {
    var r := BatchCheck(w.session, w.woken[i].id, w.woken[i].cap, listed);
    (Absorb(w.(woken := w.woken[..i] + w.woken[i + 1..]), r), r.outcome)
  }

  /** Who waits, and why: a parked pull faces an empty open session, a parked batch a queue
      longer than its own cap; an error comes with `done`, and after it, or once the stream is
      closed, no batch is parked. */
  ghost predicate Waiting(w: Web) {
    && w.session.waiters == (if w.pull.Parked? then [0] else [])
    && (w.pull.Parked? ==> w.session.queue == [] && !w.session.done && w.session.error.None?)
    && (forall i :: 0 <= i < |w.session.drainWaiters| ==> |w.session.queue| > w.session.drainWaiters[i].cap)
    && (w.session.error.Some? ==> w.session.done && w.session.drainWaiters == [])
    && (w.pull.Closed? ==> w.session.done && w.session.drainWaiters == [])
    && !w.pull.Errored?
  }
}
