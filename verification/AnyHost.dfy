/** A file session under any host: whatever batches, caps and chunks arrive, and in whatever
    order the handlers and the crypto stream take turns. */
module AnyHost {
  import opened Common
  import opened FileSession
  import opened WebSession
  import S = StreamProtocol

  // ---- any sequence of calls ----

  datatype Call =
    | SendBatch(id: nat, chunks: seq<Option<Bytes>>, drainBelow: Option<int>)
    | SendChunk(chunk: Option<Bytes>)
    | FinishInput
    | StartPull
    | ResumePull
    | ResumeBatch(i: nat)
    | Fail(err: string)
    | CancelReader
    | End

  /** `listed` until the session is deleted; a cancelled output starts no further pull. */
  datatype State = State(web: Web, listed: bool, cancelled: bool)

  const BEGUN := State(Web(NEW_SESSION, [], Idle, []), true, false)

  predicate Enabled(s: State, c: Call) {
    match c
    case StartPull => s.web.pull.Idle? && !s.cancelled
    case ResumePull => s.web.pull.Woken?
    case ResumeBatch(i) => i < |s.web.woken|
    case _ => true
  }

  /** A call for a session that is not listed is rejected and touches nothing. */
  function Apply(s: State, c: Call): State
    requires Enabled(s, c)
  {
    match c
    case SendBatch(id, chunks, drainBelow) =>
      if s.listed then s.(web := TakeBatch(s.web, id, chunks, drainBelow).0) else s
    case SendChunk(chunk) => if s.listed then s.(web := Absorb(s.web, ChunkSegment(s.web.session, chunk))) else s
    case FinishInput => if s.listed then s.(web := Absorb(s.web, FinishSegment(s.web.session))) else s
    case StartPull => s.(web := RunPull(s.web))
    case ResumePull => s.(web := RunPull(s.web))
    case ResumeBatch(i) => s.(web := Recheck(s.web, i, s.listed).0)
    case Fail(err) => if s.listed then s.(web := Absorb(s.web, FailSegment(s.web.session, err))) else s
    case CancelReader => s.(cancelled := true)
    case End => if s.listed then State(Absorb(s.web, FinishSegment(s.web.session)), false, s.cancelled) else s
  }

  ghost predicate Legal(s: State, cs: seq<Call>)
    decreases |cs|
  {
    cs == [] || (Enabled(s, cs[0]) && Legal(Apply(s, cs[0]), cs[1..]))
  }

  function Run(s: State, cs: seq<Call>): State
    requires Legal(s, cs)
    decreases |cs|
  {
    if cs == [] then s else Run(Apply(s, cs[0]), cs[1..])
  }

  lemma PushNobodyParked(s: Session, chunks: seq<Bytes>)
    requires s.waiters == []
    ensures PushSegment(s, chunks) == Segment(s.(queue := s.queue + chunks), (), [], [])
  {
  }

  lemma PushOneParked(s: Session, chunks: seq<Bytes>, token: nat)
    requires s.waiters == [token]
    ensures PushSegment(s, chunks)
         == if chunks == [] then Segment(s, (), [], [])
            else Segment(s.(queue := s.queue + chunks, waiters := []), (), [token], [])
  {
    assert s.queue + [] == s.queue;
  }

  /** Pushing leaves nobody parked in front of a chunk. */
  lemma PushWakes(w: Web, chunks: seq<Bytes>)
    requires Waiting(w)
    ensures Waiting(Absorb(w, PushSegment(w.session, chunks)))
  {
    if w.pull.Parked? {
      PushOneParked(w.session, chunks, 0);
    } else {
      PushNobodyParked(w.session, chunks);
    }
  }

  lemma CheckKeepsWaiting(w: Web, id: nat, cap: nat)
    requires Waiting(w) && (w.pull.Parked? ==> w.session.queue == [])
    ensures Waiting(Absorb(w, BatchCheck(w.session, id, cap, true)))
  {
  }

  lemma FailKeepsWaiting(w: Web, err: string)
    requires Waiting(w)
    ensures Waiting(Absorb(w, FailSegment(w.session, err)))
  {
  }

  /** Absorbing two segments in a row is absorbing what they do together. */
  lemma AbsorbTwice<O, Q, R>(w: Web, first: Segment<O>, second: Segment<Q>, both: Segment<R>)
    requires both.session == second.session
    requires both.wokenPulls == first.wokenPulls + second.wokenPulls
    requires both.wokenBatches == second.wokenBatches && first.wokenBatches == []
    ensures Absorb(w, both) == Absorb(Absorb(w, first), second)
  {
    assert w.woken + [] == w.woken;
  }

  lemma BatchKeepsWaiting(w: Web, id: nat, chunks: seq<Option<Bytes>>, drainBelow: Option<int>)
    requires Waiting(w)
    ensures Waiting(TakeBatch(w, id, chunks, drainBelow).0)
  {
    var good, cap := Decodable(chunks), HardCap(drainBelow);
    var p, both := PushSegment(w.session, good), BatchSegment(w.session, id, chunks, HardCap(drainBelow));
    PushWakes(w, good);
    if |good| < |chunks| {
      FailKeepsWaiting(Absorb(w, p), "decode");
      AbsorbTwice(w, p, FailSegment(p.session, "decode"), both);
    } else {
      CheckKeepsWaiting(Absorb(w, p), id, cap);
      AbsorbTwice(w, p, BatchCheck(p.session, id, cap, true), both);
    }
  }

  lemma PullKeepsWaiting(w: Web)
    requires Waiting(w) && (w.pull.Idle? || w.pull.Woken?)
    ensures Waiting(RunPull(w))
  {
    if w.session.drainWaiters != [] {
      assert |w.session.queue| > w.session.drainWaiters[0].cap;
    }
  }

  lemma CallKeepsWaiting(s: State, c: Call)
    requires Waiting(s.web) && Enabled(s, c)
    ensures Waiting(Apply(s, c).web)
  {
    if c.SendBatch? {
      BatchKeepsWaiting(s.web, c.id, c.chunks, c.drainBelow);
    } else if c.StartPull? || c.ResumePull? {
      PullKeepsWaiting(s.web);
    }
  }

  lemma {:induction false} RunKeepsWaiting(s: State, cs: seq<Call>)
    requires Waiting(s.web) && Legal(s, cs)
    ensures Waiting(Run(s, cs).web)
    decreases |cs|
  {
    if cs != [] {
      CallKeepsWaiting(s, cs[0]);
      RunKeepsWaiting(Apply(s, cs[0]), cs[1..]);
    }
  }

  /** Whatever a host sends, in batches of any size with any caps, singly, undecodable or too
      late: a parked pull faces an empty open session, a parked batch a queue longer than its own
      cap, the two are never parked together, and unless the output was cancelled the pull that
      will release a parked batch is not parked but about to run. */
  lemma NobodyWaitsForNothing(cs: seq<Call>)
    requires Legal(BEGUN, cs)
    ensures var s := Run(BEGUN, cs);
            && (s.web.pull.Parked? <==> s.web.session.waiters != [])
            && (s.web.pull.Parked? ==> s.web.session.queue == [] && !s.web.session.done && s.web.session.error.None?)
            && (forall i :: 0 <= i < |s.web.session.drainWaiters| ==>
                  |s.web.session.queue| > s.web.session.drainWaiters[i].cap)
            && (s.web.session.drainWaiters != [] ==> s.web.pull.Idle? || s.web.pull.Woken?)
            && (s.web.session.drainWaiters != [] && !s.cancelled ==> Enabled(s, StartPull) || Enabled(s, ResumePull))
  {
    RunKeepsWaiting(BEGUN, cs);
    var s := Run(BEGUN, cs);
    if s.web.session.drainWaiters != [] {
      assert |s.web.session.queue| > s.web.session.drainWaiters[0].cap;
    }
  }

  /** Under any host, what failed a session first is what it keeps reporting. */
  lemma {:induction false} FirstErrorStays(s: State, cs: seq<Call>)
    requires Legal(s, cs) && s.web.session.error.Some?
    ensures Run(s, cs).web.session.error == s.web.session.error
    decreases |cs|
  {
    if cs != [] {
      FirstErrorStays(Apply(s, cs[0]), cs[1..]);
    }
  }

  // ---- the app's own host ----

  function ViewOf(y: S.System): State {
    State(y.web, !y.ended, y.cancelled)
  }

  /** What an event of the app's protocol asks of the session. */
  function CallOf(y: S.System, e: S.Event): Option<Call>
    requires S.Enabled(y, e)
  {
    match e
    case Arrive =>
      (match y.channel[0]
       case Batch(id, chunk) => Some(SendBatch(id, [Some(chunk)], Some(2)))
       case Finish => Some(FinishInput))
    case StartPull => Some(StartPull)
    case ResumePull => Some(ResumePull)
    case ResumeBatch(i) => Some(ResumeBatch(i))
    case OperationFails(err) => Some(Fail(err))
    case CancelReader => Some(CancelReader)
    case End => Some(End)
    case _ => None
  }

  lemma AnswerUnseen(y: S.System, o: BatchOutcome)
    ensures ViewOf(S.Answer(y, o)) == ViewOf(y)
  {
  }

  lemma ArrivalIsCall(y: S.System)
    requires y.channel != []
    ensures ViewOf(S.Apply(y, S.Arrive)) == Apply(ViewOf(y), CallOf(y, S.Arrive).value)
  {
    var rest := y.(channel := y.channel[1..]);
    match y.channel[0]
    case Finish =>
    case Batch(id, chunk) =>
      if y.ended {
        AnswerUnseen(rest, BatchRejected);
      } else {
        var (w, o) := S.Take(y.web, id, chunk);
        AnswerUnseen(rest.(web := w), o);
      }
  }

  lemma TurnIsCall(y: S.System, e: S.Event)
    requires S.Enabled(y, e) && (e.StartPull? || e.ResumePull? || e.ResumeBatch?)
    ensures Enabled(ViewOf(y), CallOf(y, e).value) && ViewOf(S.Apply(y, e)) == Apply(ViewOf(y), CallOf(y, e).value)
  {
    if e.ResumeBatch? {
      var (w, o) := Recheck(y.web, e.i, !y.ended);
      AnswerUnseen(y.(web := w), o);
    }
  }

  lemma EndingIsCall(y: S.System, e: S.Event)
    requires S.Enabled(y, e) && (e.OperationFails? || e.CancelReader? || e.End?)
    ensures ViewOf(S.Apply(y, e)) == Apply(ViewOf(y), CallOf(y, e).value)
  {
  }

  /** The app's own host is one of the hosts: each event of its protocol is one allowed call on the
      session, or does not touch it. */
  lemma AppHostIsAHost(y: S.System, e: S.Event)
    requires S.Enabled(y, e)
    ensures match CallOf(y, e)
            case Some(c) => Enabled(ViewOf(y), c) && ViewOf(S.Apply(y, e)) == Apply(ViewOf(y), c)
            case None => ViewOf(S.Apply(y, e)) == ViewOf(y)
  {
    match e {
      case Arrive => ArrivalIsCall(y);
      case StartPull => TurnIsCall(y, e);
      case ResumePull => TurnIsCall(y, e);
      case ResumeBatch(_) => TurnIsCall(y, e);
      case OperationFails(_) => EndingIsCall(y, e);
      case CancelReader => EndingIsCall(y, e);
      case End => EndingIsCall(y, e);
      case _ =>
    }
  }

  /** Deleting the session ends its input: a parked pull is woken, and finds it done. */
  lemma EndReleasesPull(s: State)
    requires Waiting(s.web) && s.listed
    ensures var t := Apply(s, End);
            && !t.listed && t.web.session.done && !t.web.pull.Parked?
            && (s.web.pull.Parked? ==> t.web.pull.Woken? && RunPull(t.web).pull.Closed?)
  {
  }

  /** A chunk that comes singly reaches a listed session as it is answered, and no other. */
  lemma ChunkReaches(s: State, chunk: Option<Bytes>)
    ensures var t := Apply(s, SendChunk(chunk));
            t.web.session == if s.listed then ChunkSegment(s.web.session, chunk).session else s.web.session
  {
  }

  // ---- bounded buffering ----

  /** What so many unanswered batches of at most `size` chunks may add to the queue. */
  function Room(size: nat, batches: nat): nat {
    if batches == 0 then 0 else size + Room(size, batches - 1)
  }

  lemma {:induction false} RoomIsProduct(size: nat, batches: nat)
    ensures Room(size, batches) == size * batches
  {
    if batches > 0 {
      RoomIsProduct(size, batches - 1);
      assert size + size * (batches - 1) == size * batches;
    }
  }

  function Unanswered(w: Web): nat {
    |w.session.drainWaiters| + |w.woken|
  }

  /** The host asks for caps of at most `cap` and sends at most `size` chunks at a time. */
  predicate Modest(c: Call, cap: nat, size: nat) {
    c.SendBatch? ==> HardCap(c.drainBelow) <= cap && |c.chunks| <= size
  }

  /** Every batch waits for a modest cap, and an open queue holds no more than `cap`, or the four
      that single chunks may make it, plus what is unanswered. */
  ghost predicate Buffered(w: Web, cap: nat, size: nat) {
    && (forall i :: 0 <= i < |w.session.drainWaiters| ==> w.session.drainWaiters[i].cap <= cap)
    && (forall i :: 0 <= i < |w.woken| ==> w.woken[i].cap <= cap)
    && (w.session.error.Some? ==> w.session.done)
    && (!w.session.done ==> |w.session.queue| <= Limit(cap) + Room(size, Unanswered(w)))
  }

  function Limit(cap: nat): nat {
    if cap < 4 then 4 else cap
  }

  lemma PullStaysBuffered(w: Web, cap: nat, size: nat)
    requires Buffered(w, cap, size)
    ensures Buffered(RunPull(w), cap, size)
  {
    var v := RunPull(w);
    assert Unanswered(v) == Unanswered(w);
  }

  lemma CheckStaysBuffered(w: Web, id: nat, cap: nat, size: nat, own: nat, listed: bool)
    requires Buffered(w.(session := w.session.(done := true)), cap, size) && own <= cap
    requires w.session.error.Some? ==> w.session.done
    requires !w.session.done ==> |w.session.queue| <= Limit(cap) + Room(size, Unanswered(w) + 1)
    ensures Buffered(Absorb(w, BatchCheck(w.session, id, own, listed)), cap, size)
  {
  }

  lemma {:induction false} RoomGrows(size: nat, batches: nat)
    ensures Room(size, batches + 1) == Room(size, batches) + size
  {
  }

  lemma BatchStaysBuffered(w: Web, id: nat, chunks: seq<Option<Bytes>>, drainBelow: Option<int>, cap: nat, size: nat)
    requires Buffered(w, cap, size) && HardCap(drainBelow) <= cap && |chunks| <= size
    ensures Buffered(TakeBatch(w, id, chunks, drainBelow).0, cap, size)
  {
    var good, own := Decodable(chunks), HardCap(drainBelow);
    var p, both := PushSegment(w.session, good), BatchSegment(w.session, id, chunks, HardCap(drainBelow));
    var v := Absorb(w, p);
    RoomGrows(size, Unanswered(w));
    assert v.session.drainWaiters == w.session.drainWaiters && v.woken == w.woken;
    if |good| < |chunks| {
      AbsorbTwice(w, p, FailSegment(p.session, "decode"), both);
    } else {
      CheckStaysBuffered(v, id, cap, size, own, true);
      AbsorbTwice(w, p, BatchCheck(p.session, id, own, true), both);
    }
  }

  lemma RecheckStaysBuffered(w: Web, i: nat, listed: bool, cap: nat, size: nat)
    requires Buffered(w, cap, size) && i < |w.woken|
    ensures Buffered(Recheck(w, i, listed).0, cap, size)
  {
    var v := w.(woken := w.woken[..i] + w.woken[i + 1..]);
    assert Unanswered(v) + 1 == Unanswered(w);
    CheckStaysBuffered(v, w.woken[i].id, cap, size, w.woken[i].cap, listed);
  }

  lemma CallStaysBuffered(s: State, c: Call, cap: nat, size: nat)
    requires Buffered(s.web, cap, size) && Enabled(s, c) && Modest(c, cap, size)
    ensures Buffered(Apply(s, c).web, cap, size)
  {
    match c {
      case SendBatch(id, chunks, drainBelow) => BatchStaysBuffered(s.web, id, chunks, drainBelow, cap, size);
      case StartPull => PullStaysBuffered(s.web, cap, size);
      case ResumePull => PullStaysBuffered(s.web, cap, size);
      case ResumeBatch(i) => RecheckStaysBuffered(s.web, i, s.listed, cap, size);
      case _ =>
    }
  }

  lemma {:induction false} RunStaysBuffered(s: State, cs: seq<Call>, cap: nat, size: nat)
    requires Buffered(s.web, cap, size) && Legal(s, cs) && forall c :: c in cs ==> Modest(c, cap, size)
    ensures Buffered(Run(s, cs).web, cap, size)
    decreases |cs|
  {
    if cs != [] {
      assert cs[0] in cs;
      CallStaysBuffered(s, cs[0], cap, size);
      RunStaysBuffered(Apply(s, cs[0]), cs[1..], cap, size);
    }
  }

  /** Under any host whose batches hold at most `size` chunks and ask for caps of at most `cap`: an
      open session queues at most `cap` chunks, or four if that is more, and those of the batches
      it has not answered. */
  lemma BufferBoundedByCaps(cs: seq<Call>, cap: nat, size: nat)
    requires Legal(BEGUN, cs) && forall c :: c in cs ==> Modest(c, cap, size)
    ensures var w := Run(BEGUN, cs).web;
            !w.session.done ==> |w.session.queue| <= Limit(cap) + size * Unanswered(w)
  {
    RunStaysBuffered(BEGUN, cs, cap, size);
    RoomIsProduct(size, Unanswered(Run(BEGUN, cs).web));
  }
}
