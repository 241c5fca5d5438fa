/** Which files can leave a chunk batch parked for good: exactly those of more than three slices. */
module Stranding {
  import opened Common
  import opened FileSession
  import opened WebSession
  import opened StreamProtocol

  /** The run strands a parked batch. */
  ghost predicate Strands(file: Bytes, es: seq<Event>) {
    Legal(Init(file), es) && Stranded(After(file, es)) && After(file, es).web.session.drainWaiters != []
  }

  // ---- three slices strand nobody ----

  ghost predicate NonEmpty(parts: seq<Bytes>) {
    forall i :: 0 <= i < |parts| ==> parts[i] != []
  }

  /** The slices handed over, queued and on the bridge were all issued, each from a place inside
      the file; and once a pull has started, the next one is only idle after a delivery. */
  ghost predicate Counted(y: System) {
    && NonEmpty(y.web.session.queue) && NonEmpty(Chunks(y.channel))
    && (if y.web.delivered != [] then 1 else 0) + |y.web.session.queue| + |Chunks(y.channel)| <= y.host.nextId
    && y.host.off == CHUNK_BYTES * y.host.nextId
    && (y.host.nextId > 0 ==> CHUNK_BYTES * (y.host.nextId - 1) < |y.file|)
    && (y.cancelled ==> y.started)
    && (y.started && y.web.pull.Idle? ==> y.web.delivered != [])
  }

  lemma IssueCounts(y: System)
    requires Counted(y) && Enabled(y, Issue)
    ensures Counted(Apply(y, Issue))
  {
    ChunksSnoc(y.channel, Batch(y.host.nextId, Slice(y.file, y.host.off)));
  }

  lemma PullCounts(y: System, e: Event)
    requires Waits(y.web) && Counted(y) && Enabled(y, e) && (e.StartPull? || e.ResumePull?)
    ensures Counted(Apply(y, e))
  {
    PullEffect(y.web);
    if y.web.session.queue != [] {
      assert Apply(y, e).web.delivered == y.web.delivered + y.web.session.queue[0];
      assert y.web.session.queue[0] != [];
    }
  }

  lemma AnswerCounts(y: System, o: BatchOutcome)
    requires Counted(y)
    ensures Counted(Answer(y, o))
  {
  }

  lemma ChannelCounts(y: System)
    requires Counted(y) && y.channel != [] && y.channel[0].Batch?
    ensures Counted(y.(channel := y.channel[1..]))
    ensures y.channel[0].chunk != [] && |Chunks(y.channel)| == 1 + |Chunks(y.channel[1..])|
  {
    var chunks, rest := Chunks(y.channel), Chunks(y.channel[1..]);
    assert chunks == [y.channel[0].chunk] + rest;
    assert chunks[0] == y.channel[0].chunk && forall i :: 0 <= i < |rest| ==> rest[i] == chunks[i + 1];
  }

  /** One more slice is queued while one fewer is on the bridge. */
  lemma QueueCounts(y: System, v: Web, chunk: Bytes)
    requires Counted(y) && chunk != [] && v.session.queue == y.web.session.queue + [chunk]
    requires v.delivered == y.web.delivered && (v.pull.Idle? ==> y.web.pull.Idle?)
    requires (if y.web.delivered != [] then 1 else 0) + |y.web.session.queue| + 1 + |Chunks(y.channel)| <= y.host.nextId
    ensures Counted(y.(web := v))
  {
  }

  lemma BatchCounts(y: System)
    requires Waits(y.web) && Counted(y) && y.channel != [] && y.channel[0].Batch?
    ensures Counted(Apply(y, Arrive))
  {
    var z := y.(channel := y.channel[1..]);
    ChannelCounts(y);
    if y.ended {
      AnswerCounts(z, BatchRejected);
    } else {
      var (v, o) := Take(y.web, y.channel[0].id, y.channel[0].chunk);
      BatchEffect(y.web, y.channel[0].id, y.channel[0].chunk);
      QueueCounts(z, v, y.channel[0].chunk);
      AnswerCounts(z.(web := v), o);
    }
  }

  lemma FinishCounts(y: System)
    requires Counted(y) && y.channel != [] && y.channel[0].Finish?
    ensures Counted(Apply(y, Arrive))
  {
  }

  lemma StopCounts(y: System)
    requires Counted(y)
    ensures Counted(StopFeeding(y))
  {
    ChunksSnoc(y.channel, Finish);
  }

  lemma RecheckCounts(y: System, i: nat)
    requires Counted(y) && Enabled(y, ResumeBatch(i))
    ensures Counted(Apply(y, ResumeBatch(i)))
  {
    var (v, o) := Recheck(y.web, i, !y.ended);
    AnswerCounts(y.(web := v), o);
  }

  lemma OtherCounts(y: System, e: Event)
    requires Counted(y) && Enabled(y, e) && (e.OperationFails? || e.CancelReader? || e.End? || e.ReceiveAck?)
    ensures Counted(Apply(y, e))
  {
  }

  lemma HostCounts(y: System, e: Event)
    requires Counted(y) && Enabled(y, e) && (e.SendFinish? || e.ReceiveNack? || e.BatchTimeout?)
    ensures Counted(Apply(y, e))
  {
    match e {
      case SendFinish => StopCounts(y);
      case ReceiveNack => StopCounts(y.(nacks := y.nacks - 1, host := Settled(y.host), faulted := true));
      case BatchTimeout => StopCounts(y.(host := Settled(y.host), faulted := true));
    }
  }

  lemma StepCounts(y: System, e: Event)
    requires Waits(y.web) && Counted(y) && Enabled(y, e)
    ensures Counted(Apply(y, e))
  {
    match e {
      case Issue => IssueCounts(y);
      case SendFinish => HostCounts(y, e);
      case Arrive => if y.channel[0].Finish? { FinishCounts(y); } else { BatchCounts(y); }
      case StartPull => PullCounts(y, e);
      case ResumePull => PullCounts(y, e);
      case ReceiveNack => HostCounts(y, e);
      case BatchTimeout => HostCounts(y, e);
      case ResumeBatch(i) => RecheckCounts(y, i);
      case _ => OtherCounts(y, e);
    }
  }

  lemma {:induction false} RunCounts(y: System, es: seq<Event>)
    requires Inv(y) && Counted(y) && Legal(y, es)
    ensures Inv(Exec(y, es)) && Counted(Exec(y, es))
    decreases |es|
  {
    if es != [] {
      StepKeeps(y, es[0]);
      StepCounts(y, es[0]);
      RunCounts(Apply(y, es[0]), es[1..]);
    }
  }

  lemma FourIssuedBefore(y: System)
    requires Waits(y.web) && Counted(y) && Stranded(y) && y.web.session.drainWaiters != []
    ensures 3 * CHUNK_BYTES < |y.file|
  {
  }

  lemma StrandedNeedsFour(file: Bytes, es: seq<Event>)
    requires Strands(file, es)
    ensures 3 * CHUNK_BYTES < |file|
  {
    RunCounts(Init(file), es);
    FileStays(Init(file), es);
    FourIssuedBefore(After(file, es));
  }

  // ---- four slices can ----

  /** The events lead from one state to the other. */
  ghost predicate Leads(y: System, es: seq<Event>, z: System) {
    Legal(y, es) && Exec(y, es) == z
  }

  lemma {:induction false} LeadsFurther(y: System, es: seq<Event>, z: System, more: seq<Event>, end: System)
    requires Leads(y, es, z) && Leads(z, more, end)
    ensures Leads(y, es + more, end)
    decreases |es|
  {
    if es == [] {
      assert es + more == more;
    } else {
      assert (es + more)[0] == es[0] && (es + more)[1..] == es[1..] + more;
      LeadsFurther(Apply(y, es[0]), es[1..], z, more, end);
    }
  }

  lemma Two(y: System, d: Event, e: Event)
    requires Enabled(y, d) && Enabled(Apply(y, d), e)
    ensures Leads(y, [d, e], Apply(Apply(y, d), e))
  {
    OneEvent(Apply(y, d), e);
    ThenEvent(y, d, [e]);
    assert [d] + [e] == [d, e];
  }

  /** Four slices are on the bridge, and the stream waits for the first. */
  function FourSent(file: Bytes): System
    requires 3 * CHUNK_BYTES < |file|
  {
    System(file, Host(4 * CHUNK_BYTES, true, 4, 4),
           [Batch(0, Slice(file, 0)), Batch(1, Slice(file, CHUNK_BYTES)),
            Batch(2, Slice(file, 2 * CHUNK_BYTES)), Batch(3, Slice(file, 3 * CHUNK_BYTES))],
           Web(NEW_SESSION.(waiters := [0]), [], Parked, []), 0, 0, true, false, false, false)
  }

  lemma FourIssued(file: Bytes)
    requires 3 * CHUNK_BYTES < |file|
    ensures Leads(Init(file), [StartPull, Issue, Issue, Issue, Issue], FourSent(file))
  {
    var y0 := Apply(Init(file), StartPull);
    assert y0 == Init(file).(web := Web(NEW_SESSION.(waiters := [0]), [], Parked, []), started := true);
    var y1 := Apply(y0, Issue);
    assert y1.channel == [Batch(0, Slice(file, 0))];
    var y2 := Apply(y1, Issue);
    assert y2.channel == [Batch(0, Slice(file, 0)), Batch(1, Slice(file, CHUNK_BYTES))];
    var y3 := Apply(y2, Issue);
    assert y3.channel == [Batch(0, Slice(file, 0)), Batch(1, Slice(file, CHUNK_BYTES)), Batch(2, Slice(file, 2 * CHUNK_BYTES))];
    assert Apply(y3, Issue) == FourSent(file);
    Two(y2, Issue, Issue);
    Two(y0, Issue, Issue);
    OneEvent(Init(file), StartPull);
    LeadsFurther(y0, [Issue, Issue], y2, [Issue, Issue], FourSent(file));
    LeadsFurther(Init(file), [StartPull], y0, [Issue, Issue] + [Issue, Issue], FourSent(file));
    assert [StartPull] + ([Issue, Issue] + [Issue, Issue]) == [StartPull, Issue, Issue, Issue, Issue];
  }

  lemma Arrived(y: System, id: nat, chunk: Bytes)
    requires y.channel != [] && y.channel[0] == Batch(id, chunk) && !y.ended
    requires y.web.session.waiters == [] && !y.web.session.done && y.web.session.error.None?
    ensures var z, s := Apply(y, Arrive), y.web.session;
            var queue := s.queue + [chunk];
            && z.channel == y.channel[1..] && !z.ended && z.started == y.started
            && z.web == y.web.(session := s.(queue := queue,
                                 drainWaiters := if |queue| > DRAIN_BELOW then s.drainWaiters + [Waiter(id, DRAIN_BELOW)]
                                                 else s.drainWaiters))
  {
    assert [Some(chunk)][1..] == [] && Decodable([Some(chunk)]) == [chunk];
  }

  lemma FirstWakes(y: System, id: nat, chunk: Bytes)
    requires y.channel != [] && y.channel[0] == Batch(id, chunk) && !y.ended && y.started
    requires y.web == Web(NEW_SESSION.(waiters := [0]), [], Parked, [])
    ensures Enabled(Apply(y, Arrive), ResumePull)
    ensures var z := Apply(Apply(y, Arrive), ResumePull);
            && Leads(y, [Arrive, ResumePull], z)
            && z.channel == y.channel[1..] && !z.ended && z.started
            && z.web == Web(NEW_SESSION, [], Idle, chunk)
  {
    assert [Some(chunk)][1..] == [] && Decodable([Some(chunk)]) == [chunk];
    var a := Apply(y, Arrive);
    assert a.web == Web(NEW_SESSION.(queue := [chunk]), [], Woken, []);
    Two(y, Arrive, ResumePull);
    assert [chunk][1..] == [] && [] + chunk == chunk;
  }

  lemma TwoQueue(y: System, b: Bytes, c: Bytes, first: Bytes)
    requires |y.channel| >= 2 && y.channel[0] == Batch(1, b) && y.channel[1] == Batch(2, c) && !y.ended && y.started
    requires y.web == Web(NEW_SESSION, [], Idle, first)
    ensures var z := Apply(Apply(y, Arrive), Arrive);
            && Leads(y, [Arrive, Arrive], z)
            && z.channel == y.channel[2..] && !z.ended && z.started
            && z.web == Web(NEW_SESSION.(queue := [b, c]), [], Idle, first)
  {
    Arrived(y, 1, b);
    Arrived(Apply(y, Arrive), 2, c);
    Two(y, Arrive, Arrive);
  }

  lemma LastParks(y: System, d: Bytes)
    requires |y.channel| == 1 && y.channel[0] == Batch(3, d) && !y.ended && y.started
    requires y.web.session.waiters == [] && !y.web.session.done && y.web.session.error.None?
    requires |y.web.session.queue| == 2 && y.web.session.drainWaiters == [] && y.web.pull.Idle?
    ensures Enabled(Apply(y, Arrive), CancelReader) && Enabled(Apply(Apply(y, Arrive), CancelReader), End)
    ensures var z := Apply(Apply(Apply(y, Arrive), CancelReader), End);
            Leads(y, [Arrive, CancelReader, End], z) && Stranded(z)
            && z.web.session.drainWaiters == [Waiter(3, DRAIN_BELOW)]
  {
    Arrived(y, 3, d);
    Two(Apply(y, Arrive), CancelReader, End);
    ThenEvent(y, Arrive, [CancelReader, End]);
    assert [Arrive] + [CancelReader, End] == [Arrive, CancelReader, End];
  }

  lemma FromThree(z: System, b: Bytes, c: Bytes, d: Bytes, first: Bytes) returns (es: seq<Event>, end: System)
    requires z.channel == [Batch(1, b), Batch(2, c), Batch(3, d)] && !z.ended && z.started
    requires z.web == Web(NEW_SESSION, [], Idle, first)
    ensures Leads(z, es, end) && es == [Arrive, Arrive, Arrive, CancelReader, End]
    ensures Stranded(end) && end.web.session.drainWaiters == [Waiter(3, DRAIN_BELOW)]
  {
    TwoQueue(z, b, c, first);
    var q := Apply(Apply(z, Arrive), Arrive);
    LastParks(q, d);
    end := Apply(Apply(Apply(q, Arrive), CancelReader), End);
    es := Joined(z, [Arrive, Arrive], q, [Arrive, CancelReader, End], end);
  }

  lemma Joined(y: System, es: seq<Event>, z: System, more: seq<Event>, end: System) returns (all: seq<Event>)
    requires Leads(y, es, z) && Leads(z, more, end)
    ensures Leads(y, all, end) && all == es + more
  {
    LeadsFurther(y, es, z, more, end);
    all := es + more;
  }

  lemma FromFour(y: System, a: Bytes, b: Bytes, c: Bytes, d: Bytes) returns (es: seq<Event>, end: System)
    requires y.channel == [Batch(0, a), Batch(1, b), Batch(2, c), Batch(3, d)] && !y.ended && y.started
    requires y.web == Web(NEW_SESSION.(waiters := [0]), [], Parked, [])
    ensures Leads(y, es, end) && es == [Arrive, ResumePull, Arrive, Arrive, Arrive, CancelReader, End]
    ensures Stranded(end) && end.web.session.drainWaiters == [Waiter(3, DRAIN_BELOW)]
  {
    FirstWakes(y, 0, a);
    var z := Apply(Apply(y, Arrive), ResumePull);
    var rest;
    rest, end := FromThree(z, b, c, d, a);
    es := Joined(y, [Arrive, ResumePull], z, rest, end);
  }

  lemma LeadsToStranded(file: Bytes, es: seq<Event>, end: System)
    requires Leads(Init(file), es, end) && Stranded(end) && end.web.session.drainWaiters != []
    ensures Strands(file, es) && After(file, es) == end
  {
  }

  /** The stream takes one of four slices, two more wait for it and the fourth batch is parked when
      the output is cancelled: the batch is stranded. */
  lemma FourthBatchStranded(file: Bytes) returns (es: seq<Event>)
    requires 3 * CHUNK_BYTES < |file|
    ensures es == [StartPull, Issue, Issue, Issue, Issue, Arrive, ResumePull, Arrive, Arrive, Arrive, CancelReader, End]
    ensures Strands(file, es) && After(file, es).web.session.drainWaiters == [Waiter(3, DRAIN_BELOW)]
  {
    var y := FourSent(file);
    FourIssued(file);
    var rest, end := FromFour(y, Slice(file, 0), Slice(file, CHUNK_BYTES), Slice(file, 2 * CHUNK_BYTES),
                              Slice(file, 3 * CHUNK_BYTES));
    es := Joined(Init(file), [StartPull, Issue, Issue, Issue, Issue], y, rest, end);
    LeadsToStranded(file, es, end);
  }

  /** Some run on the file strands a parked batch exactly if the file has more than three slices. */
  lemma StrandingPossibleIff(file: Bytes)
    ensures (exists es :: Strands(file, es)) <==> 3 * CHUNK_BYTES < |file|
  {
    forall es | Strands(file, es)
      ensures 3 * CHUNK_BYTES < |file|
    {
      StrandedNeedsFour(file, es);
    }
    if 3 * CHUNK_BYTES < |file| {
      var es := FourthBatchStranded(file);
    }
  }
}
