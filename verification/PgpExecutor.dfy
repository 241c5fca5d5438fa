/** The id-correlated request executor in front of the hidden WebView: every call gets an id, a
    timer and a place in the pending table, and is settled by a reply, its timer, disposal, or
    the lack of a WebView. */
module PgpExecutor {
  import opened Common

  /** Operations and raw results, as far as the executor looks at them. */
  type Operation = nat
  type Raw = nat

  /** `isPgpOperationResultValid`. */
  type Validator = (Operation, Raw) -> bool

  datatype Outcome = Resolved(result: Raw) | Rejected(reason: Reason)
  datatype Reason = Disposed | TimedOut | Unavailable | Remote(message: string) | InvalidResult | Unserialisable

  /** What `parsePgpEnvelope` makes of a message; None is unparsable or malformed. */
  datatype Envelope = Envelope(id: nat, reply: Reply)
  datatype Reply = Success(result: Raw) | Failure(message: string)

  datatype State = State(
    pending: map<nat, Operation>,
    opId: nat,
    timers: set<nat>,               // running timers, by the id they were set for
    issued: seq<Operation>,         // the operation of every id handed out
    settled: map<nat, Outcome>)     // the promises that have their outcome

  datatype Event =
    | Execute(op: Operation, serialisable: bool, available: bool)
    | Message(envelope: Option<Envelope>)
    | TimerFires(id: nat)
    | Dispose

  const START := State(map[], 0, {}, [], map[])

  predicate Enabled(s: State, e: Event) {
    e.TimerFires? ==> e.id in s.timers
  }

  /** A promise keeps the first outcome it gets. */
  function Settle(settled: map<nat, Outcome>, id: nat, outcome: Outcome): map<nat, Outcome> {
    if id in settled then settled else settled[id := outcome]
  }

  /** The outcome of a reply for an operation: a success must pass the operation's validator. */
  function Judge(valid: Validator, op: Operation, reply: Reply): Outcome {
    match reply
    case Failure(message) => Rejected(Remote(message))
    case Success(result) => if valid(op, result) then Resolved(result) else Rejected(InvalidResult)
  }

  /** An id leaves the pending table, its timer is cleared, and its promise is settled. */
  function Close(s: State, id: nat, outcome: Outcome): State {
    s.(pending := s.pending - {id}, timers := s.timers - {id}, settled := Settle(s.settled, id, outcome))
  }

  /** The same for every pending id below `n`, whose entries `Dispose` drops together. */
  function CloseBelow(s: State, n: nat): State {
    if n == 0 then s
    else
      var t := CloseBelow(s, n - 1);
      if n - 1 in s.pending then Close(t, n - 1, Rejected(Disposed)) else t
  }

  /** `executePGPOperation` up to the point where the script is built. */
  function Registered(s: State, op: Operation): State {
    s.(opId := s.opId + 1, issued := s.issued + [op], pending := s.pending[s.opId := op], timers := s.timers + {s.opId})
  }

  function Step(s: State, valid: Validator, e: Event): State {
    match e
    case Execute(op, serialisable, available) =>
      var t := Registered(s, op);
      if !serialisable then t.(settled := Settle(t.settled, s.opId, Rejected(Unserialisable)))
      else if !available then Close(t, s.opId, Rejected(Unavailable))
      else t
    case Message(envelope) =>
      if envelope.None? || envelope.value.id !in s.pending then s
      else Close(s, envelope.value.id, Judge(valid, s.pending[envelope.value.id], envelope.value.reply))
    case TimerFires(id) =>
      if id in s.pending then Close(s, id, Rejected(TimedOut)) else s.(timers := s.timers - {id})
    case Dispose => CloseBelow(s, s.opId)
  }

  ghost predicate Legal(s: State, valid: Validator, es: seq<Event>)
    decreases |es|
  {
    es == [] || (Enabled(s, es[0]) && Legal(Step(s, valid, es[0]), valid, es[1..]))
  }

  function Run(s: State, valid: Validator, es: seq<Event>): State
    requires Legal(s, valid, es)
    decreases |es|
  {
    if es == [] then s else Run(Step(s, valid, es[0]), valid, es[1..])
  }

  // ---- every run ----

  /** A pending id has exactly one running timer, its own; every id is pending or settled; the
      table knows each id's own operation; what is resolved passed that operation's validator. */
  ghost predicate Tracked(s: State, valid: Validator) {
    && s.opId == |s.issued|
    && s.timers == s.pending.Keys
    && (forall id :: id in s.pending ==> id < s.opId && s.pending[id] == s.issued[id])
    && (forall id :: id in s.settled ==> id < s.opId)
    && (forall id :: 0 <= id < s.opId ==> id in s.pending || id in s.settled)
    && (forall id :: id in s.settled && s.settled[id].Resolved? ==> valid(s.issued[id], s.settled[id].result))
  }

  /** No id is pending and settled at once. */
  ghost predicate Exclusive(s: State) {
    s.pending.Keys !! s.settled.Keys
  }

  /** Outcomes are final. */
  ghost predicate Extends(a: map<nat, Outcome>, b: map<nat, Outcome>) {
    forall id :: id in a ==> id in b && b[id] == a[id]
  }

  lemma CloseKeeps(s: State, valid: Validator, id: nat, outcome: Outcome)
    requires Tracked(s, valid) && id in s.pending
    requires outcome.Resolved? ==> valid(s.issued[id], outcome.result)
    ensures Tracked(Close(s, id, outcome), valid)
    ensures Exclusive(s) ==> Exclusive(Close(s, id, outcome))
  {
  }

  lemma RegisteredKeeps(s: State, valid: Validator, op: Operation)
    requires Tracked(s, valid)
    ensures Tracked(Registered(s, op), valid) && s.opId !in s.settled
    ensures Exclusive(s) ==> Exclusive(Registered(s, op))
  {
  }

  lemma {:induction false} CloseBelowCloses(s: State, n: nat)
    ensures var t := CloseBelow(s, n);
            && t.opId == s.opId && t.issued == s.issued && Extends(s.settled, t.settled)
            && forall id :: id in t.pending <==> id in s.pending && id >= n
  {
    if n > 0 {
      CloseBelowCloses(s, n - 1);
    }
  }

  lemma {:induction false} CloseBelowKeeps(s: State, valid: Validator, n: nat)
    requires Tracked(s, valid)
    ensures Tracked(CloseBelow(s, n), valid)
    ensures Exclusive(s) ==> Exclusive(CloseBelow(s, n))
  {
    if n > 0 {
      var t := CloseBelow(s, n - 1);
      CloseBelowKeeps(s, valid, n - 1);
      if n - 1 in s.pending {
        assert n - 1 in t.pending by { CloseBelowCloses(s, n - 1); }
        CloseKeeps(t, valid, n - 1, Rejected(Disposed));
        assert CloseBelow(s, n) == Close(t, n - 1, Rejected(Disposed));
      } else {
        assert CloseBelow(s, n) == t;
      }
    }
  }

  lemma NothingLeft(s: State, valid: Validator)
    requires Tracked(s, valid)
    ensures var t := CloseBelow(s, s.opId);
            t.opId == s.opId && t.pending == map[] && t.timers == {}
  {
    CloseBelowCloses(s, s.opId);
    CloseBelowKeeps(s, valid, s.opId);
    assert CloseBelow(s, s.opId).pending.Keys == {};
  }

  lemma StepKeeps(s: State, valid: Validator, e: Event)
    requires Tracked(s, valid) && Enabled(s, e)
    ensures Tracked(Step(s, valid, e), valid)
    ensures Exclusive(s) ==> (Exclusive(Step(s, valid, e)) <==> !(e.Execute? && !e.serialisable))
  {
    match e
    case Execute(op, serialisable, available) =>
      RegisteredKeeps(s, valid, op);
      if !serialisable {
        assert s.opId in Step(s, valid, e).pending && s.opId in Step(s, valid, e).settled;
      } else if !available {
        CloseKeeps(Registered(s, op), valid, s.opId, Rejected(Unavailable));
      }
    case Message(envelope) =>
      if envelope.Some? && envelope.value.id in s.pending {
        CloseKeeps(s, valid, envelope.value.id, Judge(valid, s.pending[envelope.value.id], envelope.value.reply));
      }
    case TimerFires(id) => CloseKeeps(s, valid, id, Rejected(TimedOut));
    case Dispose =>
      CloseBelowKeeps(s, valid, s.opId);
  }

  lemma OutcomesFinal(s: State, valid: Validator, e: Event)
    ensures Extends(s.settled, Step(s, valid, e).settled)
  {
    if e.Dispose? {
      CloseBelowCloses(s, s.opId);
    }
  }

  lemma {:induction false} RunKeeps(s: State, valid: Validator, es: seq<Event>)
    requires Tracked(s, valid) && Legal(s, valid, es)
    ensures Tracked(Run(s, valid, es), valid) && Extends(s.settled, Run(s, valid, es).settled)
    ensures Exclusive(s) && (forall e :: e in es && e.Execute? ==> e.serialisable) ==> Exclusive(Run(s, valid, es))
    decreases |es|
  {
    if es != [] {
      StepKeeps(s, valid, es[0]);
      OutcomesFinal(s, valid, es[0]);
      assert es[0] in es;
      RunKeeps(Step(s, valid, es[0]), valid, es[1..]);
    }
  }

  lemma {:induction false} LegalSplit(s: State, valid: Validator, es: seq<Event>, fs: seq<Event>)
    requires Legal(s, valid, es + fs)
    ensures Legal(s, valid, es) && Legal(Run(s, valid, es), valid, fs)
    ensures Run(s, valid, es + fs) == Run(Run(s, valid, es), valid, fs)
    decreases |es|
  {
    if es == [] {
      assert es + fs == fs;
    } else {
      assert (es + fs)[0] == es[0] && (es + fs)[1..] == es[1..] + fs;
      LegalSplit(Step(s, valid, es[0]), valid, es[1..], fs);
    }
  }

  /** Over any interleaving of calls, replies of every kind, timeouts and disposals: each id
      handed out is pending with its own running timer or has an outcome, a resolved value
      passed the validator of the operation the id was issued for, and no later event changes an
      outcome. */
  lemma ExactlyOnce(valid: Validator, es: seq<Event>, more: seq<Event>)
    requires Legal(START, valid, es + more)
    ensures Legal(START, valid, es)
    ensures var s := Run(START, valid, es);
            && (forall id :: 0 <= id < |s.issued| ==> id in s.pending || id in s.settled)
            && s.timers == s.pending.Keys
            && (forall id :: id in s.settled && s.settled[id].Resolved? ==>
                  id < |s.issued| && valid(s.issued[id], s.settled[id].result))
            && Extends(s.settled, Run(START, valid, es + more).settled)
  {
    LegalSplit(START, valid, es, more);
    RunKeeps(START, valid, es);
    RunKeeps(Run(START, valid, es), valid, more);
  }

  /** Every state along the run is exclusive. */
  ghost predicate ExclusiveAlong(s: State, valid: Validator, es: seq<Event>)
    requires Legal(s, valid, es)
    decreases |es|
  {
    Exclusive(s) && (es == [] || ExclusiveAlong(Step(s, valid, es[0]), valid, es[1..]))
  }

  predicate Serialisable(e: Event) {
    e.Execute? ==> e.serialisable
  }

  /** No id is ever both pending and settled along a run, exactly if every call's payload can be
      serialised: an exception after registration rejects the promise but leaves the entry and
      its timer behind. */
  lemma {:induction false} NeverBothIff(s: State, valid: Validator, es: seq<Event>)
    requires Tracked(s, valid) && Exclusive(s) && Legal(s, valid, es)
    ensures ExclusiveAlong(s, valid, es) <==> forall i :: 0 <= i < |es| ==> Serialisable(es[i])
    decreases |es|
  {
    if es != [] {
      var next := Step(s, valid, es[0]);
      StepKeeps(s, valid, es[0]);
      if Serialisable(es[0]) {
        NeverBothIff(next, valid, es[1..]);
        assert (forall i :: 0 <= i < |es| ==> Serialisable(es[i]))
          <==> forall i :: 0 <= i < |es| - 1 ==> Serialisable(es[1..][i]) by {
          assert forall i :: 0 < i < |es| ==> es[i] == es[1..][i - 1];
        }
      } else {
        assert !Exclusive(next);
      }
    }
  }

  // ---- what settles a promise, and how ----

  /** A reply settles the pending call it answers and no other: a failure rejects with the remote
      message, a success resolves with its result exactly if the operation's validator accepts it. */
  lemma ReplySettles(s: State, valid: Validator, id: nat, reply: Reply)
    requires Tracked(s, valid) && Exclusive(s) && id in s.pending
    ensures var t := Step(s, valid, Message(Some(Envelope(id, reply))));
            var outcome := match reply
                           case Failure(message) => Rejected(Remote(message))
                           case Success(r) => if valid(s.issued[id], r) then Resolved(r) else Rejected(InvalidResult);
            t.settled == s.settled[id := outcome] && t.pending == s.pending - {id}
  {
  }

  /** A message that cannot be parsed, or answers nothing pending, changes nothing. */
  lemma StrayMessageIgnored(s: State, valid: Validator, envelope: Option<Envelope>)
    requires envelope.Some? ==> envelope.value.id !in s.pending
    ensures Step(s, valid, Message(envelope)) == s
  {
  }

  lemma TimeoutSettles(s: State, valid: Validator, id: nat)
    requires Tracked(s, valid) && Exclusive(s) && id in s.timers
    ensures var t := Step(s, valid, TimerFires(id));
            t.settled == s.settled[id := Rejected(TimedOut)] && t.pending == s.pending - {id}
  {
  }

  lemma {:induction false} CloseBelowSettles(s: State, valid: Validator, n: nat, id: nat)
    requires Tracked(s, valid) && Exclusive(s)
    ensures var t := CloseBelow(s, n);
            if id in s.pending && id < n then id in t.settled && t.settled[id] == Rejected(Disposed)
            else (id in t.settled <==> id in s.settled) && (id in s.settled ==> t.settled[id] == s.settled[id])
  {
    if n > 0 {
      CloseBelowSettles(s, valid, n - 1, id);
    }
  }

  /** Disposal rejects every pending call, and only those. */
  lemma DisposalSettles(s: State, valid: Validator, id: nat)
    requires Tracked(s, valid) && Exclusive(s)
    ensures var t := Step(s, valid, Event.Dispose);
            if id in s.pending then id in t.settled && t.settled[id] == Rejected(Disposed)
            else (id in t.settled <==> id in s.settled) && (id in s.settled ==> t.settled[id] == s.settled[id])
  {
    CloseBelowSettles(s, valid, s.opId, id);
  }

  /** A call gets the next id; it is left pending exactly if it could be handed to the WebView, or
      could not even be written down, and in the second case it is rejected all the same. */
  lemma CallRegisters(s: State, valid: Validator, op: Operation, serialisable: bool, available: bool)
    requires Tracked(s, valid)
    ensures var t := Step(s, valid, Execute(op, serialisable, available));
            && t.issued == s.issued + [op] && t.opId == s.opId + 1
            && t.pending == (if serialisable && !available then s.pending else s.pending[s.opId := op])
            && t.settled == (if !serialisable then s.settled[s.opId := Rejected(Unserialisable)]
                             else if !available then s.settled[s.opId := Rejected(Unavailable)]
                             else s.settled)
  {
    assert s.opId !in s.settled && s.opId !in s.pending;
    assert s.pending[s.opId := op] - {s.opId} == s.pending;
  }

  // ---- the hook's object ----

  class HiddenPgpExecutor {
    var pending: map<nat, Operation>
    var opId: nat
    var timers: set<nat>
    var settled: map<nat, Outcome>
    ghost var issued: seq<Operation>

    ghost function View(): State
      reads this
    {
      State(pending, opId, timers, issued, settled)
    }

    constructor ()
      ensures View() == START
    {
      pending, opId, timers, settled, issued := map[], 0, {}, map[], [];
    }

    method Finish(id: nat, outcome: Outcome)
      modifies this
      ensures View() == Close(old(View()), id, outcome)
    {
      pending := pending - {id};
      timers := timers - {id};
      if id !in settled {
        settled := settled[id := outcome];
      }
    }

    method ExecutePgpOperation(op: Operation, serialisable: bool, available: bool) returns (id: nat)
      modifies this
      ensures id == old(opId)
      ensures forall valid :: View() == Step(old(View()), valid, Execute(op, serialisable, available))
    {
      id := opId;
      opId := opId + 1;
      issued := issued + [op];
      timers := timers + {id};
      pending := pending[id := op];
      if !serialisable {
        if id !in settled {
          settled := settled[id := Rejected(Unserialisable)];
        }
      } else if !available {
        Finish(id, Rejected(Unavailable));
      }
    }

    method OnMessage(envelope: Option<Envelope>, valid: Validator)
      modifies this
      ensures View() == Step(old(View()), valid, Message(envelope))
    {
      if envelope.None? || envelope.value.id !in pending {
        return;
      }
      var op := pending[envelope.value.id];
      Finish(envelope.value.id, Judge(valid, op, envelope.value.reply));
    }

    method OnTimer(id: nat)
      requires id in timers
      modifies this
      ensures forall valid :: View() == Step(old(View()), valid, TimerFires(id))
    {
      timers := timers - {id};
      if id in pending {
        Finish(id, Rejected(TimedOut));
      }
    }

    method Dispose(valid: Validator)
      requires Tracked(View(), valid)
      modifies this
      ensures View() == Step(old(View()), valid, Event.Dispose)
      ensures pending == map[] && timers == {}
    {
      ghost var start := View();
      var n := 0;
      while n < opId
        invariant 0 <= n <= opId == start.opId
        invariant View() == CloseBelow(start, n)
      {
        assert n in pending <==> n in start.pending by {
          CloseBelowCloses(start, n);
        }
        if n in pending {
          Finish(n, Rejected(Disposed));
        }
        n := n + 1;
      }
      NothingLeft(start, valid);
    }
  }
}
