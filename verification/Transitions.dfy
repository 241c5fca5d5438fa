/** The resumable transition runner: named steps in order, progress persisted after each, any
    number of attempts with failures anywhere. */
module Transitions {
  import opened Common

  /** A step's result; None is JavaScript's undefined, which the store does not keep. */
  type Result = Option<string>

  /** How one attempt's `run` of a step turns out. */
  datatype RunOutcome = Ran(result: Result) | Threw

  /** How persisting a step turns out; a failing write may still have been written. */
  datatype PersistOutcome = Persisted | NotWritten | WrittenButFailed

  /** Everything outside the runner, for one attempt.  The store keeps the steps in a record and
      lists them in an order of its own. */
  datatype World = World(
    readable: bool,
    listing: Progress -> Progress,
    run: string -> RunOutcome,
    persist: string -> PersistOutcome,
    clearable: bool)

  /** Persisted steps in the order they were written. */
  type Progress = seq<(string, Result)>

  datatype Status = Completed | FailedAt(step: string) | StoreUnreadable

  datatype Execution = Execution(status: Status, completedSteps: seq<string>, results: map<string, Result>)

  /** One entry per call of a step's `run`: its name and whether it returned. */
  type Log = seq<(string, bool)>

  ghost predicate DistinctNames(names: seq<string>) {
    forall i, j :: 0 <= i < j < |names| ==> names[i] != names[j]
  }

  function Names(p: Progress): (r: seq<string>)
    ensures |r| == |p|
    ensures forall i :: 0 <= i < |p| ==> r[i] == p[i].0
  {
    seq(|p|, i requires 0 <= i < |p| => p[i].0)
  }

  /** Results as the persisted progress gives them back: undefined ones are not stored. */
  function Restored(p: Progress): map<string, Result> {
    if p == [] then map[]
    else
      var front, last := Restored(p[..|p| - 1]), p[|p| - 1];
      if last.1.Some? then front[last.0 := last.1] else front
  }

  /** A lookup in JavaScript: an absent entry reads as undefined. */
  function Lookup(results: map<string, Result>, name: string): Result {
    if name in results then results[name] else None
  }

  /** Where a run stands between two steps. */
  datatype Point = Point(progress: Progress, completedSteps: seq<string>, results: map<string, Result>, log: Log)

  /** One step of the loop: the point after it, and whether the loop goes on. */
  function RunStep(p: Point, name: string, w: World): (Point, bool) {
    if name in p.completedSteps then (p, true)
    else
      match w.run(name)
      case Threw => (p.(log := p.log + [(name, false)]), false)
      case Ran(result) =>
        var q := p.(results := p.results[name := result], completedSteps := p.completedSteps + [name],
                    log := p.log + [(name, true)]);
        match w.persist(name)
        case Persisted => (q.(progress := p.progress + [(name, result)]), true)
        case NotWritten => (q, false)
        case WrittenButFailed => (q.(progress := p.progress + [(name, result)]), false)
  }

  /** The loop over the steps that are left, and the step it failed at, if any. */
  function RunSteps(p: Point, names: seq<string>, w: World): (Point, Option<string>)
    decreases |names|
  {
    if names == [] then (p, None)
    else
      var (q, goesOn) := RunStep(p, names[0], w);
      if goesOn then RunSteps(q, names[1..], w) else (q, Some(names[0]))
  }

  /** The same entries, in any order. */
  predicate SameEntries(p: Progress, q: Progress) {
    |p| == |q| && (forall x :: x in p ==> x in q) && (forall x :: x in q ==> x in p)
  }

  /** What the store lists: the persisted entries, whatever their order. */
  function Listed(w: World, p: Progress): (r: Progress)
    ensures SameEntries(r, p)
  {
    if SameEntries(w.listing(p), p) then w.listing(p) else p
  }

  function Resume(w: World, progress: Progress, log: Log): Point {
    Point(progress, Names(Listed(w, progress)), Restored(Listed(w, progress)), log)
  }

  /** One attempt: what it returns, the progress it leaves and the log it extends. */
  function Attempt(names: seq<string>, progress: Progress, log: Log, w: World): (Execution, Progress, Log) {
    if !w.readable then (Execution(StoreUnreadable, [], map[]), progress, log)
    else
      var (p, failed) := RunSteps(Resume(w, progress, log), names, w);
      match failed
      case Some(name) => (Execution(FailedAt(name), p.completedSteps, p.results), p.progress, p.log)
      case None =>
        (Execution(Completed, p.completedSteps, p.results), if w.clearable then [] else p.progress, p.log)
  }

  class TransitionStore {
    var progress: Progress

    constructor ()
      ensures progress == []
    {
      progress := [];
    }

    method Complete(name: string, result: Result, outcome: PersistOutcome) returns (ok: bool)
      modifies this
      ensures ok <==> outcome.Persisted?
      ensures progress == if outcome.NotWritten? then old(progress) else old(progress) + [(name, result)]
    {
      if !outcome.NotWritten? {
        progress := progress + [(name, result)];
      }
      ok := outcome.Persisted?;
    }

    method Clear()
      modifies this
      ensures progress == []
    {
      progress := [];
    }
  }

  /** `executeTransition` with a store. */
  method ExecuteTransition(names: seq<string>, store: TransitionStore, w: World, log: Log)
    returns (e: Execution, newLog: Log)
    modifies store
    ensures (e, store.progress, newLog) == Attempt(names, old(store.progress), log, w)
  {
    newLog := log;
    if !w.readable {
      return Execution(StoreUnreadable, [], map[]), newLog;
    }
    var progress := Listed(w, store.progress);
    var completedSteps: seq<string>, results: map<string, Result> := [], map[];
    var k := 0;
    while k < |progress|
      invariant 0 <= k <= |progress| && store.progress == old(store.progress)
      invariant completedSteps == Names(progress)[..k]
      invariant results == Restored(progress[..k])
    {
      var (name, result) := progress[k];
      assert progress[..k + 1][..k] == progress[..k];
      completedSteps := completedSteps + [name];
      if result.Some? {
        results := results[name := result];
      }
      k := k + 1;
    }
    assert progress[..k] == progress && Names(progress)[..k] == Names(progress);
    ghost var whole := RunSteps(Resume(w, store.progress, log), names, w);
    var i := 0;
    while i < |names|
      invariant 0 <= i <= |names|
      invariant RunSteps(Point(store.progress, completedSteps, results, newLog), names[i..], w) == whole
    {
      var name := names[i];
      assert names[i..][1..] == names[i + 1..];
      if name !in completedSteps {
        match w.run(name) {
          case Threw =>
            newLog := newLog + [(name, false)];
            return Execution(FailedAt(name), completedSteps, results), newLog;
          case Ran(result) =>
            results := results[name := result];
            completedSteps := completedSteps + [name];
            newLog := newLog + [(name, true)];
            var ok := store.Complete(name, result, w.persist(name));
            if !ok {
              return Execution(FailedAt(name), completedSteps, results), newLog;
            }
        }
      }
      i := i + 1;
    }
    if w.clearable {
      store.Clear();
    }
    e := Execution(Completed, completedSteps, results);
  }

  // ---- one attempt ----

  /** `name` has returned successfully somewhere in the log. */
  predicate Succeeded(log: Log, name: string) {
    (name, true) in log
  }

  ghost predicate AllSucceeded(log: Log, names: seq<string>, k: nat)
    requires k <= |names|
  {
    forall i :: 0 <= i < k ==> Succeeded(log, names[i])
  }

  /** No step was called before every step in front of it had succeeded. */
  ghost predicate InOrder(log: Log, names: seq<string>) {
    forall m, j :: 0 <= m < |log| && 0 <= j < |names| && log[m].0 == names[j] ==> AllSucceeded(log[..m], names, j)
  }

  /** The persisted steps are the first ones of the list, all of them have succeeded, and the
      history respects the order. */
  ghost predicate OnTrack(names: seq<string>, progress: Progress, log: Log) {
    && Names(progress) <= names
    && AllSucceeded(log, names, |progress|)
    && InOrder(log, names)
  }

  lemma LogGrows(names: seq<string>, log: Log, k: nat, returned: bool)
    requires DistinctNames(names) && k < |names| && InOrder(log, names) && AllSucceeded(log, names, k)
    ensures var l := log + [(names[k], returned)];
            InOrder(l, names) && AllSucceeded(l, names, if returned then k + 1 else k)
  {
    var l := log + [(names[k], returned)];
    assert l[|log|] == (names[k], returned);
    forall i | 0 <= i < k
      ensures Succeeded(l, names[i])
    {
      assert Succeeded(log, names[i]);
    }
    forall m, j | 0 <= m < |l| && 0 <= j < |names| && l[m].0 == names[j]
      ensures AllSucceeded(l[..m], names, j)
    {
      if m < |log| {
        assert l[..m] == log[..m];
      } else {
        assert j == k && l[..m] == log;
      }
    }
  }

  /** From `start` on, the log only grows, and no step of `progress` is called. */
  ghost predicate Spares(progress: Progress, start: Log, log: Log) {
    && start <= log
    && forall m :: |start| <= m < |log| ==> log[m].0 !in Names(progress)
  }

  /** From one progress and log to a later one: both only grow, and no step that was persisted
      at the start is called in between. */
  ghost predicate Advances(progress: Progress, log: Log, progress': Progress, log': Log) {
    progress <= progress' && Spares(progress, log, log')
  }

  /** The same steps, in any order. */
  predicate SameSteps(a: seq<string>, b: seq<string>) {
    |a| == |b| && (forall n :: n in a ==> n in b) && (forall n :: n in b ==> n in a)
  }

  lemma ListedSteps(w: World, p: Progress)
    ensures SameSteps(Names(Listed(w, p)), Names(p))
  {
    var q := Listed(w, p);
    forall i | 0 <= i < |q|
      ensures Names(q)[i] in Names(p)
    {
      assert q[i] in p;
    }
    forall i | 0 <= i < |p|
      ensures Names(p)[i] in Names(q)
    {
      assert p[i] in q;
    }
  }

  /** Calling the first step that is not persisted. */
  lemma CallOnTrack(p: Point, names: seq<string>, w: World)
    requires DistinctNames(names) && OnTrack(names, p.progress, p.log) && |p.progress| < |names|
    requires SameSteps(p.completedSteps, Names(p.progress))
    ensures var name := names[|p.progress|];
            var (q, goesOn) := RunStep(p, name, w);
            && name !in p.completedSteps
            && OnTrack(names, q.progress, q.log)
            && Advances(p.progress, p.log, q.progress, q.log)
            && q.log == p.log + [(name, w.run(name).Ran?)]
            && (q.progress == p.progress || (|q.progress| == |p.progress| + 1 && p.progress <= q.progress))
            && (goesOn ==> |q.progress| == |p.progress| + 1 && SameSteps(q.completedSteps, Names(q.progress)))
            && (goesOn && p.completedSteps == Names(p.progress) ==> q.completedSteps == Names(q.progress))
  {
    var k := |p.progress|;
    assert forall m :: 0 <= m < k ==> Names(p.progress)[m] == names[m];
    LogGrows(names, p.log, k, w.run(names[k]).Ran?);
    var q := RunStep(p, names[k], w).0;
    if q.progress != p.progress {
      assert Names(q.progress) == Names(p.progress) + [names[k]];
    }
  }

  lemma SparesFurther(p: Progress, l: Log, p1: Progress, l1: Log, l2: Log)
    requires Advances(p, l, p1, l1) && Spares(p1, l1, l2)
    ensures Spares(p, l, l2)
  {
    assert Names(p) == Names(p1)[..|p|];
    forall m | |l| <= m < |l2|
      ensures l2[m].0 !in Names(p)
    {
      if m < |l1| {
        assert l2[m] == l1[m];
      }
    }
  }

  /** Persisted steps are passed over. */
  lemma {:induction false} SkipsPersisted(p: Point, names: seq<string>, i: nat, w: World)
    requires Names(p.progress) <= names && i <= |p.progress| && SameSteps(p.completedSteps, Names(p.progress))
    ensures RunSteps(p, names[i..], w) == RunSteps(p, names[|p.progress|..], w)
    decreases |p.progress| - i
  {
    if i < |p.progress| {
      assert names[i..][0] == Names(p.progress)[i] && names[i..][1..] == names[i + 1..];
      SkipsPersisted(p, names, i + 1, w);
    }
  }

  /** The loop from the first step that is not persisted. */
  lemma {:induction false} LoopOnTrack(p: Point, names: seq<string>, w: World)
    requires DistinctNames(names) && OnTrack(names, p.progress, p.log) && SameSteps(p.completedSteps, Names(p.progress))
    ensures var (q, failed) := RunSteps(p, names[|p.progress|..], w);
            && OnTrack(names, q.progress, q.log)
            && Advances(p.progress, p.log, q.progress, q.log)
            && (failed.None? ==> SameSteps(q.completedSteps, names) && Names(q.progress) == names)
    decreases |names| - |p.progress|
  {
    var k := |p.progress|;
    if k < |names| {
      assert names[k..][0] == names[k] && names[k..][1..] == names[k + 1..];
      var (q, goesOn) := RunStep(p, names[k], w);
      CallOnTrack(p, names, w);
      if goesOn {
        LoopOnTrack(q, names, w);
        var r := RunSteps(q, names[k + 1..], w).0;
        SparesFurther(p.progress, p.log, q.progress, q.log, r.log);
      }
    }
  }

  /** A loop that begins with its steps in the order written ends with all of them in that order. */
  lemma {:induction false} LoopInOrder(p: Point, names: seq<string>, w: World)
    requires DistinctNames(names) && OnTrack(names, p.progress, p.log) && p.completedSteps == Names(p.progress)
    ensures var (q, failed) := RunSteps(p, names[|p.progress|..], w);
            failed.None? ==> q.completedSteps == names
    decreases |names| - |p.progress|
  {
    var k := |p.progress|;
    if k < |names| {
      assert names[k..][0] == names[k] && names[k..][1..] == names[k + 1..];
      CallOnTrack(p, names, w);
      var (q, goesOn) := RunStep(p, names[k], w);
      if goesOn {
        LoopInOrder(q, names, w);
      }
    }
  }

  /** One attempt, however it ends: the progress stays a prefix, the order holds, and no step
      that was persisted when it began is called; only an attempt that completes and clears
      gives up progress, and completing means every step. */
  lemma AttemptOnTrack(names: seq<string>, progress: Progress, log: Log, w: World)
    requires DistinctNames(names) && OnTrack(names, progress, log)
    ensures var (e, progress', log') := Attempt(names, progress, log, w);
            && OnTrack(names, progress', log')
            && Spares(progress, log, log')
            && (if e.status.Completed? && w.clearable then progress' == [] else progress <= progress')
            && (e.status.Completed? ==> SameSteps(e.completedSteps, names) && forall n :: n in names ==> Succeeded(log', n))
            && (e.status.Completed? && Listed(w, progress) == progress ==> e.completedSteps == names)
            && (e.status.StoreUnreadable? <==> !w.readable)
            && (e.status.StoreUnreadable? ==> log' == log && progress' == progress)
  {
    assert names[0..] == names;
    ListedSteps(w, progress);
    SkipsPersisted(Resume(w, progress, log), names, 0, w);
    LoopOnTrack(Resume(w, progress, log), names, w);
    if Listed(w, progress) == progress {
      LoopInOrder(Resume(w, progress, log), names, w);
    }
  }

  // ---- any number of attempts ----

  /** Attempts one after the other on one store, each of which fails or completes without being
      able to clear its progress. */
  ghost predicate NeverCleared(names: seq<string>, progress: Progress, log: Log, ws: seq<World>)
    decreases |ws|
  {
    ws == [] ||
    var (e, progress', log') := Attempt(names, progress, log, ws[0]);
    !(e.status.Completed? && ws[0].clearable) && NeverCleared(names, progress', log', ws[1..])
  }

  function After(names: seq<string>, progress: Progress, log: Log, ws: seq<World>): (Progress, Log)
    decreases |ws|
  {
    if ws == [] then (progress, log)
    else
      var (_, progress', log') := Attempt(names, progress, log, ws[0]);
      After(names, progress', log', ws[1..])
  }

  /** Whatever the attempts do, clearing included. */
  lemma {:induction false} AttemptsOnTrack(names: seq<string>, progress: Progress, log: Log, ws: seq<World>)
    requires DistinctNames(names) && OnTrack(names, progress, log)
    ensures var (progress', log') := After(names, progress, log, ws);
            && OnTrack(names, progress', log') && log <= log'
            && (NeverCleared(names, progress, log, ws) ==> Advances(progress, log, progress', log'))
    decreases |ws|
  {
    if ws != [] {
      var (e, p1, l1) := Attempt(names, progress, log, ws[0]);
      AttemptOnTrack(names, progress, log, ws[0]);
      AttemptsOnTrack(names, p1, l1, ws[1..]);
      if NeverCleared(names, progress, log, ws) {
        SparesFurther(progress, log, p1, l1, After(names, p1, l1, ws[1..]).1);
      }
    }
  }

  /** From an empty store, over any attempts at all: at every moment what is persisted is a
      prefix of the list and everything was called in order.  A step that is persisted at some
      moment is not called again by any later attempt up to and including the first one that
      clears the progress. */
  lemma ResumesInOrder(names: seq<string>, before: seq<World>, ws: seq<World>, last: World)
    requires DistinctNames(names)
    ensures var (p, l) := After(names, [], [], before);
            var (p1, l1) := After(names, p, l, ws);
            var (e, p2, l2) := Attempt(names, p1, l1, last);
            && Names(p) <= names && Names(p1) <= names && Names(p2) <= names && InOrder(l2, names)
            && Spares(p1, l1, l2)
            && (NeverCleared(names, p, l, ws) ==> p <= p1 && Spares(p, l, l2))
            && (e.status.Completed? ==> SameSteps(e.completedSteps, names))
  {
    AttemptsOnTrack(names, [], [], before);
    var (p, l) := After(names, [], [], before);
    AttemptsOnTrack(names, p, l, ws);
    var (p1, l1) := After(names, p, l, ws);
    AttemptOnTrack(names, p1, l1, last);
    if NeverCleared(names, p, l, ws) {
      SparesFurther(p, l, p1, l1, Attempt(names, p1, l1, last).2);
    }
  }

  lemma {:induction false} LoopFails(p: Point, names: seq<string>, w: World)
    ensures var failed := RunSteps(p, names, w).1;
            failed.Some? <==> exists i :: 0 <= i < |names| && names[i] !in p.completedSteps && Fails(w, names[i])
    decreases |names|
  {
    if names != [] {
      var (q, goesOn) := RunStep(p, names[0], w);
      assert forall i :: 0 < i < |names| ==> names[i] == names[1..][i - 1];
      if goesOn {
        LoopFails(q, names[1..], w);
        var failed := RunSteps(p, names, w).1;
        if i :| 0 <= i < |names| && names[i] !in p.completedSteps && Fails(w, names[i]) {
          assert names[1..][i - 1] == names[i] && names[i] != names[0];
        }
        if failed.Some? {
          var i :| 0 <= i < |names[1..]| && names[1..][i] !in q.completedSteps && Fails(w, names[1..][i]);
          assert names[i + 1] == names[1..][i];
        }
      }
    }
  }

  /** The step's run throws, or its progress cannot be written. */
  predicate Fails(w: World, name: string) {
    w.run(name).Threw? || !w.persist(name).Persisted?
  }

  /** A readable attempt completes exactly if every step that is not persisted yet runs and can be
      written. */
  lemma CompletesIff(names: seq<string>, progress: Progress, log: Log, w: World)
    requires w.readable
    ensures Attempt(names, progress, log, w).0.status.Completed? <==>
              forall i :: 0 <= i < |names| && names[i] !in Names(progress) ==> !Fails(w, names[i])
  {
    ListedSteps(w, progress);
    LoopFails(Resume(w, progress, log), names, w);
  }

  // ---- resuming gives the results of an uninterrupted run ----

  /** Each step always returns the same result when it returns. */
  ghost predicate Deterministic(w: World, det: string -> Result) {
    forall name :: w.run(name).Ran? ==> w.run(name).result == det(name)
  }

  /** The progress holds what the steps return. */
  ghost predicate True(p: Progress, det: string -> Result) {
    forall i :: 0 <= i < |p| ==> p[i].1 == det(p[i].0)
  }

  /** `results` reads as the steps of `done` and nothing else. */
  ghost predicate Reads(results: map<string, Result>, done: seq<string>, det: string -> Result) {
    forall name :: Lookup(results, name) == if name in done then det(name) else None
  }

  lemma {:induction false} RestoredReads(p: Progress, det: string -> Result)
    requires True(p, det)
    ensures Reads(Restored(p), Names(p), det)
    decreases |p|
  {
    if p != [] {
      var front := p[..|p| - 1];
      RestoredReads(front, det);
      assert Names(p) == Names(front) + [p[|p| - 1].0];
      forall name
        ensures Lookup(Restored(p), name) == if name in Names(p) then det(name) else None
      {
        assert Lookup(Restored(front), name) == if name in Names(front) then det(name) else None;
      }
    }
  }

  lemma ListedReads(w: World, p: Progress, det: string -> Result)
    requires True(p, det)
    ensures Reads(Restored(Listed(w, p)), Names(Listed(w, p)), det)
  {
    var q := Listed(w, p);
    forall i | 0 <= i < |q|
      ensures q[i].1 == det(q[i].0)
    {
      assert q[i] in p;
    }
    RestoredReads(q, det);
  }

  lemma {:induction false} LoopReads(p: Point, names: seq<string>, w: World, det: string -> Result)
    requires Deterministic(w, det) && True(p.progress, det) && Reads(p.results, p.completedSteps, det)
    ensures var q := RunSteps(p, names, w).0;
            True(q.progress, det) && Reads(q.results, q.completedSteps, det)
    decreases |names|
  {
    if names != [] {
      var (q, goesOn) := RunStep(p, names[0], w);
      if names[0] !in p.completedSteps && w.run(names[0]).Ran? {
        forall name
          ensures Lookup(q.results, name) == if name in q.completedSteps then det(name) else None
        {
          assert Lookup(p.results, name) == if name in p.completedSteps then det(name) else None;
        }
      }
      if goesOn {
        LoopReads(q, names[1..], w, det);
      }
    }
  }

  lemma {:induction false} AttemptsTrue(names: seq<string>, p: Progress, l: Log, ws: seq<World>, det: string -> Result)
    requires True(p, det) && forall w :: w in ws ==> Deterministic(w, det)
    ensures True(After(names, p, l, ws).0, det)
    decreases |ws|
  {
    if ws != [] {
      assert ws[0] in ws;
      ListedReads(ws[0], p, det);
      LoopReads(Resume(ws[0], p, l), names, ws[0], det);
      var (_, p1, l1) := Attempt(names, p, l, ws[0]);
      AttemptsTrue(names, p1, l1, ws[1..], det);
    }
  }

  /** A world in which nothing goes wrong. */
  function Smooth(det: string -> Result): World {
    World(true, p => p, name => Ran(det(name)), name => Persisted, true)
  }

  lemma {:induction false} SmoothCompletes(p: Point, names: seq<string>, det: string -> Result)
    ensures RunSteps(p, names, Smooth(det)).1.None?
    decreases |names|
  {
    if names != [] {
      SmoothCompletes(RunStep(p, names[0], Smooth(det)).0, names[1..], det);
    }
  }

  /** For deterministic steps, an attempt that completes, after any others on the same store, reports
      the steps, in the order the store lists them, and the results of one uninterrupted run. */
  lemma ResumingIsTransparent(names: seq<string>, ws: seq<World>, last: World, det: string -> Result)
    requires DistinctNames(names)
    requires Deterministic(last, det) && forall w :: w in ws ==> Deterministic(w, det)
    requires var (p, l) := After(names, [], [], ws); Attempt(names, p, l, last).0.status.Completed?
    ensures var (p, l) := After(names, [], [], ws);
            var resumed, straight := Attempt(names, p, l, last).0, Attempt(names, [], [], Smooth(det)).0;
            && straight.status.Completed?
            && SameSteps(resumed.completedSteps, straight.completedSteps) && straight.completedSteps == names
            && (Listed(last, p) == p ==> resumed.completedSteps == names)
            && forall name :: Lookup(resumed.results, name) == Lookup(straight.results, name)
  {
    var (p, l) := After(names, [], [], ws);
    AttemptsOnTrack(names, [], [], ws);
    AttemptsTrue(names, [], [], ws, det);
    ListedReads(last, p, det);
    ListedReads(Smooth(det), [], det);
    LoopReads(Resume(last, p, l), names, last, det);
    LoopReads(Resume(Smooth(det), [], []), names, Smooth(det), det);
    SmoothCompletes(Resume(Smooth(det), [], []), names, det);
    AttemptOnTrack(names, p, l, last);
    AttemptOnTrack(names, [], [], Smooth(det));
    var resumed, straight := Attempt(names, p, l, last).0, Attempt(names, [], [], Smooth(det)).0;
    assert Reads(resumed.results, resumed.completedSteps, det) && Reads(straight.results, names, det);
    forall name
      ensures Lookup(resumed.results, name) == Lookup(straight.results, name)
    {
      assert Lookup(straight.results, name) == if name in names then det(name) else None;
    }
  }

  // ---- a failed write ----

  /** The step at which the loop stops was not persisted at its start; it is persisted at the
      end exactly if it ran and its write was done although reported as failed. */
  lemma {:induction false} LoopStops(p: Point, names: seq<string>, w: World)
    requires DistinctNames(names) && OnTrack(names, p.progress, p.log) && SameSteps(p.completedSteps, Names(p.progress))
    ensures var (q, failed) := RunSteps(p, names[|p.progress|..], w);
            failed.Some? ==>
              && failed.value !in Names(p.progress)
              && (failed.value in Names(q.progress) <==>
                    w.run(failed.value).Ran? && w.persist(failed.value).WrittenButFailed?)
              && (failed.value in q.completedSteps <==> w.run(failed.value).Ran?)
    decreases |names| - |p.progress|
  {
    var k := |p.progress|;
    if k < |names| {
      assert names[k..][0] == names[k] && names[k..][1..] == names[k + 1..];
      var (q, goesOn) := RunStep(p, names[k], w);
      CallOnTrack(p, names, w);
      if goesOn {
        assert Names(p.progress) == Names(q.progress)[..k];
        LoopStops(q, names, w);
      } else {
        assert forall m :: 0 <= m < k ==> Names(p.progress)[m] == names[m];
        if q.progress != p.progress {
          assert q.progress[k].0 == names[k] && Names(q.progress)[k] == names[k];
        }
      }
    }
  }

  /** An attempt that reports a step as failed has nevertheless persisted it exactly if the step
      ran and its write was done but reported as failed; no later attempt up to the first that
      clears the progress calls such a step again. */
  lemma FailedWriteStillCounts(names: seq<string>, progress: Progress, log: Log, w: World, ws: seq<World>, last: World)
    requires DistinctNames(names) && OnTrack(names, progress, log)
    requires Attempt(names, progress, log, w).0.status.FailedAt?
    ensures var (e, p, l) := Attempt(names, progress, log, w);
            var n := e.status.step;
            && (n in Names(p) <==> w.run(n).Ran? && w.persist(n).WrittenButFailed?)
            && (n in e.completedSteps <==> w.run(n).Ran?)
            && (n in Names(p) && NeverCleared(names, p, l, ws) ==>
                  var (p1, l1) := After(names, p, l, ws);
                  var l2 := Attempt(names, p1, l1, last).2;
                  l <= l2 && forall m :: |l| <= m < |l2| ==> l2[m].0 != n)
  {
    assert names[0..] == names;
    ListedSteps(w, progress);
    SkipsPersisted(Resume(w, progress, log), names, 0, w);
    LoopStops(Resume(w, progress, log), names, w);
    AttemptOnTrack(names, progress, log, w);
    var (e, p, l) := Attempt(names, progress, log, w);
    AttemptsOnTrack(names, p, l, ws);
    var (p1, l1) := After(names, p, l, ws);
    AttemptOnTrack(names, p1, l1, last);
    if NeverCleared(names, p, l, ws) {
      SparesFurther(p, l, p1, l1, Attempt(names, p1, l1, last).2);
    }
  }

  /** A transition of one step whose write is done but reported as failed: the first attempt
      reports the step as failed, the second completes without calling it. */
  lemma FailedWriteExample()
    ensures var w := World(true, p => p, name => Ran(None), name => WrittenButFailed, true);
            var (e, p, l) := Attempt(["charge"], [], [], w);
            var (e', p', l') := Attempt(["charge"], p, l, w);
            && e.status == FailedAt("charge") && l == [("charge", true)]
            && e'.status == Completed && l' == l && p' == []
  {
    var w := World(true, p => p, name => Ran(None), name => WrittenButFailed, true);
    assert RunSteps(Resume(w, [], []), ["charge"], w)
        == (RunStep(Resume(w, [], []), "charge", w).0, Some("charge"));
    var (e, p, l) := Attempt(["charge"], [], [], w);
    assert p == [("charge", None)] && Names(p) == ["charge"];
    assert ["charge"][1..] == [];
    assert RunSteps(Resume(w, p, l), ["charge"], w) == RunSteps(Resume(w, p, l), [], w);
  }
}
