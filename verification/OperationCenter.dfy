/** The registry of long-running operations: a pure reducer whose finished records are capped
    after every action. */
module OperationCenter {
  import opened Common

  const MAX_FINISHED_OPERATIONS: nat := 10

  datatype Status = Running | Succeeded | FailedStatus

  /** `info` stands for the descriptive fields: title, detail, times, phase, progress, result. */
  datatype Record = Record(id: string, kind: string, status: Status, seen: bool, info: nat)

  /** A partial record; None leaves the field alone. */
  datatype Patch = Patch(id: Option<string>, kind: Option<string>, status: Option<Status>, seen: Option<bool>,
                         info: Option<nat>)

  datatype Action =
    | Started(rec: Record)
    | Updated(id: string, patch: Patch)
    | Seen(id: string)
    | Dismiss(id: string)
    | ClearFinished

  /** Newest first. */
  type Operations = seq<Record>

  predicate IsFinished(op: Record) {
    !op.status.Running?
  }

  predicate IsRunning(op: Record) {
    op.status.Running?
  }

  function Get<T>(o: Option<T>, default: T): T {
    if o.Some? then o.value else default
  }

  function Patched(op: Record, p: Patch): Record {
    Record(Get(p.id, op.id), Get(p.kind, op.kind), Get(p.status, op.status), Get(p.seen, op.seen), Get(p.info, op.info))
  }

  function Map(ops: Operations, f: Record -> Record): (r: Operations)
    ensures |r| == |ops| && forall i :: 0 <= i < |ops| ==> r[i] == f(ops[i])
  {
    seq(|ops|, i requires 0 <= i < |ops| => f(ops[i]))
  }

  predicate HasId(ops: Operations, id: string) {
    exists i :: 0 <= i < |ops| && ops[i].id == id
  }

  function Reduce(ops: Operations, a: Action): Operations {
    match a
    case Started(rec) => if HasId(ops, rec.id) then ops else [rec] + ops
    case Updated(id, patch) => Map(ops, (op: Record) => if op.id == id then Patched(op, patch) else op)
    case Seen(id) => Map(ops, (op: Record) => if op.id == id then op.(seen := true) else op)
    case Dismiss(id) => Filter(ops, NotDismissed(id))
    case ClearFinished => Filter(ops, IsRunning)
  }

  function NotDismissed(id: string): Record -> bool {
    (op: Record) => op.id != id || !IsFinished(op)
  }

  function Finished(ops: Operations): Operations {
    Filter(ops, IsFinished)
  }

  function InIds(ids: set<string>): Record -> bool {
    (op: Record) => op.id in ids
  }

  function RunningOrIn(kept: set<string>): Record -> bool {
    (op: Record) => !IsFinished(op) || op.id in kept
  }

  function IdsOf(ops: Operations): set<string> {
    set op | op in ops :: op.id
  }

  function Prune(ops: Operations): Operations {
    var finished := Finished(ops);
    if |finished| <= MAX_FINISHED_OPERATIONS then ops
    else
      var kept := IdsOf(finished[..MAX_FINISHED_OPERATIONS]);
      Filter(ops, RunningOrIn(kept))
  }

  function PrunedReduce(ops: Operations, a: Action): Operations {
    Prune(Reduce(ops, a))
  }

  ghost predicate DistinctIds(ops: Operations) {
    forall i, j :: 0 <= i < j < |ops| ==> ops[i].id != ops[j].id
  }

  // ---- filtering ----

  lemma {:induction false} FilterMembers(ops: Operations, p: Record -> bool)
    ensures forall op :: op in Filter(ops, p) <==> op in ops && p(op)
    ensures |Filter(ops, p)| <= |ops|
  {
    if ops != [] {
      FilterMembers(ops[1..], p);
      assert forall op :: op in ops <==> op == ops[0] || op in ops[1..];
    }
  }

  lemma {:induction false} FilterDistinct(ops: Operations, p: Record -> bool)
    requires DistinctIds(ops)
    ensures DistinctIds(Filter(ops, p))
  {
    if ops != [] {
      var rest := Filter(ops[1..], p);
      FilterDistinct(ops[1..], p);
      FilterMembers(ops[1..], p);
      assert forall op :: op in ops[1..] ==> op.id != ops[0].id;
      assert forall i :: 0 <= i < |rest| ==> rest[i] in ops[1..];
    }
  }

  lemma {:induction false} FilterOrder(ops: Operations, p: Record -> bool)
    ensures Subsequence(Filter(ops, p), ops)
  {
    if ops != [] {
      var rest := Filter(ops[1..], p);
      FilterOrder(ops[1..], p);
      if p(ops[0]) {
        assert Filter(ops, p) == [ops[0]] + rest && Filter(ops, p)[1..] == rest;
      } else {
        assert Filter(ops, p) == rest;
      }
    }
  }

  function Both(p: Record -> bool, q: Record -> bool): Record -> bool {
    (op: Record) => p(op) && q(op)
  }

  lemma {:induction false} FilterTwice(ops: Operations, p: Record -> bool, q: Record -> bool)
    ensures Filter(Filter(ops, p), q) == Filter(ops, Both(p, q))
  {
    if ops != [] {
      var rest := Filter(ops[1..], p);
      FilterTwice(ops[1..], p, q);
      assert Filter(ops, p) == if p(ops[0]) then [ops[0]] + rest else rest;
      assert p(ops[0]) ==> Filter(ops, p)[1..] == rest;
    }
  }

  lemma {:induction false} FilterSame(ops: Operations, p: Record -> bool, q: Record -> bool)
    requires forall op :: op in ops ==> p(op) == q(op)
    ensures Filter(ops, p) == Filter(ops, q)
  {
    if ops != [] {
      assert forall op :: op in ops[1..] ==> op in ops;
      FilterSame(ops[1..], p, q);
    }
  }

  lemma {:induction false} FilterNone(ops: Operations, p: Record -> bool)
    requires forall op :: op in ops ==> !p(op)
    ensures Filter(ops, p) == []
  {
    if ops != [] {
      assert forall op :: op in ops[1..] ==> op in ops;
      FilterNone(ops[1..], p);
    }
  }

  /** Filtering a list by the ids of its own first records gives those records. */
  lemma {:induction false} FilterPrefix(ops: Operations, k: nat)
    requires DistinctIds(ops) && k <= |ops|
    ensures Filter(ops, InIds(IdsOf(ops[..k]))) == ops[..k]
  {
    var p := InIds(IdsOf(ops[..k]));
    if k == 0 {
      FilterNone(ops, p);
    } else {
      var q := InIds(IdsOf(ops[1..][..k - 1]));
      assert ops[..k] == [ops[0]] + ops[1..][..k - 1];
      assert ops[0] in ops[..k];
      forall op | op in ops[1..]
        ensures p(op) == q(op)
      {
        assert op.id != ops[0].id;
      }
      FilterSame(ops[1..], p, q);
      FilterPrefix(ops[1..], k - 1);
    }
  }

  lemma {:induction false} SubsequenceRefl(ops: Operations)
    ensures Subsequence(ops, ops)
  {
    if ops != [] {
      SubsequenceRefl(ops[1..]);
    }
  }

  // ---- pruning ----

  /** Pruning keeps every running record and exactly the first ten finished ones, in order. */
  lemma PruneExact(ops: Operations)
    requires DistinctIds(ops)
    ensures Finished(Prune(ops)) == Finished(ops)[..Min(10, |Finished(ops)|)]
    ensures Filter(Prune(ops), IsRunning) == Filter(ops, IsRunning)
    ensures DistinctIds(Prune(ops)) && Subsequence(Prune(ops), ops)
  {
    var finished := Finished(ops);
    FilterDistinct(ops, IsFinished);
    if |finished| <= MAX_FINISHED_OPERATIONS {
      SubsequenceRefl(ops);
    } else {
      var kept := IdsOf(finished[..MAX_FINISHED_OPERATIONS]);
      FilterDistinct(ops, RunningOrIn(kept));
      FilterOrder(ops, RunningOrIn(kept));
      FilterTwice(ops, RunningOrIn(kept), IsRunning);
      FilterSame(ops, Both(RunningOrIn(kept), IsRunning), IsRunning);
      FilterTwice(ops, RunningOrIn(kept), IsFinished);
      FilterTwice(ops, IsFinished, InIds(kept));
      FilterSame(ops, Both(RunningOrIn(kept), IsFinished), Both(IsFinished, InIds(kept)));
      FilterPrefix(finished, MAX_FINISHED_OPERATIONS);
    }
  }

  // ---- what each action does ----

  /** A new record goes to the front; one whose id is taken is ignored. */
  lemma StartedGoesFirst(ops: Operations, rec: Record)
    ensures HasId(ops, rec.id) ==> Reduce(ops, Started(rec)) == ops
    ensures !HasId(ops, rec.id) ==> |Reduce(ops, Started(rec))| == |ops| + 1
                                    && Reduce(ops, Started(rec))[0] == rec && Reduce(ops, Started(rec))[1..] == ops
  {
  }

  /** An update sets the fields it names on the record it names, and leaves everything else. */
  lemma UpdatedAsPatched(ops: Operations, id: string, patch: Patch, i: nat)
    requires i < |ops|
    ensures |Reduce(ops, Updated(id, patch))| == |ops|
    ensures var op, r := ops[i], Reduce(ops, Updated(id, patch))[i];
            if op.id != id then r == op
            else
              && (match patch.id case Some(x) => r.id == x case None => r.id == op.id)
              && (match patch.kind case Some(x) => r.kind == x case None => r.kind == op.kind)
              && (match patch.status case Some(x) => r.status == x case None => r.status == op.status)
              && (match patch.seen case Some(x) => r.seen == x case None => r.seen == op.seen)
              && (match patch.info case Some(x) => r.info == x case None => r.info == op.info)
  {
  }

  lemma SeenMarksOne(ops: Operations, id: string, i: nat)
    requires i < |ops|
    ensures |Reduce(ops, Seen(id))| == |ops|
    ensures Reduce(ops, Seen(id))[i] == if ops[i].id == id then ops[i].(seen := true) else ops[i]
  {
  }

  /** Dismissing removes exactly the finished record of that id; clearing, exactly the finished
      records. */
  lemma RemovalExact(ops: Operations, id: string, op: Record)
    ensures op in Reduce(ops, Dismiss(id)) <==> op in ops && !(op.id == id && op.status != Running)
    ensures op in Reduce(ops, ClearFinished) <==> op in ops && op.status == Running
  {
    FilterMembers(ops, NotDismissed(id));
    FilterMembers(ops, IsRunning);
  }

  // ---- every run ----

  /** A patch that leaves the id alone. */
  predicate KeepsId(a: Action) {
    a.Updated? ==> a.patch.id.None? || a.patch.id.value == a.id
  }

  function Run(ops: Operations, actions: seq<Action>): Operations
    decreases |actions|
  {
    if actions == [] then ops else Run(PrunedReduce(ops, actions[0]), actions[1..])
  }

  ghost predicate Good(ops: Operations) {
    DistinctIds(ops) && |Finished(ops)| <= 10
  }

  lemma ReduceDistinct(ops: Operations, a: Action)
    requires DistinctIds(ops) && KeepsId(a)
    ensures DistinctIds(Reduce(ops, a))
  {
    match a
    case Started(rec) =>
      if !HasId(ops, rec.id) {
        assert forall i :: 0 <= i < |ops| ==> ops[i].id != rec.id;
      }
    case Dismiss(id) => FilterDistinct(ops, NotDismissed(id));
    case ClearFinished => FilterDistinct(ops, IsRunning);
    case _ =>
  }

  lemma GoodNext(ops: Operations, a: Action)
    requires Good(ops) && KeepsId(a)
    ensures Good(PrunedReduce(ops, a))
  {
    ReduceDistinct(ops, a);
    PruneExact(Reduce(ops, a));
  }

  /** Ids stay distinct and at most ten finished records are kept, whatever the actions. */
  lemma {:induction false} RunGood(ops: Operations, actions: seq<Action>)
    requires Good(ops) && forall a :: a in actions ==> KeepsId(a)
    ensures Good(Run(ops, actions))
    decreases |actions|
  {
    if actions != [] {
      assert actions[0] in actions;
      GoodNext(ops, actions[0]);
      RunGood(PrunedReduce(ops, actions[0]), actions[1..]);
    }
  }

  /** An id is only given up by a record that is finished once the action has been applied, or
      was finished when it was dismissed. */
  lemma OnlyFinishedLeave(ops: Operations, a: Action, op: Record)
    requires DistinctIds(ops) && KeepsId(a) && op in ops && !HasId(PrunedReduce(ops, a), op.id)
    ensures (exists r :: r in Reduce(ops, a) && r.id == op.id && IsFinished(r)) || IsFinished(op)
  {
    var mid := Reduce(ops, a);
    var i :| 0 <= i < |ops| && ops[i] == op;
    match a {
      case Started(rec) => assert if mid == ops then mid[i] == op else mid[i + 1] == op;
      case Dismiss(id) => FilterMembers(ops, NotDismissed(id));
      case ClearFinished => FilterMembers(ops, IsRunning);
      case _ => assert mid[i].id == op.id && mid[i] in mid;
    }
    if exists r :: r in mid && r.id == op.id {
      var r :| r in mid && r.id == op.id;
      if !IsFinished(r) {
        StaysWhileRunning(mid, r);
      }
    }
  }

  lemma StaysWhileRunning(ops: Operations, op: Record)
    requires op in ops && IsRunning(op)
    ensures HasId(Prune(ops), op.id)
  {
    FilterMembers(ops, RunningOrIn(IdsOf(Finished(ops)[..Min(MAX_FINISHED_OPERATIONS, |Finished(ops)|)])));
    assert op in Prune(ops);
    var i :| 0 <= i < |Prune(ops)| && Prune(ops)[i] == op;
  }

  /** The survivors of an action that adds nothing keep their relative order. */
  lemma OrderKept(ops: Operations, a: Action)
    requires DistinctIds(ops) && KeepsId(a)
    ensures a.Started? || a.Dismiss? || a.ClearFinished? ==>
              Subsequence(PrunedReduce(ops, a), if a.Started? then [a.rec] + ops else ops)
    ensures a.Updated? || a.Seen? ==>
              |Reduce(ops, a)| == |ops| && (forall i :: 0 <= i < |ops| ==> Reduce(ops, a)[i].id == ops[i].id)
              && Subsequence(PrunedReduce(ops, a), Reduce(ops, a))
  {
    ReduceDistinct(ops, a);
    PruneExact(Reduce(ops, a));
    match a
    case Started(rec) =>
      if HasId(ops, rec.id) {
        assert ([rec] + ops)[1..] == ops;
        SubsequenceOfTail(Prune(ops), [rec] + ops);
      }
    case Dismiss(id) =>
      FilterOrder(ops, NotDismissed(id));
      SubsequenceTrans(PrunedReduce(ops, a), Reduce(ops, a), ops);
    case ClearFinished =>
      FilterOrder(ops, IsRunning);
      SubsequenceTrans(PrunedReduce(ops, a), Reduce(ops, a), ops);
    case _ =>
  }

  lemma SubsequenceOfTail(t: Operations, s: Operations)
    requires s != [] && Subsequence(t, s[1..])
    ensures Subsequence(t, s)
  {
  }

  lemma {:induction false} SubsequenceTrans(t: Operations, u: Operations, s: Operations)
    requires Subsequence(t, u) && Subsequence(u, s)
    ensures Subsequence(t, s)
    decreases |s|
  {
    if t != [] {
      if u[0] == s[0] && Subsequence(u[1..], s[1..]) {
        if t[0] == u[0] && Subsequence(t[1..], u[1..]) {
          SubsequenceTrans(t[1..], u[1..], s[1..]);
        } else {
          SubsequenceTrans(t, u[1..], s[1..]);
        }
      } else {
        SubsequenceTrans(t, u, s[1..]);
      }
    }
  }

  // ---- the same over whole runs ----

  /** Whoever is gone at the end of a run left at one action, and was finished then. */
  lemma {:induction false} RunOnlyFinishedLeave(ops: Operations, actions: seq<Action>, id: string) returns (k: nat)
    requires Good(ops) && (forall a :: a in actions ==> KeepsId(a))
    requires HasId(ops, id) && !HasId(Run(ops, actions), id)
    ensures k < |actions|
    ensures LeavesFinished(Run(ops, actions[..k]), actions[k], id)
    decreases |actions|
  {
    var next := PrunedReduce(ops, actions[0]);
    assert actions[0] in actions;
    if !HasId(next, id) {
      k := 0;
      var i :| 0 <= i < |ops| && ops[i].id == id;
      OnlyFinishedLeave(ops, actions[0], ops[i]);
      assert actions[..0] == [];
    } else {
      GoodNext(ops, actions[0]);
      var j := RunOnlyFinishedLeave(next, actions[1..], id);
      k := j + 1;
      RunFromNext(ops, actions, k);
    }
  }

  /** The action removes the record of that id, and it had finished, before the action or by it. */
  ghost predicate LeavesFinished(ops: Operations, a: Action, id: string) {
    && HasId(ops, id) && !HasId(PrunedReduce(ops, a), id)
    && exists r :: (r in ops || r in Reduce(ops, a)) && r.id == id && IsFinished(r)
  }

  lemma RunFromNext(ops: Operations, actions: seq<Action>, k: nat)
    requires 0 < k <= |actions|
    ensures Run(ops, actions[..k]) == Run(PrunedReduce(ops, actions[0]), actions[1..][..k - 1])
  {
    assert actions[..k][0] == actions[0] && actions[..k][1..] == actions[1..][..k - 1];
  }

  /** The record of `x` stands in front of the record of `y`. */
  predicate Before(ops: Operations, x: string, y: string) {
    ops != [] && if ops[0].id == x then HasId(ops[1..], y) else Before(ops[1..], x, y)
  }

  lemma HasIdCons(first: Record, rest: Operations, id: string)
    ensures HasId([first] + rest, id) <==> first.id == id || HasId(rest, id)
  {
    var ops := [first] + rest;
    assert ops[0] == first && ops[1..] == rest;
    assert forall i :: 0 <= i < |rest| ==> ops[i + 1] == rest[i];
    if HasId(ops, id) && first.id != id {
      var i :| 0 <= i < |ops| && ops[i].id == id;
      assert rest[i - 1].id == id;
    }
  }

  lemma {:induction false} BeforeHas(ops: Operations, x: string, y: string)
    requires Before(ops, x, y)
    ensures HasId(ops, x) && HasId(ops, y)
  {
    assert ops == [ops[0]] + ops[1..];
    HasIdCons(ops[0], ops[1..], x);
    HasIdCons(ops[0], ops[1..], y);
    if ops[0].id != x {
      BeforeHas(ops[1..], x, y);
    }
  }

  lemma FilterHas(ops: Operations, p: Record -> bool, id: string)
    requires HasId(Filter(ops, p), id)
    ensures HasId(ops, id)
  {
    FilterMembers(ops, p);
    var i :| 0 <= i < |Filter(ops, p)| && Filter(ops, p)[i].id == id;
    assert Filter(ops, p)[i] in ops;
  }

  lemma DistinctTail(ops: Operations)
    requires ops != [] && DistinctIds(ops)
    ensures DistinctIds(ops[1..]) && !HasId(ops[1..], ops[0].id)
  {
  }

  lemma {:induction false} FilterBefore(ops: Operations, p: Record -> bool, x: string, y: string)
    requires DistinctIds(ops) && Before(ops, x, y)
    requires HasId(Filter(ops, p), x) && HasId(Filter(ops, p), y)
    ensures Before(Filter(ops, p), x, y)
  {
    var first, tail := ops[0], ops[1..];
    var rest := Filter(tail, p);
    assert Filter(ops, p) == if p(first) then [first] + rest else rest;
    DistinctTail(ops);
    if first.id == x {
      if p(first) {
        HeadBefore(first, rest, x, y);
      } else {
        FilterHas(tail, p, x);
      }
    } else {
      BeforeHas(tail, x, y);
      HasIdCons(first, rest, x);
      HasIdCons(first, rest, y);
      FilterBefore(tail, p, x, y);
      TailBefore(first, rest, x, y);
    }
  }

  lemma TailBefore(first: Record, rest: Operations, x: string, y: string)
    requires first.id != x && Before(rest, x, y)
    ensures Before([first] + rest, x, y)
  {
    assert ([first] + rest)[1..] == rest;
  }

  lemma HeadBefore(first: Record, rest: Operations, x: string, y: string)
    requires first.id == x && x != y && HasId([first] + rest, y)
    ensures Before([first] + rest, x, y)
  {
    HasIdCons(first, rest, y);
    assert ([first] + rest)[1..] == rest;
  }

  lemma {:induction false} MapBefore(ops: Operations, f: Record -> Record, x: string, y: string)
    requires Before(ops, x, y) && forall i :: 0 <= i < |ops| ==> f(ops[i]).id == ops[i].id
    ensures Before(Map(ops, f), x, y)
  {
    var tail := ops[1..];
    assert Map(ops, f)[1..] == Map(tail, f);
    if ops[0].id == x {
      var i :| 0 <= i < |tail| && tail[i].id == y;
      assert Map(tail, f)[i].id == y;
    } else {
      MapBefore(tail, f, x, y);
    }
  }

  lemma PruneBefore(ops: Operations, x: string, y: string)
    requires DistinctIds(ops) && Before(ops, x, y) && HasId(Prune(ops), x) && HasId(Prune(ops), y)
    ensures Before(Prune(ops), x, y)
  {
    if |Finished(ops)| > MAX_FINISHED_OPERATIONS {
      FilterBefore(ops, RunningOrIn(IdsOf(Finished(ops)[..MAX_FINISHED_OPERATIONS])), x, y);
    }
  }

  lemma PruneHas(ops: Operations, id: string)
    requires HasId(Prune(ops), id)
    ensures HasId(ops, id)
  {
    if |Finished(ops)| > MAX_FINISHED_OPERATIONS {
      FilterHas(ops, RunningOrIn(IdsOf(Finished(ops)[..MAX_FINISHED_OPERATIONS])), id);
    }
  }

  lemma ReduceBefore(ops: Operations, a: Action, x: string, y: string)
    requires DistinctIds(ops) && KeepsId(a) && Before(ops, x, y)
    requires HasId(Reduce(ops, a), x) && HasId(Reduce(ops, a), y)
    ensures Before(Reduce(ops, a), x, y)
  {
    match a {
      case Started(rec) =>
        BeforeHas(ops, x, y);
        assert ([rec] + ops)[1..] == ops;
      case Updated(id, patch) => MapBefore(ops, (op: Record) => if op.id == id then Patched(op, patch) else op, x, y);
      case Seen(id) => MapBefore(ops, (op: Record) => if op.id == id then op.(seen := true) else op, x, y);
      case Dismiss(id) => FilterBefore(ops, NotDismissed(id), x, y);
      case ClearFinished => FilterBefore(ops, IsRunning, x, y);
    }
  }

  /** Two records that both survive an action keep their order. */
  lemma StepBefore(ops: Operations, a: Action, x: string, y: string)
    requires DistinctIds(ops) && KeepsId(a) && Before(ops, x, y)
    requires HasId(PrunedReduce(ops, a), x) && HasId(PrunedReduce(ops, a), y)
    ensures Before(PrunedReduce(ops, a), x, y)
  {
    ReduceDistinct(ops, a);
    PruneHas(Reduce(ops, a), x);
    PruneHas(Reduce(ops, a), y);
    ReduceBefore(ops, a, x, y);
    PruneBefore(Reduce(ops, a), x, y);
  }

  /** The record of that id is there throughout the run. */
  ghost predicate There(ops: Operations, actions: seq<Action>, id: string)
    decreases |actions|
  {
    HasId(ops, id) && (actions == [] || There(PrunedReduce(ops, actions[0]), actions[1..], id))
  }

  /** Over any run, records that stay keep their relative order. */
  lemma {:induction false} RunOrderKept(ops: Operations, actions: seq<Action>, x: string, y: string)
    requires Good(ops) && (forall a :: a in actions ==> KeepsId(a))
    requires Before(ops, x, y) && There(ops, actions, x) && There(ops, actions, y)
    ensures Before(Run(ops, actions), x, y)
    decreases |actions|
  {
    if actions != [] {
      assert actions[0] in actions;
      GoodNext(ops, actions[0]);
      StepBefore(ops, actions[0], x, y);
      RunOrderKept(PrunedReduce(ops, actions[0]), actions[1..], x, y);
    }
  }

  // ---- where the promises stop ----

  /** Patching an id keeps the ids distinct exactly when the new id is not another record's. */
  lemma PatchedIdIff(ops: Operations, id: string, patch: Patch)
    requires DistinctIds(ops) && patch.id.Some?
    ensures DistinctIds(Reduce(ops, Updated(id, patch))) <==>
              patch.id.value == id || !HasId(ops, id) || !HasId(ops, patch.id.value)
  {
  }

  /** A finished record is kept exactly when its id is among the kept ones. */
  lemma KeptById(ops: Operations, op: Record, kept: set<string>)
    requires DistinctIds(ops) && op in ops && IsFinished(op)
    ensures HasId(Filter(ops, RunningOrIn(kept)), op.id) <==> op.id in kept
  {
    var pruned := Filter(ops, RunningOrIn(kept));
    FilterMembers(ops, RunningOrIn(kept));
    if op.id in kept {
      assert op in pruned;
    } else {
      assert forall r :: r in ops && r.id == op.id ==> r == op;
      assert forall j :: 0 <= j < |pruned| ==> pruned[j] in pruned;
    }
  }

  lemma AmongFirst(finished: Operations, k: nat, n: nat)
    requires DistinctIds(finished) && k < |finished| && n <= |finished|
    ensures finished[k].id in IdsOf(finished[..n]) <==> k < n
  {
  }

  /** "Newest" counts starts, not finishes: a record that finishes is dropped in the same action
      exactly when ten finished records stand before it in the list. */
  lemma FinishingDroppedIff(ops: Operations, i: nat)
    requires DistinctIds(ops) && i < |ops| && IsFinished(ops[i])
    ensures HasId(Prune(ops), ops[i].id) <==> |Finished(ops[..i])| < 10
  {
    var finished := Finished(ops);
    FinishedPosition(ops, i);
    if |finished| > MAX_FINISHED_OPERATIONS {
      FilterDistinct(ops, IsFinished);
      AmongFirst(finished, |Finished(ops[..i])|, MAX_FINISHED_OPERATIONS);
      KeptById(ops, ops[i], IdsOf(finished[..MAX_FINISHED_OPERATIONS]));
    }
  }

  /** A finished record's place among the finished ones. */
  lemma {:induction false} FinishedPosition(ops: Operations, i: nat)
    requires i < |ops| && IsFinished(ops[i])
    ensures |Finished(ops[..i])| < |Finished(ops)| && Finished(ops)[|Finished(ops[..i])|] == ops[i]
  {
    if i == 0 {
      assert ops[..0] == [];
    } else {
      assert ops[..i][0] == ops[0] && ops[..i][1..] == ops[1..][..i - 1];
      FinishedPosition(ops[1..], i - 1);
    }
  }
}
