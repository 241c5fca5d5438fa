/** Loading decrypted user data under a generation guard, dispatching into the auth machine.
    A load is one segment before its await and one after it; any number may overlap. */
module UserLoading {
  import opened Common
  import A = AuthMachine

  /** A load in progress: the generation it captured and the user it loads. */
  datatype Load = Load(generation: nat, user: A.Ref)

  datatype State = State(
    generation: nat,
    runLoad: bool,
    user: Option<A.Ref>,
    loads: map<nat, Load>,
    used: set<nat>,          // ids of loads begun so far
    committed: seq<nat>,     // ids of loads that dispatched their result, in order
    auth: A.State)

  datatype Event =
    | Begin(id: nat)
    | Settle(id: nat, result: Option<A.Ref>)  // None: nothing was decrypted, or the load failed
    | Invalidate
    | AllowLoads
    | StopLoads                               // the switch alone, as sign-in and the auth listener turn it off
    | UserRef(user: Option<A.Ref>)
    | Dispatch(e: A.Event)

  predicate Enabled(s: State, e: Event) {
    match e
    case Begin(id) => id !in s.used
    case Settle(id, _) => id in s.loads
    case _ => true
  }

  function Step(s: State, e: Event): State
    requires Enabled(s, e)
  {
    match e
    case Begin(id) =>
      var t := s.(used := s.used + {id});
      if s.user.None? || !s.runLoad then t
      else t.(loads := s.loads[id := Load(s.generation, s.user.value)])
    case Settle(id, result) =>
      var t := s.(loads := s.loads - {id});
      if s.loads[id].generation == s.generation && s.runLoad && s.user.Some? then
        t.(committed := s.committed + [id], auth := A.Reduce(s.auth, A.UserDecryptedChanged(result)))
      else t
    case Invalidate => s.(generation := s.generation + 1, runLoad := false)
    case AllowLoads => s.(runLoad := true)
    case StopLoads => s.(runLoad := false)
    case UserRef(user) => s.(user := user)
    case Dispatch(e) => s.(auth := A.Reduce(s.auth, e))
  }

  ghost predicate Legal(s: State, es: seq<Event>)
    decreases |es|
  {
    es == [] || (Enabled(s, es[0]) && Legal(Step(s, es[0]), es[1..]))
  }

  function Run(s: State, es: seq<Event>): State
    requires Legal(s, es)
    decreases |es|
  {
    if es == [] then s else Run(Step(s, es[0]), es[1..])
  }

  const START := State(0, false, None, map[], {}, [], A.INITIAL)

  ghost predicate WellFormed(s: State) {
    forall id :: id in s.loads ==> id in s.used && s.loads[id].generation <= s.generation
  }

  lemma {:induction false} RunWellFormed(s: State, es: seq<Event>)
    requires WellFormed(s) && Legal(s, es)
    ensures WellFormed(Run(s, es))
    decreases |es|
  {
    if es != [] {
      RunWellFormed(Step(s, es[0]), es[1..]);
    }
  }

  /** A load of an earlier generation, or one that is over, commits nothing from here on. */
  lemma {:induction false} StaleNeverCommits(s: State, es: seq<Event>, id: nat)
    requires Legal(s, es) && id in s.used
    requires id in s.loads ==> s.loads[id].generation < s.generation
    ensures s.committed <= Run(s, es).committed
    ensures id !in Run(s, es).committed[|s.committed|..]
    decreases |es|
  {
    if es != [] {
      var t := Step(s, es[0]);
      StaleNeverCommits(t, es[1..], id);
      var end := Run(s, es).committed;
      if t.committed != s.committed {
        assert t.committed == s.committed + [es[0].id] && es[0].id != id;
        assert end[|s.committed|] == es[0].id;
        assert end[|s.committed|..] == [es[0].id] + end[|t.committed|..];
      }
    }
  }

  /** Whatever overlaps, locks, unlocks and signs in again: a load begun before an invalidation
      never commits after it. */
  lemma LateLoadsNeverCommit(before: seq<Event>, after: seq<Event>, id: nat)
    requires Legal(START, before) && id in Run(START, before).used
    requires Legal(Step(Run(START, before), Invalidate), after)
    ensures var s := Run(START, before);
            && s.committed <= Run(Step(s, Invalidate), after).committed
            && id !in Run(Step(s, Invalidate), after).committed[|s.committed|..]
  {
    RunWellFormed(START, before);
    StaleNeverCommits(Step(Run(START, before), Invalidate), after, id);
  }

  predicate Allows(e: Event) {
    e.AllowLoads?
  }

  /** After an invalidation, or once the switch is off, nothing is begun and nothing is committed
      until loading is allowed again. */
  lemma {:induction false} NothingUntilAllowed(s: State, es: seq<Event>)
    requires Legal(s, es) && !s.runLoad && forall e :: e in es ==> !Allows(e)
    ensures Run(s, es).committed == s.committed && Run(s, es).loads.Keys <= s.loads.Keys
    decreases |es|
  {
    if es != [] {
      assert es[0] in es;
      NothingUntilAllowed(Step(s, es[0]), es[1..]);
    }
  }

  lemma InvalidateStopsLoads(s: State)
    ensures !Step(s, Invalidate).runLoad && !Step(s, StopLoads).runLoad && Step(s, AllowLoads).runLoad
    ensures forall id :: id in s.loads ==> WellFormed(s) ==> s.loads[id].generation < Step(s, Invalidate).generation
    ensures Step(s, StopLoads).generation == s.generation == Step(s, AllowLoads).generation
  {
  }

  /** A load that begins and settles undisturbed hands its result to the auth machine. */
  lemma UndisturbedLoadCommits(s: State, id: nat, user: A.Ref, result: Option<A.Ref>)
    requires id !in s.used && id !in s.loads && s.runLoad && s.user == Some(user)
    ensures Enabled(Step(s, Begin(id)), Settle(id, result))
    ensures var t := Step(Step(s, Begin(id)), Settle(id, result));
            && t.committed == s.committed + [id] && t.loads == s.loads
            && t.auth == A.Reduce(s.auth, A.UserDecryptedChanged(result))
  {
    assert s.loads[id := Load(s.generation, user)] - {id} == s.loads;
  }

  /** With the machine sealed, loads that commit are dropped by its own guard. */
  lemma {:induction false} SealedThroughLoads(s: State, es: seq<Event>)
    requires Legal(s, es) && A.Sealed(s.auth)
    requires forall e :: e in es && e.Dispatch? ==> !A.CanReopen(e.e)
    ensures A.Sealed(Run(s, es).auth)
    decreases |es|
  {
    if es != [] {
      assert es[0] in es;
      match es[0] {
        case Dispatch(e) => A.SealedUnlessReopened(s.auth, e);
        case Settle(_, result) => A.SealedUnlessReopened(s.auth, A.UserDecryptedChanged(result));
        case _ =>
      }
      SealedThroughLoads(Step(s, es[0]), es[1..]);
    }
  }

  /** A load that settles now is committed. */
  predicate Commits(s: State, id: nat) {
    id in s.loads && s.loads[id].generation == s.generation && s.runLoad && s.user.Some?
  }

  /** The guard compares generations, not users: what a settling load dispatches is another
      user's data exactly if generation and switch stand and the user has changed. */
  lemma CommitsAcrossUsers(s: State, id: nat, result: Option<A.Ref>)
    requires id in s.loads
    ensures (Step(s, Settle(id, result)).committed != s.committed && s.user != Some(s.loads[id].user)) <==>
              s.loads[id].generation == s.generation && s.runLoad && s.user.Some? && s.user.value != s.loads[id].user
  {
  }

  /** Every commit of the run is for the user who is current at that moment. */
  ghost predicate OwnCommits(s: State, es: seq<Event>)
    requires Legal(s, es)
    decreases |es|
  {
    es == [] ||
    (&& (es[0].Settle? && Commits(s, es[0].id) ==> s.user == Some(s.loads[es[0].id].user))
     && OwnCommits(Step(s, es[0]), es[1..]))
  }

  /** Every change of the user is followed by an invalidation before any load settles; `changed`
      says that one is outstanding. */
  ghost predicate Guarded(s: State, es: seq<Event>, changed: bool)
    requires Legal(s, es)
    decreases |es|
  {
    es == [] ||
    match es[0]
    case Settle(_, _) => !changed && Guarded(Step(s, es[0]), es[1..], changed)
    case Invalidate => Guarded(Step(s, es[0]), es[1..], false)
    case UserRef(user) => Guarded(Step(s, es[0]), es[1..], changed || user != s.user)
    case _ => Guarded(Step(s, es[0]), es[1..], changed)
  }

  /** The loads of the current generation are the current user's. */
  ghost predicate OwnLoads(s: State) {
    forall id :: id in s.loads && s.loads[id].generation == s.generation ==> Some(s.loads[id].user) == s.user
  }

  /** Then every commit is the current user's own data. */
  lemma {:induction false} GuardedCommitsAreOwn(s: State, es: seq<Event>, changed: bool)
    requires WellFormed(s) && Legal(s, es) && Guarded(s, es, changed) && (changed || OwnLoads(s))
    ensures OwnCommits(s, es)
    decreases |es|
  {
    if es != [] {
      var changes := match es[0]
        case Invalidate => false
        case UserRef(user) => changed || user != s.user
        case _ => changed;
      GuardedCommitsAreOwn(Step(s, es[0]), es[1..], changes);
    }
  }

  lemma GuardedRunCommitsOwn(es: seq<Event>)
    requires Legal(START, es) && Guarded(START, es, false)
    ensures OwnCommits(START, es)
  {
    GuardedCommitsAreOwn(START, es, false);
  }

  lemma OneEvent(s: State, e: Event, es: seq<Event>)
    requires Enabled(s, e) && Legal(Step(s, e), es)
    ensures Legal(s, [e] + es) && Run(s, [e] + es) == Run(Step(s, e), es)
    ensures !OwnCommits(Step(s, e), es) ==> !OwnCommits(s, [e] + es)
  {
    assert ([e] + es)[1..] == es;
  }

  /** User 2 is signed in on top of a load begun for user 1, and the load settles. */
  const SWITCH: seq<Event> := [UserRef(Some(2)), Dispatch(A.FirebaseUserEstablished(2)), Settle(0, Some(7))]

  lemma SwitchShows()
    ensures A.Reduce(A.Reduce(A.INITIAL, A.FirebaseUserEstablished(2)), A.UserDecryptedChanged(Some(7))).userDecrypted
         == Some(7)
  {
  }

  lemma SwitchCommits(c: State)
    requires c == State(0, true, Some(1), map[0 := Load(0, 1)], {0}, [], c.auth)
    ensures Legal(c, SWITCH) && !OwnCommits(c, SWITCH) && Run(c, SWITCH).user == Some(2)
    ensures Run(c, SWITCH).auth == A.Reduce(A.Reduce(c.auth, A.FirebaseUserEstablished(2)), A.UserDecryptedChanged(Some(7)))
  {
    var d := Step(c, UserRef(Some(2)));
    var e := Step(d, Dispatch(A.FirebaseUserEstablished(2)));
    assert Commits(e, 0);
    var es := [Settle(0, Some(7))];
    assert es[1..] == [] && Legal(e, es) && !OwnCommits(e, es) && Run(e, es) == Step(e, es[0]);
    OneEvent(d, Dispatch(A.FirebaseUserEstablished(2)), es);
    OneEvent(c, UserRef(Some(2)), [Dispatch(A.FirebaseUserEstablished(2))] + es);
    assert [UserRef(Some(2))] + ([Dispatch(A.FirebaseUserEstablished(2))] + es) == SWITCH;
  }

  /** Without it: user 2 is current and sees what was decrypted for user 1. */
  lemma ForeignCommit()
    ensures var es := [UserRef(Some(1)), AllowLoads, Begin(0)] + SWITCH;
            && Legal(START, es) && !OwnCommits(START, es)
            && Run(START, es).user == Some(2) && Run(START, es).auth.userDecrypted == Some(7)
  {
    var a := Step(START, UserRef(Some(1)));
    var b := Step(a, AllowLoads);
    SwitchCommits(Step(b, Begin(0)));
    SwitchShows();
    OneEvent(b, Begin(0), SWITCH);
    OneEvent(a, AllowLoads, [Begin(0)] + SWITCH);
    OneEvent(START, UserRef(Some(1)), [AllowLoads] + ([Begin(0)] + SWITCH));
    assert [UserRef(Some(1))] + ([AllowLoads] + ([Begin(0)] + SWITCH)) == [UserRef(Some(1)), AllowLoads, Begin(0)] + SWITCH;
  }

  class UserLoader {
    var generation: nat
    var runLoad: bool
    var user: Option<A.Ref>
    var loads: map<nat, Load>
    ghost var used: set<nat>
    ghost var committed: seq<nat>
    var auth: A.State

    ghost function View(): State
      reads this
    {
      State(generation, runLoad, user, loads, used, committed, auth)
    }

    constructor ()
      ensures View() == START
    {
      generation, runLoad, user, loads, used, committed, auth := 0, false, None, map[], {}, [], A.INITIAL;
    }

    method InvalidateLoads()
      modifies this
      ensures View() == Step(old(View()), Invalidate)
    {
      generation := generation + 1;
      runLoad := false;
    }

    /** `loadUser` up to its await. */
    method BeginLoad(id: nat)
      requires id !in used
      modifies this
      ensures View() == Step(old(View()), Begin(id))
    {
      used := used + {id};
      if user.None? || !runLoad {
        return;
      }
      loads := loads[id := Load(generation, user.value)];
    }

    /** `loadUser` after its await, with its `finally`. */
    method SettleLoad(id: nat, result: Option<A.Ref>)
      requires id in loads
      modifies this
      ensures View() == Step(old(View()), Settle(id, result))
    {
      var captured := loads[id].generation;
      loads := loads - {id};
      var stillValid := captured == generation && runLoad && user.Some?;
      if stillValid {
        committed := committed + [id];
        auth := A.Reduce(auth, A.UserDecryptedChanged(result));
      }
    }
  }
}
