/** The auth state machine: a pure reducer over nine phases, and what every run of it keeps. */
module AuthMachine {
  import opened Common

  datatype Phase =
    | Bootstrapping
    | SignedOut
    | FirebaseAuthenticated
    | MfaPending
    | Unlocking
    | Authenticated
    | LocallyLocked
    | SigningOut
    | Deleting

  /** Objects the machine stores and compares by identity only. */
  type Ref = nat

  /** Compared by `uid` and `username`; `rest` stands for the other fields. */
  datatype LastUser = LastUser(uid: string, username: string, rest: Ref)

  /** The flags that only steer what is displayed. */
  datatype Ui = Ui(
    isLocalSessionLocked: bool,
    authCompleted: bool,
    isAuthLoading: bool,
    isCheckingInactivity: bool,
    appStateIsBackground: bool,
    lastSignedInUser: Option<LastUser>,
    lastUsedBiometricSignIn: bool,
    error: Option<string>)

  datatype State = State(
    phase: Phase,
    priorPhase: Option<Phase>,
    user: Option<Ref>,
    fbUser: Option<Ref>,
    sessionAuthenticated: bool,
    pendingPassword: Option<string>,
    userDecrypted: Option<Ref>,
    ui: Ui)

  datatype Event =
    | BootstrapCompleted
    | FirebaseUserEstablished(fb: Ref)
    | FirebaseUserLost
    | LocalLockDetected(last: LastUser)
    | SessionCreated
    | SessionAuthLost
    | MfaChallengeRaised
    | MfaChallengeCancelled
    | UnlockRequested
    | UnlockSucceeded
    | UnlockFailed(err: string)
    | LockRequested
    | LockCompleted
    | LocalLockCleared
    | SignOutStarted
    | SignOutCompleted
    | SignOutFailed(err: string)
    | DeletionStarted
    | DeletionCompleted
    | DeletionFailed(err: string)
    | PartialAuthCleared
    | AuthError(err: string)
    | AuthUiSettled
    | AuthenticatedUiReady
    | LoadingStarted
    | LoadingFinished
    | CheckingInactivity(checking: bool)
    | AppStateChanged(isBackground: bool)
    | LastSignedInUserChanged(lastUser: Option<LastUser>)
    | BiometricSignInMarked(used: bool)
    | PendingPasswordChanged(password: Option<string>)
    | UserDecryptedChanged(decrypted: Option<Ref>)
    | UserChanged(newUser: Ref)
    | UserCleared
    | FirebaseUserCleared

  const INITIAL :=
    State(Bootstrapping, None, None, None, false, None, None, Ui(false, false, false, false, false, None, false, None))

  predicate PasswordAllowed(p: Phase) {
    p.Bootstrapping? || p.SignedOut? || p.FirebaseAuthenticated? || p.MfaPending? || p.Unlocking?
  }

  predicate DecryptedAllowed(p: Phase) {
    p.FirebaseAuthenticated? || p.MfaPending? || p.Unlocking? || p.Authenticated?
  }

  /** Where every ended session lands; `keepAuthCompleted` is for the cleanup of a partial one. */
  function ToSignedOut(s: State, keepAuthCompleted: bool): State {
    State(SignedOut, None, None, None, false, None, None,
          s.ui.(isLocalSessionLocked := false, authCompleted := !keepAuthCompleted || s.ui.authCompleted,
                isAuthLoading := false, isCheckingInactivity := false, error := None))
  }

  /** Where every lock lands: as signed out, but the session can be unlocked again. */
  function ToLocallyLocked(s: State): State {
    State(LocallyLocked, None, None, None, false, None, None,
          s.ui.(isLocalSessionLocked := true, authCompleted := true,
                isAuthLoading := false, isCheckingInactivity := false, error := None))
  }

  function Or<T>(a: Option<T>, b: Option<T>): Option<T> {
    if a.Some? then a else b
  }

  function OrPhase(a: Option<Phase>, default: Phase): Phase {
    if a.Some? then a.value else default
  }

  predicate SameLastUser(a: Option<LastUser>, b: Option<LastUser>) {
    || (a.None? && b.None?)
    || (a.Some? && b.Some? && a.value.uid == b.value.uid && a.value.username == b.value.username)
  }

  /** Bootstrap, Firebase session, backend session and MFA. */
  function ReduceSession(s: State, e: Event): State
    requires IsSession(e)
  {
    match e
    case BootstrapCompleted =>
      if s.phase.SignedOut? || s.phase.Deleting? then s else ToSignedOut(s, false)
    case FirebaseUserLost =>
      if s.phase.SignedOut? || s.phase.Deleting? then s else ToSignedOut(s, false)
    case FirebaseUserEstablished(fb) =>
      var t := s.(fbUser := Some(fb), user := if s.sessionAuthenticated then Some(fb) else s.user);
      if s.phase.LocallyLocked? || s.phase.Unlocking? then t.(ui := s.ui.(error := None))
      else t.(phase := if s.phase.Bootstrapping? || s.phase.SignedOut? then FirebaseAuthenticated else s.phase,
              ui := s.ui.(isLocalSessionLocked := false, error := None))
    case LocalLockDetected(last) =>
      var t := ToLocallyLocked(s);
      t.(ui := t.ui.(lastSignedInUser := Some(last)))
    case SessionCreated =>
      if s.sessionAuthenticated && !s.phase.MfaPending? then s
      else
        var t := s.(sessionAuthenticated := true, user := Or(s.fbUser, s.user), priorPhase := None);
        if s.phase.Unlocking? then t.(ui := s.ui.(error := None))
        else t.(phase := if s.phase.MfaPending? || s.phase.LocallyLocked? || s.phase.Bootstrapping?
                         then FirebaseAuthenticated else s.phase,
                ui := s.ui.(isLocalSessionLocked := false, error := None))
    case SessionAuthLost => s.(sessionAuthenticated := false)
    case MfaChallengeRaised =>
      if s.phase.MfaPending? then s
      else s.(phase := MfaPending, priorPhase := Some(s.phase), sessionAuthenticated := false,
              ui := s.ui.(isAuthLoading := false, error := None))
    case MfaChallengeCancelled =>
      if !s.phase.MfaPending? then s
      else s.(phase := OrPhase(s.priorPhase, FirebaseAuthenticated), priorPhase := None,
              ui := s.ui.(isAuthLoading := false, error := None))
  }

  /** Unlock, lock, sign-out and account deletion. */
  function ReduceFlow(s: State, e: Event): State
    requires IsFlow(e)
  {
    match e
    case UnlockRequested =>
      if s.phase.LocallyLocked? then s.(phase := Unlocking, ui := s.ui.(error := None)) else s
    case UnlockSucceeded =>
      if !s.phase.Unlocking? && !s.phase.LocallyLocked? then s
      else s.(phase := if s.fbUser.Some? then FirebaseAuthenticated else s.phase,
              ui := s.ui.(isLocalSessionLocked := false, error := None))
    case UnlockFailed(err) =>
      if !s.phase.Unlocking? then s
      else
        var t := ToLocallyLocked(s);
        t.(ui := t.ui.(error := Some(err)))
    case LockRequested =>
      if s.ui.isAuthLoading && s.ui.error.None? then s
      else s.(ui := s.ui.(isAuthLoading := true, error := None))
    case LockCompleted => if s.phase.LocallyLocked? then s else ToLocallyLocked(s)
    case LocalLockCleared => s.(ui := s.ui.(isLocalSessionLocked := false))
    case SignOutStarted =>
      if s.phase.SigningOut? then s
      else s.(phase := SigningOut, priorPhase := if s.phase.Deleting? then s.priorPhase else Some(s.phase),
              ui := s.ui.(isAuthLoading := true, error := None))
    case SignOutCompleted => if s.phase.SignedOut? then s else ToSignedOut(s, false)
    case SignOutFailed(err) =>
      if !s.phase.SigningOut? then s
      else s.(phase := OrPhase(s.priorPhase, SignedOut), priorPhase := None,
              ui := s.ui.(isAuthLoading := false, error := Some(err)))
    case DeletionStarted =>
      if s.phase.Deleting? then s
      else s.(phase := Deleting, priorPhase := if s.phase.SigningOut? then s.priorPhase else Some(s.phase),
              ui := s.ui.(isAuthLoading := true, error := None))
    case DeletionCompleted => if s.phase.SignedOut? then s else ToSignedOut(s, false)
    case DeletionFailed(err) =>
      if !s.phase.Deleting? then s
      else s.(phase := OrPhase(s.priorPhase, SignedOut), priorPhase := None,
              ui := s.ui.(isAuthLoading := false, error := Some(err)))
  }

  /** Errors, cleanup and the settling of the UI. */
  function ReduceSettling(s: State, e: Event): State
    requires IsSettling(e)
  {
    match e
    case PartialAuthCleared =>
      if s.phase.SigningOut? || s.phase.Deleting? then
        State(s.phase, s.priorPhase, None, None, false, None, None,
              s.ui.(isLocalSessionLocked := false, isAuthLoading := false, isCheckingInactivity := false, error := None))
      else ToSignedOut(s, true)
    case AuthError(err) => s.(ui := s.ui.(error := Some(err)))
    case AuthUiSettled =>
      if s.phase.Bootstrapping? then ToSignedOut(s, false)
      else if s.ui.authCompleted && !s.ui.isAuthLoading && !s.ui.isCheckingInactivity then s
      else s.(ui := s.ui.(authCompleted := true, isAuthLoading := false, isCheckingInactivity := false, error := None))
    case AuthenticatedUiReady =>
      if Ready(s) then
        s.(phase := Authenticated, priorPhase := None, pendingPassword := None,
           ui := s.ui.(authCompleted := true, isAuthLoading := false, isCheckingInactivity := false, error := None))
      else s
  }

  /** Single fields.  A pending password or decrypted data is only stored in phases that allow it. */
  function ReduceField(s: State, e: Event): State
    requires IsField(e)
  {
    match e
    case LoadingStarted =>
      if s.ui.isAuthLoading then s else s.(ui := s.ui.(isAuthLoading := true, error := None))
    case LoadingFinished => s.(ui := s.ui.(isAuthLoading := false))
    case CheckingInactivity(checking) => s.(ui := s.ui.(isCheckingInactivity := checking))
    case AppStateChanged(isBackground) => s.(ui := s.ui.(appStateIsBackground := isBackground))
    case LastSignedInUserChanged(lastUser) =>
      if SameLastUser(s.ui.lastSignedInUser, lastUser) then s else s.(ui := s.ui.(lastSignedInUser := lastUser))
    case BiometricSignInMarked(used) => s.(ui := s.ui.(lastUsedBiometricSignIn := used))
    case PendingPasswordChanged(password) =>
      if password.None? || password.value == "" then s.(pendingPassword := None)
      else if !PasswordAllowed(s.phase) then s
      else s.(pendingPassword := password)
    case UserDecryptedChanged(decrypted) =>
      if decrypted.None? then s.(userDecrypted := None)
      else if !DecryptedAllowed(s.phase) then s
      else s.(userDecrypted := decrypted)
    case UserChanged(newUser) => s.(user := Some(newUser), ui := s.ui.(error := None))
    case UserCleared => s.(user := None)
    case FirebaseUserCleared => s.(fbUser := None)
  }

  predicate IsSession(e: Event) {
    || e.BootstrapCompleted? || e.FirebaseUserEstablished? || e.FirebaseUserLost? || e.LocalLockDetected?
    || e.SessionCreated? || e.SessionAuthLost? || e.MfaChallengeRaised? || e.MfaChallengeCancelled?
  }

  predicate IsFlow(e: Event) {
    || e.UnlockRequested? || e.UnlockSucceeded? || e.UnlockFailed? || e.LockRequested? || e.LockCompleted?
    || e.LocalLockCleared? || e.SignOutStarted? || e.SignOutCompleted? || e.SignOutFailed?
    || e.DeletionStarted? || e.DeletionCompleted? || e.DeletionFailed?
  }

  predicate IsSettling(e: Event) {
    e.PartialAuthCleared? || e.AuthError? || e.AuthUiSettled? || e.AuthenticatedUiReady?
  }

  predicate IsField(e: Event) {
    !IsSession(e) && !IsFlow(e) && !IsSettling(e)
  }

  function Reduce(s: State, e: Event): State {
    if IsSession(e) then ReduceSession(s, e)
    else if IsFlow(e) then ReduceFlow(s, e)
    else if IsSettling(e) then ReduceSettling(s, e)
    else ReduceField(s, e)
  }

  /** What the UI needs before it may show the authenticated screens. */
  predicate Ready(s: State) {
    && (s.phase.FirebaseAuthenticated? || s.phase.Unlocking?)
    && s.fbUser.Some? && s.sessionAuthenticated && s.user.Some? && s.userDecrypted.Some?
  }

  function Run(s: State, es: seq<Event>): State
    decreases |es|
  {
    if es == [] then s else Run(Reduce(s, es[0]), es[1..])
  }

  lemma {:induction false} RunAppend(s: State, es: seq<Event>, fs: seq<Event>)
    ensures Run(s, es + fs) == Run(Run(s, es), fs)
    decreases |es|
  {
    if es == [] {
      assert es + fs == fs;
    } else {
      assert (es + fs)[1..] == es[1..] + fs;
      RunAppend(Reduce(s, es[0]), es[1..], fs);
    }
  }

  // ---- the saved phase ----

  /** A saved phase exists only inside a flow that can be cancelled, is never that flow, and a
      sign-out or deletion never saves another one. */
  predicate PriorDisciplined(s: State) {
    s.priorPhase.Some? ==>
      && (s.phase.MfaPending? || s.phase.SigningOut? || s.phase.Deleting?)
      && s.priorPhase.value != s.phase
      && (s.phase.MfaPending? || (!s.priorPhase.value.SigningOut? && !s.priorPhase.value.Deleting?))
  }

  lemma StepDisciplined(s: State, e: Event)
    requires PriorDisciplined(s)
    ensures PriorDisciplined(Reduce(s, e))
  {
  }

  lemma {:induction false} RunDisciplined(s: State, es: seq<Event>)
    requires PriorDisciplined(s)
    ensures PriorDisciplined(Run(s, es))
    decreases |es|
  {
    if es != [] {
      StepDisciplined(s, es[0]);
      RunDisciplined(Reduce(s, es[0]), es[1..]);
    }
  }

  lemma SessionIdempotent(s: State, e: Event)
    requires PriorDisciplined(s) && IsSession(e)
    ensures ReduceSession(ReduceSession(s, e), e) == ReduceSession(s, e)
  {
  }

  lemma FlowIdempotent(s: State, e: Event)
    requires PriorDisciplined(s) && IsFlow(e)
    ensures ReduceFlow(ReduceFlow(s, e), e) == ReduceFlow(s, e)
  {
  }

  lemma RestIdempotent(s: State, e: Event)
    ensures IsSettling(e) ==> ReduceSettling(ReduceSettling(s, e), e) == ReduceSettling(s, e)
    ensures IsField(e) ==> ReduceField(ReduceField(s, e), e) == ReduceField(s, e)
  {
  }

  /** Delivering an event twice in a row is delivering it once, in every reachable state. */
  lemma {:induction false} EventsIdempotent(es: seq<Event>, e: Event)
    ensures var s := Run(INITIAL, es);
            PriorDisciplined(s) && Reduce(Reduce(s, e), e) == Reduce(s, e)
  {
    RunDisciplined(INITIAL, es);
    var s := Run(INITIAL, es);
    if IsSession(e) {
      SessionIdempotent(s, e);
    } else if IsFlow(e) {
      FlowIdempotent(s, e);
    } else {
      RestIdempotent(s, e);
    }
  }

  /** Without that discipline a second delivery would matter. */
  lemma IdempotenceNeedsDiscipline()
    ensures var s := INITIAL.(phase := MfaPending, priorPhase := Some(MfaPending));
            Reduce(Reduce(s, MfaChallengeCancelled), MfaChallengeCancelled) != Reduce(s, MfaChallengeCancelled)
  {
  }

  // ---- late decrypts ----

  predicate ClosedPhase(p: Phase) {
    p.LocallyLocked? || p.SignedOut? || p.SigningOut? || p.Deleting?
  }

  /** Locked, signed out or on the way there, with nothing decrypted and no way back saved. */
  predicate Sealed(s: State) {
    ClosedPhase(s.phase) && s.userDecrypted.None? && (s.priorPhase.Some? ==> ClosedPhase(s.priorPhase.value))
  }

  /** The events that open a sealed state again. */
  predicate Reopens(s: State, e: Event) {
    match e
    case FirebaseUserEstablished(_) => s.phase.SignedOut?
    case SessionCreated => s.phase.LocallyLocked? && !s.sessionAuthenticated
    case MfaChallengeRaised => true
    case UnlockRequested => s.phase.LocallyLocked?
    case UnlockSucceeded => s.phase.LocallyLocked? && s.fbUser.Some?
    case _ => false
  }

  lemma SealedSession(s: State, e: Event)
    requires Sealed(s) && IsSession(e)
    ensures Sealed(ReduceSession(s, e)) <==> !Reopens(s, e)
  {
  }

  lemma SealedFlow(s: State, e: Event)
    requires Sealed(s) && IsFlow(e)
    ensures Sealed(ReduceFlow(s, e)) <==> !Reopens(s, e)
  {
  }

  /** A sealed state stays sealed unless, and always leaves when, one of five events meets its
      phase. */
  lemma SealedUnlessReopened(s: State, e: Event)
    requires Sealed(s)
    ensures Sealed(Reduce(s, e)) <==> !Reopens(s, e)
  {
    if IsSession(e) {
      SealedSession(s, e);
    } else if IsFlow(e) {
      SealedFlow(s, e);
    }
  }

  predicate CanReopen(e: Event) {
    e.FirebaseUserEstablished? || e.SessionCreated? || e.MfaChallengeRaised? || e.UnlockRequested? || e.UnlockSucceeded?
  }

  /** However late a decrypt arrives, and how often, a sealed state never shows decrypted data
      before one of those five events. */
  lemma {:induction false} LateDecryptsNeverRehydrate(s: State, es: seq<Event>)
    requires Sealed(s) && forall e :: e in es ==> !CanReopen(e)
    ensures Sealed(Run(s, es)) && Run(s, es).userDecrypted.None?
    decreases |es|
  {
    if es != [] {
      assert !CanReopen(es[0]);
      SealedUnlessReopened(s, es[0]);
      LateDecryptsNeverRehydrate(Reduce(s, es[0]), es[1..]);
    }
  }

  /** Each of the five, where it applies, lets the next decrypt through. */
  lemma ReopeningRehydrates(s: State, e: Event, data: Ref)
    requires Sealed(s) && Reopens(s, e)
    ensures Reduce(Reduce(s, e), UserDecryptedChanged(Some(data))).userDecrypted == Some(data)
  {
  }

  /** "Signed out or locked implies nothing decrypted" is not kept by every run: a cancelled MFA
      challenge returns to the phase it interrupted with what was decrypted meanwhile. */
  lemma SignedOutWithDecrypted()
    ensures var s := Run(INITIAL, [FirebaseUserLost, MfaChallengeRaised, UserDecryptedChanged(Some(1)), MfaChallengeCancelled]);
            s.phase.SignedOut? && s.userDecrypted == Some(1)
  {
  }

  /** The failure branches that return to a saved phase, or to signed-out when none is saved. */
  predicate Restores(s: State, e: Event) {
    || (e.MfaChallengeCancelled? && s.phase.MfaPending?)
    || (e.SignOutFailed? && s.phase.SigningOut?)
    || (e.DeletionFailed? && s.phase.Deleting?)
  }

  predicate AtRestWithDecrypted(s: State) {
    (s.phase.SignedOut? || s.phase.LocallyLocked?) && s.userDecrypted.Some?
  }

  /** Exactly when a step enters a signed-out or locked phase with data still decrypted. */
  lemma EntersWithDecryptedIff(s: State, e: Event)
    requires PriorDisciplined(s) && !s.phase.SignedOut? && !s.phase.LocallyLocked?
    ensures AtRestWithDecrypted(Reduce(s, e)) <==>
              && Restores(s, e) && s.userDecrypted.Some?
              && (if s.priorPhase.Some? then s.priorPhase.value.SignedOut? || s.priorPhase.value.LocallyLocked?
                  else !s.phase.MfaPending?)
  {
  }

  // ---- 'authenticated' has a witness ----

  predicate ShowsAuthenticated(s: State) {
    s.phase.Authenticated? || s.priorPhase == Some(Authenticated)
  }

  /** The machine only starts to show, or to remember, 'authenticated' by a ready UI event on a
      state with a Firebase user, a session, a UI user and decrypted data. */
  lemma OnlyReadyAuthenticates(s: State, e: Event)
    requires PriorDisciplined(s) && !ShowsAuthenticated(s)
    ensures ShowsAuthenticated(Reduce(s, e)) <==> e.AuthenticatedUiReady? && Ready(s)
  {
  }

  /** Whenever the machine is 'authenticated' or would return there, a ready UI event fired, and
      ever since it has been so: no terminal transition came after it. */
  lemma {:induction false} AuthenticatedHasWitness(es: seq<Event>) returns (i: nat)
    requires ShowsAuthenticated(Run(INITIAL, es))
    ensures i < |es| && es[i].AuthenticatedUiReady? && Ready(Run(INITIAL, es[..i]))
    ensures forall j :: i < j <= |es| ==> ShowsAuthenticated(Run(INITIAL, es[..j]))
    decreases |es|
  {
    if es == [] {
      assert false;
    }
    var front, last := es[..|es| - 1], es[|es| - 1];
    assert es == front + [last];
    RunAppend(INITIAL, front, [last]);
    var s := Run(INITIAL, front);
    assert Run(s, [last]) == Reduce(s, last) by { assert [last][1..] == []; }
    RunDisciplined(INITIAL, front);
    assert es[..|es|] == es;
    if ShowsAuthenticated(s) {
      i := AuthenticatedHasWitness(front);
      assert es[..i] == front[..i];
      assert forall j :: 0 <= j <= |front| ==> es[..j] == front[..j];
    } else {
      OnlyReadyAuthenticates(s, last);
      i := |es| - 1;
    }
  }

  /** A terminal transition ends it. */
  lemma TerminalEndsAuthenticated(s: State, keep: bool)
    ensures !ShowsAuthenticated(ToSignedOut(s, keep)) && !ShowsAuthenticated(ToLocallyLocked(s))
  {
  }

  /** What entering 'authenticated' requires. */
  predicate HasEvidence(s: State) {
    s.fbUser.Some? && s.sessionAuthenticated && s.user.Some? && s.userDecrypted.Some?
  }

  predicate RemovesEvidence(e: Event) {
    e.SessionAuthLost? || e.UserCleared? || e.FirebaseUserCleared? || e == UserDecryptedChanged(None)
  }

  /** Being 'authenticated' does not keep what entering it required: the phase outlives its
      evidence by exactly four events. */
  lemma AuthenticatedOutlivesItsEvidence(s: State, e: Event)
    requires s.phase.Authenticated? && HasEvidence(s)
    ensures Reduce(s, e).phase.Authenticated? && !HasEvidence(Reduce(s, e)) <==> RemovesEvidence(e)
  {
  }

  /** Over a run that stays authenticated, the evidence is there at every moment exactly if none
      of the four came. */
  lemma {:induction false} EvidenceKeptIff(s: State, es: seq<Event>)
    requires s.phase.Authenticated? && HasEvidence(s)
    requires forall k :: 0 <= k <= |es| ==> Run(s, es[..k]).phase.Authenticated?
    ensures (forall k :: 0 <= k <= |es| ==> HasEvidence(Run(s, es[..k]))) <==> forall e :: e in es ==> !RemovesEvidence(e)
    decreases |es|
  {
    if es != [] {
      var front, last := es[..|es| - 1], es[|es| - 1];
      assert forall k :: 0 <= k <= |front| ==> front[..k] == es[..k];
      EvidenceKeptIff(s, front);
      assert es == front + [last] && es[..|es|] == es && es[..|front|] == front;
      RunAppend(s, front, [last]);
      assert Run(Run(s, front), [last]) == Reduce(Run(s, front), last) by { assert [last][1..] == []; }
      if HasEvidence(Run(s, front)) {
        AuthenticatedOutlivesItsEvidence(Run(s, front), last);
      }
      assert forall e :: e in es <==> e in front || e == last;
    }
  }

  /** A sign-in whose session is then lost: authenticated without a session. */
  lemma AuthenticatedWithoutSession()
    ensures var s := Run(INITIAL, [FirebaseUserEstablished(1), SessionCreated, UserDecryptedChanged(Some(2)),
                                   AuthenticatedUiReady, SessionAuthLost]);
            s.phase.Authenticated? && !s.sessionAuthenticated
  {
  }
}
