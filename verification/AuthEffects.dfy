/** What the events of the auth machine do: which end the session and what they wipe, that an
    interrupted flow returns where it came from, how a sign-in and an unlock arrive, and that no
    other event touches a field. */
module AuthEffects {
  import opened Common
  import opened AuthMachine

  // ---- ending a session ----

  predicate Locks(e: Event) {
    e.LockCompleted? || e.LocalLockDetected? || e.UnlockFailed?
  }

  /** The events that end a session, each with the phases in which it is ignored. */
  predicate EndsSession(s: State, e: Event) {
    match e
    case BootstrapCompleted => !s.phase.SignedOut? && !s.phase.Deleting?
    case FirebaseUserLost => !s.phase.SignedOut? && !s.phase.Deleting?
    case SignOutCompleted => !s.phase.SignedOut?
    case DeletionCompleted => !s.phase.SignedOut?
    case PartialAuthCleared => !s.phase.SigningOut? && !s.phase.Deleting?
    case AuthUiSettled => s.phase.Bootstrapping?
    case LockCompleted => !s.phase.LocallyLocked?
    case LocalLockDetected(_) => true
    case UnlockFailed(_) => s.phase.Unlocking?
    case _ => false
  }

  /** No user, no session and no secret is left. */
  predicate Wiped(s: State) {
    && s.user.None? && s.fbUser.None? && !s.sessionAuthenticated
    && s.pendingPassword.None? && s.userDecrypted.None?
  }

  /** Ending a session leaves nothing of it: locked or signed out, sealed, not 'authenticated' nor
      on the way back there. */
  lemma EndingWipes(s: State, e: Event)
    requires EndsSession(s, e)
    ensures var t := Reduce(s, e);
            && t.phase == (if Locks(e) then LocallyLocked else SignedOut)
            && Wiped(t) && t.priorPhase.None? && Sealed(t) && !ShowsAuthenticated(t)
            && t.ui == Ui(Locks(e), e.PartialAuthCleared? ==> s.ui.authCompleted, false, false, s.ui.appStateIsBackground,
                          if e.LocalLockDetected? then Some(e.last) else s.ui.lastSignedInUser,
                          s.ui.lastUsedBiometricSignIn, if e.UnlockFailed? then Some(e.err) else None)
  {
  }

  /** Where such an event is ignored, it changes nothing; only a cleanup during a sign-out or a
      deletion still wipes, and leaves the phase to that flow. */
  lemma EndingIgnored(s: State, e: Event)
    requires !EndsSession(s, e)
    ensures e.BootstrapCompleted? || e.FirebaseUserLost? || e.SignOutCompleted? ==> Reduce(s, e) == s
    ensures e.DeletionCompleted? || e.LockCompleted? || e.UnlockFailed? ==> Reduce(s, e) == s
    ensures e.PartialAuthCleared? ==>
              var t := Reduce(s, e);
              && Wiped(t) && t.phase == s.phase && t.priorPhase == s.priorPhase
              && t.ui == s.ui.(isLocalSessionLocked := false, isAuthLoading := false, isCheckingInactivity := false,
                               error := None)
  {
  }

  // ---- interrupted flows ----

  /** The identity, the session and the secrets are the same. */
  predicate SameSession(s: State, t: State) {
    && s.user == t.user && s.fbUser == t.fbUser && s.sessionAuthenticated == t.sessionAuthenticated
    && s.pendingPassword == t.pendingPassword && s.userDecrypted == t.userDecrypted
  }

  predicate Leaving(p: Phase) {
    p.SigningOut? || p.Deleting?
  }

  /** An MFA challenge takes the session away, and its cancellation returns to the phase it
      interrupted. */
  lemma ChallengeReturns(s: State)
    requires !s.phase.MfaPending?
    ensures var t := Reduce(s, MfaChallengeRaised);
            && t.phase == MfaPending && t.ui == s.ui.(isAuthLoading := false, error := None)
            && SameSession(t, s.(sessionAuthenticated := false))
            && Reduce(t, MfaChallengeCancelled) == t.(phase := s.phase, priorPhase := None)
  {
  }

  /** A sign-out or a deletion that fails returns to the phase in which it started, with the session
      as it was and the error shown; one started inside the other does not forget that phase. */
  lemma FailedLeavingReturns(s: State, err: string, nested: bool, deleting: bool)
    requires !Leaving(s.phase)
    ensures var first := if deleting == nested then SignOutStarted else DeletionStarted;
            var t := Reduce(s, first);
            var u := if nested then Reduce(t, if deleting then DeletionStarted else SignOutStarted) else t;
            var v := Reduce(u, if deleting then DeletionFailed(err) else SignOutFailed(err));
            && u.phase == (if deleting then Deleting else SigningOut) && u.ui.isAuthLoading && u.ui.error.None?
            && SameSession(s, u)
            && v == s.(priorPhase := None, ui := s.ui.(isAuthLoading := false, error := Some(err)))
  {
  }

  /** Outside its own flow a cancellation or a failure changes nothing. */
  lemma ForeignEndingsIgnored(s: State, err: string)
    ensures !s.phase.MfaPending? ==> Reduce(s, MfaChallengeCancelled) == s
    ensures !s.phase.SigningOut? ==> Reduce(s, SignOutFailed(err)) == s
    ensures !s.phase.Deleting? ==> Reduce(s, DeletionFailed(err)) == s
    ensures !s.phase.LocallyLocked? ==> Reduce(s, UnlockRequested) == s
    ensures !s.phase.LocallyLocked? && !s.phase.Unlocking? ==> Reduce(s, UnlockSucceeded) == s
    ensures !Ready(s) ==> Reduce(s, AuthenticatedUiReady) == s
    ensures s.sessionAuthenticated && !s.phase.MfaPending? ==> Reduce(s, SessionCreated) == s
  {
  }

  // ---- arriving ----

  /** From signed out: a Firebase user, a session, decrypted data and a ready UI, in this order,
      make the machine authenticated, whatever was saved or shown before. */
  lemma SignInArrives(s: State, fb: Ref, data: Ref)
    requires s.phase.SignedOut? && !s.sessionAuthenticated
    ensures var a := Reduce(s, FirebaseUserEstablished(fb));
            var b := Reduce(a, SessionCreated);
            var c := Reduce(b, UserDecryptedChanged(Some(data)));
            var t := Reduce(c, AuthenticatedUiReady);
            && a.phase == b.phase == c.phase == FirebaseAuthenticated
            && t == State(Authenticated, None, Some(fb), Some(fb), true, None, Some(data),
                          s.ui.(isLocalSessionLocked := false, authCompleted := true, isAuthLoading := false,
                                isCheckingInactivity := false, error := None))
  {
  }

  /** From a local lock: the lock is shown until the unlock has succeeded, however early the
      Firebase user and the session arrive; afterwards the UI can become authenticated. */
  lemma UnlockArrives(s: State, fb: Ref, data: Ref)
    requires s.phase.LocallyLocked? && !s.sessionAuthenticated
    ensures var a := Reduce(s, UnlockRequested);
            var b := Reduce(a, FirebaseUserEstablished(fb));
            var c := Reduce(b, SessionCreated);
            var d := Reduce(c, UnlockSucceeded);
            var t := Reduce(Reduce(d, UserDecryptedChanged(Some(data))), AuthenticatedUiReady);
            && a.phase == b.phase == c.phase == Unlocking && d.phase == FirebaseAuthenticated
            && a.ui.isLocalSessionLocked == b.ui.isLocalSessionLocked == c.ui.isLocalSessionLocked
               == s.ui.isLocalSessionLocked
            && !d.ui.isLocalSessionLocked && d.ui.error.None?
            && t.phase == Authenticated && t.user == Some(fb) && t.userDecrypted == Some(data)
  {
  }

  /** An unlock without a Firebase user clears the lock and stays in its phase. */
  lemma UnlockWithoutUser(s: State)
    requires (s.phase.LocallyLocked? || s.phase.Unlocking?) && s.fbUser.None?
    ensures Reduce(s, UnlockSucceeded) == s.(ui := s.ui.(isLocalSessionLocked := false, error := None))
  {
  }

  /** A Firebase user is remembered in every phase, and moves the machine only from the start and
      from signed out; the UI user follows once there is a session. */
  lemma FirebaseUserTakesEffect(s: State, fb: Ref)
    ensures var t := Reduce(s, FirebaseUserEstablished(fb));
            var unlocking := s.phase.LocallyLocked? || s.phase.Unlocking?;
            && t.fbUser == Some(fb) && t.user == (if s.sessionAuthenticated then Some(fb) else s.user)
            && t.phase == (if s.phase.SignedOut? || s.phase.Bootstrapping? then FirebaseAuthenticated else s.phase)
            && t.ui == s.ui.(isLocalSessionLocked := s.ui.isLocalSessionLocked && unlocking, error := None)
  {
  }

  /** A session that was missing, or was challenged, arrives in every phase; it ends a challenge, a
      lock and the start, and forgets a saved phase. */
  lemma SessionTakesEffect(s: State)
    requires !s.sessionAuthenticated || s.phase.MfaPending?
    ensures var t := Reduce(s, SessionCreated);
            && t.sessionAuthenticated && t.priorPhase.None? && t.fbUser == s.fbUser
            && t.user == (if s.fbUser.Some? then s.fbUser else s.user)
            && t.phase == (if s.phase in {MfaPending, LocallyLocked, Bootstrapping} then FirebaseAuthenticated else s.phase)
            && t.ui == s.ui.(isLocalSessionLocked := s.ui.isLocalSessionLocked && s.phase.Unlocking?, error := None)
            && t.userDecrypted == s.userDecrypted && t.pendingPassword == s.pendingPassword
  {
  }

  // ---- single fields ----

  /** A secret is stored exactly in the phases that allow it, and can always be removed. */
  lemma SecretsStoredIff(s: State, password: string, data: Ref)
    ensures var t := Reduce(s, PendingPasswordChanged(Some(password)));
            password != "" ==>
              t == if s.phase in {Bootstrapping, SignedOut, FirebaseAuthenticated, MfaPending, Unlocking}
                   then s.(pendingPassword := Some(password)) else s
    ensures Reduce(s, PendingPasswordChanged(Some(""))) == s.(pendingPassword := None)
    ensures Reduce(s, PendingPasswordChanged(None)) == s.(pendingPassword := None)
    ensures Reduce(s, UserDecryptedChanged(Some(data)))
         == (if s.phase in {FirebaseAuthenticated, MfaPending, Unlocking, Authenticated}
             then s.(userDecrypted := Some(data)) else s)
    ensures Reduce(s, UserDecryptedChanged(None)) == s.(userDecrypted := None)
  {
  }

  /** What an event that sets one thing leaves behind. */
  predicate Shows(e: Event, t: State) {
    match e
    case SessionAuthLost => !t.sessionAuthenticated
    case LockRequested => t.ui.isAuthLoading && t.ui.error.None?
    case LocalLockCleared => !t.ui.isLocalSessionLocked
    case AuthError(err) => t.ui.error == Some(err)
    case AuthUiSettled => t.ui.authCompleted && !t.ui.isAuthLoading && !t.ui.isCheckingInactivity
    case LoadingStarted => t.ui.isAuthLoading
    case LoadingFinished => !t.ui.isAuthLoading
    case CheckingInactivity(checking) => t.ui.isCheckingInactivity == checking
    case AppStateChanged(isBackground) => t.ui.appStateIsBackground == isBackground
    case LastSignedInUserChanged(lastUser) =>
      var shown := t.ui.lastSignedInUser;
      && (shown.Some? <==> lastUser.Some?)
      && (shown.Some? ==> shown.value.uid == lastUser.value.uid && shown.value.username == lastUser.value.username)
    case BiometricSignInMarked(used) => t.ui.lastUsedBiometricSignIn == used
    case UserChanged(newUser) => t.user == Some(newUser) && t.ui.error.None?
    case UserCleared => t.user.None?
    case FirebaseUserCleared => t.fbUser.None?
    case _ => true
  }

  predicate IsSingle(e: Event) {
    IsField(e) || e.SessionAuthLost? || e.LockRequested? || e.LocalLockCleared? || e.AuthError? || e.AuthUiSettled?
  }

  /** It takes effect in every phase and leaves the flow of phases alone; of the user, the session
      and the secrets it touches at most the one it names. */
  lemma SingleTakesEffect(s: State, e: Event)
    requires !EndsSession(s, e) && IsSingle(e)
    ensures var t := Reduce(s, e);
            && Shows(e, t) && t.phase == s.phase && t.priorPhase == s.priorPhase
            && (t.sessionAuthenticated != s.sessionAuthenticated ==> e.SessionAuthLost?)
            && (t.user != s.user ==> e.UserChanged? || e.UserCleared?)
            && (t.fbUser != s.fbUser ==> e.FirebaseUserCleared?)
            && (t.pendingPassword != s.pendingPassword ==> e.PendingPasswordChanged?)
            && (t.userDecrypted != s.userDecrypted ==> e.UserDecryptedChanged?)
  {
  }

  /** What is displayed differs only where the event may change it. */
  predicate ShowsOnlyItsOwn(e: Event, u: Ui, v: Ui) {
    && (v.isLocalSessionLocked != u.isLocalSessionLocked ==> e.LocalLockCleared?)
    && (v.authCompleted != u.authCompleted ==> e.AuthUiSettled?)
    && (v.isAuthLoading != u.isAuthLoading ==>
          e.LockRequested? || e.LoadingStarted? || e.LoadingFinished? || e.AuthUiSettled?)
    && (v.isCheckingInactivity != u.isCheckingInactivity ==> e.CheckingInactivity? || e.AuthUiSettled?)
    && (v.appStateIsBackground != u.appStateIsBackground ==> e.AppStateChanged?)
    && (v.lastSignedInUser != u.lastSignedInUser ==> e.LastSignedInUserChanged?)
    && (v.lastUsedBiometricSignIn != u.lastUsedBiometricSignIn ==> e.BiometricSignInMarked?)
    && (v.error != u.error ==>
          e.LockRequested? || e.AuthError? || e.AuthUiSettled? || e.LoadingStarted? || e.UserChanged?)
  }

  predicate IsDisplay(e: Event) {
    || e.LoadingStarted? || e.LoadingFinished? || e.CheckingInactivity? || e.AppStateChanged?
    || e.LastSignedInUserChanged? || e.BiometricSignInMarked?
  }

  lemma DisplayShowsOnlyItsOwn(s: State, e: Event)
    requires IsDisplay(e)
    ensures ShowsOnlyItsOwn(e, s.ui, ReduceField(s, e).ui)
  {
  }

  lemma FieldShowsOnlyItsOwn(s: State, e: Event)
    requires IsField(e)
    ensures ShowsOnlyItsOwn(e, s.ui, ReduceField(s, e).ui)
  {
    if IsDisplay(e) {
      DisplayShowsOnlyItsOwn(s, e);
    } else {
      assert ReduceField(s, e).ui == if e.UserChanged? then s.ui.(error := None) else s.ui;
    }
  }

  lemma SettlingShowsOnlyItsOwn(s: State, e: Event)
    requires IsSettling(e) && !EndsSession(s, e) && (e.AuthError? || e.AuthUiSettled?)
    ensures ShowsOnlyItsOwn(e, s.ui, ReduceSettling(s, e).ui)
  {
  }

  /** And of what is displayed likewise, an error apart. */
  lemma SingleShowsOnlyItsOwn(s: State, e: Event)
    requires !EndsSession(s, e) && IsSingle(e)
    ensures ShowsOnlyItsOwn(e, s.ui, Reduce(s, e).ui)
  {
    if IsField(e) {
      FieldShowsOnlyItsOwn(s, e);
    } else if IsSettling(e) {
      SettlingShowsOnlyItsOwn(s, e);
    }
  }

  /** A load or a settling UI that changes anything clears the error that was shown. */
  lemma ProgressClearsError(s: State)
    ensures !s.ui.isAuthLoading ==> Reduce(s, LoadingStarted).ui.error.None?
    ensures s.ui.isAuthLoading ==> Reduce(s, LoadingStarted) == s
    ensures Reduce(s, AuthUiSettled).ui.error.None? || Reduce(s, AuthUiSettled) == s
    ensures !s.ui.authCompleted || s.ui.isAuthLoading || s.ui.isCheckingInactivity ==>
              Reduce(s, AuthUiSettled).ui.error.None?
    ensures var t := Reduce(s, AuthenticatedUiReady);
            Ready(s) ==>
              t == s.(phase := Authenticated, priorPhase := None, pendingPassword := None,
                      ui := s.ui.(authCompleted := true, isAuthLoading := false, isCheckingInactivity := false,
                                  error := None))
  {
  }
}
