/** Single-flight refresh of the backend session against a server that rotates refresh tokens
    and treats a second use of a rotated token as theft. */
module SessionRefresh {
  import opened Common

  /** Tokens are numbered in the order the server issues them. */
  type Token = nat

  datatype Outcome = Refreshed(token: Token) | Failed

  /** One `refreshSessionOnce`, cut at its awaits. */
  datatype Stage =
    | Reading                   // reading the stored session
    | Presenting(token: Token)  // request on its way
    | Rotated(newToken: Token)     // the server has rotated, its answer is on the way
    | Refused                   // the server has refused, its answer is on the way
    | Limited                   // the server's rate limiter has refused, and the user is being told
    | Storing(newToken: Token)     // writing the answer to the session store
    | Settled(outcome: Outcome)

  /** A refresh and the caller whose call started it. */
  datatype Task = Task(starter: nat, stage: Stage)

  datatype Caller = Waiting(task: nat) | Returned(task: nat, outcome: Outcome)

  /** A remote MFA state being written into the stored session: the refresh token of the session
      it read, which it will write back, and whether a refresh has stored its answer since. */
  datatype Update = Update(token: Token, overtaken: bool)

  /** `slot` is the shared promise, `stored` the refresh token in the session store. */
  datatype Client = Client(
    slot: Option<nat>,
    stored: Option<Token>,
    tasks: seq<Task>,
    callers: map<nat, Caller>,
    updates: map<nat, Update>)

  /** `presented` logs every token a refresh request carried to the server. */
  datatype Server = Server(issued: nat, rotated: set<Token>, presented: seq<Token>, familyRevoked: bool)

  datatype State = State(client: Client, server: Server)

  datatype Event =
    | Call(caller: nat)
    | ReadStored(task: nat)
    | ServerAnswers(task: nat, accepts: bool)
    | NetworkFails(task: nat)
    | RateLimits(task: nat)       // turned away before the session is looked at
    | LimitShown(task: nat)
    | Deliver(task: nat)
    | StoreDone(task: nat)
    | Resume(caller: nat)
    | OtherSessionStored          // sign-in or an MFA call stores another response
    | StoredSessionCleared
    | MfaRead(update: nat)        // an MFA state update reads the stored session
    | MfaWriteBack(update: nat)   // and writes the whole session back
    | MfaWriteFails(update: nat)
    | ResponseLost(task: nat)     // rotated, but the client never learns the new token
    | StoreFails(task: nat)       // rotated and delivered, but not written

  const START := State(Client(None, None, [], map[], map[]), Server(0, {}, [], false))

  predicate At(s: State, task: nat) {
    task < |s.client.tasks|
  }

  function StageOf(s: State, task: nat): Stage
    requires At(s, task)
  {
    s.client.tasks[task].stage
  }

  predicate Enabled(s: State, e: Event) {
    match e
    case Call(c) => c !in s.client.callers
    case ReadStored(t) => At(s, t) && StageOf(s, t).Reading?
    case ServerAnswers(t, _) => At(s, t) && StageOf(s, t).Presenting?
    case NetworkFails(t) => At(s, t) && StageOf(s, t).Presenting?
    case RateLimits(t) => At(s, t) && StageOf(s, t).Presenting?
    case LimitShown(t) => At(s, t) && StageOf(s, t).Limited?
    case Deliver(t) => At(s, t) && (StageOf(s, t).Rotated? || StageOf(s, t).Refused?)
    case StoreDone(t) => At(s, t) && StageOf(s, t).Storing?
    case Resume(c) =>
      && c in s.client.callers && s.client.callers[c].Waiting?
      && At(s, s.client.callers[c].task) && StageOf(s, s.client.callers[c].task).Settled?
    case OtherSessionStored => true
    case StoredSessionCleared => true
    case MfaRead(u) => u !in s.client.updates && s.client.stored.Some?
    case MfaWriteBack(u) => u in s.client.updates
    case MfaWriteFails(u) => u in s.client.updates
    case ResponseLost(t) => At(s, t) && StageOf(s, t).Rotated?
    case StoreFails(t) => At(s, t) && StageOf(s, t).Storing?
  }

  function Moved(c: Client, task: nat, stage: Stage): Client
    requires task < |c.tasks|
  {
    c.(tasks := c.tasks[task := c.tasks[task].(stage := stage)])
  }

  /** `refreshSession` up to its await: join the refresh in the slot, or start one. */
  function Called(c: Client, caller: nat): Client {
    match c.slot
    case Some(task) => c.(callers := c.callers[caller := Waiting(task)])
    case None =>
      c.(slot := Some(|c.tasks|), tasks := c.tasks + [Task(caller, Reading)],
         callers := c.callers[caller := Waiting(|c.tasks|)])
  }

  /** After the await: the starter's `finally` empties the slot. */
  function Resumed(c: Client, caller: nat): Client
    requires caller in c.callers && c.callers[caller].Waiting?
    requires c.callers[caller].task < |c.tasks| && c.tasks[c.callers[caller].task].stage.Settled?
  {
    var t := c.tasks[c.callers[caller].task];
    c.(callers := c.callers[caller := Returned(c.callers[caller].task, t.stage.outcome)],
       slot := if t.starter == caller then None else c.slot)
  }

  /** A refresh has stored its answer while these updates were in between. */
  function Overtaken(updates: map<nat, Update>): map<nat, Update> {
    map u | u in updates :: updates[u].(overtaken := true)
  }

  /** The end of `refreshSessionOnce`: the new token is in the store when the promise settles. */
  function Stored(c: Client, task: nat, newToken: Token): Client
    requires task < |c.tasks|
  {
    Moved(c, task, Settled(Refreshed(newToken))).(stored := Some(newToken), updates := Overtaken(c.updates))
  }

  /** `updateStoredSessionMfaState` up to its write. */
  function ReadForUpdate(c: Client, update: nat): Client
    requires c.stored.Some?
  {
    c.(updates := c.updates[update := Update(c.stored.value, false)])
  }

  function WrittenBack(c: Client, update: nat): Client
    requires update in c.updates
  {
    c.(stored := Some(c.updates[update].token), updates := c.updates - {update})
  }

  /** The server's transaction: a rotated token revokes its family, any other one is rotated or
      refused. */
  function Answered(v: Server, token: Token, accepts: bool): (Server, Stage) {
    var w := v.(presented := v.presented + [token]);
    if token in v.rotated then (w.(familyRevoked := true), Refused)
    else if accepts then (w.(rotated := v.rotated + {token}, issued := v.issued + 1), Rotated(v.issued))
    else (w, Refused)
  }

  function Step(s: State, e: Event): State
    requires Enabled(s, e)
  {
    var c, v := s.client, s.server;
    match e
    case Call(caller) => s.(client := Called(c, caller))
    case ReadStored(t) =>
      s.(client := Moved(c, t, if c.stored.Some? then Presenting(c.stored.value) else Settled(Failed)))
    case ServerAnswers(t, accepts) =>
      var (w, stage) := Answered(v, StageOf(s, t).token, accepts);
      State(Moved(c, t, stage), w)
    case NetworkFails(t) => s.(client := Moved(c, t, Settled(Failed)))
    case RateLimits(t) => s.(client := Moved(c, t, Limited))
    case LimitShown(t) => s.(client := Moved(c, t, Settled(Failed)))
    case Deliver(t) =>
      s.(client := Moved(c, t, if StageOf(s, t).Rotated? then Storing(StageOf(s, t).newToken) else Settled(Failed)))
    case StoreDone(t) =>
      s.(client := Stored(c, t, StageOf(s, t).newToken))
    case Resume(caller) => s.(client := Resumed(c, caller))
    case OtherSessionStored => State(c.(stored := Some(v.issued)), v.(issued := v.issued + 1))
    case StoredSessionCleared => s.(client := c.(stored := None))
    case MfaRead(u) => s.(client := ReadForUpdate(c, u))
    case MfaWriteBack(u) => s.(client := WrittenBack(c, u))
    case MfaWriteFails(u) => s.(client := c.(updates := c.updates - {u}))
    case ResponseLost(t) => s.(client := Moved(c, t, Settled(Failed)))
    case StoreFails(t) => s.(client := Moved(c, t, Settled(Failed)))
  }

  ghost predicate Legal(s: State, es: seq<Event>)
    decreases |es|
  {
    es == [] || (Enabled(s, es[0]) && Legal(Step(s, es[0]), es[1..]))
  }

  function Run(s: State, es: seq<Event>): State
    requires Legal(s, es)
    decreases |es|
  {
    if es == [] then s else Run(Step(s, es[0]), es[1..])
  }

  // ---- single flight ----

  /** Only the refresh in the slot is unsettled; the slot is held by a starter still waiting;
      whoever returned has the outcome of the refresh it joined. */
  ghost predicate SingleFlight(c: Client) {
    && (forall t :: 0 <= t < |c.tasks| && !c.tasks[t].stage.Settled? ==> c.slot == Some(t))
    && (c.slot.Some? ==>
          && c.slot.value < |c.tasks|
          && c.tasks[c.slot.value].starter in c.callers
          && c.callers[c.tasks[c.slot.value].starter] == Waiting(c.slot.value))
    && (forall k :: k in c.callers ==> c.callers[k].task < |c.tasks|)
    && (forall k :: k in c.callers && c.callers[k].Waiting? && c.tasks[c.callers[k].task].starter == k ==>
          c.slot == Some(c.callers[k].task))
    && (forall k :: k in c.callers && c.callers[k].Returned? ==>
          c.tasks[c.callers[k].task].stage == Settled(c.callers[k].outcome))
    && (forall t :: 0 <= t < |c.tasks| ==> c.tasks[t].starter in c.callers)
  }

  lemma CalledKeepsFlight(c: Client, caller: nat)
    requires SingleFlight(c) && caller !in c.callers
    ensures SingleFlight(Called(c, caller))
  {
    if c.slot.None? {
      StartedKeepsFlight(c, caller);
    } else {
      JoinedKeepsFlight(c, caller);
    }
  }

  lemma StartedKeepsFlight(c: Client, caller: nat)
    requires SingleFlight(c) && caller !in c.callers && c.slot.None?
    ensures SingleFlight(Called(c, caller))
  {
    var d := Called(c, caller);
    forall t | 0 <= t < |d.tasks|
      ensures d.tasks[t].starter in d.callers && (!d.tasks[t].stage.Settled? ==> d.slot == Some(t))
    {
      assert t < |c.tasks| ==> d.tasks[t] == c.tasks[t];
    }
    forall k | k in d.callers
      ensures d.callers[k].task < |d.tasks|
      ensures d.callers[k].Waiting? && d.tasks[d.callers[k].task].starter == k ==> d.slot == Some(d.callers[k].task)
      ensures d.callers[k].Returned? ==> d.tasks[d.callers[k].task].stage == Settled(d.callers[k].outcome)
    {
      if k != caller {
        assert k in c.callers && d.callers[k] == c.callers[k] && d.tasks[c.callers[k].task] == c.tasks[c.callers[k].task];
      }
    }
  }

  lemma JoinedKeepsFlight(c: Client, caller: nat)
    requires SingleFlight(c) && caller !in c.callers && c.slot.Some?
    ensures SingleFlight(Called(c, caller))
  {
    var d := Called(c, caller);
    assert d.tasks == c.tasks && d.slot == c.slot;
    assert forall k :: k in d.callers && k != caller ==> k in c.callers && d.callers[k] == c.callers[k];
  }

  lemma MovedKeepsFlight(c: Client, task: nat, stage: Stage)
    requires SingleFlight(c) && task < |c.tasks| && !c.tasks[task].stage.Settled?
    ensures SingleFlight(Moved(c, task, stage))
  {
  }

  lemma ResumedKeepsFlight(c: Client, caller: nat)
    requires SingleFlight(c) && caller in c.callers && c.callers[caller].Waiting?
    requires c.tasks[c.callers[caller].task].stage.Settled?
    ensures SingleFlight(Resumed(c, caller))
  {
  }

  lemma StepKeepsFlight(s: State, e: Event)
    requires SingleFlight(s.client) && Enabled(s, e)
    ensures SingleFlight(Step(s, e).client)
  {
    var c := s.client;
    match e
    case Call(caller) => CalledKeepsFlight(c, caller);
    case Resume(caller) => ResumedKeepsFlight(c, caller);
    case OtherSessionStored =>
    case StoredSessionCleared =>
    case MfaRead(_) =>
    case MfaWriteBack(_) =>
    case MfaWriteFails(_) =>
    case StoreDone(t) => MovedKeepsFlight(c, t, Settled(Refreshed(StageOf(s, t).newToken)));
    case _ => MovedKeepsFlight(c, e.task, Step(s, e).client.tasks[e.task].stage);
  }

  // ---- no token is used twice ----

  /** A stage that still carries the answer to a rotation. */
  predicate Answering(stage: Stage) {
    stage.Rotated? || stage.Storing?
  }

  predicate SlotAnswering(c: Client) {
    c.slot.Some? && c.slot.value < |c.tasks| && Answering(c.tasks[c.slot.value].stage)
  }

  /** A token that a stage carries has been issued, and a new one cannot have been used yet. */
  ghost predicate Issued(stage: Stage, v: Server) {
    match stage
    case Presenting(t) => t < v.issued
    case Rotated(t) => t !in v.rotated && t < v.issued
    case Storing(t) => t !in v.rotated && t < v.issued
    case _ => true
  }

  /** All tokens around have been issued: kept by every event. */
  ghost predicate Sound(s: State) {
    var c, v := s.client, s.server;
    && (forall t :: t in v.rotated ==> t < v.issued)
    && (c.stored.Some? ==> c.stored.value < v.issued)
    && (forall u :: u in c.updates ==> c.updates[u].token < v.issued)
    && (forall i :: 0 <= i < |c.tasks| ==> Issued(c.tasks[i].stage, v))
  }

  /** The family stands, and nothing a request carries or the next refresh will read has been
      rotated, except the stored token of a rotation whose answer is on its way. */
  ghost predicate FreshTokens(s: State) {
    var c, v := s.client, s.server;
    && !v.familyRevoked
    && (c.stored.Some? && c.stored.value in v.rotated ==> SlotAnswering(c))
    && (forall i :: 0 <= i < |c.tasks| && c.tasks[i].stage.Presenting? ==> c.tasks[i].stage.token !in v.rotated)
  }

  /** The three ways to leave a used token behind: the answer to its rotation is lost or not
      written while it is in the store, or an update writes it back after the answer is in. */
  predicate Spoils(s: State, e: Event) {
    match e
    case ResponseLost(_) => s.client.stored.Some? && s.client.stored.value in s.server.rotated
    case StoreFails(_) => s.client.stored.Some? && s.client.stored.value in s.server.rotated
    case MfaWriteBack(u) =>
      u in s.client.updates && s.client.updates[u].token in s.server.rotated && !SlotAnswering(s.client)
    case _ => false
  }

  /** Every other refresh has settled while one has not. */
  lemma OthersSettled(c: Client, task: nat)
    requires SingleFlight(c) && task < |c.tasks| && !c.tasks[task].stage.Settled?
    ensures c.slot == Some(task)
    ensures forall i :: 0 <= i < |c.tasks| && i != task ==> c.tasks[i].stage.Settled?
  {
  }

  /** The events by which one refresh gets on, or fails. */
  predicate IsMove(e: Event) {
    || e.ReadStored? || e.ServerAnswers? || e.NetworkFails? || e.RateLimits? || e.LimitShown? || e.Deliver?
    || e.StoreDone? || e.ResponseLost? || e.StoreFails?
  }

  predicate Moves(e: Event, task: nat) {
    IsMove(e) && e.task == task
  }

  lemma AnsweredIssues(v: Server, token: Token, accepts: bool)
    requires token < v.issued && forall t :: t in v.rotated ==> t < v.issued
    ensures var (w, stage) := Answered(v, token, accepts);
            v.issued <= w.issued && (forall t :: t in w.rotated ==> t < w.issued) && Issued(stage, w)
  {
  }

  lemma AnswerKeepsSound(s: State, task: nat, accepts: bool)
    requires SingleFlight(s.client) && Sound(s) && Enabled(s, ServerAnswers(task, accepts))
    ensures Sound(Step(s, ServerAnswers(task, accepts)))
  {
    var z := Step(s, ServerAnswers(task, accepts));
    OthersSettled(s.client, task);
    assert Issued(StageOf(s, task), s.server);
    AnsweredIssues(s.server, StageOf(s, task).token, accepts);
    forall i | 0 <= i < |z.client.tasks|
      ensures Issued(z.client.tasks[i].stage, z.server)
    {
      if i != task {
        assert z.client.tasks[i] == s.client.tasks[i];
      }
    }
  }

  lemma MoveKeepsSound(s: State, e: Event, task: nat)
    requires SingleFlight(s.client) && Sound(s) && Enabled(s, e) && Moves(e, task) && !e.ServerAnswers?
    ensures Sound(Step(s, e))
  {
    assert Issued(StageOf(s, task), s.server);
  }

  lemma OtherKeepsSound(s: State, e: Event)
    requires Sound(s) && Enabled(s, e) && !IsMove(e)
    ensures Sound(Step(s, e))
  {
  }

  lemma StepKeepsSound(s: State, e: Event)
    requires SingleFlight(s.client) && Sound(s) && Enabled(s, e)
    ensures Sound(Step(s, e))
  {
    if e.ServerAnswers? {
      AnswerKeepsSound(s, e.task, e.accepts);
    } else if IsMove(e) {
      MoveKeepsSound(s, e, e.task);
    } else {
      OtherKeepsSound(s, e);
    }
  }

  lemma AnswerKeepsFresh(s: State, task: nat, accepts: bool)
    requires SingleFlight(s.client) && Sound(s) && FreshTokens(s) && Enabled(s, ServerAnswers(task, accepts))
    ensures FreshTokens(Step(s, ServerAnswers(task, accepts)))
  {
    OthersSettled(s.client, task);
    assert Issued(StageOf(s, task), s.server);
  }

  lemma MoveFreshIff(s: State, e: Event, task: nat)
    requires SingleFlight(s.client) && Sound(s) && FreshTokens(s) && Enabled(s, e) && Moves(e, task) && !e.ServerAnswers?
    ensures FreshTokens(Step(s, e)) <==> !Spoils(s, e)
  {
    OthersSettled(s.client, task);
    assert Issued(StageOf(s, task), s.server);
  }

  /** Freshness is lost by exactly those three. */
  lemma StepKeepsFresh(s: State, e: Event)
    requires SingleFlight(s.client) && Sound(s) && FreshTokens(s) && Enabled(s, e)
    ensures FreshTokens(Step(s, e)) <==> !Spoils(s, e)
  {
    if e.ServerAnswers? {
      AnswerKeepsFresh(s, e.task, e.accepts);
    } else if IsMove(e) {
      MoveFreshIff(s, e, e.task);
    }
  }

  lemma {:induction false} RunKeeps(s: State, es: seq<Event>)
    requires SingleFlight(s.client) && Sound(s) && Legal(s, es)
    ensures SingleFlight(Run(s, es).client) && Sound(Run(s, es))
    decreases |es|
  {
    if es != [] {
      StepKeepsFlight(s, es[0]);
      StepKeepsSound(s, es[0]);
      RunKeeps(Step(s, es[0]), es[1..]);
    }
  }

  predicate InProgress(c: Client, task: nat) {
    task < |c.tasks| && !c.tasks[task].stage.Settled?
  }

  /** Over any interleaving of callers, losses included: at most one refresh is unsettled and it
      is the one in the slot; everybody who joined a refresh returns with its outcome; and the slot
      holds a refresh only while its starter still waits for it. */
  lemma OneRefreshAtATime(es: seq<Event>)
    requires Legal(START, es)
    ensures var c := Run(START, es).client;
            && (forall t: nat, u: nat :: InProgress(c, t) && InProgress(c, u) ==> t == u && c.slot == Some(t))
            && (forall k :: k in c.callers ==> c.callers[k].task < |c.tasks|)
            && (forall k :: k in c.callers && c.callers[k].Returned? ==>
                  c.tasks[c.callers[k].task].stage == Settled(c.callers[k].outcome))
            && (c.slot.Some? ==>
                  && c.slot.value < |c.tasks| && c.tasks[c.slot.value].starter in c.callers
                  && c.callers[c.tasks[c.slot.value].starter] == Waiting(c.slot.value))
  {
    RunKeeps(START, es);
  }

  /** Whoever calls while a refresh is in progress waits for that very refresh and starts nothing. */
  lemma CallJoins(es: seq<Event>, task: nat, caller: nat)
    requires Legal(START, es) && InProgress(Run(START, es).client, task) && caller !in Run(START, es).client.callers
    ensures var c, d := Run(START, es).client, Step(Run(START, es), Call(caller)).client;
            d == c.(callers := c.callers[caller := Waiting(task)])
  {
    RunKeeps(START, es);
  }

  /** Whoever calls while the slot is empty starts a refresh of their own, and it is the only one
      in progress. */
  lemma CallStarts(es: seq<Event>, caller: nat)
    requires Legal(START, es) && Run(START, es).client.slot.None? && caller !in Run(START, es).client.callers
    ensures var c, d := Run(START, es).client, Step(Run(START, es), Call(caller)).client;
            && d.callers == c.callers[caller := Waiting(|c.tasks|)]
            && d.tasks == c.tasks + [Task(caller, Reading)] && d.slot == Some(|c.tasks|)
            && forall t: nat :: InProgress(d, t) <==> t == |c.tasks|
  {
    RunKeeps(START, es);
    var c, d := Run(START, es).client, Step(Run(START, es), Call(caller)).client;
    assert forall t :: 0 <= t < |c.tasks| ==> d.tasks[t] == c.tasks[t] && c.tasks[t].stage.Settled?;
  }

  lemma {:induction false} CallerKeepsTask(s: State, es: seq<Event>, caller: nat)
    requires Legal(s, es) && caller in s.client.callers
    ensures caller in Run(s, es).client.callers
    ensures Run(s, es).client.callers[caller].task == s.client.callers[caller].task
    decreases |es|
  {
    if es != [] {
      CallerKeepsTask(Step(s, es[0]), es[1..], caller);
    }
  }

  /** Whoever called while a refresh was in progress returns with that refresh's outcome. */
  lemma JoinersGetOutcome(es: seq<Event>, task: nat, caller: nat, more: seq<Event>)
    requires Legal(START, es) && InProgress(Run(START, es).client, task) && caller !in Run(START, es).client.callers
    requires Legal(Step(Run(START, es), Call(caller)), more)
    ensures var c := Run(Step(Run(START, es), Call(caller)), more).client;
            && caller in c.callers && c.callers[caller].task == task < |c.tasks|
            && (c.callers[caller].Returned? ==> c.tasks[task].stage == Settled(c.callers[caller].outcome))
  {
    CallJoins(es, task, caller);
    RunKeeps(START, es);
    var s := Step(Run(START, es), Call(caller));
    StepKeepsFlight(Run(START, es), Call(caller));
    StepKeepsSound(Run(START, es), Call(caller));
    CallerKeepsTask(s, more, caller);
    RunKeeps(s, more);
  }

  /** A refresh that settles has succeeded exactly if its answer has just been stored, and then
      with the token that the server put in place of the one presented. */
  lemma SuccessIffStored(s: State, e: Event)
    requires Enabled(s, e) && IsMove(e)
    ensures var t := Step(s, e);
            && (StageOf(t, e.task).Settled? && StageOf(t, e.task).outcome.Refreshed? <==> e.StoreDone?)
            && (e.StoreDone? ==> t.client.stored == Some(StageOf(t, e.task).outcome.token)
                                 && StageOf(t, e.task).outcome.token == StageOf(s, e.task).newToken)
            && (!e.StoreDone? ==> t.client.stored == s.client.stored)
            && (e.Deliver? && StageOf(s, e.task).Rotated? ==> StageOf(t, e.task) == Storing(StageOf(s, e.task).newToken))
  {
  }

  /** A request carries the stored token; the server rotates it into the next token it issues
      unless it was used before, which revokes the family. */
  lemma PresentedToken(s: State, task: nat, accepts: bool)
    requires At(s, task) && StageOf(s, task).Reading?
    ensures var r := Step(s, ReadStored(task));
            match s.client.stored
            case None => StageOf(r, task) == Settled(Failed)
            case Some(token) =>
              var t := Step(r, ServerAnswers(task, accepts));
              && t.server.presented == s.server.presented + [token]
              && (t.server.familyRevoked <==> s.server.familyRevoked || token in s.server.rotated)
              && (StageOf(t, task).Rotated? <==> accepts && token !in s.server.rotated)
              && (StageOf(t, task).Rotated? ==> token in t.server.rotated && StageOf(t, task).newToken == s.server.issued)
              && (!StageOf(t, task).Rotated? ==> StageOf(t, task).Refused? && t.server.rotated == s.server.rotated)
  {
  }

  /** What the other events do to the stored session: another one brings a token of its own, a
      cleared one leaves none, and an update writes back the token it read. */
  lemma StoredByOthers(s: State, update: nat, mid: State)
    ensures var t := Step(s, OtherSessionStored);
            t.client.stored == Some(s.server.issued) && t.server == s.server.(issued := s.server.issued + 1)
    ensures Step(s, StoredSessionCleared) == s.(client := s.client.(stored := None))
    ensures s.client.stored.Some? && update !in s.client.updates ==>
              var r := Step(s, MfaRead(update));
              && r.client.stored == s.client.stored && update in r.client.updates
              && r.client.updates[update].token == s.client.stored.value
    ensures update in mid.client.updates ==>
              && Step(mid, MfaWriteBack(update)).client.stored == Some(mid.client.updates[update].token)
              && Step(mid, MfaWriteFails(update)).client.stored == mid.client.stored
              && update !in Step(mid, MfaWriteBack(update)).client.updates
  {
  }

  ghost predicate FreshAlong(s: State, es: seq<Event>)
    requires Legal(s, es)
    decreases |es|
  {
    FreshTokens(s) && (es == [] || FreshAlong(Step(s, es[0]), es[1..]))
  }

  ghost predicate NeverSpoiled(s: State, es: seq<Event>)
    requires Legal(s, es)
    decreases |es|
  {
    es == [] || (!Spoils(s, es[0]) && NeverSpoiled(Step(s, es[0]), es[1..]))
  }

  /** Along a run no request carries a rotated token and none is left to be read, exactly if no
      event of the run spoils it. */
  lemma {:induction false} RunFreshIff(s: State, es: seq<Event>)
    requires SingleFlight(s.client) && Sound(s) && FreshTokens(s) && Legal(s, es)
    ensures FreshAlong(s, es) <==> NeverSpoiled(s, es)
    ensures NeverSpoiled(s, es) ==> FreshTokens(Run(s, es))
    decreases |es|
  {
    if es != [] {
      StepKeepsFlight(s, es[0]);
      StepKeepsSound(s, es[0]);
      StepKeepsFresh(s, es[0]);
      if !Spoils(s, es[0]) {
        RunFreshIff(Step(s, es[0]), es[1..]);
      } else if es[1..] != [] {
        assert !FreshAlong(Step(s, es[0]), es[1..]);
      }
    }
  }

  predicate Lossless(e: Event) {
    !e.ResponseLost? && !e.StoreFails?
  }

  /** No answer is lost, and no update writes back what it read before a refresh stored its
      answer. */
  predicate Orderly(s: State, e: Event) {
    && Lossless(e)
    && (e.MfaWriteBack? && e.update in s.client.updates ==> !s.client.updates[e.update].overtaken)
  }

  ghost predicate OrderlyRun(s: State, es: seq<Event>)
    requires Legal(s, es)
    decreases |es|
  {
    es == [] || (Orderly(s, es[0]) && OrderlyRun(Step(s, es[0]), es[1..]))
  }

  ghost predicate UpdatesFresh(s: State) {
    var c := s.client;
    forall u :: u in c.updates && !c.updates[u].overtaken && c.updates[u].token in s.server.rotated ==> SlotAnswering(c)
  }

  lemma OrderlyMove(s: State, e: Event)
    requires SingleFlight(s.client) && Sound(s) && FreshTokens(s) && UpdatesFresh(s) && Enabled(s, e)
    requires IsMove(e) && Lossless(e)
    ensures UpdatesFresh(Step(s, e))
  {
    OthersSettled(s.client, e.task);
  }

  lemma OrderlyOther(s: State, e: Event)
    requires SingleFlight(s.client) && Sound(s) && FreshTokens(s) && UpdatesFresh(s) && Enabled(s, e) && !IsMove(e)
    ensures UpdatesFresh(Step(s, e))
  {
  }

  lemma OrderlyKeepsFresh(s: State, e: Event)
    requires SingleFlight(s.client) && Sound(s) && FreshTokens(s) && UpdatesFresh(s) && Enabled(s, e) && Orderly(s, e)
    ensures !Spoils(s, e) && UpdatesFresh(Step(s, e))
  {
    if IsMove(e) {
      OrderlyMove(s, e);
    } else {
      OrderlyOther(s, e);
    }
  }

  lemma {:induction false} OrderlyRunStaysFresh(s: State, es: seq<Event>)
    requires SingleFlight(s.client) && Sound(s) && FreshTokens(s) && UpdatesFresh(s) && Legal(s, es) && OrderlyRun(s, es)
    ensures FreshTokens(Run(s, es))
    decreases |es|
  {
    if es != [] {
      StepKeepsFlight(s, es[0]);
      StepKeepsSound(s, es[0]);
      StepKeepsFresh(s, es[0]);
      OrderlyKeepsFresh(s, es[0]);
      OrderlyRunStaysFresh(Step(s, es[0]), es[1..]);
    }
  }

  /** If every rotation's answer is delivered and stored, and no refresh stores its answer between
      the read and the write-back of an MFA state update, then no request ever carries a token
      that the server has rotated, whatever else is stored or cleared meanwhile. */
  lemma NoTokenReuse(es: seq<Event>)
    requires Legal(START, es) && OrderlyRun(START, es)
    ensures var s := Run(START, es);
            && !s.server.familyRevoked
            && forall t :: At(s, t) && StageOf(s, t).Presenting? ==> StageOf(s, t).token !in s.server.rotated
  {
    OrderlyRunStaysFresh(START, es);
  }

  // ---- and when one is ----

  /** A continuation that spoils nothing further ends with the family revoked. */
  ghost predicate Dooms(s: State, es: seq<Event>) {
    Legal(s, es) && NeverSpoiled(s, es) && Run(s, es).server.familyRevoked
  }

  lemma DoomsBefore(s: State, e: Event, es: seq<Event>)
    requires Enabled(s, e) && !Spoils(s, e) && Dooms(Step(s, e), es)
    ensures Dooms(s, [e] + es)
  {
    assert ([e] + es)[1..] == es;
  }

  lemma PresentedDooms(s: State, task: nat)
    requires At(s, task) && StageOf(s, task).Presenting? && StageOf(s, task).token in s.server.rotated
    ensures Dooms(s, [ServerAnswers(task, true)] + [])
  {
    assert Dooms(Step(s, ServerAnswers(task, true)), []);
    DoomsBefore(s, ServerAnswers(task, true), []);
  }

  predicate StoresUsed(s: State) {
    s.client.stored.Some? && s.client.stored.value in s.server.rotated
  }

  lemma ReadingDooms(s: State, task: nat) returns (es: seq<Event>)
    requires At(s, task) && StageOf(s, task).Reading? && StoresUsed(s)
    ensures Dooms(s, es) && es == [ReadStored(task), ServerAnswers(task, true)]
  {
    PresentedDooms(Step(s, ReadStored(task)), task);
    es := [ServerAnswers(task, true)] + [];
    DoomsBefore(s, ReadStored(task), es);
    es := [ReadStored(task)] + es;
  }

  lemma {:induction false} Unlisted(used: set<nat>) returns (n: nat)
    ensures forall k :: k in used ==> k < n
    decreases |used|
  {
    if used == {} {
      n := 0;
    } else {
      var k :| k in used;
      var m := Unlisted(used - {k});
      n := if k < m then m else k + 1;
      assert forall l :: l in used ==> l == k || l in used - {k};
    }
  }

  lemma EmptySlotDooms(s: State, caller: nat) returns (es: seq<Event>)
    requires s.client.slot.None? && StoresUsed(s) && caller !in s.client.callers
    ensures Dooms(s, es)
    ensures var n := |s.client.tasks|; es == [Call(caller), ReadStored(n), ServerAnswers(n, true)]
  {
    es := ReadingDooms(Step(s, Call(caller)), |s.client.tasks|);
    DoomsBefore(s, Call(caller), es);
    es := [Call(caller)] + es;
  }

  lemma SettledDooms(s: State, task: nat, caller: nat) returns (es: seq<Event>)
    requires SingleFlight(s.client) && s.client.slot == Some(task) && StageOf(s, task).Settled? && StoresUsed(s)
    requires caller !in s.client.callers
    ensures Dooms(s, es)
    ensures var n := |s.client.tasks|;
            es == [Resume(s.client.tasks[task].starter), Call(caller), ReadStored(n), ServerAnswers(n, true)]
  {
    var starter := s.client.tasks[task].starter;
    es := EmptySlotDooms(Step(s, Resume(starter)), caller);
    DoomsBefore(s, Resume(starter), es);
    es := [Resume(starter)] + es;
  }

  /** A state that is not fresh can go wrong without anything else going wrong. */
  lemma SpoiltDooms(s: State) returns (es: seq<Event>)
    requires SingleFlight(s.client) && !FreshTokens(s)
    ensures Dooms(s, es)
  {
    var c := s.client;
    var caller := Unlisted(c.callers.Keys);
    if s.server.familyRevoked {
      es := [];
    } else if i :| 0 <= i < |c.tasks| && c.tasks[i].stage.Presenting? && c.tasks[i].stage.token in s.server.rotated {
      PresentedDooms(s, i);
      es := [ServerAnswers(i, true)] + [];
    } else if c.slot.None? {
      es := EmptySlotDooms(s, caller);
    } else {
      var t := c.slot.value;
      match c.tasks[t].stage {
        case Reading => es := ReadingDooms(s, t);
        case Settled(_) => es := SettledDooms(s, t, caller);
        case Presenting(_) =>
          MovedKeepsFlight(c, t, Settled(Failed));
          es := SettledDooms(Step(s, NetworkFails(t)), t, caller);
          DoomsBefore(s, NetworkFails(t), es);
          es := [NetworkFails(t)] + es;
        case Limited =>
          MovedKeepsFlight(c, t, Settled(Failed));
          es := SettledDooms(Step(s, LimitShown(t)), t, caller);
          DoomsBefore(s, LimitShown(t), es);
          es := [LimitShown(t)] + es;
        case Refused =>
          MovedKeepsFlight(c, t, Settled(Failed));
          es := SettledDooms(Step(s, Deliver(t)), t, caller);
          DoomsBefore(s, Deliver(t), es);
          es := [Deliver(t)] + es;
      }
    }
  }

  /** In every reachable state: the family can still be revoked without anything else going
      wrong exactly if the state is not fresh. */
  lemma FreshIffSafe(es: seq<Event>)
    requires Legal(START, es)
    ensures var s := Run(START, es);
            FreshTokens(s) <==> !exists more :: Dooms(s, more)
  {
    RunKeeps(START, es);
    var s := Run(START, es);
    if FreshTokens(s) {
      forall more | Legal(s, more) && NeverSpoiled(s, more)
        ensures !Run(s, more).server.familyRevoked
      {
        RunFreshIff(s, more);
      }
    } else {
      var more := SpoiltDooms(s);
    }
  }

  lemma {:induction false} RunAppend(s: State, es: seq<Event>, more: seq<Event>)
    requires Legal(s, es) && Legal(Run(s, es), more)
    ensures Legal(s, es + more) && Run(s, es + more) == Run(Run(s, es), more)
    decreases |es|
  {
    if es == [] {
      assert es + more == more;
    } else {
      assert (es + more)[0] == es[0] && (es + more)[1..] == es[1..] + more;
      RunAppend(Step(s, es[0]), es[1..], more);
    }
  }

  lemma Then(es: seq<Event>, e: Event)
    requires Legal(START, es) && Enabled(Run(START, es), e)
    ensures Legal(START, es + [e]) && Run(START, es + [e]) == Step(Run(START, es), e)
  {
    assert [e][1..] == [];
    RunAppend(START, es, [e]);
  }

  /** The first refresh of a stored session, as far as the server's rotation. */
  const ROTATION: seq<Event> := [OtherSessionStored, Call(1), ReadStored(0), ServerAnswers(0, true)]

  lemma RotationRuns()
    ensures Legal(START, ROTATION)
    ensures Run(START, ROTATION)
         == State(Client(Some(0), Some(0), [Task(1, Rotated(1))], map[1 := Waiting(0)], map[]), Server(2, {0}, [0], false))
  {
    Then([], OtherSessionStored);
    Then([OtherSessionStored], Call(1));
    Then([OtherSessionStored, Call(1)], ReadStored(0));
    Then([OtherSessionStored, Call(1), ReadStored(0)], ServerAnswers(0, true));
    assert ROTATION == [OtherSessionStored, Call(1), ReadStored(0)] + [ServerAnswers(0, true)];
  }

  /** The next refresh, after one that left its token in the store. */
  const REPLAY: seq<Event> := [Resume(1), Call(2), ReadStored(1), ServerAnswers(1, true)]

  lemma ReplayRuns(es: seq<Event>)
    requires Legal(START, es)
    requires var c := Run(START, es).client;
             c.slot == Some(0) && |c.tasks| == 1 && c.tasks[0].starter == 1 && c.tasks[0].stage.Settled? && 2 !in c.callers
    requires StoresUsed(Run(START, es))
    ensures Legal(START, es + REPLAY) && Run(START, es + REPLAY).server.familyRevoked
  {
    RunKeeps(START, es);
    var more := SettledDooms(Run(START, es), 0, 2);
    assert more == REPLAY;
    RunAppend(START, es, REPLAY);
  }

  const UPDATE: seq<Event> := [MfaRead(0), Deliver(0), StoreDone(0), MfaWriteBack(0)]

  lemma UpdateRuns()
    ensures Legal(START, ROTATION + UPDATE)
    ensures var s := Run(START, ROTATION + UPDATE);
            && s.client.slot == Some(0) && s.client.tasks == [Task(1, Settled(Refreshed(1)))]
            && s.client.callers == map[1 := Waiting(0)] && StoresUsed(s)
  {
    RotationRuns();
    var a := ROTATION + [MfaRead(0)];
    var b := a + [Deliver(0)];
    var c := b + [StoreDone(0)];
    Then(ROTATION, MfaRead(0));
    Then(a, Deliver(0));
    Then(b, StoreDone(0));
    Then(c, MfaWriteBack(0));
    assert c + [MfaWriteBack(0)] == ROTATION + UPDATE;
  }

  /** An MFA state update during a refresh: every answer is delivered and stored, and still the
      next refresh presents a rotated token. */
  lemma MfaUpdateReplays()
    ensures var es := ROTATION + UPDATE + REPLAY;
            && (forall e :: e in es ==> Lossless(e))
            && Legal(START, es) && Run(START, es).server.familyRevoked
  {
    UpdateRuns();
    ReplayRuns(ROTATION + UPDATE);
  }

  /** A lost answer is enough as well. */
  lemma LostAnswerReplays()
    ensures var es := ROTATION + [ResponseLost(0)] + REPLAY;
            Legal(START, es) && Run(START, es).server.familyRevoked
  {
    RotationRuns();
    Then(ROTATION, ResponseLost(0));
    ReplayRuns(ROTATION + [ResponseLost(0)]);
  }

  /** And so is an answer that could not be written to the store. */
  lemma LostWriteReplays()
    ensures var es := ROTATION + [Deliver(0), StoreFails(0)] + REPLAY;
            Legal(START, es) && Run(START, es).server.familyRevoked
  {
    RotationRuns();
    Then(ROTATION, Deliver(0));
    Then(ROTATION + [Deliver(0)], StoreFails(0));
    assert ROTATION + [Deliver(0)] + [StoreFails(0)] == ROTATION + [Deliver(0), StoreFails(0)];
    ReplayRuns(ROTATION + [Deliver(0), StoreFails(0)]);
  }

  // ---- a refresh ends ----

  function Rank(stage: Stage): nat {
    match stage
    case Reading => 4
    case Presenting(_) => 3
    case Rotated(_) => 2
    case Refused => 2
    case Limited => 1
    case Storing(_) => 1
    case Settled(_) => 0
  }

  function Count(es: seq<Event>, task: nat): nat {
    if es == [] then 0 else (if Moves(es[0], task) then 1 else 0) + Count(es[1..], task)
  }

  lemma StepRanks(s: State, e: Event, task: nat)
    requires At(s, task) && Enabled(s, e)
    ensures At(Step(s, e), task)
    ensures (if Moves(e, task) then 1 else 0) + Rank(StageOf(Step(s, e), task)) <= Rank(StageOf(s, task))
  {
  }

  lemma CanMove(s: State, task: nat)
    requires At(s, task) && !StageOf(s, task).Settled?
    ensures exists e :: Moves(e, task) && Lossless(e) && Enabled(s, e)
  {
    match StageOf(s, task) {
      case Reading => assert Enabled(s, ReadStored(task)) && Moves(ReadStored(task), task);
      case Presenting(_) => assert Enabled(s, NetworkFails(task)) && Moves(NetworkFails(task), task);
      case Limited => assert Enabled(s, LimitShown(task)) && Moves(LimitShown(task), task);
      case Storing(_) => assert Enabled(s, StoreDone(task)) && Moves(StoreDone(task), task);
      case Settled(_) =>
      case _ => assert Enabled(s, Deliver(task)) && Moves(Deliver(task), task);
    }
  }

  /** A refresh takes at most four steps of its own, and until it has settled one of them can
      always be taken: nobody waits for a refresh that is stuck. */
  lemma {:induction false} RefreshEnds(s: State, es: seq<Event>, task: nat)
    requires At(s, task) && Legal(s, es)
    ensures At(Run(s, es), task)
    ensures Count(es, task) + Rank(StageOf(Run(s, es), task)) <= Rank(StageOf(s, task))
    ensures !StageOf(s, task).Settled? ==> exists e :: Moves(e, task) && Lossless(e) && Enabled(s, e)
    decreases |es|
  {
    if es != [] {
      StepRanks(s, es[0], task);
      RefreshEnds(Step(s, es[0]), es[1..], task);
    }
    if !StageOf(s, task).Settled? {
      CanMove(s, task);
    }
  }

  // ---- the client object ----

  class SessionManager {
    var refreshSessionPromise: Option<nat>
    var stored: Option<Token>
    var tasks: seq<Task>
    var callers: map<nat, Caller>
    var updates: map<nat, Update>

    ghost function View(): Client
      reads this
    {
      Client(refreshSessionPromise, stored, tasks, callers, updates)
    }

    constructor ()
      ensures View() == START.client
    {
      refreshSessionPromise, stored, tasks, callers, updates := None, None, [], map[], map[];
    }

    /** Up to the await of the shared promise. */
    method RefreshSession(caller: nat)
      requires caller !in callers
      modifies this
      ensures View() == Called(old(View()), caller)
    {
      if refreshSessionPromise.None? {
        tasks := tasks + [Task(caller, Reading)];
        refreshSessionPromise := Some(|tasks| - 1);
      }
      callers := callers[caller := Waiting(refreshSessionPromise.value)];
    }

    /** After the await; only the call that started the refresh clears the field. */
    method ReturnFromRefresh(caller: nat) returns (outcome: Outcome)
      requires caller in callers && callers[caller].Waiting?
      requires callers[caller].task < |tasks| && tasks[callers[caller].task].stage.Settled?
      modifies this
      ensures View() == Resumed(old(View()), caller)
      ensures callers[caller] == Returned(old(callers[caller]).task, outcome)
    {
      var task := callers[caller].task;
      outcome := tasks[task].stage.outcome;
      if tasks[task].starter == caller {
        refreshSessionPromise := None;
      }
      callers := callers[caller := Returned(task, outcome)];
    }

    /** The end of `refreshSessionOnce`: the new token is in the store when the promise settles. */
    method StoreSessionResponse(task: nat, token: Token)
      requires task < |tasks| && tasks[task].stage == Storing(token)
      modifies this
      ensures View() == Stored(old(View()), task, token)
    {
      stored := Some(token);
      updates := Overtaken(updates);
      tasks := tasks[task := tasks[task].(stage := Settled(Refreshed(token)))];
    }

    /** `updateStoredSessionMfaState` up to its write; without a session it ends there. */
    method ReadStoredSession(update: nat)
      requires update !in updates
      modifies this
      ensures View() == if old(stored).Some? then ReadForUpdate(old(View()), update) else old(View())
    {
      if stored.Some? {
        updates := updates[update := Update(stored.value, false)];
      }
    }

    /** The write: the whole session, refresh token included. */
    method WriteSessionBack(update: nat)
      requires update in updates
      modifies this
      ensures View() == WrittenBack(old(View()), update)
    {
      stored := Some(updates[update].token);
      updates := updates - {update};
    }
  }
}
