/** The limiter in front of a counter store: admission, refund of successful requests, and the
    process-local fallback used when the configured store is down. */
module RateLimiter {
  import opened Common
  import M = MemoryStore
  import R = RedisStore

  /** Either kind of store the limiter can be given. */
  datatype Store = Memory(table: M.Table, maxKeys: nat) | Redis(entries: map<string, R.Entry>)

  ghost predicate WellFormed(s: Store) {
    match s
    case Memory(table, _) => M.Distinct(table.entries)
    case Redis(entries) => forall key :: key in entries ==> entries[key].value >= 0
  }

  /** `increment`, at time `now`. */
  function Count(s: Store, key: string, windowMs: int, now: int): (Store, int) {
    match s
    case Memory(table, maxKeys) =>
      var (t, slot) := M.Incremented(table, key, windowMs, now, maxKeys);
      (Memory(t, maxKeys), slot.count)
    case Redis(entries) =>
      var k := R.Keyspace(entries, now);
      (Redis(R.Incremented(k, key, windowMs).entries),
       match R.Get(k, key) case Some(e) => e.value + 1 case None => 1)
  }

  /** `decrement`, at time `now`. */
  function Refund(s: Store, key: string, windowMs: int, now: int): Store {
    match s
    case Memory(table, maxKeys) => Memory(M.Decremented(table, key), maxKeys)
    case Redis(entries) => Redis(R.Decremented(R.Keyspace(entries, now), key, windowMs).entries)
  }

  /** The counter of the key's current lifetime, if it has one. */
  function Current(s: Store, key: string, now: int): Option<int> {
    match s
    case Memory(table, _) =>
      (match M.Live(M.InTable(table.entries, key), now) case Some(c) => Some(c.count) case None => None)
    case Redis(entries) =>
      (match R.Get(R.Keyspace(entries, now), key) case Some(e) => Some(e.value) case None => None)
  }

  // ---- what both stores promise about lifetimes ----

  /** A counter as it was, or its lifetime over. */
  ghost predicate SameOrOver(before: Option<int>, after: Option<int>) {
    after == before || after.None?
  }

  lemma CountMemory(t: M.Table, maxKeys: nat, key: string, windowMs: int, now: int)
    requires M.Distinct(t.entries)
    ensures var (s', n) := Count(Memory(t, maxKeys), key, windowMs, now);
            && WellFormed(s')
            && n == (match Current(Memory(t, maxKeys), key, now) case Some(c) => c + 1 case None => 1)
            && (Current(s', key, now) == Some(n) || (windowMs <= 0 && Current(s', key, now).None?))
  {
    var c := M.Cleaned(t, now);
    M.PurgedMembers(t.entries, now);
    M.PurgedAgrees(t.entries, now, key);
    var (t', slot) := M.Incremented(t, key, windowMs, now, maxKeys);
    var i := M.IndexOf(c.entries, key);
    if i < |c.entries| {
      M.UpdatedLookup(c.entries, i, slot, key);
    } else {
      M.EvictedLookup(c.entries, now, maxKeys, key);
      M.AppendedLookup(M.Evicted(c.entries, now, maxKeys), slot, key);
    }
  }

  lemma CountMemoryOther(t: M.Table, maxKeys: nat, key: string, windowMs: int, now: int, other: string)
    requires M.Distinct(t.entries) && other != key
    ensures SameOrOver(Current(Memory(t, maxKeys), other, now),
                       Current(Count(Memory(t, maxKeys), key, windowMs, now).0, other, now))
  {
    var c := M.Cleaned(t, now);
    M.PurgedMembers(t.entries, now);
    M.PurgedAgrees(t.entries, now, other);
    var (t', slot) := M.Incremented(t, key, windowMs, now, maxKeys);
    var i := M.IndexOf(c.entries, key);
    if i < |c.entries| {
      M.UpdatedLookup(c.entries, i, slot, other);
    } else {
      M.EvictedLookup(c.entries, now, maxKeys, key);
      M.EvictedLookup(c.entries, now, maxKeys, other);
      M.AppendedLookup(M.Evicted(c.entries, now, maxKeys), slot, other);
    }
  }

  lemma CountCurrent(s: Store, key: string, windowMs: int, now: int, other: string)
    requires WellFormed(s)
    ensures var (s', n) := Count(s, key, windowMs, now);
            && WellFormed(s')
            && n == (match Current(s, key, now) case Some(c) => c + 1 case None => 1)
            && (Current(s', key, now) == Some(n) || (windowMs <= 0 && Current(s', key, now).None?))
            && (other != key ==> SameOrOver(Current(s, other, now), Current(s', other, now)))
  {
    if s.Memory? {
      CountMemory(s.table, s.maxKeys, key, windowMs, now);
      if other != key {
        CountMemoryOther(s.table, s.maxKeys, key, windowMs, now, other);
      }
    }
  }

  lemma RefundCurrent(s: Store, key: string, windowMs: int, now: int, other: string)
    requires WellFormed(s)
    ensures var s' := Refund(s, key, windowMs, now);
            && WellFormed(s')
            && (match Current(s, key, now)
                case Some(c) => if c > 0 then Current(s', key, now) == Some(c - 1)
                                else SameOrOver(Some(0), Current(s', key, now))
                case None => Current(s', key, now).None? || Current(s', key, now) == Some(0))
            && (other != key ==> Current(s', other, now) == Current(s, other, now))
  {
    if s.Memory? {
      var i := M.IndexOf(s.table.entries, key);
      if i < |s.table.entries| && s.table.entries[i].count > 0 {
        var slot := M.Decremented(s.table, key).entries[i];
        M.UpdatedLookup(s.table.entries, i, slot, key);
        M.UpdatedLookup(s.table.entries, i, slot, other);
      }
    }
  }

  lemma TimeCurrent(s: Store, key: string, now: int, later: int)
    requires now <= later
    ensures SameOrOver(Current(s, key, now), Current(s, key, later))
  {
  }

  // ---- the limiter ----

  datatype Config = Config(windowMs: int, maxRequests: int, refunds: bool, failClosed: bool)

  datatype Which = Shared | Fallback

  /** An admitted request knows the store and key that counted it; one that is falling back
      waits for the fallback store after the shared one has failed. */
  datatype Request =
    | Admitted(which: Which, key: string, finished: bool)
    | Rejected
    | Unavailable
    | FallingBack(key: string)

  /** What one lifetime of a counter has seen: the count it had when the books were opened, and
      since then requests let through, requests counted in vain, and refunds. */
  datatype Ledger = Ledger(opening: int, admitted: nat, inVain: nat, refunded: nat)

  datatype State = State(
    now: int,
    shared: Store,
    fallback: Store,
    requests: map<nat, Request>,
    ledgers: map<(Which, string), Ledger>,
    refundLog: seq<nat>)

  /** How the configured store takes a command; a command that fails may still have been done. */
  datatype Health = Up | Down(done: bool)

  datatype Event =
    | Arrive(id: nat, key: string, health: Health)
    | FallBack(id: nat)
    | Finish(id: nat, skip: bool, health: Health)
    | Tick(ms: nat)

  function StoreOf(s: State, w: Which): Store {
    if w.Shared? then s.shared else s.fallback
  }

  function WithStore(s: State, w: Which, store: Store): State {
    if w.Shared? then s.(shared := store) else s.(fallback := store)
  }

  /** The ledger of the current lifetime; a key without one starts afresh. */
  function Book(s: State, w: Which, key: string): Ledger {
    match Current(StoreOf(s, w), key, s.now)
    case Some(c) => if (w, key) in s.ledgers then s.ledgers[(w, key)] else Ledger(c, 0, 0, 0)
    case None => Ledger(0, 0, 0, 0)
  }

  /** One increment on the chosen store, entered in the books. */
  function Counted(s: State, cfg: Config, w: Which, key: string, admits: bool): (State, int) {
    var (store, n) := Count(StoreOf(s, w), key, cfg.windowMs, s.now);
    var book := Book(s, w, key);
    var entry :=
      if admits && n <= cfg.maxRequests then book.(admitted := book.admitted + 1)
      else book.(inVain := book.inVain + 1);
    (WithStore(s, w, store).(ledgers := s.ledgers[(w, key) := entry]), n)
  }

  function Decide(s: State, cfg: Config, id: nat, w: Which, key: string): State {
    var (s', n) := Counted(s, cfg, w, key, true);
    s'.(requests := s'.requests[id := if n > cfg.maxRequests then Rejected else Admitted(w, key, false)])
  }

  /** One decrement on the store that counted the request, entered in the books. */
  function Repaid(s: State, cfg: Config, w: Which, key: string): State {
    var book := Book(s, w, key);
    var applied := Current(StoreOf(s, w), key, s.now);
    WithStore(s, w, Refund(StoreOf(s, w), key, cfg.windowMs, s.now)).(
      ledgers := s.ledgers[(w, key) :=
        if applied.Some? && applied.value > 0 then book.(refunded := book.refunded + 1) else book])
  }

  function Arrival(s: State, cfg: Config, id: nat, key: string, health: Health): State {
    match health
    case Up => Decide(s, cfg, id, Shared, key)
    case Down(done) =>
      var s' := if done then Counted(s, cfg, Shared, key, false).0 else s;
      if cfg.failClosed then s'.(requests := s'.requests[id := Unavailable])
      else s'.(requests := s'.requests[id := FallingBack(key)])
  }

  function Finished(s: State, cfg: Config, id: nat, skip: bool, health: Health): State
    requires id in s.requests
  {
    match s.requests[id]
    case Admitted(w, key, finished) =>
      if finished || !cfg.refunds then s
      else
        var s' := s.(requests := s.requests[id := Admitted(w, key, true)]);
        if !skip then s'
        else
          var logged := s'.(refundLog := s'.refundLog + [id]);
          if health.Down? && !health.done then logged else Repaid(logged, cfg, w, key)
    case _ => s
  }

  predicate Enabled(s: State, e: Event) {
    match e
    case Arrive(id, _, _) => id !in s.requests
    case FallBack(id) => id in s.requests && s.requests[id].FallingBack?
    case Finish(id, _, _) => id in s.requests
    case Tick(_) => true
  }

  function Step(s: State, cfg: Config, e: Event): State
    requires Enabled(s, e)
  {
    match e
    case Arrive(id, key, health) => Arrival(s, cfg, id, key, health)
    case FallBack(id) => Decide(s, cfg, id, Fallback, s.requests[id].key)
    case Finish(id, skip, health) => Finished(s, cfg, id, skip, health)
    case Tick(ms) => s.(now := s.now + ms)
  }

  ghost predicate Legal(s: State, cfg: Config, es: seq<Event>)
    decreases |es|
  {
    es == [] || (Enabled(s, es[0]) && Legal(Step(s, cfg, es[0]), cfg, es[1..]))
  }

  function Run(s: State, cfg: Config, es: seq<Event>): State
    requires Legal(s, cfg, es)
    decreases |es|
  {
    if es == [] then s else Run(Step(s, cfg, es[0]), cfg, es[1..])
  }

  function Start(shared: Store, maxKeys: nat, now: int): State {
    State(now, shared, Memory(M.EMPTY, maxKeys), map[], map[], [])
  }

  // ---- the admission bound ----

  /** In the current lifetime of a counter the books explain the count exactly, and what was
      let through and not given back is never more than the limit. */
  ghost predicate Balanced(s: State, cfg: Config, w: Which, key: string) {
    var c, book := Current(StoreOf(s, w), key, s.now), Book(s, w, key);
    c.Some? ==>
      && c.value == book.opening + book.admitted + book.inVain - book.refunded
      && c.value >= 0 && book.opening >= 0
      && book.admitted - book.refunded <= cfg.maxRequests
  }

  ghost predicate Books(s: State, cfg: Config) {
    && WellFormed(s.shared) && WellFormed(s.fallback) && cfg.maxRequests >= 0
    && forall w, key :: Balanced(s, cfg, w, key)
  }

  lemma CountedKeepsBook(s: State, cfg: Config, w: Which, key: string, admits: bool, v: Which, k: string)
    requires Books(s, cfg)
    ensures Balanced(Counted(s, cfg, w, key, admits).0, cfg, v, k)
  {
    assert Balanced(s, cfg, v, k);
    if v == w {
      CountCurrent(StoreOf(s, w), key, cfg.windowMs, s.now, k);
    }
  }

  lemma CountedKeepsBooks(s: State, cfg: Config, w: Which, key: string, admits: bool)
    requires Books(s, cfg)
    ensures Books(Counted(s, cfg, w, key, admits).0, cfg)
  {
    var s' := Counted(s, cfg, w, key, admits).0;
    forall v, k
      ensures Balanced(s', cfg, v, k)
    {
      CountedKeepsBook(s, cfg, w, key, admits, v, k);
    }
    CountCurrent(StoreOf(s, w), key, cfg.windowMs, s.now, key);
  }

  lemma RepaidKeepsBook(s: State, cfg: Config, w: Which, key: string, v: Which, k: string)
    requires Books(s, cfg)
    ensures Balanced(Repaid(s, cfg, w, key), cfg, v, k)
  {
    assert Balanced(s, cfg, v, k);
    if v == w {
      RefundCurrent(StoreOf(s, w), key, cfg.windowMs, s.now, k);
    }
  }

  lemma RepaidKeepsBooks(s: State, cfg: Config, w: Which, key: string)
    requires Books(s, cfg)
    ensures Books(Repaid(s, cfg, w, key), cfg)
  {
    var s' := Repaid(s, cfg, w, key);
    forall v, k
      ensures Balanced(s', cfg, v, k)
    {
      RepaidKeepsBook(s, cfg, w, key, v, k);
    }
    RefundCurrent(StoreOf(s, w), key, cfg.windowMs, s.now, key);
  }

  lemma TickKeepsBooks(s: State, cfg: Config, ms: nat)
    requires Books(s, cfg)
    ensures Books(s.(now := s.now + ms), cfg)
  {
    var s' := s.(now := s.now + ms);
    forall v, k
      ensures Balanced(s', cfg, v, k)
    {
      TimeCurrent(StoreOf(s, v), k, s.now, s'.now);
      assert Balanced(s, cfg, v, k);
    }
  }

  /** Changing only the request table and the log leaves the books alone. */
  lemma PaperKeepsBooks(s: State, s': State, cfg: Config)
    requires Books(s, cfg) && s' == s.(requests := s'.requests, refundLog := s'.refundLog)
    ensures Books(s', cfg)
  {
    forall v, k
      ensures Balanced(s', cfg, v, k)
    {
      assert Balanced(s, cfg, v, k);
    }
  }

  lemma StepKeepsBooks(s: State, cfg: Config, e: Event)
    requires Books(s, cfg) && Enabled(s, e)
    ensures Books(Step(s, cfg, e), cfg)
  {
    match e
    case Tick(ms) => TickKeepsBooks(s, cfg, ms);
    case Arrive(id, key, health) =>
      match health {
        case Up =>
          CountedKeepsBooks(s, cfg, Shared, key, true);
          PaperKeepsBooks(Counted(s, cfg, Shared, key, true).0, Step(s, cfg, e), cfg);
        case Down(done) =>
          CountedKeepsBooks(s, cfg, Shared, key, false);
          PaperKeepsBooks(if done then Counted(s, cfg, Shared, key, false).0 else s, Step(s, cfg, e), cfg);
      }
    case FallBack(id) =>
      CountedKeepsBooks(s, cfg, Fallback, s.requests[id].key, true);
      PaperKeepsBooks(Counted(s, cfg, Fallback, s.requests[id].key, true).0, Step(s, cfg, e), cfg);
    case Finish(id, skip, health) =>
      if s.requests[id].Admitted? {
        var Admitted(w, key, _) := s.requests[id];
        var marked := s.(requests := s.requests[id := Admitted(w, key, true)]);
        var logged := marked.(refundLog := s.refundLog + [id]);
        PaperKeepsBooks(s, marked, cfg);
        PaperKeepsBooks(s, logged, cfg);
        RepaidKeepsBooks(logged, cfg, w, key);
      }
  }

  /** A refund belongs to a request that was admitted, and to no request twice. */
  ghost predicate RefundsOnce(s: State) {
    && (forall i, j :: 0 <= i < j < |s.refundLog| ==> s.refundLog[i] != s.refundLog[j])
    && (forall id :: id in s.refundLog ==> id in s.requests && s.requests[id].Admitted? && s.requests[id].finished)
  }

  /** A decision is final: nothing later changes who counted a request, or that it was refused.
      A request that is falling back is decided by its own fallback increment only. */
  lemma DecisionsStand(s: State, cfg: Config, e: Event, id: nat)
    requires Enabled(s, e) && id in s.requests
    ensures id in Step(s, cfg, e).requests
    ensures var before, after := s.requests[id], Step(s, cfg, e).requests[id];
            match before
            case Admitted(_, _, _) => after == before || after == before.(finished := true)
            case FallingBack(key) =>
              if e == FallBack(id) then after.Rejected? || after == Admitted(Fallback, key, false) else after == before
            case _ => after == before
  {
  }

  lemma StepRefundsOnce(s: State, cfg: Config, e: Event)
    requires RefundsOnce(s) && Enabled(s, e)
    ensures RefundsOnce(Step(s, cfg, e))
  {
    var s' := Step(s, cfg, e);
    assert s'.refundLog == s.refundLog || (e.Finish? && s'.refundLog == s.refundLog + [e.id]);
    forall id | id in s.refundLog
      ensures id in s'.requests && s'.requests[id].Admitted? && s'.requests[id].finished
    {
      DecisionsStand(s, cfg, e, id);
    }
  }

  /** A refund goes to the store and the key that counted the request, and a request that was not
      admitted gives nothing back. */
  lemma RefundGoesHome(s: State, cfg: Config, id: nat, skip: bool, health: Health, w: Which, key: string)
    requires WellFormed(s.shared) && WellFormed(s.fallback) && id in s.requests
    requires !(s.requests[id].Admitted? && s.requests[id].which == w && s.requests[id].key == key)
    ensures Current(StoreOf(Step(s, cfg, Finish(id, skip, health)), w), key, s.now) == Current(StoreOf(s, w), key, s.now)
  {
    match s.requests[id]
    case Admitted(home, counted, _) =>
      if home == w {
        RefundCurrent(StoreOf(s, w), counted, cfg.windowMs, s.now, key);
      }
    case _ =>
  }

  /** What one finished response gives back: exactly one count, exactly if it is to be skipped, was
      admitted and not settled before, the limiter refunds, and the store takes the command. */
  lemma RefundedIffSkipped(s: State, cfg: Config, id: nat, skip: bool, health: Health, c: int)
    requires WellFormed(s.shared) && WellFormed(s.fallback) && id in s.requests && s.requests[id].Admitted?
    requires Current(StoreOf(s, s.requests[id].which), s.requests[id].key, s.now) == Some(c) && c > 0
    ensures var Admitted(w, key, finished) := s.requests[id];
            var t := Step(s, cfg, Finish(id, skip, health));
            var due := cfg.refunds && !finished && skip;
            && Current(StoreOf(t, w), key, s.now) == Some(if due && (health.Up? || health.done) then c - 1 else c)
            && t.refundLog == s.refundLog + (if due then [id] else [])
            && t.requests == s.requests[id := Admitted(w, key, finished || cfg.refunds)]
  {
    var Admitted(w, key, finished) := s.requests[id];
    RefundCurrent(StoreOf(s, w), key, cfg.windowMs, s.now, key);
  }

  /** A request whose shared store is down is refused exactly if the limiter fails closed, and the
      fallback store is not asked; a command that was not done leaves the shared store alone. */
  lemma DownRefusedIffFailClosed(s: State, cfg: Config, id: nat, key: string, done: bool)
    requires id !in s.requests
    ensures var t := Step(s, cfg, Arrive(id, key, Down(done)));
            && (t.requests[id] == Unavailable <==> cfg.failClosed)
            && (t.requests[id] == FallingBack(key) <==> !cfg.failClosed)
            && t.fallback == s.fallback && (!done ==> t.shared == s.shared)
  {
  }

  /** The fallback store decides by its own count, and the shared one is not asked again. */
  lemma FallbackAdmitsIffRoom(s: State, cfg: Config, id: nat)
    requires Books(s, cfg) && id in s.requests && s.requests[id].FallingBack?
    ensures var key, t := s.requests[id].key, Step(s, cfg, FallBack(id));
            var count := match Current(s.fallback, key, s.now) case Some(c) => c case None => 0;
            && t.requests[id] == (if count < cfg.maxRequests then Admitted(Fallback, key, false) else Rejected)
            && (cfg.windowMs > 0 ==> Current(t.fallback, key, s.now) == Some(count + 1))
            && t.shared == s.shared
  {
    CountCurrent(s.fallback, s.requests[id].key, cfg.windowMs, s.now, s.requests[id].key);
  }

  lemma {:induction false} RunKeeps(s: State, cfg: Config, es: seq<Event>)
    requires Books(s, cfg) && RefundsOnce(s) && Legal(s, cfg, es)
    ensures Books(Run(s, cfg, es), cfg) && RefundsOnce(Run(s, cfg, es))
    decreases |es|
  {
    if es != [] {
      StepKeepsBooks(s, cfg, es[0]);
      StepRefundsOnce(s, cfg, es[0]);
      RunKeeps(Step(s, cfg, es[0]), cfg, es[1..]);
    }
  }

  /** The admission bound, for either kind of store, any interleaving of arrivals, late refunds,
      failures and clock, and every lifetime of every counter on either store. */
  lemma AdmissionBound(shared: Store, maxKeys: nat, now: int, cfg: Config, es: seq<Event>, w: Which, key: string)
    requires WellFormed(shared) && cfg.maxRequests >= 0 && Legal(Start(shared, maxKeys, now), cfg, es)
    ensures var s := Run(Start(shared, maxKeys, now), cfg, es);
            var book := Book(s, w, key);
            && (Current(StoreOf(s, w), key, s.now).Some? ==>
                  && book.admitted - book.refunded <= cfg.maxRequests
                  && Current(StoreOf(s, w), key, s.now).value
                     == book.opening + book.admitted + book.inVain - book.refunded)
            && RefundsOnce(s)
  {
    var s0 := Start(shared, maxKeys, now);
    forall v, k
      ensures Balanced(s0, cfg, v, k)
    {
      NoNegativeCount(shared, k, now);
    }
    RunKeeps(s0, cfg, es);
    assert Balanced(Run(s0, cfg, es), cfg, w, key);
  }

  lemma NoNegativeCount(s: Store, key: string, now: int)
    requires WellFormed(s)
    ensures Current(s, key, now).Some? ==> Current(s, key, now).value >= 0
  {
  }

  /** When the decision comes from a store that answers, a request passes exactly when its key
      has room left. */
  lemma AdmittedIffRoom(s: State, cfg: Config, id: nat, key: string)
    requires Books(s, cfg) && id !in s.requests
    ensures var t := Step(s, cfg, Arrive(id, key, Up));
            var count := match Current(s.shared, key, s.now) case Some(c) => c case None => 0;
            && t.requests[id] == (if count < cfg.maxRequests then Admitted(Shared, key, false) else Rejected)
            && (cfg.windowMs > 0 ==> Current(t.shared, key, s.now) == Some(count + 1))
            && t.fallback == s.fallback
  {
    CountCurrent(s.shared, key, cfg.windowMs, s.now, key);
  }

  /** The first request of a key opens a window of the limiter's length, on either kind of store:
      until it has passed the request counts, and then no longer. */
  lemma FirstRequestOpensWindow(s: State, cfg: Config, id: nat, key: string, ms: nat)
    requires Books(s, cfg) && id !in s.requests && Current(s.shared, key, s.now).None? && cfg.windowMs > 0
    ensures var t := Step(Step(s, cfg, Arrive(id, key, Up)), cfg, Tick(ms));
            Current(t.shared, key, t.now) == if ms < cfg.windowMs then Some(1) else None
  {
    CountWindow(s.shared, key, cfg.windowMs, s.now, s.now + ms);
  }

  /** A refund that finds its shared counter gone leaves a zero there for one window; in the memory
      store it leaves nothing. */
  lemma LateRefundWindow(s: State, cfg: Config, id: nat, ms: nat)
    requires Books(s, cfg) && id in s.requests && s.requests[id].Admitted? && s.requests[id].which.Shared?
    requires !s.requests[id].finished && cfg.refunds && cfg.windowMs > 0
    requires Current(s.shared, s.requests[id].key, s.now).None?
    ensures var key := s.requests[id].key;
            var t := Step(Step(s, cfg, Finish(id, true, Up)), cfg, Tick(ms));
            Current(t.shared, key, t.now) == if s.shared.Redis? && ms < cfg.windowMs then Some(0) else None
  {
    if s.shared.Memory? {
      var t, key := s.shared.table, s.requests[id].key;
      var i := M.IndexOf(t.entries, key);
      if i < |t.entries| && t.entries[i].count > 0 {
        M.UpdatedLookup(t.entries, i, M.Decremented(t, key).entries[i], key);
      }
    }
  }

  // ---- what the books record ----

  /** The books count what happens: as long as the lifetime of the counter lasts, one more admitted
      request, or one more counted in vain, ... */
  lemma BooksRecordArrival(s: State, cfg: Config, id: nat, key: string, c: int)
    requires Books(s, cfg) && id !in s.requests && cfg.windowMs > 0 && Current(s.shared, key, s.now) == Some(c)
    ensures var t, book := Step(s, cfg, Arrive(id, key, Up)), Book(s, Shared, key);
            Book(t, Shared, key)
            == if t.requests[id].Admitted? then book.(admitted := book.admitted + 1)
               else book.(inVain := book.inVain + 1)
  {
    CountCurrent(s.shared, key, cfg.windowMs, s.now, key);
  }

  /** ... and one more refund; ... */
  lemma BooksRecordRefund(s: State, cfg: Config, id: nat, c: int)
    requires Books(s, cfg) && id in s.requests && s.requests[id].Admitted? && !s.requests[id].finished && cfg.refunds
    requires Current(StoreOf(s, s.requests[id].which), s.requests[id].key, s.now) == Some(c) && c > 0
    ensures var w, key := s.requests[id].which, s.requests[id].key;
            var t, book := Step(s, cfg, Finish(id, true, Up)), Book(s, w, key);
            Book(t, w, key) == book.(refunded := book.refunded + 1)
  {
    var w, key := s.requests[id].which, s.requests[id].key;
    RefundCurrent(StoreOf(s, w), key, cfg.windowMs, s.now, key);
  }

  /** ... a counter that is gone starts a new page, ... */
  lemma BooksStartAfresh(s: State, cfg: Config, id: nat, key: string)
    requires Books(s, cfg) && id !in s.requests && cfg.windowMs > 0 && Current(s.shared, key, s.now).None?
    ensures var t := Step(s, cfg, Arrive(id, key, Up));
            Book(t, Shared, key) == if t.requests[id].Admitted? then Ledger(0, 1, 0, 0) else Ledger(0, 0, 1, 0)
  {
    CountCurrent(s.shared, key, cfg.windowMs, s.now, key);
  }

  /** ... and neither the requests of other keys ... */
  lemma BooksOutlastOthers(s: State, cfg: Config, id: nat, other: string, w: Which, key: string)
    requires Books(s, cfg) && id !in s.requests && key != other && (w, key) in s.ledgers
    ensures var t := Step(s, cfg, Arrive(id, other, Up));
            Current(StoreOf(t, w), key, t.now).Some? ==> Book(t, w, key) == Book(s, w, key)
  {
    CountCurrent(s.shared, other, cfg.windowMs, s.now, key);
  }

  /** ... nor time turn a page while the counter lasts. */
  lemma BooksOutlastTime(s: State, cfg: Config, ms: nat, w: Which, key: string)
    requires (w, key) in s.ledgers
    ensures var t := Step(s, cfg, Tick(ms));
            Current(StoreOf(t, w), key, t.now).Some? ==> Book(t, w, key) == Book(s, w, key)
  {
    TimeCurrent(StoreOf(s, w), key, s.now, s.now + ms);
  }

  lemma CountWindow(s: Store, key: string, windowMs: int, now: int, later: int)
    requires WellFormed(s) && Current(s, key, now).None? && windowMs > 0 && now <= later
    ensures Current(Count(s, key, windowMs, now).0, key, later) == if later < now + windowMs then Some(1) else None
  {
    if s.Memory? {
      MemoryWindow(s.table, s.maxKeys, key, windowMs, now);
    }
  }

  lemma MemoryWindow(t: M.Table, maxKeys: nat, key: string, windowMs: int, now: int)
    requires M.Distinct(t.entries) && M.Live(M.InTable(t.entries, key), now).None?
    ensures M.InTable(M.Incremented(t, key, windowMs, now, maxKeys).0.entries, key) == Some(M.Cell(1, now + windowMs))
  {
    var c := M.Cleaned(t, now);
    M.PurgedMembers(t.entries, now);
    M.PurgedAgrees(t.entries, now, key);
    var slot := M.Slot(key, 1, now + windowMs);
    var i := M.IndexOf(c.entries, key);
    if i < |c.entries| {
      M.UpdatedLookup(c.entries, i, slot, key);
    } else {
      M.EvictedLookup(c.entries, now, maxKeys, key);
      M.AppendedLookup(M.Evicted(c.entries, now, maxKeys), slot, key);
    }
  }

  /** The two stores are not interchangeable: after a refund to zero the next request keeps the
      memory store's window and starts a new one in the shared store. */
  lemma StoresDiffer()
    ensures var t1 := M.Incremented(M.EMPTY, "k", 10, 0, 5).0;
            var t2 := M.Decremented(t1, "k");
            M.Incremented(t2, "k", 10, 5, 5).1.resetTime == 10
    ensures var k1 := R.Incremented(R.Keyspace(map[], 0), "k", 10);
            var k2 := R.Decremented(k1, "k", 10);
            R.Get(R.Incremented(k2.(now := 5), "k", 10), "k") == Some(R.Entry(1, Some(15)))
  {
  }

  // ---- the middleware itself ----

  class RateLimiter {
    const cfg: Config
    var state: State

    constructor (cfg: Config, shared: Store, maxKeys: nat, now: int)
      ensures this.cfg == cfg && state == Start(shared, maxKeys, now)
    {
      this.cfg := cfg;
      state := Start(shared, maxKeys, now);
    }

    method Increment(w: Which, key: string, admits: bool) returns (count: int)
      modifies this
      ensures (state, count) == Counted(old(state), cfg, w, key, admits)
    {
      var r := Counted(state, cfg, w, key, admits);
      state, count := r.0, r.1;
    }

    /** The middleware up to its decision: count on the configured store and decide, or refuse
        or fall back when it is down. */
    method Handle(id: nat, key: string, health: Health)
      requires id !in state.requests
      modifies this
      ensures state == Step(old(state), cfg, Arrive(id, key, health))
    {
      if health.Up? {
        var counter := Increment(Shared, key, true);
        Answer(id, key, Shared, counter);
        return;
      }
      if health.done {
        var counter := Increment(Shared, key, false);
      }
      state := state.(requests := state.requests[id := if cfg.failClosed then Unavailable else FallingBack(key)]);
    }

    /** The middleware after its first await has failed: the fallback store decides. */
    method HandleFallback(id: nat)
      requires id in state.requests && state.requests[id].FallingBack?
      modifies this
      ensures state == Step(old(state), cfg, FallBack(id))
    {
      var key := state.requests[id].key;
      var counter := Increment(Fallback, key, true);
      Answer(id, key, Fallback, counter);
    }

    method Answer(id: nat, key: string, active: Which, counter: int)
      modifies this
      ensures var answer := if counter > cfg.maxRequests then Rejected else Admitted(active, key, false);
              state == old(state).(requests := old(state).requests[id := answer])
    {
      if counter > cfg.maxRequests {
        state := state.(requests := state.requests[id := Rejected]);
        return;
      }
      state := state.(requests := state.requests[id := Admitted(active, key, false)]);
    }

    /** The response's `finish` listener; only admitted requests have one, and it fires once. */
    method OnFinish(id: nat, skip: bool, health: Health)
      requires id in state.requests
      modifies this
      ensures state == Step(old(state), cfg, Finish(id, skip, health))
    {
      if !state.requests[id].Admitted? || state.requests[id].finished || !cfg.refunds {
        return;
      }
      var Admitted(w, key, _) := state.requests[id];
      state := state.(requests := state.requests[id := Admitted(w, key, true)]);
      if skip {
        state := state.(refundLog := state.refundLog + [id]);
        if health.Up? || health.done {
          state := Repaid(state, cfg, w, key);
        }
      }
    }
  }
}
