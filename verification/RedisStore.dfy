/** The shared counter store: two Lua scripts over a keyspace with expiry.  A script runs
    atomically; between scripts the clock advances and expired keys are gone. */
module RedisStore {
  import opened Common

  /** `expiresAt` None is a key without an expiry (PTTL -1). */
  datatype Entry = Entry(value: int, expiresAt: Option<int>)

  datatype Keyspace = Keyspace(entries: map<string, Entry>, now: int)

  /** A key as a command sees it: an expired entry does not exist. */
  function Get(k: Keyspace, key: string): Option<Entry> {
    if key in k.entries && (k.entries[key].expiresAt.None? || k.entries[key].expiresAt.value > k.now)
    then Some(k.entries[key]) else None
  }

  function Put(k: Keyspace, key: string, e: Entry): Keyspace {
    k.(entries := k.entries[key := e])
  }

  // ---- the commands the scripts call ----

  function Add(k: Keyspace, key: string, delta: int): (Keyspace, int) {
    match Get(k, key)
    case Some(e) => (Put(k, key, e.(value := e.value + delta)), e.value + delta)
    case None => (Put(k, key, Entry(delta, None)), delta)
  }

  /** PEXPIRE on an existing key; a window that is not positive deletes it at once. */
  function PExpire(k: Keyspace, key: string, windowMs: int): Keyspace {
    match Get(k, key)
    case Some(e) =>
      if windowMs > 0 then Put(k, key, e.(expiresAt := Some(k.now + windowMs)))
      else k.(entries := k.entries - {key})
    case None => k
  }

  function Pttl(k: Keyspace, key: string): int {
    match Get(k, key)
    case Some(e) => if e.expiresAt.Some? then e.expiresAt.value - k.now else -1
    case None => -2
  }

  // ---- what the scripts do to one key ----

  /** INCREMENT on one key: missing, without expiry, or left at zero, the key starts a whole
      window; otherwise it keeps the expiry it has. */
  function AfterIncrement(e: Option<Entry>, windowMs: int, now: int): Option<Entry> {
    var value := if e.Some? then e.value.value + 1 else 1;
    if value == 1 || e.None? || e.value.expiresAt.None? then
      if windowMs > 0 then Some(Entry(value, Some(now + windowMs))) else None
    else Some(Entry(value, e.value.expiresAt))
  }

  /** DECREMENT on one key: above zero it counts down and keeps its expiry; otherwise it is set
      to zero for a whole window. */
  function AfterDecrement(e: Option<Entry>, windowMs: int, now: int): Option<Entry> {
    if e.Some? && e.value.value >= 1 then Some(e.value.(value := e.value.value - 1))
    else if windowMs > 0 then Some(Entry(0, Some(now + windowMs)))
    else None
  }

  function Write(k: Keyspace, key: string, e: Option<Entry>): Keyspace {
    match e
    case Some(entry) => Put(k, key, entry)
    case None => k.(entries := k.entries - {key})
  }

  function Incremented(k: Keyspace, key: string, windowMs: int): Keyspace {
    Write(k, key, AfterIncrement(Get(k, key), windowMs, k.now))
  }

  function Decremented(k: Keyspace, key: string, windowMs: int): Keyspace {
    Write(k, key, AfterDecrement(Get(k, key), windowMs, k.now))
  }

  class RedisRateLimitStore {
    var keys: Keyspace

    constructor (now: int)
      ensures keys == Keyspace(map[], now)
    {
      keys := Keyspace(map[], now);
    }

    /** INCR (`delta` 1) and DECR (`delta` -1). */
    method Call(key: string, delta: int) returns (current: int)
      modifies this
      ensures (keys, current) == Add(old(keys), key, delta)
    {
      var r := Add(keys, key, delta);
      keys, current := r.0, r.1;
    }

    /** The increment script, command by command, then the client's reading of its answer. */
    method Increment(key: string, windowMs: int) returns (count: int, resetTime: int)
      modifies this
      ensures keys == Incremented(old(keys), key, windowMs)
      ensures count == (match old(Get(keys, key)) case Some(e) => e.value + 1 case None => 1)
      ensures resetTime == (match Get(keys, key) case Some(e) => e.expiresAt.value case None => keys.now + windowMs)
    {
      var current := Call(key, 1);
      if current == 1 {
        keys := PExpire(keys, key, windowMs);
      }
      var ttl := Pttl(keys, key);
      if ttl == -1 {
        keys := PExpire(keys, key, windowMs);
        ttl := windowMs;
      }
      count := current;
      resetTime := if ttl >= 0 then keys.now + ttl else keys.now + windowMs;
    }

    /** The refund script.  It answers the count it saw, which is negative when it had to floor. */
    method Decrement(key: string, windowMs: int) returns (current: int)
      modifies this
      ensures keys == Decremented(old(keys), key, windowMs)
      ensures current == (match old(Get(keys, key)) case Some(e) => e.value - 1 case None => -1)
    {
      current := Call(key, -1);
      if current < 0 {
        keys := Put(keys, key, Entry(0, None));
        keys := PExpire(keys, key, windowMs);
      }
    }

    method Advance(ms: nat)
      modifies this
      ensures keys == old(keys).(now := old(keys).now + ms)
    {
      keys := keys.(now := keys.now + ms);
    }
  }

  // ---- every run of scripts and clock ----

  datatype Op = Increment(key: string) | Decrement(key: string) | Advance(ms: nat)

  /** Each key has one window, whoever calls. */
  type Windows = string -> int

  function Step(k: Keyspace, op: Op, windows: Windows): Keyspace {
    match op
    case Increment(key) => Incremented(k, key, windows(key))
    case Decrement(key) => Decremented(k, key, windows(key))
    case Advance(ms) => k.(now := k.now + ms)
  }

  function Run(k: Keyspace, ops: seq<Op>, windows: Windows): Keyspace
    decreases |ops|
  {
    if ops == [] then k else Run(Step(k, ops[0], windows), ops[1..], windows)
  }

  /** Not negative, and gone within one window. */
  ghost predicate Expiring(e: Option<Entry>, windowMs: int, now: int) {
    e.Some? ==> e.value.value >= 0 && e.value.expiresAt.Some? && e.value.expiresAt.value <= now + windowMs
  }

  ghost predicate AllExpiring(k: Keyspace, windows: Windows) {
    forall key :: Expiring(Get(k, key), windows(key), k.now)
  }

  lemma StepKeepsExpiry(k: Keyspace, op: Op, windows: Windows, key: string)
    requires Expiring(Get(k, key), windows(key), k.now)
    ensures Expiring(Get(Step(k, op, windows), key), windows(key), Step(k, op, windows).now)
  {
  }

  lemma {:induction false} RunKeepsExpiry(k: Keyspace, ops: seq<Op>, windows: Windows)
    requires AllExpiring(k, windows)
    ensures AllExpiring(Run(k, ops, windows), windows)
    decreases |ops|
  {
    if ops != [] {
      forall key
        ensures Expiring(Get(Step(k, ops[0], windows), key), windows(key), Step(k, ops[0], windows).now)
      {
        StepKeepsExpiry(k, ops[0], windows, key);
      }
      RunKeepsExpiry(Step(k, ops[0], windows), ops[1..], windows);
    }
  }

  /** However the scripts interleave, every counter is non-negative and expires within one
      window; left alone for its window, it is gone. */
  lemma CountersExpire(ops: seq<Op>, windows: Windows, now: int, key: string, idle: nat)
    ensures var k := Run(Keyspace(map[], now), ops, windows);
            && Expiring(Get(k, key), windows(key), k.now)
            && (idle >= windows(key) ==> Get(Step(k, Advance(idle), windows), key).None?)
  {
    RunKeepsExpiry(Keyspace(map[], now), ops, windows);
    var k := Run(Keyspace(map[], now), ops, windows);
    assert Expiring(Get(k, key), windows(key), k.now);
  }

  /** One increment gives an expiry to a key that has none, whatever its value. */
  lemma IncrementHealsOrphan(k: Keyspace, key: string, windowMs: int)
    requires Get(k, key).Some? && Get(k, key).value.expiresAt.None? && windowMs > 0
    ensures Get(Incremented(k, key, windowMs), key)
         == Some(Entry(Get(k, key).value.value + 1, Some(k.now + windowMs)))
  {
  }

  /** A refund heals an orphan only by flooring it: the expiry is still missing afterwards
      exactly when it was missing before and the counter stood above zero. */
  lemma DecrementLeavesOrphan(k: Keyspace, key: string, windowMs: int)
    ensures (var e := Get(Decremented(k, key, windowMs), key); e.Some? && e.value.expiresAt.None?)
       <==> (var e := Get(k, key); e.Some? && e.value.expiresAt.None? && e.value.value >= 1)
  {
  }
}
