/** When the two counter stores give the same answers: exactly as long as no request meets a live
    counter that refunds have brought back to zero within its window. */
module StoreAgreement {
  import opened Common
  import M = MemoryStore
  import R = RedisStore

  /** What `increment` returns to the limiter. */
  datatype Answer = Answer(count: int, resetTime: int)

  /** A counter of the memory store that still counts at time `now`. */
  function InMemory(m: M.Simple, key: string, now: int): Option<M.Cell> {
    M.Live(M.InSimple(m, key), now)
  }

  function InRedis(entries: map<string, R.Entry>, key: string, now: int): Option<R.Entry> {
    R.Get(R.Keyspace(entries, now), key)
  }

  function MemoryAnswer(c: Option<M.Cell>, windowMs: int, now: int): Answer {
    match c
    case Some(cell) => Answer(cell.count + 1, cell.resetTime)
    case None => Answer(1, now + windowMs)
  }

  function RedisAnswer(e: Option<R.Entry>, windowMs: int, now: int): Answer {
    Answer(
      match e case Some(entry) => entry.value + 1 case None => 1,
      match R.AfterIncrement(e, windowMs, now) case Some(entry) => entry.expiresAt.value case None => now + windowMs)
  }

  /** The same count above zero with the same expiry, or nothing counted on either side. */
  predicate Similar(c: Option<M.Cell>, e: Option<R.Entry>) {
    if c.Some? && c.value.count > 0 then e == Some(R.Entry(c.value.count, Some(c.value.resetTime)))
    else e.Some? ==> e.value.value == 0
  }

  /** A live counter at zero whose window is not the one a new request would start. */
  predicate MeetsZero(c: Option<M.Cell>, windowMs: int, now: int) {
    c.Some? && c.value.count == 0 && c.value.resetTime != now + windowMs
  }

  // ---- one key, one call ----

  /** The bounded table answers from the live counter of the key alone. */
  lemma TableAnswer(t: M.Table, key: string, windowMs: int, now: int, maxKeys: nat)
    requires M.Distinct(t.entries)
    ensures var slot := M.Incremented(t, key, windowMs, now, maxKeys).1;
            Answer(slot.count, slot.resetTime) == MemoryAnswer(M.Live(M.InTable(t.entries, key), now), windowMs, now)
  {
    M.PurgedMembers(t.entries, now);
    M.PurgedAgrees(t.entries, now, key);
  }

  /** The answer of the increment script, read off the key it leaves behind. */
  lemma ScriptAnswer(k: R.Keyspace, key: string, windowMs: int)
    ensures RedisAnswer(R.Get(k, key), windowMs, k.now)
         == Answer(match R.Get(k, key) case Some(e) => e.value + 1 case None => 1,
                   match R.Get(R.Incremented(k, key, windowMs), key)
                   case Some(e) => e.expiresAt.value
                   case None => k.now + windowMs)
  {
  }

  /** On a key that counts the same in both stores, an increment is answered alike exactly if it
      does not meet a zero. */
  lemma IncrementAgreesIff(t: M.Table, k: R.Keyspace, key: string, windowMs: int, maxKeys: nat)
    requires M.Distinct(t.entries) && Similar(M.Live(M.InTable(t.entries, key), k.now), R.Get(k, key))
    ensures var slot := M.Incremented(t, key, windowMs, k.now, maxKeys).1;
            Answer(slot.count, slot.resetTime) == RedisAnswer(R.Get(k, key), windowMs, k.now) <==>
              !MeetsZero(M.Live(M.InTable(t.entries, key), k.now), windowMs, k.now)
  {
    TableAnswer(t, key, windowMs, k.now, maxKeys);
  }

  // ---- every run ----

  datatype Call = Increment(key: string, windowMs: int, now: int) | Decrement(key: string, windowMs: int, now: int)

  function MemoryAfter(m: M.Simple, c: Call): M.Simple {
    match c
    case Increment(key, windowMs, now) => M.SimpleIncremented(m, key, windowMs, now).0
    case Decrement(key, _, _) => M.SimpleDecremented(m, key)
  }

  function RedisAfter(entries: map<string, R.Entry>, c: Call): map<string, R.Entry> {
    match c
    case Increment(key, windowMs, now) => R.Incremented(R.Keyspace(entries, now), key, windowMs).entries
    case Decrement(key, windowMs, now) => R.Decremented(R.Keyspace(entries, now), key, windowMs).entries
  }

  function MemoryAnswers(m: M.Simple, calls: seq<Call>): seq<Answer>
    decreases |calls|
  {
    if calls == [] then []
    else
      var c := calls[0];
      (if c.Increment? then [MemoryAnswer(InMemory(m, c.key, c.now), c.windowMs, c.now)] else [])
      + MemoryAnswers(MemoryAfter(m, c), calls[1..])
  }

  function RedisAnswers(entries: map<string, R.Entry>, calls: seq<Call>): seq<Answer>
    decreases |calls|
  {
    if calls == [] then []
    else
      var c := calls[0];
      (if c.Increment? then [RedisAnswer(InRedis(entries, c.key, c.now), c.windowMs, c.now)] else [])
      + RedisAnswers(RedisAfter(entries, c), calls[1..])
  }

  ghost predicate ClockRuns(calls: seq<Call>, last: int)
    decreases |calls|
  {
    calls == [] || (last <= calls[0].now && ClockRuns(calls[1..], calls[0].now))
  }

  /** No increment of the run meets a zero in the memory store. */
  ghost predicate NoZeroMet(m: M.Simple, calls: seq<Call>)
    decreases |calls|
  {
    calls == [] ||
    (var c := calls[0];
     && (c.Increment? ==> !MeetsZero(InMemory(m, c.key, c.now), c.windowMs, c.now))
     && NoZeroMet(MemoryAfter(m, c), calls[1..]))
  }

  ghost predicate AllSimilar(m: M.Simple, entries: map<string, R.Entry>, now: int) {
    forall key :: Similar(InMemory(m, key, now), InRedis(entries, key, now))
  }

  lemma CallKeepsSimilar(m: M.Simple, entries: map<string, R.Entry>, last: int, c: Call, key: string)
    requires Similar(InMemory(m, key, last), InRedis(entries, key, last)) && last <= c.now
    requires c.Increment? && c.key == key ==> !MeetsZero(InMemory(m, key, c.now), c.windowMs, c.now)
    ensures Similar(InMemory(MemoryAfter(m, c), key, c.now), InRedis(RedisAfter(entries, c), key, c.now))
  {
    assert Similar(InMemory(m, key, c.now), InRedis(entries, key, c.now));
  }

  lemma SameHead(m: M.Simple, entries: map<string, R.Entry>, last: int, c: Call)
    requires Similar(InMemory(m, c.key, last), InRedis(entries, c.key, last)) && last <= c.now
    requires !MeetsZero(InMemory(m, c.key, c.now), c.windowMs, c.now)
    ensures MemoryAnswer(InMemory(m, c.key, c.now), c.windowMs, c.now)
         == RedisAnswer(InRedis(entries, c.key, c.now), c.windowMs, c.now)
  {
  }

  /** Over any run of increments and refunds on any keys, the unbounded memory store and the
      shared store give the same answers exactly if no increment meets a zero. */
  lemma {:induction false} RunsAgreeIff(m: M.Simple, entries: map<string, R.Entry>, calls: seq<Call>, last: int)
    requires AllSimilar(m, entries, last) && ClockRuns(calls, last)
    ensures MemoryAnswers(m, calls) == RedisAnswers(entries, calls) <==> NoZeroMet(m, calls)
    decreases |calls|
  {
    if calls != [] {
      var c := calls[0];
      assert Similar(InMemory(m, c.key, last), InRedis(entries, c.key, last));
      if c.Increment? && MeetsZero(InMemory(m, c.key, c.now), c.windowMs, c.now) {
        assert MemoryAnswers(m, calls)[0] != RedisAnswers(entries, calls)[0];
      } else {
        forall key
          ensures Similar(InMemory(MemoryAfter(m, c), key, c.now), InRedis(RedisAfter(entries, c), key, c.now))
        {
          assert Similar(InMemory(m, key, last), InRedis(entries, key, last));
          CallKeepsSimilar(m, entries, last, c, key);
        }
        RunsAgreeIff(MemoryAfter(m, c), RedisAfter(entries, c), calls[1..], c.now);
        if c.Increment? {
          SameHead(m, entries, last, c);
        }
        var head := if c.Increment? then [MemoryAnswer(InMemory(m, c.key, c.now), c.windowMs, c.now)] else [];
        var xs, ys := MemoryAnswers(MemoryAfter(m, c), calls[1..]), RedisAnswers(RedisAfter(entries, c), calls[1..]);
        assert MemoryAnswers(m, calls) == head + xs && RedisAnswers(entries, calls) == head + ys;
        assert (head + xs)[|head|..] == xs && (head + ys)[|head|..] == ys;
      }
    }
  }

  // ---- the bounded store ----

  function ToOps(calls: seq<Call>): (ops: seq<M.Op>)
    ensures |ops| == |calls|
  {
    if calls == [] then []
    else [match calls[0]
          case Increment(key, windowMs, now) => M.Op.Increment(key, windowMs, now)
          case Decrement(key, _, _) => M.Op.Decrement(key)] + ToOps(calls[1..])
  }

  function Answers(cells: seq<M.Cell>): seq<Answer> {
    seq(|cells|, i requires 0 <= i < |cells| => Answer(cells[i].count, cells[i].resetTime))
  }

  lemma {:induction false} SimpleAnswersAre(m: M.Simple, calls: seq<Call>)
    ensures Answers(M.SimpleAnswers(m, ToOps(calls))) == MemoryAnswers(m, calls)
    decreases |calls|
  {
    if calls != [] {
      var c, ops := calls[0], ToOps(calls);
      assert ops[1..] == ToOps(calls[1..]);
      SimpleAnswersAre(MemoryAfter(m, c), calls[1..]);
      var rest := M.SimpleAnswers(MemoryAfter(m, c), ops[1..]);
      if c.Increment? {
        assert ops[0] == M.Op.Increment(c.key, c.windowMs, c.now);
        var cell := M.SimpleIncremented(m, c.key, c.windowMs, c.now).1;
        assert M.SimpleAnswers(m, ops) == [cell] + rest;
        AnswersCons(cell, rest);
      } else {
        assert ops[0] == M.Op.Decrement(c.key);
        assert M.SimpleAnswers(m, ops) == rest;
      }
    }
  }

  lemma AnswersCons(cell: M.Cell, rest: seq<M.Cell>)
    ensures Answers([cell] + rest) == [Answer(cell.count, cell.resetTime)] + Answers(rest)
  {
  }

  /** The two stores as they are, both empty at the start and with room in the bounded one: the
      same answers along a run exactly if no increment meets a zero. */
  lemma StoresAgreeIff(calls: seq<Call>, start: int, maxKeys: nat)
    requires ClockRuns(calls, start) && M.Roomy(map[], ToOps(calls), start, maxKeys)
    ensures Answers(M.TableAnswers(M.EMPTY, ToOps(calls), maxKeys)) == RedisAnswers(map[], calls) <==> NoZeroMet(map[], calls)
  {
    M.MemoryStoreRefines(ToOps(calls), start, maxKeys);
    SimpleAnswersAre(map[], calls);
    RunsAgreeIff(map[], map[], calls, start);
  }
}
