/** The process-local fixed-window counter store: a bounded table with lazy cleanup and
    soonest-expiry eviction, and the unbounded table it stands for. */
module MemoryStore {
  import opened Common

  const CLEANUP_INTERVAL_MS := 60_000

  datatype Slot = Slot(key: string, count: nat, resetTime: int)

  /** The entries in insertion order, as the runtime's Map iterates them. */
  datatype Table = Table(entries: seq<Slot>, lastCleanup: int)

  const EMPTY := Table([], 0)

  ghost predicate Distinct(entries: seq<Slot>) {
    forall i, j :: 0 <= i < j < |entries| ==> entries[i].key != entries[j].key
  }

  /** The position of `key`, or the length of the table. */
  function IndexOf(entries: seq<Slot>, key: string): (i: nat)
    ensures i <= |entries|
    ensures i < |entries| ==> entries[i].key == key
    ensures forall j :: 0 <= j < i ==> entries[j].key != key
  {
    if entries == [] || entries[0].key == key then 0 else 1 + IndexOf(entries[1..], key)
  }

  function Purged(entries: seq<Slot>, now: int): (r: seq<Slot>)
    ensures |r| <= |entries|
  {
    if entries == [] then []
    else if entries[0].resetTime <= now then Purged(entries[1..], now)
    else [entries[0]] + Purged(entries[1..], now)
  }

  /** The first slot of minimal reset time. */
  function Soonest(entries: seq<Slot>): (i: nat)
    requires entries != []
    ensures i < |entries|
    ensures forall j :: 0 <= j < |entries| ==> entries[i].resetTime <= entries[j].resetTime
    ensures forall j :: 0 <= j < i ==> entries[i].resetTime < entries[j].resetTime
  {
    if |entries| == 1 then 0
    else
      var j := Soonest(entries[1..]) + 1;
      if entries[0].resetTime <= entries[j].resetTime then 0 else j
  }

  function Removed(entries: seq<Slot>, i: nat): seq<Slot>
    requires i < |entries|
  {
    entries[..i] + entries[i + 1..]
  }

  function Cleaned(t: Table, now: int): Table {
    if now - t.lastCleanup < CLEANUP_INTERVAL_MS then t else Table(Purged(t.entries, now), now)
  }

  function Evicted(entries: seq<Slot>, now: int, maxKeys: nat): seq<Slot> {
    if |entries| < maxKeys then entries
    else
      var live := Purged(entries, now);
      if |live| < maxKeys || live == [] then live else Removed(live, Soonest(live))
  }

  /** `increment`: the new table and the slot whose count and reset time are returned. */
  function Incremented(t: Table, key: string, windowMs: int, now: int, maxKeys: nat): (Table, Slot) {
    var c := Cleaned(t, now);
    var i := IndexOf(c.entries, key);
    if i < |c.entries| && c.entries[i].resetTime > now then
      var slot := c.entries[i].(count := c.entries[i].count + 1);
      (c.(entries := c.entries[i := slot]), slot)
    else
      var slot := Slot(key, 1, now + windowMs);
      if i < |c.entries| then (c.(entries := c.entries[i := slot]), slot)
      else (c.(entries := Evicted(c.entries, now, maxKeys) + [slot]), slot)
  }

  function Decremented(t: Table, key: string): Table {
    var i := IndexOf(t.entries, key);
    if i < |t.entries| && t.entries[i].count > 0 then
      t.(entries := t.entries[i := t.entries[i].(count := t.entries[i].count - 1)])
    else t
  }

  class MemoryRateLimitStore {
    const maxKeys: nat
    var entries: seq<Slot>
    var lastCleanup: int

    ghost function View(): Table
      reads this
    {
      Table(entries, lastCleanup)
    }

    constructor (maxKeys: nat)
      ensures View() == EMPTY && this.maxKeys == maxKeys
    {
      this.maxKeys := maxKeys;
      entries, lastCleanup := [], 0;
    }

    /** The deletion loop of both cleanups: expired slots go while the table is walked. */
    method Purge(now: int)
      modifies this`entries
      ensures entries == Purged(old(entries), now)
    {
      var i := 0;
      while i < |entries|
        invariant 0 <= i <= |entries|
        invariant entries[..i] + Purged(entries[i..], now) == Purged(old(entries), now)
        decreases |entries| - i
      {
        assert entries[i..][1..] == entries[i + 1..];
        if entries[i].resetTime <= now {
          assert Removed(entries, i)[i..] == entries[i + 1..];
          entries := entries[..i] + entries[i + 1..];
        } else {
          assert entries[..i] + ([entries[i]] + Purged(entries[i + 1..], now))
              == entries[..i + 1] + Purged(entries[i + 1..], now);
          i := i + 1;
        }
      }
    }

    method MaybeCleanup(now: int)
      modifies this
      ensures View() == Cleaned(old(View()), now)
    {
      if now - lastCleanup < CLEANUP_INTERVAL_MS {
        return;
      }
      lastCleanup := now;
      Purge(now);
    }

    method EvictIfFull(now: int)
      modifies this`entries
      ensures entries == Evicted(old(entries), now, maxKeys)
    {
      if |entries| < maxKeys {
        return;
      }
      Purge(now);
      if |entries| < maxKeys || |entries| == 0 {
        return;
      }
      var soonest, i := 0, 1;
      while i < |entries|
        invariant 0 <= soonest < i <= |entries|
        invariant forall j :: 0 <= j < i ==> entries[soonest].resetTime <= entries[j].resetTime
        invariant forall j :: 0 <= j < soonest ==> entries[soonest].resetTime < entries[j].resetTime
      {
        if entries[i].resetTime < entries[soonest].resetTime {
          soonest := i;
        }
        i := i + 1;
      }
      assert soonest == Soonest(entries);
      entries := entries[..soonest] + entries[soonest + 1..];
    }

    method Increment(key: string, windowMs: int, now: int) returns (count: nat, resetTime: int)
      modifies this
      ensures var (t, slot) := Incremented(old(View()), key, windowMs, now, maxKeys);
              View() == t && count == slot.count && resetTime == slot.resetTime
    {
      MaybeCleanup(now);
      var i := IndexOf(entries, key);
      if i < |entries| && entries[i].resetTime > now {
        entries := entries[i := entries[i].(count := entries[i].count + 1)];
        return entries[i].count, entries[i].resetTime;
      }
      var slot := Slot(key, 1, now + windowMs);
      if i < |entries| {
        entries := entries[i := slot];
      } else {
        EvictIfFull(now);
        entries := entries + [slot];
      }
      return slot.count, slot.resetTime;
    }

    method Decrement(key: string)
      modifies this`entries
      ensures View() == Decremented(old(View()), key)
    {
      var i := IndexOf(entries, key);
      if i < |entries| && entries[i].count > 0 {
        entries := entries[i := entries[i].(count := entries[i].count - 1)];
      }
    }
  }

  // ---- the store it stands for ----

  datatype Cell = Cell(count: nat, resetTime: int)

  /** An unbounded table that is never cleaned. */
  type Simple = map<string, Cell>

  function SimpleIncremented(m: Simple, key: string, windowMs: int, now: int): (Simple, Cell) {
    var cell :=
      if key in m && m[key].resetTime > now then m[key].(count := m[key].count + 1)
      else Cell(1, now + windowMs);
    (m[key := cell], cell)
  }

  function SimpleDecremented(m: Simple, key: string): Simple {
    if key in m && m[key].count > 0 then m[key := m[key].(count := m[key].count - 1)] else m
  }

  /** A cell that still counts at time `now`. */
  function Live(c: Option<Cell>, now: int): Option<Cell> {
    if c.Some? && c.value.resetTime > now then c else None
  }

  function InTable(entries: seq<Slot>, key: string): Option<Cell> {
    var i := IndexOf(entries, key);
    if i < |entries| then Some(Cell(entries[i].count, entries[i].resetTime)) else None
  }

  function InSimple(m: Simple, key: string): Option<Cell> {
    if key in m then Some(m[key]) else None
  }

  /** Both stores agree on everything that has not expired. */
  ghost predicate Agree(entries: seq<Slot>, m: Simple, now: int) {
    forall key :: Live(InTable(entries, key), now) == Live(InSimple(m, key), now)
  }

  function LiveKeys(m: Simple, now: int): set<string> {
    set key | key in m && m[key].resetTime > now
  }

  // ---- facts about the table ----

  lemma IndexIs(entries: seq<Slot>, i: nat)
    requires Distinct(entries) && i < |entries|
    ensures IndexOf(entries, entries[i].key) == i
  {
  }

  lemma {:induction false} PurgedMembers(entries: seq<Slot>, now: int)
    ensures forall s :: s in Purged(entries, now) <==> s in entries && s.resetTime > now
    ensures Distinct(entries) ==> Distinct(Purged(entries, now))
  {
    if entries != [] {
      PurgedMembers(entries[1..], now);
      assert forall s :: s in entries <==> s == entries[0] || s in entries[1..];
      if Distinct(entries) {
        assert forall s :: s in entries[1..] ==> s.key != entries[0].key;
      }
    }
  }

  lemma InTableMember(entries: seq<Slot>, s: Slot)
    requires Distinct(entries) && s in entries
    ensures InTable(entries, s.key) == Some(Cell(s.count, s.resetTime))
  {
  }

  /** Purging at `now` changes nothing a caller can see from `now` on. */
  lemma PurgedAgrees(entries: seq<Slot>, now: int, key: string)
    requires Distinct(entries)
    ensures InTable(Purged(entries, now), key) == Live(InTable(entries, key), now)
  {
    var live := Purged(entries, now);
    PurgedMembers(entries, now);
    var i, j := IndexOf(entries, key), IndexOf(live, key);
    if j < |live| {
      assert live[j] in entries;
      InTableMember(entries, live[j]);
    } else if i < |entries| && entries[i].resetTime > now {
      assert entries[i] in live;
      InTableMember(live, entries[i]);
    }
  }

  lemma UpdatedLookup(entries: seq<Slot>, i: nat, slot: Slot, key: string)
    requires Distinct(entries) && i < |entries| && slot.key == entries[i].key
    ensures Distinct(entries[i := slot])
    ensures InTable(entries[i := slot], key)
         == if key == slot.key then Some(Cell(slot.count, slot.resetTime)) else InTable(entries, key)
  {
    var e := entries[i := slot];
    var j := IndexOf(entries, key);
    if j < |entries| {
      IndexIs(e, j);
    }
  }

  lemma AppendedLookup(entries: seq<Slot>, slot: Slot, key: string)
    requires Distinct(entries) && IndexOf(entries, slot.key) == |entries|
    ensures Distinct(entries + [slot])
    ensures InTable(entries + [slot], key)
         == if key == slot.key then Some(Cell(slot.count, slot.resetTime)) else InTable(entries, key)
  {
    var e := entries + [slot];
    var j := IndexOf(entries, key);
    if j < |entries| {
      assert e[j] == entries[j];
      IndexIs(e, j);
    } else if key == slot.key {
      IndexIs(e, |entries|);
    }
  }

  lemma RemovedLookup(entries: seq<Slot>, i: nat, key: string)
    requires Distinct(entries) && i < |entries|
    ensures Distinct(Removed(entries, i))
    ensures InTable(Removed(entries, i), key)
         == if key == entries[i].key then None else InTable(entries, key)
  {
    var e := Removed(entries, i);
    var j := IndexOf(entries, key);
    assert Distinct(e);
    if j < i {
      assert e[j] == entries[j];
      IndexIs(e, j);
    } else if i < j < |entries| {
      assert e[j - 1] == entries[j];
      IndexIs(e, j - 1);
    } else {
      assert IndexOf(e, key) == |e|;
    }
  }

  function Keys(entries: seq<Slot>): set<string> {
    set s | s in entries :: s.key
  }

  lemma {:induction false} KeyCount(entries: seq<Slot>)
    requires Distinct(entries)
    ensures |Keys(entries)| == |entries|
  {
    if entries == [] {
      assert Keys(entries) == {};
    } else {
      var first, rest := entries[0], entries[1..];
      KeyCount(rest);
      assert first.key !in Keys(rest);
      assert Keys(entries) == {first.key} + Keys(rest) by {
        assert forall s :: s in entries <==> s == first || s in rest;
      }
    }
  }

  /** What survives a purge is what the simple store still counts. */
  lemma PurgedCount(entries: seq<Slot>, m: Simple, now: int)
    requires Distinct(entries) && Agree(entries, m, now)
    ensures |Purged(entries, now)| == |LiveKeys(m, now)|
  {
    var live := Purged(entries, now);
    PurgedMembers(entries, now);
    KeyCount(live);
    forall key
      ensures key in Keys(live) <==> key in LiveKeys(m, now)
    {
      PurgedAgrees(entries, now, key);
      assert Live(InTable(entries, key), now) == Live(InSimple(m, key), now);
      if key in Keys(live) {
        var s :| s in live && s.key == key;
        InTableMember(live, s);
      }
    }
    assert Keys(live) == LiveKeys(m, now);
  }

  // ---- eviction ----

  function Cap(maxKeys: nat): nat {
    if maxKeys == 0 then 1 else maxKeys
  }

  /** A live slot is evicted only from a full table with nothing expired left in it, and it is
      one that would have expired first; everything else stays. */
  lemma EvictionVictim(entries: seq<Slot>, now: int, maxKeys: nat, s: Slot)
    requires Distinct(entries) && s in entries && s.resetTime > now && s !in Evicted(entries, now, maxKeys)
    ensures |Purged(entries, now)| >= maxKeys
    ensures |entries| <= Cap(maxKeys) ==> forall x :: x in entries ==> x.resetTime > now
    ensures forall x :: x in Evicted(entries, now, maxKeys) ==> x.resetTime > now && s.resetTime <= x.resetTime
    ensures forall x :: x in entries && x.resetTime > now && x != s ==> x in Evicted(entries, now, maxKeys)
  {
    var live := Purged(entries, now);
    PurgedMembers(entries, now);
    PurgedShorter(entries, now);
    RemovedMembers(live, Soonest(live));
  }

  lemma RemovedMembers(entries: seq<Slot>, v: nat)
    requires v < |entries|
    ensures forall x :: x in Removed(entries, v) ==> x in entries
    ensures forall x :: x in entries && x != entries[v] ==> x in Removed(entries, v)
  {
  }

  /** The table after an eviction that loses nobody, or loses exactly the soonest. */
  lemma EvictedLookup(entries: seq<Slot>, now: int, maxKeys: nat, key: string)
    requires Distinct(entries)
    ensures var live, e := Purged(entries, now), Evicted(entries, now, maxKeys);
            && Distinct(e) && |e| <= |entries|
            && (IndexOf(entries, key) == |entries| ==> IndexOf(e, key) == |e|)
            && (|e| < maxKeys || e == [] || |e| < |live|)
            && (|live| < Cap(maxKeys) ==> Live(InTable(e, key), now) == Live(InTable(entries, key), now))
            && (|live| >= Cap(maxKeys) ==>
                  Live(InTable(e, key), now)
                  == if key == live[Soonest(live)].key then None else Live(InTable(entries, key), now))
  {
    var live, e := Purged(entries, now), Evicted(entries, now, maxKeys);
    PurgedMembers(entries, now);
    PurgedAgrees(entries, now, key);
    if |entries| >= maxKeys && |live| >= maxKeys && live != [] {
      RemovedLookup(live, Soonest(live), key);
    }
    PurgedShorter(entries, now);
  }

  lemma {:induction false} PurgedShorter(entries: seq<Slot>, now: int)
    ensures |Purged(entries, now)| == |entries| ==> Purged(entries, now) == entries
  {
    if entries != [] {
      PurgedShorter(entries[1..], now);
    }
  }

  // ---- refinement of the simple store ----

  lemma AgreeLater(entries: seq<Slot>, m: Simple, last: int, now: int)
    requires Agree(entries, m, last) && last <= now
    ensures Agree(entries, m, now)
  {
  }

  lemma CleanedAgrees(t: Table, m: Simple, now: int)
    requires Distinct(t.entries) && Agree(t.entries, m, now)
    ensures Distinct(Cleaned(t, now).entries) && Agree(Cleaned(t, now).entries, m, now)
    ensures |Cleaned(t, now).entries| <= |t.entries|
  {
    PurgedMembers(t.entries, now);
    forall key
      ensures Live(InTable(Cleaned(t, now).entries, key), now) == Live(InSimple(m, key), now)
    {
      PurgedAgrees(t.entries, now, key);
      assert Live(InTable(t.entries, key), now) == Live(InSimple(m, key), now);
    }
  }

  /** Whether an increment leaves every other live entry alone: the key has a slot to reuse, or
      a slot is free once the expired ones are gone. */
  predicate HasRoom(t: Table, m: Simple, key: string, now: int, maxKeys: nat) {
    InTable(Cleaned(t, now).entries, key).Some? || |LiveKeys(m, now)| < Cap(maxKeys)
  }

  lemma NewSlotFits(c: Table, m: Simple, slot: Slot, now: int, maxKeys: nat)
    requires Distinct(c.entries) && Agree(c.entries, m, now) && IndexOf(c.entries, slot.key) == |c.entries|
    requires |Purged(c.entries, now)| < Cap(maxKeys)
    ensures Agree(Evicted(c.entries, now, maxKeys) + [slot], m[slot.key := Cell(slot.count, slot.resetTime)], now)
  {
    var kept, m' := Evicted(c.entries, now, maxKeys), m[slot.key := Cell(slot.count, slot.resetTime)];
    EvictedLookup(c.entries, now, maxKeys, slot.key);
    forall k
      ensures Live(InTable(kept + [slot], k), now) == Live(InSimple(m', k), now)
    {
      assert Live(InTable(c.entries, k), now) == Live(InSimple(m, k), now);
      EvictedLookup(c.entries, now, maxKeys, k);
      AppendedLookup(kept, slot, k);
    }
  }

  lemma NewSlotEvicts(c: Table, m: Simple, slot: Slot, now: int, maxKeys: nat)
    requires Distinct(c.entries) && Agree(c.entries, m, now) && IndexOf(c.entries, slot.key) == |c.entries|
    requires |Purged(c.entries, now)| >= Cap(maxKeys)
    ensures !Agree(Evicted(c.entries, now, maxKeys) + [slot], m[slot.key := Cell(slot.count, slot.resetTime)], now)
  {
    var live, kept := Purged(c.entries, now), Evicted(c.entries, now, maxKeys);
    var m' := m[slot.key := Cell(slot.count, slot.resetTime)];
    var victim := live[Soonest(live)];
    PurgedMembers(c.entries, now);
    assert victim in c.entries;
    InTableMember(c.entries, victim);
    EvictedLookup(c.entries, now, maxKeys, slot.key);
    EvictedLookup(c.entries, now, maxKeys, victim.key);
    AppendedLookup(kept, slot, victim.key);
    assert Live(InTable(c.entries, victim.key), now) == Live(InSimple(m, victim.key), now);
    assert Live(InTable(kept + [slot], victim.key), now) != Live(InSimple(m', victim.key), now);
  }

  /** The part of an increment after the cleanup, on a key that needs a new slot. */
  lemma NewSlot(c: Table, m: Simple, key: string, windowMs: int, now: int, maxKeys: nat)
    requires Distinct(c.entries) && Agree(c.entries, m, now) && IndexOf(c.entries, key) == |c.entries|
    ensures var e := Evicted(c.entries, now, maxKeys) + [Slot(key, 1, now + windowMs)];
            && Distinct(e)
            && (Agree(e, m[key := Cell(1, now + windowMs)], now) <==> |LiveKeys(m, now)| < Cap(maxKeys))
  {
    var slot := Slot(key, 1, now + windowMs);
    PurgedCount(c.entries, m, now);
    EvictedLookup(c.entries, now, maxKeys, key);
    AppendedLookup(Evicted(c.entries, now, maxKeys), slot, key);
    if |Purged(c.entries, now)| < Cap(maxKeys) {
      NewSlotFits(c, m, slot, now, maxKeys);
    } else {
      NewSlotEvicts(c, m, slot, now, maxKeys);
    }
  }

  /** One increment: its answer is always the simple store's, and the two stores still agree
      afterwards exactly when there was room. */
  lemma IncrementRefines(t: Table, m: Simple, key: string, windowMs: int, last: int, now: int, maxKeys: nat)
    requires Distinct(t.entries) && Agree(t.entries, m, last) && last <= now
    ensures var (t', slot) := Incremented(t, key, windowMs, now, maxKeys);
            var (m', cell) := SimpleIncremented(m, key, windowMs, now);
            && Cell(slot.count, slot.resetTime) == cell
            && Distinct(t'.entries)
            && (Agree(t'.entries, m', now) <==> HasRoom(t, m, key, now, maxKeys))
  {
    AgreeLater(t.entries, m, last, now);
    CleanedAgrees(t, m, now);
    var c := Cleaned(t, now);
    var i := IndexOf(c.entries, key);
    var (t', slot) := Incremented(t, key, windowMs, now, maxKeys);
    var (m', cell) := SimpleIncremented(m, key, windowMs, now);
    assert Live(InTable(c.entries, key), now) == Live(InSimple(m, key), now);
    if i < |c.entries| {
      forall k
        ensures Distinct(t'.entries) && Live(InTable(t'.entries, k), now) == Live(InSimple(m', k), now)
      {
        UpdatedLookup(c.entries, i, slot, k);
        assert Live(InTable(c.entries, k), now) == Live(InSimple(m, k), now);
      }
      UpdatedLookup(c.entries, i, slot, key);
    } else {
      NewSlot(c, m, key, windowMs, now, maxKeys);
    }
  }

  /** A refund keeps the stores in agreement, wherever the key is. */
  lemma DecrementRefines(t: Table, m: Simple, key: string, now: int)
    requires Distinct(t.entries) && Agree(t.entries, m, now)
    ensures Distinct(Decremented(t, key).entries)
    ensures Agree(Decremented(t, key).entries, SimpleDecremented(m, key), now)
  {
    var t', m' := Decremented(t, key), SimpleDecremented(m, key);
    var i := IndexOf(t.entries, key);
    if i < |t.entries| && t.entries[i].count > 0 {
      UpdatedLookup(t.entries, i, t'.entries[i], key);
    }
    forall k
      ensures Live(InTable(t'.entries, k), now) == Live(InSimple(m', k), now)
    {
      assert Live(InTable(t.entries, k), now) == Live(InSimple(m, k), now);
      if i < |t.entries| && t.entries[i].count > 0 {
        UpdatedLookup(t.entries, i, t'.entries[i], k);
      }
    }
  }

  datatype Op = Increment(key: string, windowMs: int, now: int) | Decrement(key: string)

  function TableAfter(t: Table, ops: seq<Op>, maxKeys: nat): Table
    decreases |ops|
  {
    if ops == [] then t
    else TableAfter(
           match ops[0]
           case Increment(key, windowMs, now) => Incremented(t, key, windowMs, now, maxKeys).0
           case Decrement(key) => Decremented(t, key),
           ops[1..], maxKeys)
  }

  /** What the increments of a run return. */
  function TableAnswers(t: Table, ops: seq<Op>, maxKeys: nat): seq<Cell>
    decreases |ops|
  {
    if ops == [] then []
    else match ops[0]
      case Increment(key, windowMs, now) =>
        var (t', slot) := Incremented(t, key, windowMs, now, maxKeys);
        [Cell(slot.count, slot.resetTime)] + TableAnswers(t', ops[1..], maxKeys)
      case Decrement(key) => TableAnswers(Decremented(t, key), ops[1..], maxKeys)
  }

  function SimpleAnswers(m: Simple, ops: seq<Op>): seq<Cell>
    decreases |ops|
  {
    if ops == [] then []
    else match ops[0]
      case Increment(key, windowMs, now) =>
        var (m', cell) := SimpleIncremented(m, key, windowMs, now);
        [cell] + SimpleAnswers(m', ops[1..])
      case Decrement(key) => SimpleAnswers(SimpleDecremented(m, key), ops[1..])
  }

  /** The clock does not run backwards, and a key that is not live is only added while fewer
      than `maxKeys` keys are. */
  ghost predicate Roomy(m: Simple, ops: seq<Op>, last: int, maxKeys: nat)
    decreases |ops|
  {
    ops == [] ||
    match ops[0]
    case Increment(key, windowMs, now) =>
      && last <= now
      && (key in LiveKeys(m, now) || |LiveKeys(m, now)| < Cap(maxKeys))
      && Roomy(SimpleIncremented(m, key, windowMs, now).0, ops[1..], now, maxKeys)
    case Decrement(key) => Roomy(SimpleDecremented(m, key), ops[1..], last, maxKeys)
  }

  /** Cleanup and eviction are unobservable: along a roomy run the bounded store gives the very
      answers of the unbounded one. */
  lemma {:induction false} RunRefines(t: Table, m: Simple, ops: seq<Op>, last: int, maxKeys: nat)
    requires Distinct(t.entries) && Agree(t.entries, m, last) && Roomy(m, ops, last, maxKeys)
    ensures TableAnswers(t, ops, maxKeys) == SimpleAnswers(m, ops)
    decreases |ops|
  {
    if ops != [] {
      match ops[0]
      case Increment(key, windowMs, now) =>
        IncrementRefines(t, m, key, windowMs, last, now, maxKeys);
        AgreeLater(t.entries, m, last, now);
        CleanedAgrees(t, m, now);
        assert Live(InTable(Cleaned(t, now).entries, key), now) == Live(InSimple(m, key), now);
        RunRefines(Incremented(t, key, windowMs, now, maxKeys).0, SimpleIncremented(m, key, windowMs, now).0,
                   ops[1..], now, maxKeys);
      case Decrement(key) =>
        DecrementRefines(t, m, key, last);
        RunRefines(Decremented(t, key), SimpleDecremented(m, key), ops[1..], last, maxKeys);
    }
  }

  lemma MemoryStoreRefines(ops: seq<Op>, start: int, maxKeys: nat)
    requires Roomy(map[], ops, start, maxKeys)
    ensures TableAnswers(EMPTY, ops, maxKeys) == SimpleAnswers(map[], ops)
  {
    RunRefines(EMPTY, map[], ops, start, maxKeys);
  }

  /** Without room the difference can be seen: the evicted key starts over at one. */
  lemma EvictionObservable()
    ensures var ops := [Increment("a", 10, 0), Increment("b", 10, 0), Increment("a", 10, 0)];
            && TableAnswers(EMPTY, ops, 1) == [Cell(1, 10), Cell(1, 10), Cell(1, 10)]
            && SimpleAnswers(map[], ops) == [Cell(1, 10), Cell(1, 10), Cell(2, 10)]
  {
    var ops := [Increment("a", 10, 0), Increment("b", 10, 0), Increment("a", 10, 0)];
    assert ops[1..] == [Increment("b", 10, 0), Increment("a", 10, 0)];
    assert ops[1..][1..] == [Increment("a", 10, 0)] && ops[1..][1..][1..] == [];
    var a, b := Slot("a", 1, 10), Slot("b", 1, 10);
    OneSlot(a, b);
    OneSlot(b, a);
    assert Evicted([], 0, 1) + [a] == [a];
    assert Incremented(EMPTY, "a", 10, 0, 1) == (Table([a], 0), a);
    assert [] + [a] == [a] && [] + [b] == [b];
    assert Incremented(Table([a], 0), "b", 10, 0, 1) == (Table([b], 0), b);
    assert Incremented(Table([b], 0), "a", 10, 0, 1) == (Table([a], 0), a);
    var m := SimpleIncremented(map[], "a", 10, 0).0;
    var n := SimpleIncremented(m, "b", 10, 0).0;
    assert m == map["a" := Cell(1, 10)] && n["a"] == Cell(1, 10);
  }

  lemma OneSlot(a: Slot, b: Slot)
    requires a.key != b.key && a.resetTime > 0
    ensures IndexOf([a], b.key) == 1 && Purged([a], 0) == [a] && Removed([a], 0) == []
  {
  }

  /** An increment at least a minute after the last cleanup leaves no expired entry but the one it
      may itself have started; an earlier one does not clean up. */
  lemma CleanupPurges(t: Table, key: string, windowMs: int, now: int, maxKeys: nat)
    ensures var t' := Incremented(t, key, windowMs, now, maxKeys).0;
            if now - t.lastCleanup >= 60_000
            then t'.lastCleanup == now && forall x :: x in t'.entries && x.key != key ==> x.resetTime > now
            else t'.lastCleanup == t.lastCleanup
  {
    var c := Cleaned(t, now);
    PurgedMembers(t.entries, now);
    PurgedMembers(c.entries, now);
    var e := Evicted(c.entries, now, maxKeys);
    if Purged(c.entries, now) != [] {
      RemovedMembers(Purged(c.entries, now), Soonest(Purged(c.entries, now)));
    }
  }

  /** The bound on the table, in any run and with any clock. */
  lemma {:induction false} SizeBounded(t: Table, ops: seq<Op>, maxKeys: nat)
    requires Distinct(t.entries) && |t.entries| <= Cap(maxKeys)
    ensures Distinct(TableAfter(t, ops, maxKeys).entries)
    ensures |TableAfter(t, ops, maxKeys).entries| <= Cap(maxKeys)
    decreases |ops|
  {
    if ops != [] {
      match ops[0]
      case Increment(key, windowMs, now) =>
        var c := Cleaned(t, now);
        PurgedMembers(t.entries, now);
        var i := IndexOf(c.entries, key);
        var (t', slot) := Incremented(t, key, windowMs, now, maxKeys);
        if i < |c.entries| {
          UpdatedLookup(c.entries, i, slot, key);
        } else {
          EvictedLookup(c.entries, now, maxKeys, key);
          AppendedLookup(Evicted(c.entries, now, maxKeys), slot, key);
        }
        SizeBounded(t', ops[1..], maxKeys);
      case Decrement(key) =>
        var i := IndexOf(t.entries, key);
        if i < |t.entries| && t.entries[i].count > 0 {
          UpdatedLookup(t.entries, i, Decremented(t, key).entries[i], key);
        }
        SizeBounded(Decremented(t, key), ops[1..], maxKeys);
    }
  }
}
