/** The log redactor: a traversal of an object graph that may share and cycle, hiding what is
    stored under secret-looking keys. */
module Redactor {
  import opened Common

  type Ref = nat

  /** Anything that is not an object, array or error is shown as it is. */
  datatype Value = Prim(p: nat) | Link(r: Ref)

  datatype Node =
    | Obj(entries: seq<(string, Value)>)
    | Arr(items: seq<Value>)
    | Err(name: string, message: string, stack: string)

  type Heap = map<Ref, Node>

  datatype Out =
    | OPrim(p: nat)
    | OObj(entries: seq<(string, Out)>)
    | OArr(items: seq<Out>)
    | OErr(name: string, message: string, stack: Option<string>)
    | Redacted
    | Circular

  // ---- secret keys ----

  const SECRET_WORDS: seq<string> :=
    ["authorization", "cookie", "token", "secret", "password", "credential", "private", "mfaCode", "refreshToken",
     "accessToken", "email", "username", "uid", "userId", "userIds", "firebaseUid", "deviceId", "ip", "clientIp",
     "sessionId", "sessionFamilyId", "familyId", "recovery", "keys", "dek", "seed", "salt", "verifier", "encrypted",
     "cipher", "rateLimitKey"]

  function Lower(s: string): string {
    seq(|s|, i requires 0 <= i < |s| => if 'A' <= s[i] <= 'Z' then ((s[i] as int) + 32) as char else s[i])
  }

  predicate StartsAt(s: string, word: string, i: nat) {
    i + |word| <= |s| && s[i..i + |word|] == word
  }

  predicate Contains(s: string, word: string) {
    exists i :: 0 <= i <= |s| && StartsAt(s, word, i)
  }

  predicate IsSecret(key: string) {
    exists k :: 0 <= k < |SECRET_WORDS| && Contains(Lower(key), Lower(SECRET_WORDS[k]))
  }

  /** The same letter, capital or small. */
  predicate SameLetter(a: char, b: char) {
    || a == b
    || ('A' <= a <= 'Z' && b as int - a as int == 32)
    || ('A' <= b <= 'Z' && a as int - b as int == 32)
  }

  predicate SameButCase(s: string, t: string) {
    |s| == |t| && forall i :: 0 <= i < |s| ==> SameLetter(s[i], t[i])
  }

  /** The word stands at position `i` of the key, in any case. */
  predicate WordAt(key: string, word: string, i: nat) {
    i + |word| <= |key| && SameButCase(key[i..i + |word|], word)
  }

  lemma LowerSame(s: string, t: string)
    ensures Lower(s) == Lower(t) <==> SameButCase(s, t)
  {
    if Lower(s) == Lower(t) {
      forall i | 0 <= i < |s|
        ensures SameLetter(s[i], t[i])
      {
        assert Lower(s)[i] == Lower(t)[i];
      }
    }
  }

  lemma WordFound(key: string, word: string, i: nat)
    ensures StartsAt(Lower(key), Lower(word), i) <==> WordAt(key, word, i)
  {
    if i + |word| <= |key| {
      assert Lower(key)[i..i + |word|] == Lower(key[i..i + |word|]);
      LowerSame(key[i..i + |word|], word);
    }
  }

  /** A key is secret exactly if one of the words stands in it somewhere, in any case. */
  lemma SecretIff(key: string)
    ensures IsSecret(key) <==> exists k, i: nat :: 0 <= k < |SECRET_WORDS| && WordAt(key, SECRET_WORDS[k], i)
  {
    forall k, i: nat | 0 <= k < |SECRET_WORDS|
      ensures StartsAt(Lower(key), Lower(SECRET_WORDS[k]), i) <==> WordAt(key, SECRET_WORDS[k], i)
    {
      WordFound(key, SECRET_WORDS[k], i);
    }
    if k, i: nat :| 0 <= k < |SECRET_WORDS| && WordAt(key, SECRET_WORDS[k], i) {
      assert StartsAt(Lower(key), Lower(SECRET_WORDS[k]), i);
      assert Contains(Lower(key), Lower(SECRET_WORDS[k]));
    }
  }

  lemma CaseIrrelevant(s: string, t: string)
    requires SameButCase(s, t)
    ensures IsSecret(s) <==> IsSecret(t)
  {
    LowerSame(s, t);
  }

  lemma SecretBy(key: string, k: nat, i: nat)
    requires k < |SECRET_WORDS| && WordAt(key, SECRET_WORDS[k], i)
    ensures IsSecret(key)
  {
    SecretIff(key);
  }

  /** Whatever stands around the word. */
  lemma AroundSecret(before: string, k: nat, after: string)
    requires k < |SECRET_WORDS|
    ensures IsSecret(before + SECRET_WORDS[k] + after)
  {
    var key := before + SECRET_WORDS[k] + after;
    assert key[|before|..|before| + |SECRET_WORDS[k]|] == SECRET_WORDS[k];
    SecretBy(key, k, |before|);
  }

  /** What requests and sessions carry, what identifies a person or a device, passwords, keys and
      what is encrypted with them. */
  lemma ListedAreSecret(word: string)
    requires word in ["authorization", "cookie", "token", "mfaCode", "refreshToken", "accessToken", "sessionId",
                      "sessionFamilyId", "familyId", "rateLimitKey", "email", "username", "uid", "userId", "userIds",
                      "firebaseUid", "deviceId", "ip", "clientIp", "secret", "password", "credential", "private",
                      "recovery", "keys", "dek", "seed", "salt", "verifier", "encrypted", "cipher"]
    ensures IsSecret(word)
  {
    assert word in SECRET_WORDS;
    var k :| 0 <= k < |SECRET_WORDS| && SECRET_WORDS[k] == word;
    SecretBy(word, k, 0);
  }

  /** In any case, and inside another word: "ip" hides a description. */
  lemma CapitalsSecret()
    ensures IsSecret("TOKEN") && IsSecret("description")
  {
    SecretBy("TOKEN", 2, 0);
    SecretBy("description", 17, 5);
  }

  const INITIALS: string := "actspmreufdikv"

  lemma WordsBegin()
    ensures forall k :: 0 <= k < |SECRET_WORDS| ==> SECRET_WORDS[k] != "" && SECRET_WORDS[k][0] in INITIALS
  {
  }

  /** A key none of whose letters begins a word is plain. */
  lemma PlainBy(key: string)
    requires forall i, j :: 0 <= i < |key| && 0 <= j < |INITIALS| ==> !SameLetter(key[i], INITIALS[j])
    ensures !IsSecret(key)
  {
    WordsBegin();
    SecretIff(key);
    forall k, i: nat | 0 <= k < |SECRET_WORDS|
      ensures !WordAt(key, SECRET_WORDS[k], i)
    {
      var word := SECRET_WORDS[k];
      if i + |word| <= |key| {
        var j :| 0 <= j < |INITIALS| && INITIALS[j] == word[0];
        assert key[i..i + |word|][0] == key[i] && !SameLetter(key[i], INITIALS[j]);
      }
    }
  }

  /** A key that a log line has to show. */
  lemma LogIsPlain()
    ensures !IsSecret("log")
  {
    PlainBy("log");
  }

  // ---- the graph ----

  predicate InHeap(h: Heap, v: Value) {
    v.Link? ==> v.r in h
  }

  ghost predicate Closed(h: Heap) {
    forall r :: r in h ==>
      match h[r]
      case Obj(entries) => forall i :: 0 <= i < |entries| ==> InHeap(h, entries[i].1)
      case Arr(items) => forall i :: 0 <= i < |items| ==> InHeap(h, items[i])
      case Err(_, _, _) => true
  }

  predicate IsObj(h: Heap, v: Value) {
    v.Link? && v.r in h && h[v.r].Obj?
  }

  predicate IsArr(h: Heap, v: Value) {
    v.Link? && v.r in h && h[v.r].Arr?
  }

  /** A height of every array above the arrays directly inside it: no cycle runs through arrays
      alone. */
  type Heights = Ref -> nat

  ghost predicate ArraysFounded(h: Heap, heights: Heights) {
    forall r, i :: r in h && h[r].Arr? && 0 <= i < |h[r].items| && IsArr(h, h[r].items[i]) ==>
      heights(h[r].items[i].r) < heights(r)
  }

  ghost predicate WellFormed(h: Heap, heights: Heights) {
    Closed(h) && ArraysFounded(h, heights)
  }

  function Level(h: Heap, heights: Heights, v: Value): nat {
    if IsArr(h, v) then heights(v.r) + 1 else 0
  }

  /** The objects not on the current path. */
  function Fresh(h: Heap, seen: set<Ref>): set<Ref> {
    set r | r in h && h[r].Obj? && r !in seen
  }

  lemma FreshShrinks(h: Heap, seen: set<Ref>, r: Ref)
    requires r in h && h[r].Obj? && r !in seen
    ensures |Fresh(h, seen + {r})| < |Fresh(h, seen)|
  {
    assert Fresh(h, seen) == Fresh(h, seen + {r}) + {r};
  }

  // ---- the traversal ----

  function ShowErr(n: Node, production: bool): Out
    requires n.Err?
  {
    OErr(n.name, n.message, if production then None else Some(n.stack))
  }

  /** What a value is rendered as when the objects in `seen` are being rendered around it. */
  ghost function Render(h: Heap, heights: Heights, production: bool, v: Value, seen: set<Ref>): Out
    requires WellFormed(h, heights) && InHeap(h, v)
    decreases |Fresh(h, seen)|, Level(h, heights, v)
  {
    if v.Prim? then OPrim(v.p)
    else
      match h[v.r]
      case Err(_, _, _) => ShowErr(h[v.r], production)
      case Arr(items) =>
        OArr(seq(|items|, i requires 0 <= i < |items| => Render(h, heights, production, items[i], seen)))
      case Obj(entries) =>
        if v.r in seen then Circular
        else
          FreshShrinks(h, seen, v.r);
          OObj(seq(|entries|, i requires 0 <= i < |entries| =>
            (entries[i].0,
             if IsSecret(entries[i].0) then Redacted
             else Render(h, heights, production, entries[i].1, seen + {v.r}))))
  }

  /** The redactor keeps the objects on the current path in one mutable set. */
  class LogRedactor {
    const production: bool
    var seen: set<Ref>

    constructor (production: bool)
      ensures seen == {} && this.production == production
    {
      this.production := production;
      seen := {};
    }

    method Redact(h: Heap, ghost heights: Heights, v: Value) returns (out: Out)
      requires WellFormed(h, heights) && InHeap(h, v)
      modifies this
      ensures out == Render(h, heights, production, v, old(seen))
      ensures seen == old(seen)
      decreases |Fresh(h, seen)|, Level(h, heights, v)
    {
      if v.Prim? {
        return OPrim(v.p);
      }
      match h[v.r]
      case Err(_, _, _) =>
        out := ShowErr(h[v.r], production);
      case Arr(items) =>
        var outs: seq<Out> := [];
        while |outs| < |items|
          invariant |outs| <= |items| && seen == old(seen)
          invariant forall i :: 0 <= i < |outs| ==> outs[i] == Render(h, heights, production, items[i], seen)
        {
          var o := Redact(h, heights, items[|outs|]);
          outs := outs + [o];
        }
        out := OArr(outs);
      case Obj(entries) =>
        if v.r in seen {
          return Circular;
        }
        FreshShrinks(h, seen, v.r);
        seen := seen + {v.r};
        var outs: seq<(string, Out)> := [];
        while |outs| < |entries|
          invariant |outs| <= |entries| && seen == old(seen) + {v.r}
          invariant forall i :: 0 <= i < |outs| ==>
              outs[i] == (entries[i].0,
                          if IsSecret(entries[i].0) then Redacted
                          else Render(h, heights, production, entries[i].1, seen))
        {
          var key := entries[|outs|].0;
          var o := Redacted;
          if !IsSecret(key) {
            o := Redact(h, heights, entries[|outs|].1);
          }
          outs := outs + [(key, o)];
        }
        seen := seen - {v.r};
        out := OObj(outs);
    }
  }

  // ---- nothing under a secret key ----

  /** No object in the output shows what it holds under a secret key. */
  ghost predicate Clean(out: Out) {
    match out
    case OObj(entries) =>
      forall i :: 0 <= i < |entries| ==> (IsSecret(entries[i].0) ==> entries[i].1 == Redacted) && Clean(entries[i].1)
    case OArr(items) => forall i :: 0 <= i < |items| ==> Clean(items[i])
    case _ => true
  }

  lemma {:induction false} RenderClean(h: Heap, heights: Heights, production: bool, v: Value, seen: set<Ref>)
    requires WellFormed(h, heights) && InHeap(h, v)
    ensures Clean(Render(h, heights, production, v, seen))
    decreases |Fresh(h, seen)|, Level(h, heights, v)
  {
    if v.Link? {
      match h[v.r]
      case Err(_, _, _) =>
      case Arr(items) =>
        forall i | 0 <= i < |items|
          ensures Clean(Render(h, heights, production, items[i], seen))
        {
          RenderClean(h, heights, production, items[i], seen);
        }
      case Obj(entries) =>
        if v.r !in seen {
          FreshShrinks(h, seen, v.r);
          forall i | 0 <= i < |entries|
            ensures Clean(Render(h, heights, production, entries[i].1, seen + {v.r}))
          {
            RenderClean(h, heights, production, entries[i].1, seen + {v.r});
          }
        }
    }
  }

  /** An entry of an object that is shown is hidden exactly if a listed word stands in its key, in
      any case; any other entry shows its value. */
  lemma EntryHiddenIff(h: Heap, heights: Heights, production: bool, r: Ref, seen: set<Ref>, i: nat)
    requires WellFormed(h, heights) && r in h && h[r].Obj? && r !in seen && i < |h[r].entries|
    ensures var (key, value) := h[r].entries[i];
            var out := Render(h, heights, production, Link(r), seen);
            && out.OObj? && |out.entries| == |h[r].entries| && out.entries[i].0 == key
            && (out.entries[i].1 == Redacted <==>
                  exists k, j: nat :: 0 <= k < |SECRET_WORDS| && WordAt(key, SECRET_WORDS[k], j))
            && (out.entries[i].1 != Redacted ==>
                  InHeap(h, value) && out.entries[i].1 == Render(h, heights, production, value, seen + {r}))
  {
    SecretIff(h[r].entries[i].0);
    FreshShrinks(h, seen, r);
  }

  // ---- the output, path by path ----

  /** Where a path of positions leads in the plain graph: through values only, into an entry with
      a secret key, or nowhere. */
  datatype Trail = Clear(values: seq<Value>) | IntoSecret(values: seq<Value>) | Nowhere

  function Behind(v: Value, t: Trail): Trail {
    match t
    case Clear(values) => Clear([v] + values)
    case IntoSecret(values) => IntoSecret([v] + values)
    case Nowhere => Nowhere
  }

  function Follow(h: Heap, v: Value, path: seq<nat>): Trail
    decreases |path|
  {
    if path == [] then Clear([v])
    else if v.Prim? || v.r !in h then Nowhere
    else match h[v.r]
      case Err(_, _, _) => Nowhere
      case Arr(items) =>
        if path[0] < |items| then Behind(v, Follow(h, items[path[0]], path[1..])) else Nowhere
      case Obj(entries) =>
        if path[0] >= |entries| then Nowhere
        else if IsSecret(entries[path[0]].0) then if |path| == 1 then IntoSecret([v]) else Nowhere
        else Behind(v, Follow(h, entries[path[0]].1, path[1..]))
  }

  /** What one place of the output looks like from outside. */
  datatype Face =
    | FPrim(p: nat)
    | FErr(name: string, message: string, stack: Option<string>)
    | FArr(length: nat)
    | FObj(keys: seq<string>)
    | FRedacted
    | FCircular

  function FaceOf(out: Out): Face {
    match out
    case OPrim(p) => FPrim(p)
    case OErr(name, message, stack) => FErr(name, message, stack)
    case OArr(items) => FArr(|items|)
    case OObj(entries) => FObj(seq(|entries|, i requires 0 <= i < |entries| => entries[i].0))
    case Redacted => FRedacted
    case Circular => FCircular
  }

  function FaceAt(out: Out, path: seq<nat>): Option<Face>
    decreases |path|
  {
    if path == [] then Some(FaceOf(out))
    else match out
      case OArr(items) => if path[0] < |items| then FaceAt(items[path[0]], path[1..]) else None
      case OObj(entries) => if path[0] < |entries| then FaceAt(entries[path[0]].1, path[1..]) else None
      case _ => None
  }

  function ValueFace(h: Heap, production: bool, v: Value): Face
    requires InHeap(h, v)
  {
    if v.Prim? then FPrim(v.p)
    else match h[v.r]
      case Err(name, message, stack) => FErr(name, message, if production then None else Some(stack))
      case Arr(items) => FArr(|items|)
      case Obj(entries) => FObj(seq(|entries|, i requires 0 <= i < |entries| => entries[i].0))
  }

  /** No object among the values is in `seen` or comes twice. */
  ghost predicate NoObjectTwice(h: Heap, values: seq<Value>, seen: set<Ref>) {
    forall i :: 0 <= i < |values| && IsObj(h, values[i]) ==> values[i].r !in seen && values[i] !in values[..i]
  }

  /** What a place should look like, from the plain graph alone: shown unless an object had to be
      entered a second time on the way; '[circular]' if the last value is an object entered
      before; '[redacted]' under a secret key. */
  ghost function Expected(h: Heap, production: bool, t: Trail, seen: set<Ref>): Option<Face> {
    match t
    case Nowhere => None
    case IntoSecret(values) => if NoObjectTwice(h, values, seen) then Some(FRedacted) else None
    case Clear(values) =>
      if values == [] || !InHeap(h, values[|values| - 1]) then None
      else
        var way, last := values[..|values| - 1], values[|values| - 1];
        if !NoObjectTwice(h, way, seen) then None
        else if IsObj(h, last) && (last.r in seen || last in way) then Some(FCircular)
        else Some(ValueFace(h, production, last))
  }

  lemma {:induction false} FollowEnds(h: Heap, v: Value, path: seq<nat>)
    requires Closed(h) && InHeap(h, v)
    ensures var t := Follow(h, v, path);
            && (t.Clear? ==> t.values != [] && InHeap(h, t.values[|t.values| - 1]))
            && (t.IntoSecret? ==> t.values != [])
    decreases |path|
  {
    if path != [] && v.Link? && !h[v.r].Err? {
      match h[v.r]
      case Arr(items) =>
        if path[0] < |items| { FollowEnds(h, items[path[0]], path[1..]); }
      case Obj(entries) =>
        if path[0] < |entries| { FollowEnds(h, entries[path[0]].1, path[1..]); }
    }
  }

  lemma TwiceBehind(h: Heap, v: Value, values: seq<Value>, seen: set<Ref>)
    ensures !IsObj(h, v) ==> (NoObjectTwice(h, [v] + values, seen) <==> NoObjectTwice(h, values, seen))
    ensures IsObj(h, v) ==>
              (NoObjectTwice(h, [v] + values, seen) <==> v.r !in seen && NoObjectTwice(h, values, seen + {v.r}))
  {
    var all := [v] + values;
    assert forall i :: 0 <= i < |values| ==> all[i + 1] == values[i];
    assert forall i :: 0 <= i < |values| ==> all[..i + 1] == [v] + values[..i];
    if IsObj(h, v) {
      if NoObjectTwice(h, all, seen) {
        assert all[0] == v;
        forall i | 0 <= i < |values| && IsObj(h, values[i])
          ensures values[i].r !in seen + {v.r} && values[i] !in values[..i]
        {
          assert all[i + 1] !in [v] + values[..i];
        }
      }
      if v.r !in seen && NoObjectTwice(h, values, seen + {v.r}) {
        forall i | 0 <= i < |all| && IsObj(h, all[i])
          ensures all[i].r !in seen && all[i] !in all[..i]
        {
          if i > 0 {
            assert all[i] == values[i - 1];
          }
        }
      }
    } else {
      if NoObjectTwice(h, all, seen) {
        forall i | 0 <= i < |values| && IsObj(h, values[i])
          ensures values[i].r !in seen && values[i] !in values[..i]
        {
          assert all[i + 1] !in [v] + values[..i];
        }
      }
    }
  }

  /** Taking the first value off a trail moves an object into `seen`. */
  lemma ExpectedBehind(h: Heap, production: bool, v: Value, t: Trail, seen: set<Ref>)
    requires t.Clear? ==> t.values != []
    ensures Expected(h, production, Behind(v, t), seen)
         == if IsObj(h, v) then if v.r in seen then None else Expected(h, production, t, seen + {v.r})
            else Expected(h, production, t, seen)
  {
    match t
    case Nowhere =>
    case IntoSecret(values) => TwiceBehind(h, v, values, seen);
    case Clear(values) =>
      var all := [v] + values;
      var way := values[..|values| - 1];
      assert all[..|all| - 1] == [v] + way && all[|all| - 1] == values[|values| - 1];
      TwiceBehind(h, v, way, seen);
  }

  lemma {:induction false} RenderByPath(h: Heap, heights: Heights, production: bool, v: Value, seen: set<Ref>, path: seq<nat>)
    requires WellFormed(h, heights) && InHeap(h, v)
    ensures FaceAt(Render(h, heights, production, v, seen), path) == Expected(h, production, Follow(h, v, path), seen)
    decreases |path|
  {
    if path == [] {
      var t := Follow(h, v, path);
      assert t == Clear([v]) && t.values[..0] == [] && t.values[0] == v;
      assert NoObjectTwice(h, [], seen);
      if !(IsObj(h, v) && v.r in seen) {
        assert FaceOf(Render(h, heights, production, v, seen)) == ValueFace(h, production, v);
      }
    } else if v.Link? {
      match h[v.r]
      case Err(_, _, _) =>
      case Arr(items) =>
        if path[0] < |items| {
          RenderByPath(h, heights, production, items[path[0]], seen, path[1..]);
          FollowEnds(h, items[path[0]], path[1..]);
          ExpectedBehind(h, production, v, Follow(h, items[path[0]], path[1..]), seen);
        }
      case Obj(entries) =>
        if path[0] < |entries| {
          if IsSecret(entries[path[0]].0) {
            TwiceBehind(h, v, [], seen);
            assert [v] + [] == [v];
          } else {
            FollowEnds(h, entries[path[0]].1, path[1..]);
            ExpectedBehind(h, production, v, Follow(h, entries[path[0]].1, path[1..]), seen);
            if v.r !in seen {
              RenderByPath(h, heights, production, entries[path[0]].1, seen + {v.r}, path[1..]);
            }
          }
        }
    }
  }

  /** Redaction is exact.  At every place of the output: '[circular]' exactly where the graph
      path arrives at an object it has been through, '[redacted]' exactly under a secret key,
      and everything else, shared objects included, rendered each time it is reached. */
  lemma RedactionExact(h: Heap, heights: Heights, production: bool, root: Value, path: seq<nat>)
    requires WellFormed(h, heights) && InHeap(h, root)
    ensures var out := Render(h, heights, production, root, {});
            && Clean(out)
            && FaceAt(out, path) == Expected(h, production, Follow(h, root, path), {})
  {
    RenderClean(h, heights, production, root, {});
    RenderByPath(h, heights, production, root, {}, path);
  }

  // ---- when the traversal ends ----

  /** The calls that redacting a value makes nest at most `depth` deep. */
  ghost predicate EndsWithin(h: Heap, v: Value, seen: set<Ref>, depth: nat)
    requires Closed(h) && InHeap(h, v)
    decreases depth
  {
    v.Prim? ||
    match h[v.r]
    case Err(_, _, _) => true
    case Arr(items) => depth > 0 && forall i :: 0 <= i < |items| ==> EndsWithin(h, items[i], seen, depth - 1)
    case Obj(entries) =>
      v.r in seen ||
      (depth > 0 && forall i :: 0 <= i < |entries| && !IsSecret(entries[i].0) ==>
                      EndsWithin(h, entries[i].1, seen + {v.r}, depth - 1))
  }

  function MaxOf(s: seq<nat>): (m: nat)
    ensures forall i :: 0 <= i < |s| ==> s[i] <= m
  {
    if s == [] then 0
    else
      var m := MaxOf(s[1..]);
      assert forall i :: 0 < i < |s| ==> s[i] == s[1..][i - 1];
      if s[0] > m then s[0] else m
  }

  /** How deep the traversal goes. */
  ghost function Depth(h: Heap, heights: Heights, v: Value, seen: set<Ref>): nat
    requires WellFormed(h, heights) && InHeap(h, v)
    decreases |Fresh(h, seen)|, Level(h, heights, v)
  {
    if v.Prim? || h[v.r].Err? || (h[v.r].Obj? && v.r in seen) then 0
    else
      match h[v.r]
      case Arr(items) =>
        1 + MaxOf(seq(|items|, i requires 0 <= i < |items| => Depth(h, heights, items[i], seen)))
      case Obj(entries) =>
        FreshShrinks(h, seen, v.r);
        1 + MaxOf(seq(|entries|, i requires 0 <= i < |entries| =>
          Depth(h, heights, entries[i].1, seen + {v.r})))
  }

  lemma {:induction false} DeepEnough(h: Heap, heights: Heights, v: Value, seen: set<Ref>, depth: nat)
    requires WellFormed(h, heights) && InHeap(h, v)
    requires Depth(h, heights, v, seen) <= depth
    ensures EndsWithin(h, v, seen, depth)
    decreases depth
  {
    if v.Link? && !h[v.r].Err? && !(h[v.r].Obj? && v.r in seen) {
      match h[v.r]
      case Arr(items) =>
        var depths := seq(|items|, i requires 0 <= i < |items| => Depth(h, heights, items[i], seen));
        forall i | 0 <= i < |items|
          ensures EndsWithin(h, items[i], seen, depth - 1)
        {
          assert depths[i] <= MaxOf(depths);
          DeepEnough(h, heights, items[i], seen, depth - 1);
        }
      case Obj(entries) =>
        FreshShrinks(h, seen, v.r);
        var depths := seq(|entries|, i requires 0 <= i < |entries| =>
          Depth(h, heights, entries[i].1, seen + {v.r}));
        forall i | 0 <= i < |entries|
          ensures EndsWithin(h, entries[i].1, seen + {v.r}, depth - 1)
        {
          assert depths[i] <= MaxOf(depths);
          DeepEnough(h, heights, entries[i].1, seen + {v.r}, depth - 1);
        }
    }
  }

  /** Some item of the array is an array of the set. */
  predicate StaysIn(h: Heap, r: Ref, arrays: set<Ref>) {
    r in h && h[r].Arr? && exists i :: 0 <= i < |h[r].items| && IsArr(h, h[r].items[i]) && h[r].items[i].r in arrays
  }

  /** A set of arrays each of which holds another of them: in a finite graph, the arrays on and
      before a cycle that passes through no object. */
  ghost predicate ArrayTrap(h: Heap, arrays: set<Ref>) {
    arrays != {} && forall r :: r in arrays ==> StaysIn(h, r, arrays)
  }

  lemma NextInTrap(h: Heap, arrays: set<Ref>, r: Ref) returns (i: nat)
    requires ArrayTrap(h, arrays) && r in arrays
    ensures StaysIn(h, r, arrays)
    ensures i < |h[r].items| && IsArr(h, h[r].items[i]) && h[r].items[i].r in arrays
  {
    assert StaysIn(h, r, arrays);
    i :| 0 <= i < |h[r].items| && IsArr(h, h[r].items[i]) && h[r].items[i].r in arrays;
  }

  lemma ItemEndsWithin(h: Heap, r: Ref, i: nat, seen: set<Ref>, depth: nat)
    requires Closed(h) && r in h && h[r].Arr? && i < |h[r].items| && EndsWithin(h, Link(r), seen, depth)
    ensures depth > 0 && EndsWithin(h, h[r].items[i], seen, depth - 1)
  {
  }

  lemma {:induction false} TrapNeverEnds(h: Heap, arrays: set<Ref>, r: Ref, seen: set<Ref>, depth: nat)
    requires Closed(h) && ArrayTrap(h, arrays) && r in arrays
    ensures StaysIn(h, r, arrays) && !EndsWithin(h, Link(r), seen, depth)
    decreases depth
  {
    var i := NextInTrap(h, arrays, r);
    if EndsWithin(h, Link(r), seen, depth) {
      ItemEndsWithin(h, r, i, seen, depth);
      TrapNeverEnds(h, arrays, h[r].items[i].r, seen, depth - 1);
      assert false;
    }
  }

  /** Without a trap the arrays can be peeled off, innermost first. */
  lemma {:induction false} HeightsExist(h: Heap, arrays: set<Ref>) returns (heights: Heights)
    requires forall r :: r in arrays ==> r in h && h[r].Arr?
    requires forall s: set<Ref> :: s <= arrays ==> !ArrayTrap(h, s)
    ensures forall r, i :: r in arrays && 0 <= i < |h[r].items| && IsArr(h, h[r].items[i]) && h[r].items[i].r in arrays ==>
              heights(h[r].items[i].r) < heights(r)
    decreases |arrays|
  {
    if arrays == {} {
      heights := x => 0;
    } else {
      assert !ArrayTrap(h, arrays);
      var bottom :| bottom in arrays && !StaysIn(h, bottom, arrays);
      var others := HeightsExist(h, arrays - {bottom});
      heights := x => if x == bottom then 0 else others(x) + 1;
    }
  }

  ghost predicate Ends(h: Heap, v: Value, seen: set<Ref>)
    requires Closed(h) && InHeap(h, v)
  {
    exists depth :: EndsWithin(h, v, seen, depth)
  }

  lemma FoundedEnds(h: Heap, heights: Heights, v: Value, seen: set<Ref>)
    requires WellFormed(h, heights) && InHeap(h, v)
    ensures Ends(h, v, seen)
  {
    DeepEnough(h, heights, v, seen, Depth(h, heights, v, seen));
  }

  lemma TrapDoesNotEnd(h: Heap, arrays: set<Ref>) returns (r: Ref)
    requires Closed(h) && ArrayTrap(h, arrays)
    ensures r in h && !Ends(h, Link(r), {})
  {
    r :| r in arrays;
    assert StaysIn(h, r, arrays);
    forall depth: nat
      ensures !EndsWithin(h, Link(r), {}, depth)
    {
      TrapNeverEnds(h, arrays, r, {}, depth);
    }
  }

  lemma NoTrapFounded(h: Heap) returns (heights: Heights)
    requires Closed(h) && forall s: set<Ref> :: !ArrayTrap(h, s)
    ensures WellFormed(h, heights)
  {
    heights := HeightsExist(h, set r | r in h && h[r].Arr?);
  }

  /** The traversal ends for every value of the graph exactly when every cycle of the graph
      passes through an object. */
  lemma EndsIffNoArrayTrap(h: Heap)
    requires Closed(h)
    ensures (forall r :: r in h ==> Ends(h, Link(r), {})) <==> forall s: set<Ref> :: !ArrayTrap(h, s)
  {
    if s: set<Ref> :| ArrayTrap(h, s) {
      var r := TrapDoesNotEnd(h, s);
    } else {
      var heights := NoTrapFounded(h);
      forall r | r in h
        ensures Ends(h, Link(r), {})
      {
        FoundedEnds(h, heights, Link(r), {});
      }
    }
  }

  /** The smallest trap: an array that holds itself. */
  lemma SelfHoldingArray()
    ensures var h: Heap := map[0 := Arr([Link(0)])];
            Closed(h) && ArrayTrap(h, {0}) && !Ends(h, Link(0), {})
  {
    var h: Heap := map[0 := Arr([Link(0)])];
    assert IsArr(h, h[0].items[0]) && StaysIn(h, 0, {0});
    forall depth: nat
      ensures !EndsWithin(h, Link(0), {}, depth)
    {
      TrapNeverEnds(h, {0}, 0, {}, depth);
    }
  }
}
