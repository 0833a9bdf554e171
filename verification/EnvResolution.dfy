/** Expanding environment overrides: the memoised recursive resolver used when a process is
    started, and the sequential one used when a phase environment is built.

    A value is the parsed form of what os.Expand walks over: literal text and references.
    `keys` is the order in which the overridden keys are visited (sorted, in the program);
    the results below hold for every order.
 */
module EnvResolution {
  import opened Wrappers

  datatype Part = Lit(text: string) | Ref(name: string)

  type Key = string
  type Template = seq<Part>
  type Env = map<Key, string>
  type Overrides = map<Key, Template>

  /** Indexing a Go map: the zero value for a missing key. */
  function Get(m: Env, k: Key): string {
    if k in m then m[k] else ""
  }

  // ---- the recursive resolver as a function ----

  datatype Resolved = Resolved(value: string, memo: Env)

  /** `busy` holds the keys being resolved. */
  function Resolve(extra: Overrides, base: Env, memo: Env, busy: set<Key>, key: Key): Resolved
    decreases extra.Keys - busy, 1, 0
  {
    if key in memo then Resolved(memo[key], memo)
    else if key !in extra then Resolved(Get(base, key), memo)
    else if key in busy then Resolved(Get(base, key), memo)
    else
      assert extra.Keys - (busy + {key}) < extra.Keys - busy by {
        assert key in extra.Keys - busy && key !in extra.Keys - (busy + {key});
      }
      var r := Expand(extra, base, memo, busy + {key}, key, extra[key]);
      Resolved(r.value, r.memo[key := r.value])
  }

  /** Expanding (the rest of) the value of `key`, from left to right. */
  function Expand(extra: Overrides, base: Env, memo: Env, busy: set<Key>, key: Key, parts: Template): Resolved
    decreases extra.Keys - busy, 2, |parts|
  {
    if parts == [] then Resolved("", memo)
    else
      var first := ExpandPart(extra, base, memo, busy, key, parts[0]);
      var rest := Expand(extra, base, first.memo, busy, key, parts[1..]);
      Resolved(first.value + rest.value, rest.memo)
  }

  function ExpandPart(extra: Overrides, base: Env, memo: Env, busy: set<Key>, key: Key, part: Part): Resolved
    decreases extra.Keys - busy, 1, 1
  {
    match part
    case Lit(text) => Resolved(text, memo)
    case Ref(ref) => if ref != key && ref in extra then Resolve(extra, base, memo, busy, ref)
                     else Resolved(Get(base, ref), memo)
  }

  /** Expanding from part `i`: that part, then the rest. */
  lemma {:induction false} ExpandNext(extra: Overrides, base: Env, memo: Env, busy: set<Key>, key: Key, parts: Template, i: nat)
    requires i <= |parts|
    ensures Expand(extra, base, memo, busy, key, parts[i..])
      == if i == |parts| then Resolved("", memo)
         else var first := ExpandPart(extra, base, memo, busy, key, parts[i]);
              var rest := Expand(extra, base, first.memo, busy, key, parts[i + 1..]);
              Resolved(first.value + rest.value, rest.memo)
  {
    if i < |parts| {
      assert parts[i..][1..] == parts[i + 1..];
    }
  }

  // ---- the resolver as the program runs it ----

  class Resolver {
    const extra: Overrides
    const base: Env
    var resolved: Env
    var resolving: set<Key>

    constructor (extra: Overrides, base: Env)
      ensures this.extra == extra && this.base == base && resolved == map[] && resolving == {}
    {
      this.extra, this.base := extra, base;
      resolved, resolving := map[], {};
    }

    /** The closure `resolve`: it terminates on every reference graph. */
    method ResolveKey(key: Key) returns (value: string)
      modifies this
      ensures Resolved(value, resolved) == Resolve(extra, base, old(resolved), old(resolving), key)
      ensures resolving == old(resolving)
      decreases extra.Keys - resolving
    {
      hide Get, Expand;
      if key in resolved {
        return resolved[key];
      }
      if key !in extra {
        return Get(base, key);
      }
      if key in resolving {
        return Get(base, key);
      }
      ghost var busy, memo := resolving + {key}, resolved;
      assert extra.Keys - busy < extra.Keys - resolving by {
        assert key in extra.Keys - resolving && key !in extra.Keys - busy;
      }
      var raw := extra[key];
      resolving := resolving + {key};
      value := "";
      assert raw[0..] == raw;
      assert "" + Expand(extra, base, memo, busy, key, raw).value == Expand(extra, base, memo, busy, key, raw).value;
      var i := 0;
      while i < |raw|
        invariant 0 <= i <= |raw| && resolving == busy
        invariant var rest := Expand(extra, base, resolved, busy, key, raw[i..]);
          Expand(extra, base, memo, busy, key, raw) == Resolved(value + rest.value, rest.memo)
      {
        ExpandNext(extra, base, resolved, busy, key, raw, i);
        ghost var rest := Expand(extra, base, ExpandPart(extra, base, resolved, busy, key, raw[i]).memo, busy, key, raw[i + 1..]);
        var part;
        match raw[i] {
          case Lit(text) =>
            part := text;
          case Ref(ref) =>
            if ref == key {
              part := Get(base, ref);
            } else if ref in extra {
              part := ResolveKey(ref);
            } else {
              part := Get(base, ref);
            }
        }
        Associate(value, part, rest.value);
        value := value + part;
        i := i + 1;
      }
      ExpandNext(extra, base, resolved, busy, key, raw, i);
      assert value + "" == value;
      resolving := resolving - {key};
      resolved := resolved[key := value];
    }
  }

  /** One top-level call per key, in the visiting order, on one shared memo. */
  datatype Merged = Merged(env: Env, memo: Env)

  function Merge(extra: Overrides, base: Env, keys: seq<Key>): Merged {
    if keys == [] then Merged(base, map[])
    else
      var m, key := Merge(extra, base, keys[..|keys| - 1]), keys[|keys| - 1];
      var r := Resolve(extra, base, m.memo, {}, key);
      Merged(m.env[key := r.value], r.memo)
  }

  method MergedEnv(extra: Overrides, base: Env, keys: seq<Key>) returns (env: Env)
    requires forall k :: k in keys <==> k in extra
    ensures env == Merge(extra, base, keys).env
  {
    hide Resolve;
    env := base;
    if |extra| == 0 {
      assert extra.Keys == {};
      SomeElement(keys);
      return;
    }
    var r := new Resolver(extra, base);
    var i := 0;
    while i < |keys|
      invariant 0 <= i <= |keys| && fresh(r) && r.extra == extra && r.base == base
      invariant r.resolving == {}
      invariant Merged(env, r.resolved) == Merge(extra, base, keys[..i])
    {
      var key := keys[i];
      assert keys[..i + 1][..i] == keys[..i];
      var value := r.ResolveKey(key);
      env := env[key := value];
      i := i + 1;
    }
    assert keys[..i] == keys;
  }

  lemma {:induction false} MergeMeans(extra: Overrides, base: Env, keys: seq<Key>)
    requires forall k :: k in keys ==> k in extra
    ensures var m := Merge(extra, base, keys);
      && m.env.Keys == base.Keys + (set k | k in keys)
      && MemoInv(extra, base, m.memo)
      && (forall k :: k in base && k !in keys ==> m.env[k] == base[k])
      && (forall k :: k in keys && Acyclic(extra, k) ==> m.env[k] == Meaning(extra, base, |extra|, k))
  {
    if keys != [] {
      var front, key := keys[..|keys| - 1], keys[|keys| - 1];
      assert keys == front + [key];
      MergeMeans(extra, base, front);
      hide Resolve, Meaning, Acyclic;
      ResolveMeans(extra, base, Merge(extra, base, front).memo, {}, key);
      if Acyclic(extra, key) {
        AcyclicIsGrounded(extra, key);
      }
    }
  }

  lemma {:induction false} SomeElement(keys: seq<Key>)
    ensures keys != [] ==> exists k :: k in keys
  {
    if keys != [] {
      assert keys[0] in keys;
    }
  }

  /** What the environment holds, whatever cycles there are and in whatever order the keys are
      visited: base values for keys that are not overridden, and the recursive meaning of every
      key from which no cycle can be reached. */
  lemma {:induction false} EnvironmentMeaning(extra: Overrides, base: Env, keys: seq<Key>)
    requires forall k :: k in keys <==> k in extra
    ensures var env := Merge(extra, base, keys).env;
      && env.Keys == base.Keys + extra.Keys
      && (forall k :: k in base && k !in extra ==> env[k] == base[k])
      && (forall k :: k in extra && Acyclic(extra, k) ==> env[k] == Meaning(extra, base, |extra|, k))
  {
    MergeMeans(extra, base, keys);
    hide Merge, Meaning, Acyclic;
    assert (set k | k in keys) == extra.Keys;
  }

  // ---- reference meaning ----

  /** `k` refers to the override `d`; a reference to itself reads the base value. */
  predicate DependsOn(extra: Overrides, k: Key, d: Key) {
    k in extra && d in extra && d != k && Ref(d) in extra[k]
  }

  /** Recursive meaning, unfolded at most `fuel` times. */
  function Meaning(extra: Overrides, base: Env, fuel: nat, k: Key): string
    decreases fuel, 0
  {
    if k !in extra || fuel == 0 then Get(base, k) else PartsMeaning(extra, base, fuel - 1, k, extra[k])
  }

  function PartsMeaning(extra: Overrides, base: Env, fuel: nat, k: Key, parts: Template): string
    decreases fuel, 1, |parts|
  {
    if parts == [] then ""
    else
      (match parts[0]
       case Lit(text) => text
       case Ref(ref) => if ref != k && ref in extra then Meaning(extra, base, fuel, ref) else Get(base, ref))
      + PartsMeaning(extra, base, fuel, k, parts[1..])
  }

  /** Unfolding the references of `k` ends within `n` levels. */
  ghost predicate Grounded(extra: Overrides, k: Key, n: nat)
    decreases n
  {
    k in extra ==> n > 0 && forall d :: DependsOn(extra, k, d) ==> Grounded(extra, d, n - 1)
  }

  ghost predicate IsPath(extra: Overrides, p: seq<Key>) {
    forall i :: 0 <= i < |p| - 1 ==> DependsOn(extra, p[i], p[i + 1])
  }

  ghost predicate HasRepeat(p: seq<Key>) {
    exists i, j :: 0 <= i < j < |p| && p[i] == p[j]
  }

  /** No path of references from `k` runs into a cycle. */
  ghost predicate Acyclic(extra: Overrides, k: Key) {
    forall p :: IsPath(extra, p) && p != [] && p[0] == k ==> !HasRepeat(p)
  }

  lemma {:induction false} GroundedMonotone(extra: Overrides, k: Key, n: nat)
    requires Grounded(extra, k, n)
    ensures Grounded(extra, k, n + 1)
    decreases n
  {
    if k in extra {
      forall d | DependsOn(extra, k, d) ensures Grounded(extra, d, n) {
        GroundedMonotone(extra, d, n - 1);
      }
    }
  }

  /** A key that is not grounded within `n` levels starts a path of more than `n` overridden keys. */
  lemma {:induction false} LongPath(extra: Overrides, k: Key, n: nat) returns (p: seq<Key>)
    requires k in extra && !Grounded(extra, k, n)
    ensures |p| == n + 1 && p[0] == k && IsPath(extra, p) && forall i :: 0 <= i < |p| ==> p[i] in extra.Keys
    decreases n
  {
    if n == 0 {
      p := [k];
    } else {
      var d :| DependsOn(extra, k, d) && !Grounded(extra, d, n - 1);
      var q := LongPath(extra, d, n - 1);
      p := [k] + q;
    }
  }

  lemma {:induction false} Pigeonhole(p: seq<Key>, s: set<Key>)
    requires |p| > |s| && forall i :: 0 <= i < |p| ==> p[i] in s
    ensures HasRepeat(p)
    decreases |p|
  {
    var front, x := p[..|p| - 1], p[|p| - 1];
    if x in front {
      var i :| 0 <= i < |front| && front[i] == x;
      assert p[i] == p[|p| - 1];
    } else {
      assert forall i :: 0 <= i < |front| ==> front[i] == p[i] && front[i] in s - {x};
      Pigeonhole(front, s - {x});
      var i, j :| 0 <= i < j < |front| && front[i] == front[j];
      assert p[i] == p[j];
    }
  }

  lemma {:induction false} AcyclicIsGrounded(extra: Overrides, k: Key)
    requires Acyclic(extra, k)
    ensures Grounded(extra, k, |extra|)
  {
    if !Grounded(extra, k, |extra|) {
      var p := LongPath(extra, k, |extra|);
      Pigeonhole(p, extra.Keys);
    }
  }

  lemma {:induction false} SubPath(extra: Overrides, p: seq<Key>, a: nat, b: nat)
    requires IsPath(extra, p) && a <= b <= |p|
    ensures IsPath(extra, p[a..b])
  {
    forall i | 0 <= i < b - a - 1 ensures DependsOn(extra, p[a..b][i], p[a..b][i + 1]) {
      assert DependsOn(extra, p[a + i], p[a + i + 1]);
    }
  }

  lemma {:induction false} PathDescends(extra: Overrides, p: seq<Key>, n: nat)
    requires p != [] && IsPath(extra, p) && Grounded(extra, p[0], n)
    ensures n >= |p| - 1 && Grounded(extra, p[|p| - 1], n - (|p| - 1))
    decreases |p|
  {
    if |p| > 1 {
      assert DependsOn(extra, p[0], p[1]);
      SubPath(extra, p, 1, |p|);
      PathDescends(extra, p[1..], n - 1);
    }
  }

  lemma {:induction false} NoCycle(extra: Overrides, cycle: seq<Key>, n: nat)
    requires |cycle| > 1 && IsPath(extra, cycle) && cycle[0] == cycle[|cycle| - 1]
    ensures !Grounded(extra, cycle[0], n)
    decreases n
  {
    if Grounded(extra, cycle[0], n) {
      PathDescends(extra, cycle, n);
      NoCycle(extra, cycle, n - (|cycle| - 1));
    }
  }

  /** Having no reachable cycle is exactly being grounded within as many levels as there are keys. */
  lemma {:induction false} AcyclicIffGrounded(extra: Overrides, k: Key)
    ensures Acyclic(extra, k) <==> Grounded(extra, k, |extra|)
  {
    if Acyclic(extra, k) {
      AcyclicIsGrounded(extra, k);
    }
    if Grounded(extra, k, |extra|) {
      forall p | IsPath(extra, p) && p != [] && p[0] == k ensures !HasRepeat(p) {
        if HasRepeat(p) {
          var i, j :| 0 <= i < j < |p| && p[i] == p[j];
          var first, cycle := p[0..i + 1], p[i..j + 1];
          SubPath(extra, p, 0, i + 1);
          SubPath(extra, p, i, j + 1);
          PathDescends(extra, first, |extra|);
          NoCycle(extra, cycle, |extra| - i);
        }
      }
    }
  }

  /** More fuel than needed changes nothing. */
  lemma {:induction false} FuelIrrelevant(extra: Overrides, base: Env, k: Key, n: nat, f: nat)
    requires Grounded(extra, k, n) && n <= f
    ensures Meaning(extra, base, f, k) == Meaning(extra, base, n, k)
    decreases n, 0
  {
    if k in extra {
      PartsFuelIrrelevant(extra, base, k, extra[k], n - 1, f - 1);
    }
  }

  lemma {:induction false} PartsFuelIrrelevant(extra: Overrides, base: Env, k: Key, parts: Template, n: nat, f: nat)
    requires n <= f && k in extra && (forall p :: p in parts ==> p in extra[k])
    requires forall d :: DependsOn(extra, k, d) ==> Grounded(extra, d, n)
    ensures PartsMeaning(extra, base, f, k, parts) == PartsMeaning(extra, base, n, k, parts)
    decreases n, 1, |parts|
  {
    if parts != [] {
      assert parts[0] in extra[k];
      if parts[0].Ref? && parts[0].name != k && parts[0].name in extra {
        FuelIrrelevant(extra, base, parts[0].name, n, f);
      }
      PartsFuelIrrelevant(extra, base, k, parts[1..], n, f);
    }
  }

  /** The meaning solves the equations the overrides state ... */
  lemma {:induction false} MeaningSolves(extra: Overrides, base: Env, k: Key)
    requires k in extra && Grounded(extra, k, |extra|)
    ensures Meaning(extra, base, |extra|, k) == PartsMeaning(extra, base, |extra|, k, extra[k])
  {
    PartsFuelIrrelevant(extra, base, k, extra[k], |extra| - 1, |extra|);
  }

  /** The value of a template when overrides are looked up in `m`. */
  function Substitute(extra: Overrides, base: Env, m: Env, k: Key, parts: Template): string {
    if parts == [] then ""
    else
      (match parts[0]
       case Lit(text) => text
       case Ref(ref) => if ref != k && ref in extra then Get(m, ref) else Get(base, ref))
      + Substitute(extra, base, m, k, parts[1..])
  }

  /** `m` gives every grounded key a value that satisfies its equation. */
  ghost predicate Solves(extra: Overrides, base: Env, m: Env) {
    forall k :: k in extra && Grounded(extra, k, |extra|) ==> k in m && m[k] == Substitute(extra, base, m, k, extra[k])
  }

  /** ... and is the only solution. */
  lemma {:induction false} MeaningIsUnique(extra: Overrides, base: Env, m: Env, k: Key, n: nat)
    requires Solves(extra, base, m) && k in extra && Grounded(extra, k, n) && n <= |extra|
    ensures k in m && m[k] == Meaning(extra, base, n, k)
    decreases n, 0
  {
    hide Substitute, PartsMeaning, Solves, DependsOn;
    GroundedUpTo(extra, k, n, |extra|);
    SolvesAt(extra, base, m, k);
    PartsUnique(extra, base, m, k, extra[k], n - 1);
  }

  lemma {:induction false} SolvesAt(extra: Overrides, base: Env, m: Env, k: Key)
    requires Solves(extra, base, m) && k in extra && Grounded(extra, k, |extra|)
    ensures k in m && m[k] == Substitute(extra, base, m, k, extra[k])
  {
  }

  lemma {:induction false} GroundedUpTo(extra: Overrides, k: Key, n: nat, f: nat)
    requires Grounded(extra, k, n) && n <= f
    ensures Grounded(extra, k, f)
    decreases f - n
  {
    if n < f {
      GroundedMonotone(extra, k, n);
      GroundedUpTo(extra, k, n + 1, f);
    }
  }

  lemma {:induction false} PartsUnique(extra: Overrides, base: Env, m: Env, k: Key, parts: Template, n: nat)
    requires Solves(extra, base, m) && n < |extra| && k in extra && (forall p :: p in parts ==> p in extra[k])
    requires forall d :: DependsOn(extra, k, d) ==> Grounded(extra, d, n)
    ensures Substitute(extra, base, m, k, parts) == PartsMeaning(extra, base, n, k, parts)
    decreases n, 1, |parts|
  {
    if parts != [] {
      assert parts[0] in extra[k];
      if parts[0].Ref? && parts[0].name != k && parts[0].name in extra {
        MeaningIsUnique(extra, base, m, parts[0].name, n);
      }
      PartsUnique(extra, base, m, k, parts[1..], n);
    }
  }

  // ---- the resolver computes the meaning ----

  /** Memoised values of grounded keys are right; those of other keys are unconstrained. */
  ghost predicate MemoInv(extra: Overrides, base: Env, memo: Env) {
    forall k :: k in memo && k in extra && Grounded(extra, k, |extra|) ==> memo[k] == Meaning(extra, base, |extra|, k)
  }

  /** Every key being resolved is grounded only at a greater depth than `key`. */
  ghost predicate BusyInv(extra: Overrides, busy: set<Key>, key: Key) {
    forall r, n: nat :: r in busy && Grounded(extra, r, n) ==> n > 0 && Grounded(extra, key, n - 1)
  }

  /** So a key that is itself being resolved is not grounded: reading its base value is confined
      to keys that reach a cycle. */
  lemma {:induction false} BusyIsNotGrounded(extra: Overrides, busy: set<Key>, key: Key, n: nat)
    requires BusyInv(extra, busy, key) && key in busy
    ensures !Grounded(extra, key, n)
    decreases n
  {
    if Grounded(extra, key, n) {
      BusyIsNotGrounded(extra, busy, key, n - 1);
    }
  }

  lemma {:induction false} BusyStep(extra: Overrides, busy: set<Key>, key: Key, ref: Key)
    requires BusyInv(extra, busy, key) && DependsOn(extra, key, ref)
    ensures BusyInv(extra, busy + {key}, ref)
  {
    forall r, n: nat | r in busy + {key} && Grounded(extra, r, n)
      ensures n > 0 && Grounded(extra, ref, n - 1)
    {
      if r != key {
        assert Grounded(extra, key, n - 1);
        assert Grounded(extra, ref, n - 2);
        GroundedMonotone(extra, ref, n - 2);
      }
    }
  }

  lemma {:induction false} ResolveMeans(extra: Overrides, base: Env, memo: Env, busy: set<Key>, key: Key)
    requires MemoInv(extra, base, memo) && BusyInv(extra, busy, key) && key in extra
    ensures var r := Resolve(extra, base, memo, busy, key);
      && MemoInv(extra, base, r.memo)
      && (Grounded(extra, key, |extra|) ==> r.value == Meaning(extra, base, |extra|, key))
    decreases extra.Keys - busy, 1, 0
  {
    if key in memo {
    } else if key in busy {
      BusyIsNotGrounded(extra, busy, key, |extra|);
    } else {
      assert extra.Keys - (busy + {key}) < extra.Keys - busy by {
        assert key in extra.Keys - busy && key !in extra.Keys - (busy + {key});
      }
      ExpandMeans(extra, base, memo, busy, key, extra[key]);
      if Grounded(extra, key, |extra|) {
        PartsFuelIrrelevant(extra, base, key, extra[key], |extra| - 1, |extra|);
      }
    }
  }

  lemma {:induction false} ExpandMeans(extra: Overrides, base: Env, memo: Env, busy: set<Key>, key: Key, parts: Template)
    requires MemoInv(extra, base, memo) && BusyInv(extra, busy, key)
    requires key in extra && key !in busy && forall p :: p in parts ==> p in extra[key]
    ensures var r := Expand(extra, base, memo, busy + {key}, key, parts);
      && MemoInv(extra, base, r.memo)
      && (Grounded(extra, key, |extra|) ==> r.value == PartsMeaning(extra, base, |extra|, key, parts))
    decreases extra.Keys - (busy + {key}), 2, |parts|
  {
    if parts != [] {
      var part := parts[0];
      assert part in extra[key];
      var first := ExpandPart(extra, base, memo, busy + {key}, key, part);
      if part.Ref? && part.name != key && part.name in extra {
        BusyStep(extra, busy, key, part.name);
        ResolveMeans(extra, base, memo, busy + {key}, part.name);
        if Grounded(extra, key, |extra|) {
          GroundedMonotone(extra, part.name, |extra| - 1);
        }
      }
      ExpandMeans(extra, base, first.memo, busy, key, parts[1..]);
    }
  }
}
