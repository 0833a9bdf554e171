/** The environment of a phase: overrides expanded one after the other in key order, then
    secrets.  It is a different algorithm from the recursive resolver; this module says when the
    two agree, and what the resolver makes of an environment that is expanded a second time. */
module PhaseEnv {
  import opened Wrappers
  import opened EnvResolution

  function Lookup(overrides: Env, base: Env, k: Key): string {
    if k in overrides then overrides[k] else Get(base, k)
  }

  function ExpandValue(parts: Template, overrides: Env, base: Env): string {
    if parts == [] then ""
    else (match parts[0] case Lit(text) => text case Ref(ref) => Lookup(overrides, base, ref))
         + ExpandValue(parts[1..], overrides, base)
  }

  function Layered(dst: Env, source: Overrides, base: Env, keys: seq<Key>): Env
    requires forall k :: k in keys ==> k in source
  {
    if keys == [] then dst
    else
      var before, key := Layered(dst, source, base, keys[..|keys| - 1]), keys[|keys| - 1];
      before[key := ExpandValue(source[key], before, base)]
  }

  class Builder {
    const base: Env
    var env: Env

    constructor (base: Env)
      ensures this.base == base && env == map[]
    {
      this.base := base;
      env := map[];
    }

    method MergeExpanded(source: Overrides, keys: seq<Key>)
      requires forall k :: k in keys ==> k in source
      modifies this
      ensures env == Layered(old(env), source, base, keys)
    {
      for i := 0 to |keys|
        invariant env == Layered(old(env), source, base, keys[..i])
      {
        assert keys[..i + 1][..i] == keys[..i];
        var value := Expand(source[keys[i]]);
        env := env[keys[i] := value];
      }
      assert keys[..|keys|] == keys;
    }

    method Expand(parts: Template) returns (value: string)
      ensures value == ExpandValue(parts, env, base)
    {
      hide Get;
      value := "";
      for i := 0 to |parts|
        invariant value + ExpandValue(parts[i..], env, base) == ExpandValue(parts, env, base)
      {
        var part;
        match parts[i] {
          case Lit(text) =>
            part := text;
          case Ref(ref) =>
            part := Find(ref);
        }
        Associate(value, part, ExpandValue(parts[i + 1..], env, base));
        value := value + part;
      }
    }

    /** The callback of os.Expand: overrides first, then the process environment, then empty. */
    method Find(ref: Key) returns (text: string)
      ensures text == Lookup(env, base, ref)
    {
      if ref in env {
        return env[ref];
      }
      if ref in base {
        return base[ref];
      }
      return "";
    }

    /** Secrets are laid over the expanded overrides verbatim. */
    method Build(run: Overrides, runKeys: seq<Key>, go: Overrides, goKeys: seq<Key>, includeGo: bool, secrets: Env)
      requires (forall k :: k in runKeys ==> k in run) && (forall k :: k in goKeys ==> k in go)
      modifies this
      ensures env == (if includeGo
                      then Layered(Layered(old(env), run, base, runKeys), go, base, goKeys)
                      else Layered(old(env), run, base, runKeys)) + secrets
    {
      MergeExpanded(run, runKeys);
      if includeGo {
        MergeExpanded(go, goKeys);
      }
      env := env + secrets;
    }
  }

  // ---- agreement with the recursive resolver ----

  predicate Distinct(keys: seq<Key>) {
    forall i, j :: 0 <= i < j < |keys| ==> keys[i] != keys[j]
  }

  /** Each reference names the key itself, an earlier key, or a name that is not overridden. */
  ghost predicate LooksBack(extra: Overrides, keys: seq<Key>) {
    && (forall i :: 0 <= i < |keys| ==> keys[i] in extra)
    && (forall i, d :: 0 <= i < |keys| && DependsOn(extra, keys[i], d) ==> d in keys[..i])
  }

  lemma {:induction false} PartsAgree(extra: Overrides, base: Env, dst: Env, k: Key, parts: Template, n: nat)
    requires k in extra && k !in dst && dst.Keys <= extra.Keys && forall p :: p in parts ==> p in extra[k]
    requires forall d :: DependsOn(extra, k, d) ==> d in dst && dst[d] == Meaning(extra, base, n, d)
    ensures ExpandValue(parts, dst, base) == PartsMeaning(extra, base, n, k, parts)
  {
    if parts != [] {
      var part := parts[0];
      assert part in extra[k];
      if part.Ref? && part.name != k && part.name in extra {
        assert DependsOn(extra, k, part.name);
      }
      PartsAgree(extra, base, dst, k, parts[1..], n);
    }
  }

  lemma {:induction false} LooksBackPrefix(extra: Overrides, keys: seq<Key>, n: nat)
    requires LooksBack(extra, keys) && Distinct(keys) && n <= |keys|
    ensures LooksBack(extra, keys[..n]) && Distinct(keys[..n])
  {
    forall i, d | 0 <= i < n && DependsOn(extra, keys[..n][i], d) ensures d in keys[..n][..i] {
      assert keys[..n][i] == keys[i] && keys[..n][..i] == keys[..i];
    }
  }

  lemma {:induction false} SequentialMeans(extra: Overrides, base: Env, keys: seq<Key>)
    requires LooksBack(extra, keys) && Distinct(keys)
    ensures var out := Layered(map[], extra, base, keys);
      && out.Keys == (set k | k in keys)
      && forall k :: k in keys ==> Grounded(extra, k, |keys|) && out[k] == Meaning(extra, base, |keys|, k)
  {
    hide Layered, Meaning, Grounded;
    LayeredKeys(extra, base, keys);
    if keys != [] {
      var n := |keys| - 1;
      var front, key := keys[..n], keys[n];
      LooksBackPrefix(extra, keys, n);
      SequentialMeans(extra, base, front);
      var dst := Layered(map[], extra, base, front);
      assert keys == front + [key] && key !in front;
      forall k | k in front ensures Grounded(extra, k, n + 1) && dst[k] == Meaning(extra, base, n + 1, k) {
        GroundedMonotone(extra, k, n);
        FuelIrrelevant(extra, base, k, n, n + 1);
      }
      assert forall d :: DependsOn(extra, key, d) ==> d in keys[..n];
      LastMeans(extra, base, dst, key, n);
      SequentialStep(extra, base, keys);
    }
  }

  lemma {:induction false} SequentialStep(extra: Overrides, base: Env, keys: seq<Key>)
    requires keys != [] && forall k :: k in keys ==> k in extra
    ensures var dst, key := Layered(map[], extra, base, keys[..|keys| - 1]), keys[|keys| - 1];
      Layered(map[], extra, base, keys) == dst[key := ExpandValue(extra[key], dst, base)]
  {
  }

  lemma {:induction false} LastMeans(extra: Overrides, base: Env, dst: Env, key: Key, n: nat)
    requires key in extra && key !in dst && dst.Keys <= extra.Keys
    requires forall d :: DependsOn(extra, key, d) ==> d in dst
    requires forall d :: d in dst ==> Grounded(extra, d, n) && dst[d] == Meaning(extra, base, n, d)
    ensures Grounded(extra, key, n + 1)
    ensures ExpandValue(extra[key], dst, base) == Meaning(extra, base, n + 1, key)
  {
    PartsAgree(extra, base, dst, key, extra[key], n);
  }

  // ---- references in any direction ----

  /** A template in which only the `earlier` keys are still referred to; any other reference is
      replaced by what the base environment holds. */
  function CutParts(parts: Template, base: Env, earlier: seq<Key>): Template {
    if parts == [] then []
    else [if parts[0].Ref? && parts[0].name !in earlier then Lit(Get(base, parts[0].name)) else parts[0]]
         + CutParts(parts[1..], base, earlier)
  }

  /** The overrides without their references to the key itself and to later keys. */
  function Cut(extra: Overrides, base: Env, keys: seq<Key>): (cut: Overrides)
    requires forall k :: k in keys ==> k in extra
    ensures cut.Keys == set k | k in keys
  {
    if keys == [] then map[]
    else
      var front, key := keys[..|keys| - 1], keys[|keys| - 1];
      assert keys == front + [key];
      Cut(extra, base, front)[key := CutParts(extra[key], base, front)]
  }

  lemma {:induction false} CutValue(parts: Template, dst: Env, base: Env, earlier: seq<Key>)
    requires dst.Keys == set k | k in earlier
    ensures ExpandValue(CutParts(parts, base, earlier), dst, base) == ExpandValue(parts, dst, base)
  {
    if parts != [] {
      CutValue(parts[1..], dst, base, earlier);
      assert CutParts(parts, base, earlier)[1..] == CutParts(parts[1..], base, earlier);
    }
  }

  lemma {:induction false} CutRefersBack(parts: Template, base: Env, earlier: seq<Key>)
    ensures forall d :: Ref(d) in CutParts(parts, base, earlier) ==> d in earlier
  {
    if parts != [] {
      CutRefersBack(parts[1..], base, earlier);
    }
  }

  lemma {:induction false} CutAt(extra: Overrides, base: Env, keys: seq<Key>, i: nat)
    requires Distinct(keys) && i < |keys| && forall k :: k in keys ==> k in extra
    ensures Cut(extra, base, keys)[keys[i]] == CutParts(extra[keys[i]], base, keys[..i])
  {
    hide CutParts;
    if i < |keys| - 1 {
      var front := keys[..|keys| - 1];
      CutAt(extra, base, front, i);
      assert front[i] == keys[i] != keys[|keys| - 1] && front[..i] == keys[..i];
    }
  }

  lemma {:induction false} CutLooksBack(extra: Overrides, base: Env, keys: seq<Key>)
    requires Distinct(keys) && forall k :: k in keys ==> k in extra
    ensures LooksBack(Cut(extra, base, keys), keys)
  {
    hide Cut, CutParts;
    forall i, d | 0 <= i < |keys| && DependsOn(Cut(extra, base, keys), keys[i], d) ensures d in keys[..i] {
      CutAt(extra, base, keys, i);
      CutRefersBack(extra[keys[i]], base, keys[..i]);
    }
  }

  lemma {:induction false} LayeredKeys(source: Overrides, base: Env, keys: seq<Key>)
    requires forall k :: k in keys ==> k in source
    ensures Layered(map[], source, base, keys).Keys == set k | k in keys
  {
    if keys != [] {
      assert keys == keys[..|keys| - 1] + [keys[|keys| - 1]];
      LayeredKeys(source, base, keys[..|keys| - 1]);
    }
  }

  lemma {:induction false} CutIsLayered(extra: Overrides, base: Env, keys: seq<Key>, n: nat)
    requires Distinct(keys) && n <= |keys| && forall k :: k in keys ==> k in extra
    ensures Layered(map[], Cut(extra, base, keys), base, keys[..n]) == Layered(map[], extra, base, keys[..n])
  {
    hide Cut, CutParts, ExpandValue;
    if n > 0 {
      var front := keys[..n - 1];
      assert keys[..n] == front + [keys[n - 1]];
      CutIsLayered(extra, base, keys, n - 1);
      CutAt(extra, base, keys, n - 1);
      LayeredKeys(extra, base, front);
      CutValue(extra[keys[n - 1]], Layered(map[], extra, base, front), base, front);
    }
  }

  /** For every order of the keys, whatever they refer to, the sequential expansion gives each the
      recursive meaning it has when references to itself and to later keys read the base. */
  lemma {:induction false} SequentialMeansCut(extra: Overrides, base: Env, keys: seq<Key>)
    requires Distinct(keys) && forall k :: k in keys ==> k in extra
    ensures var out, cut := Layered(map[], extra, base, keys), Cut(extra, base, keys);
      && out.Keys == cut.Keys
      && forall k :: k in keys ==> Grounded(cut, k, |keys|) && out[k] == Meaning(cut, base, |keys|, k)
  {
    hide Cut, Layered, Meaning, Grounded;
    CutLooksBack(extra, base, keys);
    SequentialMeans(Cut(extra, base, keys), base, keys);
    assert keys[..|keys|] == keys;
    CutIsLayered(extra, base, keys, |keys|);
  }

  lemma {:induction false} DistinctLength(keys: seq<Key>, s: set<Key>)
    requires Distinct(keys) && s == set k | k in keys
    ensures |s| == |keys|
  {
    if keys != [] {
      var front, key := keys[..|keys| - 1], keys[|keys| - 1];
      assert keys == front + [key] && key !in front;
      assert s - {key} == set k | k in front;
      DistinctLength(front, s - {key});
    }
  }

  /** From an empty destination, when references only look back in the key order, the sequential
      expansion gives every overridden key the value that the recursive resolver gives it,
      whatever order the latter visits the keys in. */
  lemma {:induction false} AlgorithmsAgree(extra: Overrides, base: Env, keys: seq<Key>, visited: seq<Key>)
    requires LooksBack(extra, keys) && Distinct(keys)
    requires forall k :: k in keys <==> k in extra
    requires forall k :: k in visited <==> k in extra
    ensures Layered(map[], extra, base, keys).Keys == extra.Keys
    ensures forall k :: k in extra ==>
      && Acyclic(extra, k) && k in Merge(extra, base, visited).env
      && Layered(map[], extra, base, keys)[k] == Merge(extra, base, visited).env[k]
  {
    SequentialMeans(extra, base, keys);
    EnvironmentMeaning(extra, base, visited);
    DistinctLength(keys, extra.Keys);
    hide Merge, Layered, Meaning, Acyclic;
    assert (set k | k in keys) == extra.Keys;
    forall k | k in extra ensures Acyclic(extra, k) {
      AcyclicIffGrounded(extra, k);
    }
  }

  // ---- when the two agree ----

  ghost predicate AgreeOnEveryBase(extra: Overrides, keys: seq<Key>, visited: seq<Key>)
    requires forall k :: k in keys ==> k in extra
  {
    forall base: Env, k :: k in extra ==>
      && k in Layered(map[], extra, base, keys) && k in Merge(extra, base, visited).env
      && Layered(map[], extra, base, keys)[k] == Merge(extra, base, visited).env[k]
  }

  ghost predicate NoSelfReference(extra: Overrides) {
    forall k :: k in extra ==> Ref(k) !in extra[k]
  }

  /** Without references of a key to itself, what the base holds of overridden keys is never read. */
  lemma {:induction false} MeaningIgnores(extra: Overrides, a: Env, b: Env, k: Key, n: nat)
    requires NoSelfReference(extra) && Grounded(extra, k, n) && k in extra
    requires forall d :: d !in extra ==> Get(a, d) == Get(b, d)
    ensures Meaning(extra, a, n, k) == Meaning(extra, b, n, k)
    decreases n, 0
  {
    PartsIgnore(extra, a, b, k, extra[k], n - 1);
  }

  lemma {:induction false} PartsIgnore(extra: Overrides, a: Env, b: Env, k: Key, parts: Template, n: nat)
    requires NoSelfReference(extra) && k in extra && (forall p :: p in parts ==> p in extra[k])
    requires forall d :: DependsOn(extra, k, d) ==> Grounded(extra, d, n)
    requires forall d :: d !in extra ==> Get(a, d) == Get(b, d)
    ensures PartsMeaning(extra, a, n, k, parts) == PartsMeaning(extra, b, n, k, parts)
    decreases n, 1, |parts|
  {
    hide Get, Grounded;
    if parts != [] {
      assert parts[0] in extra[k];
      if parts[0].Ref? && parts[0].name in extra {
        assert DependsOn(extra, k, parts[0].name);
        MeaningIgnores(extra, a, b, parts[0].name, n);
      }
      PartsIgnore(extra, a, b, k, parts[1..], n);
    }
  }

  lemma {:induction false} ValueHolds(parts: Template, dst: Env, base: Env, d: Key)
    requires Ref(d) in parts && d !in dst
    ensures |ExpandValue(parts, dst, base)| >= |Get(base, d)|
  {
    if parts[0] != Ref(d) {
      assert parts == [parts[0]] + parts[1..];
      ValueHolds(parts[1..], dst, base, d);
    }
  }

  lemma {:induction false} LayeredAt(source: Overrides, base: Env, keys: seq<Key>, i: nat)
    requires Distinct(keys) && i < |keys| && forall k :: k in keys ==> k in source
    ensures keys[i] in Layered(map[], source, base, keys)
    ensures Layered(map[], source, base, keys)[keys[i]]
      == ExpandValue(source[keys[i]], Layered(map[], source, base, keys[..i]), base)
  {
    hide ExpandValue;
    if i < |keys| - 1 {
      var front := keys[..|keys| - 1];
      LayeredAt(source, base, front, i);
      assert front[i] == keys[i] != keys[|keys| - 1] && front[..i] == keys[..i];
    }
  }

  /** A forward reference and a long value for it in the base: the sequential expansion reads it. */
  lemma {:induction false} ForwardDisagrees(extra: Overrides, keys: seq<Key>, visited: seq<Key>, i: nat, d: Key) returns (base: Env)
    requires Distinct(keys) && NoSelfReference(extra) && (forall k :: k in keys <==> k in extra)
    requires (forall k :: k in visited <==> k in extra) && i < |keys| && Acyclic(extra, keys[i])
    requires DependsOn(extra, keys[i], d) && d !in keys[..i]
    ensures var k := keys[i];
      && k in Layered(map[], extra, base, keys) && k in Merge(extra, base, visited).env
      && Layered(map[], extra, base, keys)[k] != Merge(extra, base, visited).env[k]
  {
    hide Layered, Merge, Meaning, Acyclic, ExpandValue;
    var k := keys[i];
    base := map[d := seq(1 + |Meaning(extra, map[], |extra|, k)|, _ => 'x')];
    LayeredAt(extra, base, keys, i);
    LayeredKeys(extra, base, keys[..i]);
    ValueHolds(extra[k], Layered(map[], extra, base, keys[..i]), base, d);
    EnvironmentMeaning(extra, base, visited);
    AcyclicIffGrounded(extra, k);
    MeaningIgnores(extra, base, map[], k, |extra|);
  }

  /** Where overrides form no cycle and no key refers to itself, the two algorithms agree for every
      base environment exactly when references only look back. */
  lemma {:induction false} AgreementCondition(extra: Overrides, keys: seq<Key>, visited: seq<Key>)
    requires Distinct(keys) && NoSelfReference(extra)
    requires (forall k :: k in keys <==> k in extra) && (forall k :: k in visited <==> k in extra)
    requires forall k :: k in extra ==> Acyclic(extra, k)
    ensures AgreeOnEveryBase(extra, keys, visited) <==> LooksBack(extra, keys)
  {
    hide Layered, Merge, Acyclic, NoSelfReference;
    if LooksBack(extra, keys) {
      forall base: Env ensures forall k :: k in extra ==>
        && k in Layered(map[], extra, base, keys) && k in Merge(extra, base, visited).env
        && Layered(map[], extra, base, keys)[k] == Merge(extra, base, visited).env[k]
      {
        AlgorithmsAgree(extra, base, keys, visited);
      }
    } else {
      var i, d :| 0 <= i < |keys| && DependsOn(extra, keys[i], d) && d !in keys[..i];
      var base := ForwardDisagrees(extra, keys, visited, i, d);
    }
  }

  /** Looking forward breaks the agreement: the sequential expansion then reads the base value. */
  lemma {:induction false} ForwardReferenceDiffers()
    ensures var extra: Overrides := map["A" := [Ref("B")], "B" := [Lit("x")]];
      && Layered(map[], extra, map[], ["A", "B"])["A"] == ""
      && Merge(extra, map[], ["A", "B"]).env["A"] == "x"
  {
    var extra: Overrides := map["A" := [Ref("B")], "B" := [Lit("x")]];
    var keys := ["A", "B"];
    assert keys[..1] == ["A"] && keys[..1][..0] == [];
    var sa := Layered(map[], extra, map[], ["A"]);
    assert sa == map["A" := ""];
    var rb := Resolve(extra, map[], map[], {"A"}, "B");
    assert ExpandPart(extra, map[], map[], {"A", "B"}, "B", Lit("x")) == Resolved("x", map[]);
    assert Expand(extra, map[], map[], {"A", "B"}, "B", [Lit("x")]).value == "x";
    assert {"A"} + {"B"} == {"A", "B"};
    assert rb.value == "x";
    assert {} + {"A"} == {"A"};
    assert Expand(extra, map[], map[], {"A"}, "A", [Ref("B")]).value == "x";
    assert Merge(extra, map[], []).memo == map[];
    assert Merge(extra, map[], ["A"]).env["A"] == "x";
  }

  // ---- expanding twice ----

  predicate Literal(parts: Template) {
    forall i :: 0 <= i < |parts| ==> parts[i].Lit?
  }

  function LiteralText(parts: Template): string
    requires Literal(parts)
  {
    if parts == [] then "" else parts[0].text + LiteralText(parts[1..])
  }

  lemma {:induction false} LiteralMeaning(extra: Overrides, base: Env, k: Key, parts: Template, n: nat)
    requires Literal(parts)
    ensures PartsMeaning(extra, base, n, k, parts) == LiteralText(parts)
  {
    if parts != [] {
      LiteralMeaning(extra, base, k, parts[1..], n);
    }
  }

  lemma {:induction false} LiteralKey(extra: Overrides, base: Env, k: Key)
    requires k in extra && Literal(extra[k])
    ensures Acyclic(extra, k) && Meaning(extra, base, |extra|, k) == LiteralText(extra[k])
  {
    assert |extra| > 0 by { assert k in extra.Keys; }
    assert forall d :: !DependsOn(extra, k, d);
    assert Grounded(extra, k, |extra|);
    AcyclicIffGrounded(extra, k);
    LiteralMeaning(extra, base, k, extra[k], |extra| - 1);
  }

  /** On values without references the resolver, run after the phase environment has been built,
      is a plain overlay on the base environment. */
  lemma {:induction false} SecondExpansionIsOverlay(extra: Overrides, base: Env, keys: seq<Key>)
    requires forall k :: k in keys <==> k in extra
    requires forall k :: k in extra ==> Literal(extra[k])
    ensures Merge(extra, base, keys).env == base + map k | k in extra :: LiteralText(extra[k])
  {
    hide Merge, Meaning, Acyclic, Literal, LiteralText;
    EnvironmentMeaning(extra, base, keys);
    forall k | k in extra ensures Acyclic(extra, k) && Meaning(extra, base, |extra|, k) == LiteralText(extra[k]) {
      LiteralKey(extra, base, k);
    }
  }

  // ---- cycles ----

  /** Each key of the ring is overridden by the next, and the last by the first. */
  ghost predicate IsRing(extra: Overrides, ring: seq<Key>) {
    && ring != [] && Distinct(ring)
    && forall i :: 0 <= i < |ring| ==> ring[i] in extra && extra[ring[i]] == [Ref(ring[if i + 1 < |ring| then i + 1 else 0])]
  }

  lemma {:induction false} SinglePart(extra: Overrides, base: Env, memo: Env, busy: set<Key>, key: Key, part: Part)
    ensures Expand(extra, base, memo, busy, key, [part]) == ExpandPart(extra, base, memo, busy, key, part)
  {
    var first := ExpandPart(extra, base, memo, busy, key, part);
    assert first.value + "" == first.value;
    assert Expand(extra, base, first.memo, busy, key, [part][1..]) == Resolved("", first.memo);
  }

  ghost predicate AllAre(m: Env, keys: seq<Key>, value: string) {
    forall k :: k in keys ==> k in m && m[k] == value
  }

  lemma {:induction false} RingAt(extra: Overrides, ring: seq<Key>, i: nat)
    requires IsRing(extra, ring) && i < |ring|
    ensures var next := ring[if i + 1 < |ring| then i + 1 else 0];
      && ring[i] in extra && next in extra && extra[ring[i]] == [Ref(next)]
      && forall j :: i < j < |ring| ==> ring[j] != ring[i]
  {
  }

  /** Following the ring from its first key, with none of it memoised, ends at that key's base value. */
  lemma {:induction false} RingFrom(extra: Overrides, base: Env, ring: seq<Key>, memo: Env, busy: set<Key>, i: nat)
    requires IsRing(extra, ring) && i < |ring| && forall k :: k in ring ==> k !in memo
    requires (forall j :: i <= j < |ring| ==> ring[j] !in busy) && (i > 0 ==> ring[0] in busy)
    ensures var r := Resolve(extra, base, memo, busy, ring[i]);
      r.value == Get(base, ring[0]) && AllAre(r.memo, ring[i..], r.value)
    decreases |ring| - i
  {
    hide Get, Resolve, IsRing;
    RingAt(extra, ring, i);
    var key, next := ring[i], ring[if i + 1 < |ring| then i + 1 else 0];
    RingStep(extra, base, memo, busy, key, next);
    if i + 1 < |ring| {
      RingFrom(extra, base, ring, memo, busy + {key}, i + 1);
      assert ring[i..] == [key] + ring[i + 1..];
    } else {
      assert ring[i..] == [key];
    }
  }

  lemma {:induction false} RingStep(extra: Overrides, base: Env, memo: Env, busy: set<Key>, key: Key, next: Key)
    requires key in extra && next in extra && extra[key] == [Ref(next)] && key !in memo && key !in busy
    ensures var r := if next == key then Resolved(Get(base, key), memo) else Resolve(extra, base, memo, busy + {key}, next);
      Resolve(extra, base, memo, busy, key) == Resolved(r.value, r.memo[key := r.value])
    ensures next !in memo && next in busy + {key} ==>
      Resolve(extra, base, memo, busy, key).value == Get(base, next)
  {
    hide Get;
    SinglePart(extra, base, memo, busy + {key}, key, Ref(next));
  }

  /** What is memoised stays. */
  lemma {:induction false} ResolveKeepsMemo(extra: Overrides, base: Env, memo: Env, busy: set<Key>, key: Key)
    ensures memo.Keys <= Resolve(extra, base, memo, busy, key).memo.Keys
    ensures forall k :: k in memo ==> Resolve(extra, base, memo, busy, key).memo[k] == memo[k]
    decreases extra.Keys - busy, 1, 0
  {
    if key !in memo && key in extra && key !in busy {
      assert extra.Keys - (busy + {key}) < extra.Keys - busy by {
        assert key in extra.Keys - busy && key !in extra.Keys - (busy + {key});
      }
      ExpandKeepsMemo(extra, base, memo, busy + {key}, key, extra[key]);
    }
  }

  lemma {:induction false} ExpandKeepsMemo(extra: Overrides, base: Env, memo: Env, busy: set<Key>, key: Key, parts: Template)
    ensures memo.Keys <= Expand(extra, base, memo, busy, key, parts).memo.Keys
    ensures forall k :: k in memo ==> Expand(extra, base, memo, busy, key, parts).memo[k] == memo[k]
    decreases extra.Keys - busy, 2, |parts|
  {
    if parts != [] {
      if parts[0].Ref? && parts[0].name != key && parts[0].name in extra {
        ResolveKeepsMemo(extra, base, memo, busy, parts[0].name);
      }
      ExpandKeepsMemo(extra, base, ExpandPart(extra, base, memo, busy, key, parts[0]).memo, busy, key, parts[1..]);
    }
  }

  /** No key of the set refers to one outside it. */
  ghost predicate Closed(extra: Overrides, keys: set<Key>) {
    forall k, d :: k in keys && DependsOn(extra, k, d) ==> d in keys
  }

  lemma {:induction false} ResolveStaysWithin(extra: Overrides, base: Env, memo: Env, busy: set<Key>, key: Key, keys: set<Key>)
    requires Closed(extra, keys) && key in keys
    ensures Resolve(extra, base, memo, busy, key).memo.Keys <= memo.Keys + keys
    decreases extra.Keys - busy, 1, 0
  {
    if key !in memo && key in extra && key !in busy {
      assert extra.Keys - (busy + {key}) < extra.Keys - busy by {
        assert key in extra.Keys - busy && key !in extra.Keys - (busy + {key});
      }
      ExpandStaysWithin(extra, base, memo, busy + {key}, key, extra[key], keys);
    }
  }

  lemma {:induction false} ExpandStaysWithin(
    extra: Overrides, base: Env, memo: Env, busy: set<Key>, key: Key, parts: Template, keys: set<Key>)
    requires Closed(extra, keys) && key in keys && key in extra && forall p :: p in parts ==> p in extra[key]
    ensures Expand(extra, base, memo, busy, key, parts).memo.Keys <= memo.Keys + keys
    decreases extra.Keys - busy, 2, |parts|
  {
    if parts != [] {
      assert parts[0] in extra[key];
      if parts[0].Ref? && parts[0].name != key && parts[0].name in extra {
        assert DependsOn(extra, key, parts[0].name);
        ResolveStaysWithin(extra, base, memo, busy, parts[0].name, keys);
      }
      ExpandStaysWithin(extra, base, ExpandPart(extra, base, memo, busy, key, parts[0]).memo, busy, key, parts[1..], keys);
    }
  }

  /** The order comes to the ring with its entry `n`; no key before it leads there. */
  ghost predicate EntersAt(extra: Overrides, ring: seq<Key>, visited: seq<Key>, n: nat, before: set<Key>) {
    && n < |visited| && visited[n] in ring
    && Closed(extra, before) && (forall k :: k in ring ==> k !in before) && forall i :: 0 <= i < n ==> visited[i] in before
  }

  lemma {:induction false} MergeStaysWithin(extra: Overrides, base: Env, visited: seq<Key>, keys: set<Key>)
    requires Closed(extra, keys) && forall i :: 0 <= i < |visited| ==> visited[i] in keys
    ensures Merge(extra, base, visited).memo.Keys <= keys
  {
    hide Resolve, Closed;
    if visited != [] {
      var front := visited[..|visited| - 1];
      MergeStaysWithin(extra, base, front, keys);
      ResolveStaysWithin(extra, base, Merge(extra, base, front).memo, {}, visited[|visited| - 1], keys);
    }
  }

  lemma {:induction false} RingTakesFirst(
    extra: Overrides, base: Env, ring: seq<Key>, visited: seq<Key>, n: nat, before: set<Key>)
    requires IsRing(extra, ring) && EntersAt(extra, ring, visited, n, before) && visited[n] == ring[0]
    ensures var m := Merge(extra, base, visited);
      && AllAre(m.memo, ring, Get(base, ring[0]))
      && forall k :: k in ring && k in visited ==> k in m.env && m.env[k] == Get(base, ring[0])
  {
    hide Resolve, Get, Closed, IsRing;
    var front, key := visited[..|visited| - 1], visited[|visited| - 1];
    assert visited == front + [key];
    var memo := Merge(extra, base, front).memo;
    if n == |front| {
      MergeStaysWithin(extra, base, front, before);
      assert ring[0..] == ring && key == ring[0];
      RingFrom(extra, base, ring, memo, {}, 0);
      assert forall k :: k in front ==> k in before;
    } else {
      RingTakesFirst(extra, base, ring, front, n, before);
      ResolveKeepsMemo(extra, base, memo, {}, key);
      MemoIsRead(extra, base, memo, key);
    }
  }

  lemma {:induction false} MemoIsRead(extra: Overrides, base: Env, memo: Env, key: Key)
    ensures key in memo ==> Resolve(extra, base, memo, {}, key).value == memo[key]
  {
  }

  /** The same ring, begun at its second key. */
  lemma {:induction false} TurnOnce(extra: Overrides, ring: seq<Key>)
    requires IsRing(extra, ring)
    ensures IsRing(extra, ring[1..] + ring[..1])
  {
    var turned := ring[1..] + ring[..1];
    assert forall i :: 0 <= i < |ring| - 1 ==> turned[i] == ring[i + 1];
    assert turned[|ring| - 1] == ring[0];
  }

  /** The same ring, begun at key `n`. */
  lemma {:induction false} Turned(extra: Overrides, ring: seq<Key>, n: nat) returns (turned: seq<Key>)
    requires IsRing(extra, ring) && n < |ring|
    ensures IsRing(extra, turned) && turned[0] == ring[n]
    ensures forall k :: k in ring <==> k in turned
    decreases n
  {
    hide IsRing;
    if n == 0 {
      turned := ring;
    } else {
      TurnOnce(extra, ring);
      assert ring == ring[..1] + ring[1..];
      assert (ring[1..] + ring[..1])[n - 1] == ring[n];
      turned := Turned(extra, ring[1..] + ring[..1], n - 1);
    }
  }

  /** Every key of a ring gets the base value of the one visited first, provided that no key visited
      before it leads to the ring. */
  lemma {:induction false} RingTakesFirstVisited(
    extra: Overrides, base: Env, ring: seq<Key>, visited: seq<Key>, n: nat, before: set<Key>)
    requires IsRing(extra, ring) && EntersAt(extra, ring, visited, n, before)
    ensures var m := Merge(extra, base, visited);
      && AllAre(m.memo, ring, Get(base, visited[n]))
      && forall k :: k in ring && k in visited ==> k in m.env && m.env[k] == Get(base, visited[n])
  {
    hide Merge, Get, IsRing, Closed;
    var i :| 0 <= i < |ring| && ring[i] == visited[n];
    var turned := Turned(extra, ring, i);
    RingTakesFirst(extra, base, turned, visited, n, before);
  }

  /** So where keys refer to each other in a ring, of whatever length and beside whatever other
      overrides, two orders that come to it with one of its own keys agree on the ring exactly when
      these keys have the same base value. */
  lemma {:induction false} RingOrdersAgree(
    extra: Overrides, base: Env, ring: seq<Key>, visitedA: seq<Key>, n: nat, beforeA: set<Key>,
    visitedB: seq<Key>, m: nat, beforeB: set<Key>)
    requires IsRing(extra, ring)
    requires EntersAt(extra, ring, visitedA, n, beforeA) && EntersAt(extra, ring, visitedB, m, beforeB)
    requires forall k :: k in ring ==> k in visitedA && k in visitedB
    ensures var envA, envB := Merge(extra, base, visitedA).env, Merge(extra, base, visitedB).env;
      && (forall k :: k in ring ==> k in envA && k in envB)
      && ((forall k :: k in ring ==> envA[k] == envB[k]) <==> Get(base, visitedA[n]) == Get(base, visitedB[m]))
  {
    hide Merge, Get, Closed;
    RingTakesFirstVisited(extra, base, ring, visitedA, n, beforeA);
    RingTakesFirstVisited(extra, base, ring, visitedB, m, beforeB);
  }
}
