/** The texture-unit chooser of Object::addTexture(tex, name)
    (src/Core/Object/Object.cpp): copy the units already in use into an array,
    place every value v < n at slot v by swapping in place (cyclic placement),
    then return the first slot whose value is not its own index, or n. */
module TextureUnits {

  /** Slot p is settled when its value, if it is a slot number, is already at home. */
  ghost predicate Settled(s: seq<nat>, p: nat)
    requires p < |s|
  {
    s[p] < |s| ==> s[s[p]] == s[p]
  }

  ghost function Misplaced(a: array<nat>): set<nat>
    reads a
  {
    set k | 0 <= k < a.Length && a[k] != k
  }

  /** The exchange of list[i] and list[t]; the inner loop's guard `i != list[i]`
      (src/Core/Object/Object.cpp:225) makes the two slots distinct. */
  method Swap(a: array<nat>, i: nat, j: nat)
    requires i < a.Length && j < a.Length && i != j
    modifies a
    ensures a[i] == old(a[j]) && a[j] == old(a[i])
    ensures forall k :: 0 <= k < a.Length && k != i && k != j ==> a[k] == old(a[k])
    ensures multiset(a[..]) == old(multiset(a[..]))
  {
    var temp := a[i];
    a[i] := a[j];
    a[j] := temp;
  }

  /** The unit addTexture(tex, name) picks: 0 when no texture is attached, and
      otherwise the smallest natural number no attached texture uses; it is at
      most the number of attached textures. The outer loop runs i from n - 1
      down to 0 (see AsWrittenOuterLoopOverruns for the loop as written). */
  method ChooseUnit(units: seq<nat>) returns (unit: nat)
    ensures unit <= |units|
    ensures unit !in units
    ensures forall k :: 0 <= k < unit ==> k in units
  {
    if |units| == 0 {
      return 0;
    }
    var n := |units|;
    var list := new nat[n];
    var i := 0;
    while i < n
      invariant 0 <= i <= n
      invariant list[..i] == units[..i]
    {
      list[i] := units[i];
      i := i + 1;
    }
    assert list[..] == units;

    i := n;
    while i > 0
      invariant 0 <= i <= n
      invariant multiset(list[..]) == multiset(units)
      invariant forall p :: i <= p < n ==> Settled(list[..], p)
    {
      i := i - 1;
      while list[i] < n && i != list[i]
        invariant multiset(list[..]) == multiset(units)
        invariant forall p :: i < p < n ==> Settled(list[..], p)
        decreases Misplaced(list)
      {
        var t := list[i];
        if list[i] == list[t] {
          break;
        }
        ghost var before := Misplaced(list);
        ghost var pre := list[..];
        Swap(list, i, t);
        assert list[t] == t;
        assert t in before && t !in Misplaced(list);
        assert Misplaced(list) <= before;
        forall p | i < p < n ensures Settled(list[..], p) {
          if p != t && pre[p] < n {
            assert Settled(pre, p);
          }
        }
      }
    }

    i := 0;
    while i < n && list[i] == i
      invariant 0 <= i <= n
      invariant forall k :: 0 <= k < i ==> list[k] == k
    {
      i := i + 1;
    }
    unit := i;

    forall k | 0 <= k < unit ensures k in units {
      assert list[k] in multiset(list[..]);
    }
    forall p | 0 <= p < n ensures list[p] != unit {
      assert Settled(list[..], p);
    }
    assert unit !in multiset(list[..]);
  }

  /** Any number of which every smaller natural is in use is at most the number
      of units in use: the pigeonhole bound behind `unit <= |units|`. */
  lemma CoveredPrefixBound(units: seq<nat>, u: nat)
    requires forall k :: 0 <= k < u ==> k in units
    ensures u <= |units|
  {
    forall k | 0 <= k < u ensures k in multiset(units) {
      assert k in units;
    }
    CoveredPrefixBoundMultiset(multiset(units), u);
  }

  lemma {:induction false} CoveredPrefixBoundMultiset(m: multiset<nat>, u: nat)
    requires forall k :: 0 <= k < u ==> k in m
    ensures u <= |m|
  {
    if u > 0 {
      var m' := m - multiset{u - 1};
      forall k | 0 <= k < u - 1 ensures k in m' {
        assert m'[k] == m[k];
      }
      CoveredPrefixBoundMultiset(m', u - 1);
    }
  }

  // ---- the outer loop as written: `while ((--i) >= 0)` on a size_t ----

  /** size_t arithmetic wraps modulo 2^64. */
  const SIZE_T_MODULUS: nat := 0x1_0000_0000_0000_0000

  /** The value of i after `steps` pre-decrements of the size_t i = n. */
  function IndexAfter(n: nat, steps: nat): (i: nat)
    ensures i < SIZE_T_MODULUS
  {
    (n - steps) % SIZE_T_MODULUS
  }

  /** The guard `(--i) >= 0` compares an unsigned value with 0. It holds for
      every size_t value, so it is true by construction; the wrap below is what
      makes the loop overrun. */
  predicate AsWrittenGuard(i: nat) {
    i >= 0
  }

  /** As written, the guard never fails, and with n textures the (n + 1)-th
      pre-decrement wraps i from 0 to 2^64 - 1, an index past the end of `list`. */
  lemma AsWrittenOuterLoopOverruns(n: nat, steps: nat)
    requires 0 < n < SIZE_T_MODULUS - 1
    ensures AsWrittenGuard(IndexAfter(n, steps))
    ensures IndexAfter(n, n) == 0
    ensures IndexAfter(n, n + 1) == SIZE_T_MODULUS - 1
    ensures IndexAfter(n, n + 1) >= n
  {
  }
}
