/**
 * What the statements of src/database/postgres/list.ts do to one TEXT[]
 * value: the reversal of a prepended batch, concatenation, and
 * array_remove, with reference definitions that apply them one value at a
 * time.
 */
module ArrayOps {

  /** The values in the opposite order (JavaScript's Array.prototype.reverse). */
  function Reverse(s: seq<string>): (r: seq<string>)
    ensures |r| == |s|
    ensures forall i :: 0 <= i < |s| ==> r[i] == s[|s| - 1 - i]
  {
    if s == [] then [] else [s[|s| - 1]] + Reverse(s[..|s| - 1])
  }

  lemma ReverseCons(v: string, s: seq<string>)
    ensures Reverse([v] + s) == Reverse(s) + [v]
  {
  }

  lemma ReverseSnoc(s: seq<string>, v: string)
    ensures Reverse(s + [v]) == [v] + Reverse(s)
  {
  }

  /** Pushing each value onto the head of s in turn, left to right (Redis LPUSH). */
  function PushEachFront(s: seq<string>, vs: seq<string>): seq<string>
    decreases |vs|
  {
    if vs == [] then s else PushEachFront([vs[0]] + s, vs[1..])
  }

  /** Pushing each value onto the tail of s in turn, left to right (Redis RPUSH). */
  function PushEachBack(s: seq<string>, vs: seq<string>): seq<string>
    decreases |vs|
  {
    if vs == [] then s else PushEachBack(s + [vs[0]], vs[1..])
  }

  /**
   * Prepending the reversed batch, as listPrepend does, is the same as
   * pushing the batch's values onto the head one at a time.
   */
  lemma {:induction false} PrependIsPushEach(s: seq<string>, vs: seq<string>)
    ensures Reverse(vs) + s == PushEachFront(s, vs)
    decreases |vs|
  {
    if vs != [] {
      PrependIsPushEach([vs[0]] + s, vs[1..]);
      assert vs == [vs[0]] + vs[1..];
      ReverseCons(vs[0], vs[1..]);
      assert Reverse(vs) + s == Reverse(vs[1..]) + ([vs[0]] + s);
    }
  }

  /**
   * Appending the batch, as listAppend does, is the same as pushing its
   * values onto the tail one at a time.
   */
  lemma {:induction false} AppendIsPushEach(s: seq<string>, vs: seq<string>)
    ensures s + vs == PushEachBack(s, vs)
    decreases |vs|
  {
    if vs != [] {
      AppendIsPushEach(s + [vs[0]], vs[1..]);
      assert s + vs == (s + [vs[0]]) + vs[1..];
    }
  }

  /** The set of values a batch names. */
  function Elems(vs: seq<string>): set<string> {
    set v | v in vs
  }

  /**
   * s without every element that belongs to vs, the survivors kept in their
   * original relative order; `Without(s, {v})` is array_remove(s, v).
   */
  function Without(s: seq<string>, vs: set<string>): (r: seq<string>)
    ensures |r| <= |s|
    ensures forall x :: x in r ==> x in s && x !in vs
  {
    if s == [] then []
    else
      assert s == [s[0]] + s[1..];
      (if s[0] in vs then [] else [s[0]]) + Without(s[1..], vs)
  }

  /**
   * Removal keeps every other value exactly as often as s holds it, and
   * none of the removed ones.
   */
  lemma {:induction false} WithoutCounts(s: seq<string>, vs: set<string>, x: string)
    ensures multiset(Without(s, vs))[x] == if x in vs then 0 else multiset(s)[x]
  {
    if s != [] {
      WithoutCounts(s[1..], vs, x);
      assert s == [s[0]] + s[1..];
    }
  }

  /** Removal acts on each part of a concatenation separately, so it keeps the order of the survivors. */
  lemma {:induction false} WithoutConcat(a: seq<string>, b: seq<string>, vs: set<string>)
    ensures Without(a + b, vs) == Without(a, vs) + Without(b, vs)
  {
    if a == [] {
      assert a + b == b;
    } else {
      var ab := a + b;
      var head := if a[0] in vs then [] else [a[0]];
      assert ab[0] == a[0] && ab[1..] == a[1..] + b;
      calc {
        Without(ab, vs);
        head + Without(a[1..] + b, vs);
        { WithoutConcat(a[1..], b, vs); }
        head + (Without(a[1..], vs) + Without(b, vs));
        (head + Without(a[1..], vs)) + Without(b, vs);
        Without(a, vs) + Without(b, vs);
      }
    }
  }

  /** Removing one set of values and then another is removing their union. */
  lemma {:induction false} WithoutTwice(s: seq<string>, vs: set<string>, ws: set<string>)
    ensures Without(Without(s, vs), ws) == Without(s, vs + ws)
  {
    if s != [] {
      WithoutTwice(s[1..], vs, ws);
      var head := if s[0] in vs then [] else [s[0]];
      WithoutConcat(head, Without(s[1..], vs), ws);
    }
  }

  /** Removing the values of a prefix of a batch and then the next value is removing the longer prefix. */
  lemma WithoutPrefixStep(s: seq<string>, vs: seq<string>, i: nat)
    requires i < |vs|
    ensures Without(Without(s, Elems(vs[..i])), {vs[i]}) == Without(s, Elems(vs[..i + 1]))
  {
    WithoutTwice(s, Elems(vs[..i]), {vs[i]});
    assert vs[..i + 1] == vs[..i] + [vs[i]];
    assert Elems(vs[..i + 1]) == Elems(vs[..i]) + {vs[i]};
  }

  /** Applying array_remove once per value of the batch, in the batch's order. */
  function RemoveEach(s: seq<string>, vs: seq<string>): seq<string>
    decreases |vs|
  {
    if vs == [] then s else RemoveEach(Without(s, {vs[0]}), vs[1..])
  }

  /** Removing the values one at a time leaves exactly the elements that are none of them. */
  lemma {:induction false} RemoveEachIsWithout(s: seq<string>, vs: seq<string>)
    ensures RemoveEach(s, vs) == Without(s, Elems(vs))
    decreases |vs|
  {
    if vs == [] {
      assert Elems(vs) == {};
      WithoutNothing(s);
    } else {
      RemoveEachIsWithout(Without(s, {vs[0]}), vs[1..]);
      WithoutTwice(s, {vs[0]}, Elems(vs[1..]));
      ElemsCons(vs);
    }
  }

  lemma ElemsCons(vs: seq<string>)
    requires vs != []
    ensures Elems(vs) == {vs[0]} + Elems(vs[1..])
  {
  }

  lemma {:induction false} WithoutNothing(s: seq<string>)
    ensures Without(s, {}) == s
  {
    if s != [] {
      WithoutNothing(s[1..]);
    }
  }

  /** The result of a batch removal does not depend on the order of its values. */
  lemma RemoveEachOrderFree(s: seq<string>, vs: seq<string>, ws: seq<string>)
    requires Elems(vs) == Elems(ws)
    ensures RemoveEach(s, vs) == RemoveEach(s, ws)
  {
    RemoveEachIsWithout(s, vs);
    RemoveEachIsWithout(s, ws);
  }

  /** array_remove of "a" from [a, b, a, c, a] keeps [b, c]. */
  lemma RemoveExample()
    ensures Without(["a", "b", "a", "c", "a"], {"a"}) == ["b", "c"]
  {
  }
}
