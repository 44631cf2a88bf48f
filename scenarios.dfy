/**
 * Callers of the list store: what the contracts of ListStore.Store let a
 * client conclude about sequences of operations on one key.
 */
module Scenarios {
  import opened Wrappers
  import opened IndexWindow
  import opened ArrayOps
  import opened ListStore

  /**
   * Callers popping the same list one after another (the row lock of
   * listRemoveLast serializes concurrent ones) receive each element exactly
   * once, tail first, and leave the list empty.
   */
  method PopUntilEmpty(st: Store, key: string) returns (popped: seq<string>)
    requires key != "" && st.IsLiveList(key)
    modifies st
    ensures st.liveTypes == old(st.liveTypes)
    ensures Reverse(popped) == old(st.arrays[key])
    ensures st.arrays == old(st.arrays)[key := []]
  {
    popped := [];
    while true
      invariant st.IsLiveList(key) && st.liveTypes == old(st.liveTypes)
      invariant st.arrays == old(st.arrays)[key := st.arrays[key]]
      invariant st.arrays[key] + Reverse(popped) == old(st.arrays[key])
      decreases |st.arrays[key]|
    {
      ghost var rest := st.arrays[key];
      var v := st.ListRemoveLast(key);
      if v.None? {
        break;
      }
      ReverseSnoc(popped, v.value);
      assert rest == st.arrays[key] + [v.value];
      popped := popped + [v.value];
    }
  }

  /** A list with its tail element split off determines both parts. */
  lemma SplitTail(a: seq<string>, x: string, b: seq<string>, y: string)
    requires a + [x] == b + [y]
    ensures a == b && x == y
  {
    assert |a| == |b|;
    assert x == (a + [x])[|a|] && y == (b + [y])[|b|];
    assert a == (a + [x])[..|a|] && b == (b + [y])[..|b|];
  }

  /** Appending a value to a live list and popping it returns that value and restores the list. */
  method AppendThenPop(st: Store, key: string, v: string) returns (got: Option<string>)
    requires key != "" && st.IsLiveList(key)
    modifies st
    ensures got == Some(v)
    ensures st.arrays == old(st.arrays) && st.liveTypes == old(st.liveTypes)
  {
    var status := st.ListAppend(key, One(v));
    got := st.ListRemoveLast(key);
    SplitTail(st.arrays[key], got.value, old(st.arrays[key]), v);
  }

  /** Appending [a, b] and then prepending [x, y] gives [y, x, a, b]: the batch is reversed first. */
  method OrderExample() {
    var st := new Store(map[], map[]);
    var status := st.ListAppend("k", Many(["a", "b"]));
    status := st.ListPrepend("k", Many(["x", "y"]));
    assert st.arrays["k"] == ["y", "x", "a", "b"];
  }

  /** Popping [a, b, c] returns c and leaves [a, b]; popping an absent key returns nothing. */
  method PopExample() {
    var st := new Store(map["k" := ["a", "b", "c"]], map["k" := ListType]);
    var last := st.ListRemoveLast("k");
    SplitTail(st.arrays["k"], last.value, ["a", "b"], "c");
    assert last == Some("c") && st.arrays["k"] == ["a", "b"];
    var missing := st.ListRemoveLast("absent");
    assert missing == None;
  }

  /** Removing the batch [x, y, z] from [y, x, a] leaves [a]. */
  method RemoveAllExample() {
    var st := new Store(map["k" := ["y", "x", "a"]], map["k" := ListType]);
    st.ListRemoveAll("k", Many(["x", "y", "z"]));
    assert st.arrays["k"] == Without(["y", "x", "a"], Elems(["x", "y", "z"])) == ["a"];
  }

  /** Reading and trimming [a, b, c, d, e] to (1, -2), then trimming to (0, -1). */
  method WindowExample() {
    var st := new Store(map["l" := ["a", "b", "c", "d", "e"]], map["l" := ListType]);
    TailRelativeExample();
    assert st.GetListRange("l", 1, -2) == Range(["b", "c", "d"]);
    var status := st.ListTrim("l", 1, -2);
    assert st.arrays["l"] == ["b", "c", "d"];
    WholeWindow(st.arrays["l"]);
    status := st.ListTrim("l", 0, -1);
    assert st.arrays["l"] == ["b", "c", "d"];
    assert st.ListLength("l") == Some(3);
    assert st.GetListRange("", 0, -1) == Undefined;
  }
}
