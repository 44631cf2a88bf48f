/**
 * The index translator of src/database/postgres/list.ts: an inclusive
 * window (start, stop), where a negative stop counts from the tail, is
 * turned into the OFFSET/LIMIT pair of a query over the array unnested in
 * ordinal order. listTrim and getListRange both use it.
 */
module IndexWindow {
  import opened Wrappers

  /** The errors PostgreSQL raises for a negative OFFSET or a negative LIMIT. */
  datatype SqlError = NegativeOffset | NegativeLimit

  /** An OFFSET and a LIMIT; a `None` limit is SQL NULL, which PostgreSQL reads as "no limit". */
  datatype Bounds = Bounds(offset: int, limit: Option<int>)

  function Min(a: int, b: int): int { if a <= b then a else b }

  function Clamp(x: int, n: nat): nat { if x < 0 then 0 else if x > n then n else x }

  /** PostgreSQL's array_length(arr, 1): the number of elements, or NULL for an empty array. */
  function ArrayLength(s: seq<string>): (n: Option<nat>)
    ensures n.None? <==> s == []
    ensures n.Some? ==> n.value == |s| > 0
  {
    if s == [] then None else Some(|s|)
  }

  /**
   * One past the last position that an inclusive stop designates in a list
   * of length len: -1 is the last element, -2 the one before it, and so on.
   */
  function End(stop: int, len: nat): int {
    if stop < 0 then len + stop + 1 else stop + 1
  }

  /**
   * The translation written into the two queries: stop is first incremented;
   * a positive result gives LIMIT stop - start, otherwise the current array
   * length is added. The offset is start in both branches.
   */
  function Translate(start: int, stop: int, len: Option<nat>): (b: Bounds)
    ensures b.offset == start
    ensures b.limit.None? <==> stop < 0 && len.None?
    ensures b.limit.Some? ==> start + b.limit.value == End(stop, if len.Some? then len.value else 0)
  {
    var stop' := stop + 1;
    if stop' > 0 then Bounds(start, Some(stop' - start))
    else Bounds(start, if len.Some? then Some(stop' - start + len.value) else None)
  }

  /**
   * `ORDER BY i LIMIT limit OFFSET offset` over the elements of s: an error
   * for a negative offset (checked first) or a negative limit; otherwise the
   * rows from position offset on, at most limit of them, never past the end.
   */
  function LimitOffset(s: seq<string>, offset: int, limit: Option<int>): (r: Result<seq<string>, SqlError>)
    ensures offset < 0 ==> r == Failure(NegativeOffset)
    ensures offset >= 0 && limit.Some? && limit.value < 0 ==> r == Failure(NegativeLimit)
    ensures offset >= 0 && (limit.None? || limit.value >= 0) ==> r.Success?
    ensures r.Success? ==>
      |r.value| == Clamp(if limit.None? then |s| - offset else Min(limit.value, |s| - offset), |s|)
    ensures r.Success? ==>
      forall i :: 0 <= i < |r.value| ==> offset + i < |s| && r.value[i] == s[offset + i]
  {
    if offset < 0 then Failure(NegativeOffset)
    else if limit.Some? && limit.value < 0 then Failure(NegativeLimit)
    else
      var lo := Min(offset, |s|);
      var hi := if limit.None? then |s| else Min(offset + limit.value, |s|);
      Success(s[lo..hi])
  }

  /**
   * When PostgreSQL accepts the query a window request resolves to: start is
   * not negative, and the requested window does not end before it starts
   * (an empty array in the tail-relative branch has a NULL limit, which is
   * never rejected).
   */
  predicate Accepts(len: nat, start: int, stop: int) {
    start >= 0 && ((stop < 0 && len == 0) || start <= End(stop, len))
  }

  /**
   * The reference meaning of an inclusive window: the elements at positions
   * start up to and including the one stop designates, clipped to those that
   * exist, in list order.
   */
  function Requested(s: seq<string>, start: nat, stop: int): (r: seq<string>)
    ensures |r| == if start < Clamp(End(stop, |s|), |s|) then Clamp(End(stop, |s|), |s|) - start else 0
    ensures forall i :: 0 <= i < |r| ==>
      start + i < |s| && start + i < End(stop, |s|) && r[i] == s[start + i]
  {
    var hi := Clamp(End(stop, |s|), |s|);
    if start < hi then s[start..hi] else []
  }

  /**
   * The window listTrim keeps and getListRange returns: the translated
   * OFFSET/LIMIT applied to s. Accepted exactly when `Accepts` holds, and
   * then it is the requested inclusive window; a negative start is rejected
   * as a negative offset.
   */
  function Window(s: seq<string>, start: int, stop: int): (r: Result<seq<string>, SqlError>)
    ensures r.Success? <==> Accepts(|s|, start, stop)
    ensures r.Success? ==> start >= 0 && r.value == Requested(s, start, stop)
    ensures r == Failure(NegativeOffset) <==> start < 0
  {
    var b := Translate(start, stop, ArrayLength(s));
    LimitOffset(s, b.offset, b.limit)
  }

  /** The window (0, -1) is the whole list, empty or not. */
  lemma WholeWindow(s: seq<string>)
    ensures Window(s, 0, -1) == Success(s)
  {
    assert Accepts(|s|, 0, -1);
    assert Requested(s, 0, -1) == s[0..|s|] == s;
  }

  /** On a list of five, (1, -2) leaves out the first and the last element. */
  lemma TailRelativeExample()
    ensures Window(["a", "b", "c", "d", "e"], 1, -2) == Success(["b", "c", "d"])
  {
    var s := ["a", "b", "c", "d", "e"];
    assert Accepts(|s|, 1, -2);
    assert Requested(s, 1, -2) == s[1..4] == ["b", "c", "d"];
  }

  /**
   * The two branches of the translation agree: a stop inside the list and
   * the same position counted from the tail select the same window.
   */
  lemma BranchesAgree(s: seq<string>, start: int, stop: int)
    requires 0 <= stop < |s|
    ensures Window(s, start, stop) == Window(s, start, stop - |s|)
  {
  }

  /** Trimming to a window and reading it again whole changes nothing more. */
  lemma WindowOfWindow(s: seq<string>, start: int, stop: int)
    requires Accepts(|s|, start, stop)
    ensures Window(s, start, stop).Success?
    ensures Window(Window(s, start, stop).value, 0, -1) == Window(s, start, stop)
  {
    WholeWindow(Window(s, start, stop).value);
  }
}
