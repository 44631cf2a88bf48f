/**
 * The keyed list store of src/database/postgres/list.ts. The table
 * legacy_list maps each key to one TEXT[] row; the view legacy_object_live
 * records each live key's registered type. A row is read, popped, trimmed
 * or filtered only when the key is live with type "list" (the join on _key
 * and type); the prepend and append upserts conflict on _key alone and
 * extend whatever row the key has. Each operation is one atomic step.
 */
module ListStore {
  import opened Wrappers
  import opened IndexWindow
  import opened ArrayOps

  /** The types a key can be registered under. */
  datatype ObjType = HashType | ZSetType | SetType | ListType | StringType

  /** A `string | string[]` argument. */
  datatype Values = One(value: string) | Many(values: seq<string>)

  /** Why a mutation was refused: the key lives as another type, or PostgreSQL rejected the window. */
  datatype StoreError = WrongType(existing: ObjType) | Rejected(error: SqlError)

  /** What getListRange resolves to: undefined for an empty key, the elements, or the rejection. */
  datatype RangeReply = Undefined | Range(elems: seq<string>) | Failed(error: SqlError)

  /** The batch an argument stands for: a single value becomes a one-element batch. */
  function AsArray(value: Values): seq<string> {
    match value
    case One(v) => [v]
    case Many(vs) => vs
  }

  class Store {
    /** The rows of legacy_list: key to array. */
    var arrays: map<string, seq<string>>
    /** The live registrations of legacy_object_live: key to type. */
    var liveTypes: map<string, ObjType>

    constructor (arrays0: map<string, seq<string>>, liveTypes0: map<string, ObjType>)
      ensures arrays == arrays0 && liveTypes == liveTypes0
    {
      arrays := arrays0;
      liveTypes := liveTypes0;
    }

    /** The key has an array row and a live registration of type list. */
    predicate IsLiveList(key: string)
      reads this
    {
      key in arrays && key in liveTypes && liveTypes[key] == ListType
    }

    /** The key may be registered as a list: it is not live under another type. */
    predicate MayHoldList(key: string)
      reads this
    {
      key !in liveTypes || liveTypes[key] == ListType
    }

    /** The array the upsert finds for the key, or nothing when no row exists. */
    function Existing(key: string): seq<string>
      reads this
    {
      if key in arrays then arrays[key] else []
    }

    /**
     * The registration step every mutation of a list runs first: the key
     * becomes live as a list, or the step fails when it is live as another
     * type. It never touches the arrays.
     */
    method EnsureListType(key: string) returns (status: Outcome<StoreError>)
      modifies this
      ensures arrays == old(arrays)
      ensures status.Pass? <==> old(MayHoldList(key))
      ensures status.Pass? ==> liveTypes == old(liveTypes)[key := ListType]
      ensures status.Fail? ==> liveTypes == old(liveTypes) && status.error == WrongType(old(liveTypes)[key])
    {
      if key in liveTypes && liveTypes[key] != ListType {
        status := Fail(WrongType(liveTypes[key]));
      } else {
        liveTypes := liveTypes[key := ListType];
        status := Pass;
      }
    }

    /**
     * listPrepend: registers the key as a list, then upserts the reversed
     * batch in front of the existing array (or as a new row). An empty key
     * does nothing; a registration failure rolls everything back.
     */
    method ListPrepend(key: string, value: Values) returns (status: Outcome<StoreError>)
      modifies this
      ensures key == "" || !old(MayHoldList(key)) ==> arrays == old(arrays) && liveTypes == old(liveTypes)
      ensures status.Pass? <==> key == "" || old(MayHoldList(key))
      ensures key != "" && status.Fail? ==> status.error == WrongType(old(liveTypes)[key])
      ensures key != "" && status.Pass? ==>
        && liveTypes == old(liveTypes)[key := ListType]
        && arrays == old(arrays)[key := Reverse(AsArray(value)) + old(Existing(key))]
        && IsLiveList(key)
    {
      if key == "" {
        return Pass;
      }
      status := EnsureListType(key);
      if status.Fail? {
        return;
      }
      var batch := Reverse(AsArray(value));
      arrays := arrays[key := batch + Existing(key)];
    }

    /**
     * listAppend: registers the key as a list, then upserts the batch after
     * the existing array (or as a new row). An empty key does nothing; a
     * registration failure rolls everything back.
     */
    method ListAppend(key: string, value: Values) returns (status: Outcome<StoreError>)
      modifies this
      ensures key == "" || !old(MayHoldList(key)) ==> arrays == old(arrays) && liveTypes == old(liveTypes)
      ensures status.Pass? <==> key == "" || old(MayHoldList(key))
      ensures key != "" && status.Fail? ==> status.error == WrongType(old(liveTypes)[key])
      ensures key != "" && status.Pass? ==>
        && liveTypes == old(liveTypes)[key := ListType]
        && arrays == old(arrays)[key := old(Existing(key)) + AsArray(value)]
        && IsLiveList(key)
    {
      if key == "" {
        return Pass;
      }
      var batch := AsArray(value);
      status := EnsureListType(key);
      if status.Fail? {
        return;
      }
      arrays := arrays[key := Existing(key) + batch];
    }

    /**
     * listRemoveLast: on a live non-empty list, removes the tail element and
     * returns it, the rest of the list unchanged; otherwise returns nothing
     * and writes nothing.
     */
    method ListRemoveLast(key: string) returns (v: Option<string>)
      modifies this
      ensures liveTypes == old(liveTypes)
      ensures v.Some? <==> key != "" && old(IsLiveList(key)) && old(arrays[key]) != []
      ensures v.Some? ==> key in arrays && arrays == old(arrays)[key := arrays[key]]
      ensures v.Some? ==> arrays[key] + [v.value] == old(arrays[key])
      ensures v.None? ==> arrays == old(arrays)
    {
      if key == "" || !IsLiveList(key) {
        return None;
      }
      var s := arrays[key];
      if s == [] {
        return None;
      }
      v := Some(s[|s| - 1]);
      arrays := arrays[key := s[..|s| - 1]];
    }

    /**
     * The single-value statement of listRemoveAll: array_remove on the row
     * of a live list; a key that is not live is left alone.
     */
    method RemoveValue(key: string, v: string)
      modifies this
      ensures liveTypes == old(liveTypes)
      ensures old(IsLiveList(key)) ==> arrays == old(arrays)[key := Without(old(arrays[key]), {v})]
      ensures !old(IsLiveList(key)) ==> arrays == old(arrays)
    {
      if IsLiveList(key) {
        arrays := arrays[key := Without(arrays[key], {v})];
      }
    }

    /**
     * listRemoveAll: every occurrence of the value, or of each value of a
     * batch, leaves the live list; the survivors keep their order. A batch
     * is removed one value at a time.
     */
    method ListRemoveAll(key: string, value: Values)
      modifies this
      ensures liveTypes == old(liveTypes)
      ensures key != "" && old(IsLiveList(key)) ==>
        arrays == old(arrays)[key := Without(old(arrays[key]), Elems(AsArray(value)))]
      ensures key == "" || !old(IsLiveList(key)) ==> arrays == old(arrays)
    {
      if key == "" {
        return;
      }
      match value
      case One(v) =>
        RemoveValue(key, v);
        assert Elems([v]) == {v};
      case Many(vs) =>
        RemoveValues(key, vs);
    }

    /**
     * The batch path of listRemoveAll: one single-value removal per value
     * of the batch, in turn.
     */
    method RemoveValues(key: string, vs: seq<string>)
      modifies this
      ensures liveTypes == old(liveTypes)
      ensures old(IsLiveList(key)) ==> arrays == old(arrays)[key := Without(old(arrays[key]), Elems(vs))]
      ensures old(IsLiveList(key)) ==> arrays[key] == RemoveEach(old(arrays[key]), vs)
      ensures !old(IsLiveList(key)) ==> arrays == old(arrays)
    {
      if IsLiveList(key) {
        WithoutNothing(arrays[key]);
        assert Elems(vs[..0]) == {};
      }
      for i := 0 to |vs|
        invariant liveTypes == old(liveTypes)
        invariant old(IsLiveList(key)) ==>
          arrays == old(arrays)[key := Without(old(arrays[key]), Elems(vs[..i]))]
        invariant !old(IsLiveList(key)) ==> arrays == old(arrays)
      {
        RemoveValue(key, vs[i]);
        if old(IsLiveList(key)) {
          WithoutPrefixStep(old(arrays[key]), vs, i);
        }
      }
      assert vs[..|vs|] == vs;
      if old(IsLiveList(key)) {
        RemoveEachIsWithout(old(arrays[key]), vs);
      }
    }

    /**
     * listTrim: the live list keeps only the window (start, stop) and drops
     * everything else; a rejected window leaves it as it was. The list left
     * behind is what getListRange returned for the same window beforehand.
     */
    method ListTrim(key: string, start: int, stop: int) returns (status: Outcome<StoreError>)
      modifies this
      ensures liveTypes == old(liveTypes)
      ensures key == "" || !old(IsLiveList(key)) ==> status.Pass? && arrays == old(arrays)
      ensures key != "" && old(IsLiveList(key)) ==>
        match Window(old(arrays[key]), start, stop)
        case Success(w) => status.Pass? && arrays == old(arrays)[key := w]
        case Failure(e) => status == Fail(Rejected(e)) && arrays == old(arrays)
      ensures old(GetListRange(key, start, stop)).Range? ==>
        GetListRange(key, 0, -1) == old(GetListRange(key, start, stop))
    {
      if key == "" || !IsLiveList(key) {
        return Pass;
      }
      match Window(arrays[key], start, stop)
      case Success(w) =>
        arrays := arrays[key := w];
        WholeWindow(w);
        status := Pass;
      case Failure(e) =>
        status := Fail(Rejected(e));
    }

    /**
     * getListRange: undefined for an empty key; the window (start, stop) of
     * a live list, or its rejection; the empty list when the key holds no
     * live list.
     */
    function GetListRange(key: string, start: int, stop: int): (r: RangeReply)
      reads this
      ensures r.Undefined? <==> key == ""
      ensures key != "" && !IsLiveList(key) ==> r == Range([])
      ensures r.Failed? <==> key != "" && IsLiveList(key) && !Accepts(|arrays[key]|, start, stop)
      ensures r.Range? && IsLiveList(key) ==> start >= 0 && r.elems == Requested(arrays[key], start, stop)
    {
      if key == "" then Undefined
      else if !IsLiveList(key) then Range([])
      else
        match Window(arrays[key], start, stop)
        case Success(w) => Range(w)
        case Failure(e) => Failed(e)
    }

    /**
     * listLength: the number of elements of a live list, SQL NULL (None)
     * for a live empty one, and 0 when the key holds no live list.
     */
    function ListLength(key: string): (n: Option<nat>)
      reads this
      ensures !IsLiveList(key) ==> n == Some(0)
      ensures IsLiveList(key) ==> n == ArrayLength(arrays[key])
    {
      if IsLiveList(key) then ArrayLength(arrays[key]) else Some(0)
    }

    /** The length a live list reports is the number of elements a full range read returns. */
    lemma LengthCountsRange(key: string)
      requires key != "" && IsLiveList(key) && arrays[key] != []
      ensures GetListRange(key, 0, -1).Range?
      ensures ListLength(key) == Some(|GetListRange(key, 0, -1).elems|)
    {
    }
  }
}
