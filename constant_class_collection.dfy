/**
 * ConstantClassCollection<T>: an IList of SDK constant values that wraps a
 * List (`_wrapper`). The list is the field `items`, which every mutating
 * member reassigns; List's argument exceptions are the error cases.
 */
module ConstantClassCollections {
  import opened Wrappers

  /** The exceptions List<T> raises for bad arguments. */
  datatype ListError = ArgumentNull | ArgumentOutOfRange | Argument

  /** List.IndexOf: the smallest index holding `x`, or -1 when `x` does not occur. */
  function FirstIndex<T(==)>(s: seq<T>, x: T): (r: int)
    ensures -1 <= r < |s|
    ensures r == -1 <==> x !in s
    ensures 0 <= r ==> s[r] == x && x !in s[..r]
  {
    if |s| == 0 then -1
    else if s[0] == x then 0
    else
      var i := FirstIndex(s[1..], x);
      if i == -1 then -1
      else
        assert s[..i + 1] == [s[0]] + s[1..][..i];
        i + 1
  }

  /** Cutting out position k removes exactly one copy of s[k] and keeps everything else. */
  lemma CutMultiset<T>(s: seq<T>, k: int)
    requires 0 <= k < |s|
    ensures multiset(s[..k] + s[k + 1..]) == multiset(s) - multiset{s[k]}
  {
    assert s == s[..k] + [s[k]] + s[k + 1..];
  }

  /** Splicing x in at position i adds exactly one copy of x. */
  lemma SpliceMultiset<T>(s: seq<T>, i: int, x: T)
    requires 0 <= i <= |s|
    ensures multiset(s[..i] + [x] + s[i..]) == multiset(s) + multiset{x}
  {
    assert s == s[..i] + s[i..];
  }

  class ConstantClassCollection<T(==)> {
    /** The wrapped List, in order. */
    var items: seq<T>

    constructor ()
      ensures items == []
    {
      items := [];
    }

    /** Count: the number of elements in the list. */
    function Count(): (n: nat)
      reads this
      ensures n == |items|
    {
      |items|
    }

    /** IsReadOnly: the collection always accepts changes. */
    function IsReadOnly(): (r: bool)
      ensures !r
    {
      false
    }

    /** The indexer's getter. */
    method Get(index: int) returns (r: Result<T, ListError>)
      ensures 0 <= index < |items| ==> r == Success(items[index])
      ensures !(0 <= index < |items|) ==> r == Failure(ArgumentOutOfRange)
    {
      if 0 <= index < |items| {
        r := Success(items[index]);
      } else {
        r := Failure(ArgumentOutOfRange);
      }
    }

    /** The indexer's setter: replaces position `index` and nothing else. */
    method Set(index: int, value: T) returns (r: Outcome<ListError>)
      modifies this
      ensures 0 <= index < old(|items|) ==> r == Pass && items == old(items)[index := value]
      ensures !(0 <= index < old(|items|)) ==> r == Fail(ArgumentOutOfRange) && items == old(items)
    {
      if 0 <= index < |items| {
        items := items[index := value];
        r := Pass;
      } else {
        r := Fail(ArgumentOutOfRange);
      }
    }

    /** Add: appends at the end; Count grows by one. */
    method Add(cc: T)
      modifies this
      ensures items == old(items) + [cc]
      ensures Count() == old(Count()) + 1
    {
      items := items + [cc];
    }

    /** Clear: empties the list. */
    method Clear()
      modifies this
      ensures items == [] && Count() == 0
    {
      items := [];
    }

    /** Contains: true exactly when the item occurs, in agreement with IndexOf. */
    method Contains(item: T) returns (b: bool)
      ensures b <==> item in items
      ensures b <==> FirstIndex(items, item) >= 0
    {
      b := FirstIndex(items, item) != -1;
    }

    /**
     * The explicit ICollection.CopyTo: List.CopyTo, which copies all elements to
     * `target` from `arrayIndex` on, or raises before writing anything.
     */
    method CopyTo(target: array?<T>, arrayIndex: int) returns (r: Outcome<ListError>)
      modifies target
      ensures target == null ==> r == Fail(ArgumentNull)
      ensures target != null && arrayIndex < 0 ==>
                r == Fail(ArgumentOutOfRange) && target[..] == old(target[..])
      ensures target != null && 0 <= arrayIndex && target.Length - arrayIndex < |items| ==>
                r == Fail(Argument) && target[..] == old(target[..])
      ensures target != null && 0 <= arrayIndex && |items| <= target.Length - arrayIndex ==>
                r == Pass &&
                target[..] == old(target[..arrayIndex]) + items + old(target[arrayIndex + |items|..])
    {
      if target == null {
        return Fail(ArgumentNull);
      }
      if arrayIndex < 0 {
        return Fail(ArgumentOutOfRange);
      }
      if target.Length - arrayIndex < |items| {
        return Fail(Argument);
      }
      forall i | 0 <= i < |items| {
        target[arrayIndex + i] := items[i];
      }
      r := Pass;
      assert target[..] == old(target[..arrayIndex]) + items + old(target[arrayIndex + |items|..]);
    }

    /** Remove: deletes the first occurrence only, keeping the order of the rest. */
    method Remove(item: T) returns (b: bool)
      modifies this
      ensures b <==> item in old(items)
      ensures b ==> var k := FirstIndex(old(items), item);
                    0 <= k && items == old(items)[..k] + old(items)[k + 1..]
      ensures !b ==> items == old(items)
      ensures multiset(items) == old(multiset(items)) - multiset{item}
    {
      var k := FirstIndex(items, item);
      if k == -1 {
        b := false;
      } else {
        CutMultiset(items, k);
        items := items[..k] + items[k + 1..];
        b := true;
      }
    }

    /** IndexOf: the smallest index holding the item, or -1. */
    method IndexOf(item: T) returns (i: int)
      ensures -1 <= i < |items|
      ensures i == -1 <==> item !in items
      ensures 0 <= i ==> items[i] == item && forall j :: 0 <= j < i ==> items[j] != item
    {
      i := FirstIndex(items, item);
      if 0 <= i {
        assert forall j :: 0 <= j < i ==> items[j] == items[..i][j];
      }
    }

    /** The explicit IList.Insert: List.Insert, valid for 0 <= index <= Count. */
    method Insert(index: int, item: T) returns (r: Outcome<ListError>)
      modifies this
      ensures 0 <= index <= old(|items|) ==>
                r == Pass && items == old(items)[..index] + [item] + old(items)[index..]
      ensures !(0 <= index <= old(|items|)) ==> r == Fail(ArgumentOutOfRange) && items == old(items)
      ensures r == Pass ==> multiset(items) == old(multiset(items)) + multiset{item}
    {
      if 0 <= index <= |items| {
        SpliceMultiset(items, index, item);
        items := items[..index] + [item] + items[index..];
        r := Pass;
      } else {
        r := Fail(ArgumentOutOfRange);
      }
    }

    /** RemoveAt: List.RemoveAt, valid for 0 <= index < Count. */
    method RemoveAt(index: int) returns (r: Outcome<ListError>)
      modifies this
      ensures 0 <= index < old(|items|) ==>
                r == Pass && items == old(items)[..index] + old(items)[index + 1..]
      ensures !(0 <= index < old(|items|)) ==> r == Fail(ArgumentOutOfRange) && items == old(items)
      ensures r == Pass ==> multiset(items) == old(multiset(items)) - multiset{old(items[index])}
    {
      if 0 <= index < |items| {
        CutMultiset(items, index);
        items := items[..index] + items[index + 1..];
        r := Pass;
      } else {
        r := Fail(ArgumentOutOfRange);
      }
    }
  }
}
