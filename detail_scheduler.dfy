/** One pending entry and the ordered list of entries (detail_scheduler.go). */
module Detail {

  /** A registered entry: its key, the position it was appended at, and the
      instant (nanoseconds on one time line) it is due. The platform timer the
      source keeps beside these fields is modelled by the registry's timer map. */
  datatype DetailScheduler = DetailScheduler(key: string, idx: nat, dateTime: int)

  /** The contents of the caller's slice after `Remove(index)` as the source
      writes it: the elements after `index` are copied one place to the left in
      the shared backing array, but the shortened slice is bound only to a local
      variable, so the caller's length does not change and its last element
      now appears twice. */
  function ShiftedOut(s: seq<DetailScheduler>, index: nat): (r: seq<DetailScheduler>)
    requires index < |s|
    ensures |r| == |s|
    ensures forall j :: 0 <= j < index ==> r[j] == s[j]
    ensures forall j :: index <= j < |s| - 1 ==> r[j] == s[j + 1]
    ensures r[|s| - 1] == s[|s| - 1]
  {
    s[..index] + s[index + 1..] + [s[|s| - 1]]
  }

  /** Removing the last index changes nothing. */
  lemma ShiftedOutLastIsNoOp(s: seq<DetailScheduler>)
    requires |s| > 0
    ensures ShiftedOut(s, |s| - 1) == s
  {
  }

  /** Every element of the result was already an element of the input:
      removal never introduces an entry, it only drops or duplicates. */
  lemma ShiftedOutElements(s: seq<DetailScheduler>, index: nat)
    requires index < |s|
    ensures forall j :: 0 <= j < |s| ==> ShiftedOut(s, index)[j] in s
  {
  }

  /** The `detailSchedulers` slice, updated in place through its pointer. */
  class DetailSchedulers {
    var items: seq<DetailScheduler>

    /** The zero value: a nil slice. */
    constructor ()
      ensures items == []
    {
      items := [];
    }

    /** Appends `ds` at the end; earlier positions are untouched. */
    method Add(ds: DetailScheduler)
      modifies this
      ensures items == old(items) + [ds]
      ensures |items| == |old(items)| + 1 && items[|items| - 1] == ds
      ensures forall j :: 0 <= j < |old(items)| ==> items[j] == old(items)[j]
    {
      items := items + [ds];
    }

    /** `Remove(index)`: the copy `append` performs into the shared backing
        array, one element at a time; the length seen through the pointer stays
        the same. An index at or past the length is out of range in the source. */
    method Remove(index: nat)
      requires index < |items|
      modifies this
      ensures items == ShiftedOut(old(items), index)
    {
      var i := index;
      while i + 1 < |items|
        invariant index <= i < |items| == |old(items)|
        invariant forall j :: 0 <= j < index ==> items[j] == old(items)[j]
        invariant forall j :: index <= j < i ==> items[j] == old(items)[j + 1]
        invariant forall j :: i <= j < |items| ==> items[j] == old(items)[j]
      {
        items := items[i := items[i + 1]];
        i := i + 1;
      }
      assert items == ShiftedOut(old(items), index);
    }

    /** Writes `ds` at `index` in place; length and other positions unchanged. */
    method Replace(index: nat, ds: DetailScheduler)
      requires index < |items|
      modifies this
      ensures |items| == |old(items)| && items[index] == ds
      ensures forall j :: 0 <= j < |items| && j != index ==> items[j] == old(items)[j]
    {
      items := items[index := ds];
    }

    /** The current length of the slice. */
    function Total(): (n: nat)
      reads this
      ensures n == |items|
    {
      |items|
    }
  }
}
