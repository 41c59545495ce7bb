/**
 * The growable array of C `int`s (arrayList.c). A list is a heap object with
 * a live-element count, a capacity and a buffer of `capacity` slots; it grows
 * by doubling when an append finds it full.
 *
 * Every public operation takes a possibly-null handle (`IntArrayList?`) and
 * reports its outcome as an explicit result code. Whether the allocator
 * succeeds is an input of the operations that allocate.
 */
module ArrayList {

  import opened ArrayListTypes

  /** SIZE_MAX on a 64-bit platform, and sizeof(int). */
  const SizeMax: nat := 0xFFFF_FFFF_FFFF_FFFF
  const IntSize: nat := 4

  /** The largest element count whose byte size `n * sizeof(int)` fits in a size_t. */
  const MaxElements: nat := SizeMax / IntSize

  /** The list structure. Its fields are private to the library. */
  class IntArrayList {
    var count: nat
    var capacity: nat
    var items: array<int32>

    /** Set by Destroy: the handle is dangling from then on. */
    ghost var freed: bool

    /**
     * The structure's invariant: 0 <= count <= capacity, the buffer holds
     * exactly `capacity` slots, and a created list never has capacity 0.
     * The last conjunct keeps buffer sizes representable in a size_t.
     */
    ghost predicate Valid()
      reads this
    {
      !freed &&
      1 <= capacity &&
      count <= capacity &&
      items.Length == capacity &&
      capacity <= MaxElements
    }

    /** The live elements, slots [0, count); slots past count are never read. */
    ghost function Contents(): (s: seq<int32>)
      reads this, items
      requires Valid()
      ensures |s| == count
    {
      items[..count]
    }

    /** A fresh, empty list over a fresh buffer of `initialCapacity` slots. */
    constructor (initialCapacity: nat)
      requires 1 <= initialCapacity <= MaxElements
      ensures Valid() && fresh(items)
      ensures count == 0 && capacity == initialCapacity
      ensures Contents() == []
    {
      items := new int32[initialCapacity];
      count := 0;
      capacity := initialCapacity;
      freed := false;
    }
  }

  /**
   * Result of an operation that produces a list. `list` is non-null exactly
   * when `error` is Ok (declared in arrayList.h next to ResultInt; it lives
   * here because it refers to the list structure).
   */
  datatype ResultList = ResultList(error: ArrayListError, list: IntArrayList?)

  /** The size-typed result the count and capacity queries were evidently meant to return. */
  datatype ResultSize = ResultSize(error: ArrayListError, value: nat)

  /** The error result: the given code and a zero value. */
  function ResultIntError(e: ArrayListError): (r: ResultInt)
    ensures r.error == e && r.value == 0
    ensures e != Ok ==> r.Payload() == None
  {
    ResultInt(e, 0)
  }

  /** The success result: the value is the payload a caller reads. */
  function ResultIntOk(v: int32): (r: ResultInt)
    ensures r.Payload() == Some(v)
  {
    ResultInt(Ok, v)
  }

  /**
   * The C conversion `(int)n` of a size_t: implementation-defined when n
   * exceeds INT_MAX; GCC and Clang reduce modulo 2^32 into the signed range.
   */
  function ToCInt(n: nat): (r: int32)
    ensures n <= IntMax ==> r as int == n
    ensures (r as int) % 0x1_0000_0000 == n % 0x1_0000_0000
  {
    var m := n % 0x1_0000_0000;
    if m <= IntMax then m as int32
    else
      assert (m - 0x1_0000_0000) % 0x1_0000_0000 == m;
      (m - 0x1_0000_0000) as int32
  }

  /** The narrowing cast loses sizes of 2^31 and above: the first of them reads as negative. */
  lemma NarrowingCastWraps()
    ensures ToCInt(0x8000_0000) as int == IntMin
    ensures ToCInt(0x8000_0000) < 0
  {
  }

  /** The capacity after one successful append to a list with `count` elements and `capacity` slots. */
  function GrownCapacity(count: nat, capacity: nat): (r: nat)
    ensures 1 <= capacity && count <= capacity ==> count < r
    ensures r == capacity || r == 2 * capacity
    ensures r != capacity ==> count >= capacity
  {
    if count >= capacity then 2 * capacity else capacity
  }

  /** The capacity after `k` successful appends to an empty list created with `initial` slots. */
  function CapacityAfter(initial: nat, k: nat): (r: nat)
    ensures initial <= r
  {
    if k == 0 then initial else GrownCapacity(k - 1, CapacityAfter(initial, k - 1))
  }

  /** `c` is `base` doubled zero or more times. */
  predicate PowerOfTwoMultiple(c: nat, base: nat)
    decreases c
  {
    c == base || (c > base && c % 2 == 0 && PowerOfTwoMultiple(c / 2, base))
  }

  /**
   * The doubling policy: after k appends to an empty list the capacity holds
   * all k elements, is the initial capacity doubled some number of times, and
   * never grew further than needed (it is the initial capacity, or less than
   * twice the element count).
   */
  lemma {:induction false} CapacityAfterBounds(initial: nat, k: nat)
    requires 1 <= initial
    ensures k <= CapacityAfter(initial, k)
    ensures PowerOfTwoMultiple(CapacityAfter(initial, k), initial)
    ensures CapacityAfter(initial, k) == initial || CapacityAfter(initial, k) < 2 * k
  {
    if k > 0 {
      CapacityAfterBounds(initial, k - 1);
      var c := CapacityAfter(initial, k - 1);
      if k - 1 >= c {
        assert c >= initial;
        assert (2 * c) / 2 == c;
      }
    }
  }

  /** The capacity `c` doubled until it holds `k` elements: the smallest c * 2^j with k <= c * 2^j. */
  function FittingCapacity(c: nat, k: nat): (r: nat)
    requires 1 <= c
    ensures c <= r && k <= r
    decreases k - c
  {
    if k <= c then c else FittingCapacity(2 * c, k)
  }

  /** Fitting to k and then to a larger k' is the same as fitting to k' directly. */
  lemma {:induction false} FittingCapacityCompose(c: nat, k: nat, k': nat)
    requires 1 <= c && k <= k'
    ensures FittingCapacity(FittingCapacity(c, k), k') == FittingCapacity(c, k')
    decreases k - c
  {
    if k > c {
      FittingCapacityCompose(2 * c, k, k');
    }
  }

  /**
   * The doubling policy in closed form: after k appends to an empty list the
   * capacity is the initial capacity doubled just often enough to hold k elements.
   */
  lemma {:induction false} CapacityAfterIsFitting(initial: nat, k: nat)
    requires 1 <= initial
    ensures CapacityAfter(initial, k) == FittingCapacity(initial, k)
  {
    if k > 0 {
      CapacityAfterIsFitting(initial, k - 1);
      FittingCapacityCompose(initial, k - 1, k);
      var c := FittingCapacity(initial, k - 1);
      if k > c {
        assert FittingCapacity(c, k) == FittingCapacity(2 * c, k) == 2 * c;
      }
    }
  }

  /** Capacity never shrinks as appends go on: later capacities are at least earlier ones. */
  lemma {:induction false} CapacityAfterMonotone(initial: nat, i: nat, j: nat)
    requires i <= j
    ensures CapacityAfter(initial, i) <= CapacityAfter(initial, j)
  {
    if i < j {
      CapacityAfterMonotone(initial, i, j - 1);
    }
  }

  /**
   * Doubles the buffer (intArrayList_increaseCapacity). The reallocation
   * either fails, leaving the list as it was, or yields a fresh buffer that
   * starts with the old buffer's slots.
   */
  method IncreaseCapacity(list: IntArrayList?, allocOk: bool) returns (r: ResultList)
    requires list != null ==> list.Valid() && 2 * list.capacity <= MaxElements
    modifies list
    ensures list == null ==> r == ResultList(Null, null)
    ensures list != null ==> list.Valid()
    ensures list != null && !allocOk ==> r == ResultList(OutOfMemory, null) && unchanged(list)
    ensures list != null && allocOk ==>
      && r == ResultList(Ok, list)
      && fresh(list.items)
      && list.capacity == 2 * old(list.capacity)
      && list.count == old(list.count)
      && list.items[..old(list.capacity)] == old(list.items[..])
      && list.Contents() == old(list.Contents())
  {
    if list == null {
      return ResultList(Null, null);
    }
    var newCapacity := list.capacity * 2;
    if !allocOk {
      return ResultList(OutOfMemory, null);
    }
    // realloc: a fresh buffer that starts with the old buffer's slots
    var newItems := new int32[newCapacity];
    var i := 0;
    while i < list.capacity
      modifies newItems
      invariant 0 <= i <= list.capacity
      invariant newItems[..i] == list.items[..i]
    {
      newItems[i] := list.items[i];
      i := i + 1;
    }
    list.items := newItems;
    list.capacity := newCapacity;
    return ResultList(Ok, list);
  }

  /**
   * intArrayList_create: capacity 0 is refused, either allocation may fail,
   * and otherwise the new list is empty with the requested capacity.
   */
  method Create(initialCapacity: nat, listAllocOk: bool, itemsAllocOk: bool) returns (r: ResultList)
    requires initialCapacity <= MaxElements
    ensures initialCapacity == 0 ==> r == ResultList(InvalidCapacity, null)
    ensures initialCapacity > 0 && !(listAllocOk && itemsAllocOk) ==> r == ResultList(OutOfMemory, null)
    ensures r.error == Ok <==> initialCapacity > 0 && listAllocOk && itemsAllocOk
    ensures r.error != Ok ==> r.list == null
    ensures r.error == Ok ==>
      && r.list != null
      && fresh(r.list) && fresh(r.list.items)
      && r.list.Valid()
      && r.list.count == 0 && r.list.capacity == initialCapacity
      && r.list.Contents() == []
  {
    if initialCapacity == 0 {
      return ResultList(InvalidCapacity, null);
    }
    if !listAllocOk {
      return ResultList(OutOfMemory, null);
    }
    if !itemsAllocOk {
      // the structure allocated first is released again: nothing leaks
      return ResultList(OutOfMemory, null);
    }
    var list := new IntArrayList(initialCapacity);
    return ResultList(Ok, list);
  }

  /** intArrayList_destroy: releases a live list; the handle is dangling afterwards. */
  method Destroy(list: IntArrayList?) returns (e: ArrayListError)
    requires list != null ==> list.Valid()
    modifies list
    ensures list == null ==> e == Null
    ensures list != null ==> e == Ok && !list.Valid()
  {
    if list == null {
      return Null;
    }
    list.freed := true;
    return Ok;
  }

  /** intArrayList_count, as written: the count passes through a narrowing `(int)` cast. */
  method Count(list: IntArrayList?) returns (r: ResultInt)
    requires list != null ==> list.Valid()
    ensures list == null ==> r == ResultInt(Null, 0)
    ensures list != null ==> r.error == Ok && r.value == ToCInt(list.count)
    ensures list != null && list.count <= IntMax ==> r.value as int == list.count
  {
    if list == null {
      return ResultIntError(Null);
    }
    return ResultIntOk(ToCInt(list.count));
  }

  /** intArrayList_capacity, as written: the capacity passes through a narrowing `(int)` cast. */
  method Capacity(list: IntArrayList?) returns (r: ResultInt)
    requires list != null ==> list.Valid()
    ensures list == null ==> r == ResultInt(Null, 0)
    ensures list != null ==> r.error == Ok && r.value == ToCInt(list.capacity)
    ensures list != null && list.capacity <= IntMax ==> r.value as int == list.capacity
  {
    if list == null {
      return ResultIntError(Null);
    }
    return ResultIntOk(ToCInt(list.capacity));
  }

  /** The element count, reported without narrowing. */
  method CountSize(list: IntArrayList?) returns (r: ResultSize)
    requires list != null ==> list.Valid()
    ensures list == null ==> r == ResultSize(Null, 0)
    ensures list != null ==> r == ResultSize(Ok, |list.Contents()|)
  {
    if list == null {
      return ResultSize(Null, 0);
    }
    return ResultSize(Ok, list.count);
  }

  /** The buffer size, reported without narrowing. */
  method CapacitySize(list: IntArrayList?) returns (r: ResultSize)
    requires list != null ==> list.Valid()
    ensures list == null ==> r == ResultSize(Null, 0)
    ensures list != null ==> r == ResultSize(Ok, list.items.Length)
    ensures list != null ==> r.value >= 1 && r.value >= |list.Contents()|
  {
    if list == null {
      return ResultSize(Null, 0);
    }
    return ResultSize(Ok, list.capacity);
  }

  /**
   * intArrayList_add: appends at the end, doubling the buffer first when it
   * is full. A failed growth leaves the list exactly as it was.
   */
  method Add(list: IntArrayList?, value: int32, growOk: bool) returns (r: ResultList)
    requires list != null ==> list.Valid()
    requires list != null && list.count >= list.capacity ==> 2 * list.capacity <= MaxElements
    modifies if list == null then {} else {list, list.items}
    ensures list == null ==> r == ResultList(Null, null)
    ensures list != null ==> list.Valid()
    ensures list != null && old(list.count) >= old(list.capacity) && !growOk ==>
      && r == ResultList(OutOfMemory, null)
      && unchanged(list) && unchanged(list.items)
    ensures list != null && (old(list.count) < old(list.capacity) || growOk) ==>
      && r == ResultList(Ok, list)
      && list.count == old(list.count) + 1
      && list.capacity == GrownCapacity(old(list.count), old(list.capacity))
      && list.Contents() == old(list.Contents()) + [value]
    ensures list != null && old(list.count) < old(list.capacity) ==> list.items == old(list.items)
    ensures list != null && old(list.count) >= old(list.capacity) && growOk ==> fresh(list.items)
  {
    if list == null {
      return ResultList(Null, null);
    }
    if list.count >= list.capacity {
      var grow := IncreaseCapacity(list, growOk);
      if grow.error != Ok {
        return grow;
      }
    }
    list.items[list.count] := value;
    list.count := list.count + 1;
    return ResultList(Ok, list);
  }

  /**
   * intArrayList_get: valid indices are exactly [0, count); capacity beyond
   * count is never a valid read target.
   */
  method Get(list: IntArrayList?, index: nat) returns (r: ResultInt)
    requires list != null ==> list.Valid()
    ensures list == null ==> r == ResultInt(Null, 0)
    ensures list != null ==> (r.error == Ok <==> index < list.count)
    ensures list != null && index >= list.count ==> r == ResultInt(OutOfBounds, 0)
    ensures list != null && index < list.count ==> r.Payload() == Some(list.Contents()[index])
  {
    if list == null {
      return ResultIntError(Null);
    }
    if index >= list.count {
      return ResultIntError(OutOfBounds);
    }
    return ResultIntOk(list.items[index]);
  }
}
