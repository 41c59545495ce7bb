/**
 * Clients of the list. AppendAll appends a whole sequence; Demo is the
 * demonstration program (main.c): create a list of capacity 4, append 2*i for
 * i in [0, 20), read every element back in order, destroy the list. Printed
 * lines become out-parameters; the exit status is returned.
 */
module ArrayListDemo {

  import opened ArrayListTypes
  import opened ArrayList

  /**
   * Appends `values` one by one to an empty list while every allocation
   * succeeds: the list then holds exactly `values`, in order, and its
   * capacity is the one the doubling policy gives after that many appends.
   */
  method AppendAll(list: IntArrayList, values: seq<int32>)
    requires list.Valid() && list.count == 0
    requires CapacityAfter(list.capacity, |values|) <= MaxElements
    modifies list, list.items
    ensures list.Valid()
    ensures list.Contents() == values
    ensures list.capacity == CapacityAfter(old(list.capacity), |values|)
  {
    ghost var initial := list.capacity;
    var i := 0;
    while i < |values|
      invariant 0 <= i <= |values|
      invariant list.Valid()
      invariant list.items == old(list.items) || fresh(list.items)
      invariant list.Contents() == values[..i]
      invariant list.capacity == CapacityAfter(initial, i)
    {
      CapacityAfterMonotone(initial, i + 1, |values|);
      var r := Add(list, values[i], true);
      assert values[..i + 1] == values[..i] + [values[i]];
      i := i + 1;
    }
    assert values[..i] == values;
  }

  /**
   * The client succeeds exactly when every allocation does. On success it
   * reads back the 20 values it appended, in order, and the buffer has been
   * doubled three times (4, 8, 16, 32).
   */
  method Demo(listAllocOk: bool, itemsAllocOk: bool, growOk: bool)
    returns (exitCode: int, countAfterAdds: nat, printed: seq<int32>, ghost finalCapacity: nat)
    ensures exitCode == 0 || exitCode == 1
    ensures exitCode == 0 <==> listAllocOk && itemsAllocOk && growOk
    ensures exitCode == 0 ==> countAfterAdds == 20 && |printed| == 20
    ensures exitCode == 0 ==> finalCapacity == 32 == CapacityAfter(4, 20)
    ensures exitCode == 0 ==> forall k :: 0 <= k < |printed| ==> printed[k] as int == 2 * k
  {
    countAfterAdds, printed, finalCapacity := 0, [], 0;
    var result := Create(4, listAllocOk, itemsAllocOk);
    if result.error != Ok {
      return 1, countAfterAdds, printed, finalCapacity;
    }
    var list := result.list;

    var countResult := Count(list);
    if countResult.error != Ok {
      // a live handle always has a count
      assert false;
    }

    var i := 0;
    while i < 20
      invariant 0 <= i <= 20
      invariant list.Valid() && fresh(list) && fresh(list.items)
      invariant list.count == i
      invariant list.capacity == if i <= 4 then 4 else if i <= 8 then 8 else if i <= 16 then 16 else 32
      invariant forall k :: 0 <= k < i ==> list.Contents()[k] as int == 2 * k
      invariant !growOk ==> i <= 4
    {
      var value := (2 * i) as int32;
      var addResult := Add(list, value, growOk);
      if addResult.error != Ok {
        var _ := Destroy(list);
        return 1, countAfterAdds, printed, finalCapacity;
      }
      i := i + 1;
    }

    // main.c reads the narrowed count without checking its error and widens it to a size_t
    var count := Count(list);
    countAfterAdds := count.value as int;
    finalCapacity := list.capacity;
    CapacityAfterIsFitting(4, 20);

    var j := 0;
    while j < countAfterAdds
      invariant 0 <= j <= countAfterAdds == 20
      invariant list.Valid() && list.count == 20
      invariant forall k :: 0 <= k < 20 ==> list.Contents()[k] as int == 2 * k
      invariant |printed| == j
      invariant forall k :: 0 <= k < j ==> printed[k] as int == 2 * k
    {
      var getResult := Get(list, j);
      if getResult.error != Ok {
        // every index below the count is readable
        assert false;
      }
      printed := printed + [getResult.value];
      j := j + 1;
    }

    var destroyError := Destroy(list);
    if destroyError != Ok {
      return 1, countAfterAdds, printed, finalCapacity;
    }
    return 0, countAfterAdds, printed, finalCapacity;
  }
}
