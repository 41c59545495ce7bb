# IntArrayList: a verified model of a growable array of C `int`s

The library keeps a list of `int`s in a heap buffer. Each list has a live
element `count` and a buffer `capacity`, with `0 <= count <= capacity`. A
created list always has `capacity >= 1`. Appending to a full list first
doubles the buffer. Every operation reports its outcome as a code from the
`ArrayListError` enumeration (`Ok`, `Null`, `OutOfMemory`, `OutOfBounds`,
`InvalidCapacity`). Nothing is thrown.

The model has three modules:

- `ArrayListTypes` (`array_list_types.dfy`) holds the header's vocabulary:
  - the error enumeration and its numeric codes;
  - C `int` as the 32-bit newtype `int32`;
  - the `ResultInt` record, with `Payload()` as the reading a caller may
    rely on (the value only when the code is `Ok`).
- `ArrayList` (`array_list.dfy`) holds the implementation:
  - the structure is the class `IntArrayList`, with fields `count`,
    `capacity` and `items: array<int32>`;
  - `Valid()` is the structure's invariant;
  - `Contents()` gives the live elements `items[..count]`;
  - every public function is a module-level method taking a nullable
    handle `IntArrayList?`, just as the C functions take a pointer that may
    be `NULL`;
  - whether `malloc` or `realloc` succeeds is a boolean input of the
    operations that allocate.
- `ArrayListDemo` (`array_list_demo.dfy`) is the demonstration client as one
  method. Its printed values and exit status are out-parameters.

The doubling policy is also stated on values. `CapacityAfter(initial, k)` is
the capacity after `k` appends to an empty list. `Add`'s postcondition takes
one step of it, through `GrownCapacity`. `CapacityAfterBounds` proves three
things about the policy:

- the buffer always holds every element;
- its size is the initial capacity doubled some number of times;
- it is the initial capacity, or less than twice the number of elements.

`CapacityAfterIsFitting` gives the same policy in closed form: the capacity is
the initial capacity doubled just often enough to hold the elements.
`AppendAll` is a client loop over `Add`. It shows that appending any sequence
of values to an empty list, with every allocation succeeding, leaves exactly
those values in order, with the capacity `CapacityAfter` predicts.

## Model

| member | source | states |
|---|---|---|
| `ArrayListTypes.Code` | computacao/codigos/arrayList/arrayList.h:10-17 | each error has a code in 0..4, and the code is 0 exactly for `Ok` |
| `ArrayListTypes.FromCode` | computacao/codigos/arrayList/arrayList.h:10-17 | decoding is defined exactly on 0..4 and inverts `Code` |
| `ArrayListTypes.CodesDistinct` | computacao/codigos/arrayList/arrayList.h:10-17 | the five codes are pairwise distinct and round-trip through `FromCode` |
| `ArrayList.ResultIntError` | computacao/codigos/arrayList/arrayList.c:18-22 | an error result carries the given code and a zero value; for any code other than `Ok` it has no payload a caller may read |
| `ArrayList.ResultIntOk` | computacao/codigos/arrayList/arrayList.c:24-28 | a success result's readable payload is exactly the given value |
| `ArrayList.IntArrayList.Valid` | computacao/codigos/arrayList/arrayList.c:4-14 | the structure's invariant: 0 <= count <= capacity, capacity >= 1, the buffer holds exactly capacity slots, the buffer's byte size fits in a size_t, and the handle has not been destroyed |
| `ArrayList.IntArrayList.Contents` | computacao/codigos/arrayList/arrayList.c:9-14 | the live elements are the buffer's first count slots; their number is count |
| `ArrayList.IntArrayList.constructor` | computacao/codigos/arrayList/arrayList.c:66-74 | a new structure is valid, owns a fresh buffer of the requested size, and is empty |
| `ArrayList.ToCInt` | computacao/codigos/arrayList/arrayList.c:94 | the `(int)` cast keeps every size up to INT_MAX and is otherwise congruent to it modulo 2^32 |
| `ArrayList.NarrowingCastWraps` | computacao/codigos/arrayList/arrayList.c:94 | the size 2^31 is reported as INT_MIN, which is negative |
| `ArrayList.GrownCapacity` | computacao/codigos/arrayList/arrayList.c:110-117 | one append either keeps or doubles the capacity, and doubles it only when the list was full. Afterwards there is always a slot at the old count |
| `ArrayList.CapacityAfter` | computacao/codigos/arrayList/arrayList.c:105-119 | the capacity after k appends to an empty list, one `GrownCapacity` step per append; it never falls below the initial capacity |
| `ArrayList.FittingCapacity` | computacao/codigos/arrayList/arrayList.c:39-50 | the closed-form policy: a capacity doubled until it holds k elements is at least the starting capacity and at least k |
| `ArrayList.CapacityAfterIsFitting` | computacao/codigos/arrayList/arrayList.c:39-50 | for every initial capacity >= 1 and every k, the step-by-step capacity equals the closed form |
| `ArrayList.CapacityAfterMonotone` | computacao/codigos/arrayList/arrayList.c:39-50 | capacity never shrinks as appends go on |
| `ArrayList.CapacityAfterBounds` | computacao/codigos/arrayList/arrayList.c:39-50 | after k appends to an empty list the capacity is at least k, is the initial capacity doubled zero or more times, and is the initial capacity or below 2k |
| `ArrayList.IncreaseCapacity` | computacao/codigos/arrayList/arrayList.c:34-53 | null handle gives `Null`. A failed reallocation gives `OutOfMemory` and leaves the list unchanged. Otherwise the buffer is fresh and twice as large, and starts with the old buffer's slots; count and contents are unchanged |
| `ArrayList.Create` | computacao/codigos/arrayList/arrayList.c:57-77 | capacity 0 gives `InvalidCapacity` and no list. A failed allocation gives `OutOfMemory` and no list. The call succeeds exactly otherwise, with a fresh valid empty list of the requested capacity |
| `ArrayList.Destroy` | computacao/codigos/arrayList/arrayList.c:79-87 | null handle gives `Null`; otherwise `Ok`, and the handle is no longer a valid list |
| `ArrayList.Count` | computacao/codigos/arrayList/arrayList.c:89-95 | null handle gives `Null` with value 0; otherwise `Ok` with the count through the `(int)` cast, which equals the count whenever the count fits in an `int` |
| `ArrayList.Capacity` | computacao/codigos/arrayList/arrayList.c:97-103 | null handle gives `Null` with value 0; otherwise `Ok` with the capacity through the `(int)` cast, which equals the capacity whenever it fits in an `int` |
| `ArrayList.CountSize` | computacao/codigos/arrayList/arrayList.h:59-62 | null handle gives `Null`; otherwise `Ok` with exactly the number of stored elements |
| `ArrayList.CapacitySize` | computacao/codigos/arrayList/arrayList.h:64-67 | null handle gives `Null`. Otherwise `Ok` with exactly the buffer's length, which is at least 1 and at least the number of stored elements |
| `ArrayList.Add` | computacao/codigos/arrayList/arrayList.c:105-119 | null handle gives `Null`. A full list whose growth fails gives `OutOfMemory`, and the structure and its buffer are unchanged. Otherwise `Ok` with the same handle: the value is appended at the old count, earlier elements are kept, count rises by one, and capacity doubles exactly when the list was full. The invariant is kept |
| `ArrayList.Get` | computacao/codigos/arrayList/arrayList.c:121-130 | null handle gives `Null`. The call succeeds exactly for indices in [0, count). An index at or past the count gives `OutOfBounds` with value 0. A valid index gives the element stored there |
| `ArrayListDemo.AppendAll` | computacao/codigos/arrayList/arrayList.h:69-73 | appending any sequence of values to an empty list, with every allocation succeeding, leaves exactly those values in order. The capacity is then `CapacityAfter` of the initial capacity and the number of values |
| `ArrayListDemo.Demo` | computacao/codigos/arrayList/main.c:4-53 | the client exits with 0 exactly when every allocation succeeds. It then counts 20 elements (through the narrowing count query, as main.c does) and reads back 2*k at each index k in order. The capacity has grown 4, 8, 16, 32, which is `CapacityAfter(4, 20)` |

## Left out

- The real `malloc`, `realloc` and `free` are not modelled.
  - Each allocation's outcome is a boolean input.
  - A successful `realloc` is modelled as a fresh array and a copy of the old slots. The model does not capture in-place extension, nor that the old pointer becomes invalid.
  - Freeing the structure in `Create` after a failed buffer allocation leaves no trace in the model.
- `Destroy` does not release memory. It marks the handle dangling, and every operation then requires a valid handle. Use after destroy and a second destroy are the caller's responsibility in the header (arrayList.h:53-57). They are outside every contract here, not checked behaviour.
- `Create` requires `initialCapacity <= MaxElements`, that is, `initialCapacity * sizeof(int)` fits in a 64-bit `size_t`. Above that, the C multiplication wraps and allocates too small a buffer.
- `Add` and `IncreaseCapacity` require that a doubled buffer's byte size fits in a `size_t` when growth is due. Past that bound, `capacity * 2` and `new_capacity * sizeof` wrap (arrayList.c:39-40).
- The `size_t` parameter of `Get` is modelled as an unbounded `nat`.
- `Demo` models `printf` output only as the out-parameters `countAfterAdds` and `printed`. The "Initial count" line is not recorded.
- `Demo` uses one allocation outcome for all three growth steps of its run.
- `AppendAll` is a client loop. It states the all-inputs append property for runs in which every allocation succeeds. Runs with a failed growth are covered one call at a time by `Add`'s postcondition.
- Growth is tested as `count >= capacity` (arrayList.c:110). Under the invariant this fires exactly when `count == capacity`.
- arrayList.c keeps `count` and `capacity` as `size_t` but returns them through `(int)` casts (arrayList.c:94, 102). `Count` and `Capacity` follow the code; `CountSize` and `CapacitySize` give the size-typed reading (see Findings).

## Findings

| source | as written | input that shows it | evidently intended | confidence | as-written member | corrected member |
|---|---|---|---|---|---|---|
| computacao/codigos/arrayList/arrayList.c:94 | the count is returned as `(int)list->count` inside a `ResultInt` | a list holding 2^31 elements (an 8 GiB buffer) reports count -2^31 | report the count as a size; main.c:33 stores the result in a `size_t` | medium, not executed | `ArrayList.Count` with `ArrayList.NarrowingCastWraps` | `ArrayList.CountSize` |
| computacao/codigos/arrayList/arrayList.c:102 | the capacity is returned as `(int)list->capacity` inside a `ResultInt` | a list whose capacity has doubled to 2^31 reports capacity -2^31 | report the capacity as a size | medium, not executed | `ArrayList.Capacity` with `ArrayList.NarrowingCastWraps` | `ArrayList.CapacitySize` |
