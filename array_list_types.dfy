/**
 * The public vocabulary of the integer array list (arrayList.h): the error
 * codes every operation reports, the C `int` the list stores, and the
 * result record for operations that produce an integer.
 */
module ArrayListTypes {

  datatype Option<+T> = None | Some(value: T)

  /** C `int` on the platforms the library targets: 32-bit two's complement. */
  const IntMin: int := -0x8000_0000
  const IntMax: int := 0x7FFF_FFFF

  newtype int32 = x: int | -0x8000_0000 <= x < 0x8000_0000

  /**
   * The flat error taxonomy. Every operation returns one of these; there is
   * no other error channel.
   */
  datatype ArrayListError =
    | Ok
    | Null
    | OutOfMemory
    | OutOfBounds
    | InvalidCapacity

  /** The numeric value the C enumeration gives each error (0 through 4, in declaration order). */
  function Code(e: ArrayListError): (c: int)
    ensures 0 <= c < 5
    ensures c == 0 <==> e == Ok
  {
    match e
    case Ok => 0
    case Null => 1
    case OutOfMemory => 2
    case OutOfBounds => 3
    case InvalidCapacity => 4
  }

  /** The error a numeric code stands for, if any: the inverse of Code. */
  function FromCode(c: int): (r: Option<ArrayListError>)
    ensures r.Some? <==> 0 <= c < 5
    ensures r.Some? ==> Code(r.value) == c
  {
    if c == 0 then Some(Ok)
    else if c == 1 then Some(Null)
    else if c == 2 then Some(OutOfMemory)
    else if c == 3 then Some(OutOfBounds)
    else if c == 4 then Some(InvalidCapacity)
    else None
  }

  /** The five codes are pairwise distinct, and decoding a code gives back its error. */
  lemma CodesDistinct(a: ArrayListError, b: ArrayListError)
    ensures Code(a) == Code(b) ==> a == b
    ensures FromCode(Code(a)) == Some(a)
  {
  }

  /**
   * Result of an operation that produces an integer. `value` is meaningful
   * only when `error` is Ok.
   */
  datatype ResultInt = ResultInt(error: ArrayListError, value: int32) {

    /** The value a caller may rely on: present exactly when the operation succeeded. */
    function Payload(): Option<int32>
    {
      if error == Ok then Some(value) else None
    }
  }
}
