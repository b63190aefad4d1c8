/** Small shared datatypes and sequence facts. */
module Prelude {

  datatype Option<+T> = None | Some(value: T)

  datatype Result<+T, +E> = Ok(value: T) | Err(error: E)

  /** A 128-bit identifier (request, session, process, integration ...). */
  type Uuid = u: nat | u < UUID_SIZE

  const UUID_SIZE: nat := 0x1_0000_0000_0000_0000_0000_0000_0000_0000

  const U64_SIZE: nat := 0x1_0000_0000_0000_0000

  type U64 = u: nat | u < U64_SIZE

  function Max(x: int, y: int): int { if x < y then y else x }

  ghost predicate IsSuffix<T>(end: seq<T>, whole: seq<T>) { |end| <= |whole| && end == whole[|whole| - |end|..] }

  function Flatten<T>(parts: seq<seq<T>>): (whole: seq<T>)
  {
    if parts == [] then [] else parts[0] + Flatten(parts[1..])
  }

  lemma {:induction false} FlattenAppend<T>(parts: seq<seq<T>>, last: seq<T>)
    ensures Flatten(parts + [last]) == Flatten(parts) + last
  {
    if parts == [] {
      assert parts + [last] == [last] && [last][1..] == [];
    } else {
      FlattenAppend(parts[1..], last);
      assert (parts + [last])[1..] == parts[1..] + [last];
    }
  }
}
