/** Vocabulary shared by the model: ack ids, time and the constants of the subscriber side. */
module Types {

  type AckId = string

  /** A point in time or a duration, in whole milliseconds of one monotone clock. */
  type Time = int

  datatype Option<+T> = None | Some(value: T)

  datatype Action = Ack | Nack

  const MIN_ACK_DEADLINE: Time := 10_000
  const MAX_ACK_DEADLINE: Time := 600_000

  /** A lease with at most this much time left is extended by the next pass. */
  const GRACE: Time := MIN_ACK_DEADLINE / 2

  /** "Run again at once" as the result of a pass. */
  const SO_MANY: Time := 1_000_000_000

  const MAX_PAYLOAD: nat := 512 * 1024
  const REQ_FIXED_OVERHEAD: nat := 100
  const OVERHEAD_PER_ID: nat := 3

  ghost predicate Distinct<T>(s: seq<T>) {
    forall i, j :: 0 <= i < j < |s| ==> s[i] != s[j]
  }

  function Elements<T(==)>(s: seq<T>): set<T> {
    set x | x in s
  }

  // ----- Products of reals, one step away from the non-linear arithmetic -------------------------

  function Product(x: real, y: real): real {
    x * y
  }

  lemma ProductPositive(x: real, y: real)
    ensures 0.0 <= x && 0.0 <= y ==> 0.0 <= Product(x, y)
    ensures 0.0 < x && 0.0 < y ==> 0.0 < Product(x, y)
    ensures Product(0.0, y) == 0.0 && Product(1.0, y) == y
  {
  }

  lemma ProductOrdered(x: real, y: real, z: real)
    requires x <= y && 0.0 <= z
    ensures Product(x, z) <= Product(y, z) && Product(z, x) <= Product(z, y)
  {
    ProductPositive(y - x, z);
    assert Product(y - x, z) == y * z - x * z;
  }
}
