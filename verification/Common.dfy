/** Small definitions shared by the models of the client library. */
module Common {

  datatype Option<+T> = None | Some(value: T)

  /** Number of values of Go's uint64. */
  const UINT64_SIZE: nat := 0x1_0000_0000_0000_0000

  /** Go's wrap-around of a non-negative sum or product stored in a uint64. */
  function Wrap64(n: nat): (r: nat)
    ensures r < UINT64_SIZE
    ensures n < UINT64_SIZE ==> r == n
  {
    n % UINT64_SIZE
  }
}
