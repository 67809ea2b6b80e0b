/** Small shared vocabulary: bytes and the Option/Result wrappers the Rust code uses. */
module Base {

  /** An unsigned 8-bit value, Rust's `u8`. */
  type byte = bv8

  datatype Option<T> = None | Some(value: T)

  /** Rust's `Result<T, E>`: the `?` operator becomes an early `Err` return. */
  datatype Result<T, E> = Ok(value: T) | Err(error: E)

  /** `vec![0u8; n]`. */
  function Zeros(n: nat): (z: seq<byte>)
    ensures |z| == n && forall i :: 0 <= i < n ==> z[i] == 0
  {
    seq(n, _ => 0)
  }
}
