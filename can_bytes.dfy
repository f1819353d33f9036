/** Shared value types: bytes as their unsigned bit pattern, and the
    Option/Result wrappers used for the source's error paths. */
module CanBytes {

  /** A C `jbyte` or a Java `byte`, held as its unsigned bit pattern. */
  type Byte = b: int | 0 <= b < 256

  /** A 32-bit signed Java or JNI `jint`. */
  type Int32 = x: int | -0x8000_0000 <= x < 0x8000_0000

  datatype Option<T> = None | Some(value: T)

  datatype Result<T, E> = Ok(value: T) | Err(error: E)

  /** `b += 1` on a signed char: the bit pattern wraps modulo 256. */
  function Inc(b: Byte): (r: Byte)
    ensures b < 255 ==> r == b + 1
    ensures b == 255 ==> r == 0
  {
    (b + 1) % 256
  }

  /** `n` successive increments of `b`. */
  function IncBy(b: Byte, n: nat): Byte
  {
    (b + n) % 256
  }
}
