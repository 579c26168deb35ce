/** C-level types, sizes and library routines shared by the demos. */
module CTypes {

  /** `uint8_t`. */
  type byte = b: int | 0 <= b < 256

  /** `UINT8_MAX`. */
  const UINT8_MAX: byte := 255

  /** `sizeof(float)` on the WebAssembly target. */
  const FLOAT_BYTES: nat := 4

  /** `memset(buffer, value, length)` over the whole buffer. */
  method Memset(buffer: array<byte>, value: byte)
    modifies buffer
    ensures forall i :: 0 <= i < buffer.Length ==> buffer[i] == value
  {
    forall i | 0 <= i < buffer.Length {
      buffer[i] := value;
    }
  }
}
