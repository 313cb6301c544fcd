/**
 The non-volatile configuration store, seen only through what the button
 initialiser does with it: a byte-addressed image read in fixed-length chunks.
 The read primitive itself is a foreign call; here the store is the total
 function giving the byte held at every offset.
 */
module Eeprom {

  /** An unsigned 8-bit value, the type the decoder switches on. */
  newtype byte = x: int | 0 <= x < 256

  /** Contents of the store: the byte held at each offset. */
  type Store = nat -> byte

  /** Offset of the button options area (buttons.c line 60). */
  const OPTIONS_OFFSET: nat := 0x100

  /** Number of bytes each read asks for (buttons.c line 123). */
  const READ_LENGTH: nat := 8

  /** The `length` bytes starting at `offset`, as one read returns them. */
  function Read(store: Store, offset: nat, length: nat): seq<byte>
  {
    seq(length, k requires 0 <= k < length => store(offset + k))
  }
}
