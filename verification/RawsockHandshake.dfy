/** Bit fields of the handshake words. */
module RawsockHandshake {
  import opened Bits

  /** Length limits are the codes 0 (512 bytes) to 15 (16 megabytes). */
  type LengthCode = n: nat | n < 16

  const MAGIC: nat := 0x7f00_0000
  const UNSUPPORTED_FORMAT: nat := 0x7f10_0000
  const UNACCEPTABLE_LENGTH: nat := 0x7f20_0000
  const RESERVED_BITS_USED: nat := 0x7f30_0000
  const MAX_CONNECTIONS: nat := 0x7f40_0000

  // Error numbers; values below 16 can come out of the error field of a handshake.
  const BAD_SERIALIZER: nat := 1
  const BAD_MAX_LENGTH: nat := 2
  const RESERVED_BITS_ERROR: nat := 3
  const MAX_CONNECTIONS_REACHED: nat := 4
  const BAD_HANDSHAKE: nat := 16

  function ByteLengthOf(len: LengthCode): nat
  {
    Pow2(len + 9)
  }

  function ReservedField(hs: nat): nat { hs % 0x1_0000 }

  function CodecField(hs: nat): nat { hs / 0x1_0000 % 16 }

  /** The length field, which doubles as the error field. */
  function LengthField(hs: nat): LengthCode { hs / 0x10_0000 % 16 }

  predicate HasMagicOctet(hs: nat) { hs / 0x100_0000 == 0x7f }

  predicate HasError(hs: nat) { CodecField(hs) == 0 }

  function HandshakeWord(codecId: nat, maxRxLength: LengthCode): (hs: nat)
    ensures hs < WORD
  {
    PutBits(PutBits(MAGIC, codecId, 16), maxRxLength, 20)
  }

  /** All fields can be read back exactly when the codec id fits in its four bits. */
  lemma HandshakeFields(codecId: nat, maxRxLength: LengthCode)
    ensures var hs := HandshakeWord(codecId, maxRxLength);
            HasMagicOctet(hs) && ReservedField(hs) == 0 && CodecField(hs) == codecId && LengthField(hs) == maxRxLength
            <==> codecId < 16
  {
    hide PutBits, Pow2;
    if codecId < 16 {
      PowersOfTwo();
      PutsField(MAGIC, 0x7f0, 0, codecId, 16, 4);
      PutsField(MAGIC + codecId * 0x1_0000, 0x7f, codecId * 0x1_0000, maxRxLength, 20, 4);
    }
  }

  predicate IsErrorWord(hs: nat, error: nat)
  {
    HasMagicOctet(hs) && ReservedField(hs) == 0 && HasError(hs) && LengthField(hs) == error
  }

  lemma ErrorWordFields()
    ensures IsErrorWord(UNSUPPORTED_FORMAT, BAD_SERIALIZER) && IsErrorWord(UNACCEPTABLE_LENGTH, BAD_MAX_LENGTH)
    ensures IsErrorWord(RESERVED_BITS_USED, RESERVED_BITS_ERROR)
    ensures IsErrorWord(MAX_CONNECTIONS, MAX_CONNECTIONS_REACHED)
  {
  }
}
