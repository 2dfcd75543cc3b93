/** Byte order: words in memory, and the big-endian words that cross a network. */
module Endian {
  import opened Bits

  type Octet = n: nat | n < 256

  /** The four bytes of a word, most significant first. */
  datatype Octets = Octets(b3: Octet, b2: Octet, b1: Octet, b0: Octet)

  function Compose(o: Octets): (word: nat)
    ensures word < WORD
  {
    var hi: nat := o.b3;
    ((hi * 256 + o.b2) * 256 + o.b1) * 256 + o.b0
  }

  function Decompose(word: nat): Octets
    requires word < WORD
  {
    Octets(word / 256 / 256 / 256, word / 256 / 256 % 256, word / 256 % 256, word % 256)
  }

  lemma ComposeDecompose(o: Octets)
    ensures Decompose(Compose(o)) == o
  {
    var hi: nat := o.b3;
    LowByte(hi, o.b2);
    LowByte(hi * 256 + o.b2, o.b1);
    LowByte((hi * 256 + o.b2) * 256 + o.b1, o.b0);
  }

  lemma LowByte(high: nat, low: Octet)
    ensures (high * 256 + low) / 256 == high && (high * 256 + low) % 256 == low
  {
  }

  lemma DecomposeCompose(word: nat)
    requires word < WORD
    ensures Compose(Decompose(word)) == word
  {
  }

  /** Moves the first byte of a word last, the second one third, and so on. */
  function Flip(n: nat): (r: nat)
    requires n < WORD
    ensures r < WORD
  {
    var o := Decompose(n);
    Compose(Octets(o.b0, o.b1, o.b2, o.b3))
  }

  function NativeToBig32(native: nat, nativeIsLittle: bool): (r: nat)
    requires native < WORD
    ensures r < WORD
  {
    if nativeIsLittle then Flip(native) else native
  }

  function BigToNative32(big: nat, nativeIsLittle: bool): (r: nat)
    requires big < WORD
    ensures r < WORD
  {
    if nativeIsLittle then Flip(big) else big
  }

  /** The bytes of a word in memory, lowest address first, on a machine of the given order. */
  function MemoryBytes(word: nat, nativeIsLittle: bool): (b: seq<Octet>)
    requires word < WORD
    ensures |b| == 4
  {
    var o := Decompose(word);
    if nativeIsLittle then [o.b0, o.b1, o.b2, o.b3] else [o.b3, o.b2, o.b1, o.b0]
  }

  function MemoryWord(b: seq<Octet>, nativeIsLittle: bool): (word: nat)
    requires |b| == 4
    ensures word < WORD
  {
    Compose(if nativeIsLittle then Octets(b[3], b[2], b[1], b[0]) else Octets(b[0], b[1], b[2], b[3]))
  }

  /** What a sender puts on the wire for a host-order word. */
  function WireBytes(word: nat, nativeIsLittle: bool): (b: seq<Octet>)
    requires word < WORD
    ensures |b| == 4
  {
    MemoryBytes(NativeToBig32(word, nativeIsLittle), nativeIsLittle)
  }

  /** What a receiver reads from the wire as a host-order word. */
  function WireWord(b: seq<Octet>, nativeIsLittle: bool): (word: nat)
    requires |b| == 4
    ensures word < WORD
  {
    BigToNative32(MemoryWord(b, nativeIsLittle), nativeIsLittle)
  }

  /** A word survives the wire whatever the byte orders of the two machines, and what travels
      is its most significant byte first. */
  lemma WireRoundTrip(word: nat, senderIsLittle: bool, receiverIsLittle: bool)
    requires word < WORD
    ensures var o := Decompose(word); WireBytes(word, senderIsLittle) == [o.b3, o.b2, o.b1, o.b0]
    ensures WireWord(WireBytes(word, senderIsLittle), receiverIsLittle) == word
  {
    var o := Decompose(word);
    ComposeDecompose(Octets(o.b0, o.b1, o.b2, o.b3));
    DecomposeCompose(word);
    hide Compose, Decompose;
  }
}
