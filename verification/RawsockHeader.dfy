/** Bit fields of the 32-bit header in front of each raw socket frame. */
module RawsockHeader {
  import opened Bits

  datatype MsgType = Wamp | Ping | Pong

  function Code(t: MsgType): (c: nat)
    ensures c < 3
  {
    match t
    case Wamp => 0
    case Ping => 1
    case Pong => 2
  }

  /** The type field as stored; only 0, 1 and 2 are valid. */
  function MsgTypeField(hdr: nat): nat
  {
    hdr / 0x100_0000
  }

  function LengthField(hdr: nat): nat
  {
    hdr % 0x100_0000
  }

  /** A header under construction: fields are ORed in, and nothing masks them. */
  class Header {
    var hdr: nat

    constructor ()
      ensures hdr == 0
    {
      hdr := 0;
    }

    method Put(value: nat, pos: nat)
      requires hdr < WORD
      modifies this
      ensures hdr == PutBits(old(hdr), value, pos)
    {
      hdr := PutBits(hdr, value, pos);
    }
  }

  function HeaderWord(t: MsgType, length: nat): (hdr: nat)
    ensures hdr < WORD
  {
    PutBits(PutBits(0, Code(t), 24), length, 0)
  }

  method ComputeHeader(t: MsgType, length: nat) returns (hdr: nat)
    ensures hdr == HeaderWord(t, length)
  {
    var h := new Header();
    h.Put(Code(t), 24);
    h.Put(length, 0);
    hdr := h.hdr;
  }

  lemma Pow2Zero()
    ensures Pow2(0) == 1
  {
  }

  /** What a header built from any length reads back as: the length loses all but its low 24
      bits, and the next eight are ORed into the type. */
  lemma HeaderFields(t: MsgType, length: nat)
    ensures LengthField(HeaderWord(t, length)) == length % 0x100_0000
    ensures MsgTypeField(HeaderWord(t, length)) == BitOr(Code(t), length % WORD / 0x100_0000)
  {
    hide Pow2, BitOr, PutBits;
    PowersOfTwo();
    PutsField(0, 0, 0, Code(t), 24, 8);
    PutAtZero(Code(t) * 0x100_0000, length);
    var high, low := length % WORD / 0x100_0000, length % WORD % 0x100_0000;
    OrSplits(Code(t), high, 0, low, 24);
    OrZero(low);
    assert length % WORD == high * 0x100_0000 + low && low == length % 0x100_0000;
  }

  lemma PutAtZero(word: nat, value: nat)
    requires word < WORD
    ensures PutBits(word, value, 0) == BitOr(word, value % WORD)
  {
    Pow2Zero();
    hide BitOr;
  }

  /** Both fields can be read back exactly when the length fits in 24 bits; a frame of 2^24
      bytes, which the largest length limit admits, does not. */
  lemma HeaderIsFaithful(t: MsgType, length: nat)
    ensures MsgTypeField(HeaderWord(t, length)) == Code(t) && LengthField(HeaderWord(t, length)) == length
       <==> length < 0x100_0000
  {
    HeaderFields(t, length);
    OrZero(Code(t));
    hide HeaderWord, BitOr;
  }

  /** The header of a frame of exactly 2^24 bytes is that of an empty ping, or, for a pong, one
      of no known type. */
  lemma TooLongHeader(t: MsgType)
    ensures LengthField(HeaderWord(t, 0x100_0000)) == 0
    ensures MsgTypeField(HeaderWord(t, 0x100_0000)) == if t == Pong then 3 else Code(Ping)
  {
    HeaderFields(t, 0x100_0000);
    hide HeaderWord;
    assert BitOr(0, 1) == 1 && BitOr(1, 1) == 1 && BitOr(2, 1) == 3;
  }
}
