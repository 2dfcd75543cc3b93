/** The hand-written Base64 codec: both directions are loops over bytes with shifts and
    masks, and the decoder appends to its output as it goes, even when it later fails. */
module Base64 {

  type Byte = bv8

  datatype DecodingErrc = Success | BadBase64Length | BadBase64Padding | BadBase64Char

  datatype SextetResult = Sextet(value: Byte) | BadSextet(error: DecodingErrc)

  datatype TripletResult = Triplet(bytes: seq<Byte>) | BadTriplet(error: DecodingErrc)

  /** What a call of decode leaves behind: the bytes appended to the output and the error code. */
  datatype Decoding = Decoding(bytes: seq<Byte>, ec: DecodingErrc)

  const PAD: Byte := 61

  /** The byte container the codec appends to. */
  class ByteContainer {
    var contents: seq<Byte>

    constructor ()
      ensures contents == []
    {
      contents := [];
    }

    method Append(bytes: seq<Byte>)
      modifies this
      ensures contents == old(contents) + bytes
    {
      contents := contents + bytes;
    }
  }

  lemma ConcatAssociates(a: seq<Byte>, b: seq<Byte>, c: seq<Byte>)
    ensures (a + b) + c == a + (b + c)
  {
  }

  // ----- Tables ---------------------------------------------------------------------------

  /** The alphabet table: A-Z, a-z, 0-9, '+', '/'. */
  function CharFromSextet(sextet: Byte): Byte
    requires sextet < 64
  {
    if sextet < 26 then sextet + 65
    else if sextet < 52 then sextet + 71
    else if sextet < 62 then sextet - 4
    else if sextet == 62 then 43
    else 47
  }

  /** The 256-entry reverse table, in which the pad character maps to zero. */
  function SextetFromChar(c: Byte, padAllowed: bool): SextetResult
  {
    if !padAllowed && c == PAD then BadSextet(BadBase64Padding)
    else if c == 43 then Sextet(62)
    else if c == 47 then Sextet(63)
    else if 48 <= c <= 57 then Sextet(c + 4)
    else if c == PAD then Sextet(0)
    else if 65 <= c <= 90 then Sextet(c - 65)
    else if 97 <= c <= 122 then Sextet(c - 71)
    else BadSextet(BadBase64Char)
  }

  predicate InAlphabet(c: Byte)
  {
    65 <= c <= 90 || 97 <= c <= 122 || 48 <= c <= 57 || c == 43 || c == 47
  }

  lemma SextetCharInverse(sextet: Byte)
    requires sextet < 64
    ensures InAlphabet(CharFromSextet(sextet))
    ensures forall padAllowed :: SextetFromChar(CharFromSextet(sextet), padAllowed) == Sextet(sextet)
  {
  }

  lemma CharSextetInverse(c: Byte, padAllowed: bool)
    ensures InAlphabet(c) ==>
              var r := SextetFromChar(c, padAllowed);
              r.Sextet? && r.value < 64 && CharFromSextet(r.value) == c
    ensures SextetFromChar(c, padAllowed).Sextet? <==> InAlphabet(c) || (padAllowed && c == PAD)
  {
  }

  const UPPER: string := "ABCDEFGHIJKLMNOPQRSTUVWXYZ"
  const LOWER: string := "abcdefghijklmnopqrstuvwxyz"
  const DIGITS: string := "0123456789"

  /** The alphabet of RFC 4648, section 4. */
  const ALPHABET: string := UPPER + LOWER + DIGITS + "+/"

  lemma UpperRun(i: nat)
    requires i < 26
    ensures |UPPER| == 26 && UPPER[i] as int == i + 65
  {
  }

  lemma LowerRun(i: nat)
    requires i < 26
    ensures |LOWER| == 26 && LOWER[i] as int == i + 97
  {
  }

  lemma DigitsRun(i: nat)
    requires i < 10
    ensures |DIGITS| == 10 && DIGITS[i] as int == i + 48
  {
  }

  lemma AlphabetRuns(i: nat)
    requires i < 64
    ensures |ALPHABET| == 64
    ensures ALPHABET[i] as int == if i < 26 then i + 65 else if i < 52 then i + 71 else if i < 62 then i - 4
                                  else if i == 62 then 43 else 47
  {
    UpperRun(if i < 26 then i else 0);
    LowerRun(if 26 <= i < 52 then i - 26 else 0);
    DigitsRun(if 52 <= i < 62 then i - 52 else 0);
    hide UPPER, LOWER, DIGITS;
  }

  /** The character of each sextet is the one at that position of the alphabet. */
  lemma CharIsAlphabetAt(sextet: Byte)
    requires sextet < 64
    ensures |ALPHABET| == 64 && CharFromSextet(sextet) as int == ALPHABET[sextet as nat] as int
  {
    AlphabetRuns(sextet as nat);
  }

  lemma SameByte(a: Byte, b: Byte)
    requires a as int == b as int
    ensures a == b
  {
  }

  lemma PositionIsSextet(c: Byte, padAllowed: bool, sextet: Byte)
    requires sextet < 64 && |ALPHABET| == 64 && ALPHABET[sextet as nat] as int == c as int
    ensures SextetFromChar(c, padAllowed) == Sextet(sextet) && InAlphabet(c)
  {
    hide ALPHABET, CharFromSextet, SextetFromChar, InAlphabet;
    CharIsAlphabetAt(sextet);
    SameByte(CharFromSextet(sextet), c);
    SextetCharInverse(sextet);
  }

  lemma BadSextetErrors(c: Byte, padAllowed: bool)
    ensures var r := SextetFromChar(c, padAllowed);
            && (c == PAD ==> r == if padAllowed then Sextet(0) else BadSextet(BadBase64Padding))
            && (r.BadSextet? && c != PAD ==> r.error == BadBase64Char)
  {
  }

  /** The sextet of each character is its position in the alphabet; a pad, where it is allowed,
      has the sextet zero, and each other character has its error. */
  lemma SextetIsAlphabetPosition(c: Byte, padAllowed: bool)
    ensures var r := SextetFromChar(c, padAllowed);
            && |ALPHABET| == 64
            && (r.Sextet? && c != PAD ==> r.value < 64 && ALPHABET[r.value as nat] as int == c as int)
            && (forall sextet: Byte ::
                  sextet < 64 && ALPHABET[sextet as nat] as int == c as int ==> r == Sextet(sextet))
            && (c == PAD ==> r == if padAllowed then Sextet(0) else BadSextet(BadBase64Padding))
            && (r.BadSextet? && c != PAD ==> r.error == BadBase64Char)
  {
    AlphabetRuns(0);
    BadSextetErrors(c, padAllowed);
    CharSextetInverse(c, padAllowed);
    hide ALPHABET, CharFromSextet, SextetFromChar, InAlphabet;
    forall sextet: Byte | sextet < 64 && ALPHABET[sextet as nat] as int == c as int
      ensures SextetFromChar(c, padAllowed) == Sextet(sextet) {
      PositionIsSextet(c, padAllowed, sextet);
    }
    if InAlphabet(c) {
      CharIsAlphabetAt(SextetFromChar(c, padAllowed).value);
    }
  }

  // ----- Encoding -------------------------------------------------------------------------

  // The parts of bytes that make up sextets.

  function First(b: Byte): (s: Byte) ensures s < 64 { (b >> 2) & 0x3f }

  function SecondHigh(b: Byte): (s: Byte) ensures s < 64 { (b << 4) & 0x30 }

  function SecondLow(b: Byte): (s: Byte) ensures s < 64 { (b >> 4) & 0x0f }

  function ThirdHigh(b: Byte): (s: Byte) ensures s < 64 { (b << 2) & 0x3c }

  function ThirdLow(b: Byte): (s: Byte) ensures s < 64 { (b >> 6) & 0x03 }

  function Fourth(b: Byte): (s: Byte) ensures s < 64 { b & 0x3f }

  function Join(high: Byte, low: Byte): (s: Byte)
    requires high < 64 && low < 64
    ensures s < 64
  {
    high | low
  }

  /** The four sextets of three bytes, most significant first. */
  function Sextets(b0: Byte, b1: Byte, b2: Byte): (s: seq<Byte>)
    ensures |s| == 4 && forall i :: 0 <= i < 4 ==> s[i] < 64
  {
    [First(b0), Join(SecondHigh(b0), SecondLow(b1)), Join(ThirdHigh(b1), ThirdLow(b2)), Fourth(b2)]
  }

  /** The quad that stands for one to three bytes: missing bytes count as zero, and a sextet
      that holds none of the bytes is written as a pad. */
  function Quad(b: seq<Byte>): (q: seq<Byte>)
    requires 1 <= |b| <= 3
    ensures |q| == 4
  {
    var s := Sextets(b[0], if |b| > 1 then b[1] else 0, if |b| > 2 then b[2] else 0);
    [CharFromSextet(s[0]),
     CharFromSextet(s[1]),
     if |b| > 1 then CharFromSextet(s[2]) else PAD,
     if |b| > 2 then CharFromSextet(s[3]) else PAD]
  }

  function Encoded(b: seq<Byte>): (s: seq<Byte>)
  {
    if b == [] then []
    else if |b| <= 3 then Quad(b)
    else Quad(b[..3]) + Encoded(b[3..])
  }

  lemma NothingJoined(b: Byte)
    ensures Join(SecondHigh(b), SecondLow(0)) == SecondHigh(b) && Join(ThirdHigh(b), ThirdLow(0)) == ThirdHigh(b)
  {
  }

  lemma QuadOfOne(b: seq<Byte>)
    requires |b| == 1
    ensures Quad(b) == [CharFromSextet(First(b[0])), CharFromSextet(SecondHigh(b[0])), PAD, PAD]
  {
    NothingJoined(b[0]);
  }

  lemma QuadOfTwo(b: seq<Byte>)
    requires |b| == 2
    ensures Quad(b) == [CharFromSextet(First(b[0])), CharFromSextet(Join(SecondHigh(b[0]), SecondLow(b[1]))),
                        CharFromSextet(ThirdHigh(b[1])), PAD]
  {
    NothingJoined(b[1]);
  }

  lemma QuadOfThree(b: seq<Byte>)
    requires |b| == 3
    ensures Quad(b) == [CharFromSextet(First(b[0])), CharFromSextet(Join(SecondHigh(b[0]), SecondLow(b[1]))),
                        CharFromSextet(Join(ThirdHigh(b[1]), ThirdLow(b[2]))), CharFromSextet(Fourth(b[2]))]
  {
  }

  lemma EncodedStep(data: seq<Byte>, start: nat, end: nat, written: seq<Byte>)
    requires start < end <= |data| && end - start <= 3
    requires end - start == 3 || end == |data|
    ensures written + Encoded(data[start..]) == (written + Quad(data[start..end])) + Encoded(data[end..])
  {
    hide Quad;
    var b, n := data[start..], end - start;
    assert b[..n] == data[start..end] && b[n..] == data[end..];
    if end == |data| {
      assert b == data[start..end] && data[end..] == [];
    }
    assert Encoded(b) == Quad(b[..n]) + Encoded(b[n..]);
    ConcatAssociates(written, Quad(b[..n]), Encoded(b[n..]));
  }

  lemma EncodedEnd(data: seq<Byte>)
    ensures Encoded(data[|data|..]) == []
  {
  }

  /** One turn of the encoding loop: reads the next one to three bytes and fills a quad. */
  method FillQuad(data: seq<Byte>, start: nat) returns (quad: seq<Byte>, i: nat)
    requires start < |data|
    ensures start < i <= |data| && i - start <= 3 && (i - start == 3 || i == |data|)
    ensures quad == Quad(data[start..i])
  {
    hide CharFromSextet, First, SecondHigh, SecondLow, ThirdHigh, ThirdLow, Fourth, Join, Quad;
    i := start;
    var q0 := CharFromSextet(First(data[i]));
    var sextet := SecondHigh(data[i]);
    i := i + 1;
    if i == |data| {
      quad := [q0, CharFromSextet(sextet), PAD, PAD];
      QuadOfOne(data[start..i]);
      return;
    }
    sextet := Join(sextet, SecondLow(data[i]));
    var q1 := CharFromSextet(sextet);
    sextet := ThirdHigh(data[i]);
    i := i + 1;
    if i == |data| {
      quad := [q0, q1, CharFromSextet(sextet), PAD];
      QuadOfTwo(data[start..i]);
      return;
    }
    sextet := Join(sextet, ThirdLow(data[i]));
    quad := [q0, q1, CharFromSextet(sextet), CharFromSextet(Fourth(data[i]))];
    i := i + 1;
    QuadOfThree(data[start..i]);
  }

  method Encode(data: seq<Byte>, sink: ByteContainer)
    modifies sink
    ensures sink.contents == old(sink.contents) + Encoded(data)
  {
    hide Quad, Encoded;
    var i := 0;
    while i != |data|
      invariant 0 <= i <= |data|
      invariant sink.contents + Encoded(data[i..]) == old(sink.contents) + Encoded(data)
      decreases |data| - i
    {
      ghost var before := sink.contents;
      var quad, next := FillQuad(data, i);
      sink.Append(quad);
      EncodedStep(data, i, next, before);
      i := next;
    }
    EncodedEnd(data);
  }

  // ----- Decoding -------------------------------------------------------------------------

  function SextetTriplet(s0: Byte, s1: Byte, s2: Byte, s3: Byte): (t: seq<Byte>)
    ensures |t| == 3
  {
    [((s0 << 2) & 0xfc) | ((s1 >> 4) & 0x03),
     ((s1 << 4) & 0xf0) | ((s2 >> 2) & 0x0f),
     ((s2 << 6) & 0xc0) | (s3 & 0x3f)]
  }

  /** The first character that has no sextet decides the error. */
  function QuadTriplet(quad: seq<Byte>, padAllowed: bool): (r: TripletResult)
    requires |quad| == 4
    ensures r.Triplet? ==> |r.bytes| == 3
  {
    var s0 := SextetFromChar(quad[0], padAllowed);
    var s1 := SextetFromChar(quad[1], padAllowed);
    var s2 := SextetFromChar(quad[2], padAllowed);
    var s3 := SextetFromChar(quad[3], padAllowed);
    if s0.BadSextet? then BadTriplet(s0.error)
    else if s1.BadSextet? then BadTriplet(s1.error)
    else if s2.BadSextet? then BadTriplet(s2.error)
    else if s3.BadSextet? then BadTriplet(s3.error)
    else Triplet(SextetTriplet(s0.value, s1.value, s2.value, s3.value))
  }

  method TripletFromQuad(quad: seq<Byte>, padAllowed: bool) returns (r: TripletResult)
    requires |quad| == 4
    ensures r == QuadTriplet(quad, padAllowed)
  {
    var sextet: seq<Byte> := [];
    for i := 0 to 4
      invariant |sextet| == i
      invariant forall k :: 0 <= k < i ==> SextetFromChar(quad[k], padAllowed) == Sextet(sextet[k])
    {
      var s := SextetFromChar(quad[i], padAllowed);
      if s.BadSextet? {
        return BadTriplet(s.error);
      }
      sextet := sextet + [s.value];
    }
    r := Triplet(SextetTriplet(sextet[0], sextet[1], sextet[2], sextet[3]));
  }

  /** Decoding of a non-empty text of whole quads; only the last one may be padded. */
  function DecodedQuads(s: seq<Byte>): (r: Decoding)
    requires |s| % 4 == 0 && |s| > 0
  {
    if |s| == 4 then
      var t := QuadTriplet(s, true);
      if t.BadTriplet? then Decoding([], t.error)
      else if s[0] == PAD || s[1] == PAD then Decoding([], BadBase64Padding)
      else if s[2] == PAD then
        if s[3] != PAD then Decoding([], BadBase64Padding) else Decoding(t.bytes[..1], Success)
      else Decoding(t.bytes[..if s[3] == PAD then 2 else 3], Success)
    else
      var t := QuadTriplet(s[..4], false);
      if t.BadTriplet? then Decoding([], t.error)
      else
        var rest := DecodedQuads(s[4..]);
        Decoding(t.bytes + rest.bytes, rest.ec)
  }

  function Decoded(s: seq<Byte>): (r: Decoding)
  {
    if s == [] then Decoding([], Success)
    else if |s| % 4 != 0 then Decoding([], BadBase64Length)
    else DecodedQuads(s)
  }

  method Decode(s: seq<Byte>, output: ByteContainer) returns (ec: DecodingErrc)
    modifies output
    ensures ec == Decoded(s).ec
    ensures output.contents == old(output.contents) + Decoded(s).bytes
  {
    hide QuadTriplet;
    if |s| == 0 {
      return Success;
    }
    if |s| % 4 != 0 {
      return BadBase64Length;
    }
    var i := 0;
    while i < |s| - 4
      invariant 0 <= i <= |s| - 4 && i % 4 == 0
      invariant DecodedQuads(s[i..]).ec == DecodedQuads(s).ec
      invariant output.contents + DecodedQuads(s[i..]).bytes == old(output.contents) + DecodedQuads(s).bytes
    {
      assert s[i..][..4] == s[i..i + 4] && s[i..][4..] == s[i + 4..];
      var triplet := TripletFromQuad(s[i..i + 4], false);
      if triplet.BadTriplet? {
        return triplet.error;
      }
      ghost var before := output.contents;
      output.Append(triplet.bytes);
      ConcatAssociates(before, triplet.bytes, DecodedQuads(s[i + 4..]).bytes);
      i := i + 4;
    }
    var quad := s[i..];
    var triplet := TripletFromQuad(quad, true);
    if triplet.BadTriplet? {
      return triplet.error;
    }
    if quad[0] == PAD || quad[1] == PAD {
      return BadBase64Padding;
    }
    var lastTripletCount := 1;
    if quad[2] == PAD {
      if quad[3] != PAD {
        return BadBase64Padding;
      }
    } else {
      lastTripletCount := if quad[3] == PAD then 2 else 3;
    }
    output.Append(triplet.bytes[..lastTripletCount]);
    return Success;
  }

  // ----- Round trip -----------------------------------------------------------------------

  lemma SextetsTriplet(b0: Byte, b1: Byte, b2: Byte)
    ensures var s := Sextets(b0, b1, b2); SextetTriplet(s[0], s[1], s[2], s[3]) == [b0, b1, b2]
  {
  }

  lemma QuadRoundTrip(b: seq<Byte>)
    requires 1 <= |b| <= 3
    ensures DecodedQuads(Quad(b)) == Decoding(b, Success)
    ensures |b| == 3 ==> QuadTriplet(Quad(b), false) == Triplet(b)
  {
    var b1 := if |b| > 1 then b[1] else 0;
    var b2 := if |b| > 2 then b[2] else 0;
    var s := Sextets(b[0], b1, b2);
    SextetsTriplet(b[0], b1, b2);
    SextetCharInverse(s[0]);
    SextetCharInverse(s[1]);
    SextetCharInverse(s[2]);
    SextetCharInverse(s[3]);
    PadHasSextetZero();
    LastSextetsZero(b[0], b1);
    hide CharFromSextet, SextetFromChar, Sextets, SextetTriplet, InAlphabet;
  }

  lemma LastSextetsZero(b0: Byte, b1: Byte)
    ensures Sextets(b0, b1, 0)[3] == 0 && Sextets(b0, 0, 0)[2] == 0
  {
  }

  lemma PadHasSextetZero()
    ensures SextetFromChar(PAD, true) == Sextet(0) && !InAlphabet(PAD)
  {
  }

  lemma {:induction false} EncodedLength(b: seq<Byte>)
    ensures |Encoded(b)| == 4 * ((|b| + 2) / 3)
  {
    hide Quad;
    if |b| > 3 {
      EncodedLength(b[3..]);
      assert |Encoded(b)| == 4 + |Encoded(b[3..])|;
    }
  }

  /** Decoding what was encoded gives back the bytes, for every byte sequence. */
  lemma {:induction false} EncodeDecodeRoundTrip(b: seq<Byte>)
    ensures Decoded(Encoded(b)) == Decoding(b, Success)
  {
    hide Quad, QuadTriplet;
    EncodedLength(b);
    if b != [] {
      if |b| <= 3 {
        QuadRoundTrip(b);
      } else {
        QuadRoundTrip(b[..3]);
        EncodeDecodeRoundTrip(b[3..]);
        EncodedLength(b[3..]);
        var s := Encoded(b);
        assert s[..4] == Quad(b[..3]) && s[4..] == Encoded(b[3..]);
        assert b == b[..3] + b[3..];
      }
    }
  }

  // ----- The bit string -------------------------------------------------------------------

  function ByteAt(b: seq<Byte>, i: nat): Byte
  {
    if i < |b| then b[i] else 0
  }

  /** Three bytes as one string of 24 bits, missing bytes as zeros. */
  function ByteBits(b0: Byte, b1: Byte, b2: Byte): bv24
  {
    ((b0 as bv24) << 16) | ((b1 as bv24) << 8) | (b2 as bv24)
  }

  /** The j-th six bits of 24. */
  function SixBits(bits: bv24, j: nat): (s: Byte)
    requires j < 4
    ensures s < 64
  {
    if j == 0 then ((bits >> 18) & 0x3f) as Byte
    else if j == 1 then ((bits >> 12) & 0x3f) as Byte
    else if j == 2 then ((bits >> 6) & 0x3f) as Byte
    else (bits & 0x3f) as Byte
  }

  /** Four sextets as one string of 24 bits. */
  function SextetBits(s0: Byte, s1: Byte, s2: Byte, s3: Byte): bv24
  {
    ((s0 as bv24) << 18) | ((s1 as bv24) << 12) | ((s2 as bv24) << 6) | (s3 as bv24)
  }

  /** The j-th eight bits of 24. */
  function EightBits(bits: bv24, j: nat): Byte
    requires j < 3
  {
    if j == 0 then ((bits >> 16) & 0xff) as Byte
    else if j == 1 then ((bits >> 8) & 0xff) as Byte
    else (bits & 0xff) as Byte
  }

  lemma SextetsAreSixBits(b0: Byte, b1: Byte, b2: Byte, j: nat)
    requires j < 4
    ensures Sextets(b0, b1, b2)[j] == SixBits(ByteBits(b0, b1, b2), j)
  {
  }

  lemma TripletIsEightBits(s0: Byte, s1: Byte, s2: Byte, s3: Byte, j: nat)
    requires s0 < 64 && s1 < 64 && s2 < 64 && s3 < 64 && j < 3
    ensures SextetTriplet(s0, s1, s2, s3)[j] == EightBits(SextetBits(s0, s1, s2, s3), j)
  {
  }

  /** The i-th character that stands for some bytes: six of their bits, or a pad where none are
      left. */
  function CharOfBits(b: seq<Byte>, i: nat): Byte
  {
    var at, j := i / 4 * 3, i % 4;
    if at + j > |b| then PAD
    else CharFromSextet(SixBits(ByteBits(ByteAt(b, at), ByteAt(b, at + 1), ByteAt(b, at + 2)), j))
  }

  lemma QuadIsSixBits(b: seq<Byte>, i: nat)
    requires b != [] && i < 4
    ensures Quad(if |b| <= 3 then b else b[..3])[i] == CharOfBits(b, i)
  {
    hide SixBits, ByteBits, CharFromSextet, Sextets;
    SextetsAreSixBits(ByteAt(b, 0), ByteAt(b, 1), ByteAt(b, 2), i);
  }

  lemma CharOfLaterBits(b: seq<Byte>, i: nat)
    requires |b| >= 3 && i >= 4
    ensures CharOfBits(b, i) == CharOfBits(b[3..], i - 4)
  {
    hide SixBits, ByteBits, CharFromSextet;
    assert (i - 4) / 4 * 3 + 3 == i / 4 * 3 && (i - 4) % 4 == i % 4;
  }

  /** Each character of an encoding stands for six consecutive bits of the bytes. */
  lemma {:induction false} EncodedIsSixBits(b: seq<Byte>, i: nat)
    requires i < |Encoded(b)|
    ensures Encoded(b)[i] == CharOfBits(b, i)
  {
    hide Quad, CharOfBits;
    if i < 4 {
      QuadIsSixBits(b, i);
    } else {
      EncodedIsSixBits(b[3..], i - 4);
      CharOfLaterBits(b, i);
    }
  }

  /** The sextet of a character, zero for a pad. */
  function SextetAt(s: seq<Byte>, i: nat): Byte
  {
    if i < |s| && SextetFromChar(s[i], true).Sextet? then SextetFromChar(s[i], true).value else 0
  }

  /** The i-th byte that some characters stand for: eight bits of their sextets. */
  function ByteOfBits(s: seq<Byte>, i: nat): Byte
  {
    var at := i / 3 * 4;
    EightBits(SextetBits(SextetAt(s, at), SextetAt(s, at + 1), SextetAt(s, at + 2), SextetAt(s, at + 3)), i % 3)
  }

  lemma ByteOfLaterBits(s: seq<Byte>, i: nat)
    requires |s| >= 4 && i >= 3
    ensures ByteOfBits(s, i) == ByteOfBits(s[4..], i - 3)
  {
    hide EightBits, SextetBits, SextetFromChar;
    assert (i - 3) / 3 * 4 + 4 == i / 3 * 4 && (i - 3) % 3 == i % 3;
  }

  /** Each byte decoded from an accepted text is eight consecutive bits of its sextets. */
  lemma {:induction false} DecodedIsEightBits(s: seq<Byte>, i: nat)
    requires Decoded(s).ec == Success && i < |Decoded(s).bytes|
    ensures Decoded(s).bytes[i] == ByteOfBits(s, i)
  {
    hide QuadTriplet, ByteOfBits;
    if |s| == 4 || i < 3 {
      assert |s| == 4 ==> s[..4] == s;
      QuadIsEightBits(s, |s| == 4, i);
    } else {
      DecodedIsEightBits(s[4..], i - 3);
      ByteOfLaterBits(s, i);
    }
  }

  lemma QuadIsEightBits(s: seq<Byte>, padAllowed: bool, i: nat)
    requires |s| >= 4 && QuadTriplet(s[..4], padAllowed).Triplet? && i < 3
    ensures QuadTriplet(s[..4], padAllowed).bytes[i] == ByteOfBits(s, i)
  {
    SextetOfEither(s, 0, padAllowed);
    SextetOfEither(s, 1, padAllowed);
    SextetOfEither(s, 2, padAllowed);
    SextetOfEither(s, 3, padAllowed);
    hide SextetBits, EightBits, SextetTriplet, SextetFromChar, SextetAt;
    TripletIsEightBits(SextetAt(s, 0), SextetAt(s, 1), SextetAt(s, 2), SextetAt(s, 3), i);
  }

  lemma SextetOfEither(s: seq<Byte>, i: nat, padAllowed: bool)
    requires i < |s|
    ensures SextetAt(s, i) < 64
    ensures SextetFromChar(s[i], padAllowed).Sextet? ==> SextetFromChar(s[i], padAllowed) == Sextet(SextetAt(s, i))
  {
  }

  // ----- The accepted language ------------------------------------------------------------

  /** Whole quads of alphabet characters, of which only the last one or two may be pads. */
  predicate IsPaddedText(s: seq<Byte>, pads: nat)
  {
    && |s| % 4 == 0
    && pads <= 2 && pads <= |s|
    && (forall i :: 0 <= i < |s| - pads ==> InAlphabet(s[i]))
    && (forall i :: |s| - pads <= i < |s| ==> s[i] == PAD)
  }

  predicate IsBase64Text(s: seq<Byte>)
  {
    exists pads :: 0 <= pads <= 2 && IsPaddedText(s, pads)
  }

  function PadCount(s: seq<Byte>): nat
  {
    if |s| >= 2 && s[|s| - 1] == PAD then if s[|s| - 2] == PAD then 2 else 1 else 0
  }

  lemma PadCountIsPads(s: seq<Byte>, pads: nat)
    requires IsPaddedText(s, pads)
    ensures pads == PadCount(s)
  {
    if |s| >= 4 {
      assert !InAlphabet(PAD);
      if pads < 2 { assert InAlphabet(s[|s| - 2]); }
      if pads < 1 { assert InAlphabet(s[|s| - 1]); }
    }
  }

  lemma LastQuadAccepted(s: seq<Byte>)
    requires |s| == 4
    ensures DecodedQuads(s).ec == Success <==> IsPaddedText(s, PadCount(s))
    ensures DecodedQuads(s).ec == Success ==> |DecodedQuads(s).bytes| == 3 - PadCount(s)
  {
    forall i | 0 <= i < 4 {
      CharSextetInverse(s[i], true);
    }
    if IsPaddedText(s, PadCount(s)) {
      forall i | 0 <= i < 4 ensures SextetFromChar(s[i], true).Sextet? {
      }
    } else if DecodedQuads(s).ec == Success {
      assert forall i :: 0 <= i < 4 ==> InAlphabet(s[i]) || s[i] == PAD;
    }
  }

  lemma InnerQuadAccepted(q: seq<Byte>)
    requires |q| == 4
    ensures QuadTriplet(q, false).Triplet? <==> forall i :: 0 <= i < 4 ==> InAlphabet(q[i])
    ensures QuadTriplet(q, false).BadTriplet? ==> QuadTriplet(q, false).error != Success
  {
    CharSextetInverse(q[0], false);
    CharSextetInverse(q[1], false);
    CharSextetInverse(q[2], false);
    CharSextetInverse(q[3], false);
    BadSextetIsError(q[0]);
    BadSextetIsError(q[1]);
    BadSextetIsError(q[2]);
    BadSextetIsError(q[3]);
    hide SextetTriplet, SextetFromChar, InAlphabet, CharFromSextet;
    if forall i :: 0 <= i < 4 ==> InAlphabet(q[i]) {
      assert InAlphabet(q[0]) && InAlphabet(q[1]) && InAlphabet(q[2]) && InAlphabet(q[3]);
    }
  }

  lemma BadSextetIsError(c: Byte)
    ensures SextetFromChar(c, false).BadSextet? ==> SextetFromChar(c, false).error != Success
  {
  }

  lemma {:induction false} QuadsAccepted(s: seq<Byte>)
    requires |s| % 4 == 0 && |s| > 0
    ensures DecodedQuads(s).ec == Success <==> IsPaddedText(s, PadCount(s))
    ensures DecodedQuads(s).ec == Success ==> |DecodedQuads(s).bytes| == |s| / 4 * 3 - PadCount(s)
  {
    hide QuadTriplet, InAlphabet;
    if |s| == 4 {
      LastQuadAccepted(s);
    } else {
      InnerQuadAccepted(s[..4]);
      QuadsAccepted(s[4..]);
      var n := PadCount(s);
      assert n == PadCount(s[4..]);
      assert IsPaddedText(s, n) <==>
             IsPaddedText(s[4..], n) && forall i :: 0 <= i < 4 ==> InAlphabet(s[..4][i]) by {
        if IsPaddedText(s[4..], n) && forall i :: 0 <= i < 4 ==> InAlphabet(s[..4][i]) {
          forall i | 0 <= i < |s| - n ensures InAlphabet(s[i]) {
            if i < 4 { assert s[i] == s[..4][i]; } else { assert s[i] == s[4..][i - 4]; }
          }
          forall i | |s| - n <= i < |s| ensures s[i] == PAD {
            assert s[i] == s[4..][i - 4];
          }
        }
      }
    }
  }

  /** The decoder accepts exactly the padded texts, and its output length follows from the
      number of pads. */
  lemma DecodeAccepts(s: seq<Byte>)
    ensures Decoded(s).ec == Success <==> IsBase64Text(s)
    ensures Decoded(s).ec == BadBase64Length <==> |s| % 4 != 0
    ensures Decoded(s).ec == Success ==> |Decoded(s).bytes| == |s| / 4 * 3 - PadCount(s)
  {
    if s == [] {
      assert IsPaddedText(s, 0);
    } else if |s| % 4 == 0 {
      QuadsAccepted(s);
      if pads :| 0 <= pads <= 2 && IsPaddedText(s, pads) {
        PadCountIsPads(s, pads);
      }
      NeverBadLength(s);
    }
  }

  lemma {:induction false} NeverBadLength(s: seq<Byte>)
    requires |s| % 4 == 0 && |s| > 0
    ensures DecodedQuads(s).ec != BadBase64Length
  {
    hide SextetTriplet;
    if |s| > 4 {
      NeverBadLength(s[4..]);
    }
  }

  // ----- Canonicity -----------------------------------------------------------------------

  /** The low bits of the last data character that no output byte uses are zero. */
  predicate UnusedBitsAreZero(s: seq<Byte>)
  {
    var n := PadCount(s);
    n == 0 || |s| <= n ||
    (var last := SextetFromChar(s[|s| - n - 1], true);
     last.Sextet? && last.value & (if n == 2 then 0x0f else 0x03) == 0)
  }

  /** Re-encoding a triplet gives back its sextets, and dropping the last one or two bytes
      first gives them back exactly when their unused low bits are zero. */
  lemma TripletSextets(s0: Byte, s1: Byte, s2: Byte, s3: Byte)
    requires s0 < 64 && s1 < 64 && s2 < 64 && s3 < 64
    ensures var t := SextetTriplet(s0, s1, s2, s3);
            && Sextets(t[0], t[1], t[2]) == [s0, s1, s2, s3]
            && Sextets(t[0], t[1], 0)[..2] == [s0, s1]
            && Sextets(t[0], t[1], 0)[2] == s2 & 0x3c
            && Sextets(t[0], 0, 0)[0] == s0
            && Sextets(t[0], 0, 0)[1] == s1 & 0x30
  {
  }

  lemma LowBits(s: Byte)
    requires s < 64
    ensures s & 0x3c == s <==> s & 0x03 == 0
    ensures s & 0x30 == s <==> s & 0x0f == 0
    ensures s & 0x3c < 64 && s & 0x30 < 64
  {
  }

  lemma UnpaddedCanonical(q: seq<Byte>)
    requires |q| == 4 && IsPaddedText(q, 0)
    ensures DecodedQuads(q).ec == Success && Quad(DecodedQuads(q).bytes) == q
  {
    assert InAlphabet(q[0]) && InAlphabet(q[1]) && InAlphabet(q[2]) && InAlphabet(q[3]);
    CharSextetInverse(q[0], true);
    CharSextetInverse(q[1], true);
    CharSextetInverse(q[2], true);
    CharSextetInverse(q[3], true);
    PadHasSextetZero();
    hide CharFromSextet, Sextets, SextetTriplet, InAlphabet, SextetFromChar;
    TripletSextets(SextetFromChar(q[0], true).value, SextetFromChar(q[1], true).value,
                   SextetFromChar(q[2], true).value, SextetFromChar(q[3], true).value);
  }

  lemma OnePadCanonical(q: seq<Byte>)
    requires |q| == 4 && IsPaddedText(q, 1)
    ensures DecodedQuads(q).ec == Success
    ensures Quad(DecodedQuads(q).bytes) == q <==> UnusedBitsAreZero(q)
  {
    assert InAlphabet(q[0]) && InAlphabet(q[1]) && InAlphabet(q[2]) && q[3] == PAD;
    PadCountIsPads(q, 1);
    CharSextetInverse(q[0], true);
    CharSextetInverse(q[1], true);
    CharSextetInverse(q[2], true);
    PadHasSextetZero();
    hide CharFromSextet, Sextets, SextetTriplet, InAlphabet, SextetFromChar;
    var s2 := SextetFromChar(q[2], true).value;
    TripletSextets(SextetFromChar(q[0], true).value, SextetFromChar(q[1], true).value, s2, 0);
    LowBits(s2);
    SextetCharInverse(s2 & 0x3c);
  }

  lemma TwoPadsCanonical(q: seq<Byte>)
    requires |q| == 4 && IsPaddedText(q, 2)
    ensures DecodedQuads(q).ec == Success
    ensures Quad(DecodedQuads(q).bytes) == q <==> UnusedBitsAreZero(q)
  {
    assert InAlphabet(q[0]) && InAlphabet(q[1]) && q[2] == PAD && q[3] == PAD;
    PadCountIsPads(q, 2);
    CharSextetInverse(q[0], true);
    CharSextetInverse(q[1], true);
    PadHasSextetZero();
    hide CharFromSextet, Sextets, SextetTriplet, InAlphabet, SextetFromChar;
    var s1 := SextetFromChar(q[1], true).value;
    TripletSextets(SextetFromChar(q[0], true).value, s1, 0, 0);
    LowBits(s1);
    SextetCharInverse(s1 & 0x30);
  }

  lemma LastQuadCanonical(q: seq<Byte>)
    requires |q| == 4 && IsPaddedText(q, PadCount(q))
    ensures DecodedQuads(q).ec == Success
    ensures Quad(DecodedQuads(q).bytes) == q <==> UnusedBitsAreZero(q)
  {
    hide DecodedQuads, Quad, IsPaddedText;
    match PadCount(q)
    case 0 => UnpaddedCanonical(q);
    case 1 => OnePadCanonical(q);
    case _ => TwoPadsCanonical(q);
  }

  lemma EncodedAppend(t: seq<Byte>, r: seq<Byte>)
    requires |t| == 3
    ensures Encoded(t + r) == Quad(t) + Encoded(r)
  {
    hide Quad;
    var b := t + r;
    assert b[..3] == t && b[3..] == r;
    if r == [] {
      assert b == t;
    }
  }

  lemma CancelLeft(a: seq<Byte>, b: seq<Byte>, c: seq<Byte>)
    ensures a + b == a + c <==> b == c
  {
    assert (a + b)[|a|..] == b && (a + c)[|a|..] == c;
  }

  lemma UnusedBitsOfTail(s: seq<Byte>)
    requires |s| > 4 && |s| % 4 == 0
    ensures UnusedBitsAreZero(s) <==> UnusedBitsAreZero(s[4..])
  {
    hide SextetFromChar;
  }

  lemma {:induction false} QuadsCanonical(s: seq<Byte>)
    requires |s| % 4 == 0 && |s| > 0 && DecodedQuads(s).ec == Success
    ensures Encoded(DecodedQuads(s).bytes) == s <==> UnusedBitsAreZero(s)
  {
    QuadsAccepted(s);
    if |s| == 4 {
      LastQuadCanonical(s);
      hide Quad, SextetFromChar, InAlphabet, UnusedBitsAreZero;
    } else {
      hide Quad, QuadTriplet, SextetFromChar, InAlphabet, UnusedBitsAreZero, Encoded;
      var q, rest := s[..4], s[4..];
      var t, r := QuadTriplet(q, false).bytes, DecodedQuads(rest).bytes;
      QuadsCanonical(rest);
      InnerQuadCanonical(q);
      EncodedAppend(t, r);
      CancelLeft(q, Encoded(r), rest);
      UnusedBitsOfTail(s);
      assert s == q + rest;
    }
  }

  lemma InnerQuadCanonical(q: seq<Byte>)
    requires |q| == 4 && QuadTriplet(q, false).Triplet?
    ensures Quad(QuadTriplet(q, false).bytes) == q
  {
    forall i | 0 <= i < 4 {
      CharSextetInverse(q[i], false);
    }
    var s := seq(4, i requires 0 <= i < 4 => SextetFromChar(q[i], false).value);
    TripletSextets(s[0], s[1], s[2], s[3]);
    hide CharFromSextet, Sextets, SextetTriplet, InAlphabet, SextetFromChar;
  }

  /** Encoding what was decoded gives back the text exactly when its unused bits are zero:
      the decoder also accepts texts that are not canonical. */
  lemma DecodeEncodeCanonical(s: seq<Byte>)
    requires Decoded(s).ec == Success
    ensures Encoded(Decoded(s).bytes) == s <==> UnusedBitsAreZero(s)
  {
    if s != [] {
      QuadsCanonical(s);
    }
  }

  /** "AB==" is accepted although its unused bits are not zero: decoding is not injective. */
  lemma DecodingIsNotInjective()
    ensures Decoded([65, 65, PAD, PAD]) == Decoded([65, 66, PAD, PAD]) == Decoding([0], Success)
  {
    assert SextetTriplet(0, 0, 0, 0)[..1] == [0] && SextetTriplet(0, 1, 0, 0)[..1] == [0];
  }

  /** Test vectors of RFC 4648, section 10: "fo", "foo" and "foob". */
  lemma RfcVectors()
    ensures Encoded([102, 111]) == [90, 109, 56, PAD]
    ensures Encoded([102, 111, 111]) == [90, 109, 57, 118]
    ensures Encoded([102, 111, 111, 98]) == [90, 109, 57, 118, 89, 103, PAD, PAD]
  {
    assert Sextets(102, 111, 0) == [25, 38, 60, 0];
    assert Sextets(102, 111, 111) == [25, 38, 61, 47];
    assert Sextets(98, 0, 0) == [24, 32, 0, 0];
    var b: seq<Byte> := [102, 111, 111, 98];
    assert b[..3] == [102, 111, 111] && b[3..] == [98];
  }
}
