/** The raw socket protocol byte by byte: what frames and handshakes look like on the wire, on
    machines of either byte order, and what is made of any bytes that arrive. */
module RawsockLayout {
  import opened Bits
  import opened Endian
  import opened RawsockHeader
  import opened RawsockReceiver
  import opened Wrappers
  import Handshake = RawsockHandshake
  import Negotiation = RawsockNegotiation

  // ----- Frames ---------------------------------------------------------------------------

  /** A frame starts with its type, 0 for a WAMP message, 1 for a ping and 2 for a pong, and the
      24-bit length of its payload, most significant byte first. */
  lemma FrameLayout(f: Frame, senderIsLittle: bool)
    requires |f.payload| < 0x100_0000
    ensures var n := |f.payload|;
            FrameBytes(f, senderIsLittle) ==
            [if f.msgType == Wamp then 0 else if f.msgType == Ping then 1 else 2,
             n / 0x1_0000, n / 0x100 % 0x100, n % 0x100] + f.payload
  {
    var word, n := HeaderWord(f.msgType, |f.payload|), |f.payload|;
    WireRoundTrip(word, senderIsLittle, senderIsLittle);
    HeaderIsFaithful(f.msgType, n);
    FieldsOfHeader(word, n);
    hide HeaderWord, WireBytes, WireWord, LengthField, MsgTypeField, Decompose;
  }

  lemma FieldsOfHeader(word: nat, n: nat)
    requires word < WORD && LengthField(word) == n
    ensures var o := Decompose(word);
            && o.b3 == MsgTypeField(word)
            && o.b2 == n / 0x1_0000 && o.b1 == n / 0x100 % 0x100 && o.b0 == n % 0x100
  {
    var o := Decompose(word);
    DecomposeCompose(word);
    var low: nat := (o.b2 as nat) * 0x1_0000 + (o.b1 as nat) * 0x100 + o.b0;
    assert word == (o.b3 as nat) * 0x100_0000 + low;
    SplitWord(o.b3, low);
    hide LengthField, MsgTypeField, Compose, Decompose;
    LowParts(o.b2, o.b1, o.b0);
  }

  lemma LowParts(b2: Octet, b1: Octet, b0: Octet)
    ensures var n := (b2 as nat) * 0x1_0000 + (b1 as nat) * 0x100 + b0;
            n / 0x1_0000 == b2 && n / 0x100 % 0x100 == b1 && n % 0x100 == b0
  {
    var high: nat := (b2 as nat) * 0x100 + b1;
    LowByte(high, b0);
    LowByte(b2, b1);
    assert (b2 as nat) * 0x1_0000 + (b1 as nat) * 0x100 + b0 == high * 0x100 + b0;
  }

  /** The length that the last three bytes of a header spell. */
  function LengthOf(bytes: seq<Octet>): nat
    requires |bytes| == 4
  {
    (bytes[1] as nat) * 0x1_0000 + (bytes[2] as nat) * 0x100 + bytes[3]
  }

  lemma BytesOfWord(bytes: seq<Octet>, nativeIsLittle: bool)
    requires |bytes| == 4
    ensures WireWord(bytes, nativeIsLittle) == (bytes[0] as nat) * 0x100_0000 + LengthOf(bytes)
  {
    var o := Octets(bytes[0], bytes[1], bytes[2], bytes[3]);
    ComposeDecompose(o);
    ComposeDecompose(Octets(o.b0, o.b1, o.b2, o.b3));
  }

  /** Any four bytes read as a header: the length is checked first, then the type. */
  lemma HeaderJudged(bytes: seq<Octet>, nativeIsLittle: bool, maxRxLength: nat)
    requires |bytes| == 4
    ensures JudgeHeader(WireWord(bytes, nativeIsLittle), maxRxLength) ==
            if LengthOf(bytes) > maxRxLength then Reject(BadRxLength)
            else if bytes[0] == 0 then Accept(Wamp, LengthOf(bytes))
            else if bytes[0] == 1 then Accept(Ping, LengthOf(bytes))
            else if bytes[0] == 2 then Accept(Pong, LengthOf(bytes))
            else Reject(BadMessageType)
  {
    BytesOfWord(bytes, nativeIsLittle);
    SplitWord(bytes[0], LengthOf(bytes));
    hide WireWord, LengthOf;
  }

  lemma SplitWord(high: nat, low: nat)
    requires low < 0x100_0000
    ensures MsgTypeField(high * 0x100_0000 + low) == high && LengthField(high * 0x100_0000 + low) == low
  {
  }

  // ----- Handshakes -----------------------------------------------------------------------

  predicate HasMagic(bytes: seq<Octet>) requires |bytes| == 4 { bytes[0] == 0x7f }

  predicate UsesReserved(bytes: seq<Octet>) requires |bytes| == 4 { bytes[2] != 0 || bytes[3] != 0 }

  /** The low and the high half of the second byte. */
  function CodecOf(bytes: seq<Octet>): nat requires |bytes| == 4 { bytes[1] % 16 }

  function LimitOf(bytes: seq<Octet>): Handshake.LengthCode requires |bytes| == 4 { bytes[1] / 16 }

  function HandshakeBytes(codecId: nat, limit: Handshake.LengthCode): seq<Octet>
    requires codecId < 16
  {
    [0x7f, limit * 16 + codecId, 0, 0]
  }

  function ErrorBytes(error: nat): seq<Octet>
    requires error < 16
  {
    [0x7f, error * 16, 0, 0]
  }

  lemma FieldsOfHandshake(bytes: seq<Octet>, nativeIsLittle: bool)
    requires |bytes| == 4
    ensures var hs := WireWord(bytes, nativeIsLittle);
            && (Handshake.HasMagicOctet(hs) <==> HasMagic(bytes))
            && (Handshake.ReservedField(hs) != 0 <==> UsesReserved(bytes))
            && Handshake.CodecField(hs) == CodecOf(bytes)
            && Handshake.LengthField(hs) == LimitOf(bytes)
            && (Handshake.HasError(hs) <==> CodecOf(bytes) == 0)
  {
    BytesOfWord(bytes, nativeIsLittle);
    var hs := WireWord(bytes, nativeIsLittle);
    hide WireWord;
    var low: nat := (bytes[2] as nat) * 0x100 + bytes[3];
    var high: nat := (bytes[0] as nat) * 0x100 + bytes[1];
    assert hs == high * 0x1_0000 + low;
    SplitHalves(high, low);
    SplitWord(bytes[0], LengthOf(bytes));
    LowByte(bytes[0], bytes[1]);
    LowByte(bytes[2], bytes[3]);
    HalvesOfByte(bytes[0], bytes[1]);
    assert hs / 0x10_0000 == hs / 0x1_0000 / 16;
  }

  lemma HalvesOfByte(high: nat, low: Octet)
    ensures (high * 256 + low) % 16 == low % 16 && (high * 256 + low) / 16 % 16 == low / 16
  {
    var low1, low0 := low / 16, low % 16;
    assert high * 256 + low == (high * 16 + low1) * 16 + low0;
    SplitBy16(high * 16 + low1, low0);
    SplitBy16(high, low1);
  }

  lemma SplitBy16(high: nat, low: nat)
    requires low < 16
    ensures (high * 16 + low) / 16 == high && (high * 16 + low) % 16 == low
  {
  }

  lemma SplitHalves(high: nat, low: nat)
    requires low < 0x1_0000
    ensures (high * 0x1_0000 + low) / 0x1_0000 == high && (high * 0x1_0000 + low) % 0x1_0000 == low
  {
  }

  /** The same fields in the same places make the same bytes. */
  lemma BytesOfFields(hs: nat, codecId: nat, limit: Handshake.LengthCode, nativeIsLittle: bool)
    requires hs < WORD && codecId < 16
    requires Handshake.HasMagicOctet(hs) && Handshake.ReservedField(hs) == 0
    requires Handshake.CodecField(hs) == codecId && Handshake.LengthField(hs) == limit
    ensures WireBytes(hs, nativeIsLittle) == HandshakeBytes(codecId, limit)
  {
    var bytes := WireBytes(hs, nativeIsLittle);
    WireRoundTrip(hs, nativeIsLittle, nativeIsLittle);
    FieldsOfHandshake(bytes, nativeIsLittle);
    hide WireBytes, WireWord, Decompose, Handshake.HasMagicOctet, Handshake.ReservedField, Handshake.CodecField,
      Handshake.LengthField;
    assert bytes[1] == limit * 16 + codecId;
  }

  /** An offer: the magic octet, the limit in the high half and the codec in the low half of the
      second byte, and two reserved bytes that are zero. */
  lemma OfferLayout(codecId: nat, limit: Handshake.LengthCode, nativeIsLittle: bool)
    requires codecId < 16
    ensures WireBytes(Handshake.HandshakeWord(codecId, limit), nativeIsLittle) == HandshakeBytes(codecId, limit)
  {
    Handshake.HandshakeFields(codecId, limit);
    BytesOfFields(Handshake.HandshakeWord(codecId, limit), codecId, limit, nativeIsLittle);
  }

  /** The four error words carry their error where an offer has the limit. */
  lemma ErrorLayout(nativeIsLittle: bool)
    ensures WireBytes(Handshake.UNSUPPORTED_FORMAT, nativeIsLittle) == ErrorBytes(1)
    ensures WireBytes(Handshake.UNACCEPTABLE_LENGTH, nativeIsLittle) == ErrorBytes(2)
    ensures WireBytes(Handshake.RESERVED_BITS_USED, nativeIsLittle) == ErrorBytes(3)
    ensures WireBytes(Handshake.MAX_CONNECTIONS, nativeIsLittle) == ErrorBytes(4)
  {
    Handshake.ErrorWordFields();
    hide WireBytes, Handshake.HasMagicOctet, Handshake.ReservedField, Handshake.LengthField;
    BytesOfFields(Handshake.UNSUPPORTED_FORMAT, 0, 1, nativeIsLittle);
    BytesOfFields(Handshake.UNACCEPTABLE_LENGTH, 0, 2, nativeIsLittle);
    BytesOfFields(Handshake.RESERVED_BITS_USED, 0, 3, nativeIsLittle);
    BytesOfFields(Handshake.MAX_CONNECTIONS, 0, 4, nativeIsLittle);
  }

  /** What the connector concludes from any four bytes: only the codec it asked for completes,
      an error comes through as it is, and anything else is a bad handshake. */
  lemma ConnectorConcludes(codecId: nat, limit: Handshake.LengthCode, bytes: seq<Octet>, nativeIsLittle: bool)
    requires |bytes| == 4
    ensures Negotiation.ConnectorOutcome(codecId, limit, WireWord(bytes, nativeIsLittle)) ==
            if !HasMagic(bytes) then Negotiation.Failed(Handshake.BAD_HANDSHAKE)
            else if UsesReserved(bytes) then Negotiation.Failed(Handshake.RESERVED_BITS_ERROR)
            else if CodecOf(bytes) == codecId then
              Negotiation.Established(Negotiation.TransportInfo(codecId, Pow2(9 + LimitOf(bytes)), Pow2(9 + limit)))
            else if CodecOf(bytes) == 0 then Negotiation.Failed(LimitOf(bytes))
            else Negotiation.Failed(Handshake.BAD_HANDSHAKE)
  {
    FieldsOfHandshake(bytes, nativeIsLittle);
    hide WireWord, Handshake.HasMagicOctet, Handshake.ReservedField, Handshake.CodecField, Handshake.LengthField,
      Handshake.HasError, Pow2;
  }

  /** Each error word tells a connector that asked for a codec its own error. */
  lemma ErrorsComeThrough(codecId: nat, limit: Handshake.LengthCode, error: nat, nativeIsLittle: bool)
    requires 1 <= codecId && error < 16
    ensures Negotiation.ConnectorOutcome(codecId, limit, WireWord(ErrorBytes(error), nativeIsLittle)) ==
            Negotiation.Failed(error)
  {
    hide WireWord, Negotiation.ConnectorOutcome, Pow2;
    var bytes := ErrorBytes(error);
    assert bytes[1] == error * 16;
    ConnectorConcludes(codecId, limit, bytes, nativeIsLittle);
  }

  /** What the listener answers to any four bytes, and what it concludes. */
  lemma ListenerAnswers(codecIds: set<nat>, limit: Handshake.LengthCode, bytes: seq<Octet>, nativeIsLittle: bool)
    requires |bytes| == 4
    ensures var reply := Negotiation.ListenerReply(codecIds, limit, WireWord(bytes, nativeIsLittle));
            && (reply.Some? <==> HasMagic(bytes))
            && (reply.Some? ==>
                  WireBytes(reply.value, nativeIsLittle) ==
                  (if UsesReserved(bytes) then ErrorBytes(3)
                   else if CodecOf(bytes) in codecIds then HandshakeBytes(CodecOf(bytes), limit)
                   else ErrorBytes(1)))
  {
    var hs := WireWord(bytes, nativeIsLittle);
    FieldsOfHandshake(bytes, nativeIsLittle);
    ErrorLayout(nativeIsLittle);
    OfferLayout(CodecOf(bytes), limit, nativeIsLittle);
    hide WireWord, WireBytes, Handshake.HasMagicOctet, Handshake.ReservedField, Handshake.CodecField,
      Handshake.LengthField, Handshake.HasError, Handshake.HandshakeWord;
  }

  /** The listener completes exactly when it has the codec; the codec number 0, which stands for
      an error, would be taken for one. */
  lemma ListenerConcludes(codecIds: set<nat>, limit: Handshake.LengthCode, bytes: seq<Octet>, nativeIsLittle: bool)
    requires |bytes| == 4
    ensures Negotiation.ListenerOutcome(codecIds, limit, WireWord(bytes, nativeIsLittle)) ==
            if !HasMagic(bytes) then Negotiation.Failed(Handshake.BAD_HANDSHAKE)
            else if UsesReserved(bytes) then Negotiation.Failed(Handshake.RESERVED_BITS_ERROR)
            else if CodecOf(bytes) !in codecIds then Negotiation.Failed(Handshake.BAD_SERIALIZER)
            else if CodecOf(bytes) == 0 then Negotiation.Failed(limit)
            else Negotiation.Established(
                   Negotiation.TransportInfo(CodecOf(bytes), Pow2(9 + LimitOf(bytes)), Pow2(9 + limit)))
  {
    FieldsOfHandshake(bytes, nativeIsLittle);
    Handshake.ErrorWordFields();
    Handshake.HandshakeFields(CodecOf(bytes), limit);
    Negotiation.NoErrorWhenCodec(Handshake.HandshakeWord(CodecOf(bytes), limit));
    hide WireWord, Handshake.HasMagicOctet, Handshake.ReservedField, Handshake.CodecField,
      Handshake.LengthField, Handshake.HasError, Handshake.HandshakeWord, Pow2;
  }
}
