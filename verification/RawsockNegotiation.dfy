/** Both ends of the raw socket handshake: what each answers, what each concludes, and the
    two small objects that carry it out over a socket. */
module RawsockNegotiation {
  import opened Bits
  import opened Endian
  import opened RawsockHandshake
  import opened Wrappers

  datatype TransportInfo = TransportInfo(codecId: nat, maxTxLength: nat, maxRxLength: nat)

  /** What a completion handler receives. */
  datatype Outcome =
    | Established(info: TransportInfo)
    | Failed(error: nat)   // a raw socket error number
    | Aborted              // the operation was cancelled
    | IoFailed             // any other socket error

  // ----- What each end concludes ----------------------------------------------------------

  /** The word the listener answers to a received one; no magic octet, no answer. */
  function ListenerReply(codecIds: set<nat>, maxRxLength: LengthCode, hs: nat): (reply: Option<nat>)
    ensures reply.Some? ==> reply.value < WORD
  {
    if !HasMagicOctet(hs) then None
    else if ReservedField(hs) != 0 then Some(RESERVED_BITS_USED)
    else if CodecField(hs) in codecIds then Some(HandshakeWord(CodecField(hs), maxRxLength))
    else Some(UNSUPPORTED_FORMAT)
  }

  function ListenerOutcome(codecIds: set<nat>, maxRxLength: LengthCode, hs: nat): Outcome
  {
    var reply := ListenerReply(codecIds, maxRxLength, hs);
    if reply.None? then Failed(BAD_HANDSHAKE)
    else if HasError(reply.value) then Failed(LengthField(reply.value))
    else Established(TransportInfo(CodecField(reply.value), ByteLengthOf(LengthField(hs)), ByteLengthOf(maxRxLength)))
  }

  function ConnectorOutcome(codecId: nat, maxRxLength: LengthCode, hs: nat): Outcome
  {
    if !HasMagicOctet(hs) then Failed(BAD_HANDSHAKE)
    else if ReservedField(hs) != 0 then Failed(RESERVED_BITS_ERROR)
    else if CodecField(hs) == codecId then
      Established(TransportInfo(codecId, ByteLengthOf(LengthField(hs)), ByteLengthOf(maxRxLength)))
    else if HasError(hs) then Failed(LengthField(hs))
    else Failed(BAD_HANDSHAKE)
  }

  lemma LimitsArePowersOfTwo(len: LengthCode)
    ensures ByteLengthOf(len) == Pow2(len + 9) && 512 <= ByteLengthOf(len) <= 0x100_0000
  {
    Pow2Grows(9, len + 9);
    Pow2Grows(len + 9, 24);
    assert Pow2(9) == 512 && Pow2(24) == 0x100_0000 by {
      PowersOfTwo();
      PowSum(8, 1);
    }
  }

  lemma {:induction false} Pow2Grows(j: nat, k: nat)
    requires j <= k
    ensures Pow2(j) <= Pow2(k)
    decreases k
  {
    if j < k {
      Pow2Grows(j, k - 1);
    }
  }

  /** Both ends complete with the same codec and each may send as much as the other accepts,
      or both report an unsupported serializer. It holds for every client codec, server codec
      set and pair of limits, on machines of either byte order. */
  lemma EndsAgree(codecId: nat, clientLimit: LengthCode, codecIds: set<nat>, serverLimit: LengthCode,
                  clientIsLittle: bool, serverIsLittle: bool)
    requires 1 <= codecId < 16 && forall id :: id in codecIds ==> 1 <= id < 16
    ensures var hello := WireWord(WireBytes(HandshakeWord(codecId, clientLimit), clientIsLittle), serverIsLittle);
            var reply := ListenerReply(codecIds, serverLimit, hello);
            && reply.Some?
            && var answer := WireWord(WireBytes(reply.value, serverIsLittle), clientIsLittle);
            var client := ConnectorOutcome(codecId, clientLimit, answer);
            var server := ListenerOutcome(codecIds, serverLimit, hello);
            if codecId in codecIds then
              && client == Established(TransportInfo(codecId, ByteLengthOf(serverLimit), ByteLengthOf(clientLimit)))
              && server == Established(TransportInfo(codecId, ByteLengthOf(clientLimit), ByteLengthOf(serverLimit)))
            else client == server == Failed(BAD_SERIALIZER)
  {
    hide HandshakeWord, WireBytes, WireWord, ByteLengthOf, ListenerReply, ListenerOutcome, ConnectorOutcome;
    var offer := HandshakeWord(codecId, clientLimit);
    OfferIsAnswered(codecId, clientLimit, codecIds, serverLimit);
    WireRoundTrip(offer, clientIsLittle, serverIsLittle);
    WireRoundTrip(ListenerReply(codecIds, serverLimit, offer).value, serverIsLittle, clientIsLittle);
  }

  lemma OfferIsAnswered(codecId: nat, clientLimit: LengthCode, codecIds: set<nat>, serverLimit: LengthCode)
    requires 1 <= codecId < 16 && forall id :: id in codecIds ==> 1 <= id < 16
    ensures var offer := HandshakeWord(codecId, clientLimit);
            var reply := ListenerReply(codecIds, serverLimit, offer);
            && reply.Some?
            && var client := ConnectorOutcome(codecId, clientLimit, reply.value);
            var server := ListenerOutcome(codecIds, serverLimit, offer);
            if codecId in codecIds then
              && client == Established(TransportInfo(codecId, ByteLengthOf(serverLimit), ByteLengthOf(clientLimit)))
              && server == Established(TransportInfo(codecId, ByteLengthOf(clientLimit), ByteLengthOf(serverLimit)))
            else client == server == Failed(BAD_SERIALIZER)
  {
    HandshakeFields(codecId, clientLimit);
    HandshakeFields(codecId, serverLimit);
    ErrorWordFields();
    assert IsErrorWord(UNSUPPORTED_FORMAT, BAD_SERIALIZER);
    assert HasMagicOctet(UNSUPPORTED_FORMAT) && ReservedField(UNSUPPORTED_FORMAT) == 0;
    assert HasError(UNSUPPORTED_FORMAT) && LengthField(UNSUPPORTED_FORMAT) == BAD_SERIALIZER;
    NoErrorWhenCodec(HandshakeWord(codecId, serverLimit));
    hide HandshakeWord, ByteLengthOf, ReservedField, CodecField, LengthField, HasMagicOctet, HasError;
  }

  lemma NoErrorWhenCodec(hs: nat)
    ensures HasError(hs) <==> CodecField(hs) == 0
  {
  }

  // ----- The connector --------------------------------------------------------------------

  class RawsockConnector {
    const codecId: nat
    const maxRxLength: LengthCode
    const nativeIsLittle: bool
    var socketOpen: bool
    var handlerSet: bool
    var handshake: nat
    ghost var dispatched: seq<Outcome>  // every call of a completion handler so far

    constructor (codecId: nat, maxRxLength: LengthCode, nativeIsLittle: bool)
      ensures this.codecId == codecId && this.maxRxLength == maxRxLength && this.nativeIsLittle == nativeIsLittle
      ensures !socketOpen && !handlerSet && dispatched == []
    {
      this.codecId, this.maxRxLength, this.nativeIsLittle := codecId, maxRxLength, nativeIsLittle;
      socketOpen, handlerSet, handshake, dispatched := false, false, 0, [];
    }

    method Establish()
      requires !handlerSet
      modifies this`handlerSet
      ensures handlerSet
    {
      handlerSet := true;
    }

    /** The opener finished; on success the handshake bytes to write are returned. */
    method OnOpened(failure: Option<Outcome>) returns (bytes: seq<Octet>)
      requires handlerSet && !socketOpen
      modifies this
      ensures failure.None? ==>
                socketOpen && handlerSet && dispatched == old(dispatched)
                && bytes == WireBytes(HandshakeWord(codecId, maxRxLength), nativeIsLittle)
      ensures failure.Some? ==>
                !socketOpen && !handlerSet && dispatched == old(dispatched) + [failure.value] && bytes == []
    {
      if failure.Some? {
        DispatchHandler(failure.value);
        return [];
      }
      socketOpen := true;
      handshake := NativeToBig32(HandshakeWord(codecId, maxRxLength), nativeIsLittle);
      bytes := MemoryBytes(handshake, nativeIsLittle);
    }

    method OnSocketError(aborted: bool)
      requires handlerSet
      modifies this
      ensures !socketOpen && !handlerSet && dispatched == old(dispatched) + [if aborted then Aborted else IoFailed]
    {
      socketOpen := false;
      DispatchHandler(if aborted then Aborted else IoFailed);
    }

    /** The four answer bytes arrived: the handler is called exactly once and the socket is
        handed over or dropped. */
    method OnHandshakeRead(bytes: seq<Octet>)
      requires handlerSet && socketOpen && |bytes| == 4
      modifies this
      ensures dispatched == old(dispatched) + [ConnectorOutcome(codecId, maxRxLength, WireWord(bytes, nativeIsLittle))]
      ensures !handlerSet && !socketOpen
    {
      handshake := MemoryWord(bytes, nativeIsLittle);
      var hs := BigToNative32(handshake, nativeIsLittle);
      socketOpen := false;
      if !HasMagicOctet(hs) {
        DispatchHandler(Failed(BAD_HANDSHAKE));
      } else if ReservedField(hs) != 0 {
        DispatchHandler(Failed(RESERVED_BITS_ERROR));
      } else if CodecField(hs) == codecId {
        DispatchHandler(Established(TransportInfo(codecId, ByteLengthOf(LengthField(hs)), ByteLengthOf(maxRxLength))));
      } else if HasError(hs) {
        DispatchHandler(Failed(LengthField(hs)));
      } else {
        DispatchHandler(Failed(BAD_HANDSHAKE));
      }
    }

    method DispatchHandler(outcome: Outcome)
      modifies this`handlerSet, this`dispatched
      ensures !handlerSet && dispatched == old(dispatched) + [outcome]
    {
      handlerSet := false;
      dispatched := dispatched + [outcome];
    }
  }

  // ----- The listener ---------------------------------------------------------------------

  class RawsockListener {
    const codecIds: set<nat>
    const maxRxLength: LengthCode
    const nativeIsLittle: bool
    var socketOpen: bool
    var handlerSet: bool
    var maxTxLength: LengthCode
    var handshake: nat
    var answer: Option<nat>             // host-order word being written, captured by the write handler
    ghost var heard: nat                // host-order word received
    ghost var dispatched: seq<Outcome>  // every call of a completion handler so far

    /** An answer under way is the one the received word calls for. */
    ghost predicate Valid()
      reads this
    {
      && (answer.Some? ==>
            && handlerSet && socketOpen && heard < WORD
            && answer == ListenerReply(codecIds, maxRxLength, heard)
            && (!HasError(answer.value) ==> maxTxLength == LengthField(heard)))
    }

    constructor (codecIds: set<nat>, maxRxLength: LengthCode, nativeIsLittle: bool)
      ensures this.codecIds == codecIds && this.maxRxLength == maxRxLength && this.nativeIsLittle == nativeIsLittle
      ensures Valid() && !socketOpen && !handlerSet && dispatched == []
    {
      this.codecIds, this.maxRxLength, this.nativeIsLittle := codecIds, maxRxLength, nativeIsLittle;
      socketOpen, handlerSet, maxTxLength, handshake, answer := false, false, 0, 0, None;
      heard, dispatched := 0, [];
    }

    method Establish()
      requires Valid() && !handlerSet
      modifies this`handlerSet
      ensures Valid() && handlerSet
    {
      handlerSet := true;
    }

    method OnAccepted(failure: Option<Outcome>)
      requires Valid() && handlerSet && !socketOpen
      modifies this
      ensures Valid()
      ensures failure.None? ==> socketOpen && handlerSet && answer.None? && dispatched == old(dispatched)
      ensures failure.Some? ==> !socketOpen && !handlerSet && dispatched == old(dispatched) + [failure.value]
    {
      if failure.Some? {
        DispatchHandler(failure.value);
      } else {
        socketOpen := true;
      }
    }

    method OnSocketError(aborted: bool)
      requires Valid() && handlerSet
      modifies this
      ensures Valid() && !socketOpen && !handlerSet
      ensures dispatched == old(dispatched) + [if aborted then Aborted else IoFailed]
    {
      socketOpen, answer := false, None;
      DispatchHandler(if aborted then Aborted else IoFailed);
    }

    /** The four handshake bytes arrived; returns the bytes to write, if any. */
    method OnHandshakeRead(bytes: seq<Octet>) returns (reply: seq<Octet>)
      requires Valid() && handlerSet && socketOpen && answer.None? && |bytes| == 4
      modifies this
      ensures Valid() && heard == WireWord(bytes, nativeIsLittle)
      ensures answer == ListenerReply(codecIds, maxRxLength, heard)
      ensures answer.Some? ==> reply == WireBytes(answer.value, nativeIsLittle) && dispatched == old(dispatched)
      ensures answer.None? ==>
                reply == [] && !handlerSet && !socketOpen
                && dispatched == old(dispatched) + [ListenerOutcome(codecIds, maxRxLength, heard)]
    {
      ErrorWordFields();
      hide ReservedField, CodecField, LengthField, HasMagicOctet, HasError, HandshakeWord;
      handshake := MemoryWord(bytes, nativeIsLittle);
      var hs := BigToNative32(handshake, nativeIsLittle);
      heard := hs;
      if !HasMagicOctet(hs) {
        socketOpen := false;
        DispatchHandler(Failed(BAD_HANDSHAKE));
        return [];
      }
      var word;
      if ReservedField(hs) != 0 {
        word := RESERVED_BITS_USED;
      } else if CodecField(hs) in codecIds {
        maxTxLength := LengthField(hs);
        word := HandshakeWord(CodecField(hs), maxRxLength);
      } else {
        word := UNSUPPORTED_FORMAT;
      }
      answer := Some(word);
      handshake := NativeToBig32(word, nativeIsLittle);
      reply := MemoryBytes(handshake, nativeIsLittle);
    }

    /** The answer is written: the handler is called exactly once, with what the received word
        calls for. */
    method OnHandshakeWritten()
      requires Valid() && answer.Some?
      modifies this
      ensures Valid() && !handlerSet && !socketOpen && answer.None?
      ensures dispatched == old(dispatched) + [ListenerOutcome(codecIds, maxRxLength, old(heard))]
    {
      var hs := answer.value;
      answer, socketOpen := None, false;
      if HasError(hs) {
        DispatchHandler(Failed(LengthField(hs)));
      } else {
        DispatchHandler(Established(TransportInfo(CodecField(hs),
                                                 ByteLengthOf(maxTxLength), ByteLengthOf(maxRxLength))));
      }
    }

    method DispatchHandler(outcome: Outcome)
      modifies this`handlerSet, this`dispatched
      ensures !handlerSet && dispatched == old(dispatched) + [outcome]
    {
      handlerSet := false;
      dispatched := dispatched + [outcome];
    }
  }
}
