# Verified model of the CppWAMP client core

CppWAMP is a client library for the Web Application Messaging Protocol. This project models the
parts of it that decide something without a socket, and proves what holds of them on every input
and every run.

* **Session engine** (`WampMessages`, `Handlers`, `Sessions`, `SessionConservation`,
  `SessionStates`, `SessionReplies`, `SessionReceiving`, `SessionSending`, `Peers`): the eight-state
  session, the two maps of pending requests, cancellation, failure and request ids. `Sessions` gives
  every operation as a function of the session state and every run as a list of commands: calls of
  the client, received bytes, transport errors and the running of posted calls. `Peers.Peer` is the
  object with its fields, each method proved to do what the function says. `SessionReceiving` says
  what each received message does and `SessionSending` what each call sends; the other theorems
  about runs are in `SessionConservation`, `SessionStates` and `SessionReplies`.
* **Client tables** (`Subscriptions`, `SubscriptionEffects`, `Unsubscribing`, `Invocations`,
  `Connecting`): topics and event slots, pending invocations, the walk through the wish list of
  transports.
* **Variant codec** (`Variants`, `VariantInequality`, `VariantPaths`, `VariantDecoding`,
  `VariantCodec`, `VariantKeys`): the encoder as a stream of events, the decoder as a machine that
  rebuilds the tree in place with a stack of addresses. Pointers into the tree are paths from its
  root.
* **Caller timeouts** (`CallerTimeout`, `TimeoutEffects`): the ordered set of deadlines, one timer,
  and completions that arrive late, aborted or not.
* **Base64** (`Base64`): both directions, on bytes.
* **Raw socket transport** (`Bits`, `Endian`, `RawsockHeader`, `RawsockHandshake`,
  `RawsockNegotiation`, `RawsockReceiver`, `RawsockLayout`, `RawsockTransport`, `TransportEffects`,
  `Wrappers`): bit fields, byte order, the handshake between two ends, the bytes of both, the
  transmit queue and the receive loop.

A call posted to the strand is an entry in a list that a later step runs. Sizes of encoded
messages, the outcomes of reads and writes, the clock and floating point are parameters. The columns
of the message traits table are those of `messagetraits.ipp`.

Results that say where the code falls short of what it asserts or promises:

* The traits table admits a CHALLENGE while authenticating, but the assertion at
  `peer.hpp:534` does not (`AssertionsHoldIff`, `SecondChallengeIsReachable`).
* A GOODBYE that is too long leaves the session shutting down with no request to end it; that is the
  only way in which the guarantees of the states fail (`StatesGuarantee`,
  `OversizedGoodbyeIsReachable`). What is pending then survives the session (`LeavingIsCleanIff`).
* A length of exactly 2^24 passes the limit of the largest length code but not the 24-bit header
  field; the frame is taken for an empty ping (`HeaderIsFaithful`, `TooLongFrameRead`).
* A ping longer than the limit of the peer that sent it trips the assertion of `sendFrame`
  (`ConnectionDeliversFrames`).
* After a failed write the transport can still use the socket it has released
  (`ReleasedSocketMetIff`).
* A member key that is a composite is neither decoded nor always reported: its end closes the object,
  and the decoder may run into the assertion at `variantdecoding.hpp:100`
  (`DecodesIffStringKeyed`, `OneOtherKey`).
* Timeouts are lost in exactly four situations (`DisciplineIsExact`).
* The handler of an acknowledged unsubscribe can be forgotten (`UnsubscribeAnsweredIff`,
  `UnsubscribeForgotten`).

## Model

| member | source | states |
|---|---|---|
| `Base64.Encode` | cppwamp/include/cppwamp/internal/base64.hpp:28-71 | appends to the sink exactly the quads of the input, three bytes at a time, with one or two pads when one or two bytes are missing at the end; what is in the sink stays |
| `Base64.FillQuad` | cppwamp/include/cppwamp/internal/base64.hpp:36-65 | one turn of the loop takes three bytes, or the one or two that are left, and yields the quad that stands for them |
| `Base64.Decode` | cppwamp/include/cppwamp/internal/base64.hpp:75-118 | returns the error code and appends the bytes that the specification gives, including the bytes of the quads before the one at fault |
| `Base64.TripletFromQuad` | cppwamp/include/cppwamp/internal/base64.hpp:144-159 | the first character that is not acceptable decides the error; otherwise the 24 bits are regrouped into three bytes |
| `Base64.SextetCharInverse` | cppwamp/include/cppwamp/internal/base64.hpp:127-142 | every sextet is written as a character of the alphabet that reads back as that sextet, whether or not pads are allowed |
| `Base64.CharSextetInverse` | cppwamp/include/cppwamp/internal/base64.hpp:161-230 | a character is read if and only if it is in the alphabet, or is a pad where pads are allowed; reading and writing are inverse on the alphabet |
| `Base64.CharIsAlphabetAt` | cppwamp/include/cppwamp/internal/base64.hpp:127-142 | the character of each sextet is the one at that position of the 64-character alphabet of section 4 of RFC 4648, which is written out |
| `Base64.SextetIsAlphabetPosition` | cppwamp/include/cppwamp/internal/base64.hpp:161-230 | the sextet of each character of that alphabet is its position in it; a pad reads as zero where pads are allowed and is the padding error where not; every other character is the character error |
| `Base64.EncodedLength` | cppwamp/include/cppwamp/internal/base64.hpp:28-71 | the encoding of n bytes is 4 * ceil(n / 3) characters long (section 4 of RFC 4648) |
| `Base64.RfcVectors` | cppwamp/include/cppwamp/internal/base64.hpp:28-71 | three of the test vectors of section 10 of RFC 4648 |
| `Base64.EncodedIsSixBits` | cppwamp/include/cppwamp/internal/base64.hpp:28-71 | for all bytes, each character of the encoding stands for the next six bits of the 24 that three bytes make, missing bytes being zeros, and is a pad where no bits are left |
| `Base64.DecodedIsEightBits` | cppwamp/include/cppwamp/internal/base64.hpp:75-159 | for every accepted text, each decoded byte is the next eight bits of the 24 that four sextets make |
| `Base64.EncodeDecodeRoundTrip` | cppwamp/include/cppwamp/internal/base64.hpp:28-118 | for every byte sequence, decoding its encoding succeeds and yields the sequence |
| `Base64.DecodeAccepts` | cppwamp/include/cppwamp/internal/base64.hpp:75-118 | decoding succeeds if and only if the text is a multiple of four characters of the alphabet, of which only the last one or two may be pads; the length error appears if and only if the length is no multiple of four; the output is three bytes a quad less the pads |
| `Base64.DecodeEncodeCanonical` | cppwamp/include/cppwamp/internal/base64.hpp:75-118 | for an accepted text, encoding the decoded bytes gives the text back if and only if the unused low bits of its last data character are zero (section 3.5 of RFC 4648) |
| `Base64.DecodingIsNotInjective` | cppwamp/include/cppwamp/internal/base64.hpp:75-118 | two different accepted texts decode to the same byte: the decoder does not insist on zero bits |
| `Endian.WireRoundTrip` | cppwamp/include/cppwamp/internal/endian.hpp:28-62 | a word goes out most significant byte first, and is read back as the same word, whatever the byte orders of both machines |
| `RawsockHeader.ComputeHeader` | cppwamp/include/cppwamp/internal/rawsocktransport.hpp:88-94 | ORs type and length into an empty header, the length not masked |
| `RawsockHeader.HeaderIsFaithful` | cppwamp/include/cppwamp/internal/rawsockheader.hpp:31-75 | type and length read back from a header as they were put in if and only if the length is below 2^24 |
| `RawsockHeader.HeaderFields` | cppwamp/include/cppwamp/internal/rawsockheader.hpp:31-75 | for every length, the length field keeps its low 24 bits and the next eight are ORed into the type |
| `RawsockHeader.TooLongHeader` | cppwamp/include/cppwamp/internal/rawsockheader.hpp:57-75 | the header of a frame of exactly 2^24 bytes reads as that of an empty ping, or of no known type for a pong |
| `RawsockHandshake.HandshakeFields` | cppwamp/include/cppwamp/internal/rawsockhandshake.hpp:45-96 | codec id, length code, magic octet and reserved bits read back from a handshake as they were put in if and only if the codec id is below 16 |
| `RawsockHandshake.ErrorWordFields` | cppwamp/include/cppwamp/internal/rawsockhandshake.hpp:33-66 | each of the four error words has the magic octet, no reserved bit, no codec, and reads back the error it stands for |
| `RawsockNegotiation.LimitsArePowersOfTwo` | cppwamp/include/cppwamp/internal/rawsockhandshake.hpp:27-28 | the limits are the powers of two from 2^9 to 2^24 |
| `RawsockNegotiation.EndsAgree` | cppwamp/include/cppwamp/internal/rawsockconnector.hpp:100-164 | for every offered codec, set of accepted codecs, length codes and byte orders: both ends complete with the offered codec, and the transmit limit of each is the receive limit of the other, if the codec is accepted; otherwise both fail with the same bad-serializer error |
| `RawsockLayout.OfferLayout` | cppwamp/include/cppwamp/internal/rawsockhandshake.hpp:45-96 | an offer is four bytes: 0x7f, the limit in the high and the codec in the low half of the second, and two zeros, on machines of either byte order |
| `RawsockLayout.ErrorLayout` | cppwamp/include/cppwamp/internal/rawsockhandshake.hpp:33-43 | the four error words carry 1 to 4 in the high half of the second byte, and no codec |
| `RawsockLayout.ConnectorConcludes` | cppwamp/include/cppwamp/internal/rawsockconnector.hpp:129-164 | for any four bytes: without 0x7f a bad handshake; with reserved bits that error; with its own codec established with both limits; without codec the error that the bytes carry, whichever it is; with another codec a bad handshake |
| `RawsockLayout.ErrorsComeThrough` | cppwamp/include/cppwamp/internal/rawsockconnector.hpp:129-141 | each error reaches a connector that asked for a codec as it is |
| `RawsockLayout.ListenerAnswers` | cppwamp/include/cppwamp/internal/rawsocklistener.hpp:116-151 | for any four bytes: no answer without 0x7f, else the four bytes of the reserved-bits error, of an acceptance that echoes the codec with its own limit, or of the unsupported-format error |
| `RawsockLayout.ListenerConcludes` | cppwamp/include/cppwamp/internal/rawsocklistener.hpp:116-188 | what the listener then reports; a codec numbered 0, were it configured, would be taken for an error |
| `RawsockLayout.FrameLayout` | cppwamp/include/cppwamp/internal/rawsocktransport.hpp:57-75 | on the wire a frame is its type (0 WAMP, 1 ping, 2 pong), its length in three bytes, most significant first, and its payload |
| `RawsockLayout.HeaderJudged` | cppwamp/include/cppwamp/internal/rawsocktransport.hpp:246-286 | any four bytes read as a header: a length over the limit is refused before an unknown type, and any other opens the read of so many bytes of that type |
| `RawsockNegotiation.RawsockConnector.OnOpened` | cppwamp/include/cppwamp/internal/rawsockconnector.hpp:60-113 | an opened socket sends the offer; a failure to open reaches the handler |
| `RawsockNegotiation.RawsockConnector.OnHandshakeRead` | cppwamp/include/cppwamp/internal/rawsockconnector.hpp:129-178 | the handler is called once, with the outcome that the received word calls for, and the socket is given up |
| `RawsockNegotiation.RawsockListener.OnHandshakeRead` | cppwamp/include/cppwamp/internal/rawsocklistener.hpp:116-151 | a word with the magic octet is answered by the accepting, unsupported-format or reserved-bits word; one without ends the attempt at once |
| `RawsockNegotiation.RawsockListener.OnHandshakeWritten` | cppwamp/include/cppwamp/internal/rawsocklistener.hpp:135-188 | after the answer is written the handler is called once, with the outcome of the word that was received, not of a later one |
| `RawsockReceiver.PumpComposes` | cppwamp/include/cppwamp/internal/rawsocktransport.hpp:231-286 | how the byte stream is cut into chunks makes no difference to what the receive loop does |
| `RawsockReceiver.WireRead` | cppwamp/include/cppwamp/internal/rawsocktransport.hpp:231-309 | the bytes of any frames within the limit deliver exactly the WAMP payloads and answer exactly the ping payloads, in order, and leave the loop waiting for a header |
| `RawsockReceiver.TooLongFrameRead` | cppwamp/include/cppwamp/internal/rawsocktransport.hpp:231-309 | on a frame of exactly 2^24 bytes, whatever its limit, the receive loop answers an empty ping and reads the payload as frames; after such a pong it stops |
| `RawsockTransport.StepKeepsValid` | cppwamp/include/cppwamp/internal/rawsocktransport.hpp:133-361 | every event, also a read that completes after a failed write, keeps the transport invariant: one write per frame in flight, no idle socket with frames waiting, written frames first among those accepted |
| `RawsockTransport.TransmissionIsFifo` | cppwamp/include/cppwamp/internal/rawsocktransport.hpp:142-229 | after every run, while the transport is running on an open socket, the frames accepted are those written, the one in flight and those queued, in that order; frames only wait during a write; after a close or an error the frames written are still the first ones accepted |
| `RawsockTransport.SocketReleasedIff` | cppwamp/include/cppwamp/internal/rawsocktransport.hpp:193-222 | a step leaves the transport without socket if and only if there was none, or a write or a read failed, or a header was refused |
| `RawsockTransport.ReleasedSocketMetIff` | cppwamp/include/cppwamp/internal/rawsocktransport.hpp:184-361 | after a run the transport can come to use a socket it has released if and only if some event of the run released it and either the transport still counts as running or a header is still being read |
| `RawsockTransport.ReleasedSocketIsReachable` | cppwamp/include/cppwamp/internal/rawsocktransport.hpp:193-262 | a run leads there: start, send, a write that fails, and a header that was already on its way |
| `RawsockTransport.NetRunRefines` | cppwamp/include/cppwamp/internal/rawsocktransport.hpp:184-309 | with sends, pings and write completions between the chunks, the whole transport receives what the receive loop alone receives from the stream |
| `RawsockTransport.ConnectionDeliversFrames` | cppwamp/include/cppwamp/internal/rawsocktransport.hpp:184-309 | over a whole connection the WAMP payloads are delivered and the ping payloads echoed, each once and in order, however chunks and sends interleave; and the length assertion of sendFrame never trips if and only if every ping fits the limit of the peer that sent it |
| `TransportEffects.StepFollows` | cppwamp/include/cppwamp/internal/rawsocktransport.hpp:133-361 | for every event, by its bytes: what is posted (a message, a pong report, or which error), accepted for transmission and counted as written, whether the error handler is called, what is read next, which handlers stay, and which ping is still waited for |
| `TransportEffects.PongReportedOnceIff` | cppwamp/include/cppwamp/internal/rawsocktransport.hpp:159-315 | over any run in which a ping is sent and a pong comes, with no other ping or pong or failure between: the pong is reported if and only if it brings the payload of the ping, once, whatever comes before the next ping |
| `TransportEffects.ReportsWithinPings` | cppwamp/include/cppwamp/internal/rawsocktransport.hpp:159-315 | on every run no more pongs are reported than pings were sent |
| `TransportEffects.ClosedIsSilent` | cppwamp/include/cppwamp/internal/rawsocktransport.hpp:149-157 | after a close nothing is posted, nobody is told of errors and no frame is accepted on any run, until the transport is started again |
| `RawsockTransport.SocketTransport.StartUp` | cppwamp/include/cppwamp/internal/rawsocktransport.hpp:133-140 | installs the handlers and waits for the first header |
| `RawsockTransport.SocketTransport.Send` | cppwamp/include/cppwamp/internal/rawsocktransport.hpp:142-147 | queues a WAMP frame and starts a write if none is under way |
| `RawsockTransport.SocketTransport.PingPeer` | cppwamp/include/cppwamp/internal/rawsocktransport.hpp:159-166 | remembers the ping frame and its handler, and queues the frame |
| `RawsockTransport.SocketTransport.CloseSocket` | cppwamp/include/cppwamp/internal/rawsocktransport.hpp:149-157 | forgets handlers and queued frames, but not the frame in flight |
| `RawsockTransport.SocketTransport.Enqueue` | cppwamp/include/cppwamp/internal/rawsocktransport.hpp:184-191 | appends a frame to the queue and starts a write if possible |
| `RawsockTransport.SocketTransport.TransmitNext` | cppwamp/include/cppwamp/internal/rawsocktransport.hpp:193-229 | takes the first queued frame when the socket is open and no frame is in flight |
| `RawsockTransport.SocketTransport.OnWritten` | cppwamp/include/cppwamp/internal/rawsocktransport.hpp:201-220 | a completed write frees the transmitter for the next frame |
| `RawsockTransport.SocketTransport.OnWriteError` | cppwamp/include/cppwamp/internal/rawsocktransport.hpp:204-215 | a failed write drops the queue, tells the transmit error handler and gives up the socket |
| `RawsockTransport.SocketTransport.ReceiveNext` | cppwamp/include/cppwamp/internal/rawsocktransport.hpp:231-244 | waits for a header while the socket is there |
| `RawsockTransport.SocketTransport.OnHeader` | cppwamp/include/cppwamp/internal/rawsocktransport.hpp:246-254 | a header too long is refused before one of unknown type; any other opens the read of its payload |
| `RawsockTransport.SocketTransport.OnPayload` | cppwamp/include/cppwamp/internal/rawsocktransport.hpp:256-309 | delivers, echoes, or matches the payload with the outstanding ping, and waits for the next header; nothing of it after a close |
| `RawsockTransport.SocketTransport.OnPong` | cppwamp/include/cppwamp/internal/rawsocktransport.hpp:296-315 | a pong that equals the outstanding ping calls its handler once; any pong ends the wait for one |
| `RawsockTransport.SocketTransport.OnReadError` | cppwamp/include/cppwamp/internal/rawsocktransport.hpp:324-337 | a failed read reports to the receive handler and cleans up |
| `RawsockTransport.SocketTransport.FailReading` | cppwamp/include/cppwamp/internal/rawsocktransport.hpp:339-349 | reports an error to the receive handler, if there is one, and cleans up |
| `RawsockTransport.SocketTransport.CleanUp` | cppwamp/include/cppwamp/internal/rawsocktransport.hpp:351-361 | forgets every handler and frame and gives up the socket |
| `CallerTimeout.InsertInOrder` | cppwamp/include/cppwamp/internal/callertimeout.hpp:39-42 | the set stays in order of deadlines, gains the record unless one with the same deadline is there, and the earliest of both is first |
| `CallerTimeout.NeverStallsNeverEarly` | cppwamp/include/cppwamp/internal/callertimeout.hpp:68-153 | over every interleaving of add, remove, clear, expiry and late completions: a set of deadlines that is not empty has a completion outstanding; the handler is called at most once per id, not before its deadline, and never for one removed; every id is pending, fired, removed or lost |
| `CallerTimeout.NoLostTimeouts` | cppwamp/include/cppwamp/internal/callertimeout.hpp:68-153 | under the discipline no record is ever lost and at most one completion is outstanding; every id is pending, fired or removed |
| `CallerTimeout.DisciplineIsExact` | cppwamp/include/cppwamp/internal/callertimeout.hpp:68-153 | from an orderly state a step can lead to a loss, then or later, if and only if it breaks the discipline: an add without handler, with a deadline already there, or on an idle set with a stale completion outstanding; a remove that brings a preempted record to the front before its aborted completion is delivered |
| `CallerTimeout.ExposureIsReachable` | cppwamp/include/cppwamp/internal/callertimeout.hpp:68-108 | a disciplined run from the start leads to where a removal would lose a timeout: a record preempts another and is removed before that is heard of |
| `CallerTimeout.StaleCompletionIsReachable` | cppwamp/include/cppwamp/internal/callertimeout.hpp:68-136 | and one to where an addition would lose one: clear and listen again before the aborted completion is delivered |
| `CallerTimeout.DueTimeoutFires` | cppwamp/include/cppwamp/internal/callertimeout.hpp:124-153 | from every orderly state, the earliest record that is due fires after at most three expiries and deliveries |
| `TimeoutEffects.FateFollows` | cppwamp/include/cppwamp/internal/callertimeout.hpp:68-153 | for every event and request: a new timeout is pending for the time on the clock plus its own, or lost at once if and only if another is pending for that very moment; a pending one ends taken out by its removal or by clearing, and fired or lost by a completion that reaches it as the earliest; all else stays as it was |
| `TimeoutEffects.FiringsFollow` | cppwamp/include/cppwamp/internal/callertimeout.hpp:138-153 | the handler is called if and only if a completion reaches the earliest record, was not aborted, and a handler is installed; with the id of that record |
| `TimeoutEffects.TimeoutSet` | cppwamp/include/cppwamp/internal/callertimeout.hpp:68-153 | over every run: a timeout that is set and neither removed nor cleared stays pending for its moment until it fires, no earlier, or is lost; it is taken out only if it was removed or cleared |
| `TimeoutEffects.ClearedIsSilent` | cppwamp/include/cppwamp/internal/callertimeout.hpp:110-115 | on every run from a scheduler without handler, none fires until one is installed |
| `CallerTimeout.CallerTimeoutScheduler.Listen` | cppwamp/include/cppwamp/internal/callertimeout.hpp:63-66 | installs the timeout handler and nothing else |
| `CallerTimeout.CallerTimeoutScheduler.AddTimeout` | cppwamp/include/cppwamp/internal/callertimeout.hpp:68-83 | inserts the record; starts the timer when idle, cancels the wait when the record comes before all others; keeps the invariant |
| `CallerTimeout.CallerTimeoutScheduler.RemoveTimeout` | cppwamp/include/cppwamp/internal/callertimeout.hpp:85-108 | takes out the record with the id, cancelling the wait if it was the first |
| `CallerTimeout.CallerTimeoutScheduler.ClearAll` | cppwamp/include/cppwamp/internal/callertimeout.hpp:110-115 | forgets the handler and all records, and cancels the wait |
| `CallerTimeout.CallerTimeoutScheduler.WaitForNextDeadline` | cppwamp/include/cppwamp/internal/callertimeout.hpp:124-136 | sets the timer to the earliest deadline, which aborts older waits, and waits |
| `CallerTimeout.CallerTimeoutScheduler.HandleTimer` | cppwamp/include/cppwamp/internal/callertimeout.hpp:138-153 | a completion of the earliest record spends it, calling the handler unless aborted; any completion waits for the next deadline |
| `CallerTimeout.CallerTimeoutScheduler.RunCompletion` | cppwamp/include/cppwamp/internal/callertimeout.hpp:124-153 | delivering any of the queued completions keeps the invariant |
| `Variants.NormalisedIsEqual` | cppwamp/include/cppwamp/internal/variantvisitors.hpp:50-146 | a variant whose small unsigned integers became signed compares equal to the original if and only if no real inside is unequal to itself |
| `Variants.EqualIsReflexive` | cppwamp/include/cppwamp/internal/variantvisitors.hpp:50-146 | a variant equals itself if and only if every real inside does |
| `Variants.EqualIsSymmetric` | cppwamp/include/cppwamp/internal/variantvisitors.hpp:50-146 | on variants without reals equality is symmetric, at every depth and across signed and unsigned integers |
| `Variants.EqualIsTransitive` | cppwamp/include/cppwamp/internal/variantvisitors.hpp:50-146 | on variants without reals equality is transitive |
| `Variants.EqualIffSameNormalised` | cppwamp/include/cppwamp/internal/variantvisitors.hpp:50-146 | variants without reals are equal if and only if they are the same once unsigned integers that fit are made signed |
| `Variants.RealsCompare` | cppwamp/include/cppwamp/internal/variantvisitors.hpp:50-94 | a real is compared with a real, and with an integer after its conversion, by the floating point; a negative one never equals an unsigned integer |
| `Variants.EqualByKinds` | cppwamp/include/cppwamp/internal/variantvisitors.hpp:50-146 | variants of different kinds are never equal, all numbers being of one kind; arrays are equal element by element and objects member by member, with reals anywhere inside |
| `VariantInequality.ListedCompares` | cppwamp/include/cppwamp/internal/variantvisitors.hpp:96-110 | walking two objects pair by pair in key order finds them the same if and only if they have the same keys with equal values |
| `VariantInequality.NotEqualIsNegation` | cppwamp/include/cppwamp/internal/variantvisitors.hpp:150-244 | the separately written inequality is the negation of equality for all variants at every depth, if and only if it is for doubles |
| `VariantDecoding.VisitKeepsWellFormed` | cppwamp/include/cppwamp/internal/variantdecoding.hpp:64-131 | every event keeps the stack of addresses well-formed: each entry is the newest child of the one below, and only the top holds a key; an assertion fails if and only if an end comes with nothing open |
| `VariantDecoding.RunKeepsWellFormed` | cppwamp/include/cppwamp/internal/variantdecoding.hpp:64-287 | so does every stream of events, and the only assertion that a stream can trip is that of an end too many |
| `VariantDecoding.AncestorsBelow` | cppwamp/include/cppwamp/internal/variantdecoding.hpp:160-203 | entries lower on the stack are proper ancestors in the tree |
| `VariantDecoding.NoAddressInsideTop` | cppwamp/include/cppwamp/internal/variantdecoding.hpp:160-168 | no entry of the stack is inside the array on top, so appending to it invalidates none |
| `VariantDecoding.VariantDecodingVisitor.PutValue` | cppwamp/include/cppwamp/internal/variantdecoding.hpp:64-82 | puts a value at the root, at the end of the array on top or under the key of the object on top; without a key it reports the error and changes nothing |
| `VariantDecoding.VariantDecodingVisitor.SetRoot` | cppwamp/include/cppwamp/internal/variantdecoding.hpp:150-158 | the value becomes the tree, and is opened if composite |
| `VariantDecoding.VariantDecodingVisitor.AppendElement` | cppwamp/include/cppwamp/internal/variantdecoding.hpp:160-168 | the value becomes the last element of the array on top, and is opened if composite |
| `VariantDecoding.VariantDecodingVisitor.AssignMember` | cppwamp/include/cppwamp/internal/variantdecoding.hpp:170-197 | the value becomes the member under the key, new or overwritten, the key is used up, and the value is opened if composite |
| `VariantDecoding.VariantDecodingVisitor.PutStringOrKey` | cppwamp/include/cppwamp/internal/variantdecoding.hpp:90-96 | a string is a key exactly when the top is an object without one |
| `VariantDecoding.VariantDecodingVisitor.CloseComposite` | cppwamp/include/cppwamp/internal/variantdecoding.hpp:98-102 | leaves the composite on top |
| `VariantDecoding.VariantDecodingVisitor.VisitEvent` | cppwamp/include/cppwamp/internal/variantdecoding.hpp:211-287 | each visit does what the event calls for; the visits that open a composite, and those of strings, drop the error of put |
| `VariantCodec.ValueRead` | cppwamp/include/cppwamp/internal/variantdecoding.hpp:64-203 | in any state that accepts a value, the events of a document of any depth with string keys have the effect of putting the value built recursively |
| `VariantCodec.DecoderRefinesRecursion` | cppwamp/include/cppwamp/internal/variantdecoding.hpp:64-287 | for every document with string keys, duplicate or not, the in-place stack machine ends with an empty stack and the variant of the recursive builder |
| `VariantCodec.LastMemberCounts` | cppwamp/include/cppwamp/internal/variantdecoding.hpp:170-197 | of members with the same key the last one counts |
| `VariantCodec.ItemsInOrder` | cppwamp/include/cppwamp/internal/variantdecoding.hpp:160-168 | elements appear in the order of the stream |
| `VariantCodec.BuildNormalises` | cppwamp/include/cppwamp/internal/variantdecoding.hpp:265-280 | for every order in which the members of objects can be listed, the recursive builder gives the variant with its small unsigned integers made signed |
| `VariantCodec.DeliveryMakesNoDifference` | cppwamp/include/cppwamp/internal/variantdecoding.hpp:265-280 | a non-negative integer delivered as signed or unsigned, at any place of any stream, changes nothing |
| `VariantCodec.CodecRoundTrip` | cppwamp/include/cppwamp/internal/variantdecoding.hpp:64-287 | for every variant, every order of members and every way of delivering integers, decoding the events of the encoder gives the normalised variant and an empty stack |
| `VariantKeys.OutcomeIsOfFrames` | cppwamp/include/cppwamp/internal/variantdecoding.hpp:64-131 | for every stream whatever, from every well-formed state, how decoding ends is decided by the kinds of the events and one three-valued frame per open composite |
| `VariantKeys.DecodesIffStringKeyed` | cppwamp/include/cppwamp/internal/variantdecoding.hpp:64-287 | the decoder accepts the stream of a document, keys being any documents, if and only if every member key at every depth is a string |
| `VariantKeys.OneOtherKey` | cppwamp/include/cppwamp/internal/variantdecoding.hpp:98-102 | a root object with one key that is not a string trips the assertion if and only if the parts of that key can pass for members of the object, and ends in the error otherwise |
| `VariantKeys.CompositeKeyUnbalances` | cppwamp/include/cppwamp/internal/variantdecoding.hpp:211-227 | instances: the empty array as a key trips the assertion, an array that starts with null ends in the error |
| `VariantCodec.Encode` | cppwamp/include/cppwamp/internal/variantencoding.hpp:30-72 | emits the events of a document that lists the variant |
| `VariantCodec.EncodeArray` | cppwamp/include/cppwamp/internal/variantencoding.hpp:66-72 | emits the elements in order between brackets |
| `VariantCodec.EncodeObject` | cppwamp/include/cppwamp/internal/variantencoding.hpp:74-84 | emits every member once, key before value |
| `WampMessages.DrawIsIdOfDraw` | cppwamp/include/cppwamp/internal/peer.hpp:401-406 | the n-th id drawn is n mod 2^53 plus one, so every id lies in 1 .. 2^53 |
| `WampMessages.IdsDistinctWithinWindow` | cppwamp/include/cppwamp/internal/peer.hpp:401-406 | draws less than 2^53 apart give different ids |
| `WampMessages.IdsComeBack` | cppwamp/include/cppwamp/internal/peer.hpp:401-406 | draws 2^53 apart give the same id, so the window cannot be larger |
| `Sessions.StepKeepsShape` | cppwamp/include/cppwamp/internal/peer.hpp:162-232 | on every step, whatever is received and however long the messages are, the transport is set exactly in the states closed, establishing, authenticating, established and shutting down; calls posted to the strand are failures; nothing is dropped but by terminate |
| `SessionConservation.HandlersAreConserved` | cppwamp/include/cppwamp/internal/peer.hpp:263-386 | over every run each handler handed in is in exactly one place: pending in one of the maps, posted, spent by one final call, or dropped by terminate; no call follows the final one; only handlers of ongoing requests get calls that are not final |
| `SessionStates.StatesGuarantee` | cppwamp/include/cppwamp/internal/peer.hpp:162-648 | for every run of a client, after each of its commands the HELLO request pends only while establishing or authenticating, the GOODBYE request exactly while shutting down, all others only while established or shutting down, and nothing elsewhere, if and only if every GOODBYE that it leaves with fits the transport |
| `SessionStates.StepKeyedIff` | cppwamp/include/cppwamp/internal/peer.hpp:162-648 | one step keeps the invariant behind that if and only if it is not a leave with a GOODBYE that is too long |
| `SessionStates.OversizedGoodbyeIsReachable` | cppwamp/include/cppwamp/internal/peer.hpp:199-221 | a run from the start ends shutting down with nothing pending: connect, join, be welcomed, leave with a GOODBYE that is too long |
| `SessionStates.LeavingIsCleanIff` | cppwamp/include/cppwamp/internal/peer.hpp:199-221 | a session that is left and answered ends closed with empty maps if and only if its GOODBYE fitted the transport or nothing was pending |
| `SessionStates.AssertionsHoldIff` | cppwamp/include/cppwamp/internal/peer.hpp:525-545 | for a message that the traits table admits, the assertions of the processing functions hold if and only if it is not a CHALLENGE while authenticating |
| `SessionStates.SecondChallengeIsReachable` | cppwamp/include/cppwamp/internal/peer.hpp:532-537 | a client can get into that state: connect, join, be challenged |
| `SessionStates.InboundIsKnown` | cppwamp/include/cppwamp/internal/peer.hpp:446-494 | what is passed on to the message handler of a client is one of the four kinds that its switch knows |
| `SessionReplies.ReplyIsUnambiguous` | cppwamp/include/cppwamp/internal/peer.hpp:496-523 | while no pending request is 2^53 draws old, no key is in both maps |
| `SessionReplies.NewRequestDisplacesNone` | cppwamp/include/cppwamp/internal/peer.hpp:369-379 | and the key of a new request is in neither map |
| `SessionReplies.RepliesReachTheirOwn` | cppwamp/include/cppwamp/internal/peer.hpp:352-406 | over every run within that window: a pending request is the one that its id was drawn for, the maps share no key, and the next request displaces none |
| `SessionReplies.RepliesAreTruthful` | cppwamp/include/cppwamp/internal/peer.hpp:408-523 | over every run, with no assumption on sizes, inputs or the order of calls, a handler called with a reply, final or progressive, came with a request of the type that the reply answers: one for which the id in the reply was drawn, or the HELLO or GOODBYE itself |
| `SessionReplies.HandlersHaveOneRequest` | cppwamp/include/cppwamp/internal/peer.hpp:352-406 | over every run no handler comes with two requests, so the request answered is its own |
| `SessionReplies.CancelTakesOut` | cppwamp/include/cppwamp/internal/peer.hpp:279-307 | a cancellation that does not wait takes the call out of the first map that has it and leaves the other |
| `SessionReplies.LateReplyIgnoredIff` | cppwamp/include/cppwamp/internal/peer.hpp:273-318 | after a cancellation that does not wait, a late reply changes nothing if and only if the call was not pending in both maps |
| `WampMessages.TraitsAreTheTable` | cppwamp/include/cppwamp/internal/messagetraits.ipp:27-165 | which message a type answers, whether it carries a request id, and in which states which end admits it, agree with the rows of the table written out, for every type |
| `SessionReceiving.OneShotAnswered` | cppwamp/include/cppwamp/internal/peer.hpp:496-523 | a message that answers a one-shot request (by a table of message types) calls its handler with that message, for the last time, takes the request out and does nothing else but for the state it leads to |
| `SessionReceiving.LeavingAnswered` | cppwamp/include/cppwamp/internal/peer.hpp:206-214 | the answer to a GOODBYE closes the session, posts the error to every other pending handler and reaches the handler |
| `SessionReceiving.OngoingAnswered` | cppwamp/include/cppwamp/internal/peer.hpp:508-522 | an answer to an ongoing call reaches its handler; progress leaves it pending and anything else is final |
| `SessionReceiving.NothingAnswered` | cppwamp/include/cppwamp/internal/peer.hpp:496-523 | an answer to nothing calls no handler and touches no request |
| `SessionReceiving.OpeningReceived` | cppwamp/include/cppwamp/internal/peer.hpp:525-537 | HELLO establishes a session, CHALLENGE makes it authenticating; both are passed on |
| `SessionReceiving.AbortReceived` | cppwamp/include/cppwamp/internal/peer.hpp:547-581 | an ABORT of an established session fails it with the error that its reason names, every pending handler being posted with it; while shutting down it changes nothing |
| `SessionReceiving.GoodbyeReceived` | cppwamp/include/cppwamp/internal/peer.hpp:583-611 | a GOODBYE that comes first closes the session, posts its error to every pending handler and is answered by one GOODBYE |
| `SessionReceiving.UnsolicitedReceived` | cppwamp/include/cppwamp/internal/peer.hpp:446-494 | every other admitted message is passed on, unless the session is shutting down |
| `SessionReceiving.BadInputReceived` | cppwamp/include/cppwamp/internal/peer.hpp:408-444 | input that is undecodable, no message, not admitted or out of time fails the session with the error it calls for |
| `SessionReceiving.AnswersAreDelivered` | cppwamp/include/cppwamp/internal/peer.hpp:408-523 | on every run: an admitted message calls exactly the handler of the pending request it answers, with that message, finally unless it is progress of an ongoing call, the request then no longer pending; if there is none it calls no handler |
| `SessionSending.JoinStep` | cppwamp/include/cppwamp/internal/peer.hpp:171-197 | in a closed session a HELLO that fits goes out and is pending with its handler; one too long is not sent and its handler told so; in another state the handler is told that |
| `SessionSending.LeaveStep` | cppwamp/include/cppwamp/internal/peer.hpp:199-221 | the same for GOODBYE in an established session |
| `SessionSending.RequestStep` | cppwamp/include/cppwamp/internal/peer.hpp:352-386 | the same for each type of request, under the id of the next draw |
| `SessionSending.OngoingCallStep` | cppwamp/include/cppwamp/internal/peer.hpp:352-386 | the same for calls with progress, in the map of ongoing requests |
| `SessionSending.CancelStep` | cppwamp/include/cppwamp/internal/peer.hpp:273-318 | for every mode and length: CANCEL with the id of the call goes out if and only if the call was pending and it fits; unless the mode is kill exactly one handler is told and its request taken out |
| `SessionSending.ConnectionSteps` | cppwamp/include/cppwamp/internal/peer.hpp:156-169 | connecting, failing to and opening lead to the state, transport and limit they should |
| `SessionSending.EndingSteps` | cppwamp/include/cppwamp/internal/peer.hpp:223-232 | disconnecting posts the end of the session to every pending handler, terminating lets them go; both leave nothing pending |
| `SessionSending.TransportErrorStep` | cppwamp/include/cppwamp/internal/peer.hpp:178-196 | a transport error fails the session with that error, unless it is disconnected |
| `SessionSending.RunTaskStep` | cppwamp/include/cppwamp/internal/peer.hpp:327-333 | the strand calls the handler posted first with what it was posted with |
| `SessionSending.PendingRequestsWereSent` | cppwamp/include/cppwamp/internal/peer.hpp:352-386 | on every run each request that is pending in either map has been sent |
| `SessionSending.CommandsSend` | cppwamp/include/cppwamp/internal/peer.hpp:162-406 | on every run each command sends exactly what it should: a request that fits with the id drawn for it, a CANCEL for a pending call, one GOODBYE when the router leaves first, and nothing else |
| `Peers.Peer.OpenTransport` | cppwamp/include/cppwamp/internal/peer.hpp:162-169 | sets transport, limit and the closed state |
| `Peers.Peer.PostAll` | cppwamp/include/cppwamp/internal/peer.hpp:636-648 | posts every handler of a map with the error, in key order |
| `Peers.Peer.AbortAll` | cppwamp/include/cppwamp/internal/peer.hpp:636-648 | posts all pending handlers with the error, or lets them go while terminating, and empties both maps |
| `Peers.Peer.FailWith` | cppwamp/include/cppwamp/internal/peer.hpp:613-628 | fails the session once: a second failure changes nothing |
| `Peers.Peer.CloseTransport` | cppwamp/include/cppwamp/internal/peer.hpp:223-232 | disconnects, aborts what is pending and gives up the transport |
| `Peers.Peer.DrawRequestId` | cppwamp/include/cppwamp/internal/peer.hpp:388-406 | draws the next id, for the message types that carry one |
| `Peers.Peer.Send` | cppwamp/include/cppwamp/internal/peer.hpp:335-350 | a message that is too long is not sent, though its id is used up |
| `Peers.Peer.RequestOneShot` | cppwamp/include/cppwamp/internal/peer.hpp:352-386 | posts the handler with an error if the message is too long, else enlists it under its key, posting a cancellation to one that was there |
| `Peers.Peer.OngoingRequest` | cppwamp/include/cppwamp/internal/peer.hpp:352-386 | the same in the map of ongoing requests |
| `Peers.Peer.Adjourn` | cppwamp/include/cppwamp/internal/peer.hpp:199-221 | shuts down with a GOODBYE whose wrapped handler closes the session on a reply |
| `Peers.Peer.Cancel` | cppwamp/include/cppwamp/internal/peer.hpp:273-318 | unless the mode is kill the handler is posted with a cancellation at once; CANCEL is sent if and only if the call was pending |
| `Peers.Peer.CallHandler` | cppwamp/include/cppwamp/internal/peer.hpp:206-214 | the wrapped handler closes and aborts the rest before the call it wraps, but only for a reply |
| `Peers.Peer.HandleReply` | cppwamp/include/cppwamp/internal/peer.hpp:496-523 | takes the one-shot handler first; a progressive result leaves the ongoing one in place |
| `Peers.Peer.HandleAbort` | cppwamp/include/cppwamp/internal/peer.hpp:547-581 | answers the HELLO while establishing or authenticating, is discarded while shutting down, else fails the session |
| `Peers.Peer.HandleGoodbye` | cppwamp/include/cppwamp/internal/peer.hpp:583-611 | answers the GOODBYE while shutting down, else aborts all, answers and closes |
| `Peers.Peer.HandleMessage` | cppwamp/include/cppwamp/internal/peer.hpp:446-494 | routes replies, errors and session messages, and passes the rest on unless shutting down |
| `Peers.Peer.Receive` | cppwamp/include/cppwamp/internal/peer.hpp:408-444 | fails on input that is early, undecodable, malformed or not admitted; processes the rest |
| `Peers.Peer.RunPosted` | cppwamp/include/cppwamp/internal/peer.hpp:327-333 | the strand runs the oldest posted call |
| `Subscriptions.TablesAgree` | cppwamp/include/cppwamp/internal/client.hpp:399-529 | over every run, if the map of the router from topics to ids is fixed and one-to-one: a topic has an id in the one table exactly when that id has slots in the other, all for that topic; no id is without slots; slots are below the next slot number and never shared |
| `Unsubscribing.DismissedWithLastSlot` | cppwamp/include/cppwamp/internal/client.hpp:465-529 | for every step: UNSUBSCRIBE goes out if and only if an established session gives up the last slot, then neither table holds anything of the subscription, and only so or at the end of a session does one leave the table |
| `Unsubscribing.DismissedOnRuns` | cppwamp/include/cppwamp/internal/client.hpp:465-529 | the same after every run |
| `Unsubscribing.UnsubscribeAnsweredIff` | cppwamp/include/cppwamp/internal/client.hpp:502-529 | at the end of every run, the handler of each acknowledged unsubscribe was called once or still waits for the router (or was let go by terminate) if at its call the subscription was unknown or the slot its last one; otherwise it was never called and waits for nothing |
| `Unsubscribing.UnsubscribeForgotten` | cppwamp/include/cppwamp/internal/client.hpp:502-529 | a run from the start that subscribes twice and gives up one slot: its handler is never called, whatever follows |
| `Subscriptions.EventReachesEverySlot` | cppwamp/include/cppwamp/internal/client.hpp:1291-1311 | an event is posted once to every live slot of its subscription and to no other |
| `SubscriptionEffects.StepFollows` | cppwamp/include/cppwamp/internal/client.hpp:399-529 | for every event, entry by entry: which slots are live with which record, which topics are known under which id, which requests are asked, what the handlers are told (accepted, refused, unknown, no session, aborted) and which wait, and what is posted to each slot |
| `SubscriptionEffects.LiveSlotHearsAll` | cppwamp/include/cppwamp/internal/client.hpp:1291-1311 | over any run that does not drop it, a live slot keeps its record, and each event of its subscription is posted to it as often as it comes |
| `SubscriptionEffects.SubscriberHearsAll` | cppwamp/include/cppwamp/internal/client.hpp:408-423 | on every run from the start, an accepted subscription gives its record a slot of its own that hears all from then on |
| `Subscriptions.Client.AddSlot` | cppwamp/include/cppwamp/internal/client.hpp:416-419 | a new slot number, and the record under it |
| `Subscriptions.Client.RequestTopic` | cppwamp/include/cppwamp/internal/client.hpp:425-445 | a known topic gets a slot at once, an unknown one a request |
| `Subscriptions.Client.OnSubscribed` | cppwamp/include/cppwamp/internal/client.hpp:408-423 | an entry that is already in the topic table is kept |
| `Subscriptions.Client.DropSlot` | cppwamp/include/cppwamp/internal/client.hpp:465-488 | drops the slot, with the last one both entries, and asks the router if the session is established |
| `Subscriptions.Client.DropSlotAcknowledged` | cppwamp/include/cppwamp/internal/client.hpp:502-529 | the same with a handler, which waits, is called at once, or is forgotten |
| `Subscriptions.Client.Disconnect` | cppwamp/include/cppwamp/internal/client.hpp:1136-1147 | clears the tables and aborts what waits |
| `Subscriptions.HandlerList.Add` | cppwamp/include/cppwamp/internal/client.hpp:1170-1195 | a handler waits for the router after the last slot of an established session, is told that there is none for an unknown subscription or another state, and is forgotten otherwise |
| `Subscriptions.HandlerList.OnUnsubscribed` | cppwamp/include/cppwamp/internal/client.hpp:1178-1186 | the answer of the router reaches the handler that waits for it, and no other |
| `Subscriptions.HandlerList.AbortAll` | cppwamp/include/cppwamp/internal/peer.hpp:636-648 | every handler that waits is called with an error, in order, or let go while terminating |
| `Subscriptions.Client.OnEvent` | cppwamp/include/cppwamp/internal/client.hpp:1291-1311 | visits the slots in turn, posting once to each |
| `Invocations.InterruptionsAreSafe` | cppwamp/include/cppwamp/internal/client.hpp:925-1410 | over every run with distinct invocation ids, an interruption is posted at most once per invocation and never after its final YIELD or ERROR was issued, also when a result was too long |
| `Invocations.StepActs` | cppwamp/include/cppwamp/internal/client.hpp:925-1410 | for every event: what is logged, which invocations are pending and for which registration, and what is registered |
| `Invocations.InvocationsAreHandled` | cppwamp/include/cppwamp/internal/client.hpp:1366-1410 | on every run an invocation becomes pending if and only if its procedure is registered then and is answered by an ERROR if and only if not; an interruption is posted if and only if the invocation is pending and its procedure takes them; a YIELD ends it if and only if the session is established and the result is final or too long |
| `Invocations.CalleeSession.HandleInvocation` | cppwamp/include/cppwamp/internal/client.hpp:1366-1389 | a registered procedure makes the invocation pending, another is answered by an ERROR |
| `Invocations.CalleeSession.HandleInterrupt` | cppwamp/include/cppwamp/internal/client.hpp:1391-1410 | a pending invocation stops being pending, and is interrupted if its procedure takes interruptions |
| `Invocations.CalleeSession.YieldResult` | cppwamp/include/cppwamp/internal/client.hpp:925-936 | a final result ends the pending state; one that is too long, progressive or not, gives way to an ERROR |
| `Invocations.CalleeSession.YieldFailure` | cppwamp/include/cppwamp/internal/client.hpp:966-974 | an ERROR ends the pending state |
| `Connecting.WalkEnds` | cppwamp/include/cppwamp/internal/client.hpp:1066-1134 | the walk ends after at most one attempt per wish left, at the first attempt that is not refused or at the last one, in the state and with the result that this attempt calls for |
| `Connecting.ConnectCallsOnce` | cppwamp/include/cppwamp/internal/client.hpp:209-227 | connect calls its handler exactly once: with the index of the first wish that connects if and only if all before were refused, with an abort if and only if one comes before any connects, else failed; all-transports-failed if and only if there was more than one wish |
| `Connecting.WishList.AttemptDone` | cppwamp/include/cppwamp/internal/client.hpp:1077-1133 | one attempt: done, aborted, or on to the next wish |

## Left out

- ReplyIsUnambiguous, NewRequestDisplacesNone, RepliesReachTheirOwn: assume that no pending request is 2^53 draws old, because ids come back after that many (IdsComeBack).
- TablesAgree: assumes that the router's map from topics to subscription ids is one-to-one and the same during the whole run, also across sessions that ended without the tables being cleared; agreement of the tables with what the router itself keeps is not modelled.
- InterruptionsAreSafe: assumes that invocation ids are distinct, and that only received invocations are answered.
- ConnectCallsOnce: one connect attempt at a time, not interleaved with a disconnect or a terminate.
- NoLostTimeouts: assumes the discipline of DisciplineIsExact, which a client that never removes a timeout can only break by adding one with no handler, with a deadline already taken or while a stale completion is outstanding.
- CodecRoundTrip: for the visitor of the binary codecs; the JSON visitor, its separate key visit, the strings with a leading NUL that stand for blobs, and all JSON text and number formatting are not modelled.
- OneOtherKey: for one key that is not a string, in the root object; for several, or deeper ones, DecodesIffStringKeyed says that decoding does not succeed, and OutcomeIsOfFrames in which of the two ways it fails, by running through the stream.
- VariantCodec.Encode: object members are emitted in any order, of which the key order of the original is one.
- EqualIsSymmetric, EqualIsTransitive: not stated for variants with reals, on which the conversion of integers to doubles loses digits.
- NotEqualIsNegation: the typed value is given as the variant it converts to; vectors and maps of static element types are not modelled apart.
- Variants.FloatOps: floating point comparison and conversion are parameters without assumptions.
- The parsing of bytes by jsoncons: it is taken to deliver the events that were sent, except that a non-negative integer may arrive as signed or unsigned and that lengths of composites may be missing.
- Sockets, resolvers, acceptors, executors and coroutines: kept only as outcomes of operations and as queued steps.
- RawsockTransport: a transport is started once and not restarted after a close; the measured round-trip time of a ping and the buffer of an empty payload are not modelled; what a program does after using a released socket is not modelled, only when it would.
- Invocations.CalleeSession.YieldFailure: an ERROR counts as issued when it is asked for; the second attempt without its arguments, when it is too long (peer.hpp:242-261), is not modelled apart.
- Reading of a message from its fields: messages come as type, two integer fields and the progress option, and the schema check as the input NotAMessage.
- Peers.Peer.HandleGoodbye: the answering GOODBYE is given size zero; it is a message of some 40 bytes, and the smallest limit of a raw socket is 512 (LimitsArePowersOfTwo).
- UnsubscribeAnsweredIff: an UNSUBSCRIBE is taken to fit the transport, being shorter still.
- SessionConservation.HandlersAreConserved: covers the handlers that go through the session engine; the handler of connect does not, and user handlers that run inline and call back into the session are taken as later steps.
- A HELLO that is too long leaves the session establishing with no request, which StatesGuarantee allows.
- Logging, state change notifications, options, registrations beyond the table that interruptions need, and the router's side of a session beyond the messages the engine itself handles.
