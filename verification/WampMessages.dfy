/** WAMP message types, what the traits table says of them, and request keys. */
module WampMessages {

  /** The numeric message type, one unsigned byte. */
  type MsgType = t: nat | t < 256

  const NONE: MsgType := 0
  const HELLO: MsgType := 1
  const WELCOME: MsgType := 2
  const ABORT: MsgType := 3
  const CHALLENGE: MsgType := 4
  const AUTHENTICATE: MsgType := 5
  const GOODBYE: MsgType := 6
  const ERROR: MsgType := 8
  const PUBLISH: MsgType := 16
  const PUBLISHED: MsgType := 17
  const SUBSCRIBE: MsgType := 32
  const SUBSCRIBED: MsgType := 33
  const UNSUBSCRIBE: MsgType := 34
  const UNSUBSCRIBED: MsgType := 35
  const EVENT: MsgType := 36
  const CALL: MsgType := 48
  const CANCEL: MsgType := 49
  const RESULT: MsgType := 50
  const ENROLL: MsgType := 64
  const REGISTERED: MsgType := 65
  const UNREGISTER: MsgType := 66
  const UNREGISTERED: MsgType := 67
  const INVOCATION: MsgType := 68
  const INTERRUPT: MsgType := 69
  const YIELD: MsgType := 70

  datatype State =
    | Disconnected
    | Connecting
    | Closed
    | Establishing
    | Authenticating
    | Established
    | ShuttingDown
    | Failed

  // The columns of the traits table.

  function RepliesTo(t: MsgType): MsgType
  {
    if t == AUTHENTICATE then CHALLENGE
    else if t == PUBLISHED then PUBLISH
    else if t == SUBSCRIBED then SUBSCRIBE
    else if t == UNSUBSCRIBED then UNSUBSCRIBE
    else if t == RESULT then CALL
    else if t == REGISTERED then ENROLL
    else if t == UNREGISTERED then UNREGISTER
    else if t == YIELD then INVOCATION
    else NONE
  }

  /** Whether the message carries a request id of its own, in its second field. */
  predicate HasRequestId(t: MsgType)
  {
    t in {PUBLISH, PUBLISHED, SUBSCRIBE, SUBSCRIBED, UNSUBSCRIBE, UNSUBSCRIBED, CALL, RESULT,
          ENROLL, REGISTERED, UNREGISTER, UNREGISTERED, INVOCATION}
  }

  predicate IsClientRx(t: MsgType)
  {
    t in {WELCOME, ABORT, CHALLENGE, GOODBYE, ERROR, PUBLISHED, SUBSCRIBED, UNSUBSCRIBED, EVENT, RESULT,
          REGISTERED, UNREGISTERED, INVOCATION, INTERRUPT}
  }

  predicate IsRouterRx(t: MsgType)
  {
    t in {HELLO, AUTHENTICATE, GOODBYE, ERROR, PUBLISH, SUBSCRIBE, UNSUBSCRIBE, CALL, CANCEL, ENROLL,
          UNREGISTER, YIELD}
  }

  predicate IsValidRx(t: MsgType, state: State, isRouter: bool)
  {
    && (if isRouter then IsRouterRx(t) else IsClientRx(t))
    && match state
       case Establishing => t in {HELLO, WELCOME, ABORT, CHALLENGE}
       case Authenticating => t in {WELCOME, ABORT, CHALLENGE, AUTHENTICATE}
       case Established => t !in {HELLO, WELCOME, CHALLENGE, AUTHENTICATE}
       case ShuttingDown => t !in {HELLO, WELCOME, CHALLENGE, AUTHENTICATE}
       case _ => false
  }

  // ----- The traits table -----------------------------------------------------------------

  /** A row of the table: the name, the type replied to, the position of the request id, whether
      a client and a router may receive it, and in which states. */
  datatype Traits = Traits(
    name: string,
    repliesTo: nat,
    idPosition: nat,
    isClientRx: bool,
    isRouterRx: bool,
    forEstablishing: bool,
    forChallenging: bool,
    forEstablished: bool)

  const TRAITS: map<nat, Traits> := map[
    1 := Traits("HELLO", 0, 0, false, true, true, false, false),
    2 := Traits("WELCOME", 0, 0, true, false, true, true, false),
    3 := Traits("ABORT", 0, 0, true, false, true, true, true),
    4 := Traits("CHALLENGE", 0, 0, true, false, true, true, false),
    5 := Traits("AUTHENTICATE", 4, 0, false, true, false, true, false),
    6 := Traits("GOODBYE", 0, 0, true, true, false, false, true),
    8 := Traits("ERROR", 0, 0, true, true, false, false, true),
    16 := Traits("PUBLISH", 0, 1, false, true, false, false, true),
    17 := Traits("PUBLISHED", 16, 1, true, false, false, false, true),
    32 := Traits("SUBSCRIBE", 0, 1, false, true, false, false, true),
    33 := Traits("SUBSCRIBED", 32, 1, true, false, false, false, true),
    34 := Traits("UNSUBSCRIBE", 0, 1, false, true, false, false, true),
    35 := Traits("UNSUBSCRIBED", 34, 1, true, false, false, false, true),
    36 := Traits("EVENT", 0, 0, true, false, false, false, true),
    48 := Traits("CALL", 0, 1, false, true, false, false, true),
    49 := Traits("CANCEL", 0, 0, false, true, false, false, true),
    50 := Traits("RESULT", 48, 1, true, false, false, false, true),
    64 := Traits("REGISTER", 0, 1, false, true, false, false, true),
    65 := Traits("REGISTERED", 64, 1, true, false, false, false, true),
    66 := Traits("UNREGISTER", 0, 1, false, true, false, false, true),
    67 := Traits("UNREGISTERED", 66, 1, true, false, false, false, true),
    68 := Traits("INVOCATION", 0, 1, true, false, false, false, true),
    69 := Traits("INTERRUPT", 0, 0, true, false, false, false, true),
    70 := Traits("YIELD", 68, 0, false, true, false, false, true)
  ]

  predicate ForState(row: Traits, state: State)
  {
    match state
    case Establishing => row.forEstablishing
    case Authenticating => row.forChallenging
    case Established => row.forEstablished
    case ShuttingDown => row.forEstablished
    case _ => false
  }

  /** The columns are those of the table; a type that is not in it is never valid. */
  lemma TraitsAreTheTable(t: MsgType, state: State, isRouter: bool)
    ensures t in TRAITS ==>
              && RepliesTo(t) == TRAITS[t].repliesTo
              && (HasRequestId(t) <==> TRAITS[t].idPosition == 1)
              && (IsValidRx(t, state, isRouter) <==>
                    (if isRouter then TRAITS[t].isRouterRx else TRAITS[t].isClientRx) && ForState(TRAITS[t], state))
    ensures t !in TRAITS ==> RepliesTo(t) == NONE && !HasRequestId(t) && !IsValidRx(t, state, isRouter)
  {
  }

  /** A received message that passed the schema check: the integer fields that a request key
      is made of, and the progress option of a result. */
  datatype Message = Message(msgType: MsgType, field1: int, field2: int, progress: bool)

  datatype Key = Key(msgType: MsgType, id: int)

  function RequestId(m: Message): int
  {
    if m.msgType == ERROR then m.field2 else if HasRequestId(m.msgType) then m.field1 else 0
  }

  /** An ERROR names the type of the request it answers, cut down to a byte. */
  function RequestKey(m: Message): Key
  {
    Key(if m.msgType == ERROR then m.field1 % 256 else m.msgType, RequestId(m))
  }

  predicate IsProgressive(m: Message)
  {
    m.msgType == RESULT && m.progress
  }

  // ----- Request ids ----------------------------------------------------------------------

  const MAX_REQUEST_ID: int := 9007199254740992

  function NextRequestId(last: int): int
  {
    if last >= MAX_REQUEST_ID then 1 else last + 1
  }

  /** The id of the n-th draw, counted from zero. */
  function IdOfDraw(n: nat): int
  {
    n % MAX_REQUEST_ID + 1
  }

  function Draw(last: int, n: nat): int
  {
    if n == 0 then last else NextRequestId(Draw(last, n - 1))
  }

  lemma {:induction false} DrawIsIdOfDraw(n: nat)
    ensures Draw(0, n) == if n == 0 then 0 else IdOfDraw(n - 1)
    ensures n > 0 ==> 1 <= Draw(0, n) <= MAX_REQUEST_ID
  {
    if n > 0 {
      DrawIsIdOfDraw(n - 1);
    }
  }

  /** Draws less than 2^53 apart never give the same id. */
  lemma IdsDistinctWithinWindow(i: nat, j: nat)
    requires i < j < i + MAX_REQUEST_ID
    ensures Draw(0, i + 1) != Draw(0, j + 1)
  {
    DrawIsIdOfDraw(i + 1);
    DrawIsIdOfDraw(j + 1);
  }

  /** And draws exactly 2^53 apart always do: the window cannot be made larger. */
  lemma IdsComeBack(i: nat)
    ensures Draw(0, i + 1) == Draw(0, i + MAX_REQUEST_ID + 1)
  {
    DrawIsIdOfDraw(i + 1);
    DrawIsIdOfDraw(i + MAX_REQUEST_ID + 1);
  }
}
