/** Request handlers on their way: what a handler is, what it is called with, and the maps of
    pending ones. */
module Handlers {
  import opened WampMessages

  datatype Errc =
    | PayloadSizeExceeded
    | Cancelled
    | SessionEnded
    | InvalidState
    | ProtocolViolation
    | OtherErrc(code: int)    // from the codec, the transport, or named by the peer

  /** A completion handler: who it belongs to, whether it is the one that adjourn wraps
      around its caller's, and how many ids had been drawn before its own. */
  datatype Handler = Handler(token: nat, adjourning: bool, draw: nat)

  /** What a request id was drawn for: a type of message, and the handler waiting for its
      answer, or -1 if none does. */
  datatype IdUse = IdUse(msgType: MsgType, token: int)

  datatype Outcome = Reply(msg: Message) | Failure(ec: Errc)

  /** A handler call posted to the strand. */
  datatype Task = Task(handler: Handler, outcome: Outcome)

  /** A handler call that took place; a handler is spent by its final one. */
  datatype Completion = Completion(token: nat, outcome: Outcome, final: bool)

  type RequestMap = map<Key, Handler>

  // ----- Maps in key order ----------------------------------------------------------------

  predicate KeyLeq(a: Key, b: Key)
  {
    a.msgType < b.msgType || (a.msgType == b.msgType && a.id <= b.id)
  }

  ghost predicate IsMinKey(keys: set<Key>, k: Key)
  {
    k in keys && forall k' :: k' in keys ==> KeyLeq(k, k')
  }

  lemma MinKeyExists(keys: set<Key>)
    requires keys != {}
    ensures exists k :: IsMinKey(keys, k)
  {
    var k :| k in keys;
    var rest := keys - {k};
    if rest == {} {
      assert keys == {k};
      assert IsMinKey(keys, k);
    } else {
      MinKeyExists(rest);
      var m :| IsMinKey(rest, m);
      assert keys == rest + {k};
      assert IsMinKey(keys, if KeyLeq(k, m) then k else m);
    }
  }

  ghost function MinKey(keys: set<Key>): (k: Key)
    requires keys != {}
    ensures IsMinKey(keys, k)
  {
    MinKeyExists(keys);
    var k :| IsMinKey(keys, k);
    k
  }

  /** The handlers of a map in key order. */
  ghost function Drain(m: RequestMap): seq<Handler>
    decreases m.Keys
  {
    if m == map[] then []
    else
      var k := MinKey(m.Keys);
      [m[k]] + Drain(m - {k})
  }

  // ----- Counting handlers ----------------------------------------------------------------

  function Tokens(hs: seq<Handler>): seq<nat>
  {
    seq(|hs|, i requires 0 <= i < |hs| => hs[i].token)
  }

  ghost function MapTokens(m: RequestMap): multiset<nat>
  {
    multiset(Tokens(Drain(m)))
  }

  function TaskTokens(ts: seq<Task>): multiset<nat>
  {
    multiset(seq(|ts|, i requires 0 <= i < |ts| => ts[i].handler.token))
  }

  function Tasks(hs: seq<Handler>, outcome: Outcome): (ts: seq<Task>)
    ensures |ts| == |hs|
  {
    seq(|hs|, i requires 0 <= i < |hs| => Task(hs[i], outcome))
  }

  function FinalTokens(cs: seq<Completion>): multiset<nat>
  {
    if cs == [] then multiset{}
    else FinalTokens(cs[..|cs| - 1]) + if cs[|cs| - 1].final then multiset{cs[|cs| - 1].token} else multiset{}
  }

  /** One of each of the first n tokens. */
  function AllTokens(n: nat): multiset<nat>
  {
    if n == 0 then multiset{} else AllTokens(n - 1) + multiset{n - 1}
  }

  lemma {:induction false} AllTokensOnce(n: nat, t: nat)
    ensures AllTokens(n)[t] == if t < n then 1 else 0
  {
    if n > 0 {
      AllTokensOnce(n - 1, t);
    }
  }

  lemma {:induction false} MapTokensRemove(m: RequestMap, k: Key)
    requires k in m
    ensures MapTokens(m) == MapTokens(m - {k}) + multiset{m[k].token}
    decreases m.Keys
  {
    var min := MinKey(m.Keys);
    DrainStep(m);
    if k != min {
      MapTokensRemove(m - {min}, k);
      var rest := m - {k};
      MinKeyStays(m, k);
      DrainStep(rest);
      assert rest - {min} == (m - {min}) - {k};
    }
  }

  lemma DrainStep(m: RequestMap)
    requires m != map[]
    ensures var min := MinKey(m.Keys); MapTokens(m) == multiset{m[min].token} + MapTokens(m - {min})
  {
    var min := MinKey(m.Keys);
    assert Tokens(Drain(m)) == [m[min].token] + Tokens(Drain(m - {min}));
  }

  lemma MinKeyStays(m: RequestMap, k: Key)
    requires k in m && k != MinKey(m.Keys)
    ensures m - {k} != map[] && MinKey((m - {k}).Keys) == MinKey(m.Keys)
  {
    var min := MinKey(m.Keys);
    assert min in m - {k};
    var min' := MinKey((m - {k}).Keys);
    assert KeyLeq(min, min') && KeyLeq(min', min);
  }

  lemma MapTokensAdd(m: RequestMap, k: Key, h: Handler)
    requires k !in m
    ensures MapTokens(m[k := h]) == MapTokens(m) + multiset{h.token}
  {
    MapTokensRemove(m[k := h], k);
    assert m[k := h] - {k} == m;
  }

  lemma MapTokensMember(m: RequestMap, k: Key)
    requires k in m
    ensures m[k].token in MapTokens(m)
  {
    MapTokensRemove(m, k);
  }

  lemma TaskTokensConcat(a: seq<Task>, b: seq<Task>)
    ensures TaskTokens(a + b) == TaskTokens(a) + TaskTokens(b)
  {
    var f := (ts: seq<Task>) => seq(|ts|, i requires 0 <= i < |ts| => ts[i].handler.token);
    assert f(a + b) == f(a) + f(b);
  }

  lemma TaskTokensOfOne(t: Task)
    ensures TaskTokens([t]) == multiset{t.handler.token}
  {
    assert seq(1, i requires 0 <= i < 1 => [t][i].handler.token) == [t.handler.token];
  }

  lemma TaskTokensOfTasks(hs: seq<Handler>, outcome: Outcome)
    ensures TaskTokens(Tasks(hs, outcome)) == multiset(Tokens(hs))
  {
    var ts := Tasks(hs, outcome);
    assert seq(|ts|, i requires 0 <= i < |ts| => ts[i].handler.token) == Tokens(hs);
  }

  lemma FinalTokensAppend(cs: seq<Completion>, c: Completion)
    ensures FinalTokens(cs + [c]) == FinalTokens(cs) + if c.final then multiset{c.token} else multiset{}
  {
    assert (cs + [c])[..|cs|] == cs;
  }

  lemma {:induction false} NoFinalYet(cs: seq<Completion>, t: nat)
    ensures FinalTokens(cs)[t] == 0 <==> forall i :: 0 <= i < |cs| && cs[i].token == t ==> !cs[i].final
  {
    if cs != [] {
      var init := cs[..|cs| - 1];
      NoFinalYet(init, t);
      assert forall i :: 0 <= i < |init| ==> init[i] == cs[i];
    }
  }
}
