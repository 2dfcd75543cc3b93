/** The walk through the wish list of transports. */
module Connecting {

  /** How one connection attempt ends. */
  datatype Attempt = Connected | Refused(code: int) | Aborted

  datatype Result = Won(index: nat) | Lost(code: int) | AllTransportsFailed | WasAborted

  datatype State = IsConnecting | IsClosed | IsFailed

  datatype Walk = Walk(wishes: nat, index: nat, state: State, calls: seq<Result>)

  function Begin(wishes: nat): Walk
  {
    Walk(wishes, 0, IsConnecting, [])
  }

  /** The attempt under way ends; until the handler is called there is one. */
  function OnAttempt(w: Walk, a: Attempt): Walk
    requires w.calls == []
  {
    match a
    case Connected => w.(state := IsClosed, calls := [Won(w.index)])
    case Aborted => w.(calls := [WasAborted])
    case Refused(code) =>
      if w.index + 1 < w.wishes then w.(index := w.index + 1)
      else w.(state := IsFailed, calls := [if w.wishes > 1 then AllTransportsFailed else Lost(code)])
  }

  /** Feeds the walk with outcomes for as long as it makes attempts. */
  function Finish(w: Walk, attempts: seq<Attempt>): Walk
    decreases |attempts|
  {
    if w.calls != [] || attempts == [] then w else Finish(OnAttempt(w, attempts[0]), attempts[1..])
  }

  lemma {:induction false} WalkEnds(w: Walk, attempts: seq<Attempt>)
    requires w.calls == [] && w.state == IsConnecting && w.index < w.wishes && |attempts| >= w.wishes - w.index
    ensures var end := Finish(w, attempts);
            && |end.calls| == 1 && end.wishes == w.wishes && w.index <= end.index < w.wishes
            && (forall k :: 0 <= k < end.index - w.index ==> attempts[k].Refused?)
            && match attempts[end.index - w.index]
               case Connected => end.calls == [Won(end.index)] && end.state == IsClosed
               case Aborted => end.calls == [WasAborted] && end.state == IsConnecting
               case Refused(code) =>
                 end.index == w.wishes - 1 && end.state == IsFailed
                 && end.calls == [if w.wishes > 1 then AllTransportsFailed else Lost(code)]
    decreases w.wishes - w.index
  {
    var w1 := OnAttempt(w, attempts[0]);
    if w1.calls == [] {
      WalkEnds(w1, attempts[1..]);
      var end := Finish(w1, attempts[1..]);
      forall k | 0 <= k < end.index - w.index ensures attempts[k].Refused? {
        if k > 0 { assert attempts[k] == attempts[1..][k - 1]; }
      }
    } else {
      assert Finish(w1, attempts[1..]) == w1;
    }
  }

  /** Whatever the attempts give, the handler is called exactly once, after at most one attempt
      per wish: with the first wish that connects, if all before it were refused; with an abort
      as soon as one comes; otherwise with a failure, which is the last error itself only if
      there was a single wish. */
  lemma ConnectCallsOnce(wishes: nat, attempts: seq<Attempt>)
    requires 0 < wishes <= |attempts|
    ensures var end := Finish(Begin(wishes), attempts);
            && |end.calls| == 1
            && (forall i: nat :: end.calls == [Won(i)] <==>
                  i < wishes && attempts[i].Connected? && forall k :: 0 <= k < i ==> attempts[k].Refused?)
            && (end.calls[0].Won? <==> end.state == IsClosed)
            && (end.calls == [WasAborted] <==>
                  exists i :: 0 <= i < wishes && attempts[i].Aborted?
                    && forall k :: 0 <= k < i ==> attempts[k].Refused?)
            && (end.state == IsFailed <==> forall k :: 0 <= k < wishes ==> attempts[k].Refused?)
            && (end.calls == [AllTransportsFailed] <==> end.state == IsFailed && wishes > 1)
  {
    WalkEnds(Begin(wishes), attempts);
    var end := Finish(Begin(wishes), attempts);
    var i := end.index;
    assert forall j :: 0 <= j < i ==> attempts[j].Refused?;
  }

  class WishList {
    var wishes: nat
    var index: nat
    var state: State
    var calls: seq<Result>

    ghost function View(): Walk
      reads this
    {
      Walk(wishes, index, state, calls)
    }

    constructor (wishes: nat)
      requires wishes > 0
      ensures View() == Begin(wishes)
    {
      this.wishes, index, state, calls := wishes, 0, IsConnecting, [];
    }

    method AttemptDone(a: Attempt)
      requires calls == []
      modifies this
      ensures View() == OnAttempt(old(View()), a)
    {
      match a {
        case Connected =>
          state := IsClosed;
          calls := [Won(index)];
        case Aborted =>
          calls := [WasAborted];
        case Refused(code) =>
          var newIndex := index + 1;
          if newIndex < wishes {
            index := newIndex;
          } else {
            state := IsFailed;
            calls := [if wishes > 1 then AllTransportsFailed else Lost(code)];
          }
      }
    }
  }
}
