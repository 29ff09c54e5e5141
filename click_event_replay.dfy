// A producer reuses one click event across a whole interaction, rewriting
// its fields through the setters instead of building a new event. This
// module says what any sequence of setter calls leaves in the event.

module ClickEventReplay {
  import opened Types
  import opened ClickEvents

  datatype Option<T> = None | Some(value: T)

  /** True when no call in `calls` writes field `f`. */
  predicate Untouched(calls: seq<SetterCall>, f: Field) {
    forall i :: 0 <= i < |calls| ==> Target(calls[i]) != f
  }

  /** The state after the setter calls `calls`, made in order, starting from `s`.
      A field that no call writes keeps its starting value. */
  function Replay(s: ClickState, calls: seq<SetterCall>): (r: ClickState)
    ensures Untouched(calls, FieldX) ==> r.x == s.x
    ensures Untouched(calls, FieldY) ==> r.y == s.y
    ensures Untouched(calls, FieldType) ==> r.clickType == s.clickType
    decreases |calls|
  {
    if calls == [] then s else Replay(Step(s, calls[0]), calls[1..])
  }

  /** Replaying one more call gives `Step` of the state the earlier calls
      reached; `Step` is the effect each setter's contract states. */
  lemma {:induction false} ReplaySnoc(s: ClickState, calls: seq<SetterCall>, c: SetterCall)
    ensures Replay(s, calls + [c]) == Step(Replay(s, calls), c)
    decreases |calls|
  {
    if calls == [] {
      assert [] + [c] == [c];
    } else {
      assert (calls + [c])[1..] == calls[1..] + [c];
      ReplaySnoc(Step(s, calls[0]), calls[1..], c);
    }
  }

  /** The position of the last call in `calls` that writes field `f`, or None
      when no call writes it. */
  function LastWrite(calls: seq<SetterCall>, f: Field): (r: Option<nat>)
    ensures r.Some? ==> r.value < |calls| && Target(calls[r.value]) == f
    ensures r.Some? ==> forall j :: r.value < j < |calls| ==> Target(calls[j]) != f
    ensures r.None? ==> forall j :: 0 <= j < |calls| ==> Target(calls[j]) != f
  {
    if calls == [] then None
    else if Target(calls[|calls| - 1]) == f then Some(|calls| - 1)
    else LastWrite(calls[..|calls| - 1], f)
  }

  /** Putting one call in front of `rest` moves the last write of `f` in
      `rest` one place on; only when `rest` never writes `f` can the front
      call be the last write. */
  lemma {:induction false} LastWriteCons(c: SetterCall, rest: seq<SetterCall>, f: Field)
    ensures LastWrite([c] + rest, f) ==
      match LastWrite(rest, f)
      case Some(i) => Some(i + 1)
      case None => if Target(c) == f then Some(0) else None
  {
    var calls := [c] + rest;
    if rest != [] {
      var front := rest[..|rest| - 1];
      assert calls[..|calls| - 1] == [c] + front;
      assert calls[|calls| - 1] == rest[|rest| - 1];
      if Target(rest[|rest| - 1]) != f {
        LastWriteCons(c, front, f);
      }
    }
  }

  /** After any sequence of setter calls, x holds the argument of the last
      setX, or its starting value when setX was never called. */
  lemma {:induction false} ReplayX(s: ClickState, calls: seq<SetterCall>)
    ensures Replay(s, calls).x ==
      match LastWrite(calls, FieldX)
      case Some(i) => calls[i].newX
      case None => s.x
    decreases |calls|
  {
    if calls != [] {
      var c, rest := calls[0], calls[1..];
      assert calls == [c] + rest;
      ReplayX(Step(s, c), rest);
      LastWriteCons(c, rest, FieldX);
    }
  }

  /** After any sequence of setter calls, y holds the argument of the last
      setY, or its starting value when setY was never called. */
  lemma {:induction false} ReplayY(s: ClickState, calls: seq<SetterCall>)
    ensures Replay(s, calls).y ==
      match LastWrite(calls, FieldY)
      case Some(i) => calls[i].newY
      case None => s.y
    decreases |calls|
  {
    if calls != [] {
      var c, rest := calls[0], calls[1..];
      assert calls == [c] + rest;
      ReplayY(Step(s, c), rest);
      LastWriteCons(c, rest, FieldY);
    }
  }

  /** After any sequence of setter calls, the phase is the argument of the
      last setType, or the starting phase when setType was never called. */
  lemma {:induction false} ReplayType(s: ClickState, calls: seq<SetterCall>)
    ensures Replay(s, calls).clickType ==
      match LastWrite(calls, FieldType)
      case Some(i) => calls[i].newType
      case None => s.clickType
    decreases |calls|
  {
    if calls != [] {
      var c, rest := calls[0], calls[1..];
      assert calls == [c] + rest;
      ReplayType(Step(s, c), rest);
      LastWriteCons(c, rest, FieldType);
    }
  }

  /** No sequence of setter calls changes the force: it is fixed at construction. */
  lemma {:induction false} ReplayKeepsForce(s: ClickState, calls: seq<SetterCall>)
    ensures Replay(s, calls).force == s.force
    decreases |calls|
  {
    if calls != [] {
      ReplayKeepsForce(Step(s, calls[0]), calls[1..]);
    }
  }
}
