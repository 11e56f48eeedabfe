/** The delivery semantics of the two Combine subjects the core uses. A subject keeps
    the history of values sent through it; each subscription remembers where in that
    history it started, and what it receives is the rest of the history from there.
    Schedulers, demand and cancellation are not modelled. */
module Combine {

  /** `PassthroughSubject`: a subscriber receives only what is sent after it subscribed. */
  class PassthroughSubject<T> {
    var sent: seq<T>
    var offsets: seq<nat>

    ghost predicate Valid()
      reads this
    {
      forall i :: 0 <= i < |offsets| ==> offsets[i] <= |sent|
    }

    constructor ()
      ensures Valid() && sent == [] && offsets == []
    {
      sent, offsets := [], [];
    }

    /** What subscription `id` has been handed so far. */
    function Received(id: nat): (r: seq<T>)
      reads this
      requires Valid() && id < |offsets|
      ensures |r| <= |sent| && r == sent[|sent| - |r|..]
    {
      sent[offsets[id]..]
    }

    method Subscribe() returns (id: nat)
      requires Valid()
      modifies this
      ensures Valid() && sent == old(sent)
      ensures id == |old(offsets)| && offsets == old(offsets) + [|sent|]
    {
      id := |offsets|;
      offsets := offsets + [|sent|];
    }

    /** Delivers `x` to every current subscriber, after what each has received. */
    method Send(x: T)
      requires Valid()
      modifies this
      ensures Valid() && sent == old(sent) + [x] && offsets == old(offsets)
      ensures forall id :: 0 <= id < |offsets| ==> Received(id) == old(Received(id)) + [x]
    {
      sent := sent + [x];
    }
  }

  /** `CurrentValueSubject`: always holds a value (the last one sent), and a new
      subscriber receives that value first, then everything sent afterwards. */
  class CurrentValueSubject<T> {
    var sent: seq<T>
    var offsets: seq<nat>

    ghost predicate Valid()
      reads this
    {
      |sent| > 0 && forall i :: 0 <= i < |offsets| ==> offsets[i] < |sent|
    }

    constructor (initial: T)
      ensures Valid() && sent == [initial] && offsets == []
      ensures Value() == initial
    {
      sent, offsets := [initial], [];
    }

    /** The subject's current value. */
    function Value(): T
      reads this
      requires Valid()
    {
      sent[|sent| - 1]
    }

    function Received(id: nat): (r: seq<T>)
      reads this
      requires Valid() && id < |offsets|
      ensures 0 < |r| <= |sent| && r == sent[|sent| - |r|..]
    {
      sent[offsets[id]..]
    }

    method Subscribe() returns (id: nat)
      requires Valid()
      modifies this
      ensures Valid() && sent == old(sent)
      ensures id == |old(offsets)| && offsets == old(offsets) + [|sent| - 1]
      ensures Received(id) == [Value()]
    {
      id := |offsets|;
      offsets := offsets + [|sent| - 1];
    }

    method Send(x: T)
      requires Valid()
      modifies this
      ensures Valid() && sent == old(sent) + [x] && offsets == old(offsets)
      ensures Value() == x
      ensures forall id :: 0 <= id < |offsets| ==> Received(id) == old(Received(id)) + [x]
    {
      sent := sent + [x];
    }
  }
}
