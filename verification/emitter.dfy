/** The event emitter at the base of both draggers (`EvEmitter` in dragging.js,
    the first three members of `Breek.prototype` in breek.1.0.js): a registry
    from event names to listener lists, `on`, `off` and `emitEvent`.

    Listeners are foreign code: the model identifies them and records, in
    `calls`, which listener was invoked with which name and arguments, in order.
    What a listener then does is not part of this model. */
module Emitter {
  import opened Util

  /** A listener function, compared by identity as `indexOf` does. `Own` are the
      widget's handlers (`onPointerDown`, ...), `Client` those of callers. */
  datatype Listener = Own(handler: string) | Client(id: nat)

  /** One invocation `listener.apply(this, args)` made by `emitEvent`. */
  datatype Call<A> = Call(listener: Listener, name: string, args: A)

  /** `_events[name]`, or no listeners when the name was never registered. */
  function ListenersIn(events: map<string, seq<Listener>>, name: string): seq<Listener> {
    if name in events then events[name] else []
  }

  /** The list after `on(name, l)`: appended unless it is already registered. */
  function Added(ls: seq<Listener>, l: Listener): (r: seq<Listener>)
    ensures forall x :: x in r <==> x in ls || x == l
    ensures |ls| <= |r| <= |ls| + 1 && r[..|ls|] == ls
    ensures Distinct(ls) ==> Distinct(r)
  {
    if IndexOf(ls, l) == -1 then ls + [l] else ls
  }

  /** The list after `off(name, l)`: the first occurrence spliced out. */
  function Removed(ls: seq<Listener>, l: Listener): (r: seq<Listener>)
    ensures l in ls ==> |r| == |ls| - 1
    ensures l !in ls ==> r == ls
    ensures forall x :: x in r ==> x in ls
    ensures forall x :: x in ls && x != l ==> x in r
    ensures Distinct(ls) ==> Distinct(r) && l !in r
  {
    var i := IndexOf(ls, l);
    if i == -1 then ls
    else
      assert forall x :: x in ls && x != l ==> x in ls[..i] + ls[i+1..] by {
        forall x | x in ls && x != l ensures x in ls[..i] + ls[i+1..] {
          var k :| 0 <= k < |ls| && ls[k] == x;
          if k < i { assert (ls[..i] + ls[i+1..])[k] == x; }
          else { assert (ls[..i] + ls[i+1..])[k - 1] == x; }
        }
      }
      ls[..i] + ls[i+1..]
  }

  /** Reference definition: the list with every occurrence of `l` filtered out. */
  function Without(ls: seq<Listener>, l: Listener): seq<Listener> {
    if ls == [] then []
    else if ls[0] == l then Without(ls[1..], l)
    else [ls[0]] + Without(ls[1..], l)
  }

  lemma {:induction false} WithoutAbsent(ls: seq<Listener>, l: Listener)
    requires l !in ls
    ensures Without(ls, l) == ls
  {
    if ls != [] {
      WithoutAbsent(ls[1..], l);
    }
  }

  /** On a duplicate-free list (the only kind `on` builds), `off` removes that
      listener and keeps every other one, in registration order. */
  lemma {:induction false} RemovedIsWithout(ls: seq<Listener>, l: Listener)
    requires Distinct(ls)
    ensures Removed(ls, l) == Without(ls, l)
  {
    if ls == [] {
    } else if ls[0] == l {
      assert l !in ls[1..];
      WithoutAbsent(ls[1..], l);
    } else if l !in ls {
      WithoutAbsent(ls, l);
    } else {
      assert Distinct(ls[1..]);
      RemovedIsWithout(ls[1..], l);
      RemovedCons(ls, l);
    }
  }

  lemma RemovedCons(ls: seq<Listener>, l: Listener)
    requires ls != [] && ls[0] != l && l in ls
    ensures Removed(ls, l) == [ls[0]] + Removed(ls[1..], l)
  {
    var t := ls[1..];
    var j := IndexOf(t, l);
    assert IndexOf(ls, l) == j + 1;
    assert ls[..j + 1] + ls[j + 2..] == [ls[0]] + (t[..j] + t[j + 1..]);
  }

  /** `off` undoes an `on` of a listener that was not yet registered. */
  lemma RemovedUndoesAdded(ls: seq<Listener>, l: Listener)
    requires l !in ls
    ensures Removed(Added(ls, l), l) == ls
  {
    assert IndexOf(ls + [l], l) == |ls| by {
      assert (ls + [l])[|ls|] == l;
      assert (ls + [l])[..|ls|] == ls;
    }
    assert (ls + [l])[..|ls|] == ls;
  }

  /** The calls `emitEvent(name, args)` makes: each listener of the snapshot, in order. */
  function Deliveries<A>(ls: seq<Listener>, name: string, args: A): seq<Call<A>> {
    if ls == [] then [] else [Call(ls[0], name, args)] + Deliveries(ls[1..], name, args)
  }

  lemma {:induction false} DeliveriesAt<A>(ls: seq<Listener>, name: string, args: A, k: nat)
    requires k < |ls|
    ensures |Deliveries(ls, name, args)| == |ls|
    ensures Deliveries(ls, name, args)[k] == Call(ls[k], name, args)
  {
    if k > 0 {
      DeliveriesAt(ls[1..], name, args, k - 1);
    } else if |ls| > 1 {
      DeliveriesAt(ls[1..], name, args, 0);
    }
  }

  lemma {:induction false} DeliveriesSnoc<A>(ls: seq<Listener>, name: string, args: A, k: nat)
    requires k < |ls|
    ensures Deliveries(ls[..k + 1], name, args) == Deliveries(ls[..k], name, args) + [Call(ls[k], name, args)]
  {
    if k > 0 {
      assert ls[..k + 1][1..] == ls[1..][..k];
      assert ls[..k][1..] == ls[1..][..k - 1];
      DeliveriesSnoc(ls[1..], name, args, k - 1);
    }
  }

  class EvEmitter<A> {
    /** `_events`: event name to the listeners registered for it. */
    var events: map<string, seq<Listener>>
    /** Every listener invocation made so far, oldest first. */
    var calls: seq<Call<A>>

    /** `on` never registers a listener twice under one name. */
    ghost predicate Valid()
      reads this
    {
      forall n :: n in events ==> Distinct(events[n])
    }

    constructor ()
      ensures Valid() && events == map[] && calls == []
    {
      events := map[];
      calls := [];
    }

    function Listeners(name: string): seq<Listener>
      reads this
    {
      ListenersIn(events, name)
    }

    /** `on`: a missing (empty) name or a missing listener is ignored. */
    method On(name: string, listener: Option<Listener>)
      requires Valid()
      modifies this`events
      ensures Valid()
      ensures name == "" || listener.None? ==> events == old(events)
      ensures name != "" && listener.Some? ==>
        events == old(events)[name := Added(old(Listeners(name)), listener.value)]
    {
      if name == "" || listener.None? {
        return;
      }
      var listeners := Listeners(name);
      if IndexOf(listeners, listener.value) == -1 {
        listeners := listeners + [listener.value];
      }
      events := events[name := listeners];
    }

    /** `off`: nothing happens when the name has no listeners. */
    method Off(name: string, listener: Option<Listener>)
      requires Valid()
      modifies this`events
      ensures Valid()
      ensures |old(Listeners(name))| == 0 || listener.None? ==> events == old(events)
      ensures |old(Listeners(name))| > 0 && listener.Some? ==>
        events == old(events)[name := Removed(old(Listeners(name)), listener.value)]
    {
      var listeners := Listeners(name);
      if |listeners| == 0 || listener.None? {
        // indexOf(undefined) is -1: no listener is ever undefined
        return;
      }
      var index := IndexOf(listeners, listener.value);
      if index != -1 {
        listeners := listeners[..index] + listeners[index + 1..];
      }
      events := events[name := listeners];
    }

    /** `emitEvent`: calls a snapshot of the listener list in registration order. */
    method EmitEvent(name: string, args: A)
      modifies this`calls
      ensures calls == old(calls) + Deliveries(old(Listeners(name)), name, args)
    {
      var listeners := Listeners(name);
      if |listeners| == 0 {
        return;
      }
      var i := 0;
      while i < |listeners|
        invariant 0 <= i <= |listeners|
        invariant calls == old(calls) + Deliveries(listeners[..i], name, args)
      {
        DeliveriesSnoc(listeners, name, args, i);
        calls := calls + [Call(listeners[i], name, args)];
        i := i + 1;
      }
      assert listeners[..i] == listeners;
    }
  }
}
