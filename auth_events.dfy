/** client/src/utils/authEvents.ts: the module-level listener registry behind
    `authEvents.on/off/emit`. The registry has one event, `AUTH_FAILURE`, so
    it is modelled as that event's list. A listener is a function value in
    the source; here it is an opaque identity, compared by `!==` exactly as
    `filter` compares function references. */
module AuthEvents {

  /** The identity of a registered callback. */
  type Listener = nat

  /** `listeners.filter((l) => l !== listener)` */
  function Without(ls: seq<Listener>, l: Listener): (r: seq<Listener>)
    ensures |r| <= |ls|
    ensures forall x :: x in r <==> x in ls && x != l
  {
    if ls == [] then []
    else (if ls[0] == l then [] else [ls[0]]) + Without(ls[1..], l)
  }

  /** Filtering distributes over concatenation, so the relative order of the
      listeners that stay is the order they were registered in. */
  lemma {:induction false} WithoutAppend(a: seq<Listener>, b: seq<Listener>, l: Listener)
    ensures Without(a + b, l) == Without(a, l) + Without(b, l)
  {
    if a == [] {
      assert a + b == b;
    } else {
      assert (a + b)[1..] == a[1..] + b;
      WithoutAppend(a[1..], b, l);
    }
  }

  /** Removing a listener that was never registered changes nothing. */
  lemma {:induction false} WithoutUnregistered(ls: seq<Listener>, l: Listener)
    requires l !in ls
    ensures Without(ls, l) == ls
  {
    if ls != [] {
      WithoutUnregistered(ls[1..], l);
      assert ls == [ls[0]] + ls[1..];
    }
  }

  /** Every other listener keeps all of its registrations. */
  lemma {:induction false} WithoutKeepsOthers(ls: seq<Listener>, l: Listener, x: Listener)
    requires x != l
    ensures multiset(Without(ls, l))[x] == multiset(ls)[x]
  {
    if ls != [] {
      WithoutKeepsOthers(ls[1..], l, x);
      assert ls == [ls[0]] + ls[1..];
    }
  }

  /** The registry shared by `customFetch` (which emits) and the auth
      context (which subscribes). */
  class Registry {
    var listeners: seq<Listener>

    /** `const listeners = { AUTH_FAILURE: [] }` */
    constructor ()
      ensures listeners == []
    {
      listeners := [];
    }

    /** `authEvents.on('AUTH_FAILURE', listener)`: push at the end, keeping
        any earlier registration of the same listener. */
    method On(l: Listener)
      modifies this
      ensures listeners == old(listeners) + [l]
    {
      listeners := listeners + [l];
    }

    /** `authEvents.off('AUTH_FAILURE', listener)`: drop every registration
        of that listener. */
    method Off(l: Listener)
      modifies this
      ensures listeners == Without(old(listeners), l)
      ensures l !in listeners
    {
      listeners := Without(listeners, l);
    }

    /** `authEvents.emit('AUTH_FAILURE')`: call each registration once, in
        registration order; `called` is the sequence of calls made. */
    method Emit() returns (called: seq<Listener>)
      ensures called == listeners
    {
      called := [];
      var i := 0;
      while i < |listeners|
        invariant 0 <= i <= |listeners|
        invariant called == listeners[..i]
      {
        called := called + [listeners[i]];
        i := i + 1;
      }
    }
  }

  /** An effect that subscribes and then unsubscribes on clean-up leaves the
      registry as it found it, provided that listener was not already there. */
  lemma SubscribeThenCleanUp(ls: seq<Listener>, l: Listener)
    requires l !in ls
    ensures Without(ls + [l], l) == ls
  {
    WithoutAppend(ls, [l], l);
    WithoutUnregistered(ls, l);
    assert Without([l], l) == [];
  }
}
