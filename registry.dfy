/**
 * The listener registry of one event emitter: an ordered list of
 * registrations. Callbacks are opaque and stand here as ids; emitting an
 * event calls every listener registered for its kind, in registration order.
 */
module Registry {

  datatype Listener<K> = Listener(kind: K, id: nat)

  /** The number of listeners registered for `kind`. */
  function CountOf<K(==)>(reg: seq<Listener<K>>, kind: K): nat {
    if reg == [] then 0 else (if reg[0].kind == kind then 1 else 0) + CountOf(reg[1..], kind)
  }

  /** emit(kind): the ids of the listeners called, in the order they were registered. */
  function Invoked<K(==)>(reg: seq<Listener<K>>, kind: K): (ids: seq<nat>)
    ensures |ids| == CountOf(reg, kind) <= |reg|
    ensures forall id :: id in ids ==> Listener(kind, id) in reg
  {
    if reg == [] then []
    else (if reg[0].kind == kind then [reg[0].id] else []) + Invoked(reg[1..], kind)
  }

  /** Every listener registered for `kind` is called; none is skipped. */
  lemma {:induction false} InvokedComplete<K>(reg: seq<Listener<K>>, kind: K, id: nat)
    requires Listener(kind, id) in reg
    ensures id in Invoked(reg, kind)
  {
    if reg[0] != Listener(kind, id) {
      InvokedComplete(reg[1..], kind, id);
    }
  }

  /** addListener: a new registration is called after all earlier ones, and only for its own kind. */
  lemma {:induction false} InvokedAfterAdd<K>(reg: seq<Listener<K>>, k: K, id: nat, kind: K)
    ensures Invoked(reg + [Listener(k, id)], kind) == Invoked(reg, kind) + (if k == kind then [id] else [])
  {
    if reg != [] {
      assert (reg + [Listener(k, id)])[1..] == reg[1..] + [Listener(k, id)];
      InvokedAfterAdd(reg[1..], k, id, kind);
    } else {
      assert [Listener(k, id)][1..] == [];
    }
  }
}
