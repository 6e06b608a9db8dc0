/**
 * The typed listener table every node carries (messageEmitter.js): a map
 * from message type to the set of listener functions registered for it.
 * Listener functions are opaque, so they are tokens; a listener registered
 * through `once` is the wrapper closure `once` builds around the caller's one.
 */
module MessageEmitter {
  import opened Wrappers
  import opened Messages

  /**
   * `Fn(id)` is a function the caller supplied.  `AutoDestroy` is the closure
   * `once(msgType, inner)` builds: it calls `inner` and then removes itself
   * from `msgType`.  Each such closure is a fresh object, hence the serial.
   */
  datatype Listener = Fn(id: nat) | AutoDestroy(serial: nat, msgType: string, inner: nat)

  type Table = map<string, set<Listener>>

  /** The listeners registered for `t` (none when `t` is not a key). */
  function Of(table: Table, t: string): set<Listener> {
    if t in table then table[t] else {}
  }

  /** The table after `on(t, l)`: the set for `t` is created if absent, then `l` joins it. */
  function Added(table: Table, t: string, l: Listener): (r: Table)
    ensures r.Keys == table.Keys + {t}
    ensures Of(r, t) == Of(table, t) + {l}
    ensures forall u :: u in table && u != t ==> r[u] == table[u]
  {
    table[t := Of(table, t) + {l}]
  }

  /** The table after `removeListener(t, l)`: only `l`, and only under `t`, goes. */
  function Removed(table: Table, t: string, l: Listener): (r: Table)
    ensures r.Keys == table.Keys
    ensures Of(r, t) == Of(table, t) - {l}
    ensures forall u :: u in table && u != t ==> r[u] == table[u]
    ensures l !in Of(table, t) ==> r == table
  {
    if t in table && l in table[t] then table[t := table[t] - {l}] else table
  }

  /** The `once` wrappers registered under `t`, which remove themselves when they run. */
  function SelfRemoving(table: Table, t: string): set<Listener> {
    set l | l in Of(table, t) && l.AutoDestroy? && l.msgType == t
  }

  /** The table once every listener of `t` has run: the `once` wrappers of `t` are gone. */
  function AfterEmit(table: Table, t: string): (r: Table)
    ensures r.Keys == table.Keys
    ensures Of(r, t) == Of(table, t) - SelfRemoving(table, t)
    ensures forall u :: u in table && u != t ==> r[u] == table[u]
  {
    if t in table then table[t := table[t] - SelfRemoving(table, t)] else table
  }

  /** The caller-supplied functions that run when the listeners `ls` are invoked. */
  function Callees(ls: set<Listener>): (r: set<nat>)
    ensures forall l :: l in ls && l.Fn? ==> l.id in r
    ensures forall l :: l in ls && l.AutoDestroy? ==> l.inner in r
    ensures forall x :: x in r ==> exists l :: l in ls && ((l.Fn? && l.id == x) || (l.AutoDestroy? && l.inner == x))
  {
    (set l | l in ls && l.Fn? :: l.id) + (set l | l in ls && l.AutoDestroy? :: l.inner)
  }

  /** The number of listeners: the sizes of all the sets, summed. */
  ghost function Total(table: Table): nat
    decreases table.Keys
  {
    if table == map[] then 0
    else
      var t :| t in table;
      |table[t]| + Total(table - {t})
  }

  /** Any key may be taken out first when summing. */
  lemma {:induction false} TotalWithout(table: Table, t: string)
    requires t in table
    ensures Total(table) == |table[t]| + Total(table - {t})
    decreases table.Keys
  {
    var u :| u in table && Total(table) == |table[u]| + Total(table - {u});
    if u != t {
      TotalWithout(table - {u}, t);
      TotalWithout(table - {t}, u);
      assert table - {u} - {t} == table - {t} - {u};
    }
  }

  /** Replacing the set under one key changes the total by the difference in size. */
  lemma TotalUpdate(table: Table, t: string, s: set<Listener>)
    ensures Total(table[t := s]) == Total(table) - |Of(table, t)| + |s|
  {
    var r := table[t := s];
    TotalWithout(r, t);
    assert r - {t} == table - {t};
    if t in table {
      TotalWithout(table, t);
    } else {
      assert table - {t} == table;
    }
  }

  /** `on(t, l)` raises the count by one, or by nothing when `l` is already there. */
  lemma AddedCount(table: Table, t: string, l: Listener)
    ensures Total(Added(table, t, l)) == Total(table) + (if l in Of(table, t) then 0 else 1)
  {
    TotalUpdate(table, t, Of(table, t) + {l});
    if l in Of(table, t) {
      assert Of(table, t) + {l} == Of(table, t);
    }
  }

  /** Registering the same listener twice under the same type counts once. */
  lemma AddedTwiceCount(table: Table, t: string, l: Listener)
    ensures Added(Added(table, t, l), t, l) == Added(table, t, l)
    ensures Total(Added(Added(table, t, l), t, l)) == Total(table) + (if l in Of(table, t) then 0 else 1)
  {
    AddedCount(table, t, l);
  }

  /** `removeListener(t, l)` lowers the count by one when `l` was under `t`, else by nothing. */
  lemma RemovedCount(table: Table, t: string, l: Listener)
    ensures Total(Removed(table, t, l)) == Total(table) - (if l in Of(table, t) then 1 else 0)
  {
    if t in table {
      TotalUpdate(table, t, table[t] - {l});
    }
  }

  /**
   * A `once` listener, freshly registered under a type that has no other
   * `once` wrappers, is called by one emit of that type, and the count then
   * drops by exactly one.
   */
  lemma OnceThenEmit(table: Table, t: string, w: Listener)
    requires w.AutoDestroy? && w.msgType == t && w !in Of(table, t)
    requires SelfRemoving(table, t) == {}
    ensures w.inner in Callees(Of(Added(table, t, w), t))
    ensures Total(AfterEmit(Added(table, t, w), t)) == Total(Added(table, t, w)) - 1
  {
    var a := Added(table, t, w);
    assert SelfRemoving(a, t) == {w};
    assert AfterEmit(a, t) == a[t := a[t] - {w}];
    TotalUpdate(a, t, a[t] - {w});
  }

  /**
   * `removeAllListeners(t)` as written: `None` is the throw.  Without a type
   * the table is emptied; with one, the guard `!has(t)` is inverted, so a
   * registered type keeps its listeners and an unregistered one reaches
   * `get(t).clear()` on `undefined`.
   */
  function RemoveAllAsWritten(table: Table, t: Option<string>): (r: Option<Table>)
    ensures r.None? <==> t.Some? && t.value !in table
    ensures t.None? ==> r == Some(map[])
    ensures t.Some? && r.Some? ==> r.value == table
  {
    if t.None? then Some(map[])
    else if t.value !in table then None
    else Some(table)
  }

  /**
   * What `removeAllListeners(t)` is documented to do: without a type the
   * table is emptied; with one, every listener of `t` goes (the set is
   * cleared in place, so the key stays) and no other type is touched.
   */
  function Cleared(table: Table, t: Option<string>): (r: Table)
    ensures t.None? ==> r == map[]
    ensures t.Some? ==> r.Keys == table.Keys && Of(r, t.value) == {}
    ensures t.Some? ==> forall u :: u in table && u != t.value ==> r[u] == table[u]
  {
    if t.None? then map[]
    else if t.value in table then table[t.value := {}]
    else table
  }

  /** As written, a registered listener survives `removeAllListeners` of its own type, and an unknown type throws. */
  lemma RemoveAllKeepsListeners()
    ensures var table := map["x" := {Fn(0)}];
      RemoveAllAsWritten(table, Some("x")) == Some(table) && Fn(0) in Of(table, "x")
    ensures RemoveAllAsWritten(map[], Some("x")).None?
  {
  }

  /** Clearing one type lowers the count by exactly the number of its listeners. */
  lemma ClearedCount(table: Table, t: string)
    ensures Total(Cleared(table, Some(t))) == Total(table) - |Of(table, t)|
    ensures Total(Cleared(table, None)) == 0
  {
    if t in table {
      TotalUpdate(table, t, {});
    }
  }

  /** An emit lowers the count by exactly the number of the type's `once` wrappers. */
  lemma EmitCount(table: Table, t: string)
    ensures Total(AfterEmit(table, t)) == Total(table) - |SelfRemoving(table, t)|
  {
    if t in table {
      TotalUpdate(table, t, table[t] - SelfRemoving(table, t));
    } else {
      assert SelfRemoving(table, t) == {};
    }
  }

  /** The invariant the emitter keeps: every `once` wrapper has a serial below the next one. */
  ghost predicate Fresh(table: Table, serial: nat) {
    forall t, l :: t in table && l in table[t] && l.AutoDestroy? ==> l.serial < serial
  }

  class Emitter {
    var listeners: Table
    var serial: nat   // identity for the next closure `once` builds

    ghost predicate Valid() reads this {
      Fresh(listeners, serial)
    }

    constructor ()
      ensures Valid() && listeners == map[]
    {
      listeners := map[];
      serial := 0;
    }

    /** `on` / `addListener` with a function the caller supplied. */
    method On(t: string, l: Listener)
      requires Valid() && l.Fn?
      modifies this
      ensures Valid() && serial == old(serial)
      ensures listeners == Added(old(listeners), t, l)
    {
      listeners := Added(listeners, t, l);
    }

    /** `once`: registers a fresh self-removing wrapper around `inner`. */
    method Once(t: string, inner: nat) returns (w: Listener)
      requires Valid()
      modifies this
      ensures Valid()
      ensures w == AutoDestroy(old(serial), t, inner) && w !in Of(old(listeners), t)
      ensures listeners == Added(old(listeners), t, w)
    {
      w := AutoDestroy(serial, t, inner);
      listeners := Added(listeners, t, w);
      serial := serial + 1;
    }

    method RemoveListener(t: string, l: Listener)
      requires Valid()
      modifies this
      ensures Valid() && serial == old(serial)
      ensures listeners == Removed(old(listeners), t, l)
    {
      if t in listeners {
        listeners := listeners[t := listeners[t] - {l}];
      }
    }

    /**
     * `removeAllListeners()` empties the table.  With a type, the guard is
     * inverted in the source: a registered type is left alone, and an
     * unregistered one throws (its set is `undefined`).
     */
    method RemoveAllListeners(t: Option<string>) returns (thrown: bool)
      requires Valid()
      modifies this
      ensures Valid() && serial == old(serial)
      ensures thrown <==> t.Some? && t.value !in old(listeners)
      ensures t.None? ==> listeners == map[]
      ensures t.Some? ==> listeners == old(listeners)
      ensures thrown <==> RemoveAllAsWritten(old(listeners), t).None?
      ensures !thrown ==> listeners == RemoveAllAsWritten(old(listeners), t).value
    {
      thrown := false;
      if t.None? {
        listeners := map[];
      } else if t.value !in listeners {
        thrown := true;
      }
    }

    /** `removeAllListeners` with its guard the right way round; see `Cleared`. */
    method ClearListeners(t: Option<string>)
      requires Valid()
      modifies this
      ensures Valid() && serial == old(serial)
      ensures listeners == Cleared(old(listeners), t)
    {
      if t.None? {
        listeners := map[];
      } else if t.value in listeners {
        listeners := listeners[t.value := {}];
      }
    }

    /**
     * `emit`: throws on a message without a type; otherwise runs every
     * listener registered for that type and no other, after which the
     * `once` wrappers of that type are gone.
     */
    method Emit(m: Message) returns (thrown: bool, called: set<Listener>)
      requires Valid()
      modifies this
      ensures Valid() && serial == old(serial)
      ensures thrown <==> m.msgType.None?
      ensures thrown ==> called == {} && listeners == old(listeners)
      ensures !thrown ==> called == Of(old(listeners), m.msgType.value)
      ensures !thrown ==> listeners == AfterEmit(old(listeners), m.msgType.value)
    {
      called := {};
      if m.msgType.None? {
        thrown := true;
        return;
      }
      thrown := false;
      var t := m.msgType.value;
      if t in listeners {
        called := listeners[t];
        listeners := AfterEmit(listeners, t);
      }
    }

    /** `listenerCount`: sums the set sizes over every type. */
    method ListenerCount() returns (n: nat)
      ensures n == Total(listeners)
    {
      n := 0;
      var rest := listeners;
      while rest != map[]
        invariant n + Total(rest) == Total(listeners)
        decreases rest.Keys
      {
        var t :| t in rest;
        TotalWithout(rest, t);
        n := n + |rest[t]|;
        rest := rest - {t};
      }
    }
  }
}
