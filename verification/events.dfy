/**
 * core/EventDispatcher.go: per-type listener lists. A dispatcher maps an
 * event type to the listeners registered for it, in registration order;
 * adding is idempotent, removing deletes the matching entry, and dispatching
 * calls a snapshot of the type's list.
 *
 * A listener is a callback identified by its identity, so it is modelled by
 * an opaque id. Calling it is code outside the model: DispatchEvent returns
 * the sequence of calls it makes, each with the event it delivers.
 */
module Events {
  import opened Slices

  datatype Listener = Listener(id: int)

  /** NewEvent: a type and, once dispatched, the dispatcher as target. */
  datatype Event = Event(kind: string, target: EventDispatcher?)

  function NewEvent(kind: string): Event {
    Event(kind, null)
  }

  /** The list registered for type t; a type with no entry has none. */
  function Registered(listeners: map<string, seq<Listener>>, t: string): seq<Listener> {
    if t in listeners then listeners[t] else []
  }

  /** AddEventListener: the type gets an entry, and l is appended unless it is already there. */
  function WithListener(listeners: map<string, seq<Listener>>, t: string, l: Listener): map<string, seq<Listener>> {
    var list := Registered(listeners, t);
    listeners[t := if IndexOf(list, l) == -1 then list + [l] else list]
  }

  /** RemoveEventListener: the first l is deleted from type t's list, if the type and l are there. */
  function WithoutListener(listeners: map<string, seq<Listener>>, t: string, l: Listener): map<string, seq<Listener>> {
    if t in listeners && IndexOf(listeners[t], l) != -1 then listeners[t := Deleted(listeners[t], l)] else listeners
  }

  /** No list holds a listener twice. */
  predicate Distinct(listeners: map<string, seq<Listener>>) {
    forall t | t in listeners :: Unique(listeners[t])
  }

  /** After AddEventListener(t, l), l is registered for t; l is appended last when it was new; other types keep their lists. */
  lemma AddRegisters(listeners: map<string, seq<Listener>>, t: string, l: Listener)
    ensures var r := WithListener(listeners, t, l);
      && t in r && l in r[t]
      && (l !in Registered(listeners, t) ==> r[t] == Registered(listeners, t) + [l])
      && (l in Registered(listeners, t) ==> r[t] == Registered(listeners, t))
      && forall u | u != t :: (u in r <==> u in listeners) && (u in r ==> r[u] == listeners[u])
  {
  }

  /** AddEventListener is idempotent: re-adding a registered listener changes nothing. */
  lemma AddIdempotent(listeners: map<string, seq<Listener>>, t: string, l: Listener)
    ensures WithListener(WithListener(listeners, t, l), t, l) == WithListener(listeners, t, l)
  {
    AddRegisters(listeners, t, l);
  }

  /**
   * RemoveEventListener takes exactly one entry for l out of t's list and
   * keeps the order of the rest; other types keep their lists; it is a no-op
   * when l is not registered for t.
   */
  lemma RemoveDeletes(listeners: map<string, seq<Listener>>, t: string, l: Listener)
    ensures var r := WithoutListener(listeners, t, l);
      && (l !in Registered(listeners, t) ==> r == listeners)
      && (l in Registered(listeners, t) ==>
            t in r && |r[t]| == |listeners[t]| - 1
            && multiset(r[t]) == multiset(listeners[t]) - multiset{l}
            && exists i | 0 <= i <= |r[t]| :: listeners[t] == r[t][..i] + [l] + r[t][i..] && l !in r[t][..i])
      && forall u | u != t :: (u in r <==> u in listeners) && (u in r ==> r[u] == listeners[u])
  {
    if l in Registered(listeners, t) {
      DeletedSplice(listeners[t], l);
    }
  }

  /** AddEventListener and RemoveEventListener keep every list free of repeats, and after a removal l is no longer registered for t. */
  lemma DistinctKept(listeners: map<string, seq<Listener>>, t: string, l: Listener)
    requires Distinct(listeners)
    ensures Distinct(WithListener(listeners, t, l))
    ensures Distinct(WithoutListener(listeners, t, l))
    ensures l !in Registered(WithoutListener(listeners, t, l), t)
  {
    if l !in Registered(listeners, t) {
      AppendedUnique(Registered(listeners, t), l);
    }
    if t in listeners {
      DeletedUnique(listeners[t], l);
    }
  }

  /** Adding a new listener to a type that has an entry and then removing it restores the map. */
  lemma RemoveUndoesAdd(listeners: map<string, seq<Listener>>, t: string, l: Listener)
    requires t in listeners && l !in listeners[t]
    ensures WithoutListener(WithListener(listeners, t, l), t, l) == listeners
  {
    DeletedAppended(listeners[t], l);
    assert listeners[t := listeners[t]] == listeners;
  }

  class EventDispatcher {
    var listeners: map<string, seq<Listener>>

    /** NewEventDispatcher: no types registered. */
    constructor ()
      ensures listeners == map[]
    {
      listeners := map[];
    }

    /** indexOfListener's loop: the first position of the listener, or -1. */
    static method IndexOfListener(list: seq<Listener>, listener: Listener) returns (index: int)
      ensures index == IndexOf(list, listener)
    {
      for i := 0 to |list|
        invariant listener !in list[..i]
      {
        if list[i] == listener {
          return i;
        }
      }
      assert list[..|list|] == list;
      return -1;
    }

    method AddEventListener(t: string, listener: Listener)
      modifies this
      ensures listeners == WithListener(old(listeners), t, listener)
    {
      if t !in listeners {
        // the source makes a []Event here; an empty listener list is what is meant
        listeners := listeners[t := []];
      }
      var index := IndexOfListener(listeners[t], listener);
      if index == -1 {
        listeners := listeners[t := listeners[t] + [listener]];
      }
    }

    method HasEventListener(t: string, listener: Listener) returns (r: bool)
      ensures r <==> t in listeners && listener in listeners[t]
    {
      if t in listeners {
        var index := IndexOfListener(listeners[t], listener);
        if index != -1 {
          return true;
        }
      }
      return false;
    }

    method RemoveEventListener(t: string, listener: Listener)
      modifies this
      ensures listeners == WithoutListener(old(listeners), t, listener)
    {
      if t in listeners {
        var index := IndexOfListener(listeners[t], listener);
        if index != -1 {
          // the source's append omits the `...` that spreads its second argument; deleting the entry is what is meant
          listeners := listeners[t := listeners[t][..index] + listeners[t][index + 1..]];
        }
      }
    }

    /**
     * DispatchEvent: for a registered type, the event gets this dispatcher as
     * target and every listener registered when the dispatch began is called
     * once, in registration order, from a copy of the list; an unregistered
     * type calls nothing. The result is the sequence of calls made.
     */
    method DispatchEvent(event: Event) returns (delivered: Event, calls: seq<Listener>)
      ensures calls == Registered(listeners, event.kind)
      ensures event.kind in listeners ==> delivered == event.(target := this)
      ensures event.kind !in listeners ==> delivered == event
    {
      delivered, calls := event, [];
      if event.kind in listeners {
        var listenerArray := listeners[event.kind];
        delivered := event.(target := this);
        var length := |listenerArray|;
        var snapshot := new Listener[length];
        for i := 0 to length
          invariant snapshot[..i] == listenerArray[..i]
        {
          snapshot[i] := listenerArray[i];
        }
        for i := 0 to length
          invariant calls == snapshot[..i]
        {
          calls := calls + [snapshot[i]];
        }
        assert snapshot[..length] == listenerArray;
      }
    }
  }
}
