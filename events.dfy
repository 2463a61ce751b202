/**
 * The EventEmitter of the chart front end (static/lightweight-charts.js,
 * identical in static/lightweight-charts-v2.js): a map from event names to
 * the listeners registered for them, in registration order.
 *
 * Callbacks are identified by a number; a listener is either a callback
 * registered with on, or the wrapper closure once creates around one. Each
 * call of once creates a new closure, told apart by a token.
 */
module Events {
  import opened Wrappers

  datatype Listener = Plain(callback: nat) | OnceWrapper(token: nat, callback: nat)

  type Listeners = map<string, seq<Listener>>

  /** The listeners not in gone, in their order. */
  function Drop(ls: seq<Listener>, gone: set<Listener>): (r: seq<Listener>)
    ensures |r| <= |ls|
    ensures forall l :: l in r <==> l in ls && l !in gone
  {
    if |ls| == 0 then []
    else
      var rest := Drop(ls[..|ls| - 1], gone);
      assert forall l :: l in ls <==> l in ls[..|ls| - 1] || l == ls[|ls| - 1];
      if ls[|ls| - 1] in gone then rest else rest + [ls[|ls| - 1]]
  }

  /** Dropping listeners keeps the order: drop distributes over concatenation. */
  lemma {:induction false} DropAppend(a: seq<Listener>, b: seq<Listener>, gone: set<Listener>)
    ensures Drop(a + b, gone) == Drop(a, gone) + Drop(b, gone)
    decreases |b|
  {
    if |b| == 0 {
      assert a + b == a;
    } else {
      assert (a + b)[..|a + b| - 1] == a + b[..|b| - 1];
      DropAppend(a, b[..|b| - 1], gone);
    }
  }

  /** Dropping twice is dropping the union. */
  lemma {:induction false} DropTwice(ls: seq<Listener>, a: set<Listener>, b: set<Listener>)
    ensures Drop(Drop(ls, a), b) == Drop(ls, a + b)
  {
    if |ls| > 0 {
      DropTwice(ls[..|ls| - 1], a, b);
      var last := ls[|ls| - 1];
      if last !in a {
        DropAppend(Drop(ls[..|ls| - 1], a), [last], b);
        assert Drop([last], b) == (if last in b then [] else [last]) by {
          assert [last][..0] == [];
        }
      }
    }
  }

  lemma {:induction false} DropNothing(ls: seq<Listener>)
    ensures Drop(ls, {}) == ls
  {
    if |ls| > 0 {
      DropNothing(ls[..|ls| - 1]);
    }
  }

  // ---------------------------------------------------------------------
  // the operations on the listener map
  // ---------------------------------------------------------------------

  /** on(event, callback): append, creating the list when the event has none; a listener registered twice fires twice. */
  function OnEvents(events: Listeners, event: string, listener: Listener): (r: Listeners)
    ensures r.Keys == events.Keys + {event}
    ensures r[event] == (if event in events then events[event] else []) + [listener]
    ensures forall e :: e in events && e != event ==> r[e] == events[e]
  {
    events[event := (if event in events then events[event] else []) + [listener]]
  }

  /**
   * off(event, callback): nothing for an event without a list; with a
   * callback, every registration of exactly that listener is removed
   * (the list stays, possibly empty); without one the event is deleted.
   */
  function OffEvents(events: Listeners, event: string, callback: Option<Listener>): (r: Listeners)
    ensures event !in events ==> r == events
    ensures event in events && callback.None? ==> r == events - {event}
    ensures event in events && callback.Some? ==>
              r.Keys == events.Keys && r[event] == Drop(events[event], {callback.value}) &&
              forall e :: e in events && e != event ==> r[e] == events[e]
  {
    if event !in events then events
    else if callback.None? then events - {event}
    else events[event := Drop(events[event], {callback.value})]
  }

  /** The wrappers an emit over ls removes: once wrappers whose callback returns normally. */
  function Spent(ls: seq<Listener>, throws: nat -> bool): (gone: set<Listener>)
    ensures forall l :: l in gone <==> l in ls && l.OnceWrapper? && !throws(l.callback)
  {
    set l | l in ls && l.OnceWrapper? && !throws(l.callback)
  }

  /** The callbacks an emit over ls invokes, in order (a wrapper invokes the callback it wraps). */
  function Invoked(ls: seq<Listener>): (r: seq<nat>)
    ensures |r| == |ls|
    ensures forall k :: 0 <= k < |ls| ==> r[k] == ls[k].callback
  {
    if |ls| == 0 then [] else Invoked(ls[..|ls| - 1]) + [ls[|ls| - 1].callback]
  }

  /** The listener map after emit(event): the spent once wrappers are gone from the event's list. */
  function EmitEvents(events: Listeners, event: string, throws: nat -> bool): Listeners {
    if event in events then events[event := Drop(events[event], Spent(events[event], throws))] else events
  }

  /**
   * An emit removes from the event's list exactly the once wrappers whose
   * callback returned normally, and touches no other event.
   */
  lemma EmitRemovesSpentWrappers(events: Listeners, event: string, throws: nat -> bool)
    ensures var r := EmitEvents(events, event, throws);
            (event !in events ==> r == events) &&
            (event in events ==>
               r.Keys == events.Keys &&
               (forall l :: l in r[event] <==> l in events[event] && !(l.OnceWrapper? && !throws(l.callback))) &&
               forall e :: e in events && e != event ==> r[e] == events[e])
  {
  }

  /** The event's list after the first i listeners of an emit over ls have run. */
  function EmitProgress(ls: seq<Listener>, i: nat, throws: nat -> bool): seq<Listener>
    requires i <= |ls|
  {
    Drop(ls, Spent(ls[..i], throws))
  }

  lemma EmitProgressStart(ls: seq<Listener>, throws: nat -> bool)
    ensures EmitProgress(ls, 0, throws) == ls
  {
    assert Spent(ls[..0], throws) == {};
    DropNothing(ls);
  }

  lemma EmitProgressStep(ls: seq<Listener>, i: nat, throws: nat -> bool)
    requires i < |ls|
    ensures var l := ls[i];
            EmitProgress(ls, i + 1, throws) ==
              if l.OnceWrapper? && !throws(l.callback) then Drop(EmitProgress(ls, i, throws), {l}) else EmitProgress(ls, i, throws)
  {
    var l := ls[i];
    assert ls[..i + 1] == ls[..i] + [l];
    SpentSnoc(ls[..i], l, throws);
    assert EmitProgress(ls, i + 1, throws) == Drop(ls, Spent(ls[..i] + [l], throws));
    if l.OnceWrapper? && !throws(l.callback) {
      DropTwice(ls, Spent(ls[..i], throws), {l});
    } else {
      assert Spent(ls[..i] + [l], throws) == Spent(ls[..i], throws);
    }
  }

  /** The listener map after the first i listeners of an emit over ls, the event's list when it began. */
  function EmitStepEvents(start: Listeners, event: string, ls: seq<Listener>, i: nat, throws: nat -> bool): Listeners
    requires i <= |ls|
  {
    start[event := EmitProgress(ls, i, throws)]
  }

  lemma EmitStep(start: Listeners, event: string, ls: seq<Listener>, i: nat, throws: nat -> bool)
    requires i < |ls|
    ensures var events := EmitStepEvents(start, event, ls, i, throws);
            var l := ls[i];
            event in events &&
            EmitStepEvents(start, event, ls, i + 1, throws) ==
              if l.OnceWrapper? && !throws(l.callback) then events[event := Drop(events[event], {l})] else events
  {
    EmitProgressStep(ls, i, throws);
  }

  lemma SpentSnoc(ls: seq<Listener>, l: Listener, throws: nat -> bool)
    ensures Spent(ls + [l], throws) == Spent(ls, throws) + (if l.OnceWrapper? && !throws(l.callback) then {l} else {})
  {
  }

  lemma DropKeepsTokens(events: Listeners, event: string, gone: set<Listener>, wrappers: nat)
    requires TokensIssued(events, wrappers) && event in events
    ensures TokensIssued(events[event := Drop(events[event], gone)], wrappers)
  {
  }

  /** Every once wrapper's token is below the number of wrappers created so far. */
  ghost predicate TokensIssued(events: Listeners, wrappers: nat) {
    forall e, l :: e in events && l in events[e] && l.OnceWrapper? ==> l.token < wrappers
  }

  class EventEmitter {
    var events: Listeners
    /** How many wrapper closures once has created. */
    var wrappers: nat

    ghost predicate Valid()
      reads this
    {
      TokensIssued(events, wrappers)
    }

    constructor()
      ensures Valid() && events == map[] && wrappers == 0
    {
      events := map[];
      wrappers := 0;
    }

    method On(event: string, callback: Listener)
      requires Valid() && (callback.OnceWrapper? ==> callback.token < wrappers)
      modifies this
      ensures Valid() && events == OnEvents(old(events), event, callback) && wrappers == old(wrappers)
    {
      if event !in events {
        events := events[event := []];
      }
      events := events[event := events[event] + [callback]];
    }

    method Off(event: string, callback: Option<Listener>)
      requires Valid()
      modifies this
      ensures Valid() && events == OffEvents(old(events), event, callback) && wrappers == old(wrappers)
    {
      if event !in events {
        return;
      }
      if callback.Some? {
        DropKeepsTokens(events, event, {callback.value}, wrappers);
        events := events[event := Drop(events[event], {callback.value})];
      } else {
        events := events - {event};
      }
    }

    /**
     * emit(event): invokes the event's listeners in order, as they stood
     * when the emit began. throws says which callbacks raise; the error is
     * caught, and a throwing once callback skips the wrapper's off and so
     * stays registered.
     */
    method Emit(event: string, throws: nat -> bool) returns (invoked: seq<nat>)
      requires Valid()
      modifies this`events
      ensures Valid() && events == EmitEvents(old(events), event, throws) && wrappers == old(wrappers)
      ensures invoked == (if event in old(events) then Invoked(old(events)[event]) else [])
    {
      invoked := [];
      if event !in events {
        return;
      }
      var listeners := events[event];
      DropKeepsTokens(events, event, Spent(listeners, throws), wrappers);
      EmitProgressStart(listeners, throws);
      ghost var start := events;
      for i := 0 to |listeners|
        invariant events == EmitStepEvents(start, event, listeners, i, throws)
        invariant invoked == Invoked(listeners[..i])
      {
        var l := listeners[i];
        assert listeners[..i + 1][..i] == listeners[..i];
        EmitStep(start, event, listeners, i, throws);
        invoked := invoked + [l.callback];
        if l.OnceWrapper? && !throws(l.callback) {
          // the wrapper's own off(event, onceWrapper)
          events := events[event := Drop(events[event], {l})];
        }
      }
      assert listeners[..|listeners|] == listeners;
    }

    /**
     * once(event, callback): registers a new wrapper closure around the
     * callback. The JavaScript method returns the emitter for chaining; the
     * out-parameter here names the wrapper so that callers can state facts
     * about it.
     */
    method Once(event: string, callback: nat) returns (wrapper: Listener)
      requires Valid()
      modifies this
      ensures Valid() && wrapper == OnceWrapper(old(wrappers), callback)
      ensures events == OnEvents(old(events), event, wrapper) && wrappers == old(wrappers) + 1
    {
      wrapper := OnceWrapper(wrappers, callback);
      wrappers := wrappers + 1;
      On(event, wrapper);
    }
  }

  // ---------------------------------------------------------------------
  // properties
  // ---------------------------------------------------------------------

  /** off(event, callback) after on(event, callback) leaves no registration of it, and keeps the others in order. */
  lemma OffUndoesOn(events: Listeners, event: string, callback: Listener)
    ensures var r := OffEvents(OnEvents(events, event, callback), event, Some(callback));
            event in r && callback !in r[event] &&
            r[event] == Drop(if event in events then events[event] else [], {callback})
  {
    var before := if event in events then events[event] else [];
    DropAppend(before, [callback], {callback});
    assert Drop([callback], {callback}) == [] by {
      assert [callback][..0] == [];
    }
  }

  /** off(event) deletes the event; off of an event that has no list changes nothing. */
  lemma OffWithoutCallback(events: Listeners, event: string, callback: Option<Listener>)
    ensures event !in OffEvents(events, event, None)
    ensures event !in events ==> OffEvents(events, event, callback) == events
  {
  }

  /**
   * Removing a callback with off does not remove a once registration of
   * the same callback: off compares against the wrapper closure, which the
   * caller never sees.
   */
  lemma OffMissesOnceWrapper(events: Listeners, event: string, token: nat, callback: nat)
    ensures var wrapper := OnceWrapper(token, callback);
            var r := OffEvents(OnEvents(events, event, wrapper), event, Some(Plain(callback)));
            event in r && wrapper in r[event]
  {
    var wrapper := OnceWrapper(token, callback);
    assert wrapper in OnEvents(events, event, wrapper)[event];
  }

  /**
   * A once registration fires exactly once: the first emit invokes its
   * callback, the wrapper is then gone, and a second emit does not invoke
   * it again (unless the callback threw, whereupon the wrapper stays).
   */
  lemma OnceFiresOnce(events: Listeners, event: string, token: nat, callback: nat, throws: nat -> bool)
    requires TokensIssued(events, token)
    ensures var wrapper := OnceWrapper(token, callback);
            var registered := OnEvents(events, event, wrapper);
            var after := EmitEvents(registered, event, throws);
            callback in Invoked(registered[event]) &&
            event in after &&
            (wrapper in after[event] <==> throws(callback))
  {
    var wrapper := OnceWrapper(token, callback);
    var registered := OnEvents(events, event, wrapper);
    assert Invoked(registered[event])[|registered[event]| - 1] == callback;
  }

  /** Emitting an event nobody listens to changes nothing; emitting plain listeners only changes nothing. */
  lemma EmitKeepsPlainListeners(events: Listeners, event: string, throws: nat -> bool)
    requires event in events ==> forall l :: l in events[event] ==> l.Plain?
    ensures EmitEvents(events, event, throws) == events
  {
    if event in events {
      assert Spent(events[event], throws) == {};
      DropNothing(events[event]);
    }
  }
}
