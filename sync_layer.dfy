/** The keyed shared-state registry of packages/core/core/syncLayer.ts: one entry per key
    holding the state, the connected clients, a pending teardown timer, the last activity
    time and whether the loader has run. The key function, the schema, the loader and the
    callbacks are given as values; the clock is a `now` parameter; a timer is an id that
    a later `Fire` event triggers; callback invocations and socket sends are recorded as
    effects, in order. */
module SyncLayer {
  import opened Opt
  import Strings

  /** `options`: `initial()`, `ttl`, `load`, `schema.safeParse` (`None` is a failed parse,
      `Some(data)` the parsed data) and whether `onUpdate`, `onClose` and `persist` are
      given. A loader's result `None` is a falsy loaded value. */
  datatype Options<!S> = Options(initial: S, ttl: Option<int>, load: Option<string -> Option<S>>,
                                parse: S -> Option<S>, onUpdate: bool, onClose: bool, persist: bool)

  datatype Entry<S, C> = Entry(state: S, clients: set<C>, timeout: Option<nat>, lastActive: int, loaded: bool)

  datatype Effect<S, C> =
    | Init(client: C, state: S)          // onInit(entry.state) in join
    | Sent(client: C, state: S)          // an update frame to one client
    | ErrorSent(client: C)               // the error frame to the updating socket
    | Closed(key: string, state: S)      // onClose
    | Updated(key: string, state: S)     // onUpdate
    | Persisted(key: string, state: S)   // persist

  /** Everything the layer holds: the `states` map, the pending timers (id to key), the
      next timer id and the effects so far. */
  datatype Layer<S, C> = Layer(states: map<string, Entry<S, C>>, timers: map<nat, string>, nextTimer: nat,
                               effects: seq<Effect<S, C>>)

  predicate TruthyTtl<S>(o: Options<S>) { o.ttl.Some? && o.ttl.value != 0 }

  /** `getOrCreate(key)`: the entry, created with `initial()` and no clients when missing,
      after the loader ran if it had not (a truthy loaded value replacing the state). */
  function Loaded<S, C>(o: Options<S>, L: Layer<S, C>, key: string, now: int): (e: Entry<S, C>)
    ensures e.loaded
    ensures key in L.states ==> e.clients == L.states[key].clients && e.timeout == L.states[key].timeout
    ensures key !in L.states ==> e.clients == {} && e.timeout == None
  {
    var e := if key in L.states then L.states[key] else Entry(o.initial, {}, None, now, false);
    if !e.loaded && o.load.Some? then
      var v := o.load.value(key);
      e.(state := if v.Some? then v.value else e.state, loaded := true)
    else e.(loaded := true)
  }

  function GetOrCreate<S, C>(o: Options<S>, L: Layer<S, C>, key: string, now: int): Layer<S, C>
  {
    L.(states := L.states[key := Loaded(o, L, key, now)])
  }

  /** `cleanup(key)`: `onClose`, then `persist`, then the entry is deleted. */
  function AfterCleanup<S, C>(o: Options<S>, L: Layer<S, C>, key: string): Layer<S, C>
  {
    if key in L.states then
      var st := L.states[key].state;
      L.(states := L.states - {key},
         effects := L.effects + (if o.onClose then [Closed(key, st)] else []) + (if o.persist then [Persisted(key, st)] else []))
    else L
  }

  /** `join(ctx, onInit)`: the client is added, the state handed to `onInit`, and a pending
      teardown is cancelled. */
  function AfterJoin<S, C>(o: Options<S>, L: Layer<S, C>, key: string, client: C, now: int): Layer<S, C>
  {
    var L1 := GetOrCreate(o, L, key, now);
    var e := L1.states[key];
    var e1 := e.(clients := e.clients + {client}, lastActive := now, timeout := None);
    L1.(states := L1.states[key := e1],
        timers := if e.timeout.Some? then L1.timers - {e.timeout.value} else L1.timers,
        effects := L1.effects + [Init(client, e.state)])
  }

  /** `leave(ctx)` as written: when the client set becomes empty, a truthy `ttl` schedules a
      new teardown without cancelling one already pending. */
  function AfterLeaveAsWritten<S, C>(o: Options<S>, L: Layer<S, C>, key: string, client: C): Layer<S, C>
  {
    if key !in L.states then L
    else
      var e := L.states[key].(clients := L.states[key].clients - {client});
      var L1 := L.(states := L.states[key := e]);
      if e.clients != {} then L1
      else if TruthyTtl(o) then
        L1.(states := L1.states[key := e.(timeout := Some(L.nextTimer))],
            timers := L1.timers[L.nextTimer := key], nextTimer := L.nextTimer + 1)
      else AfterCleanup(o, L1, key)
  }

  /** `leave(ctx)` with the evident intent: a pending teardown is cancelled before the new
      one is scheduled, so a key has at most one. */
  function AfterLeave<S, C>(o: Options<S>, L: Layer<S, C>, key: string, client: C): Layer<S, C>
  {
    if key !in L.states then L
    else
      var e := L.states[key].(clients := L.states[key].clients - {client});
      var L1 := L.(states := L.states[key := e]);
      if e.clients != {} then L1
      else if TruthyTtl(o) then
        var pending := if e.timeout.Some? then L1.timers - {e.timeout.value} else L1.timers;
        L1.(states := L1.states[key := e.(timeout := Some(L.nextTimer))],
            timers := pending[L.nextTimer := key], nextTimer := L.nextTimer + 1)
      else AfterCleanup(o, L1, key)
  }

  /** A pending timer going off: it stops being pending and its key is cleaned up. */
  function AfterFire<S, C>(o: Options<S>, L: Layer<S, C>, t: nat): Layer<S, C>
  {
    if t in L.timers then AfterCleanup(o, L.(timers := L.timers - {t}), L.timers[t]) else L
  }

  /** The update frames of a broadcast, in the iteration order `order`, to the clients
      that can be sent to. */
  function Broadcast<S, C>(order: seq<C>, canSend: C -> bool, state: S): (r: seq<Effect<S, C>>)
    ensures |r| <= |order|
  {
    if |order| == 0 then []
    else (if canSend(order[0]) then [Sent(order[0], state)] else []) + Broadcast(order[1..], canSend, state)
  }

  predicate Distinct<C(==)>(s: seq<C>)
  {
    forall i, j :: 0 <= i < j < |s| ==> s[i] != s[j]
  }

  /** `update(ctx, updater)`: the updated state is validated; a failure only sends the
      error frame to the caller's socket (when it has one); a success replaces the state,
      sends it to every client in the iteration order `order`, then calls `onUpdate` and
      `persist`. */
  function AfterUpdate<S, C>(o: Options<S>, L: Layer<S, C>, key: string, caller: C, callerCanSend: bool,
                        updater: S -> S, canSend: C -> bool, now: int, order: seq<C>): Layer<S, C>
  {
    var L1 := GetOrCreate(o, L, key, now);
    var e := L1.states[key];
    var parsed := o.parse(updater(e.state));
    if parsed.None? then L1.(effects := L1.effects + (if callerCanSend then [ErrorSent(caller)] else []))
    else
      var st := parsed.value;
      L1.(states := L1.states[key := e.(state := st, lastActive := now)],
          effects := L1.effects + Broadcast(order, canSend, st)
                     + (if o.onUpdate then [Updated(key, st)] else []) + (if o.persist then [Persisted(key, st)] else []))
  }

  /** `getState(key)`: the entry's state, or undefined without creating an entry. */
  function GetState<S, C>(L: Layer<S, C>, key: string): (r: Option<S>)
    ensures r.Some? <==> key in L.states
    ensures r.Some? ==> r.value == L.states[key].state
  {
    if key in L.states then Some(L.states[key].state) else None
  }

  // ---------------------------------------------------------------------------
  // The layer as an object

  class Sync<S, C(==)> {
    const options: Options<S>
    var states: map<string, Entry<S, C>>
    var timers: map<nat, string>
    var nextTimer: nat
    var effects: seq<Effect<S, C>>

    function Snapshot(): Layer<S, C>
      reads this
    {
      Layer(states, timers, nextTimer, effects)
    }

    /** Every pending timer is its key's only one, and the key has no clients. */
    ghost predicate Valid()
      reads this
    {
      TimersOwned(options, Snapshot())
    }

    constructor(o: Options<S>)
      ensures options == o && Snapshot() == Layer(map[], map[], 0, []) && Valid()
    {
      options := o;
      states := map[];
      timers := map[];
      nextTimer := 0;
      effects := [];
    }

    method GetOrCreateEntry(key: string, now: int) returns (e: Entry<S, C>)
      modifies this
      ensures Snapshot() == GetOrCreate(options, old(Snapshot()), key, now)
      ensures e == Loaded(options, old(Snapshot()), key, now)
    {
      if key in states {
        e := states[key];
      } else {
        e := Entry(options.initial, {}, None, now, false);
        states := states[key := e];
      }
      if !e.loaded && options.load.Some? {
        var loadedState := options.load.value(key);
        if loadedState.Some? {
          e := e.(state := loadedState.value);
        }
        e := e.(loaded := true);
      } else {
        e := e.(loaded := true);
      }
      states := states[key := e];
    }

    method Join(key: string, client: C, now: int)
      requires Valid()
      modifies this
      ensures Snapshot() == AfterJoin(options, old(Snapshot()), key, client, now)
      ensures Valid()
    {
      ghost var L := Snapshot();
      JoinKeepsTimersOwned(options, L, key, client, now);
      var e := GetOrCreateEntry(key, now);
      e := e.(clients := e.clients + {client}, lastActive := now);
      effects := effects + [Init(client, e.state)];
      if e.timeout.Some? {
        timers := timers - {e.timeout.value};
        e := e.(timeout := None);
      }
      states := states[key := e];
    }

    method Leave(key: string, client: C)
      requires Valid()
      modifies this
      ensures Snapshot() == AfterLeave(options, old(Snapshot()), key, client)
      ensures Valid()
    {
      LeaveKeepsTimersOwned(options, Snapshot(), key, client);
      if key !in states {
        return;
      }
      var e := states[key];
      e := e.(clients := e.clients - {client});
      states := states[key := e];
      if e.clients == {} {
        if options.ttl.Some? && options.ttl.value != 0 {
          if e.timeout.Some? {
            timers := timers - {e.timeout.value};
          }
          timers := timers[nextTimer := key];
          states := states[key := e.(timeout := Some(nextTimer))];
          nextTimer := nextTimer + 1;
        } else {
          CleanupKey(key);
        }
      }
    }

    method CleanupKey(key: string)
      modifies this
      ensures Snapshot() == AfterCleanup(options, old(Snapshot()), key)
    {
      if key in states {
        var st := states[key].state;
        if options.onClose {
          effects := effects + [Closed(key, st)];
        }
        if options.persist {
          effects := effects + [Persisted(key, st)];
        }
        states := states - {key};
      }
    }

    /** The timer `t` going off. */
    method FireTimer(t: nat)
      requires Valid()
      modifies this
      ensures Snapshot() == AfterFire(options, old(Snapshot()), t)
      ensures Valid()
    {
      FireKeepsTimersOwned(options, Snapshot(), t);
      if t in timers {
        var key := timers[t];
        timers := timers - {t};
        CleanupKey(key);
      }
    }

    method Update(key: string, caller: C, callerCanSend: bool, updater: S -> S, canSend: C -> bool, now: int)
      returns (order: seq<C>)
      requires Valid()
      modifies this
      ensures Distinct(order) && key in states && forall c :: c in order <==> c in states[key].clients
      ensures Snapshot() == AfterUpdate(options, old(Snapshot()), key, caller, callerCanSend, updater, canSend, now, order)
      ensures Valid()
    {
      ghost var L := Snapshot();
      var e := GetOrCreateEntry(key, now);
      order := [];
      var parsed := options.parse(updater(e.state));
      if parsed.None? {
        if callerCanSend {
          effects := effects + [ErrorSent(caller)];
        }
        order := ClientOrder(e.clients);
        UpdateKeepsTimersOwned(options, L, key, caller, callerCanSend, updater, canSend, now, order);
        return;
      }
      e := e.(state := parsed.value, lastActive := now);
      states := states[key := e];
      order := ClientOrder(e.clients);
      var i := 0;
      while i < |order|
        invariant 0 <= i <= |order|
        invariant states == GetOrCreate(options, L, key, now).states[key := e] && timers == L.timers && nextTimer == L.nextTimer
        invariant effects == L.effects + Broadcast(order[..i], canSend, e.state)
      {
        if canSend(order[i]) {
          effects := effects + [Sent(order[i], e.state)];
        }
        BroadcastSnoc(order[..i], order[i], canSend, e.state);
        assert order[..i + 1] == order[..i] + [order[i]];
        i := i + 1;
      }
      assert order[..i] == order;
      if options.onUpdate {
        effects := effects + [Updated(key, e.state)];
      }
      if options.persist {
        effects := effects + [Persisted(key, e.state)];
      }
      UpdateKeepsTimersOwned(options, L, key, caller, callerCanSend, updater, canSend, now, order);
    }

    function State(key: string): Option<S>
      reads this
    {
      GetState(Snapshot(), key)
    }
  }

  /** `Array.from(clients)`: the clients in some iteration order, each once. */
  method ClientOrder<C(==)>(clients: set<C>) returns (order: seq<C>)
    ensures Distinct(order) && forall c :: c in order <==> c in clients
  {
    order := [];
    var todo := clients;
    while todo != {}
      invariant todo <= clients
      invariant forall c :: c in order <==> c in clients && c !in todo
      invariant Distinct(order)
      decreases |todo|
    {
      var c :| c in todo;
      order := order + [c];
      todo := todo - {c};
    }
  }

  lemma {:induction false} BroadcastSnoc<S, C>(order: seq<C>, c: C, canSend: C -> bool, state: S)
    ensures Broadcast(order + [c], canSend, state) == Broadcast(order, canSend, state) + (if canSend(c) then [Sent(c, state)] else [])
    decreases |order|
  {
    if |order| == 0 {
      assert [c][1..] == [];
    } else {
      assert (order + [c])[0] == order[0];
      assert (order + [c])[1..] == order[1..] + [c];
      BroadcastSnoc(order[1..], c, canSend, state);
      Strings.ConcatAssoc(if canSend(order[0]) then [Sent(order[0], state)] else [],
                  Broadcast(order[1..], canSend, state),
                  if canSend(c) then [Sent(c, state)] else []);
    }
  }

  // ---------------------------------------------------------------------------
  // Timers

  /** Each pending timer belongs to an entry that records it as its teardown and has no
      clients; with a falsy `ttl` no timer is ever pending. */
  ghost predicate TimersOwned<S, C>(o: Options<S>, L: Layer<S, C>)
  {
    (forall t :: t in L.timers ==> L.timers[t] in L.states && L.states[L.timers[t]].timeout == Some(t)
                                   && L.states[L.timers[t]].clients == {} && t < L.nextTimer)
    && (!TruthyTtl(o) ==> L.timers == map[])
  }

  lemma JoinKeepsTimersOwned<S, C>(o: Options<S>, L: Layer<S, C>, key: string, client: C, now: int)
    requires TimersOwned(o, L)
    ensures TimersOwned(o, AfterJoin(o, L, key, client, now))
  {
    var L2 := AfterJoin(o, L, key, client, now);
    forall t | t in L2.timers
      ensures L2.timers[t] in L2.states && L2.states[L2.timers[t]].timeout == Some(t)
              && L2.states[L2.timers[t]].clients == {} && t < L2.nextTimer
    {
      assert t in L.timers;
      assert L.timers[t] != key;
    }
  }

  lemma LeaveKeepsTimersOwned<S, C>(o: Options<S>, L: Layer<S, C>, key: string, client: C)
    requires TimersOwned(o, L)
    ensures TimersOwned(o, AfterLeave(o, L, key, client))
  {
    var L2 := AfterLeave(o, L, key, client);
    if key in L.states {
      var e := L.states[key].(clients := L.states[key].clients - {client});
      if e.clients == {} && !TruthyTtl(o) {
        assert L2 == AfterCleanup(o, L.(states := L.states[key := e]), key);
      } else {
        forall t | t in L2.timers
          ensures L2.timers[t] in L2.states && L2.states[L2.timers[t]].timeout == Some(t)
                  && L2.states[L2.timers[t]].clients == {} && t < L2.nextTimer
        {
          if t != L.nextTimer {
            assert t in L.timers;
          }
        }
      }
    }
  }

  lemma FireKeepsTimersOwned<S, C>(o: Options<S>, L: Layer<S, C>, t: nat)
    requires TimersOwned(o, L)
    ensures TimersOwned(o, AfterFire(o, L, t))
  {
    if t in L.timers {
      var key := L.timers[t];
      var L1 := L.(timers := L.timers - {t});
      var L2 := AfterFire(o, L, t);
      forall u | u in L2.timers
        ensures L2.timers[u] in L2.states && L2.states[L2.timers[u]].timeout == Some(u)
                && L2.states[L2.timers[u]].clients == {} && u < L2.nextTimer
      {
        assert u in L.timers && u != t;
        assert L.timers[u] != key;
      }
    }
  }

  lemma UpdateKeepsTimersOwned<S, C>(o: Options<S>, L: Layer<S, C>, key: string, caller: C, callerCanSend: bool,
                                     updater: S -> S, canSend: C -> bool, now: int, order: seq<C>)
    requires TimersOwned(o, L)
    ensures TimersOwned(o, AfterUpdate(o, L, key, caller, callerCanSend, updater, canSend, now, order))
  {
    var L2 := AfterUpdate(o, L, key, caller, callerCanSend, updater, canSend, now, order);
    forall t | t in L2.timers
      ensures L2.timers[t] in L2.states && L2.states[L2.timers[t]].timeout == Some(t)
              && L2.states[L2.timers[t]].clients == {} && t < L2.nextTimer
    {
      assert t in L.timers;
    }
  }

  /** With the pending teardown cancelled on leave, a timer going off never removes an
      entry that has clients: every other entry survives it unchanged. */
  lemma FireSparesActiveEntries<S, C>(o: Options<S>, L: Layer<S, C>, t: nat, key: string)
    requires TimersOwned(o, L)
    requires key in L.states && L.states[key].clients != {}
    ensures key in AfterFire(o, L, t).states && AfterFire(o, L, t).states[key] == L.states[key]
  {
  }

  /** As written, a key left twice schedules two teardowns; a client joining cancels only
      the second, and the first then deletes the entry although a client is connected. */
  lemma LeaveTwiceLosesJoinedClient()
    ensures var o := Options(0, Some(1000), None, (s: int) => Some(s), false, false, false);
            var L0 := AfterJoin(o, Layer(map[], map[], 0, []), "room", 1, 0);
            var L1 := AfterLeaveAsWritten(o, L0, "room", 1);
            var L2 := AfterLeaveAsWritten(o, L1, "room", 1);
            var L3 := AfterJoin(o, L2, "room", 2, 5);
            && "room" in L3.states && L3.states["room"].clients == {2}
            && "room" !in AfterFire(o, L3, 0).states
  {
    var o := Options(0, Some(1000), None, (s: int) => Some(s), false, false, false);
    var L0 := AfterJoin(o, Layer(map[], map[], 0, []), "room", 1, 0);
    assert L0.states["room"].clients == {1} && L0.timers == map[];
    var L1 := AfterLeaveAsWritten(o, L0, "room", 1);
    assert L1.timers == map[0 := "room"] && L1.nextTimer == 1;
    var L2 := AfterLeaveAsWritten(o, L1, "room", 1);
    assert L2.timers == map[0 := "room", 1 := "room"] && L2.states["room"].timeout == Some(1);
    var L3 := AfterJoin(o, L2, "room", 2, 5);
    assert L3.timers == map[0 := "room"];
    assert L3.states["room"].clients == {2};
  }

  // ---------------------------------------------------------------------------
  // Properties

  /** The first access creates the entry with the initial (or truthy loaded) state and no
      clients; the loader runs once: a second access changes nothing. */
  lemma GetOrCreateOnce<S, C>(o: Options<S>, L: Layer<S, C>, key: string, now: int, later: int)
    ensures var L1 := GetOrCreate(o, L, key, now);
            && key in L1.states && L1.states[key].loaded
            && (key !in L.states ==>
                  L1.states[key].clients == {}
                  && L1.states[key].state == (if o.load.Some? && o.load.value(key).Some? then o.load.value(key).value else o.initial))
            && GetOrCreate(o, L1, key, later) == L1
  {
    var L1 := GetOrCreate(o, L, key, now);
    assert Loaded(o, L1, key, later) == L1.states[key];
    assert L1.states[key := L1.states[key]] == L1.states;
  }

  /** After `join` the client is connected, `onInit` saw the state, and no teardown of the
      key is pending any more. */
  lemma JoinSpec<S, C>(o: Options<S>, L: Layer<S, C>, key: string, client: C, now: int)
    requires TimersOwned(o, L)
    ensures var L2 := AfterJoin(o, L, key, client, now);
            && key in L2.states && client in L2.states[key].clients && L2.states[key].timeout == None
            && L2.effects == L.effects + [Init(client, L2.states[key].state)]
            && forall t :: t in L2.timers ==> L2.timers[t] != key
  {
    var L2 := AfterJoin(o, L, key, client, now);
    forall t | t in L2.timers ensures L2.timers[t] != key {
      assert t in L.timers && L.timers[t] == L2.timers[t];
    }
  }

  /** `leave` on a key without an entry changes nothing. */
  lemma LeaveUnknown<S, C>(o: Options<S>, L: Layer<S, C>, key: string, client: C)
    requires key !in L.states
    ensures AfterLeave(o, L, key, client) == L && AfterLeaveAsWritten(o, L, key, client) == L
  {
  }

  /** When `leave` empties the client set: with no `ttl` the entry is torn down at once,
      `onClose` before `persist`; with a `ttl` it stays and its teardown is pending. */
  lemma LeaveEmptying<S, C>(o: Options<S>, L: Layer<S, C>, key: string, client: C)
    requires key in L.states && L.states[key].clients <= {client}
    ensures var L2 := AfterLeave(o, L, key, client);
            && (!TruthyTtl(o) ==>
                  key !in L2.states
                  && L2.effects == L.effects + (if o.onClose then [Closed(key, L.states[key].state)] else [])
                                  + (if o.persist then [Persisted(key, L.states[key].state)] else []))
            && (TruthyTtl(o) ==>
                  key in L2.states && L2.states[key].timeout == Some(L.nextTimer)
                  && L.nextTimer in L2.timers && L2.timers[L.nextTimer] == key && L2.effects == L.effects)
  {
    assert L.states[key].clients - {client} == {};
  }

  /** A failed validation leaves every state as `getOrCreate` left it and sends only the
      error frame. */
  lemma UpdateRejected<S, C>(o: Options<S>, L: Layer<S, C>, key: string, caller: C, callerCanSend: bool,
                             updater: S -> S, canSend: C -> bool, now: int, order: seq<C>)
    requires o.parse(updater(Loaded(o, L, key, now).state)).None?
    ensures var L2 := AfterUpdate(o, L, key, caller, callerCanSend, updater, canSend, now, order);
            && L2.states == GetOrCreate(o, L, key, now).states
            && L2.effects == L.effects + (if callerCanSend then [ErrorSent(caller)] else [])
  {
  }

  /** A successful update stores the parsed state and sends it once to each client that
      can be sent to, before `onUpdate` and `persist`. */
  lemma UpdateAccepted<S, C>(o: Options<S>, L: Layer<S, C>, key: string, caller: C, callerCanSend: bool,
                             updater: S -> S, canSend: C -> bool, now: int, order: seq<C>)
    requires o.parse(updater(Loaded(o, L, key, now).state)).Some?
    ensures var st := o.parse(updater(Loaded(o, L, key, now).state)).value;
            var L2 := AfterUpdate(o, L, key, caller, callerCanSend, updater, canSend, now, order);
            && GetState(L2, key) == Some(st)
            && L2.effects == L.effects + Broadcast(order, canSend, st)
                             + (if o.onUpdate then [Updated(key, st)] else []) + (if o.persist then [Persisted(key, st)] else [])
  {
  }

  /** Each client that can be sent to receives exactly one frame per position in the
      iteration order, and nobody else receives one. */
  lemma {:induction false} BroadcastReaches<S, C>(order: seq<C>, canSend: C -> bool, state: S, c: C)
    ensures Sent(c, state) in Broadcast(order, canSend, state) <==> c in order && canSend(c)
    ensures forall e :: e in Broadcast(order, canSend, state) ==> e.Sent? && e.state == state
    decreases |order|
  {
    if |order| > 0 {
      BroadcastReaches(order[1..], canSend, state, c);
      assert order == [order[0]] + order[1..];
    }
  }
}
