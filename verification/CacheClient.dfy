/**
 * The cache client: Redis while it answers, an in-memory store from the first
 * error on. Redis fails, and loses keys, as it pleases.
 */
module CacheClients {
  import opened Types
  import opened Tokens
  import opened Store

  /** What the network does during one call, and in which event loop the call runs. */
  datatype Net = Net(loop: nat, now: Time, pingFails: bool, fails: bool)

  /** The fields of a client, with the contents of the server it talks to. */
  datatype Client = Client(
    server: Cache, connected: bool, fallback: Cache, fallbackActive: bool, initialized: bool, loop: nat)

  function NewClient(server: Cache): Client {
    Client(server, false, map[], false, false, 0)
  }

  // ---- One call ------------------------------------------------------------------------

  /** A new event loop reconnects, and forgets that the client had failed over. */
  function InitRedis(c: Client, net: Net): Client {
    if c.initialized && c.loop == net.loop then c
    else c.(loop := net.loop, initialized := true, connected := !net.pingFails, fallbackActive := net.pingFails)
  }

  predicate OnFallback(c: Client) {
    c.fallbackActive || !c.connected
  }

  /** The state in which the store is finally consulted: on Redis, or on the fallback after an error. */
  function Ready(c: Client, net: Net, refused: bool): Client {
    var ready := InitRedis(c, net);
    if !OnFallback(ready) && (net.fails || refused) then ready.(fallbackActive := true) else ready
  }

  function GetCall(c: Client, key: Key, net: Net): (Client, Option<Value>) {
    var ready := Ready(c, net, false);
    if OnFallback(ready) then
      if key in ready.fallback && !Live(ready.fallback[key], net.now)
      then (ready.(fallback := ready.fallback - {key}), None)
      else (ready, Read(ready.fallback, key, net.now))
    else (ready, Read(ready.server, key, net.now))
  }

  /** Redis refuses an expiry of zero seconds; the fallback takes it for none. */
  predicate Refuses(ttl: Option<nat>) {
    ttl == Some(0)
  }

  function SetCall(c: Client, key: Key, value: Value, ttl: Option<nat>, net: Net): Client {
    var ready := Ready(c, net, Refuses(ttl));
    var entry := EntryFor(value, ttl, net.now);
    if OnFallback(ready) then ready.(fallback := ready.fallback[key := entry])
    else ready.(server := ready.server[key := entry])
  }

  function DeleteCall(c: Client, key: Key, net: Net): Client {
    var ready := Ready(c, net, false);
    if OnFallback(ready) then ready.(fallback := ready.fallback - {key})
    else ready.(server := ready.server - {key})
  }

  // ---- A lossy TTL map -------------------------------------------------------------------

  /** The map a client stands for. */
  function View(c: Client): Cache {
    if c.initialized && OnFallback(c) then c.fallback else c.server
  }

  /** Nothing is in the fallback before failover. */
  ghost predicate ClientOk(c: Client) {
    && (!c.fallbackActive ==> c.fallback == map[])
    && (!c.initialized ==> !c.fallbackActive)
    && (c.initialized && !c.fallbackActive ==> c.connected)
  }

  ghost predicate SameLoop(c: Client, net: Net) {
    c.initialized ==> c.loop == net.loop
  }

  /** Nothing goes wrong in this call: the client is past failing over, or Redis answers. */
  ghost predicate Reliable(c: Client, net: Net) {
    c.fallbackActive || (!net.fails && (c.initialized || !net.pingFails))
  }

  /** Connecting and failing over only lose entries, and failover is for good. */
  lemma ReadyLoses(c: Client, net: Net, refused: bool)
    requires ClientOk(c) && SameLoop(c, net)
    ensures var ready := Ready(c, net, refused);
            && ClientOk(ready) && ready.initialized && ready.loop == net.loop
            && Submap(View(ready), View(c))
            && (c.initialized && c.fallbackActive ==> ready == c)
            && (Reliable(c, net) && (c.fallbackActive || !refused) ==> View(ready) == View(c) && ready.fallbackActive == c.fallbackActive)
  {
  }

  /** A lookup loses what expired, at most; if nothing goes wrong it finds whatever is held and live, and keeps the rest. */
  lemma GetRefines(c: Client, key: Key, net: Net)
    requires ClientOk(c) && SameLoop(c, net)
    ensures
      var (c', r) := GetCall(c, key, net);
      && ClientOk(c') && c'.initialized && c'.loop == net.loop
      && Submap(View(c'), View(c))
      && (r.Some? ==> r == Read(View(c), key, net.now) && key in View(c'))
      && (c.fallbackActive ==> c'.fallbackActive)
      && (Reliable(c, net) ==>
            && r == (if key in View(c) && (View(c)[key].expiry.None? || net.now <= View(c)[key].expiry.value) then Some(View(c)[key].value) else None)
            && (forall k | k in View(c) && (k != key || r.Some?) :: k in View(c') && View(c')[k] == View(c)[k]))
  {
    ReadyLoses(c, net, false);
  }

  lemma SetRefines(c: Client, key: Key, value: Value, ttl: Option<nat>, net: Net)
    requires ClientOk(c) && SameLoop(c, net)
    ensures
      var c' := SetCall(c, key, value, ttl, net);
      && ClientOk(c') && c'.initialized && c'.loop == net.loop
      && Submap(View(c'), View(c)[key := EntryFor(value, ttl, net.now)])
      && key in View(c')
      && (c.fallbackActive ==> c'.fallbackActive)
      && (Reliable(c, net) && (c.fallbackActive || ttl != Some(0)) ==> View(c') == View(c)[key := EntryFor(value, ttl, net.now)])
  {
    ReadyLoses(c, net, Refuses(ttl));
  }

  lemma DeleteRefines(c: Client, key: Key, net: Net)
    requires ClientOk(c) && SameLoop(c, net)
    ensures
      var c' := DeleteCall(c, key, net);
      && ClientOk(c') && c'.initialized && c'.loop == net.loop
      && Submap(View(c'), View(c) - {key})
      && (c.fallbackActive ==> c'.fallbackActive)
      && (Reliable(c, net) ==> View(c') == View(c) - {key})
  {
    ReadyLoses(c, net, false);
  }

  // ---- Histories of calls --------------------------------------------------------------------

  /** A call, or the loss of some keys by the server. */
  datatype Call =
    | GetOf(key: Key, net: Net)
    | SetOf(key: Key, value: Value, ttl: Option<nat>, net: Net)
    | DeleteOf(key: Key, net: Net)
    | Evict(keys: set<Key>)

  function After(c: Client, call: Call): Client {
    match call
    case GetOf(key, net) => GetCall(c, key, net).0
    case SetOf(key, value, ttl, net) => SetCall(c, key, value, ttl, net)
    case DeleteOf(key, net) => DeleteCall(c, key, net)
    case Evict(keys) => c.(server := c.server - keys)
  }

  function AfterAll(c: Client, calls: seq<Call>): Client {
    if calls == [] then c else After(AfterAll(c, calls[..|calls| - 1]), calls[|calls| - 1])
  }

  /** The entry last set for a key and not deleted since, reading the history backwards. */
  function Latest(before: Cache, calls: seq<Call>, key: Key): Option<Entry> {
    if calls == [] then if key in before then Some(before[key]) else None
    else
      var last := calls[|calls| - 1];
      if last.SetOf? && last.key == key then Some(EntryFor(last.value, last.ttl, last.net.now))
      else if last.DeleteOf? && last.key == key then None
      else Latest(before, calls[..|calls| - 1], key)
  }

  ghost predicate OneLoop(calls: seq<Call>, loop: nat) {
    forall i | 0 <= i < |calls| && !calls[i].Evict? :: calls[i].net.loop == loop
  }

  /** Every entry the client still holds is the latest for its key. */
  lemma {:induction false} HoldsLatest(before: Client, calls: seq<Call>, loop: nat)
    requires ClientOk(before) && (before.initialized ==> before.loop == loop) && OneLoop(calls, loop)
    ensures
      var c := AfterAll(before, calls);
      && ClientOk(c) && (c.initialized ==> c.loop == loop)
      && (before.fallbackActive ==> c.fallbackActive)
      && forall key | key in View(c) :: Latest(View(before), calls, key) == Some(View(c)[key])
  {
    if calls != [] {
      var front, last := calls[..|calls| - 1], calls[|calls| - 1];
      assert forall i | 0 <= i < |front| :: front[i] == calls[i];
      HoldsLatest(before, front, loop);
      var c := AfterAll(before, front);
      hide Ready;
      match last {
        case GetOf(key, net) => GetRefines(c, key, net);
        case SetOf(key, value, ttl, net) => SetRefines(c, key, value, ttl, net);
        case DeleteOf(key, net) => DeleteRefines(c, key, net);
        case Evict(_) =>
      }
    }
  }

  /** Despite arbitrary errors and losses, a lookup finds nothing or the latest undeleted, unexpired value. */
  lemma LookupIsLatest(server: Cache, calls: seq<Call>, key: Key, net: Net)
    requires OneLoop(calls, net.loop)
    ensures
      var r := GetCall(AfterAll(NewClient(server), calls), key, net).1;
      r.Some? ==> && Latest(server, calls, key).Some?
                  && Live(Latest(server, calls, key).value, net.now)
                  && r == Some(Latest(server, calls, key).value.value)
  {
    HoldsLatest(NewClient(server), calls, net.loop);
    GetRefines(AfterAll(NewClient(server), calls), key, net);
  }

  // ---- When nothing goes wrong, nothing is lost ------------------------------------------------

  predicate Harmless(call: Call) {
    match call
    case GetOf(_, net) => !net.fails && !net.pingFails
    case SetOf(_, _, ttl, net) => !net.fails && !net.pingFails && ttl != Some(0)
    case DeleteOf(_, net) => !net.fails && !net.pingFails
    case Evict(_) => false
  }

  /** The client has failed over, or Redis has answered every call and dropped nothing. */
  ghost predicate Undisturbed(c: Client, calls: seq<Call>) {
    c.fallbackActive || forall i | 0 <= i < |calls| :: Harmless(calls[i])
  }

  ghost predicate NoneLater(calls: seq<Call>, now: Time) {
    forall i | 0 <= i < |calls| && !calls[i].Evict? :: calls[i].net.now <= now
  }

  /** Whatever was set last for a key, and is live still, is held still. */
  lemma {:induction false} KeepsLatest(before: Client, calls: seq<Call>, loop: nat, now: Time, key: Key)
    requires ClientOk(before) && (before.initialized ==> before.loop == loop) && OneLoop(calls, loop)
    requires Undisturbed(before, calls) && NoneLater(calls, now)
    ensures
      var c, last := AfterAll(before, calls), Latest(View(before), calls, key);
      && c.fallbackActive == before.fallbackActive
      && (last.Some? && Live(last.value, now) ==> key in View(c) && View(c)[key] == last.value)
  {
    if calls != [] {
      var front, last := calls[..|calls| - 1], calls[|calls| - 1];
      assert forall i | 0 <= i < |front| :: front[i] == calls[i];
      assert last == calls[|calls| - 1];
      KeepsLatest(before, front, loop, now, key);
      HoldsLatest(before, front, loop);
      var c := AfterAll(before, front);
      ReadyLoses(c, if last.Evict? then Net(loop, 0, false, false) else last.net, last.SetOf? && Refuses(last.ttl));
      match last {
        case GetOf(k, net) => GetRefines(c, k, net);
        case SetOf(k, value, ttl, net) => SetRefines(c, k, value, ttl, net);
        case DeleteOf(k, net) => DeleteRefines(c, k, net);
        case Evict(_) =>
      }
    }
  }

  /**
   * Once the client has failed over, or as long as Redis answers and drops
   * nothing, a lookup is exactly the latest value set, if that is live.
   */
  lemma LookupFindsLatest(before: Client, calls: seq<Call>, key: Key, net: Net)
    requires ClientOk(before) && (before.initialized ==> before.loop == net.loop) && OneLoop(calls, net.loop)
    requires Undisturbed(before, calls + [GetOf(key, net)]) && NoneLater(calls, net.now)
    ensures
      var last := Latest(View(before), calls, key);
      GetCall(AfterAll(before, calls), key, net).1
        == if last.Some? && (last.value.expiry.None? || net.now <= last.value.expiry.value) then Some(last.value.value) else None
  {
    var all := calls + [GetOf(key, net)];
    assert forall i | 0 <= i < |calls| :: all[i] == calls[i];
    assert all[|calls|] == GetOf(key, net);
    KeepsLatest(before, calls, net.loop, net.now, key);
    HoldsLatest(before, calls, net.loop);
    GetRefines(AfterAll(before, calls), key, net);
  }

  /** In particular, what was just set is found until it expires. */
  lemma SetThenGet(c: Client, key: Key, value: Value, ttl: Option<nat>, net: Net, later: Net)
    requires ClientOk(c) && SameLoop(c, net) && later.loop == net.loop && net.now <= later.now
    ensures
      var c' := SetCall(c, key, value, ttl, net);
      (c'.fallbackActive || !later.fails) && (ttl.None? || ttl == Some(0) || later.now <= net.now + ttl.value * 1_000_000) ==>
        GetCall(c', key, later).1 == Some(value)
  {
    SetRefines(c, key, value, ttl, net);
    GetRefines(SetCall(c, key, value, ttl, net), key, later);
  }

  /** How many calls of the history failed over. */
  function Failovers(c: Client, calls: seq<Call>): nat {
    if calls == [] then 0
    else
      var was := AfterAll(c, calls[..|calls| - 1]);
      Failovers(c, calls[..|calls| - 1]) +
      if !was.fallbackActive && After(was, calls[|calls| - 1]).fallbackActive then 1 else 0
  }

  /** Failover is one-way and happens at most once. */
  lemma {:induction false} FailsOverOnce(server: Cache, calls: seq<Call>, loop: nat)
    requires OneLoop(calls, loop)
    ensures Failovers(NewClient(server), calls) == if AfterAll(NewClient(server), calls).fallbackActive then 1 else 0
  {
    if calls != [] {
      var front, last := calls[..|calls| - 1], calls[|calls| - 1];
      assert forall i | 0 <= i < |front| :: front[i] == calls[i];
      FailsOverOnce(server, front, loop);
      HoldsLatest(NewClient(server), front, loop);
      var c := AfterAll(NewClient(server), front);
      hide Ready, View, Submap, Latest;
      match last {
        case GetOf(key, net) => GetRefines(c, key, net);
        case SetOf(key, value, ttl, net) => SetRefines(c, key, value, ttl, net);
        case DeleteOf(key, net) => DeleteRefines(c, key, net);
        case Evict(_) =>
      }
    }
  }

  // ---- A change of event loop -------------------------------------------------------------------

  /**
   * Entering another event loop brings back lost entries exactly when the
   * client had failed over, Redis answers again, and Redis still holds
   * something the fallback does not.
   */
  lemma LoopChange(c: Client, net: Net)
    requires ClientOk(c) && c.initialized && c.loop != net.loop
    ensures Submap(View(InitRedis(c, net)), View(c)) <==> (c.fallbackActive && !net.pingFails ==> Submap(c.server, c.fallback))
  {
  }

  /** A key deleted during an outage is found again after a change of event loop. */
  lemma DeletedKeyReturns(key: Key, value: Value)
    ensures
      var calls := [SetOf(key, value, Some(60), Net(1, 0, false, false)), DeleteOf(key, Net(1, 1, false, true))];
      && Latest(map[], calls, key) == None
      && GetCall(AfterAll(NewClient(map[]), calls), key, Net(2, 2, false, false)).1 == Some(value)
  {
    var set_, delete := SetOf(key, value, Some(60), Net(1, 0, false, false)), DeleteOf(key, Net(1, 1, false, true));
    var c0 := NewClient(map[]);
    assert [set_, delete][..1] == [set_] && [set_][..0] == [];
    assert AfterAll(c0, [set_]) == After(c0, set_);
    assert AfterAll(c0, [set_, delete]) == After(After(c0, set_), delete);
  }

  /** A call that fails on Redis is the same call made on the fallback. */
  lemma SetCases(c: Client, key: Key, value: Value, ttl: Option<nat>, net: Net)
    ensures
      var ready, entry := InitRedis(c, net), EntryFor(value, ttl, net.now);
      && ready.initialized && ready.loop == net.loop && (c.initialized && c.loop == net.loop ==> ready == c)
      && SetCall(c, key, value, ttl, net) ==
           if OnFallback(ready) then ready.(fallback := ready.fallback[key := entry])
           else if net.fails || ttl == Some(0) then SetCall(ready.(fallbackActive := true), key, value, ttl, net)
           else ready.(server := ready.server[key := entry])
  {
  }

  /**
   * Caching a rotated session in the last second of its chain asks for a time
   * to live of zero. Redis refuses it, so a connected client turns to the
   * fallback for good: it stores an entry that never expires, and nothing that
   * Redis holds is found any more.
   */
  lemma LastSecond(c: Client, key: Key, value: Value, expiresAt: Time, window: Time, net: Net)
    requires ClientOk(c) && c.initialized && c.loop == net.loop && !c.fallbackActive
    ensures
      var c' := SetCall(c, key, value, Some(RemainingSeconds(expiresAt, window)), net);
      && (c'.fallbackActive <==> net.fails || expiresAt < window + SECOND)
      && (c'.fallbackActive ==> c'.server == c.server && View(c').Keys == {key})
      && (expiresAt < window + SECOND ==> View(c') == map[key := Entry(value, None)])
  {
    assert RemainingSeconds(expiresAt, window) == 0 <==> expiresAt < window + SECOND;
  }

  // ---- The classes -------------------------------------------------------------------------------

  /** The server, which other code never writes. */
  class RedisServer {
    var store: Cache

    constructor (contents: Cache)
      ensures store == contents
    {
      store := contents;
    }

    method Evict(keys: set<Key>)
      modifies this
      ensures store == old(store) - keys
    {
      store := store - keys;
    }
  }

  class CacheClient {
    const server: RedisServer
    var redis: RedisServer?
    var fallbackStore: Cache
    var fallbackActive: bool
    var initialized: bool
    var loop: nat

    ghost predicate Valid()
      reads this
    {
      redis == null || redis == server
    }

    ghost function State(): Client
      reads this, server
    {
      Client(server.store, redis != null, fallbackStore, fallbackActive, initialized, loop)
    }

    constructor (server: RedisServer)
      ensures Valid() && this.server == server && State() == NewClient(server.store)
    {
      this.server := server;
      redis := null;
      fallbackStore := map[];
      fallbackActive := false;
      initialized := false;
      loop := 0;
    }

    method Init(net: Net)
      requires Valid()
      modifies this
      ensures Valid() && State() == InitRedis(old(State()), net)
    {
      if initialized && loop == net.loop {
        return;
      }
      redis := null;
      loop := net.loop;
      initialized := false;
      fallbackActive := false;
      redis := server;
      if net.pingFails {
        fallbackActive := true;
        redis := null;
      }
      initialized := true;
    }

    /** Termination of the retry: the fallback is active in it, in the same loop. */
    method Get(key: Key, net: Net) returns (r: Option<Value>)
      requires Valid()
      modifies this, server
      ensures Valid() && (State(), r) == GetCall(old(State()), key, net)
      decreases if initialized && loop == net.loop && fallbackActive then 0 else 1
    {
      Init(net);
      if fallbackActive || redis == null {
        if key !in fallbackStore {
          return None;
        }
        var entry := fallbackStore[key];
        if entry.expiry.Some? && net.now > entry.expiry.value {
          fallbackStore := fallbackStore - {key};
          return None;
        }
        return Some(entry.value);
      }
      if net.fails {
        fallbackActive := true;
        r := Get(key, net);
        return;
      }
      r := Read(server.store, key, net.now);
    }

    method Set(key: Key, value: Value, ttl: Option<nat>, net: Net)
      requires Valid()
      modifies this, server
      ensures Valid() && State() == SetCall(old(State()), key, value, ttl, net)
      decreases if initialized && loop == net.loop && fallbackActive then 0 else 1
    {
      hide EntryFor, SetCall, InitRedis;
      SetCases(State(), key, value, ttl, net);
      Init(net);
      if fallbackActive || redis == null {
        fallbackStore := fallbackStore[key := EntryFor(value, ttl, net.now)];
        return;
      }
      if net.fails || ttl == Some(0) {
        fallbackActive := true;
        Set(key, value, ttl, net);
        return;
      }
      server.store := server.store[key := EntryFor(value, ttl, net.now)];
    }

    method Delete(key: Key, net: Net)
      requires Valid()
      modifies this, server
      ensures Valid() && State() == DeleteCall(old(State()), key, net)
      decreases if initialized && loop == net.loop && fallbackActive then 0 else 1
    {
      Init(net);
      if fallbackActive || redis == null {
        fallbackStore := fallbackStore - {key};
        return;
      }
      if net.fails {
        fallbackActive := true;
        Delete(key, net);
        return;
      }
      server.store := server.store - {key};
    }
  }
}
