/** Starting up: components are added one by one, and messages sent before their receiver exists are cached
    (myframe/app.cpp:208-311, 384-535, 739, 768-781). */
module StartUp {
  import opened Messages
  import opened Names
  import opened Routing
  import opened EventManagers

  datatype AppState = Uninitialized | Initialized | Running | Quitting | Quit

  /** Actors added so far, the handle each user worker's name stands for, all handles in use, the node, cached messages,
      and the deliveries made, in order. */
  datatype Boot = Boot(state: AppState, actors: set<string>, workers: map<string, nat>, handles: set<nat>, node: string,
                       cache: seq<Msg>, delivered: seq<Delivery>)

  /** Deliveries that find their receiver. */
  predicate Finds(b: Boot, d: Delivery)
  {
    match d
    case ToActor(a, _) => a in b.actors
    case ToWorker(w, _) => w in b.workers
  }

  function Found(b: Boot, ds: seq<Delivery>): seq<Delivery>
    decreases |ds|
  {
    if ds == [] then []
    else if Finds(b, ds[0]) then [ds[0]] + Found(b, ds[1..]) else Found(b, ds[1..])
  }

  /** Subscriptions and publications change the subscription table instead; see Publications. */
  function Dispatched(b: Boot, m: Msg): Boot
  {
    if Plain(m) then b.(delivered := b.delivered + Found(b, Routed(m, m.dst, m.mode, b.node))) else b
  }

  function DispatchedAll(b: Boot, ms: seq<Msg>): Boot
    decreases |ms|
  {
    if ms == [] then b else DispatchedAll(Dispatched(b, ms[0]), ms[1..])
  }

  /** Whether an address can be reached already. */
  predicate HasUserInst(b: Boot, name: string)
  {
    if StartsWith(name, "worker") then name in b.workers
    else StartsWith(name, "actor") && name in b.actors
  }

  /** Nothing waits any more once the program runs. */
  predicate MustWait(b: Boot, m: Msg)
  {
    b.state != Running && (!HasUserInst(b, m.dst) || m.mode == Dds || m.mode == Hybrid)
  }

  function For(ms: seq<Msg>, dst: string): seq<Msg>
  {
    if ms == [] then []
    else if ms[0].dst == dst then [ms[0]] + For(ms[1..], dst) else For(ms[1..], dst)
  }

  function NotFor(ms: seq<Msg>, dst: string): seq<Msg>
  {
    if ms == [] then []
    else if ms[0].dst == dst then NotFor(ms[1..], dst) else [ms[0]] + NotFor(ms[1..], dst)
  }

  function Waiting(b: Boot, ms: seq<Msg>): seq<Msg>
  {
    if ms == [] then []
    else if MustWait(b, ms[0]) then [ms[0]] + Waiting(b, ms[1..]) else Waiting(b, ms[1..])
  }

  function Ready(b: Boot, ms: seq<Msg>): seq<Msg>
  {
    if ms == [] then []
    else if MustWait(b, ms[0]) then Ready(b, ms[1..]) else [ms[0]] + Ready(b, ms[1..])
  }

  /** A component as it is handed over: its address, whether it is of type node, whether its Init succeeds, and what
      Init puts into its send list. Workers send nothing before they run. */
  datatype New = New(name: string, isNode: bool, initOk: bool, sends: seq<Msg>)

  predicate Accepts(b: Boot, c: New)
  {
    && (b.state == Initialized || b.state == Running)
    && !(c.isNode && b.node != "") && c.initOk
  }

  /** The node's address is taken before Init is tried, and stays when Init fails. */
  function Noded(b: Boot, c: New): Boot
  {
    if (b.state == Initialized || b.state == Running) && c.isNode && b.node == "" then b.(node := c.name) else b
  }

  /** An actor is in: it gets what was cached for it, then its own first messages are sent or cached. */
  function Joined(b: Boot, name: string, sends: seq<Msg>): Boot
  {
    var known := b.(actors := b.actors + {name}, cache := NotFor(b.cache, name));
    var flushed := DispatchedAll(known, For(b.cache, name));
    DispatchedAll(flushed.(cache := flushed.cache + Waiting(flushed, sends)), Ready(flushed, sends))
  }

  function ActorAdded(b: Boot, c: New): Boot
  {
    if Accepts(b, c) then Joined(Noded(b, c), c.name, c.sends) else Noded(b, c)
  }

  /** A worker is admitted unless its handle is in use, whatever its name. */
  predicate Admits(b: Boot, c: New, handle: nat)
  {
    Accepts(b, c) && handle !in b.handles
  }

  /** A worker's Init comes before its registration as node, its name stands for it from then on, and the cache is not
      looked at. */
  function WorkerAdded(b: Boot, c: New, handle: nat): Boot
  {
    if Admits(b, c, handle)
    then Noded(b, c).(workers := b.workers[c.name := handle], handles := b.handles + {handle})
    else if Accepts(b, c) then Noded(b, c) else b
  }

  /** The start of Exec: everything still cached is sent. */
  function Flushed(b: Boot): Boot
  {
    DispatchedAll(b.(state := Running, cache := []), b.cache)
  }

  class App {
    const events: EventManager
    var state: AppState
    var actors: set<string>
    var node: string
    var cache: seq<Msg>
    var delivered: seq<Delivery>

    function View(): Boot
      reads this, events
    {
      Boot(state, actors, events.names, events.evs.Keys, node, cache, delivered)
    }

    constructor (events: EventManager)
      requires events.evs == map[] && events.names == map[]
      ensures this.events == events && View() == Boot(Uninitialized, {}, map[], {}, "", [], [])
    {
      this.events := events;
      state, actors, node, cache, delivered := Uninitialized, {}, "", [], [];
    }

    method HandOver(ds: seq<Delivery>)
      modifies this`delivered
      ensures View() == old(View()).(delivered := old(delivered) + Found(old(View()), ds))
    {
      ghost var b := View();
      FoundIgnores(b, b.delivered, ds);
      var i := 0;
      while i < |ds|
        invariant i <= |ds| && View() == b.(delivered := delivered)
        invariant delivered + Found(b, ds[i..]) == b.delivered + Found(b, ds)
        decreases |ds| - i
      {
        assert ds[i..][1..] == ds[i + 1..];
        match ds[i] {
          case ToActor(a, _) =>
            if a in actors {
              delivered := delivered + [ds[i]];
            }
          case ToWorker(w, _) =>
            if w in events.names {
              delivered := delivered + [ds[i]];
            }
        }
        i := i + 1;
      }
    }

    method DispatchMsg(m: Msg)
      modifies this`delivered
      ensures View() == Dispatched(old(View()), m)
    {
      if m.kind == SUBSCRIBE || m.kind == PUBLISH {
        return;
      }
      var ds := Route(m, m.dst, m.mode, node);
      HandOver(ds);
    }

    method DispatchList(ms: seq<Msg>)
      modifies this`delivered
      ensures View() == DispatchedAll(old(View()), ms)
    {
      assert ms[0..] == ms;
      for i := 0 to |ms|
        invariant DispatchedAll(View(), ms[i..]) == DispatchedAll(old(View()), ms)
        invariant View() == old(View()).(delivered := delivered)
      {
        assert ms[i..][1..] == ms[i + 1..];
        DispatchMsg(ms[i]);
      }
    }

    /** A newly added actor gets its cached messages, in the order they were cached. */
    method FlushCacheFor(name: string)
      modifies this`cache, this`delivered
      ensures View() == DispatchedAll(old(View()).(cache := NotFor(old(cache), name)), For(old(cache), name))
    {
      hide Dispatched, DispatchedAll, For, NotFor;
      ghost var all, start := cache, View().(cache := NotFor(cache, name));
      var it := 0;
      ghost var kept, rest := [], all;
      ForNothing(name);
      while it < |cache|
        invariant cache == kept + rest && |kept| == it
        invariant View() == start.(cache := cache, delivered := delivered)
        invariant kept + NotFor(rest, name) == NotFor(all, name)
        invariant DispatchedAll(start.(delivered := delivered), For(rest, name)) == DispatchedAll(start, For(all, name))
        decreases |rest|
      {
        assert cache[it] == rest[0];
        Dropped(kept, rest);
        Passed(kept, rest, name);
        if cache[it].dst == name {
          FlushOne(View(), start.cache, rest, name);
          DispatchMsg(cache[it]);
          assert View().(cache := start.cache) == start.(delivered := delivered);
          cache := cache[..it] + cache[it + 1..];
        } else {
          it := it + 1;
          kept := kept + [rest[0]];
        }
        rest := rest[1..];
      }
    }

    /** Moves to the cache the messages that cannot be dispatched before the program runs. */
    method HoldBack(sends: seq<Msg>) returns (sendList: seq<Msg>)
      modifies this`cache
      ensures sendList == Ready(old(View()), sends)
      ensures View() == old(View()).(cache := old(cache) + Waiting(old(View()), sends))
    {
      hide HasUserInst, Waiting, Ready;
      ghost var b := View();
      sendList := sends;
      if state == Running {
        NothingHeld(b, sends);
        return;
      }
      var it := 0;
      ghost var kept, rest := [], sends;
      NothingWaits(b);
      while it < |sendList|
        invariant sendList == kept + rest && |kept| == it
        invariant View() == b.(cache := cache)
        invariant cache + Waiting(b, rest) == b.cache + Waiting(b, sends)
        invariant kept + Ready(b, rest) == Ready(b, sends)
        decreases |rest|
      {
        assert sendList[it] == rest[0];
        Dropped(kept, rest);
        Sorted(b, cache, kept, rest);
        InstIgnoresCache(b, cache, rest[0].dst);
        if !HasUserInst(View(), sendList[it].dst) || sendList[it].mode == Dds || sendList[it].mode == Hybrid {
          cache := cache + [sendList[it]];
          sendList := sendList[..it] + sendList[it + 1..];
        } else {
          it := it + 1;
          kept := kept + [rest[0]];
        }
        rest := rest[1..];
      }
    }

    method AddActor(c: New) returns (ok: bool)
      modifies this
      ensures ok == Accepts(old(View()), c) && View() == ActorAdded(old(View()), c)
      ensures ok <==> (old(state) == Initialized || old(state) == Running) && c.initOk && !(c.isNode && old(node) != "")
      ensures node == if (old(state) == Initialized || old(state) == Running) && c.isNode && old(node) == "" then c.name
                      else old(node)
      ensures actors == if ok then old(actors) + {c.name} else old(actors)
      ensures !ok ==> cache == old(cache) && delivered == old(delivered)
    {
      JoinKeeps(Noded(View(), c), c);
      if state == Uninitialized {
        return false;
      }
      if state == Quitting || state == Quit {
        return false;
      }
      if c.isNode {
        if node == "" {
          node := c.name;
        } else {
          return false;
        }
      }
      if !c.initOk {
        return false;
      }
      actors := actors + {c.name};
      FlushCacheFor(c.name);
      var sendList := HoldBack(c.sends);
      DispatchList(sendList);
      ok := true;
    }

    /** `handle` is the new channel's own. */
    method AddWorker(c: New, handle: nat) returns (ok: bool)
      requires events.Valid()
      modifies this`node, events
      ensures events.Valid() && View() == WorkerAdded(old(View()), c, handle)
      ensures ok == Admits(old(View()), c, handle)
      ensures ok <==> && (old(state) == Initialized || old(state) == Running) && c.initOk
                      && !(c.isNode && old(node) != "") && handle !in old(events.evs)
      ensures node == if && (old(state) == Initialized || old(state) == Running)
                         && c.initOk && c.isNode && old(node) == "" then c.name
                      else old(node)
    {
      if state == Uninitialized {
        return false;
      }
      if state == Quitting || state == Quit {
        return false;
      }
      if !c.initOk {
        return false;
      }
      if c.isNode {
        if node == "" {
          node := c.name;
        } else {
          return false;
        }
      }
      ok := events.Add(handle, c.name);
      assert ok ==> events.evs.Keys == old(events.evs.Keys) + {handle};
    }

    /** The start of Exec. */
    method FlushCache()
      modifies this`state, this`cache, this`delivered
      ensures View() == Flushed(old(View()))
    {
      state := Running;
      var ms := cache;
      DispatchOnlyDelivers(View(), [], ms);
      DispatchList(ms);
      cache := [];
    }
  }

  // ---- Dispatching only delivers -----------------------------------------------------------------

  lemma {:induction false} FoundIgnores(b: Boot, delivered: seq<Delivery>, ds: seq<Delivery>)
    ensures Found(b.(delivered := delivered), ds) == Found(b, ds)
    decreases |ds|
  {
    if ds == [] {
    } else {
      FoundIgnores(b, delivered, ds[1..]);
    }
  }

  /** What is found does not depend on the cache. */
  lemma {:induction false} FoundIgnoresCache(b: Boot, cache: seq<Msg>, ds: seq<Delivery>)
    ensures Found(b.(cache := cache), ds) == Found(b, ds)
    decreases |ds|
  {
    if ds == [] {
    } else {
      FoundIgnoresCache(b, cache, ds[1..]);
    }
  }

  lemma DispatchIgnoresCache(b: Boot, cache: seq<Msg>, m: Msg)
    ensures Dispatched(b.(cache := cache), m) == Dispatched(b, m).(cache := cache)
  {
    hide Routed, Found;
    FoundIgnoresCache(b, cache, Routed(m, m.dst, m.mode, b.node));
  }

  lemma ForNothing(name: string)
    ensures For([], name) == NotFor([], name) == []
    ensures forall b :: DispatchedAll(b, []) == b
  {
  }

  lemma Dropped(kept: seq<Msg>, rest: seq<Msg>)
    requires rest != []
    ensures (kept + rest)[..|kept|] + (kept + rest)[|kept| + 1..] == kept + rest[1..]
    ensures (kept + [rest[0]]) + rest[1..] == kept + rest
  {
  }

  lemma Regrouped(a: seq<Msg>, m: Msg, b: seq<Msg>)
    ensures a + ([m] + b) == (a + [m]) + b
  {
  }

  lemma Passed(kept: seq<Msg>, rest: seq<Msg>, name: string)
    requires rest != []
    ensures if rest[0].dst == name then kept + NotFor(rest, name) == kept + NotFor(rest[1..], name)
            else && kept + NotFor(rest, name) == (kept + [rest[0]]) + NotFor(rest[1..], name)
                 && For(rest, name) == For(rest[1..], name)
  {
    Regrouped(kept, rest[0], NotFor(rest[1..], name));
  }

  lemma NothingWaits(b: Boot)
    ensures Waiting(b, []) == Ready(b, []) == []
  {
  }

  lemma {:induction false} NothingHeld(b: Boot, ms: seq<Msg>)
    requires b.state == Running
    ensures Waiting(b, ms) == [] && Ready(b, ms) == ms
  {
    hide HasUserInst;
    if ms == [] {
    } else {
      NothingHeld(b, ms[1..]);
    }
  }

  lemma InstIgnoresCache(b: Boot, cache: seq<Msg>, name: string)
    ensures HasUserInst(b.(cache := cache), name) == HasUserInst(b, name)
  {
  }

  lemma Sorted(b: Boot, cache: seq<Msg>, kept: seq<Msg>, rest: seq<Msg>)
    requires rest != []
    ensures if MustWait(b, rest[0]) then
              && cache + Waiting(b, rest) == (cache + [rest[0]]) + Waiting(b, rest[1..])
              && kept + Ready(b, rest) == kept + Ready(b, rest[1..])
            else
              && cache + Waiting(b, rest) == cache + Waiting(b, rest[1..])
              && kept + Ready(b, rest) == (kept + [rest[0]]) + Ready(b, rest[1..])
  {
    hide MustWait;
    Regrouped(cache, rest[0], Waiting(b, rest[1..]));
    Regrouped(kept, rest[0], Ready(b, rest[1..]));
  }

  lemma FlushOne(b: Boot, cache: seq<Msg>, rest: seq<Msg>, name: string)
    requires rest != [] && rest[0].dst == name
    ensures DispatchedAll(b.(cache := cache), For(rest, name))
         == DispatchedAll(Dispatched(b, rest[0]).(cache := cache), For(rest[1..], name))
  {
    hide Dispatched;
    DispatchIgnoresCache(b, cache, rest[0]);
  }

  /** Dispatching only delivers, and delivers the same whatever is cached. */
  lemma {:induction false} DispatchOnlyDelivers(b: Boot, cache: seq<Msg>, ms: seq<Msg>)
    ensures DispatchedAll(b, ms) == b.(delivered := DispatchedAll(b, ms).delivered)
    ensures DispatchedAll(b.(cache := cache), ms) == DispatchedAll(b, ms).(cache := cache)
    decreases |ms|
  {
    if ms == [] {
    } else {
      DispatchIgnoresCache(b, cache, ms[0]);
      DispatchOnlyDelivers(Dispatched(b, ms[0]), cache, ms[1..]);
    }
  }

  lemma {:induction false} DispatchTwice(b: Boot, ms: seq<Msg>, ns: seq<Msg>)
    ensures DispatchedAll(b, ms + ns) == DispatchedAll(DispatchedAll(b, ms), ns)
    decreases |ms|
  {
    hide Dispatched;
    if ms == [] {
      assert ms + ns == ns;
    } else {
      assert (ms + ns)[1..] == ms[1..] + ns;
      DispatchTwice(Dispatched(b, ms[0]), ms[1..], ns);
    }
  }

  lemma {:induction false} WaitingOnNames(b: Boot, c: Boot, ms: seq<Msg>)
    requires b.actors == c.actors && b.workers == c.workers && b.state == c.state
    ensures Waiting(b, ms) == Waiting(c, ms) && Ready(b, ms) == Ready(c, ms)
  {
    if ms == [] {
    } else {
      WaitingOnNames(b, c, ms[1..]);
    }
  }

  function Named(b: Boot, name: string): Boot
  {
    b.(actors := b.actors + {name})
  }

  /** What an actor's joining hands to the dispatcher: the messages cached for it, then its own that need not wait. */
  function DispatchedByJoining(b: Boot, name: string, sends: seq<Msg>): seq<Msg>
  {
    For(b.cache, name) + Ready(Named(b, name), sends)
  }

  function CachedByJoining(b: Boot, name: string, sends: seq<Msg>): seq<Msg>
  {
    NotFor(b.cache, name) + Waiting(Named(b, name), sends)
  }

  /** Joining is one list of dispatches, in order, and one change of the cache. */
  lemma JoinedIs(b: Boot, name: string, sends: seq<Msg>)
    ensures Joined(b, name, sends)
         == DispatchedAll(Named(b, name).(cache := CachedByJoining(b, name, sends)),
                          DispatchedByJoining(b, name, sends))
  {
    hide DispatchedAll, For, NotFor, Waiting, Ready;
    var named := Named(b, name);
    var known := named.(cache := NotFor(b.cache, name));
    var first := For(b.cache, name);
    var flushed := DispatchedAll(known, first);
    var held := CachedByJoining(b, name, sends);
    DispatchOnlyDelivers(known, held, first);
    WaitingOnNames(named, flushed, sends);
    DispatchTwice(known.(cache := held), first, Ready(named, sends));
  }

  lemma JoinKeeps(b: Boot, c: New)
    ensures Joined(b, c.name, c.sends).node == b.node && Joined(b, c.name, c.sends).actors == b.actors + {c.name}
  {
    hide DispatchedAll;
    JoinedIs(b, c.name, c.sends);
    DispatchOnlyDelivers(Named(b, c.name).(cache := CachedByJoining(b, c.name, c.sends)), [],
                         DispatchedByJoining(b, c.name, c.sends));
  }

  // ---- What one component gets -------------------------------------------------------------------

  /** A component exists and its address can be routed to. */
  predicate Takes(b: Boot, d: string)
  {
    (d in b.actors && ActorAddress(d)) || (d in b.workers && WorkerAddress(d))
  }

  /** The node exists under address d. */
  predicate TakesAsNode(b: Boot, d: string)
  {
    b.node == d && ((StartsWith(d, "actor") && d in b.actors) || (StartsWith(d, "worker") && d in b.workers))
  }

  /** Everything d is handed, whatever its mode. */
  function Got(ds: seq<Delivery>, d: string): seq<Msg>
  {
    if ds == [] then []
    else if Target(ds[0]) == d then [ds[0].msg] + Got(ds[1..], d) else Got(ds[1..], d)
  }

  lemma {:induction false} GotConcat(a: seq<Delivery>, b: seq<Delivery>, d: string)
    ensures Got(a + b, d) == Got(a, d) + Got(b, d)
  {
    if a == [] {
      assert a + b == b;
    } else {
      assert (a + b)[1..] == a[1..] + b;
      GotConcat(a[1..], b, d);
    }
  }

  function OwnCopy(b: Boot, m: Msg, d: string): seq<Msg>
  {
    if m.mode != Dds && m.dst == d && Takes(b, d) then [m] else []
  }

  function NodeCopy(b: Boot, m: Msg, d: string): seq<Msg>
  {
    if m.mode != Intra && KnownKind(m.dst) && TakesAsNode(b, d) then [m] else []
  }

  /** The copies of a plain message that component d gets: one for being addressed unless the mode is DDS, one for being
      the node unless it is Intra. */
  function Copies(b: Boot, m: Msg, d: string): seq<Msg>
  {
    if !Plain(m) then [] else OwnCopy(b, m, d) + NodeCopy(b, m, d)
  }

  lemma {:induction false} FoundConcat(b: Boot, x: seq<Delivery>, y: seq<Delivery>)
    ensures Found(b, x + y) == Found(b, x) + Found(b, y)
    decreases |x|
  {
    hide Finds;
    if x == [] {
      assert x + y == y;
    } else {
      assert (x + y)[1..] == x[1..] + y;
      FoundConcat(b, x[1..], y);
    }
  }

  lemma FoundHere(b: Boot, m: Msg, d: string)
    ensures Got(Found(b, Here(m, m.dst)), d) == if m.dst == d && Takes(b, d) then [m] else []
  {
    hide ActorAddress, WorkerAddress;
    ActorOrWorker(m.dst);
    assert |Here(m, m.dst)| <= 1;
  }

  lemma FoundNode(b: Boot, m: Msg, d: string)
    ensures Got(Found(b, ToNode(m, b.node)), d) == if TakesAsNode(b, d) then [m] else []
  {
    ActorOrWorker(b.node);
    hide StartsWith;
    assert |ToNode(m, b.node)| <= 1;
  }

  /** Dispatching one message, of any mode, hands component d exactly its copies. */
  lemma DispatchGot(b: Boot, m: Msg, d: string)
    ensures Got(Dispatched(b, m).delivered, d) == Got(b.delivered, d) + Copies(b, m, d)
  {
    hide Here, ToNode, Takes, TakesAsNode, Got, Found;
    if Plain(m) {
      var here := if m.mode == Dds then [] else Here(m, m.dst);
      var there := if m.mode == Intra then [] else ToNode(m, b.node);
      NothingGot(b, d);
      GotConcat(b.delivered, Found(b, Routed(m, m.dst, m.mode, b.node)), d);
      FoundConcat(b, here, there);
      GotConcat(Found(b, here), Found(b, there), d);
      FoundHere(b, m, d);
      FoundNode(b, m, d);
      TakesKnown(b, d);
      assert Routed(m, m.dst, m.mode, b.node) == if KnownKind(m.dst) then here + there else [];
    }
  }

  lemma NothingGot(b: Boot, d: string)
    ensures Found(b, []) == [] && Got([], d) == []
  {
  }

  lemma TakesKnown(b: Boot, d: string)
    ensures Takes(b, d) ==> KnownKind(d)
  {
    ActorOrWorker(d);
  }

  function CopiesOf(b: Boot, ms: seq<Msg>, d: string): seq<Msg>
  {
    if ms == [] then [] else Copies(b, ms[0], d) + CopiesOf(b, ms[1..], d)
  }

  lemma CopyIgnores(b: Boot, c: Boot, m: Msg, d: string)
    requires b.actors == c.actors && b.workers == c.workers && b.node == c.node
    ensures Copies(b, m, d) == Copies(c, m, d)
  {
    hide ActorAddress, WorkerAddress, KnownKind, StartsWith;
    assert Takes(b, d) == Takes(c, d) && TakesAsNode(b, d) == TakesAsNode(c, d);
  }

  lemma {:induction false} CopiesIgnore(b: Boot, c: Boot, ms: seq<Msg>, d: string)
    requires b.actors == c.actors && b.workers == c.workers && b.node == c.node
    ensures CopiesOf(b, ms, d) == CopiesOf(c, ms, d)
  {
    hide Copies;
    if ms == [] {
    } else {
      CopyIgnores(b, c, ms[0], d);
      CopiesIgnore(b, c, ms[1..], d);
    }
  }

  lemma {:induction false} DispatchAllGot(b: Boot, ms: seq<Msg>, d: string)
    ensures Got(DispatchedAll(b, ms).delivered, d) == Got(b.delivered, d) + CopiesOf(b, ms, d)
    decreases |ms|
  {
    hide Copies, Dispatched, Got;
    if ms == [] {
    } else {
      var c := Dispatched(b, ms[0]);
      DispatchGot(b, ms[0], d);
      DispatchAllGot(c, ms[1..], d);
      DispatchOnlyDelivers(b, b.cache, [ms[0]]);
      OneDispatch(b, ms[0]);
      CopiesIgnore(b, c, ms[1..], d);
      assert (Got(b.delivered, d) + Copies(b, ms[0], d)) + CopiesOf(b, ms[1..], d)
          == Got(b.delivered, d) + (Copies(b, ms[0], d) + CopiesOf(b, ms[1..], d));
    }
  }

  lemma OneDispatch(b: Boot, m: Msg)
    ensures Dispatched(b, m) == b.(delivered := Dispatched(b, m).delivered)
  {
  }

  /** The plain in-process messages among what d is handed. */
  lemma {:induction false} ReceivedIsGot(ds: seq<Delivery>, d: string)
    ensures Received(ds, d) == LocalsFor(Got(ds, d), d)
  {
    if ds == [] {
    } else {
      ReceivedIsGot(ds[1..], d);
    }
  }

  lemma {:induction false} LocalCopies(b: Boot, ms: seq<Msg>, d: string)
    ensures LocalsFor(CopiesOf(b, ms, d), d) == if Takes(b, d) then LocalsFor(ms, d) else []
  {
    hide Takes, TakesAsNode, KnownKind;
    if ms == [] {
    } else {
      LocalCopies(b, ms[1..], d);
      LocalsConcat(Copies(b, ms[0], d), CopiesOf(b, ms[1..], d), d);
      LocalCopy(b, ms[0], d);
    }
  }

  lemma LocalCopy(b: Boot, m: Msg, d: string)
    ensures LocalsFor(Copies(b, m, d), d) == if Takes(b, d) && LocalFor(m, d) then [m] else []
  {
    hide Takes, TakesAsNode, KnownKind;
    assert |Copies(b, m, d)| <= 2;
    if m.mode == Intra {
      assert |Copies(b, m, d)| <= 1;
    } else {
      NoneLocal(Copies(b, m, d), d);
    }
  }

  lemma {:induction false} NoneLocal(ms: seq<Msg>, d: string)
    requires forall i :: 0 <= i < |ms| ==> ms[i].mode != Intra
    ensures LocalsFor(ms, d) == []
  {
    if ms == [] {
    } else {
      NoneLocal(ms[1..], d);
    }
  }

  /** Dispatching hands d its plain in-process messages, once and in order, if d can take them. */
  lemma DispatchAllReceived(b: Boot, ms: seq<Msg>, d: string)
    ensures Received(DispatchedAll(b, ms).delivered, d)
         == Received(b.delivered, d) + if Takes(b, d) then LocalsFor(ms, d) else []
  {
    hide Takes, DispatchedAll, Got, CopiesOf, LocalsFor, Received;
    DispatchAllGot(b, ms, d);
    ReceivedIsGot(DispatchedAll(b, ms).delivered, d);
    ReceivedIsGot(b.delivered, d);
    LocalsConcat(Got(b.delivered, d), CopiesOf(b, ms, d), d);
    LocalCopies(b, ms, d);
  }
}
