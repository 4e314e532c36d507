/** What the messages that cross processes come to in a start-up: how long they are cached, and how many copies of each
    the node and the addressee have been handed when the program begins to run (myframe/app.cpp:236-268, 738-739). */
module StartUpCross {
  import opened Basics
  import opened Messages
  import opened Names
  import opened Routing
  import opened StartUp
  import opened StartUpRuns

  /** The step adds an actor of address a. */
  predicate JoinsAs(b: Boot, step: BootStep, a: string)
  {
    step.AddActor? && Accepts(b, step.c) && step.c.name == a
  }

  /** Whether a message sent by the actor the last step adds has to wait: it crosses processes, or nobody of its address
      is there. */
  predicate CannotGo(b: Boot, m: Msg)
  {
    m.mode != Intra || !((StartsWith(m.dst, "actor") && m.dst in b.actors)
                         || (StartsWith(m.dst, "worker") && m.dst in b.workers))
  }

  /** How often m has been sent without being able to go since an actor of its address was added last. */
  function Unclaimed(steps: seq<BootStep>, m: Msg): nat
  {
    if steps == [] then 0
    else
      var front, last := steps[..|steps| - 1], steps[|steps| - 1];
      (if JoinsAs(BootAfter(front), last, m.dst) then 0 else Unclaimed(front, m))
      + if CannotGo(BootAfter(steps), m) then multiset(NewSends(BootAfter(front), last))[m] else 0
  }

  lemma {:induction false} ForCount(ms: seq<Msg>, name: string, m: Msg)
    ensures multiset(For(ms, name))[m] == if m.dst == name then multiset(ms)[m] else 0
    ensures multiset(NotFor(ms, name))[m] == if m.dst == name then 0 else multiset(ms)[m]
  {
    if ms == [] {
    } else {
      ForCount(ms[1..], name, m);
      assert ms == [ms[0]] + ms[1..];
    }
  }

  lemma {:induction false} WaitingCount(b: Boot, ms: seq<Msg>, m: Msg)
    requires b.state == Initialized
    ensures multiset(Waiting(b, ms))[m] == if CannotGo(b, m) then multiset(ms)[m] else 0
    ensures multiset(StartUp.Ready(b, ms))[m] == if CannotGo(b, m) then 0 else multiset(ms)[m]
  {
    if ms == [] {
    } else {
      WaitingCount(b, ms[1..], m);
      WaitsIff(b, ms[0]);
      hide MustWait, CannotGo;
      assert ms == [ms[0]] + ms[1..];
    }
  }

  lemma WaitsIff(b: Boot, m: Msg)
    requires b.state == Initialized
    ensures MustWait(b, m) <==> CannotGo(b, m)
  {
    ActorOrWorker(m.dst);
  }

  /** The system an accepted actor dispatches in, and what becomes of it. */
  lemma JoinCounts(b: Boot, step: BootStep, m: Msg)
    requires b.state == Initialized && step.AddActor? && Accepts(b, step.c)
    ensures multiset(Step(b, step).cache)[m]
         == (if step.c.name == m.dst then 0 else multiset(b.cache)[m])
          + if CannotGo(Step(b, step), m) then multiset(step.c.sends)[m] else 0
    ensures multiset(DispatchedByStep(b, step))[m]
         == (if step.c.name == m.dst then multiset(b.cache)[m] else 0)
          + if CannotGo(Step(b, step), m) then 0 else multiset(step.c.sends)[m]
  {
    var n, c := Noded(b, step.c), step.c;
    var named := Named(n, c.name);
    StepState(b, step);
    assert CannotGo(Step(b, step), m) == CannotGo(named, m);
    hide DispatchedAll, For, NotFor, Waiting, StartUp.Ready, CannotGo, Joined;
    var start := named.(cache := CachedByJoining(n, c.name, c.sends));
    JoinedIs(n, c.name, c.sends);
    DispatchOnlyDelivers(start, [], DispatchedByJoining(n, c.name, c.sends));
    ForCount(b.cache, c.name, m);
    WaitingCount(named, c.sends, m);
    CountOfConcat(NotFor(b.cache, c.name), Waiting(named, c.sends), m);
    CountOfConcat(For(b.cache, c.name), StartUp.Ready(named, c.sends), m);
  }

  /** At every moment of every start-up, any message is cached as often as it has been sent without being able to go
      since an actor of its address was added last; so a message that crosses processes stays cached until then. */
  lemma {:induction false} CachedExactly(steps: seq<BootStep>, m: Msg)
    ensures multiset(BootAfter(steps).cache)[m] == Unclaimed(steps, m)
  {
    if steps == [] {
    } else {
      var front, last := steps[..|steps| - 1], steps[|steps| - 1];
      hide Step, CannotGo;
      CachedExactly(front, m);
      StillStarting(front);
      if last.AddActor? && Accepts(BootAfter(front), last.c) {
        JoinCounts(BootAfter(front), last, m);
      } else {
        OtherwiseKeepsCache(BootAfter(front), last);
      }
    }
  }

  lemma OtherwiseKeepsCache(b: Boot, step: BootStep)
    requires !(step.AddActor? && Accepts(b, step.c))
    ensures Step(b, step).cache == b.cache && Step(b, step).delivered == b.delivered
    ensures NewSends(b, step) == [] && DispatchedByStep(b, step) == []
  {
  }

  // ---- Copies ------------------------------------------------------------------------------------

  /** A plain message that crosses processes and whose address is of a known kind. */
  ghost predicate Crosses(m: Msg)
  {
    && Plain(m) && m.mode != Intra
    && (Addresses(m.dst, "actor") || Addresses(m.dst, "worker") || Addresses(m.dst, "event"))
  }

  /** The node is there, under an address it can be handed messages at. */
  predicate NodeThere(b: Boot, d: string)
  {
    b.node == d && ((StartsWith(d, "actor") && d in b.actors) || (StartsWith(d, "worker") && d in b.workers))
  }

  /** How often m was cached when an actor of its address was added while node d was not there. */
  function Missed(steps: seq<BootStep>, m: Msg, d: string): nat
  {
    if steps == [] then 0
    else
      var front, last := steps[..|steps| - 1], steps[|steps| - 1];
      Missed(front, m, d)
      + if JoinsAs(BootAfter(front), last, m.dst) && !NodeThere(BootAfter(steps), d) then Unclaimed(front, m) else 0
  }

  /** The addressee's own copies, besides those of the node. */
  predicate Own(m: Msg, d: string)
  {
    m.mode == Hybrid && m.dst == d
  }

  lemma OneCopied(b: Boot, x: Msg, m: Msg, d: string)
    requires Crosses(m)
    ensures multiset(Copies(b, x, d))[m]
         == if x == m then If(Own(m, d) && Takes(b, d), 1) + If(NodeThere(b, d), 1) else 0
  {
    KindsExact(m.dst);
    hide Takes, KnownKind, Addresses, StartsWith;
    CountOfConcat(OwnCopy(b, x, d), NodeCopy(b, x, d), m);
  }

  lemma {:induction false} CopiesCount(b: Boot, ms: seq<Msg>, m: Msg, d: string)
    requires Crosses(m)
    ensures var n := multiset(ms)[m];
            multiset(CopiesOf(b, ms, d))[m] == If(Own(m, d) && Takes(b, d), n) + If(NodeThere(b, d), n)
  {
    hide Crosses, Own, Takes, NodeThere, Copies;
    if ms == [] {
    } else {
      CopiesCount(b, ms[1..], m, d);
      OneCopied(b, ms[0], m, d);
      assert ms == [ms[0]] + ms[1..];
      CountOfConcat(Copies(b, ms[0], d), CopiesOf(b, ms[1..], d), m);
      CountOfConcat([ms[0]], ms[1..], m);
    }
  }

  lemma CrossCount(b: Boot, ms: seq<Msg>, d: string, m: Msg)
    requires Crosses(m)
    ensures multiset(Got(DispatchedAll(b, ms).delivered, d))[m]
         == multiset(Got(b.delivered, d))[m]
          + If(Own(m, d) && Takes(b, d), multiset(ms)[m]) + If(NodeThere(b, d), multiset(ms)[m])
  {
    hide DispatchedAll, Got, Crosses, NodeThere, Takes, Own, CopiesOf;
    DispatchAllGot(b, ms, d);
    CopiesCount(b, ms, m, d);
    CountOfConcat(Got(b.delivered, d), CopiesOf(b, ms, d), m);
  }

  lemma StepGot(b: Boot, step: BootStep, m: Msg, d: string)
    requires b.state == Initialized && Crosses(m) && JoinsAs(b, step, m.dst)
    requires Own(m, d) ==> StartsWith(d, "actor")
    ensures multiset(Got(Step(b, step).delivered, d))[m]
         == multiset(Got(b.delivered, d))[m]
          + If(Own(m, d), multiset(b.cache)[m]) + If(NodeThere(Step(b, step), d), multiset(b.cache)[m])
  {
    var n, c := Noded(b, step.c), step.c;
    var start := Named(n, c.name).(cache := CachedByJoining(n, c.name, c.sends));
    StepState(b, step);
    assert NodeThere(Step(b, step), d) == NodeThere(start, d);
    assert Own(m, d) ==> Takes(start, d) by {
      if Own(m, d) {
        OwnAddress(m, d);
      }
    }
    assert CannotGo(Step(b, step), m);
    JoinCounts(b, step, m);
    hide DispatchedAll, Joined, CachedByJoining, Got, Crosses, NodeThere, Takes, Own, CannotGo;
    JoinedIs(n, c.name, c.sends);
    CrossCount(start, DispatchedByStep(b, step), d, m);
  }

  lemma OwnAddress(m: Msg, d: string)
    requires Crosses(m) && Own(m, d) && StartsWith(d, "actor")
    ensures ActorAddress(d)
  {
    KindsExact(d);
    KindPrefix(d);
    EventPrefix(d);
  }

  lemma EventPrefix(d: string)
    ensures Addresses(d, "event") ==> !StartsWith(d, "actor")
  {
    if Addresses(d, "event") {
      assert d[0] == 'e';
    }
    if StartsWith(d, "actor") {
      assert d[..5][0] == 'a';
    }
  }

  lemma StepGotNothing(b: Boot, step: BootStep, m: Msg, d: string)
    requires b.state == Initialized && Crosses(m) && !JoinsAs(b, step, m.dst)
    ensures multiset(Got(Step(b, step).delivered, d))[m] == multiset(Got(b.delivered, d))[m]
  {
    if step.AddActor? && Accepts(b, step.c) {
      var n, c := Noded(b, step.c), step.c;
      var start := Named(n, c.name).(cache := CachedByJoining(n, c.name, c.sends));
      assert CannotGo(Step(b, step), m);
      JoinCounts(b, step, m);
      hide DispatchedAll, Joined, CachedByJoining, Got, Crosses, CannotGo;
      JoinedIs(n, c.name, c.sends);
      CrossCount(start, DispatchedByStep(b, step), d, m);
    } else {
      OtherwiseKeepsCache(b, step);
    }
  }

  ghost function CountGot(steps: seq<BootStep>, d: string, m: Msg): nat
  {
    multiset(Got(BootAfter(steps).delivered, d))[m]
  }

  ghost function CountSent(steps: seq<BootStep>, m: Msg): nat
  {
    multiset(Sent(steps))[m]
  }

  /** Before the flush: what has been dispatched has reached the addressee, and the node unless it was not there. */
  ghost predicate GotSoFar(steps: seq<BootStep>, m: Msg, d: string)
  {
    var gone := CountSent(steps, m) - Unclaimed(steps, m);
    gone >= 0 && CountGot(steps, d, m) == (gone - Missed(steps, m, d)) + If(Own(m, d), gone)
  }

  /** One step more: an actor of the address claims what is cached, and nothing else is dispatched. */
  lemma OneStepMore(steps: seq<BootStep>, m: Msg, d: string)
    requires steps != [] && Crosses(m) && ProperNames(steps)
    ensures var front := steps[..|steps| - 1];
            var claimed := if JoinsAs(BootAfter(front), steps[|steps| - 1], m.dst) then Unclaimed(front, m) else 0;
            && CountSent(steps, m) - Unclaimed(steps, m) == CountSent(front, m) - Unclaimed(front, m) + claimed
            && Missed(steps, m, d) == Missed(front, m, d) + If(!NodeThere(BootAfter(steps), d), claimed)
            && CountGot(steps, d, m)
            == CountGot(front, d, m) + If(Own(m, d), claimed) + If(NodeThere(BootAfter(steps), d), claimed)
  {
    var front, last := steps[..|steps| - 1], steps[|steps| - 1];
    var b := BootAfter(front);
    StillStarting(front);
    CachedExactly(front, m);
    CountOfConcat(Sent(front), NewSends(b, last), m);
    assert CannotGo(BootAfter(steps), m);
    assert BootAfter(steps) == Step(b, last);
    hide Step, Crosses, NodeThere, Own, CannotGo, Got;
    if JoinsAs(b, last, m.dst) {
      OwnIs(m, d);
      StepGot(b, last, m, d);
    } else {
      StepGotNothing(b, last, m, d);
    }
  }

  lemma ClaimedAll(got: int, gone: int, missed: int, claimed: nat, own: bool, node: bool)
    requires got == (gone - missed) + (if own then gone else 0)
    ensures got + If(own, claimed) + If(node, claimed)
         == ((gone + claimed) - (missed + If(!node, claimed))) + if own then gone + claimed else 0
  {
  }

  lemma {:induction false} GotAlways(steps: seq<BootStep>, m: Msg, d: string)
    requires Crosses(m) && ProperNames(steps)
    ensures GotSoFar(steps, m, d)
  {
    if steps == [] {
    } else {
      var front, last := steps[..|steps| - 1], steps[|steps| - 1];
      assert forall i :: 0 <= i < |front| ==> front[i] == steps[i];
      GotAlways(front, m, d);
      OneStepMore(steps, m, d);
      hide CountSent, CountGot, Missed, Unclaimed, Crosses, ProperNames;
      var claimed := if JoinsAs(BootAfter(front), last, m.dst) then Unclaimed(front, m) else 0;
      ClaimedAll(CountGot(front, d, m), CountSent(front, m) - Unclaimed(front, m), Missed(front, m, d), claimed,
                 Own(m, d), NodeThere(BootAfter(steps), d));
    }
  }

  lemma OwnIs(m: Msg, d: string)
    ensures Own(m, d) ==> d == m.dst
  {
  }

  // ---- When the program begins to run ------------------------------------------------------------

  lemma NodeStaysThere(b: Boot, step: BootStep, d: string)
    ensures NodeThere(b, d) ==> NodeThere(Step(b, step), d)
    ensures Takes(b, d) ==> Takes(Step(b, step), d)
    ensures JoinsAs(b, step, d) && ActorAddress(d) ==> Takes(Step(b, step), d)
  {
    StepState(b, step);
    assert StartsWith(d, "actor") || StartsWith(d, "worker") ==> d != "";
    hide ActorAddress, WorkerAddress, StartsWith;
  }

  lemma {:induction false} NeverThere(steps: seq<BootStep>, m: Msg, d: string)
    requires Crosses(m) && ProperNames(steps) && !NodeThere(BootAfter(steps), d)
    ensures Missed(steps, m, d) == CountSent(steps, m) - Unclaimed(steps, m)
  {
    if steps == [] {
    } else {
      var front, last := steps[..|steps| - 1], steps[|steps| - 1];
      assert forall i :: 0 <= i < |front| ==> front[i] == steps[i];
      NodeStaysThere(BootAfter(front), last, d);
      NeverThere(front, m, d);
      OneStepMore(steps, m, d);
    }
  }

  lemma {:induction false} NeverTaken(steps: seq<BootStep>, m: Msg, d: string)
    requires Crosses(m) && ProperNames(steps) && m.dst == d && !Takes(BootAfter(steps), d)
    ensures CountSent(steps, m) == Unclaimed(steps, m)
  {
    if steps == [] {
    } else {
      var front, last := steps[..|steps| - 1], steps[|steps| - 1];
      assert forall i :: 0 <= i < |front| ==> front[i] == steps[i];
      NodeStaysThere(BootAfter(front), last, d);
      ProperJoin(BootAfter(front), steps, m);
      hide Crosses, ProperNames, ActorAddress, JoinsAs;
      NeverTaken(front, m, d);
      OneStepMore(steps, m, d);
    }
  }

  lemma ProperJoin(b: Boot, steps: seq<BootStep>, m: Msg)
    requires steps != [] && ProperNames(steps) && Crosses(m)
    ensures JoinsAs(b, steps[|steps| - 1], m.dst) ==> ActorAddress(m.dst)
  {
    if StartsWith(m.dst, "actor") {
      OwnAddress(m.(mode := Hybrid), m.dst);
    }
  }

  lemma FlushCounts(steps: seq<BootStep>, m: Msg, d: string)
    requires Crosses(m)
    ensures var b := BootAfter(steps);
            multiset(Got(Flushed(b).delivered, d))[m]
            == CountGot(steps, d, m)
             + If(Own(m, d) && Takes(b, d), Unclaimed(steps, m)) + If(NodeThere(b, d), Unclaimed(steps, m))
  {
    var b := BootAfter(steps);
    var start := b.(state := AppState.Running, cache := []);
    CachedExactly(steps, m);
    assert Flushed(b) == DispatchedAll(start, b.cache);
    assert Takes(start, d) == Takes(b, d) && NodeThere(start, d) == NodeThere(b, d);
    hide Crosses, Own, Takes, NodeThere, DispatchedAll, Got, Unclaimed, BootAfter, Flushed;
    CrossCount(start, b.cache, d, m);
  }

  lemma FlushedAll(sent: nat, unclaimed: nat, missed: int, own: bool, takes: bool, node: bool)
    requires unclaimed <= sent
    requires !node ==> missed == sent - unclaimed
    requires own && !takes ==> sent == unclaimed
    ensures (sent - unclaimed - missed) + (if own then sent - unclaimed else 0)
            + If(own && takes, unclaimed) + If(node, unclaimed)
         == (if node then sent - missed else 0) + if own && takes then sent else 0
  {
  }

  /** When the program begins to run, each message that crosses processes has been handed to the node, if that is there,
      as often as it was sent but for those that an actor of their address claimed before the node was there; and, if it
      is hybrid, once each to the actor or worker it is addressed to, if that is there. Nobody else has it. */
  lemma CrossProcessGot(steps: seq<BootStep>, m: Msg, d: string)
    requires Crosses(m) && ProperNames(steps)
    ensures var b := BootAfter(steps);
            var there := (ActorAddress(d) && d in b.actors) || (WorkerAddress(d) && d in b.workers);
            multiset(Got(Flushed(b).delivered, d))[m]
            == (if NodeThere(b, d) then CountSent(steps, m) - Missed(steps, m, d) else 0)
             + if m.mode == Hybrid && m.dst == d && there then CountSent(steps, m) else 0
  {
    var b := BootAfter(steps);
    var own, takes, node := Own(m, d), Takes(b, d), NodeThere(b, d);
    GotAlways(steps, m, d);
    FlushCounts(steps, m, d);
    if !node {
      NeverThere(steps, m, d);
    }
    if own && !takes {
      NeverTaken(steps, m, d);
    }
    hide Crosses, NodeThere, Missed, CountSent, CountGot, Unclaimed, BootAfter, ActorAddress, WorkerAddress, Flushed;
    FlushedAll(CountSent(steps, m), Unclaimed(steps, m), Missed(steps, m, d), own, takes, node);
  }

  // ---- What the node misses ----------------------------------------------------------------------

  /** Whether m waits when step number i adds an actor of its address, and the node is not there then either. */
  predicate MissedAt(steps: seq<BootStep>, m: Msg, d: string, i: nat)
    requires i < |steps|
  {
    JoinsAs(BootAfter(steps[..i]), steps[i], m.dst) && Unclaimed(steps[..i], m) > 0
    && !NodeThere(BootAfter(steps[..i + 1]), d)
  }

  lemma MissedFront(steps: seq<BootStep>, m: Msg, d: string, i: nat)
    requires i < |steps| - 1
    ensures MissedAt(steps, m, d, i) == MissedAt(steps[..|steps| - 1], m, d, i)
  {
    var front := steps[..|steps| - 1];
    assert front[..i] == steps[..i] && front[..i + 1] == steps[..i + 1];
  }

  ghost predicate EverMissed(steps: seq<BootStep>, m: Msg, d: string)
  {
    exists i :: 0 <= i < |steps| && MissedAt(steps, m, d, i)
  }

  lemma MissedLast(steps: seq<BootStep>, m: Msg, d: string)
    requires steps != []
    ensures var k := |steps| - 1;
            && (EverMissed(steps, m, d) <==> EverMissed(steps[..k], m, d) || MissedAt(steps, m, d, k))
            && (MissedAt(steps, m, d, k) <==> Missed(steps, m, d) > Missed(steps[..k], m, d))
  {
    var k := |steps| - 1;
    var front := steps[..k];
    assert steps[..k + 1] == steps;
    assert MissedAt(steps, m, d, k) <==> Missed(steps, m, d) > Missed(front, m, d);
    hide MissedAt, Missed;
    forall i | 0 <= i < k ensures MissedAt(steps, m, d, i) == MissedAt(front, m, d, i) {
      MissedFront(steps, m, d, i);
    }
    if EverMissed(front, m, d) {
      var i :| 0 <= i < |front| && MissedAt(front, m, d, i);
      assert MissedAt(steps, m, d, i);
    }
  }

  lemma {:induction false} MissedIff(steps: seq<BootStep>, m: Msg, d: string)
    ensures Missed(steps, m, d) > 0 <==> EverMissed(steps, m, d)
  {
    if steps == [] {
    } else {
      var front := steps[..|steps| - 1];
      MissedIff(front, m, d);
      MissedLast(steps, m, d);
      assert Missed(steps, m, d) >= Missed(front, m, d);
      hide Missed, EverMissed;
    }
  }

  /** So the node, whenever it was added, is handed every such message not addressed to it, once for each time it was
      sent, if and only if no actor of its address was added while it waited and the node was not there. */
  lemma NodeGetsAllIff(steps: seq<BootStep>, m: Msg, d: string)
    requires Crosses(m) && ProperNames(steps) && NodeThere(BootAfter(steps), d) && (m.mode == Dds || m.dst != d)
    ensures multiset(Got(Flushed(BootAfter(steps)).delivered, d))[m] == multiset(Sent(steps))[m] <==>
            !EverMissed(steps, m, d)
  {
    CrossProcessGot(steps, m, d);
    MissedIff(steps, m, d);
    hide Crosses, NodeThere, BootAfter, EverMissed, Flushed, ProperNames, Missed;
  }

  /** In particular when no actor of its address is added after it was first sent. */
  lemma UnclaimedReachesNode(steps: seq<BootStep>, m: Msg, d: string)
    requires Crosses(m) && ProperNames(steps) && NodeThere(BootAfter(steps), d) && (m.mode == Dds || m.dst != d)
    requires forall i :: 0 <= i < |steps| && JoinsAs(BootAfter(steps[..i]), steps[i], m.dst) ==>
               multiset(Sent(steps[..i]))[m] == 0
    ensures multiset(Got(Flushed(BootAfter(steps)).delivered, d))[m] == multiset(Sent(steps))[m]
  {
    NodeGetsAllIff(steps, m, d);
    forall i | 0 <= i < |steps| ensures !MissedAt(steps, m, d, i) {
      CachedExactly(steps[..i], m);
      DispatchedOrCached(steps[..i], m);
    }
  }

  /** Actor a sends m to b across processes before b is added, and the node comes last: b claims the message from the
      cache, there is no node to take it, and it is gone. */
  lemma NodeMisses(a: string, b: string, n: string, m: Msg)
    requires Addresses(b, "actor") && StartsWith(a, "actor") && StartsWith(b, "actor") && StartsWith(n, "actor")
    requires a != b && n != b && Plain(m) && m.mode == Dds && m.dst == b
    ensures var steps := [AddActor(New(a, false, true, [m])), AddActor(New(b, false, true, [])),
                          AddActor(New(n, true, true, []))];
            && NodeThere(BootAfter(steps), n) && multiset(Sent(steps))[m] == 1
            && m !in Got(Flushed(BootAfter(steps)).delivered, n)
  {
    var x, y, z := New(a, false, true, [m]), New(b, false, true, []), New(n, true, true, []);
    ThreeProper(x, y, z);
    ThreeSent(x, y, z, m);
    ThreeMissed(x, y, z, m);
    assert n != "";
    hide Missed, Flushed, Got, Addresses, BootAfter, Sent, NodeThere, ProperNames, StartsWith;
    LostToNode([AddActor(x), AddActor(y), AddActor(z)], m, n);
  }

  lemma LostToNode(steps: seq<BootStep>, m: Msg, d: string)
    requires Crosses(m) && m.mode == Dds && ProperNames(steps) && NodeThere(BootAfter(steps), d)
    requires Sent(steps) == [m] && Missed(steps, m, d) >= 1
    ensures m !in Got(Flushed(BootAfter(steps)).delivered, d)
  {
    hide Crosses, Missed, Flushed, Got, BootAfter, NodeThere, ProperNames, ActorAddress, WorkerAddress, Sent;
    CrossProcessGot(steps, m, d);
  }

  lemma ThreeSent(x: New, y: New, z: New, m: Msg)
    requires x.initOk && y.initOk && z.initOk && !x.isNode && !y.isNode && z.isNode
    requires x.sends == [m] && y.sends == z.sends == []
    ensures Sent([AddActor(x), AddActor(y), AddActor(z)]) == [m]
  {
    var s1, s2, s3 := [AddActor(x)], [AddActor(x), AddActor(y)], [AddActor(x), AddActor(y), AddActor(z)];
    assert s3[..2] == s2 && s2[..1] == s1 && s1[..0] == [];
    ThreeAdded(x, y, z);
    hide BootAfter;
    assert Sent([]) == [];
    assert Sent(s1) == [m];
    assert Sent(s2) == [m];
  }

  lemma ThreeProper(x: New, y: New, z: New)
    requires StartsWith(x.name, "actor") && StartsWith(y.name, "actor") && StartsWith(z.name, "actor")
    requires x.initOk && y.initOk && z.initOk && !x.isNode && !y.isNode && z.isNode
    ensures var steps := [AddActor(x), AddActor(y), AddActor(z)];
            ProperNames(steps) && NodeThere(BootAfter(steps), z.name)
  {
    ThreeAdded(x, y, z);
    hide BootAfter;
  }

  lemma ThreeMissed(x: New, y: New, z: New, m: Msg)
    requires x.initOk && y.initOk && z.initOk && !x.isNode && !y.isNode && z.isNode
    requires x.sends == [m] && m.mode != Intra && m.dst == y.name && x.name != y.name && z.name != ""
    ensures Missed([AddActor(x), AddActor(y), AddActor(z)], m, z.name) >= 1
  {
    var s1, s2, s3 := [AddActor(x)], [AddActor(x), AddActor(y)], [AddActor(x), AddActor(y), AddActor(z)];
    assert s3[..2] == s2 && s2[..1] == s1 && s1[..0] == [];
    ThreeAdded(x, y, z);
    hide BootAfter, StartsWith;
    assert Unclaimed(s1, m) == 1;
    hide Unclaimed;
    assert Missed(s2, m, z.name) >= 1;
  }

  lemma ThreeAdded(x: New, y: New, z: New)
    requires x.initOk && y.initOk && z.initOk && !x.isNode && !y.isNode && z.isNode
    ensures var s1, s2, s3 := [AddActor(x)], [AddActor(x), AddActor(y)], [AddActor(x), AddActor(y), AddActor(z)];
            && BootAfter([]) == Boot(Initialized, {}, map[], {}, "", [], [])
            && BootAfter(s1).node == BootAfter(s2).node == "" && BootAfter(s3).node == z.name
            && BootAfter(s1).actors == {x.name} && BootAfter(s2).actors == {x.name, y.name}
            && BootAfter(s3).actors == {x.name, y.name, z.name}
            && BootAfter(s1).state == BootAfter(s2).state == BootAfter(s3).state == Initialized
            && BootAfter(s1).workers == BootAfter(s2).workers == BootAfter(s3).workers == map[]
  {
    var s1, s2, s3 := [AddActor(x)], [AddActor(x), AddActor(y)], [AddActor(x), AddActor(y), AddActor(z)];
    assert s3[..2] == s2 && s2[..1] == s1 && s1[..0] == [];
    StepState(BootAfter([]), AddActor(x));
    StepState(BootAfter(s1), AddActor(y));
    StepState(BootAfter(s2), AddActor(z));
    hide Step;
  }
}
