/** Whole start-ups: who has received what, once and in which order, when the program begins to run
    (myframe/app.cpp:208-311, 738-739). */
module StartUpRuns {
  import opened Basics
  import opened Messages
  import opened Names
  import opened Routing
  import opened StartUp

  datatype BootStep = AddActor(c: New) | AddWorker(c: New, handle: nat)

  function Step(b: Boot, step: BootStep): Boot
  {
    match step
    case AddActor(c) => ActorAdded(b, c)
    case AddWorker(c, handle) => WorkerAdded(b, c, handle)
  }

  function BootAfter(steps: seq<BootStep>): Boot
  {
    if steps == [] then Boot(Initialized, {}, map[], {}, "", [], [])
    else Step(BootAfter(steps[..|steps| - 1]), steps[|steps| - 1])
  }

  /** What a step sends: an actor that is refused sends nothing, and what it has put into its list is gone with it. */
  function NewSends(b: Boot, step: BootStep): seq<Msg>
  {
    if step.AddActor? && Accepts(b, step.c) then step.c.sends else []
  }

  function Sent(steps: seq<BootStep>): seq<Msg>
  {
    if steps == [] then []
    else
      var front := steps[..|steps| - 1];
      Sent(front) + NewSends(BootAfter(front), steps[|steps| - 1])
  }

  lemma StepState(b: Boot, step: BootStep)
    ensures Step(b, step).state == b.state
    ensures step.AddActor? ==>
              && Step(b, step).workers == b.workers && Step(b, step).handles == b.handles
              && Step(b, step).node == Noded(b, step.c).node
              && Step(b, step).actors == if Accepts(b, step.c) then b.actors + {step.c.name} else b.actors
  {
    if step.AddActor? && Accepts(b, step.c) {
      hide DispatchedAll;
      var n, c := Noded(b, step.c), step.c;
      JoinedIs(n, c.name, c.sends);
      DispatchOnlyDelivers(Named(n, c.name).(cache := CachedByJoining(n, c.name, c.sends)), [],
                           DispatchedByJoining(n, c.name, c.sends));
    }
  }

  lemma {:induction false} StillStarting(steps: seq<BootStep>)
    ensures BootAfter(steps).state == Initialized
  {
    if steps == [] {
    } else {
      StillStarting(steps[..|steps| - 1]);
      StepState(BootAfter(steps[..|steps| - 1]), steps[|steps| - 1]);
    }
  }

  // ---- One more actor, seen by component d -------------------------------------------------------

  lemma {:induction false} LocalsOfFor(ms: seq<Msg>, name: string, d: string)
    ensures LocalsFor(For(ms, name), d) == if d == name then LocalsFor(ms, d) else []
    ensures LocalsFor(NotFor(ms, name), d) == if d == name then [] else LocalsFor(ms, d)
  {
    if ms == [] {
    } else {
      LocalsOfFor(ms[1..], name, d);
    }
  }

  lemma Reachable(b: Boot, d: string)
    requires ActorAddress(d) || WorkerAddress(d)
    ensures HasUserInst(b, d) <==> Takes(b, d)
  {
    ActorOrWorker(d);
    KindPrefix(d);
  }

  lemma {:induction false} LocalsHeldBack(b: Boot, ms: seq<Msg>, d: string)
    requires (ActorAddress(d) || WorkerAddress(d)) && b.state == Initialized
    ensures LocalsFor(Waiting(b, ms), d) == if Takes(b, d) then [] else LocalsFor(ms, d)
    ensures LocalsFor(Ready(b, ms), d) == if Takes(b, d) then LocalsFor(ms, d) else []
    decreases |ms|
  {
    hide HasUserInst, Takes, ActorAddress, WorkerAddress;
    if ms == [] {
    } else {
      LocalsHeldBack(b, ms[1..], d);
      Reachable(b, d);
    }
  }

  /** Joining hands d what was cached for it if it is d that joins, and the new messages for d if d can take them; the
      others for d are cached. */
  lemma JoinedFor(b: Boot, name: string, sends: seq<Msg>, d: string)
    requires (ActorAddress(d) || WorkerAddress(d)) && b.state == Initialized
    ensures Received(Joined(b, name, sends).delivered, d)
         == Received(b.delivered, d)
          + (if Takes(Named(b, name), d) && d == name then LocalsFor(b.cache, d) else [])
          + (if Takes(Named(b, name), d) then LocalsFor(sends, d) else [])
    ensures LocalsFor(Joined(b, name, sends).cache, d)
         == (if d == name then [] else LocalsFor(b.cache, d))
          + (if Takes(Named(b, name), d) then [] else LocalsFor(sends, d))
  {
    hide DispatchedAll, LocalsFor, Received, For, NotFor, Waiting, Ready, ActorAddress, WorkerAddress, Takes, Joined;
    var named := Named(b, name);
    var start := named.(cache := CachedByJoining(b, name, sends));
    JoinedIs(b, name, sends);
    DispatchOnlyDelivers(start, [], DispatchedByJoining(b, name, sends));
    DispatchAllReceived(start, DispatchedByJoining(b, name, sends), d);
    TakesIgnores(named, start, d);
    LocalsConcat(For(b.cache, name), Ready(named, sends), d);
    LocalsConcat(NotFor(b.cache, name), Waiting(named, sends), d);
    LocalsOfFor(b.cache, name, d);
    LocalsHeldBack(named, sends, d);
  }

  lemma TakesIgnores(b: Boot, c: Boot, d: string)
    requires b.actors == c.actors && b.workers == c.workers
    ensures Takes(b, d) == Takes(c, d)
  {
  }

  // ---- Actors ------------------------------------------------------------------------------------

  /** Every plain in-process message for actor d is cached until d is added and received from then on; in both cases in
      the order of sending. */
  ghost predicate CacheInv(b: Boot, sent: seq<Msg>, d: string)
  {
    && Received(b.delivered, d) == (if d in b.actors then LocalsFor(sent, d) else [])
    && LocalsFor(b.cache, d) == if d in b.actors then [] else LocalsFor(sent, d)
  }

  lemma AddKeepsCacheInv(b: Boot, sent: seq<Msg>, step: BootStep, d: string)
    requires ActorAddress(d) && b.state == Initialized && CacheInv(b, sent, d)
    ensures CacheInv(Step(b, step), sent + NewSends(b, step), d)
  {
    if step.AddActor? && Accepts(b, step.c) {
      JoinKeepsCacheInv(Noded(b, step.c), sent, step.c, d);
    } else {
      assert sent + [] == sent;
    }
  }

  lemma JoinKeepsCacheInv(b: Boot, sent: seq<Msg>, c: New, d: string)
    requires ActorAddress(d) && b.state == Initialized && CacheInv(b, sent, d)
    ensures CacheInv(Joined(b, c.name, c.sends), sent + c.sends, d)
  {
    hide LocalsFor, Received, Joined, Waiting, Ready;
    assert Takes(Named(b, c.name), d) <==> d in b.actors || d == c.name by { ActorOrWorker(d); }
    hide ActorAddress, WorkerAddress, Takes, Named;
    JoinedFor(b, c.name, c.sends, d);
    LocalsConcat(sent, c.sends, d);
    JoinedActors(b, c.name, c.sends);
  }

  lemma JoinedActors(b: Boot, name: string, sends: seq<Msg>)
    ensures Joined(b, name, sends).actors == b.actors + {name}
  {
    hide DispatchedAll;
    JoinedIs(b, name, sends);
    DispatchOnlyDelivers(Named(b, name).(cache := CachedByJoining(b, name, sends)), [],
                         DispatchedByJoining(b, name, sends));
  }

  lemma {:induction false} CacheInvAlways(steps: seq<BootStep>, d: string)
    requires ActorAddress(d)
    ensures CacheInv(BootAfter(steps), Sent(steps), d)
  {
    hide Step, CacheInv, NewSends;
    if steps != [] {
      var front := steps[..|steps| - 1];
      CacheInvAlways(front, d);
      StillStarting(front);
      AddKeepsCacheInv(BootAfter(front), Sent(front), steps[|steps| - 1], d);
    } else {
      NothingYet(d);
    }
  }

  lemma NothingYet(d: string)
    ensures CacheInv(BootAfter([]), Sent([]), d)
  {
  }

  // ---- User workers ------------------------------------------------------------------------------

  /** Actors and workers carry their kind in their names. */
  predicate ProperNames(steps: seq<BootStep>)
  {
    forall i :: 0 <= i < |steps| ==>
      StartsWith(steps[i].c.name, if steps[i].AddActor? then "actor" else "worker")
  }

  /** The plain in-process messages sent to worker d before it was added. */
  function SentBefore(steps: seq<BootStep>, d: string): seq<Msg>
  {
    if steps == [] then []
    else
      var front := steps[..|steps| - 1];
      if d in BootAfter(front).workers then SentBefore(front, d) else LocalsFor(Sent(steps), d)
  }

  /** Those sent since. */
  function SentSince(steps: seq<BootStep>, d: string): seq<Msg>
  {
    if steps == [] then []
    else
      var front := steps[..|steps| - 1];
      if d in BootAfter(front).workers
      then SentSince(front, d) + LocalsFor(NewSends(BootAfter(front), steps[|steps| - 1]), d) else []
  }

  lemma SentUnfolds(steps: seq<BootStep>, d: string)
    requires steps != []
    ensures var front := steps[..|steps| - 1];
            var more := NewSends(BootAfter(front), steps[|steps| - 1]);
            && Sent(steps) == Sent(front) + more
            && SentBefore(steps, d)
               == (if d in BootAfter(front).workers then SentBefore(front, d) else LocalsFor(Sent(steps), d))
            && SentSince(steps, d)
               == (if d in BootAfter(front).workers then SentSince(front, d) + LocalsFor(more, d) else [])
            && BootAfter(steps) == Step(BootAfter(front), steps[|steps| - 1])
  {
    hide LocalsFor, NewSends, Step;
  }

  lemma {:induction false} BeforeAndSince(steps: seq<BootStep>, d: string)
    ensures LocalsFor(Sent(steps), d) == SentBefore(steps, d) + SentSince(steps, d)
    ensures d !in BootAfter(steps).workers ==> SentSince(steps, d) == []
  {
    if steps == [] {
    } else {
      var front, last := steps[..|steps| - 1], steps[|steps| - 1];
      SentUnfolds(steps, d);
      BeforeAndSince(front, d);
      hide LocalsFor, NewSends, Step, Sent, SentBefore, SentSince, BootAfter;
      var more := NewSends(BootAfter(front), last);
      LocalsConcat(Sent(front), more, d);
      WorkersStay(BootAfter(front), last);
      if d in BootAfter(front).workers {
        assert (SentBefore(front, d) + SentSince(front, d)) + LocalsFor(more, d)
            == SentBefore(front, d) + (SentSince(front, d) + LocalsFor(more, d));
      }
    }
  }

  lemma WorkersStay(b: Boot, step: BootStep)
    ensures b.workers.Keys <= Step(b, step).workers.Keys
  {
    StepState(b, step);
  }

  /** Adding worker d hands it nothing: what was sent before stays cached, what is sent from then on is received. */
  ghost predicate WorkerInv(b: Boot, before: seq<Msg>, since: seq<Msg>, d: string)
  {
    Received(b.delivered, d) == since && LocalsFor(b.cache, d) == before
  }

  lemma AddKeepsWorkerInv(b: Boot, before: seq<Msg>, since: seq<Msg>, step: BootStep, d: string)
    requires WorkerAddress(d) && b.state == Initialized && WorkerInv(b, before, since, d)
    requires step.AddActor? ==> step.c.name != d
    ensures var more := LocalsFor(NewSends(b, step), d);
            if d in b.workers then WorkerInv(Step(b, step), before, since + more, d)
            else WorkerInv(Step(b, step), before + more, since, d)
  {
    ActorOrWorker(d);
    hide Received, ActorAddress, Joined;
    assert before + [] == before && since + [] == since;
    if step.AddActor? && Accepts(b, step.c) {
      hide LocalsFor;
      var n, c := Noded(b, step.c), step.c;
      JoinedFor(n, c.name, c.sends, d);
      assert Takes(Named(n, c.name), d) <==> d in b.workers;
    }
  }

  lemma {:induction false} WorkerInvAlways(steps: seq<BootStep>, d: string)
    requires WorkerAddress(d) && ProperNames(steps)
    ensures WorkerInv(BootAfter(steps), SentBefore(steps, d), SentSince(steps, d), d)
  {
    if steps == [] {
      NothingForWorker(d);
    } else {
      var front, last := steps[..|steps| - 1], steps[|steps| - 1];
      ProperFront(steps, d);
      WorkerInvAlways(front, d);
      StillStarting(front);
      AddKeepsWorkerInv(BootAfter(front), SentBefore(front, d), SentSince(front, d), last, d);
      SentSteps(steps, d);
      hide LocalsFor, NewSends, Step, WorkerInv, WorkerAddress, SentBefore, SentSince;
      assert BootAfter(steps) == Step(BootAfter(front), last);
    }
  }

  lemma NothingForWorker(d: string)
    ensures WorkerInv(BootAfter([]), SentBefore([], d), SentSince([], d), d)
  {
  }

  lemma ProperFront(steps: seq<BootStep>, d: string)
    requires steps != [] && ProperNames(steps) && WorkerAddress(d)
    ensures ProperNames(steps[..|steps| - 1])
    ensures steps[|steps| - 1].AddActor? ==> steps[|steps| - 1].c.name != d
  {
    KindPrefix(d);
    var front := steps[..|steps| - 1];
    assert forall i :: 0 <= i < |front| ==> front[i] == steps[i];
  }

  lemma SentSteps(steps: seq<BootStep>, d: string)
    requires steps != []
    ensures var front := steps[..|steps| - 1];
            var more := LocalsFor(NewSends(BootAfter(front), steps[|steps| - 1]), d);
            if d in BootAfter(front).workers
            then SentBefore(steps, d) == SentBefore(front, d) && SentSince(steps, d) == SentSince(front, d) + more
            else SentBefore(steps, d) == SentBefore(front, d) + more && SentSince(steps, d) == SentSince(front, d)
  {
    hide LocalsFor, NewSends, BootAfter;
    var front := steps[..|steps| - 1];
    BeforeAndSince(front, d);
    LocalsConcat(Sent(front), NewSends(BootAfter(front), steps[|steps| - 1]), d);
  }

  // ---- When the program begins to run ------------------------------------------------------------

  lemma FlushReceived(b: Boot, d: string)
    ensures Flushed(b).cache == []
    ensures Received(Flushed(b).delivered, d)
         == Received(b.delivered, d) + if Takes(b, d) then LocalsFor(b.cache, d) else []
  {
    hide Takes, DispatchedAll;
    var start := b.(state := Running, cache := []);
    DispatchAllReceived(start, b.cache, d);
    DispatchOnlyDelivers(start, [], b.cache);
    TakesIgnores(b, start, d);
  }

  lemma {:induction false} MisshapenNeverReceives(steps: seq<BootStep>, d: string)
    requires !ActorAddress(d) && !WorkerAddress(d)
    ensures Received(BootAfter(steps).delivered, d) == []
  {
    if steps == [] {
    } else {
      var front, last := steps[..|steps| - 1], steps[|steps| - 1];
      var b := BootAfter(front);
      MisshapenNeverReceives(front, d);
      if last.AddActor? && Accepts(b, last.c) {
        hide DispatchedAll, ActorAddress, WorkerAddress;
        var n, c := Noded(b, last.c), last.c;
        JoinedIs(n, c.name, c.sends);
        DispatchAllReceived(Named(n, c.name).(cache := CachedByJoining(n, c.name, c.sends)),
                            DispatchedByJoining(n, c.name, c.sends), d);
      }
    }
  }

  /** When the program begins to run nothing is cached any more, and an actor that was added has received every plain
      in-process message sent to it, once and in sending order, if and only if its address has three parts or nothing
      was sent to it. An address nobody took has received nothing. */
  lemma FlushCompletes(steps: seq<BootStep>, d: string)
    requires !WorkerAddress(d)
    ensures var b := Flushed(BootAfter(steps));
            && b.cache == []
            && Received(b.delivered, d)
            == if d in BootAfter(steps).actors && ActorAddress(d) then LocalsFor(Sent(steps), d) else []
  {
    var b := BootAfter(steps);
    FlushReceived(b, d);
    if ActorAddress(d) {
      CacheInvAlways(steps, d);
    } else {
      MisshapenNeverReceives(steps, d);
    }
    hide LocalsFor, Received, Flushed, BootAfter, Sent;
  }

  /** A user worker that was added has received the same messages, but what was sent before it was added comes last. */
  lemma WorkerFlushCompletes(steps: seq<BootStep>, d: string)
    requires WorkerAddress(d) && ProperNames(steps)
    ensures LocalsFor(Sent(steps), d) == SentBefore(steps, d) + SentSince(steps, d)
    ensures Received(Flushed(BootAfter(steps)).delivered, d)
         == if d in BootAfter(steps).workers then SentSince(steps, d) + SentBefore(steps, d) else []
  {
    var b := BootAfter(steps);
    FlushReceived(b, d);
    WorkerInvAlways(steps, d);
    BeforeAndSince(steps, d);
    ActorOrWorker(d);
    hide LocalsFor, Received, Flushed, BootAfter, Sent, SentBefore, SentSince;
    assert Takes(b, d) <==> d in b.workers;
  }

  /** Nothing is lost and nothing doubled on the way to a user worker. */
  lemma WorkerLosesNothing(steps: seq<BootStep>, d: string, m: Msg)
    requires WorkerAddress(d) && ProperNames(steps) && d in BootAfter(steps).workers
    ensures multiset(Received(Flushed(BootAfter(steps)).delivered, d))[m] == multiset(LocalsFor(Sent(steps), d))[m]
  {
    WorkerFlushCompletes(steps, d);
    hide LocalsFor, Received, Flushed, BootAfter, Sent;
    CountOfConcat(SentBefore(steps, d), SentSince(steps, d), m);
    CountOfConcat(SentSince(steps, d), SentBefore(steps, d), m);
  }

  /** Distinct messages reach a user worker in the order of sending exactly when none was sent before it was added, or
      none since. */
  lemma WorkerOrderIff(steps: seq<BootStep>, d: string)
    requires WorkerAddress(d) && ProperNames(steps) && d in BootAfter(steps).workers
    requires forall i, j :: 0 <= i < j < |LocalsFor(Sent(steps), d)| ==>
               LocalsFor(Sent(steps), d)[i] != LocalsFor(Sent(steps), d)[j]
    ensures Received(Flushed(BootAfter(steps)).delivered, d) == LocalsFor(Sent(steps), d)
        <==> SentBefore(steps, d) == [] || SentSince(steps, d) == []
  {
    WorkerFlushCompletes(steps, d);
    hide LocalsFor, Received, Flushed, BootAfter, Sent;
    hide SentBefore, SentSince;
    Rotated(SentBefore(steps, d), SentSince(steps, d));
  }

  lemma Rotated(a: seq<Msg>, b: seq<Msg>)
    requires forall i, j :: 0 <= i < j < |a + b| ==> (a + b)[i] != (a + b)[j]
    ensures b + a == a + b <==> a == [] || b == []
  {
    if a != [] && b != [] {
      assert (a + b)[0] == a[0] && (b + a)[0] == b[0] == (a + b)[|a|];
    }
  }

  // ---- Each sender's order -----------------------------------------------------------------------

  function By(ms: seq<Msg>, a: string): seq<Msg>
  {
    if ms == [] then [] else if ms[0].src == a then [ms[0]] + By(ms[1..], a) else By(ms[1..], a)
  }

  lemma {:induction false} ByConcat(x: seq<Msg>, y: seq<Msg>, a: string)
    ensures By(x + y, a) == By(x, a) + By(y, a)
  {
    if x == [] {
      assert x + y == y;
    } else {
      assert (x + y)[1..] == x[1..] + y;
      ByConcat(x[1..], y, a);
    }
  }

  /** Every actor is added once, and what it sends carries its address. */
  predicate HonestSenders(steps: seq<BootStep>)
  {
    && (forall i, j :: 0 <= i < j < |steps| && steps[i].AddActor? && steps[j].AddActor? ==>
          steps[i].c.name != steps[j].c.name)
    && (forall i :: 0 <= i < |steps| && steps[i].AddActor? ==> forall k :: 0 <= k < |steps[i].c.sends| ==>
          steps[i].c.sends[k].src == steps[i].c.name)
  }

  lemma {:induction false} ByNobody(ms: seq<Msg>, d: string, a: string)
    requires forall k :: 0 <= k < |ms| ==> ms[k].src != a
    ensures By(LocalsFor(ms, d), a) == []
  {
    if ms == [] {
    } else {
      ByNobody(ms[1..], d, a);
    }
  }

  lemma {:induction false} NotAddedNotSent(steps: seq<BootStep>, d: string, a: string)
    requires HonestSenders(steps)
    requires forall i :: 0 <= i < |steps| && steps[i].AddActor? ==> steps[i].c.name != a
    ensures By(LocalsFor(Sent(steps), d), a) == []
  {
    if steps == [] {
    } else {
      hide BootAfter;
      var front, last := steps[..|steps| - 1], steps[|steps| - 1];
      HonestFront(steps);
      NotAddedNotSent(front, d, a);
      var more := NewSends(BootAfter(front), last);
      LocalsConcat(Sent(front), more, d);
      ByConcat(LocalsFor(Sent(front), d), LocalsFor(more, d), a);
      ByNobody(more, d, a);
    }
  }

  lemma HonestFront(steps: seq<BootStep>)
    requires steps != [] && HonestSenders(steps)
    ensures HonestSenders(steps[..|steps| - 1])
    ensures forall i :: 0 <= i < |steps| - 1 ==> steps[..|steps| - 1][i] == steps[i]
  {
  }

  /** All that one actor sends from its Init is sent before worker d is added, or all since. */
  lemma {:induction false} OneSideOnly(steps: seq<BootStep>, d: string, a: string)
    requires HonestSenders(steps)
    ensures By(SentBefore(steps, d), a) == [] || By(SentSince(steps, d), a) == []
  {
    if steps == [] {
    } else {
      var front, last := steps[..|steps| - 1], steps[|steps| - 1];
      HonestFront(steps);
      var b := BootAfter(front);
      hide BootAfter;
      if d in b.workers {
        var more := NewSends(b, last);
        ByConcat(SentSince(front, d), LocalsFor(more, d), a);
        if last.AddActor? && last.c.name == a {
          NotAddedNotSent(front, d, a);
          BeforeAndSince(front, d);
          ByConcat(SentBefore(front, d), SentSince(front, d), a);
        } else {
          OneSideOnly(front, d, a);
          ByNobody(more, d, a);
        }
      }
    }
  }

  /** Whatever the global order, a user worker receives each sender's messages in the order of sending. */
  lemma WorkerOrderPerSender(steps: seq<BootStep>, d: string, a: string)
    requires WorkerAddress(d) && ProperNames(steps) && HonestSenders(steps) && d in BootAfter(steps).workers
    ensures By(Received(Flushed(BootAfter(steps)).delivered, d), a) == By(LocalsFor(Sent(steps), d), a)
  {
    WorkerFlushCompletes(steps, d);
    OneSideOnly(steps, d, a);
    hide LocalsFor, Received, Flushed, BootAfter, Sent, SentBefore, SentSince, By;
    ByConcat(SentBefore(steps, d), SentSince(steps, d), a);
    ByConcat(SentSince(steps, d), SentBefore(steps, d), a);
  }

  // ---- Every message, whatever its mode ----------------------------------------------------------

  /** What a step hands to the dispatcher. */
  function DispatchedByStep(b: Boot, step: BootStep): seq<Msg>
  {
    if step.AddActor? && Accepts(b, step.c)
    then DispatchedByJoining(Noded(b, step.c), step.c.name, step.c.sends) else []
  }

  function DispatchedSoFar(steps: seq<BootStep>): seq<Msg>
  {
    if steps == [] then []
    else
      var front := steps[..|steps| - 1];
      DispatchedSoFar(front) + DispatchedByStep(BootAfter(front), steps[|steps| - 1])
  }

  lemma {:induction false} ForCounts(ms: seq<Msg>, name: string, m: Msg)
    ensures multiset(For(ms, name))[m] + multiset(NotFor(ms, name))[m] == multiset(ms)[m]
  {
    if ms == [] {
    } else {
      ForCounts(ms[1..], name, m);
      assert ms == [ms[0]] + ms[1..];
    }
  }

  lemma {:induction false} ReadyCounts(b: Boot, ms: seq<Msg>, m: Msg)
    ensures multiset(StartUp.Ready(b, ms))[m] + multiset(Waiting(b, ms))[m] == multiset(ms)[m]
  {
    hide MustWait;
    if ms == [] {
    } else {
      ReadyCounts(b, ms[1..], m);
      assert ms == [ms[0]] + ms[1..];
    }
  }

  lemma StepCounts(b: Boot, step: BootStep, m: Msg)
    ensures multiset(DispatchedByStep(b, step))[m] + multiset(Step(b, step).cache)[m]
         == multiset(b.cache)[m] + multiset(NewSends(b, step))[m]
  {
    hide DispatchedAll, Joined, For, NotFor, Waiting, StartUp.Ready;
    if step.AddActor? && Accepts(b, step.c) {
      var n, c := Noded(b, step.c), step.c;
      var start := Named(n, c.name).(cache := CachedByJoining(n, c.name, c.sends));
      JoinedIs(n, c.name, c.sends);
      DispatchOnlyDelivers(start, [], DispatchedByJoining(n, c.name, c.sends));
      ForCounts(b.cache, c.name, m);
      ReadyCounts(Named(n, c.name), c.sends, m);
      CountOfConcat(NotFor(b.cache, c.name), Waiting(Named(n, c.name), c.sends), m);
      CountOfConcat(For(b.cache, c.name), StartUp.Ready(Named(n, c.name), c.sends), m);
    }
  }

  /** At every moment of every start-up each message sent, of any mode and kind, has been dispatched or is cached,
      exactly once altogether. */
  lemma {:induction false} DispatchedOrCached(steps: seq<BootStep>, m: Msg)
    ensures multiset(DispatchedSoFar(steps))[m] + multiset(BootAfter(steps).cache)[m] == multiset(Sent(steps))[m]
  {
    hide Step, NewSends, DispatchedByStep;
    if steps == [] {
    } else {
      var front, last := steps[..|steps| - 1], steps[|steps| - 1];
      DispatchedOrCached(front, m);
      StepCounts(BootAfter(front), last, m);
      CountOfConcat(DispatchedSoFar(front), DispatchedByStep(BootAfter(front), last), m);
      CountOfConcat(Sent(front), NewSends(BootAfter(front), last), m);
    }
  }

  // ---- Addresses of another shape ----------------------------------------------------------------

  function CrossProcess(ms: seq<Msg>): seq<Msg>
  {
    if ms == [] then []
    else if Plain(ms[0]) && ms[0].mode != Intra && KnownKind(ms[0].dst) then [ms[0]] + CrossProcess(ms[1..])
    else CrossProcess(ms[1..])
  }

  /** A component whose address has not three parts gets nothing that is addressed to it, and the node's copy of every
      message that crosses processes if and only if it is the node. */
  lemma {:induction false} MisshapenGetsNodeCopies(b: Boot, ms: seq<Msg>, d: string)
    requires !ActorAddress(d) && !WorkerAddress(d)
    ensures Got(DispatchedAll(b, ms).delivered, d)
         == Got(b.delivered, d) + if TakesAsNode(b, d) then CrossProcess(ms) else []
  {
    DispatchAllGot(b, ms, d);
    MisshapenCopies(b, ms, d);
  }

  lemma {:induction false} MisshapenCopies(b: Boot, ms: seq<Msg>, d: string)
    requires !ActorAddress(d) && !WorkerAddress(d)
    ensures CopiesOf(b, ms, d) == if TakesAsNode(b, d) then CrossProcess(ms) else []
  {
    hide TakesAsNode, ActorAddress, WorkerAddress, KnownKind;
    if ms == [] {
    } else {
      MisshapenCopies(b, ms[1..], d);
    }
  }

  /** The node never changes once it is known. */
  lemma NodeStays(b: Boot, step: BootStep, d: string)
    requires Step(b, step).node != d && d != ""
    ensures b.node != d
    ensures step.AddActor? ==> Noded(b, step.c).node != d
  {
    StepState(b, step);
  }

  /** So over whole start-ups, and when the program begins to run: unless it is the node, it has got nothing at all. */
  lemma MisshapenGetsNothing(steps: seq<BootStep>, d: string)
    requires !ActorAddress(d) && !WorkerAddress(d) && d != "" && BootAfter(steps).node != d
    ensures Got(BootAfter(steps).delivered, d) == [] && Got(Flushed(BootAfter(steps)).delivered, d) == []
  {
    var b := BootAfter(steps);
    MisshapenSoFar(steps, d);
    hide DispatchedAll, BootAfter, ActorAddress, WorkerAddress;
    MisshapenGetsNodeCopies(b.(state := Running, cache := []), b.cache, d);
  }

  lemma {:induction false} MisshapenSoFar(steps: seq<BootStep>, d: string)
    requires !ActorAddress(d) && !WorkerAddress(d) && d != "" && BootAfter(steps).node != d
    ensures Got(BootAfter(steps).delivered, d) == []
  {
    if steps == [] {
    } else {
      var front, last := steps[..|steps| - 1], steps[|steps| - 1];
      var b := BootAfter(front);
      NodeStays(b, last, d);
      MisshapenSoFar(front, d);
      if last.AddActor? && Accepts(b, last.c) {
        hide DispatchedAll, ActorAddress, WorkerAddress, Got;
        var n, c := Noded(b, last.c), last.c;
        JoinedIs(n, c.name, c.sends);
        MisshapenGetsNodeCopies(Named(n, c.name).(cache := CachedByJoining(n, c.name, c.sends)),
                                DispatchedByJoining(n, c.name, c.sends), d);
      }
    }
  }

  // ---- Who is the node ---------------------------------------------------------------------------

  predicate Admitted(b: Boot, step: BootStep)
  {
    match step
    case AddActor(c) => Accepts(b, c)
    case AddWorker(c, handle) => Admits(b, c, handle)
  }

  /** The step makes d the node. An actor's Init comes after that, a worker's before. */
  predicate Claims(b: Boot, step: BootStep, d: string)
  {
    step.c.isNode && b.node == "" && step.c.name == d && (step.AddWorker? ==> step.c.initOk)
  }

  predicate Known(b: Boot, d: string)
  {
    d in b.actors || d in b.workers
  }

  ghost predicate AdmittedAt(steps: seq<BootStep>, i: nat, d: string)
    requires i < |steps|
  {
    Admitted(BootAfter(steps[..i]), steps[i]) && steps[i].c.name == d
  }

  ghost predicate ClaimedAt(steps: seq<BootStep>, i: nat, d: string)
    requires i < |steps|
  {
    Claims(BootAfter(steps[..i]), steps[i], d)
  }

  /** Some component of the name was accepted. */
  ghost predicate EverAdmitted(steps: seq<BootStep>, d: string)
  {
    exists i :: 0 <= i < |steps| && AdmittedAt(steps, i, d)
  }

  /** The component that made d the node was not: an actor whose Init failed, as a worker's handle is its own. */
  ghost predicate ClaimedInVain(steps: seq<BootStep>, d: string)
  {
    exists i :: 0 <= i < |steps| && ClaimedAt(steps, i, d) && !AdmittedAt(steps, i, d)
  }

  lemma AtFront(steps: seq<BootStep>, i: nat, d: string)
    requires i < |steps| - 1
    ensures AdmittedAt(steps, i, d) == AdmittedAt(steps[..|steps| - 1], i, d)
    ensures ClaimedAt(steps, i, d) == ClaimedAt(steps[..|steps| - 1], i, d)
  {
    assert steps[..|steps| - 1][..i] == steps[..i];
  }

  lemma StepKnown(b: Boot, step: BootStep, d: string)
    ensures Known(Step(b, step), d) <==> Known(b, d) || (Admitted(b, step) && step.c.name == d)
  {
    StepState(b, step);
  }

  /** A component is known exactly if one of its name was accepted. */
  lemma {:induction false} KnownIff(steps: seq<BootStep>, d: string)
    ensures Known(BootAfter(steps), d) <==> EverAdmitted(steps, d)
  {
    if steps == [] {
    } else {
      hide Step, Known, Admitted;
      var k := |steps| - 1;
      var front := steps[..k];
      KnownIff(front, d);
      StepKnown(BootAfter(front), steps[k], d);
      forall i | 0 <= i < k ensures AdmittedAt(steps, i, d) == AdmittedAt(front, i, d) {
        AtFront(steps, i, d);
      }
      if Known(BootAfter(front), d) {
        var i :| 0 <= i < |front| && AdmittedAt(front, i, d);
        assert AdmittedAt(steps, i, d);
      }
      assert AdmittedAt(steps, k, d) <==> Admitted(BootAfter(front), steps[k]) && steps[k].c.name == d;
    }
  }

  lemma StepClaims(b: Boot, step: BootStep)
    requires b.state == Initialized && Step(b, step).node != ""
    ensures b.node == Step(b, step).node || Claims(b, step, Step(b, step).node)
  {
    StepState(b, step);
  }

  lemma {:induction false} NodeClaimed(steps: seq<BootStep>) returns (i: nat)
    requires BootAfter(steps).node != ""
    ensures i < |steps| && ClaimedAt(steps, i, BootAfter(steps).node)
    decreases |steps|
  {
    var k := |steps| - 1;
    var front := steps[..k];
    StillStarting(front);
    StepClaims(BootAfter(front), steps[k]);
    hide Step, Claims;
    if BootAfter(front).node == BootAfter(steps).node {
      i := NodeClaimed(front);
      AtFront(steps, i, BootAfter(steps).node);
    } else {
      i := k;
    }
  }

  /** The node exists if and only if its address was not claimed by an actor whose Init then failed, or a component of
      that name was accepted anyway. */
  lemma NodeExistsIff(steps: seq<BootStep>)
    requires BootAfter(steps).node != ""
    ensures var d := BootAfter(steps).node;
            Known(BootAfter(steps), d) <==> !ClaimedInVain(steps, d) || EverAdmitted(steps, d)
  {
    var d := BootAfter(steps).node;
    KnownIff(steps, d);
    var i := NodeClaimed(steps);
    hide AdmittedAt, ClaimedAt;
  }

  /** A node that does not exist gets no copies, and no other component gets them for it. */
  lemma LostNodeGetsNothing(b: Boot, m: Msg, d: string)
    requires !Known(b, b.node)
    ensures NodeCopy(b, m, d) == []
  {
  }

  /** An actor of type node whose Init fails is not there, yet stays the node; the next one is turned away. */
  lemma FailedNodeStays(bad: string, good: string)
    requires bad != ""
    ensures var steps := [AddActor(New(bad, true, false, [])), AddActor(New(good, true, true, []))];
            && BootAfter(steps).node == bad && !Known(BootAfter(steps), bad) && !Known(BootAfter(steps), good)
            && ClaimedInVain(steps, bad) && !EverAdmitted(steps, bad)
  {
    var first, second := AddActor(New(bad, true, false, [])), AddActor(New(good, true, true, []));
    var steps := [first, second];
    assert steps[..1] == [first] && [first][..0] == [] && steps[..0] == [];
    StepState(BootAfter([]), first);
    StepState(BootAfter([first]), second);
    assert ClaimedAt(steps, 0, bad) && !AdmittedAt(steps, 0, bad);
    KnownIff(steps, bad);
  }

  // ---- Two workers of one name -------------------------------------------------------------------

  ghost predicate WorkerAdmittedAt(steps: seq<BootStep>, i: nat)
    requires i < |steps|
  {
    steps[i].AddWorker? && Admitted(BootAfter(steps[..i]), steps[i])
  }

  lemma WorkerAtFront(steps: seq<BootStep>, i: nat)
    requires i < |steps| - 1
    ensures WorkerAdmittedAt(steps, i) == WorkerAdmittedAt(steps[..|steps| - 1], i)
  {
    assert steps[..|steps| - 1][..i] == steps[..i];
  }

  /** A worker's name stands for the last worker of that name that was accepted. */
  lemma StepNames(b: Boot, step: BootStep, w: string)
    ensures var now := Step(b, step).workers;
            if step.AddWorker? && Admitted(b, step) && step.c.name == w then
              w in now && now[w] == step.handle
            else
              (w in now <==> w in b.workers) && (w in b.workers ==> now[w] == b.workers[w])
  {
    StepState(b, step);
  }

  /** A worker's name stands for the last worker of that name that was accepted. */
  lemma {:induction false} NameStandsForLast(steps: seq<BootStep>, w: string) returns (i: nat)
    requires w in BootAfter(steps).workers
    ensures i < |steps| && WorkerAdmittedAt(steps, i) && steps[i].c.name == w
    ensures BootAfter(steps).workers[w] == steps[i].handle
    ensures forall j :: i < j < |steps| && WorkerAdmittedAt(steps, j) ==> steps[j].c.name != w
    decreases |steps|
  {
    var k := |steps| - 1;
    var front := steps[..k];
    var b := BootAfter(front);
    StepNames(b, steps[k], w);
    hide Step, Admitted;
    if WorkerAdmittedAt(steps, k) && steps[k].c.name == w {
      i := k;
    } else {
      i := NameStandsForLast(front, w);
      WorkerAtFront(steps, i);
      forall j | i < j < k && WorkerAdmittedAt(steps, j) ensures steps[j].c.name != w {
        WorkerAtFront(steps, j);
      }
    }
  }

  lemma {:induction false} HandlesUsed(steps: seq<BootStep>, i: nat)
    requires i < |steps| && WorkerAdmittedAt(steps, i)
    ensures steps[i].handle in BootAfter(steps).handles
    decreases |steps|
  {
    var k := |steps| - 1;
    StepState(BootAfter(steps[..k]), steps[k]);
    if i < k {
      WorkerAtFront(steps, i);
      HandlesUsed(steps[..k], i);
    }
  }

  lemma HandlesDiffer(steps: seq<BootStep>, i: nat, j: nat)
    requires i < j < |steps| && WorkerAdmittedAt(steps, i) && WorkerAdmittedAt(steps, j)
    ensures steps[i].handle != steps[j].handle
  {
    assert steps[..j][..i] == steps[..i];
    assert WorkerAdmittedAt(steps[..j], i);
    HandlesUsed(steps[..j], i);
  }

  /** So once a second worker of its name has been accepted, no name stands for the first any more: no message can
      reach it, though it runs on. */
  lemma TwinUnreachable(steps: seq<BootStep>, i: nat, j: nat, n: string)
    requires i < j < |steps| && WorkerAdmittedAt(steps, i) && WorkerAdmittedAt(steps, j)
    requires steps[i].c.name == steps[j].c.name && n in BootAfter(steps).workers
    ensures BootAfter(steps).workers[n] != steps[i].handle
  {
    var k := NameStandsForLast(steps, n);
    if k < i {
      HandlesDiffer(steps, k, i);
    } else if i < k {
      HandlesDiffer(steps, i, k);
    }
  }

  // ---- Two start-ups -----------------------------------------------------------------------------

  function Actor(name: string, sends: seq<Msg>): BootStep
  {
    AddActor(New(name, false, true, sends))
  }

  /** An actor whose instance name contains a dot exists and never receives what another actor sends it. */
  lemma DottedInstanceLosesMail(m: Msg)
    requires m.dst == Join(["actor", "t", "i", "j"]) && m.mode == Intra && Plain(m)
    ensures var steps := [Actor(m.dst, []), Actor("actor.s.i", [m])];
            && m.dst in BootAfter(steps).actors
            && LocalsFor(Sent(steps), m.dst) == [m]
            && Received(Flushed(BootAfter(steps)).delivered, m.dst) == []
  {
    var first, second := Actor(m.dst, []), Actor("actor.s.i", [m]);
    var steps := [first, second];
    hide Pieces, Join, Received, Flushed, ActorAddress, WorkerAddress, Joined;
    FourPieces(m.dst);
    assert steps[..1] == [first] && [first][..0] == [];
    StepState(BootAfter([]), first);
    StepState(BootAfter([first]), second);
    FlushCompletes(steps, m.dst);
    assert Sent([first]) == [];
    assert [] + [m] == [m] && [m][1..] == [];
  }

  lemma FourPieces(d: string)
    requires d == Join(["actor", "t", "i", "j"])
    ensures !ActorAddress(d) && !WorkerAddress(d)
  {
    hide Pieces, Join;
    SplitOfJoin(["actor", "t", "i", "j"]);
  }

  /** A message sent before the user worker is added, then one sent after: they arrive the other way round. */
  lemma WorkerOutOfOrder(w: string, handle: nat, a: string, b: string, early: Msg, late: Msg)
    requires WorkerAddress(w) && StartsWith(a, "actor") && StartsWith(b, "actor")
    requires LocalFor(early, w) && LocalFor(late, w)
    ensures var steps := [Actor(a, [early]), AddWorker(New(w, false, true, []), handle), Actor(b, [late])];
            && LocalsFor(Sent(steps), w) == [early, late]
            && Received(Flushed(BootAfter(steps)).delivered, w) == [late, early]
  {
    var first, second, third := Actor(a, [early]), AddWorker(New(w, false, true, []), handle), Actor(b, [late]);
    var one, two := [first], [first, second];
    var steps := [first, second, third];
    hide Received, Flushed, WorkerAddress, Joined, LocalFor, LocalsFor, SentBefore, SentSince;
    assert steps[..2] == two && two[..1] == one && one[..0] == [];
    StepState(BootAfter([]), first);
    StepState(BootAfter(one), second);
    StepState(BootAfter(two), third);
    assert w !in BootAfter([]).workers && w !in BootAfter(one).workers && w in BootAfter(two).workers;
    StillStarting(one);
    StillStarting(two);
    assert BootAfter(two).node == "";
    SentSteps(one, w);
    SentSteps(two, w);
    SentSteps(steps, w);
    OneLocal(early, w);
    OneLocal(late, w);
    NothingSent(w);
    KindPrefix(w);
    hide BootAfter, Sent, Step;
    WorkerFlushCompletes(steps, w);
    assert [early] + [late] == [early, late] && [late] + [early] == [late, early];
  }

  lemma NothingSent(d: string)
    ensures LocalsFor([], d) == [] && SentBefore([], d) == [] && SentSince([], d) == []
  {
  }

  lemma OneLocal(m: Msg, d: string)
    requires LocalFor(m, d)
    ensures LocalsFor([m], d) == [m]
  {
    assert [m][1..] == [];
  }
}
