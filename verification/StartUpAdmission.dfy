/** Who is admitted in a start-up, and who becomes the node, by the steps alone (myframe/app.cpp:208-311). */
module StartUpAdmission {
  import opened Messages
  import opened Routing
  import opened StartUp
  import opened StartUpRuns

  /** A component of type node with a name. A worker's Init comes first, an actor's after it has become the node. */
  predicate Stands(step: BootStep)
  {
    step.c.isNode && step.c.name != "" && (step.AddWorker? ==> step.c.initOk)
  }

  ghost predicate NobodyStood(steps: seq<BootStep>, i: nat)
    requires i <= |steps|
  {
    forall j :: 0 <= j < i ==> !Stands(steps[j])
  }

  lemma StepNode(b: Boot, step: BootStep)
    requires b.state == Initialized
    ensures Step(b, step).node == if b.node == "" && Stands(step) then step.c.name else b.node
  {
    StepState(b, step);
  }

  /** The node is the first component that stands for it, admitted or not; there is none if nobody does. */
  lemma {:induction false} NodeIsFirst(steps: seq<BootStep>)
    ensures NobodyStood(steps, |steps|) <==> BootAfter(steps).node == ""
    ensures forall i :: 0 <= i < |steps| && NobodyStood(steps, i) && Stands(steps[i]) ==>
              BootAfter(steps).node == steps[i].c.name
  {
    if steps == [] {
    } else {
      var k := |steps| - 1;
      var front := steps[..k];
      NodeIsFirst(front);
      StillStarting(front);
      StepNode(BootAfter(front), steps[k]);
      assert Stands(steps[k]) ==> steps[k].c.name != "";
      assert BootAfter(steps) == Step(BootAfter(front), steps[k]);
      hide Step, Stands, BootAfter, NobodyStood;
      StoodSoFar(steps, k);
      forall i | 0 <= i < |steps| && NobodyStood(steps, i) && Stands(steps[i])
        ensures BootAfter(steps).node == steps[i].c.name
      {
        if i < k {
          StoodSoFar(steps, i);
          assert NobodyStood(front, i) && Stands(front[i]);
          OneStood(front, i);
        }
      }
    }
  }

  lemma StoodSoFar(steps: seq<BootStep>, i: nat)
    requires i < |steps|
    ensures NobodyStood(steps, i) <==> NobodyStood(steps[..|steps| - 1], i)
    ensures i == |steps| - 1 ==> (NobodyStood(steps, i + 1) <==> NobodyStood(steps, i) && !Stands(steps[i]))
  {
    hide Stands;
    assert forall j :: 0 <= j < |steps| - 1 ==> steps[..|steps| - 1][j] == steps[j];
  }

  lemma OneStood(steps: seq<BootStep>, i: nat)
    requires i < |steps| && Stands(steps[i])
    ensures !NobodyStood(steps, |steps|)
  {
    hide Stands;
  }

  ghost predicate UsedAt(steps: seq<BootStep>, j: nat, handle: nat)
    requires j < |steps|
  {
    WorkerAdmittedAt(steps, j) && steps[j].handle == handle
  }

  ghost predicate UsedBefore(steps: seq<BootStep>, i: nat, handle: nat)
    requires i <= |steps|
  {
    exists j :: 0 <= j < i && UsedAt(steps, j, handle)
  }

  lemma StepHandles(b: Boot, step: BootStep, handle: nat)
    ensures handle in Step(b, step).handles
       <==> handle in b.handles || (step.AddWorker? && Admitted(b, step) && step.handle == handle)
  {
    StepState(b, step);
  }

  lemma {:induction false} HandleInUse(steps: seq<BootStep>, handle: nat)
    ensures handle in BootAfter(steps).handles <==> UsedBefore(steps, |steps|, handle)
  {
    if steps == [] {
    } else {
      var k := |steps| - 1;
      var front := steps[..k];
      HandleInUse(front, handle);
      StepHandles(BootAfter(front), steps[k], handle);
      assert UsedAt(steps, k, handle) <==>
             steps[k].AddWorker? && Admitted(BootAfter(front), steps[k]) && steps[k].handle == handle;
      hide Step;
      UsedSoFar(steps, k, handle);
      hide UsedAt;
    }
  }

  lemma UsedSoFar(steps: seq<BootStep>, i: nat, handle: nat)
    requires i <= |steps|
    ensures UsedBefore(steps, i, handle) <==> UsedBefore(steps[..i], i, handle)
  {
    var front := steps[..i];
    forall j | 0 <= j < i ensures UsedAt(steps, j, handle) == UsedAt(front, j, handle) {
      assert front[..j] == steps[..j];
    }
    hide UsedAt;
    if UsedBefore(steps, i, handle) {
      var j :| 0 <= j < i && UsedAt(steps, j, handle);
      assert UsedAt(front, j, handle);
    }
    if UsedBefore(front, i, handle) {
      var j :| 0 <= j < i && UsedAt(front, j, handle);
      assert UsedAt(steps, j, handle);
    }
  }

  /** A component is admitted exactly if its Init succeeds, it is not of type node or nobody stood for the node before,
      and it is not a worker whose handle an admitted worker has. */
  lemma AdmittedIff(steps: seq<BootStep>, i: nat)
    requires i < |steps|
    ensures Admitted(BootAfter(steps[..i]), steps[i]) <==>
            && steps[i].c.initOk
            && (steps[i].c.isNode ==> NobodyStood(steps, i))
            && (steps[i].AddWorker? ==> !UsedBefore(steps, i, steps[i].handle))
  {
    var front := steps[..i];
    StillStarting(front);
    NodeIsFirst(front);
    assert NobodyStood(front, i) <==> NobodyStood(steps, i) by {
      assert forall j :: 0 <= j < i ==> front[j] == steps[j];
    }
    if steps[i].AddWorker? {
      HandleInUse(front, steps[i].handle);
      UsedSoFar(steps, i, steps[i].handle);
    }
    hide NobodyStood, UsedBefore, BootAfter;
  }

  /** So an admitted component of type node becomes the node and stays it. */
  lemma AdmittedNode(steps: seq<BootStep>, i: nat)
    requires i < |steps| && Admitted(BootAfter(steps[..i]), steps[i])
    requires steps[i].c.isNode && steps[i].c.name != ""
    ensures BootAfter(steps).node == steps[i].c.name
  {
    AdmittedIff(steps, i);
    NodeIsFirst(steps);
  }

  // ---- Once the program runs ---------------------------------------------------------------------

  /** From the flush on nothing waits: the cache is empty and stays so, whatever is added, and everything an accepted
      actor sends is dispatched at once, in order. */
  lemma NothingWaitsAnyMore(b: Boot, c: New)
    ensures Flushed(b).state == AppState.Running && Flushed(b).cache == []
    ensures b.state == AppState.Running && b.cache == [] ==>
              && ActorAdded(b, c).cache == [] && ActorAdded(b, c).state == AppState.Running
              && (Accepts(b, c) ==> ActorAdded(b, c) == DispatchedAll(Named(Noded(b, c), c.name), c.sends))
  {
    hide DispatchedAll;
    DispatchOnlyDelivers(b.(state := AppState.Running, cache := []), [], b.cache);
    if b.state == AppState.Running && b.cache == [] && Accepts(b, c) {
      var n := Noded(b, c);
      var named := Named(n, c.name);
      assert named.(cache := []) == named;
      JoinedIs(n, c.name, c.sends);
      NothingHeld(named, c.sends);
      DispatchOnlyDelivers(named, [], c.sends);
      assert CachedByJoining(n, c.name, c.sends) == [] + [] == [];
      assert For(n.cache, c.name) == [];
      assert DispatchedByJoining(n, c.name, c.sends) == [] + c.sends == c.sends;
    }
  }
}
