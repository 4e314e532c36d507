/** Who is served first: idle workers, queued reports and listed workers, over whole runs; and the main loop's pass as a
    run of protocol steps. */
module ProtocolOrder {
  import opened Basics
  import opened Messages
  import opened Mailboxes
  import opened ActorContexts
  import opened WorkerContexts
  import opened Routing
  import opened Scheduler
  import opened Protocol
  import opened ProtocolEvents
  import opened ProtocolGuarantees
  import opened ProtocolMoves

  // ---- Idle workers ------------------------------------------------------------------------------

  /** The step gives worker w an actor: w gets a command. */
  ghost predicate GivenNow(s: Sys, step: Step, w: string)
    requires Enabled(s, step)
  {
    var t := After(s, step);
    && step.MainAssign? && w in s.core.pool.workers && w in t.core.pool.workers
    && |t.core.pool.workers[w].chan.toOwner| > |s.core.pool.workers[w].chan.toOwner|
  }

  ghost predicate Assigns(s: Sys, step: Step)
    requires Enabled(s, step)
  {
    exists w :: GivenNow(s, step, w)
  }

  ghost function AssignCount(s: Sys, steps: seq<Step>): nat
    decreases |steps|
  {
    if steps == [] || !Enabled(s, steps[0]) then 0
    else (if Assigns(s, steps[0]) then 1 else 0) + AssignCount(After(s, steps[0]), steps[1..])
  }

  ghost predicate Given(s: Sys, steps: seq<Step>, w: string)
    decreases |steps|
  {
    steps != [] && Enabled(s, steps[0])
    && (GivenNow(s, steps[0], w) || Given(After(s, steps[0]), steps[1..], w))
  }

  lemma {:induction false} DeliverKeepsIdle(c: Core, ds: seq<Delivery>)
    ensures Deliver(c, ds).pool.idle == c.pool.idle
    decreases |ds|
  {
    if ds == [] {
    } else {
      DeliverKeepsIdle(DeliverOne(c, ds[0]), ds[1..]);
    }
  }

  lemma ProcessKeepsIdle(c: Core, w: string, ds: seq<Delivery>)
    requires w in c.pool.workers && c.pool.workers[w].chan.toMain != []
    ensures c.pool.idle <= Processed(c, w, ds).pool.idle
  {
    SendsTakenFrame(c, w);
    DeliverKeepsIdle(SendsTaken(c, w), ds);
    DeliverKeepsWorkers(SendsTaken(c, w), ds, w);
    assert SendsTaken(c, w).pool.idle == c.pool.idle;
    hide Deliver, SendsTaken;
  }

  lemma AssignUsesFront(s: Sys)
    requires Enabled(s, MainAssign)
    ensures var t := After(s, MainAssign);
            if Assigns(s, MainAssign) then
              && s.core.pool.idle != [] && t.core.pool.idle == s.core.pool.idle[1..]
              && GivenNow(s, MainAssign, s.core.pool.idle[0])
            else t.core.pool.idle == s.core.pool.idle
  {
    hide Scan, AssignedReady;
    var c := s.core;
    if c.pool.idle != [] && c.pool.idle[0] in c.pool.workers && Taken(c.ready).1.Some?
       && Taken(c.ready).0.ctxs[Taken(c.ready).1.value].box.recv != [] {
      assert GivenNow(s, MainAssign, c.pool.idle[0]);
    } else {
      assert After(s, MainAssign).core.pool == c.pool;
    }
  }

  lemma OthersKeepIdle(s: Sys, step: Step)
    requires Enabled(s, step) && !step.MainAssign?
    ensures s.core.pool.idle <= After(s, step).core.pool.idle
  {
    match step
    case MainProcess(ds) =>
      if s.batch != [] {
        ProcessKeepsIdle(s.core, s.batch[0], ds);
      }
    case MainInject(ds) =>
      SysDeliverCore(s, ds);
      DeliverKeepsIdle(s.core, ds);
    case _ =>
  }

  /** First idle, first given work: the idle worker at position k is given an actor within the next k + 1 assignments,
      whatever is interleaved. */
  lemma {:induction false} IdleInOrder(s: Sys, steps: seq<Step>, t: Sys, k: nat)
    requires Runs(s, steps, t) && k < |s.core.pool.idle| && AssignCount(s, steps) >= k + 1
    ensures Given(s, steps, s.core.pool.idle[k])
    decreases |steps|
  {
    hide Enabled, After, GivenNow, Assigns;
    var step, w := steps[0], s.core.pool.idle[k];
    if !GivenNow(s, step, w) {
      if step.MainAssign? {
        AssignUsesFront(s);
      } else {
        OthersKeepIdle(s, step);
        NoAssignment(s, step);
      }
      IdleInOrder(After(s, step), steps[1..], t, if Assigns(s, step) then k - 1 else k);
    }
  }

  lemma NoAssignment(s: Sys, step: Step)
    requires Enabled(s, step) && !step.MainAssign?
    ensures !Assigns(s, step)
  {
  }

  // ---- Queued actors -----------------------------------------------------------------------------

  /** The step makes actor a run. */
  ghost predicate StartsNow(s: Sys, step: Step, a: string)
    requires Enabled(s, step)
  {
    CanRun(s.core.ready.ctxs, a) && ActorContexts.Running(After(s, step).core.ready.ctxs, a)
  }

  ghost predicate Started(s: Sys, steps: seq<Step>, a: string)
    decreases |steps|
  {
    steps != [] && Enabled(s, steps[0])
    && (StartsNow(s, steps[0], a) || Started(After(s, steps[0]), steps[1..], a))
  }

  /** Actor a can run and waits at position k. */
  ghost predicate WaitsAt(r: Ready, a: string, k: nat)
  {
    k < |r.wait| && r.wait[k] == a && CanRun(r.ctxs, a)
  }

  lemma {:induction false} DeliverKeepsPlace(c: Core, ds: seq<Delivery>, a: string, k: nat)
    requires WaitsAt(c.ready, a, k)
    ensures WaitsAt(Deliver(c, ds).ready, a, k)
    decreases |ds|
  {
    if ds == [] {
    } else {
      DeliverKeepsPlace(DeliverOne(c, ds[0]), ds[1..], a, k);
    }
  }

  lemma ProcessKeepsPlace(s: Sys, ds: seq<Delivery>, a: string, k: nat)
    requires Enabled(s, MainProcess(ds)) && s.batch != [] && WaitsAt(s.core.ready, a, k)
    ensures WaitsAt(After(s, MainProcess(ds)).core.ready, a, k)
  {
    var c, w := s.core, s.batch[0];
    SendsTakenFrame(c, w);
    assert WaitsAt(SendsTaken(c, w).ready, a, k);
    DeliverKeepsPlace(SendsTaken(c, w), ds, a, k);
    DeliverKeepsWorkers(SendsTaken(c, w), ds, w);
    hide Deliver, SendsTaken, SysDeliver, WaitsAt;
  }

  lemma AssignKeepsPlace(s: Sys, a: string, k: nat) returns (j: nat)
    requires Enabled(s, MainAssign) && WaitsAt(s.core.ready, a, k) && !StartsNow(s, MainAssign, a)
    ensures j <= k && WaitsAt(After(s, MainAssign).core.ready, a, j)
    ensures After(s, MainAssign).core.pool != s.core.pool ==> j < k
  {
    var c := s.core;
    j := k;
    if c.pool.idle != [] && c.pool.idle[0] in c.pool.workers {
      if Taken(c.ready).1 != Some(a) {
        j := StepKeepsPlace(c.ready, Get, k);
        hide Scan, MovedToRun;
      } else {
        hide Scan, MovedToRun;
      }
    }
  }

  lemma OthersKeepPlace(s: Sys, step: Step, a: string, k: nat)
    requires Enabled(s, step) && !step.MainAssign? && WaitsAt(s.core.ready, a, k)
    ensures WaitsAt(After(s, step).core.ready, a, k)
  {
    match step
    case MainProcess(ds) =>
      if s.batch != [] {
        ProcessKeepsPlace(s, ds, a, k);
      }
    case MainInject(ds) =>
      SysDeliverCore(s, ds);
      DeliverKeepsPlace(s.core, ds, a, k);
    case _ =>
  }

  /** First queued, first run: an actor that can run, at position k of the ready queue, is run within the next k + 1
      assignments, whatever is interleaved; an actor queued again because mail was left stands behind it. */
  lemma {:induction false} ActorsInOrder(s: Sys, steps: seq<Step>, t: Sys, a: string, k: nat)
    requires Runs(s, steps, t) && WaitsAt(s.core.ready, a, k) && AssignCount(s, steps) >= k + 1
    ensures Started(s, steps, a)
    decreases |steps|
  {
    hide Enabled, After, GivenNow, Assigns, StartsNow, WaitsAt;
    var step := steps[0];
    if !StartsNow(s, step, a) {
      var j := k;
      if step.MainAssign? {
        j := AssignKeepsPlace(s, a, k);
        if Assigns(s, step) {
          AssignChangesPool(s);
        }
      } else {
        OthersKeepPlace(s, step, a, k);
        NoAssignment(s, step);
      }
      ActorsInOrder(After(s, step), steps[1..], t, a, j);
    }
  }

  lemma AssignChangesPool(s: Sys)
    requires Enabled(s, MainAssign) && Assigns(s, MainAssign)
    ensures After(s, MainAssign).core.pool != s.core.pool
  {
    hide Taken;
  }

  // ---- Queued reports ----------------------------------------------------------------------------

  /** The workers that notify the poller in the run, in order. */
  ghost function Notified(s: Sys, steps: seq<Step>): seq<string>
    decreases |steps|
  {
    if steps == [] || !Enabled(s, steps[0]) then []
    else (if steps[0].Notify? then [steps[0].worker] else []) + Notified(After(s, steps[0]), steps[1..])
  }

  /** The workers whose reports are taken and answered in the run, in order; see ProcessTakesFront. */
  ghost function Answers(s: Sys, steps: seq<Step>): seq<string>
    decreases |steps|
  {
    if steps == [] || !Enabled(s, steps[0]) then []
    else
      (if steps[0].MainProcess? && s.batch != [] then [s.batch[0]] else [])
      + Answers(After(s, steps[0]), steps[1..])
  }

  lemma ProcessTakesFront(s: Sys, ds: seq<Delivery>)
    requires Enabled(s, MainProcess(ds)) && s.batch != []
    ensures var t := After(s, MainProcess(ds));
            && t.batch == s.batch[1..] && t.evs == s.evs && s.batch[0] in t.core.pool.workers
            && t.core.pool.workers[s.batch[0]].chan.toMain == s.core.pool.workers[s.batch[0]].chan.toMain[1..]
  {
    var w := s.batch[0];
    SysDeliverCore(s.(core := SendsTaken(s.core, w)), ds);
    SendsTakenFrame(s.core, w);
    DeliverKeepsWorkers(SendsTaken(s.core, w), ds, w);
    hide SendsTaken, Deliver, SysDeliver;
  }

  lemma ReportsKept(s: Sys, step: Step)
    requires Enabled(s, step) && !step.MainProcess? && !step.MainPoll?
    ensures var t := After(s, step);
            t.batch == s.batch && t.evs == if step.Notify? then s.evs + [step.worker] else s.evs
  {
    hide Taken, WakeOne, Reordered, SysDeliver;
    match step
    case MainInject(ds) => SysDeliverCore(s, ds);
    case _ =>
  }

  lemma QueuedReports(s: Sys, step: Step)
    requires Enabled(s, step) && (step.MainPoll? ==> s.batch == [])
    ensures var t := After(s, step);
            (if step.MainProcess? && s.batch != [] then [s.batch[0]] else []) + (t.batch + t.evs)
            == (s.batch + s.evs) + if step.Notify? then [step.worker] else []
  {
    if step.MainProcess? && s.batch != [] {
      ProcessTakesFront(s, step.deliveries);
      hide After, Enabled;
      assert s.batch + s.evs == [s.batch[0]] + (s.batch[1..] + s.evs);
    } else if step.MainProcess? || step.MainPoll? {
      assert After(s, step).batch + After(s, step).evs == s.batch + s.evs;
    } else {
      ReportsKept(s, step);
    }
  }

  lemma PollsWithNothingLeft(s: Sys)
    requires Inv(s) && Enabled(s, MainPoll)
    ensures s.batch == []
  {
  }

  lemma {:induction false} RunOfReports(s: Sys, steps: seq<Step>, t: Sys)
    requires Inv(s) && Runs(s, steps, t)
    ensures Answers(s, steps) + (t.batch + t.evs) == (s.batch + s.evs) + Notified(s, steps)
    decreases |steps|
  {
    hide Inv, Enabled, After;
    if steps == [] {
    } else {
      var n, step := After(s, steps[0]), steps[0];
      StepKeeps(s, step);
      if step.MainPoll? {
        PollsWithNothingLeft(s);
      }
      QueuedReports(s, step);
      RunOfReports(n, steps[1..], t);
      var first := if step.MainProcess? && s.batch != [] then [s.batch[0]] else [];
      var last := if step.Notify? then [step.worker] else [];
      var rest, queued := Answers(n, steps[1..]), n.batch + n.evs;
      assert (first + rest) + (t.batch + t.evs) == first + (rest + (t.batch + t.evs));
      assert first + (queued + Notified(n, steps[1..])) == (first + queued) + Notified(n, steps[1..]);
      var more := Notified(n, steps[1..]);
      assert ((s.batch + s.evs) + last) + more == (s.batch + s.evs) + (last + more);
    }
  }

  /** Over every run: reports are answered in the order in which they were notified, and what is not answered yet is
      queued in that order. */
  lemma ReportsInOrder(s: Sys, steps: seq<Step>, t: Sys)
    requires Init(s) && Runs(s, steps, t)
    ensures Notified(s, steps) == Answers(s, steps) + (t.batch + t.evs)
  {
    InitOk(s);
    RunOfReports(s, steps, t);
  }

  // ---- Listed workers ----------------------------------------------------------------------------

  lemma {:induction false} DeliverListsBehind(c: Core, ds: seq<Delivery>)
    ensures c.pool.wake <= Deliver(c, ds).pool.wake
    decreases |ds|
  {
    if ds == [] {
    } else {
      DeliverListsBehind(DeliverOne(c, ds[0]), ds[1..]);
    }
  }

  /** Workers that get mail are listed behind those listed before, and only waking takes one from the list. */
  lemma ListedBehind(s: Sys, step: Step)
    requires Enabled(s, step)
    ensures var t := After(s, step);
            if step.MainWake? && s.main.at < |s.core.pool.wake| then
              t.core.pool.wake == s.core.pool.wake || t.core.pool.wake == RemoveAt(s.core.pool.wake, s.main.at)
            else s.core.pool.wake <= t.core.pool.wake
  {
    match step
    case MainProcess(ds) =>
      if s.batch != [] {
        var w := s.batch[0];
        SendsTakenFrame(s.core, w);
        DeliverListsBehind(SendsTaken(s.core, w), ds);
        DeliverKeepsWorkers(SendsTaken(s.core, w), ds, w);
        assert SendsTaken(s.core, w).pool.wake == s.core.pool.wake;
        hide Deliver, SendsTaken, SysDeliver;
      }
    case MainInject(ds) =>
      SysDeliverCore(s, ds);
      DeliverListsBehind(s.core, ds);
    case _ =>
  }

  /** First listed, first woken: when a worker is woken, everybody listed in front of it has the control already. */
  lemma WokenInOrder(t: Sys, w: string, i: nat, j: nat)
    requires Reachable(t) && Enabled(t, MainWake) && WakesNow(t, MainWake, w)
    requires i < j < |t.core.pool.wake| && t.core.pool.wake[j] == w
    ensures t.core.pool.wake[i] in t.core.pool.workers && t.core.pool.workers[t.core.pool.wake[i]].owner == Worker
  {
    ReachableInv(t);
    assert t.main.at == j;
  }

  // ---- One pass of the main loop -----------------------------------------------------------------

  lemma {:induction false} RunsThen(s: Sys, a: seq<Step>, m: Sys, b: seq<Step>, t: Sys)
    requires Runs(s, a, m) && Runs(m, b, t)
    ensures Runs(s, a + b, t)
    decreases |a|
  {
    hide Enabled, After;
    if a == [] {
      assert a + b == b;
    } else {
      assert (a + b)[1..] == a[1..] + b;
      RunsThen(After(s, a[0]), a[1..], m, b, t);
    }
  }

  lemma {:induction false} WakePass(s: Sys) returns (steps: seq<Step>, t: Sys)
    requires s.main.Waking? && s.main.at <= |s.core.pool.wake|
    ensures Runs(s, steps, t) && forall i :: 0 <= i < |steps| ==> steps[i] == MainWake
    ensures t.main == Assigning && t.core == s.core.(pool := WakeFrom(s.core.pool, s.main.at))
    decreases |s.core.pool.wake| - s.main.at
  {
    var next := After(s, MainWake);
    hide Reordered, Assigned, Woken;
    if s.main.at == |s.core.pool.wake| {
      steps, t := [MainWake], next;
      assert Runs(next, steps[1..], t);
    } else {
      var rest;
      rest, t := WakePass(next);
      steps := [MainWake] + rest;
      assert steps[1..] == rest;
    }
  }

  lemma {:induction false} AssignPass(s: Sys) returns (steps: seq<Step>, t: Sys)
    requires s.main == Assigning
    ensures Runs(s, steps, t) && forall i :: 0 <= i < |steps| ==> steps[i] == MainAssign
    ensures t.main == Polling && t.core == AssignAll(s.core)
    decreases Runnable(s.core.ready.ctxs, s.core.ready.wait)
  {
    var next := After(s, MainAssign);
    hide Taken, Runnable;
    match AssignTurn(s.core) {
      case Stop(c) =>
        steps, t := [MainAssign], next;
        assert Runs(next, steps[1..], t);
      case Again(c) =>
        TurnDecreases(s.core);
        hide AssignTurn;
        var rest;
        rest, t := AssignPass(next);
        steps := [MainAssign] + rest;
        assert steps[1..] == rest;
    }
  }

  /** One call of CheckStopWorkers is a run of wake-up turns and then of assignments, and leads where that leads. */
  lemma PassIsRun(s: Sys) returns (steps: seq<Step>, t: Sys)
    requires s.main == Waking(0)
    ensures Runs(s, steps, t) && forall i :: 0 <= i < |steps| ==> steps[i] == MainWake || steps[i] == MainAssign
    ensures t.main == Polling && t.core == CheckedStopWorkers(s.core)
  {
    var a, m := WakePass(s);
    var b;
    b, t := AssignPass(m);
    RunsThen(s, a, m, b, t);
    steps := a + b;
  }
}
