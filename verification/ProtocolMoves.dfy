/** How much mail every wake-up and every assignment of a run moves, and so what a waiting worker is left with. */
module ProtocolMoves {
  import opened Basics
  import opened Messages
  import opened Mailboxes
  import opened ActorContexts
  import opened WorkerContexts
  import opened Routing
  import opened Scheduler
  import opened Protocol
  import opened ProtocolGuarantees

  /** The step wakes worker w. */
  ghost predicate WakesNow(s: Sys, step: Step, w: string)
  {
    var p := s.core.pool;
    && step.MainWake? && s.main.Waking? && s.main.at < |p.wake| && p.wake[s.main.at] == w
    && w in p.workers && p.workers[w].owner != Worker
  }

  /** The step gives actor a, which has mail, to an idle worker. */
  ghost predicate AssignsNow(s: Sys, step: Step, a: string)
  {
    var c := s.core;
    && step.MainAssign? && c.pool.idle != [] && c.pool.idle[0] in c.pool.workers
    && Taken(c.ready).1 == Some(a) && c.ready.ctxs[a].box.recv != []
  }

  /** Moved after k deliveries: the limit of the run queue, or all there is if that has no limit or there is less. */
  ghost function MovedAt(b: Box, k: nat): seq<Fate>
  {
    seq(if 0 < b.runSize < |b.recv| then b.runSize else |b.recv|, _ => Ran(k))
  }

  /** What the wake-ups of worker w in the run move, in order. */
  ghost function Wakes(s: Sys, steps: seq<Step>, w: string): seq<Fate>
    decreases |steps|
  {
    if steps == [] || !Enabled(s, steps[0]) then []
    else
      (if WakesNow(s, steps[0], w) && w in s.workerLog
       then MovedAt(s.core.pool.workers[w].box, |s.workerLog[w].mail.delivered|) else [])
      + Wakes(After(s, steps[0]), steps[1..], w)
  }

  /** What the assignments of actor a in the run move, in order. */
  ghost function Assignments(s: Sys, steps: seq<Step>, a: string): seq<Fate>
    decreases |steps|
  {
    if steps == [] || !Enabled(s, steps[0]) then []
    else
      (if AssignsNow(s, steps[0], a) && a in s.actorLog
       then MovedAt(s.core.ready.ctxs[a].box, |s.actorLog[a].delivered|) else [])
      + Assignments(After(s, steps[0]), steps[1..], a)
  }

  /** How many pending messages the last wake-up of worker w in the run found. */
  ghost function LastFound(s: Sys, steps: seq<Step>, w: string, before: nat): nat
    decreases |steps|
  {
    if steps == [] || !Enabled(s, steps[0]) then before
    else LastFound(After(s, steps[0]), steps[1..], w,
                   if WakesNow(s, steps[0], w) then |s.core.pool.workers[w].box.recv| else before)
  }

  /** The fates of the messages that were moved and not lost. */
  ghost function RanOnly(fates: seq<Fate>): seq<Fate>
  {
    if fates == [] then []
    else
      var front := RanOnly(fates[..|fates| - 1]);
      if fates[|fates| - 1].Ran? then front + [fates[|fates| - 1]] else front
  }

  lemma {:induction false} RanConcat(a: seq<Fate>, b: seq<Fate>)
    ensures RanOnly(a + b) == RanOnly(a) + RanOnly(b)
  {
    if b == [] {
      assert a + b == a;
    } else {
      var k := |b| - 1;
      RanConcat(a, b[..k]);
      assert (a + b)[..|a| + k] == a + b[..k];
    }
  }

  lemma {:induction false} RanRepeated(f: Fate, n: nat)
    ensures RanOnly(Repeated(f, n)) == if f.Ran? then Repeated(f, n) else []
    decreases n
  {
    if n == 0 {
    } else {
      RanRepeated(f, n - 1);
      assert Repeated(f, n)[..n - 1] == Repeated(f, n - 1);
    }
  }

  lemma DeliveredRan(h: History, b: Box, m: Msg)
    ensures RanOnly(Delivered(h, b, m).fates) == RanOnly(h.fates)
  {
    var n := |b.recv| - |Kept(b.recv, b.pendingSize)|;
    RanConcat(h.fates, Repeated(Lost(|h.delivered|), n));
    RanRepeated(Lost(|h.delivered|), n);
  }

  lemma AssignedRan(h: History, b: Box)
    ensures RanOnly(Assigned(h, b).fates) == RanOnly(h.fates) + MovedAt(b, |h.delivered|)
  {
    AssignedFates(h, b);
    var more := Assigned(h, b).fates[|h.fates|..];
    assert Assigned(h, b).fates == h.fates + more;
    assert more == MovedAt(b, |h.delivered|) == Repeated(Ran(|h.delivered|), |more|);
    RanConcat(h.fates, more);
    RanRepeated(Ran(|h.delivered|), |more|);
  }

  /** What deliveries leave alone in the histories. */
  ghost predicate SameMoves(s: Sys, t: Sys)
  {
    && t.workerLog.Keys == s.workerLog.Keys && t.actorLog.Keys == s.actorLog.Keys
    && (forall w :: w in s.workerLog ==>
          && RanOnly(t.workerLog[w].mail.fates) == RanOnly(s.workerLog[w].mail.fates)
          && t.workerLog[w].seen == s.workerLog[w].seen)
    && (forall a :: a in s.actorLog ==> RanOnly(t.actorLog[a].fates) == RanOnly(s.actorLog[a].fates))
  }

  lemma OneDeliveryMoves(s: Sys, d: Delivery)
    ensures SameMoves(s, SysDeliverOne(s, d))
  {
    hide RanOnly, Delivered, DeliverOne;
    var a, w := ActorTarget(s.core, d), WorkerTarget(s.core, d);
    if a.Some? && a.value in s.actorLog && a.value in s.core.ready.ctxs {
      DeliveredRan(s.actorLog[a.value], s.core.ready.ctxs[a.value].box, d.msg);
    }
    if w.Some? && w.value in s.workerLog && w.value in s.core.pool.workers {
      DeliveredRan(s.workerLog[w.value].mail, s.core.pool.workers[w.value].box, d.msg);
    }
    hide ActorTarget, WorkerTarget;
  }

  lemma {:induction false} DeliveriesMove(s: Sys, ds: seq<Delivery>)
    ensures SameMoves(s, SysDeliver(s, ds))
    decreases |ds|
  {
    hide SysDeliverOne, RanOnly;
    if ds == [] {
    } else {
      OneDeliveryMoves(s, ds[0]);
      DeliveriesMove(SysDeliverOne(s, ds[0]), ds[1..]);
    }
  }

  lemma WakeMoves(s: Sys, w: string)
    requires Enabled(s, MainWake) && w in s.workerLog
    ensures var t := After(s, MainWake);
            && w in t.workerLog && t.actorLog == s.actorLog
            && RanOnly(t.workerLog[w].mail.fates)
            == RanOnly(s.workerLog[w].mail.fates)
             + (if WakesNow(s, MainWake, w)
                then MovedAt(s.core.pool.workers[w].box, |s.workerLog[w].mail.delivered|) else [])
            && t.workerLog[w].seen
            == if WakesNow(s, MainWake, w) then |s.core.pool.workers[w].box.recv| else s.workerLog[w].seen
  {
    hide Reordered, Assigned, MovedAt, RanOnly;
    if WakesNow(s, MainWake, w) {
      AssignedRan(s.workerLog[w].mail, s.core.pool.workers[w].box);
    }
  }

  lemma AssignMoves(s: Sys, a: string)
    requires Enabled(s, MainAssign) && a in s.actorLog
    ensures var t := After(s, MainAssign);
            && a in t.actorLog && t.workerLog == s.workerLog
            && RanOnly(t.actorLog[a].fates)
            == RanOnly(s.actorLog[a].fates)
             + if AssignsNow(s, MainAssign, a)
               then MovedAt(s.core.ready.ctxs[a].box, |s.actorLog[a].delivered|) else []
  {
    hide Assigned, MovedAt, RanOnly, Scan, AssignedTo;
    if AssignsNow(s, MainAssign, a) {
      AssignedRan(s.actorLog[a], s.core.ready.ctxs[a].box);
    }
  }

  /** The other steps move nothing. */
  lemma OthersMoveNothing(s: Sys, step: Step)
    requires Enabled(s, step) && !step.MainWake? && !step.MainAssign?
    ensures SameMoves(s, After(s, step))
  {
    hide RanOnly, SysDeliver, Processed, Reordered, Assigned, Delivered;
    match step
    case MainProcess(ds) =>
      if s.batch != [] {
        DeliveriesMove(s.(core := SendsTaken(s.core, s.batch[0])), ds);
      }
    case MainInject(ds) => DeliveriesMove(s, ds);
    case _ =>
  }

  lemma OneStepWakes(s: Sys, step: Step, w: string)
    requires Enabled(s, step) && w in s.workerLog
    ensures var t := After(s, step);
            && w in t.workerLog
            && RanOnly(t.workerLog[w].mail.fates)
            == RanOnly(s.workerLog[w].mail.fates)
             + (if WakesNow(s, step, w)
                then MovedAt(s.core.pool.workers[w].box, |s.workerLog[w].mail.delivered|) else [])
            && t.workerLog[w].seen
            == if WakesNow(s, step, w) then |s.core.pool.workers[w].box.recv| else s.workerLog[w].seen
  {
    hide After, Enabled, RanOnly, MovedAt;
    if step.MainWake? {
      WakeMoves(s, w);
    } else if step.MainAssign? {
      AssignLeavesWorkers(s);
    } else {
      OthersMoveNothing(s, step);
    }
  }

  lemma AssignLeavesWorkers(s: Sys)
    requires Enabled(s, MainAssign)
    ensures After(s, MainAssign).workerLog == s.workerLog
  {
  }

  lemma OneStepAssigns(s: Sys, step: Step, a: string)
    requires Enabled(s, step) && a in s.actorLog
    ensures var t := After(s, step);
            && a in t.actorLog
            && RanOnly(t.actorLog[a].fates)
            == RanOnly(s.actorLog[a].fates)
             + if AssignsNow(s, step, a)
               then MovedAt(s.core.ready.ctxs[a].box, |s.actorLog[a].delivered|) else []
  {
    hide After, Enabled, RanOnly, MovedAt;
    if step.MainAssign? {
      AssignMoves(s, a);
    } else if step.MainWake? {
      WakeLeavesActors(s);
    } else {
      OthersMoveNothing(s, step);
    }
  }

  lemma WakeLeavesActors(s: Sys)
    requires Enabled(s, MainWake)
    ensures After(s, MainWake).actorLog == s.actorLog
  {
  }

  /** Over every run: the messages of a worker that were moved are those its wake-ups moved, each wake-up as many as the
      limit of the run queue lets it, or all. */
  lemma {:induction false} RunWakes(s: Sys, steps: seq<Step>, t: Sys, w: string)
    requires Runs(s, steps, t) && w in s.workerLog
    ensures w in t.workerLog
    ensures RanOnly(t.workerLog[w].mail.fates) == RanOnly(s.workerLog[w].mail.fates) + Wakes(s, steps, w)
    ensures t.workerLog[w].seen == LastFound(s, steps, w, s.workerLog[w].seen)
    decreases |steps|
  {
    hide Enabled, After, WakesNow, MovedAt, RanOnly;
    if steps == [] {
    } else {
      OneStepWakes(s, steps[0], w);
      RunWakes(After(s, steps[0]), steps[1..], t, w);
    }
  }

  /** And those of an actor that its assignments moved. */
  lemma {:induction false} RunAssigns(s: Sys, steps: seq<Step>, t: Sys, a: string)
    requires Runs(s, steps, t) && a in s.actorLog
    ensures a in t.actorLog
    ensures RanOnly(t.actorLog[a].fates) == RanOnly(s.actorLog[a].fates) + Assignments(s, steps, a)
    decreases |steps|
  {
    hide Enabled, After, AssignsNow, MovedAt, RanOnly;
    if steps == [] {
    } else {
      OneStepAssigns(s, steps[0], a);
      RunAssigns(After(s, steps[0]), steps[1..], t, a);
    }
  }

  /** From the start of the running phase on, the fates of all messages that were moved: those moved by a wake-up after
      k deliveries are as many as its limit lets it take of what it finds, and so for assignments. */
  lemma MovesOfRun(s: Sys, steps: seq<Step>, t: Sys, x: string)
    requires Init(s) && Runs(s, steps, t)
    ensures x in s.core.pool.workers ==>
              x in t.workerLog && RanOnly(t.workerLog[x].mail.fates) == Wakes(s, steps, x)
    ensures x in s.core.ready.ctxs ==>
              x in t.actorLog && RanOnly(t.actorLog[x].fates) == Assignments(s, steps, x)
  {
    assert RanOnly([]) == [];
    hide RanOnly, Runs, Wakes, Assignments;
    if x in s.core.pool.workers {
      RunWakes(s, steps, t, x);
    }
    if x in s.core.ready.ctxs {
      RunAssigns(s, steps, t, x);
    }
  }

  /** When the main thread goes to wait for events, a waiting user worker has exactly what the last wake-up of the run
      found beyond the limit of its run queue. */
  lemma WaiterHasTheRest(s: Sys, steps: seq<Step>, t: Sys, w: string)
    requires Init(s) && Runs(s, steps, t) && t.main == Polling
    requires w in s.core.pool.workers && w in t.core.pool.workers
    requires t.core.pool.workers[w].kind == User && t.core.pool.workers[w].owner == Main
    ensures var limit, found := t.core.pool.workers[w].box.runSize, LastFound(s, steps, w, 0);
            |t.core.pool.workers[w].box.recv| == if 0 < limit < found then found - limit else 0
  {
    RunWakes(s, steps, t, w);
    assert Reachable(t);
    NothingStranded(t);
  }
}
