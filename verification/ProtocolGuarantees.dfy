/** What the running phase guarantees in every reachable state. */
module ProtocolGuarantees {
  import opened Basics
  import opened Messages
  import opened Mailboxes
  import opened ActorContexts
  import opened WorkerContexts
  import opened Routing
  import opened Scheduler
  import opened Protocol
  import opened ProtocolWorkerSteps
  import opened ProtocolMainSteps
  import opened ProtocolEvents

  ghost predicate Reachable(t: Sys)
  {
    exists s, steps :: Init(s) && Runs(s, steps, t)
  }

  lemma ReachableInv(t: Sys)
    requires Reachable(t)
    ensures Inv(t)
  {
    var s, steps :| Init(s) && Runs(s, steps, t);
    InitOk(s);
    RunKeeps(s, steps, t);
  }

  /** An actor with mail waits in the ready queue exactly once, one without mail not at all. */
  lemma ReadyQueueExact(t: Sys, a: string)
    requires Reachable(t) && a in t.core.ready.ctxs
    ensures multiset(t.core.ready.wait)[a] == if t.core.ready.ctxs[a].box.recv != [] then 1 else 0
    ensures t.core.ready.ctxs[a].inWaitQue <==> a in t.core.ready.wait
  {
    ReachableInv(t);
    assert Queued(t.core.ready.ctxs[a], a in t.core.ready.wait);
    assert a in t.core.ready.wait <==> multiset(t.core.ready.wait)[a] > 0;
  }

  /** The assignment loop never meets an actor without mail, and never gives mail to a run queue in use. */
  lemma TakenHasMail(t: Sys, a: string)
    requires Reachable(t) && Taken(t.core.ready).1 == Some(a)
    ensures t.core.ready.ctxs[a].box.recv != [] && t.core.ready.ctxs[a].box.run == []
  {
    ReachableInv(t);
    QueueAssigned(t.core.ready, a);
    assert BoxOk(t.core.ready.ctxs[a], t.actorLog[a]);
  }

  /** An actor is marked running iff exactly one worker, a common one that is not idle, refers to it. */
  lemma SerialActors(t: Sys, a: string)
    requires Reachable(t) && a in t.core.ready.ctxs
    ensures t.core.ready.ctxs[a].inWorker <==> exists w :: Holds(t.core.pool.workers, w, a)
    ensures forall v, w :: Holds(t.core.pool.workers, v, a) && Holds(t.core.pool.workers, w, a) ==> v == w
    ensures forall w :: Holds(t.core.pool.workers, w, a) ==>
              t.core.pool.workers[w].kind == Common && w !in t.core.pool.idle
  {
    ReachableInv(t);
    forall w | Holds(t.core.pool.workers, w, a) ensures w !in t.core.pool.idle {
      if w in t.core.pool.idle {
        IdleWorker(t, w);
      }
    }
  }

  /** With an unlimited pending queue an actor handles exactly what it was sent, in that order. */
  lemma ActorFifo(t: Sys, a: string)
    requires Reachable(t) && a in t.core.ready.ctxs && t.core.ready.ctxs[a].box.pendingSize <= 0
    ensures a in t.actorLog
    ensures var b := t.core.ready.ctxs[a].box;
            t.actorLog[a].handled + b.run + b.recv == t.actorLog[a].delivered
  {
    ReachableInv(t);
    assert BoxOk(t.core.ready.ctxs[a], t.actorLog[a]);
    UnboundedIsFifo(t.actorLog[a], t.core.ready.ctxs[a].box);
  }

  /** What a bounded mailbox may lose. Pending is the end of what was delivered, at most N messages; all the others,
      and only they, have a fate. Message number p was lost only to delivery number p + N, so with N younger messages
      pending behind it and every older one gone before, and otherwise moved to the run queue before that delivery.
      What is handled and running is what was moved, nothing more and nothing less. */
  ghost predicate OnlyOldestLost(h: History, b: Box)
  {
    && |b.recv| <= b.pendingSize && |h.fates| + |b.recv| == |h.delivered|
    && b.recv == h.delivered[|h.fates|..]
    && (forall p :: 0 <= p < |h.fates| ==> Fated(p, h.fates[p], b.pendingSize, |h.delivered|))
    && (forall p, q :: 0 <= p < q < |h.fates| ==> h.fates[p].at <= h.fates[q].at)
    && multiset(h.handled + b.run) == multiset(Survivors(h.delivered, h.fates))
  }

  /** For an actor it is also in delivery order. */
  lemma BoundedActor(t: Sys, a: string)
    requires Reachable(t) && a in t.core.ready.ctxs && t.core.ready.ctxs[a].box.pendingSize > 0
    ensures a in t.actorLog && OnlyOldestLost(t.actorLog[a], t.core.ready.ctxs[a].box)
    ensures var h := t.actorLog[a];
            h.handled + t.core.ready.ctxs[a].box.run == Survivors(h.delivered, h.fates)
  {
    ReachableInv(t);
    assert BoxOk(t.core.ready.ctxs[a], t.actorLog[a]);
  }

  /** For a user worker it is unless a wake-up with a limit has found something in its run queue. */
  lemma BoundedUserWorker(t: Sys, w: string)
    requires Reachable(t) && w in t.core.pool.workers && t.core.pool.workers[w].kind == User
    requires t.core.pool.workers[w].box.pendingSize > 0
    ensures w in t.workerLog && OnlyOldestLost(t.workerLog[w].mail, t.core.pool.workers[w].box)
    ensures var h := t.workerLog[w].mail;
            !t.workerLog[w].spliced ==>
              h.handled + t.core.pool.workers[w].box.run == Survivors(h.delivered, h.fates)
  {
    ReachableInv(t);
    UserAt(t, w);
  }

  /** Nothing at all is lost from a queue that fewer messages than its bound, or as many, were delivered to. */
  lemma WithinBoundIsFifo(t: Sys, a: string)
    requires Reachable(t) && a in t.core.ready.ctxs && a in t.actorLog
    requires |t.actorLog[a].delivered| <= t.core.ready.ctxs[a].box.pendingSize
    ensures var b := t.core.ready.ctxs[a].box;
            t.actorLog[a].handled + b.run + b.recv == t.actorLog[a].delivered
  {
    ReachableInv(t);
    assert BoxOk(t.core.ready.ctxs[a], t.actorLog[a]);
    NothingLostWithinBound(t.actorLog[a], t.core.ready.ctxs[a].box);
  }

  lemma {:induction false} DistinctCount(s: seq<string>, x: string)
    requires Distinct(s)
    ensures multiset(s)[x] == if x in s then 1 else 0
  {
    if s == [] {
    } else {
      var rest := s[1..];
      assert forall i :: 0 <= i < |rest| ==> rest[i] == s[i + 1] && s[0] != s[i + 1];
      DistinctCount(rest, x);
      assert s == [s[0]] + rest;
      MultisetFront(s[0], rest);
    }
  }

  /** A user worker with an unlimited run queue is on the wake-up list, exactly once, iff its wait flag is set iff it
      has pending mail. */
  lemma WakeListExact(t: Sys, w: string)
    requires Reachable(t) && w in t.core.pool.workers
    requires t.core.pool.workers[w].kind == User && t.core.pool.workers[w].box.runSize <= 0
    ensures multiset(t.core.pool.wake)[w] == if t.core.pool.workers[w].box.recv != [] then 1 else 0
    ensures t.core.pool.workers[w].inWaitMsg <==> t.core.pool.workers[w].box.recv != []
  {
    ReachableInv(t);
    assert MailFlagged(t.core.pool.workers[w], w in t.core.pool.wake);
    DistinctCount(t.core.pool.wake, w);
  }

  /** A user worker with an unlimited pending queue handles exactly what it was sent, whatever its run queue's limit;
      and in that order, unless a wake-up with a limit has found something in its run queue. That never happens without
      a limit, nor to a worker that drains its run queue before every report that it waits. */
  lemma UserWorkerFifo(t: Sys, w: string)
    requires Reachable(t) && w in t.core.pool.workers && t.core.pool.workers[w].kind == User
    requires t.core.pool.workers[w].box.pendingSize <= 0
    ensures w in t.workerLog
    ensures var b, l := t.core.pool.workers[w].box, t.workerLog[w];
            && multiset(l.mail.handled + b.run + b.recv) == multiset(l.mail.delivered)
            && (!l.spliced ==> l.mail.handled + b.run + b.recv == l.mail.delivered)
            && (b.runSize <= 0 || l.drained ==> !l.spliced)
  {
    ReachableInv(t);
    UserAt(t, w);
    hide Explains, Accounts, Ordered, Increasing;
    var b, l := t.core.pool.workers[w].box, t.workerLog[w];
    UnboundedLosesNothing(l.mail, b);
    if !l.spliced {
      UnboundedIsFifo(l.mail, b);
    }
  }

  /** The numbers, in order of delivery, of what worker w has handled, has running and has pending, in that order. */
  ghost function Numbers(t: Sys, w: string): seq<nat>
    requires w in t.workerLog && w in t.core.pool.workers
  {
    t.workerLog[w].order + Positions(|t.workerLog[w].mail.fates|, |t.core.pool.workers[w].box.recv|)
  }

  /** The order of handling by position, so for equal messages too: every message is where its number says, no number
      twice, and the numbers increase exactly if no wake-up with a limit has found something in the run queue. */
  lemma UserWorkerOrder(t: Sys, w: string)
    requires Reachable(t) && w in t.core.pool.workers && t.core.pool.workers[w].kind == User
    ensures w in t.workerLog
    ensures forall i :: 0 <= i < |Numbers(t, w)| ==> Numbers(t, w)[i] < |t.workerLog[w].mail.delivered|
    ensures var b, h := t.core.pool.workers[w].box, t.workerLog[w].mail;
            h.handled + b.run + b.recv == Pick(h.delivered, Numbers(t, w))
    ensures Distinct(Numbers(t, w))
    ensures Increasing(Numbers(t, w)) <==> !t.workerLog[w].spliced
  {
    ReachableInv(t);
    UserAt(t, w);
    var b, l := t.core.pool.workers[w].box, t.workerLog[w];
    NumbersOrdered(l.mail, l.order, b);
  }

  lemma NumbersOrdered(h: History, order: seq<nat>, b: Box)
    requires Accounts(h, b) && Ordered(h, order, b)
    ensures var all := order + Positions(|h.fates|, |b.recv|);
            && (forall i :: 0 <= i < |all| ==> all[i] < |h.delivered|)
            && h.handled + b.run + b.recv == Pick(h.delivered, all)
            && Distinct(all) && (Increasing(all) <==> Increasing(order))
  {
    hide Fair, Survivors;
    PickPositions(h.delivered, |h.fates|, |b.recv|);
    PickConcat(h.delivered, order, Positions(|h.fates|, |b.recv|));
    var all := order + Positions(|h.fates|, |b.recv|);
    if Increasing(all) {
      forall i, j | 0 <= i < j < |order| ensures order[i] < order[j] {
        assert all[i] < all[j];
      }
    }
  }

  /** The step wakes worker w with a limit and finds something in its run queue. */
  ghost predicate SplicesNow(s: Sys, step: Step, w: string)
  {
    var p := s.core.pool;
    && step.MainWake? && s.main.Waking? && s.main.at < |p.wake| && p.wake[s.main.at] == w
    && w in p.workers && p.workers[w].owner != Worker && p.workers[w].box.runSize > 0 && p.workers[w].box.run != []
  }

  /** Some step of the run does. */
  ghost predicate Splices(s: Sys, steps: seq<Step>, w: string)
    decreases |steps|
  {
    && steps != [] && Enabled(s, steps[0])
    && (SplicesNow(s, steps[0], w) || Splices(After(s, steps[0]), steps[1..], w))
  }

  lemma OneStepSplices(s: Sys, step: Step, w: string)
    requires Enabled(s, step) && w in s.workerLog
    ensures w in After(s, step).workerLog
    ensures After(s, step).workerLog[w].spliced <==> s.workerLog[w].spliced || SplicesNow(s, step, w)
  {
    match step
    case MainProcess(ds) =>
      if s.batch != [] {
        DeliverDrains(s.(core := SendsTaken(s.core, s.batch[0])), ds, w);
      }
    case MainInject(ds) => DeliverDrains(s, ds, w);
    case _ =>
  }

  /** What the history remembers of a worker's wake-ups is what happened in the run. */
  lemma {:induction false} RunSplices(s: Sys, steps: seq<Step>, t: Sys, w: string)
    requires Runs(s, steps, t) && w in s.workerLog
    ensures w in t.workerLog
    ensures t.workerLog[w].spliced <==> s.workerLog[w].spliced || Splices(s, steps, w)
    decreases |steps|
  {
    hide Enabled, After, SplicesNow;
    if steps == [] {
    } else {
      OneStepSplices(s, steps[0], w);
      RunSplices(After(s, steps[0]), steps[1..], t, w);
    }
  }

  /** Over whole runs, both ways: a user worker's messages stay in order of delivery if and only if no wake-up with a
      limit finds something in its run queue. */
  lemma OrderIffNeverSpliced(s: Sys, steps: seq<Step>, t: Sys, w: string)
    requires Init(s) && Runs(s, steps, t)
    requires w in s.core.pool.workers && w in t.core.pool.workers && t.core.pool.workers[w].kind == User
    ensures w in t.workerLog
    ensures Increasing(Numbers(t, w)) <==> !Splices(s, steps, w)
  {
    RunSplices(s, steps, t, w);
    UserWorkerOrder(t, w);
  }

  /** Worker w reports that it waits only with an empty run queue. */
  ghost predicate Drains(s: Sys, steps: seq<Step>, w: string)
    decreases |steps|
  {
    steps == [] || (
      && Enabled(s, steps[0])
      && (steps[0] == Report(w, WaitForMsg) ==> s.core.pool.workers[w].box.run == [])
      && Drains(After(s, steps[0]), steps[1..], w))
  }

  lemma OneStepDrains(s: Sys, step: Step, w: string)
    requires Enabled(s, step) && w in s.workerLog
    ensures w in After(s, step).workerLog
    ensures After(s, step).workerLog[w].drained <==>
            && s.workerLog[w].drained
            && (step == Report(w, WaitForMsg) ==> s.core.pool.workers[w].box.run == [])
  {
    match step
    case MainProcess(ds) =>
      if s.batch != [] {
        DeliverDrains(s.(core := SendsTaken(s.core, s.batch[0])), ds, w);
      }
    case MainInject(ds) => DeliverDrains(s, ds, w);
    case _ =>
  }

  lemma {:induction false} DeliverDrains(s: Sys, ds: seq<Delivery>, w: string)
    requires w in s.workerLog
    ensures w in SysDeliver(s, ds).workerLog && SysDeliver(s, ds).workerLog[w].drained == s.workerLog[w].drained
    ensures SysDeliver(s, ds).workerLog[w].spliced == s.workerLog[w].spliced
    decreases |ds|
  {
    if ds == [] {
    } else {
      DeliverDrains(SysDeliverOne(s, ds[0]), ds[1..], w);
    }
  }

  /** What the history remembers of a worker's reports is what it did in the run. */
  lemma {:induction false} RunDrains(s: Sys, steps: seq<Step>, t: Sys, w: string)
    requires Runs(s, steps, t) && w in s.workerLog
    ensures w in t.workerLog
    ensures t.workerLog[w].drained <==> s.workerLog[w].drained && Drains(s, steps, w)
    decreases |steps|
  {
    hide Enabled, After;
    if steps == [] {
    } else {
      OneStepDrains(s, steps[0], w);
      RunDrains(After(s, steps[0]), steps[1..], t, w);
    }
  }

  /** Over whole runs: whatever its run queue's limit, a user worker that drains it before it waits is served first
      in, first out. */
  lemma DrainingWorkerIsFifo(s: Sys, steps: seq<Step>, t: Sys, w: string)
    requires Init(s) && Runs(s, steps, t) && Drains(s, steps, w)
    requires w in s.core.pool.workers && w in t.core.pool.workers && t.core.pool.workers[w].kind == User
    requires t.core.pool.workers[w].box.pendingSize <= 0
    ensures w in t.workerLog
    ensures var b := t.core.pool.workers[w].box;
            t.workerLog[w].mail.handled + b.run + b.recv == t.workerLog[w].mail.delivered
  {
    RunDrains(s, steps, t, w);
    UserWorkerFifo(t, w);
  }

  /** Whoever is told that there are messages finds some in its run queue. */
  lemma WokenHasMail(t: Sys, w: string)
    requires Reachable(t) && w in t.core.pool.workers && t.core.pool.workers[w].kind == User
    requires t.core.pool.workers[w].chan.toOwner != [] && t.core.pool.workers[w].chan.toOwner[0] == RunWithMsg
    ensures t.core.pool.workers[w].box.run != []
  {
    ReachableInv(t);
    UserAt(t, w);
  }

  /** One command in flight per channel, never more notifications than queued reports, and reports and replies
      alternating with each reply fitting its report. */
  lemma OneCommandInFlight(t: Sys, w: string)
    requires Reachable(t) && w in t.core.pool.workers
    ensures var c := t.core.pool.workers[w].chan;
            && |c.toMain| + |c.toOwner| <= 1
            && Events(t, w) <= |c.toMain|
            && Session(c.sent)
  {
    ReachableInv(t);
    assert LinkOk(t.core.pool.workers[w], t.pc[w], w in t.core.pool.idle, Events(t, w));
  }

  /** Every event the main thread is handed has a command behind it. */
  lemma LinksNeverUnderflow(t: Sys)
    requires Reachable(t) && t.main == Processing && t.batch != []
    ensures t.batch[0] in t.core.pool.workers && t.core.pool.workers[t.batch[0]].chan.toMain != []
  {
    ReachableInv(t);
    ReportedOnly(t);
  }

  /** A worker that waits for a reply owes its waiting to something: a report on its way, a reply to read, the idle
      list, or the main thread's control over it. */
  lemma BlockedForAReason(t: Sys, w: string)
    requires Reachable(t) && w in t.core.pool.workers && w in t.pc && t.pc[w] == Blocked
    ensures var ctx := t.core.pool.workers[w];
            || (ctx.chan.toMain != [] && Events(t, w) == 1)
            || ctx.chan.toOwner != []
            || w in t.core.pool.idle
            || ctx.owner == Main
  {
    ReachableInv(t);
    assert LinkOk(t.core.pool.workers[w], t.pc[w], w in t.core.pool.idle, Events(t, w));
  }

  /** When the main thread goes to wait for events, a waiting user worker has no mail but what its last wake-up had to
      leave behind: what it found less the limit of the run queue, none if that has no limit; and either every common
      worker is busy or every actor with mail is being run. */
  lemma NothingStranded(t: Sys)
    requires Reachable(t) && t.main == Polling
    ensures forall w :: w in t.core.pool.workers && t.core.pool.workers[w].kind == User
                        && t.core.pool.workers[w].owner == Main ==>
              && w in t.workerLog
              && |t.core.pool.workers[w].box.recv| ==
                   var limit, seen := t.core.pool.workers[w].box.runSize, t.workerLog[w].seen;
                   if 0 < limit < seen then seen - limit else 0
    ensures t.core.pool.idle == []
         || forall a :: a in t.core.ready.ctxs && t.core.ready.ctxs[a].box.recv != [] ==> t.core.ready.ctxs[a].inWorker
  {
    ReachableInv(t);
    hide Inv, Reachable;
    forall w | w in t.core.pool.workers && t.core.pool.workers[w].kind == User && t.core.pool.workers[w].owner == Main
      ensures w in t.workerLog
      ensures var limit, seen := t.core.pool.workers[w].box.runSize, t.workerLog[w].seen;
              |t.core.pool.workers[w].box.recv| == if 0 < limit < seen then seen - limit else 0
    {
      WaitersMail(t, w);
    }
    if t.core.pool.idle != [] {
      forall a | a in t.core.ready.ctxs && t.core.ready.ctxs[a].box.recv != [] ensures t.core.ready.ctxs[a].inWorker {
        MailRuns(t, a);
      }
    }
  }

  lemma WaitersMail(t: Sys, w: string)
    requires Inv(t) && t.main == Polling && w in t.core.pool.workers
    requires t.core.pool.workers[w].kind == User && t.core.pool.workers[w].owner == Main
    ensures w in t.workerLog
    ensures var limit, seen := t.core.pool.workers[w].box.runSize, t.workerLog[w].seen;
            |t.core.pool.workers[w].box.recv| == if 0 < limit < seen then seen - limit else 0
  {
    NotListed(t, w);
    UserAt(t, w);
    hide QueueInv, BoxInv, SerialInv, WakeInv, LinkInv, WorkInv, UserInv, MainInv, Explains;
  }

  lemma MailRuns(t: Sys, a: string)
    requires Inv(t) && t.main == Polling && t.core.pool.idle != []
    requires a in t.core.ready.ctxs && t.core.ready.ctxs[a].box.recv != []
    ensures t.core.ready.ctxs[a].inWorker
  {
    hide UserInv, BoxInv, SerialInv, LinkInv, WorkInv, WakeInv;
    assert Queued(t.core.ready.ctxs[a], a in t.core.ready.wait);
    var i :| 0 <= i < |t.core.ready.wait| && t.core.ready.wait[i] == a;
    assert !CanRun(t.core.ready.ctxs, t.core.ready.wait[i]);
  }

  lemma NotListed(t: Sys, w: string)
    requires Inv(t) && t.main == Polling && w in t.core.pool.workers && t.core.pool.workers[w].owner == Main
    ensures !t.core.pool.workers[w].inWaitMsg
  {
    assert MailFlagged(t.core.pool.workers[w], w in t.core.pool.wake);
  }

  predicate ByMain(step: Step)
  {
    step.MainWake? || step.MainAssign? || step.MainPoll? || step.MainProcess? || step.MainInject?
  }

  /** The main thread fills a user worker's run queue only while that worker waits and has given up the control. */
  lemma RunQueueBelongsToWorker(t: Sys, step: Step, w: string)
    requires Reachable(t) && Enabled(t, step) && ByMain(step)
    requires w in t.core.pool.workers && w in t.pc
    ensures w in After(t, step).core.pool.workers
    ensures t.pc[w] != Blocked || t.core.pool.workers[w].owner == Worker ==>
              After(t, step).core.pool.workers[w].box.run == t.core.pool.workers[w].box.run
  {
    ReachableInv(t);
    assert WakeInv(t.core.pool) && LinkInv(t);
    hide WakeInv, LinkInv, Inv, Reachable, After;
    match step {
      case MainWake => WakeKeepsRunQueue(t, w);
      case MainAssign => AssignTurnKeepsBoxes(t, w);
      case MainPoll => PollKeepsBoxes(t, w);
      case MainProcess(ds) => ProcessKeepsRunQueue(t, ds, w);
      case MainInject(ds) => InjectKeepsRunQueue(t, ds, w);
    }
  }

  lemma PollKeepsBoxes(t: Sys, w: string)
    requires Enabled(t, MainPoll)
    ensures After(t, MainPoll).core == t.core
  {
  }

  lemma InjectKeepsRunQueue(t: Sys, ds: seq<Delivery>, w: string)
    requires Enabled(t, MainInject(ds)) && w in t.core.pool.workers
    ensures w in After(t, MainInject(ds)).core.pool.workers
    ensures After(t, MainInject(ds)).core.pool.workers[w].box.run == t.core.pool.workers[w].box.run
  {
    hide SysDeliver, Deliver;
    SysDeliverCore(t, ds);
    DeliverKeepsRunQueue(t.core, ds, w);
  }

  lemma WakeKeepsRunQueue(t: Sys, w: string)
    requires WakeInv(t.core.pool) && LinkInv(t) && Enabled(t, MainWake) && w in t.core.pool.workers
    ensures w in After(t, MainWake).core.pool.workers
    ensures t.pc[w] != Blocked || t.core.pool.workers[w].owner == Worker ==>
              After(t, MainWake).core.pool.workers[w].box.run == t.core.pool.workers[w].box.run
  {
    assert LinkOk(t.core.pool.workers[w], t.pc[w], w in t.core.pool.idle, Events(t, w));
    hide Session;
  }

  lemma AssignTurnKeepsBoxes(t: Sys, w: string)
    requires Enabled(t, MainAssign) && w in t.core.pool.workers
    ensures w in After(t, MainAssign).core.pool.workers
    ensures After(t, MainAssign).core.pool.workers[w].box == t.core.pool.workers[w].box
  {
  }

  lemma ProcessKeepsRunQueue(t: Sys, ds: seq<Delivery>, w: string)
    requires Enabled(t, MainProcess(ds)) && w in t.core.pool.workers
    ensures w in After(t, MainProcess(ds)).core.pool.workers
    ensures After(t, MainProcess(ds)).core.pool.workers[w].box.run == t.core.pool.workers[w].box.run
  {
    if t.batch != [] {
      var first := t.batch[0];
      var sent := SendsTaken(t.core, first);
      var d := Deliver(sent, ds);
      DeliverKeepsRunQueue(sent, ds, w);
      DeliverKeepsWorkers(sent, ds, first);
      assert After(t, MainProcess(ds)).core == Processed(t.core, first, ds);
      hide After, SendsTaken, Deliver;
      assert Processed(t.core, first, ds).pool.workers[w].box == d.pool.workers[w].box;
      assert sent.pool.workers[w].box.run == t.core.pool.workers[w].box.run by { SendsKeepRunQueue(t.core, first, w); }
    }
  }

  lemma SendsKeepRunQueue(c: Core, first: string, w: string)
    requires first in c.pool.workers && w in c.pool.workers
    ensures w in SendsTaken(c, first).pool.workers
    ensures SendsTaken(c, first).pool.workers[w].box.run == c.pool.workers[w].box.run
  {
  }

  lemma {:induction false} DeliverKeepsRunQueue(c: Core, ds: seq<Delivery>, w: string)
    requires w in c.pool.workers
    ensures w in Deliver(c, ds).pool.workers
    ensures Deliver(c, ds).pool.workers[w].box.run == c.pool.workers[w].box.run
    decreases |ds|
  {
    if ds == [] {
    } else {
      DeliverKeepsRunQueue(DeliverOne(c, ds[0]), ds[1..], w);
    }
  }
}
