/** The main loop's use of the ready queue, the worker pool and the subscription table (myframe/app.cpp:384-674). */
module Scheduler {
  import opened Basics
  import opened Messages
  import opened Routing
  import opened MsgManagers
  import opened Publications
  import opened Mailboxes
  import opened ActorContexts
  import opened WorkerContexts

  datatype Core = Core(ready: Ready, pool: Pool)

  function DeliverOne(c: Core, d: Delivery): Core
  {
    match d
    case ToActor(a, m) => if a in c.ready.ctxs then c.(ready := Posted(c.ready, m, Address(m, a))) else c
    case ToWorker(w, m) => if w in c.pool.workers then c.(pool := PostedToWorker(c.pool, m, Address(m, w))) else c
  }

  function Deliver(c: Core, ds: seq<Delivery>): Core
    decreases |ds|
  {
    if ds == [] then c else Deliver(DeliverOne(c, ds[0]), ds[1..])
  }

  /** A delivery puts the message behind the pending mail of the actor or user worker it names, dropping the oldest if
      that is full, and touches no other mailbox. */
  lemma DeliveryLands(c: Core, d: Delivery, x: string)
    requires Target(d) != ""
    ensures var t := DeliverOne(c, d);
            && t.ready.ctxs.Keys == c.ready.ctxs.Keys && t.pool.workers.Keys == c.pool.workers.Keys
            && (x in c.ready.ctxs ==>
                  var b, b' := c.ready.ctxs[x].box, t.ready.ctxs[x].box;
                  if d != ToActor(x, d.msg) then b' == b
                  else
                    var full := 0 < b.pendingSize <= |b.recv|;
                    b' == b.(recv := (if full then b.recv[|b.recv| - b.pendingSize + 1..] else b.recv) + [d.msg]))
            && (x in c.pool.workers ==>
                  var b, b' := c.pool.workers[x].box, t.pool.workers[x].box;
                  if d != ToWorker(x, d.msg) || c.pool.workers[x].kind != User then b' == b
                  else
                    var full := 0 < b.pendingSize <= |b.recv|;
                    b' == b.(recv := (if full then b.recv[|b.recv| - b.pendingSize + 1..] else b.recv) + [d.msg]))
  {
    match d
    case ToActor(_, _) =>
    case ToWorker(_, _) =>
  }

  /** An assigned actor's mail moves to its run queue; an actor with mail left queues again. */
  function AssignedReady(r: Ready, a: string): Ready
    requires a in r.ctxs
  {
    var actor := r.ctxs[a];
    var moved := r.(ctxs := r.ctxs[a := actor.(box := MovedToRun(actor.box))]);
    if MovedToRun(actor.box).recv != [] then Pushed(moved, a) else moved
  }

  function AssignedPool(p: Pool, w: string, a: string): Pool
    requires w in p.workers && p.idle != []
  {
    var worker := p.workers[w];
    p.(idle := p.idle[1..],
       workers := p.workers[w := worker.(context := Some(a), chan := ToOwner(worker.chan, Run))])
  }

  /** Idle worker w takes actor a. */
  function AssignedTo(c: Core, w: string, a: string): Core
    requires w in c.pool.workers && a in c.ready.ctxs && c.pool.idle != []
  {
    Core(AssignedReady(c.ready, a), AssignedPool(c.pool, w, a))
  }

  function FrontIdle(p: Pool): Option<string>
  {
    if p.idle == [] || p.idle[0] !in p.workers then None else Some(p.idle[0])
  }

  datatype Turn = Stop(core: Core) | Again(core: Core)

  /** One turn of the assignment loop. */
  function AssignTurn(c: Core): Turn
  {
    if c.pool.idle == [] || c.pool.idle[0] !in c.pool.workers then Stop(c)
    else
      var t := Taken(c.ready);
      match t.1
      case None => Stop(c.(ready := t.0))
      case Some(a) =>
        if t.0.ctxs[a].box.recv == [] then Again(c.(ready := t.0))
        else Again(AssignedTo(c.(ready := t.0), c.pool.idle[0], a))
  }

  /** Queue entries whose actor can run. */
  function Runnable(ctxs: map<string, Actor>, wait: seq<string>): nat
  {
    if wait == [] then 0 else (if CanRun(ctxs, wait[0]) then 1 else 0) + Runnable(ctxs, wait[1..])
  }

  lemma {:induction false} RunnableConcat(ctxs: map<string, Actor>, a: seq<string>, b: seq<string>)
    ensures Runnable(ctxs, a + b) == Runnable(ctxs, a) + Runnable(ctxs, b)
  {
    if a == [] {
      assert a + b == b;
    } else {
      assert (a + b)[1..] == a[1..] + b;
      RunnableConcat(ctxs, a[1..], b);
    }
  }

  /** Making actors run never adds runnable entries. */
  lemma {:induction false} RunnableMonotone(before: map<string, Actor>, after: map<string, Actor>, wait: seq<string>)
    requires forall a :: CanRun(after, a) ==> CanRun(before, a)
    ensures Runnable(after, wait) <= Runnable(before, wait)
  {
    if wait == [] {
    } else {
      RunnableMonotone(before, after, wait[1..]);
    }
  }

  lemma {:induction false} ScanRunnable(ctxs: map<string, Actor>, wait: seq<string>)
    ensures var s := Scan(ctxs, wait);
            && Runnable(ctxs, s.2) == 0
            && Runnable(ctxs, wait) == Runnable(ctxs, s.1) + if s.0.Some? then 1 else 0
  {
    if wait != [] && !CanRun(ctxs, wait[0]) {
      ScanRunnable(ctxs, wait[1..]);
    }
  }

  /** Every turn that does not stop uses up a runnable queue entry: an actor queued again is running. */
  lemma TurnDecreases(c: Core)
    requires AssignTurn(c).Again?
    ensures Runnable(AssignTurn(c).core.ready.ctxs, AssignTurn(c).core.ready.wait)
          < Runnable(c.ready.ctxs, c.ready.wait)
  {
    var t := Taken(c.ready);
    var a := t.1.value;
    var s := Scan(c.ready.ctxs, c.ready.wait);
    ScanRunnable(c.ready.ctxs, c.ready.wait);
    RunnableConcat(c.ready.ctxs, s.1, s.2);
    RunnableMonotone(c.ready.ctxs, t.0.ctxs, s.1 + s.2);
    var r := AssignTurn(c).core.ready;
    RunnableMonotone(t.0.ctxs, r.ctxs, t.0.wait);
    if r.wait != t.0.wait {
      RunnableConcat(r.ctxs, t.0.wait, [a]);
    }
  }

  /** A turn gives the idle worker at the front, and no other, the actor it takes from the queue, with mail to handle;
      an actor without mail is taken, but no worker gets it. */
  lemma TurnGivesMail(c: Core)
    requires AssignTurn(c).Again?
    ensures var d := AssignTurn(c).core;
            var front, a := c.pool.idle[0], Taken(c.ready).1.value;
            && c.pool.idle != [] && front in c.pool.workers && a in c.ready.ctxs && a in d.ready.ctxs
            && d.ready.ctxs[a].inWorker && d.pool.wake == c.pool.wake
            && if c.ready.ctxs[a].box.recv == [] then d.pool == c.pool
               else && d.pool.idle == c.pool.idle[1..]
                    && d.pool.workers == c.pool.workers[front := c.pool.workers[front].(
                         context := Some(a), chan := ToOwner(c.pool.workers[front].chan, Run))]
                    && |d.ready.ctxs[a].box.run| > |c.ready.ctxs[a].box.run|
  {
    var a := Taken(c.ready).1.value;
    MovesExactly(c.ready.ctxs[a].box);
    hide MovedToRun, Scan, Batch;
  }

  function AssignAll(c: Core): Core
    decreases Runnable(c.ready.ctxs, c.ready.wait)
  {
    match AssignTurn(c)
    case Stop(d) => d
    case Again(d) =>
      TurnDecreases(c);
      AssignAll(d)
  }

  /** One pass of the main loop over waiting workers and queued actors. */
  function CheckedStopWorkers(c: Core): Core
  {
    AssignAll(c.(pool := WakeFrom(c.pool, 0)))
  }

  lemma {:induction false} NothingRunnable(ctxs: map<string, Actor>, wait: seq<string>)
    requires Scan(ctxs, wait).0.None?
    ensures forall i :: 0 <= i < |wait| ==> !CanRun(ctxs, wait[i])
    ensures forall i :: 0 <= i < |Scan(ctxs, wait).2| ==> !CanRun(ctxs, Scan(ctxs, wait).2[i])
  {
    if wait == [] {
    } else {
      NothingRunnable(ctxs, wait[1..]);
    }
  }

  /** Work conservation: when the loop stops there is no live idle worker at the front, or nothing queued can
      run. */
  lemma {:induction false} AssignAllConserves(c: Core)
    ensures var d := AssignAll(c);
            || d.pool.idle == []
            || d.pool.idle[0] !in d.pool.workers
            || forall i :: 0 <= i < |d.ready.wait| ==> !CanRun(d.ready.ctxs, d.ready.wait[i])
    decreases Runnable(c.ready.ctxs, c.ready.wait)
  {
    match AssignTurn(c)
    case Stop(d) =>
      if c.pool.idle != [] && c.pool.idle[0] in c.pool.workers {
        NothingRunnable(c.ready.ctxs, c.ready.wait);
      }
    case Again(d) =>
      TurnDecreases(c);
      AssignAllConserves(d);
  }

  // ---- Handling a worker's report ----------------------------------------------------------------

  function Updated(c: Core, w: string, ctx: WorkerCtx): Core
  {
    c.(pool := c.pool.(workers := c.pool.workers[w := ctx]))
  }

  /** What the reporter has sent: a common worker's actor, or the worker itself. */
  function SendsOf(c: Core, w: string): seq<Msg>
    requires w in c.pool.workers
  {
    var ctx := c.pool.workers[w];
    if ctx.kind != Common then ctx.box.send
    else match ctx.context
      case None => []
      case Some(a) => if a in c.ready.ctxs then c.ready.ctxs[a].box.send else []
  }

  /** The sender's messages leave its send queue; a common worker's actor also stops running. */
  function SendsTaken(c: Core, w: string): Core
    requires w in c.pool.workers
  {
    var ctx := c.pool.workers[w];
    if ctx.kind != Common then Updated(c, w, ctx.(box := ctx.box.(send := [])))
    else match ctx.context
      case None => c
      case Some(a) =>
        if a !in c.ready.ctxs then c
        else
          var actor := c.ready.ctxs[a];
          c.(ready := c.ready.(ctxs := c.ready.ctxs[a := actor.(inWorker := false, box := actor.box.(send := []))]))
  }

  lemma {:induction false} DeliverKeepsWorkers(c: Core, ds: seq<Delivery>, w: string)
    requires w in c.pool.workers
    ensures var d := Deliver(c, ds);
            && w in d.pool.workers && d.pool.idle == c.pool.idle
            && d.pool.workers[w]
            == c.pool.workers[w].(box := d.pool.workers[w].box, inWaitMsg := d.pool.workers[w].inWaitMsg)
    decreases |ds|
  {
    if ds == [] {
    } else {
      DeliverKeepsWorkers(DeliverOne(c, ds[0]), ds[1..], w);
    }
  }

  function Popped(ctx: WorkerCtx): WorkerCtx
    requires ctx.chan.toMain != []
  {
    ctx.(chan := ctx.chan.(toMain := ctx.chan.toMain[1..]))
  }

  /** What the main thread does with the report it has just taken. */
  function Answered(c: Core, w: string, cmd: Cmd): Core
    requires w in c.pool.workers
  {
    var ctx := c.pool.workers[w];
    match ctx.kind
    case Common =>
      if cmd != Idle then c
      else
        var d := Updated(c, w, ctx.(context := None));
        d.(pool := d.pool.(idle := d.pool.idle + [w]))
    case User =>
      if cmd == Idle then Updated(c, w, ctx.(chan := ToOwner(ctx.chan, Run)))
      else if cmd == WaitForMsg then Updated(c, w, ctx.(owner := Main))
      else c
    case Timer =>
      if cmd == Idle then Updated(c, w, ctx.(chan := ToOwner(ctx.chan, Run))) else c
  }

  /** One report of worker w, `ds` being where its messages are routed. */
  function Processed(c: Core, w: string, ds: seq<Delivery>): Core
    requires w in c.pool.workers && c.pool.workers[w].chan.toMain != []
  {
    var sent := SendsTaken(c, w);
    DeliverKeepsWorkers(sent, ds, w);
    var d := Deliver(sent, ds);
    Answered(Updated(d, w, Popped(d.pool.workers[w])), w, d.pool.workers[w].chan.toMain[0])
  }

  lemma NoDelivery(c: Core)
    ensures Deliver(c, []) == c
  {
  }

  lemma {:induction false} DeliverTwice(c: Core, a: seq<Delivery>, b: seq<Delivery>)
    ensures Deliver(c, a + b) == Deliver(Deliver(c, a), b)
    decreases |a|
  {
    hide DeliverOne;
    if a == [] {
      assert a + b == b;
    } else {
      assert (a + b)[1..] == a[1..] + b;
      DeliverTwice(DeliverOne(c, a[0]), a[1..], b);
    }
  }

  class App {
    const actorMgr: ActorContextManager
    const workerMgr: WorkerContextManager
    const msgMgr: MsgManager
    var node: string

    function View(): Core
      reads actorMgr, workerMgr
    {
      Core(actorMgr.View(), workerMgr.View())
    }

    constructor (actorMgr: ActorContextManager, workerMgr: WorkerContextManager, msgMgr: MsgManager)
      ensures this.actorMgr == actorMgr && this.workerMgr == workerMgr && this.msgMgr == msgMgr && node == ""
    {
      this.actorMgr, this.workerMgr, this.msgMgr, node := actorMgr, workerMgr, msgMgr, "";
    }

    /** Hands routed messages over one by one, to receivers that exist. */
    method HandOver(ds: seq<Delivery>)
      modifies actorMgr, workerMgr
      ensures View() == Deliver(old(View()), ds)
    {
      assert ds[0..] == ds;
      for i := 0 to |ds|
        invariant Deliver(View(), ds[i..]) == Deliver(old(View()), ds)
      {
        assert ds[i..][1..] == ds[i + 1..];
        ghost var before := View();
        match ds[i] {
          case ToActor(a, m) =>
            if a in actorMgr.ctxs {
              actorMgr.DispatchMsg(m, a);
            }
          case ToWorker(w, m) =>
            if w in workerMgr.workers {
              workerMgr.DispatchWorkerMsg(m, w);
            }
        }
        assert View() == DeliverOne(before, ds[i]);
      }
    }

    /** One message to one address. */
    method DispatchTo(m: Msg, dst: string, mode: TransMode) returns (ds: seq<Delivery>)
      modifies actorMgr, workerMgr
      ensures ds == Routed(m, dst, mode, node) && View() == Deliver(old(View()), ds)
    {
      ds := Route(m, dst, mode, node);
      HandOver(ds);
    }

    /** The calls of a publication, each to the address it names or, without one, to the node. */
    method DispatchCalls(m: Msg, calls: seq<Call>) returns (ds: seq<Delivery>)
      modifies actorMgr, workerMgr
      ensures ds == CallsRouted(m, calls, node) && View() == Deliver(old(View()), ds)
    {
      hide Deliver, Routed;
      ds := [];
      NoDelivery(View());
      for i := 0 to |calls|
        invariant ds == CallsRouted(m, calls[..i], node) && View() == Deliver(old(View()), ds)
      {
        assert calls[..i + 1][..i] == calls[..i];
        var more := DispatchTo(m, if calls[i].dst == "" then node else calls[i].dst, calls[i].mode);
        DeliverTwice(old(View()), ds, more);
        ds := ds + more;
      }
      assert calls[..|calls|] == calls;
    }

    /** One message: a subscription, a publication or a plain one. */
    method DispatchMsg(m: Msg) returns (ds: seq<Delivery>)
      modifies actorMgr, workerMgr, msgMgr
      ensures Dispatches(old(msgMgr.subList), m, node, ds)
      ensures msgMgr.subList == TableAfter(old(msgMgr.subList), m) && View() == Deliver(old(View()), ds)
    {
      hide Deliver, Routed, Recorded, LookedUp, Delivers, CallsRouted;
      NoDelivery(View());
      if m.kind == SUBSCRIBE {
        ds := [];
        var forward := msgMgr.AddSubInfo(m);
        if forward {
          ds := DispatchTo(m, node, Dds);
        }
      } else if m.kind == PUBLISH {
        ds := [];
        var ok := msgMgr.AddPubInfo(m);
        if ok {
          var calls := msgMgr.DispatchPubMsg(m);
          ds := DispatchCalls(m, calls);
        }
      } else {
        ds := DispatchTo(m, m.dst, m.mode);
      }
    }

    /** A send list, in order. */
    method DispatchList(ms: seq<Msg>) returns (parts: seq<seq<Delivery>>)
      modifies actorMgr, workerMgr, msgMgr
      ensures DispatchesAll(old(msgMgr.subList), ms, node, parts)
      ensures msgMgr.subList == TableAfterAll(old(msgMgr.subList), ms)
      ensures View() == Deliver(old(View()), Flattened(parts))
    {
      hide Deliver, DispatchesAll, Dispatches, TableAfterAll, TableAfter, Flattened;
      parts := [];
      NoDelivery(View());
      NothingDispatched(msgMgr.subList, node);
      assert ms[..0] == [];
      for i := 0 to |ms|
        invariant DispatchesAll(old(msgMgr.subList), ms[..i], node, parts)
        invariant msgMgr.subList == TableAfterAll(old(msgMgr.subList), ms[..i])
        invariant View() == Deliver(old(View()), Flattened(parts))
      {
        var ds := DispatchMsg(ms[i]);
        DeliverTwice(old(View()), Flattened(parts), ds);
        DispatchesMore(old(msgMgr.subList), ms[..i], node, parts, ms[i], ds);
        assert ms[..i + 1] == ms[..i] + [ms[i]];
        parts := parts + [ds];
      }
      assert ms[..|ms|] == ms;
    }

    /** Gives actor a, just taken from the queue, to the idle worker w at the front. */
    method Assign(w: string, a: string)
      requires a in actorMgr.ctxs && FrontIdle(workerMgr.View()) == Some(w)
      modifies actorMgr, workerMgr
      ensures View() == AssignedTo(old(View()), w, a)
    {
      var box := MovedToRun(actorMgr.ctxs[a].box);
      actorMgr.ctxs := actorMgr.ctxs[a := actorMgr.ctxs[a].(box := box)];
      workerMgr.PopFrontIdleWorker();
      workerMgr.workers := workerMgr.workers[w := workerMgr.workers[w].(context := Some(a))];
      if box.recv != [] {
        actorMgr.PushContext(a);
      }
      var ctx := workerMgr.workers[w];
      workerMgr.workers := workerMgr.workers[w := ctx.(chan := ToOwner(ctx.chan, Run))];
    }

    /** One pass over the waiting user workers, then over the queued actors while there are idle workers. */
    method CheckStopWorkers()
      modifies actorMgr, workerMgr
      ensures View() == CheckedStopWorkers(old(View()))
    {
      workerMgr.WeakupWorker();
      var worker := workerMgr.FrontIdleWorker();
      while worker.Some?
        invariant worker == FrontIdle(View().pool)
        invariant AssignAll(View()) == CheckedStopWorkers(old(View()))
        decreases Runnable(actorMgr.ctxs, actorMgr.waitQueue)
      {
        ghost var before := View();
        var actor := actorMgr.GetContextWithMsg();
        if actor == None {
          break;
        }
        if actorMgr.ctxs[actor.value].box.recv != [] {
          Assign(worker.value, actor.value);
        }
        assert AssignTurn(before) == Again(View());
        TurnDecreases(before);
        worker := workerMgr.FrontIdleWorker();
      }
    }

    method TakeSends(w: string) returns (ms: seq<Msg>)
      requires w in workerMgr.workers
      modifies actorMgr, workerMgr
      ensures View() == SendsTaken(old(View()), w) && ms == SendsOf(old(View()), w)
    {
      ms := [];
      var ctx := workerMgr.workers[w];
      if ctx.kind == Common {
        if ctx.context.Some? && ctx.context.value in actorMgr.ctxs {
          var a := ctx.context.value;
          ms := actorMgr.ctxs[a].box.send;
          actorMgr.ctxs := actorMgr.ctxs[a := actorMgr.ctxs[a].(inWorker := false)];
          actorMgr.ctxs := actorMgr.ctxs[a := actorMgr.ctxs[a].(box := actorMgr.ctxs[a].box.(send := []))];
        }
      } else {
        ms := ctx.box.send;
        workerMgr.workers := workerMgr.workers[w := ctx.(box := ctx.box.(send := []))];
      }
    }

    method Answer(w: string, cmd: Cmd)
      requires w in workerMgr.workers
      modifies workerMgr
      ensures View() == Answered(old(View()), w, cmd)
      // A report that this kind of worker never makes changes nothing.
      ensures var ctx := old(workerMgr.workers)[w];
              && workerMgr.wake == old(workerMgr.wake)
              && workerMgr.idle == old(workerMgr.idle) + (if ctx.kind == Common && cmd == Idle then [w] else [])
              && workerMgr.workers == old(workerMgr.workers)[
                   w := if ctx.kind == Common && cmd == Idle then ctx.(context := None)
                        else if ctx.kind != Common && cmd == Idle then ctx.(chan := ToOwner(ctx.chan, Run))
                        else if ctx.kind == User && cmd == WaitForMsg then ctx.(owner := Main) else ctx]
    {
      var ctx := workerMgr.workers[w];
      match ctx.kind {
        case Common =>
          if cmd == Idle {
            workerMgr.workers := workerMgr.workers[w := ctx.(context := None)];
            workerMgr.PushBackIdleWorker(w);
          }
        case User =>
          if cmd == Idle {
            workerMgr.workers := workerMgr.workers[w := ctx.(chan := ToOwner(ctx.chan, Run))];
          } else if cmd == WaitForMsg {
            workerMgr.PushWaitWorker(w);
          }
        case Timer =>
          if cmd == Idle {
            workerMgr.workers := workerMgr.workers[w := ctx.(chan := ToOwner(ctx.chan, Run))];
          }
      }
    }

    /** One report of a worker whose command list is not empty: what it has sent first, then the command. */
    method ProcessEvent(w: string) returns (parts: seq<seq<Delivery>>)
      requires w in workerMgr.workers && workerMgr.workers[w].chan.toMain != []
      modifies actorMgr, workerMgr, msgMgr
      ensures DispatchesAll(old(msgMgr.subList), SendsOf(old(View()), w), node, parts)
      ensures msgMgr.subList == TableAfterAll(old(msgMgr.subList), SendsOf(old(View()), w))
      ensures View() == Processed(old(View()), w, Flattened(parts))
    {
      hide DispatchesAll, TableAfterAll, SendsOf, Flattened;
      var ms := TakeSends(w);
      ghost var sent := View();
      parts := DispatchList(ms);
      DeliverKeepsWorkers(sent, Flattened(parts), w);
      var cmd := workerMgr.workers[w].chan.toMain[0];
      workerMgr.workers := workerMgr.workers[w := Popped(workerMgr.workers[w])];
      Answer(w, cmd);
    }
  }
}
