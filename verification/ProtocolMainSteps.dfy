/** Every step of the main thread keeps the invariant of the running phase. */
module ProtocolMainSteps {
  import opened Basics
  import opened Messages
  import opened Mailboxes
  import opened ActorContexts
  import opened WorkerContexts
  import opened Routing
  import opened Scheduler
  import opened Protocol
  import opened ProtocolWorkerSteps

  lemma PollKeeps(s: Sys)
    requires Inv(s) && Enabled(s, MainPoll)
    ensures Inv(After(s, MainPoll))
  {
    hide QueueInv, BoxInv, SerialInv, WakeInv, UserInv, LinkOk, WorkOk;
    var t := After(s, MainPoll);
    forall v | v in t.core.pool.workers
      ensures LinkOk(t.core.pool.workers[v], t.pc[v], v in t.core.pool.idle, Events(t, v))
    {
      assert LinkOk(s.core.pool.workers[v], s.pc[v], v in s.core.pool.idle, Events(s, v));
      assert Events(t, v) == Events(s, v);
    }
  }

  // ---- Waking one user worker --------------------------------------------------------------------

  lemma WokenLink(ctx: WorkerCtx, events: nat)
    requires LinkOk(ctx, Blocked, false, events) && ctx.owner == Main
    ensures LinkOk(Woken(ctx), Blocked, false, events)
  {
    SessionReply(ctx.chan.sent);
  }

  /** A waiting worker that has mail gets some of it, in order unless that goes in front of what it has already. */
  lemma UserWoken(w: WorkerCtx, l: UserLog)
    requires UserOk(w, l) && WaitReported(w) && w.box.recv != [] && w.chan.toOwner == []
    ensures UserOk(Woken(w), UserAssigned(l, w.box))
  {
    AssignAccounts(l.mail, w.box);
    WokenOrder(w.box, l);
    if !l.spliced && (w.box.run == [] || w.box.runSize <= 0) {
      AssignExplained(l.mail, w.box);
    }
    MovesExactly(w.box);
    hide Accounts, Explains, Ordered, Increasing, Reordered, Assigned, MovedToRun, Batch;
  }

  lemma WokenOrder(b: Box, l: UserLog)
    requires Accounts(l.mail, b) && Ordered(l.mail, l.order, b) && b.recv != []
    requires Increasing(l.order) <==> !l.spliced
    ensures Ordered(Assigned(l.mail, b), UserAssigned(l, b).order, MovedToRun(b))
    ensures Increasing(UserAssigned(l, b).order) <==> !UserAssigned(l, b).spliced
  {
    var n, f := |l.mail.handled|, |l.mail.fates|;
    OrderedAssigned(l.mail, l.order, b);
    hide Fair, Survivors, Distinct, Pick, Increasing, Reordered, Assigned, MovedToRun;
    if l.spliced {
      ReorderStays(l.order, n, f, b);
    } else {
      ReorderIff(l.order, n, f, b);
    }
  }

  /** The pool after one worker has been woken. */
  lemma WakeLinks(s: Sys, t: Sys, i: nat)
    requires LinkInv(s) && i < |s.core.pool.wake| && s.core.pool.wake[i] in s.core.pool.workers
    requires s.core.pool.workers[s.core.pool.wake[i]].owner == Main
    requires t.core.pool == WakeOne(s.core.pool, i).0 && t.pc == s.pc && t.evs == s.evs && t.batch == s.batch
    ensures LinkInv(t)
  {
    var w := s.core.pool.wake[i];
    var ctx := s.core.pool.workers[w];
    assert LinkOk(ctx, s.pc[w], w in s.core.pool.idle, Events(s, w));
    WokenLink(ctx, Events(s, w));
    hide LinkOk;
    forall v | v in t.core.pool.workers
      ensures LinkOk(t.core.pool.workers[v], t.pc[v], v in t.core.pool.idle, Events(t, v))
    {
      assert LinkOk(s.core.pool.workers[v], s.pc[v], v in s.core.pool.idle, Events(s, v));
    }
  }

  lemma WaiterLink(s: Sys, w: string)
    requires LinkInv(s) && w in s.core.pool.workers && s.core.pool.workers[w].owner == Main
    ensures WaitReported(s.core.pool.workers[w]) && s.core.pool.workers[w].chan.toOwner == []
  {
    assert LinkOk(s.core.pool.workers[w], s.pc[w], w in s.core.pool.idle, Events(s, w));
  }

  lemma WakeWorks(s: Sys, t: Sys, w: string)
    requires WorkInv(s) && w in s.core.pool.workers && s.core.pool.workers[w].kind == User
    requires t.core.ready == s.core.ready && t.pc == s.pc
    requires t.core.pool.workers == s.core.pool.workers[w := Woken(s.core.pool.workers[w])]
    ensures WorkInv(t)
  {
    assert WorkOk(s.core.ready.ctxs, Woken(s.core.pool.workers[w]), Blocked);
  }

  lemma WakeKeeps(s: Sys)
    requires Inv(s) && Enabled(s, MainWake)
    ensures Inv(After(s, MainWake))
  {
    hide QueueInv, BoxInv, SerialInv, LinkInv, WorkInv, UserInv;
    var t, p, i := After(s, MainWake), s.core.pool, s.main.at;
    if i == |p.wake| {
      hide WakeInv;
      LinkSame(s, t);
      assert WorkInv(t) by { WorkSame(s, t); }
    } else {
      WakeOneKeepsWakeInv(p, i);
      WakeOneVisits(p, i);
      var w := p.wake[i];
      if p.workers[w].owner == Worker {
        hide WakeInv, VisitedHaveControl;
        LinkSame(s, t);
        WorkSame(s, t);
      } else {
        assert MailFlagged(p.workers[w], w in p.wake);
        hide WakeInv, VisitedHaveControl;
        WakeLinks(s, t, i);
        WakeWorks(s, t, w);
        WaiterLink(s, w);
        UserAt(s, w);
        UserWoken(p.workers[w], s.workerLog[w]);
        hide UserOk, WaitReported;
        UserUpdated(p.workers, s.workerLog, w, Woken(p.workers[w]), UserAssigned(s.workerLog[w], p.workers[w].box));
        SerialFrame(s.core.ready.ctxs, p.workers, t.core.pool.workers);
      }
    }
  }

  lemma WorkSame(s: Sys, t: Sys)
    requires WorkInv(s) && t.core == s.core && t.pc == s.pc
    ensures WorkInv(t)
  {
  }

  // ---- Assigning one actor -----------------------------------------------------------------------

  lemma UniqueSplit(s: seq<string>, a: seq<string>, b: seq<string>, x: string)
    requires Unique(s) && multiset(s) == multiset(a) + multiset(b) + multiset{x}
    ensures Unique(a + b) && Unique(a + b + [x])
    ensures forall y :: y in a + b <==> y in s && y != x
    ensures forall y :: y in a + b + [x] <==> y in s
  {
    assert multiset(a + b) == multiset(a) + multiset(b);
    assert multiset(a + b + [x]) == multiset(s);
    assert multiset(s)[x] == 1;
    forall y ensures multiset(a + b)[y] <= 1 {
      assert multiset(a + b)[y] <= multiset(s)[y];
    }
    forall y ensures y in a + b <==> y in s && y != x {
      assert y in a + b <==> multiset(a + b)[y] > 0;
      assert y in s <==> multiset(s)[y] > 0;
    }
    forall y ensures y in a + b + [x] <==> y in s {
      assert y in a + b + [x] <==> multiset(a + b + [x])[y] > 0;
      assert y in s <==> multiset(s)[y] > 0;
    }
  }

  lemma UniqueShuffle(s: seq<string>, t: seq<string>)
    requires Unique(s) && multiset(s) == multiset(t)
    ensures Unique(t) && forall y :: y in t <==> y in s
  {
    forall y ensures y in t <==> y in s {
      assert y in t <==> multiset(t)[y] > 0;
      assert y in s <==> multiset(s)[y] > 0;
    }
  }

  /** Passing over running actors only changes the order of the queue. */
  lemma NothingTaken(r: Ready)
    requires QueueInv(r) && Taken(r).1 == None
    ensures QueueInv(Taken(r).0) && NoneCanRun(Taken(r).0)
  {
    var s := Scan(r.ctxs, r.wait);
    ScanConserves(r.ctxs, r.wait);
    NothingRunnable(r.ctxs, r.wait);
    assert s.1 == [] && s.1 + s.2 == s.2;
    assert multiset(r.wait) == multiset(s.2);
    UniqueShuffle(r.wait, s.2);
    forall a | a in r.ctxs ensures Queued(r.ctxs[a], a in s.2) {
      assert Queued(r.ctxs[a], a in r.wait);
    }
  }

  /** The actor handed out has mail, and the queue is in step again once it has been assigned. */
  lemma QueueAssigned(r: Ready, a: string)
    requires QueueInv(r) && Taken(r).1 == Some(a)
    ensures r.ctxs[a].box.recv != [] && QueueInv(AssignedReady(Taken(r).0, a))
  {
    var s := Scan(r.ctxs, r.wait);
    ScanConserves(r.ctxs, r.wait);
    UniqueSplit(r.wait, s.1, s.2, a);
    assert a in r.wait by { assert multiset(r.wait)[a] > 0; }
    assert Queued(r.ctxs[a], true);
    var q := AssignedReady(Taken(r).0, a);
    assert q.wait == if q.ctxs[a].box.recv != [] then s.1 + s.2 + [a] else s.1 + s.2;
    forall b | b in q.ctxs ensures Queued(q.ctxs[b], b in q.wait) {
      assert Queued(r.ctxs[b], b in r.wait);
    }
    forall i | 0 <= i < |q.wait| ensures q.wait[i] in q.ctxs {
      assert q.wait[i] in q.wait;
    }
  }

  lemma BoxAssigned(r: Ready, log: map<string, History>, a: string)
    requires BoxInv(r, log) && Taken(r).1 == Some(a)
    ensures BoxInv(AssignedReady(Taken(r).0, a), LogAssigned(log, a, r.ctxs[a].box))
  {
    assert BoxOk(r.ctxs[a], log[a]);
    AssignExplained(log[a], r.ctxs[a].box);
    hide Explains;
  }

  lemma SerialAssigned(ctxs: map<string, Actor>, ws: map<string, WorkerCtx>, w: string, a: string,
                       ctxs': map<string, Actor>, ws': map<string, WorkerCtx>)
    requires SerialInv(ctxs, ws) && a in ctxs && !ctxs[a].inWorker
    requires w in ws && ws[w].context == None && ws[w].kind == Common
    requires ctxs'.Keys == ctxs.Keys && ctxs'[a].inWorker
    requires forall b :: b in ctxs && b != a ==> ctxs'[b].inWorker == ctxs[b].inWorker
    requires ws'.Keys == ws.Keys && ws'[w].context == Some(a) && ws'[w].kind == Common
    requires forall v :: v in ws && v != w ==> ws'[v] == ws[v]
    ensures SerialInv(ctxs', ws')
  {
    forall v, b | Holds(ws', v, b) ensures ws'[v].kind == Common && b in ctxs' && ctxs'[b].inWorker {
      assert v != w ==> Holds(ws, v, b);
    }
    forall u, v, b | Holds(ws', u, b) && Holds(ws', v, b) ensures u == v {
      assert u != w ==> Holds(ws, u, b);
      assert v != w ==> Holds(ws, v, b);
    }
    forall b | b in ctxs' && ctxs'[b].inWorker ensures exists v :: Holds(ws', v, b) {
      if b == a {
        assert Holds(ws', w, a);
      } else {
        var v :| Holds(ws, v, b);
        assert Holds(ws', v, b);
      }
    }
  }

  lemma AssignedLink(ctx: WorkerCtx, pc: Pc, events: nat, a: string)
    requires LinkOk(ctx, pc, true, events)
    ensures LinkOk(ctx.(context := Some(a), chan := ToOwner(ctx.chan, Run)), pc, false, events)
    ensures pc == Blocked && ctx.chan.toMain == [] && ctx.owner == Worker
  {
    SessionReply(ctx.chan.sent);
  }

  lemma UniqueTail(s: seq<string>)
    requires s != [] && Unique(s)
    ensures Unique(s[1..]) && forall y :: y in s[1..] <==> y in s && y != s[0]
  {
    assert s == [s[0]] + s[1..];
    MultisetFront(s[0], s[1..]);
    assert multiset(s)[s[0]] == 1;
    forall y ensures y in s[1..] <==> y in s && y != s[0] {
      assert y in s[1..] <==> multiset(s[1..])[y] > 0;
      assert y in s <==> multiset(s)[y] > 0;
    }
    forall y ensures multiset(s[1..])[y] <= 1 {
      assert multiset(s[1..])[y] <= multiset(s)[y];
    }
  }

  lemma LinkAssigned(s: Sys, t: Sys, a: string)
    requires LinkInv(s) && s.core.pool.idle != [] && s.core.pool.idle[0] in s.core.pool.workers
    requires t.core.pool == AssignedPool(s.core.pool, s.core.pool.idle[0], a)
    requires t.pc == s.pc && t.evs == s.evs && t.batch == s.batch
    ensures LinkInv(t)
  {
    var w, idle := s.core.pool.idle[0], s.core.pool.idle;
    UniqueTail(idle);
    assert LinkOk(s.core.pool.workers[w], s.pc[w], true, Events(s, w));
    AssignedLink(s.core.pool.workers[w], s.pc[w], Events(s, w), a);
    hide LinkOk, Unique;
    forall v | v in t.core.pool.workers
      ensures LinkOk(t.core.pool.workers[v], t.pc[v], v in t.core.pool.idle, Events(t, v))
    {
      assert LinkOk(s.core.pool.workers[v], s.pc[v], v in idle, Events(s, v));
    }
  }

  lemma WorkAssigned(s: Sys, t: Sys, w: string, a: string)
    requires WorkInv(s) && SerialInv(s.core.ready.ctxs, s.core.pool.workers)
    requires a in s.core.ready.ctxs && !s.core.ready.ctxs[a].inWorker
    requires w in s.core.pool.workers && s.core.pool.workers[w].chan.toMain == [] && s.core.pool.idle != []
    requires t.core.pool == AssignedPool(s.core.pool, w, a) && t.pc == s.pc
    requires t.core.ready.ctxs.Keys == s.core.ready.ctxs.Keys
    requires forall b :: b in s.core.ready.ctxs && b != a ==> t.core.ready.ctxs[b] == s.core.ready.ctxs[b]
    ensures WorkInv(t)
  {
    forall v | v in t.core.pool.workers && v in t.pc
      ensures WorkOk(t.core.ready.ctxs, t.core.pool.workers[v], t.pc[v])
    {
      assert WorkOk(s.core.ready.ctxs, s.core.pool.workers[v], s.pc[v]);
      if v != w && s.core.pool.workers[v].context.Some? {
        assert Holds(s.core.pool.workers, v, s.core.pool.workers[v].context.value);
      }
    }
  }

  lemma UserUntouched(p: Pool, log: map<string, UserLog>, w: string, a: string)
    requires UserInv(p.workers, log) && w in p.workers && p.workers[w].kind == Common && p.idle != []
    ensures UserInv(AssignedPool(p, w, a).workers, log)
  {
    hide UserOk;
  }

  /** What one assignment turn does, case by case. */
  lemma AssignCases(s: Sys)
    requires Enabled(s, MainAssign) && (s.core.pool.idle != [] ==> s.core.pool.idle[0] in s.core.pool.workers)
    ensures var t, r, p := After(s, MainAssign), s.core.ready, s.core.pool;
            if p.idle == [] then t == s.(main := Polling)
            else match Taken(r).1
              case None => t == s.(core := s.core.(ready := Taken(r).0), main := Polling)
              case Some(a) =>
                Taken(r).0.ctxs[a].box.recv != [] ==>
                  t == s.(core := AssignedTo(s.core.(ready := Taken(r).0), p.idle[0], a),
                          actorLog := LogAssigned(s.actorLog, a, r.ctxs[a].box))
  {
  }

  lemma AssignKeeps(s: Sys)
    requires Inv(s) && Enabled(s, MainAssign)
    ensures Inv(After(s, MainAssign))
  {
    hide QueueInv, BoxInv, SerialInv, WakeInv, LinkInv, WorkInv, UserInv, VisitedHaveControl;
    var t, r, p := After(s, MainAssign), s.core.ready, s.core.pool;
    if p.idle != [] {
      IdleWorker(s, p.idle[0]);
    }
    AssignCases(s);
    hide After;
    if p.idle == [] {
      LinkSame(s, t);
      WorkSame(s, t);
    } else {
      match Taken(r).1
      case None => AssignStops(s, t);
      case Some(a) =>
        QueueAssigned(r, a);
        AssignGoesOn(s, t, p.idle[0], a);
    }
  }

  lemma AssignStops(s: Sys, t: Sys)
    requires Inv(s) && s.main == Assigning && Taken(s.core.ready).1 == None
    requires t == s.(core := s.core.(ready := Taken(s.core.ready).0), main := Polling)
    ensures Inv(t)
  {
    NothingTaken(s.core.ready);
    hide QueueInv, SerialInv, WakeInv, LinkInv, UserInv, VisitedHaveControl, NoneCanRun, Explains;
    LinkSame(s, t);
    assert t.core.ready.ctxs == s.core.ready.ctxs;
  }

  lemma AssignGoesOn(s: Sys, t: Sys, w: string, a: string)
    requires Inv(s) && s.main == Assigning && Taken(s.core.ready).1 == Some(a)
    requires s.core.pool.idle != [] && w == s.core.pool.idle[0] && w in s.core.pool.workers
    requires QueueInv(AssignedReady(Taken(s.core.ready).0, a))
    requires t == s.(core := AssignedTo(s.core.(ready := Taken(s.core.ready).0), w, a),
                     actorLog := LogAssigned(s.actorLog, a, s.core.ready.ctxs[a].box))
    ensures Inv(t)
  {
    var r, p := s.core.ready, s.core.pool;
    IdleWorker(s, w);
    AssignedActors(r, a);
    hide QueueInv, LinkInv, UserInv, WorkInv, WakeInv, AssignedReady, AssignedPool, MainInv;
    BoxAssigned(r, s.actorLog, a);
    SerialPool(r.ctxs, p, w, a, t.core.ready.ctxs);
    LinkAssigned(s, t, a);
    WorkAssigned(s, t, w, a);
    UserUntouched(p, s.workerLog, w, a);
    MainAssigned(s, t, w, a);
  }

  lemma IdleWorker(s: Sys, w: string)
    requires LinkInv(s) && w in s.core.pool.idle
    ensures w in s.core.pool.workers && w in s.pc
    ensures s.core.pool.workers[w].chan.toMain == [] && s.core.pool.workers[w].owner == Worker
    ensures s.core.pool.workers[w].kind == Common && s.core.pool.workers[w].context == None
  {
    assert LinkOk(s.core.pool.workers[w], s.pc[w], true, Events(s, w));
  }

  lemma SerialPool(ctxs: map<string, Actor>, p: Pool, w: string, a: string, ctxs': map<string, Actor>)
    requires SerialInv(ctxs, p.workers) && a in ctxs && !ctxs[a].inWorker && p.idle != []
    requires w in p.workers && p.workers[w].context == None && p.workers[w].kind == Common
    requires ctxs'.Keys == ctxs.Keys && ctxs'[a].inWorker
    requires forall b :: b in ctxs && b != a ==> ctxs'[b] == ctxs[b]
    ensures SerialInv(ctxs', AssignedPool(p, w, a).workers)
  {
    SerialAssigned(ctxs, p.workers, w, a, ctxs', AssignedPool(p, w, a).workers);
  }

  lemma MainAssigned(s: Sys, t: Sys, w: string, a: string)
    requires MainInv(s) && WakeInv(s.core.pool) && s.main == Assigning
    requires w in s.core.pool.workers && s.core.pool.idle != []
    requires t.core.pool == AssignedPool(s.core.pool, w, a) && t.main == s.main && t.batch == s.batch
    ensures MainInv(t) && WakeInv(t.core.pool)
  {
    AssignedWorkers(s.core.pool, w, a);
    VisitedFrame(s.core.pool, t.core.pool, |s.core.pool.wake|);
    WakeFrame(s.core.pool, t.core.pool);
  }

  lemma AssignedActors(r: Ready, a: string)
    requires Taken(r).1 == Some(a)
    ensures var ctxs := AssignedReady(Taken(r).0, a).ctxs;
            && ctxs.Keys == r.ctxs.Keys && ctxs[a].inWorker
            && !r.ctxs[a].inWorker && forall b :: b in r.ctxs && b != a ==> ctxs[b] == r.ctxs[b]
  {
  }

  lemma AssignedWorkers(p: Pool, w: string, a: string)
    requires w in p.workers && p.idle != []
    ensures var q := AssignedPool(p, w, a);
            && q.wake == p.wake && q.workers.Keys == p.workers.Keys
            && q.workers[w] == p.workers[w].(context := Some(a), chan := q.workers[w].chan)
            && forall v :: v in p.workers && v != w ==> q.workers[v] == p.workers[v]
  {
  }
}
