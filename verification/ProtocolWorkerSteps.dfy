/** Every step of a worker thread keeps the invariant of the running phase. */
module ProtocolWorkerSteps {
  import opened Basics
  import opened Messages
  import opened Mailboxes
  import opened ActorContexts
  import opened WorkerContexts
  import opened Routing
  import opened Scheduler
  import opened Protocol

  lemma SessionReport(sent: seq<Cmd>, cmd: Cmd)
    requires Session(sent) && |sent| % 2 == 0 && (cmd == Idle || cmd == WaitForMsg)
    ensures Session(sent + [cmd])
  {
    var all := sent + [cmd];
    forall i | 0 <= i < |all| ensures InTurn(all, i) {
      assert i < |sent| ==> InTurn(sent, i);
    }
  }

  lemma SessionReply(sent: seq<Cmd>)
    requires Session(sent) && |sent| % 2 == 1
    ensures Session(sent + [ReplyTo(sent[|sent| - 1])])
  {
    var all := sent + [ReplyTo(sent[|sent| - 1])];
    forall i | 0 <= i < |all| ensures InTurn(all, i) {
      assert i < |sent| ==> InTurn(sent, i);
    }
  }

  /** Changing one worker's channel and mailbox, but not its context, leaves the actors' bookkeeping alone. */
  lemma SerialFrame(ctxs: map<string, Actor>, ws: map<string, WorkerCtx>, ws': map<string, WorkerCtx>)
    requires SerialInv(ctxs, ws) && ws'.Keys == ws.Keys
    requires forall w :: w in ws ==> ws'[w].context == ws[w].context && ws'[w].kind == ws[w].kind
    ensures SerialInv(ctxs, ws')
  {
    forall w, a | Holds(ws', w, a)
      ensures ws'[w].kind == Common && a in ctxs && ctxs[a].inWorker
    {
      assert Holds(ws, w, a);
    }
    forall v, w, a | Holds(ws', v, a) && Holds(ws', w, a) ensures v == w {
      assert Holds(ws, v, a) && Holds(ws, w, a);
    }
    forall a | a in ctxs && ctxs[a].inWorker ensures exists w :: Holds(ws', w, a) {
      var w :| Holds(ws, w, a);
      assert Holds(ws', w, a);
    }
  }

  lemma WakeFrame(p: Pool, q: Pool)
    requires WakeInv(p) && q.wake == p.wake && q.workers.Keys == p.workers.Keys
    requires forall w :: w in p.workers ==>
               && q.workers[w].inWaitMsg == p.workers[w].inWaitMsg && q.workers[w].kind == p.workers[w].kind
               && q.workers[w].box.recv == p.workers[w].box.recv && q.workers[w].box.runSize == p.workers[w].box.runSize
    ensures WakeInv(q)
  {
    forall w | w in q.workers ensures MailFlagged(q.workers[w], w in q.wake) {
      assert MailFlagged(p.workers[w], w in p.wake);
    }
  }

  lemma VisitedFrame(p: Pool, q: Pool, i: nat)
    requires i <= |p.wake| && VisitedHaveControl(p, i) && q.wake == p.wake && q.workers.Keys == p.workers.Keys
    requires forall w :: w in p.workers ==> q.workers[w].owner == p.workers[w].owner
    ensures VisitedHaveControl(q, i)
  {
    forall j | 0 <= j < i ensures q.wake[j] in q.workers && q.workers[q.wake[j]].owner == Worker {
      assert p.wake[j] in p.workers;
    }
  }

  /** One worker thread moves: its context, its place and possibly one more notification change. */
  ghost function Moved(s: Sys, w: string, ctx: WorkerCtx, pc: Pc, evs: seq<string>): Sys
  {
    SetWorker(s, w, ctx).(pc := s.pc[w := pc], evs := evs)
  }

  lemma LinkMoved(s: Sys, w: string, ctx: WorkerCtx, pc: Pc, evs: seq<string>)
    requires LinkInv(s) && w in s.core.pool.workers && (evs == s.evs || evs == s.evs + [w])
    requires LinkOk(ctx, pc, w in s.core.pool.idle, multiset(evs)[w] + multiset(s.batch)[w])
    ensures LinkInv(Moved(s, w, ctx, pc, evs))
  {
    var t := Moved(s, w, ctx, pc, evs);
    hide LinkOk;
    forall v | v in t.core.pool.workers
      ensures LinkOk(t.core.pool.workers[v], t.pc[v], v in t.core.pool.idle, Events(t, v))
    {
      assert LinkOk(s.core.pool.workers[v], s.pc[v], v in s.core.pool.idle, Events(s, v));
      assert v != w ==> multiset(evs)[v] == multiset(s.evs)[v];
    }
  }

  lemma WorkMoved(s: Sys, w: string, ctx: WorkerCtx, pc: Pc, evs: seq<string>)
    requires WorkInv(s) && w in s.core.pool.workers && WorkOk(s.core.ready.ctxs, ctx, pc)
    ensures WorkInv(Moved(s, w, ctx, pc, evs))
  {
    hide WorkOk;
  }

  /** What a worker thread never changes about its context. */
  ghost predicate SameStanding(a: WorkerCtx, b: WorkerCtx)
  {
    && a.kind == b.kind && a.context == b.context && a.owner == b.owner && a.inWaitMsg == b.inWaitMsg
    && a.box.recv == b.box.recv && a.box.runSize == b.box.runSize && a.box.pendingSize == b.box.pendingSize
  }

  lemma MainMoved(s: Sys, w: string, ctx: WorkerCtx, pc: Pc, evs: seq<string>)
    requires MainInv(s) && w in s.core.pool.workers && SameStanding(s.core.pool.workers[w], ctx)
    ensures MainInv(Moved(s, w, ctx, pc, evs))
  {
    var t := Moved(s, w, ctx, pc, evs);
    match s.main
    case Waking(i) => VisitedFrame(s.core.pool, t.core.pool, i);
    case Assigning => VisitedFrame(s.core.pool, t.core.pool, |s.core.pool.wake|);
    case Polling => VisitedFrame(s.core.pool, t.core.pool, |s.core.pool.wake|);
    case Processing =>
  }

  lemma StandingMoved(s: Sys, w: string, ctx: WorkerCtx, pc: Pc, evs: seq<string>, log: map<string, UserLog>)
    requires Inv(s) && w in s.core.pool.workers && SameStanding(s.core.pool.workers[w], ctx)
    requires LinkInv(Moved(s, w, ctx, pc, evs)) && WorkInv(Moved(s, w, ctx, pc, evs))
    requires MainInv(Moved(s, w, ctx, pc, evs))
    requires UserInv(s.core.pool.workers[w := ctx], log)
    ensures Inv(Moved(s, w, ctx, pc, evs).(workerLog := log))
  {
    hide QueueInv, BoxInv, LinkInv, WorkInv, UserInv, MainInv;
    var t := Moved(s, w, ctx, pc, evs);
    var u := t.(workerLog := log);
    SerialFrame(s.core.ready.ctxs, s.core.pool.workers, t.core.pool.workers);
    WakeFrame(s.core.pool, t.core.pool);
    LinkSame(t, u);
    MainSame(t, u);
  }

  lemma UserUpdated(ws: map<string, WorkerCtx>, log: map<string, UserLog>, w: string, ctx: WorkerCtx, l: UserLog)
    requires UserInv(ws, log) && w in ws && ctx.kind == ws[w].kind && (ctx.kind == User ==> UserOk(ctx, l))
    ensures UserInv(ws[w := ctx], log[w := l])
  {
    hide UserOk;
  }

  lemma UserMoved(ws: map<string, WorkerCtx>, log: map<string, UserLog>, w: string, ctx: WorkerCtx)
    requires UserInv(ws, log) && w in ws && ctx.kind == ws[w].kind && (ctx.kind == User ==> UserOk(ctx, log[w]))
    ensures UserInv(ws[w := ctx], log)
  {
    hide UserOk;
  }

  /** Sending, and reading or losing a reply, leave a user worker's queues as its history says. */
  lemma UserSame(w: WorkerCtx, v: WorkerCtx, l: UserLog)
    requires UserOk(w, l) && v.box.(send := []) == w.box.(send := []) && v.inWaitMsg == w.inWaitMsg
    requires v.chan.sent == w.chan.sent && (v.chan.toOwner == w.chan.toOwner || v.chan.toOwner == [])
    ensures UserOk(v, l)
  {
    MailIrrelevant(l, w.box, v.box);
    hide Accounts, Explains, Ordered, Increasing;
  }

  lemma MailIrrelevant(l: UserLog, b: Box, c: Box)
    requires b.(send := []) == c.(send := [])
    ensures Accounts(l.mail, b) ==> Accounts(l.mail, c)
    ensures Ordered(l.mail, l.order, b) ==> Ordered(l.mail, l.order, c)
    ensures Explains(l.mail, b) ==> Explains(l.mail, c)
  {
    hide Fair, Survivors, Pick, Distinct;
  }

  lemma UserReports(w: WorkerCtx, l: UserLog, cmd: Cmd)
    requires UserOk(w, l) && w.chan.toOwner == []
    ensures UserOk(w.(chan := ToMain(w.chan, cmd)), UserReported(l, cmd, w.box))
  {
    hide Accounts, Explains, Ordered, Increasing;
  }

  lemma UserPops(w: WorkerCtx, l: UserLog)
    requires UserOk(w, l) && w.chan.toOwner == [] && w.box.run != []
    ensures UserOk(w.(box := w.box.(run := w.box.run[1..])), UserHandled(l, w.box))
  {
    hide Accounts, Explains, Ordered, Increasing, Handled;
    HandleAccounts(l.mail, w.box);
    OrderedHandled(l.mail, l.order, w.box);
    if !l.spliced {
      HandleExplained(l.mail, w.box);
    }
  }

  lemma SendIrrelevant(h: History, b: Box, c: Box)
    requires Explains(h, b) && b.(send := []) == c.(send := [])
    ensures Explains(h, c)
  {
  }

  lemma UserAt(s: Sys, w: string)
    requires UserInv(s.core.pool.workers, s.workerLog) && w in s.core.pool.workers
    ensures w in s.workerLog
    ensures s.core.pool.workers[w].kind == User ==> UserOk(s.core.pool.workers[w], s.workerLog[w])
  {
    hide UserOk;
  }

  lemma ReportKeeps(s: Sys, w: string, cmd: Cmd)
    requires Inv(s) && Enabled(s, Report(w, cmd))
    ensures Inv(After(s, Report(w, cmd)))
  {
    hide QueueInv, BoxInv, SerialInv, WakeInv, UserInv, MainInv, Session;
    UserAt(s, w);
    var ctx := s.core.pool.workers[w];
    var ctx' := ctx.(chan := ToMain(ctx.chan, cmd));
    var l := UserReported(s.workerLog[w], cmd, ctx.box);
    assert After(s, Report(w, cmd)) == Moved(s, w, ctx', Pushed, s.evs).(workerLog := s.workerLog[w := l]);
    assert WorkOk(s.core.ready.ctxs, ctx', Pushed);
    assert LinkOk(ctx, Running, w in s.core.pool.idle, Events(s, w));
    if ctx.kind == User {
      UserReports(ctx, s.workerLog[w], cmd);
    }
    hide UserOk, WaitReported;
    ReportLink(ctx, cmd, w in s.core.pool.idle, Events(s, w));
    hide LinkOk, LinkInv, WorkInv, WorkOk, After, Enabled;
    LinkMoved(s, w, ctx', Pushed, s.evs);
    WorkMoved(s, w, ctx', Pushed, s.evs);
    MainMoved(s, w, ctx', Pushed, s.evs);
    UserUpdated(s.core.pool.workers, s.workerLog, w, ctx', l);
    StandingMoved(s, w, ctx', Pushed, s.evs, s.workerLog[w := l]);
  }

  lemma ReportLink(ctx: WorkerCtx, cmd: Cmd, idle: bool, events: nat)
    requires LinkOk(ctx, Running, idle, events)
    requires cmd == Idle || (cmd == WaitForMsg && ctx.kind == User)
    ensures LinkOk(ctx.(chan := ToMain(ctx.chan, cmd)), Pushed, idle, events)
  {
    SessionReport(ctx.chan.sent, cmd);
  }

  /** A worker thread's own move keeps the invariant if its link, its work and its mail stay in order. */
  lemma WorkerMoves(s: Sys, w: string, ctx: WorkerCtx, pc: Pc, evs: seq<string>)
    requires Inv(s) && w in s.core.pool.workers && w in s.workerLog && SameStanding(s.core.pool.workers[w], ctx)
    requires evs == s.evs || evs == s.evs + [w]
    requires LinkOk(ctx, pc, w in s.core.pool.idle, multiset(evs)[w] + multiset(s.batch)[w])
    requires WorkOk(s.core.ready.ctxs, ctx, pc) && (ctx.kind == User ==> UserOk(ctx, s.workerLog[w]))
    ensures Inv(Moved(s, w, ctx, pc, evs))
  {
    hide QueueInv, BoxInv, SerialInv, WakeInv, UserInv, MainInv, LinkInv, WorkInv, LinkOk, WorkOk, UserOk;
    LinkMoved(s, w, ctx, pc, evs);
    WorkMoved(s, w, ctx, pc, evs);
    MainMoved(s, w, ctx, pc, evs);
    UserMoved(s.core.pool.workers, s.workerLog, w, ctx);
    StandingMoved(s, w, ctx, pc, evs, s.workerLog);
  }

  lemma NotifyKeeps(s: Sys, w: string)
    requires Inv(s) && Enabled(s, Notify(w))
    ensures Inv(After(s, Notify(w)))
  {
    hide QueueInv, BoxInv, SerialInv, WakeInv, UserInv, MainInv, Session;
    assert w in s.core.pool.workers;
    UserAt(s, w);
    hide UserOk;
    var ctx := s.core.pool.workers[w];
    var evs := s.evs + [w];
    assert After(s, Notify(w)) == Moved(s, w, ctx, Blocked, evs);
    assert LinkOk(ctx, Pushed, w in s.core.pool.idle, Events(s, w));
    assert multiset(evs)[w] == multiset(s.evs)[w] + 1;
    assert LinkOk(ctx, Blocked, w in s.core.pool.idle, multiset(evs)[w] + multiset(s.batch)[w]);
    assert WorkOk(s.core.ready.ctxs, ctx, Blocked);
    hide LinkOk, LinkInv, WorkInv, WorkOk, After, Enabled, Inv;
    WorkerMoves(s, w, ctx, Blocked, evs);
  }

  lemma ResumeLink(ctx: WorkerCtx, idle: bool, events: nat)
    requires LinkOk(ctx, Blocked, idle, events) && ctx.chan.toOwner != []
    ensures LinkOk(ctx.(chan := ctx.chan.(toOwner := ctx.chan.toOwner[1..])), Running, idle, events)
  {
  }

  lemma ResumeKeeps(s: Sys, w: string)
    requires Inv(s) && Enabled(s, Resume(w))
    ensures Inv(After(s, Resume(w)))
  {
    hide QueueInv, BoxInv, SerialInv, WakeInv, UserInv, MainInv, Session;
    var ctx := s.core.pool.workers[w];
    var ctx' := ctx.(chan := ctx.chan.(toOwner := ctx.chan.toOwner[1..]));
    assert After(s, Resume(w)) == Moved(s, w, ctx', Running, s.evs);
    assert LinkOk(ctx, Blocked, w in s.core.pool.idle, Events(s, w));
    ResumeLink(ctx, w in s.core.pool.idle, Events(s, w));
    UserAt(s, w);
    if ctx.kind == User {
      UserSame(ctx, ctx', s.workerLog[w]);
    }
    hide UserOk;
    assert WorkOk(s.core.ready.ctxs, ctx, Blocked);
    assert WorkOk(s.core.ready.ctxs, ctx', Running);
    hide LinkOk, LinkInv, WorkInv, WorkOk, After, Enabled, Inv;
    WorkerMoves(s, w, ctx', Running, s.evs);
  }

  lemma UserSendKeeps(s: Sys, w: string, sends: seq<Msg>)
    requires Inv(s) && Enabled(s, UserSend(w, sends))
    ensures Inv(After(s, UserSend(w, sends)))
  {
    hide QueueInv, BoxInv, SerialInv, WakeInv, UserInv, MainInv, Session;
    var ctx := s.core.pool.workers[w];
    var ctx' := ctx.(box := ctx.box.(send := ctx.box.send + sends));
    assert After(s, UserSend(w, sends)) == Moved(s, w, ctx', Running, s.evs);
    UserAt(s, w);
    if ctx.kind == User {
      UserSame(ctx, ctx', s.workerLog[w]);
    }
    hide UserOk;
    assert LinkOk(ctx, Running, w in s.core.pool.idle, Events(s, w));
    assert LinkOk(ctx', Running, w in s.core.pool.idle, Events(s, w));
    assert WorkOk(s.core.ready.ctxs, ctx', Running);
    hide LinkOk, LinkInv, WorkInv, WorkOk, After, Enabled, Inv;
    WorkerMoves(s, w, ctx', Running, s.evs);
  }

  lemma UserPopKeeps(s: Sys, w: string)
    requires Inv(s) && Enabled(s, UserPop(w))
    ensures Inv(After(s, UserPop(w)))
  {
    hide QueueInv, BoxInv, SerialInv, WakeInv, UserInv, MainInv, Session;
    UserAt(s, w);
    var ctx := s.core.pool.workers[w];
    var ctx' := ctx.(box := ctx.box.(run := ctx.box.run[1..]));
    var l := UserHandled(s.workerLog[w], ctx.box);
    assert After(s, UserPop(w)) == Moved(s, w, ctx', Running, s.evs).(workerLog := s.workerLog[w := l]);
    UserPops(ctx, s.workerLog[w]);
    hide UserOk, UserHandled, Moved;
    assert LinkOk(ctx, Running, w in s.core.pool.idle, Events(s, w));
    assert LinkOk(ctx', Running, w in s.core.pool.idle, Events(s, w));
    assert WorkOk(s.core.ready.ctxs, ctx', Running);
    hide LinkOk, WorkOk, After, Enabled;
    assert UserInv(s.core.pool.workers[w := ctx'], s.workerLog[w := l]) by {
      UserUpdated(s.core.pool.workers, s.workerLog, w, ctx', l);
    }
    LinkMoved(s, w, ctx', Running, s.evs);
    WorkMoved(s, w, ctx', Running, s.evs);
    MainMoved(s, w, ctx', Running, s.evs);
    hide Inv, LinkInv, WorkInv;
    StandingMoved(s, w, ctx', Running, s.evs, s.workerLog[w := l]);
  }

  lemma MainSame(s: Sys, t: Sys)
    requires MainInv(s) && WorkInv(s)
    requires t.core == s.core && t.pc == s.pc && t.main == s.main && t.batch == s.batch
    ensures MainInv(t) && WorkInv(t)
  {
  }

  // ---- A common worker handles one message of its actor ------------------------------------------

  ghost function ActorMoved(s: Sys, a: string, actor: Actor, log: map<string, History>): Sys
  {
    s.(core := s.core.(ready := s.core.ready.(ctxs := s.core.ready.ctxs[a := actor])), actorLog := log)
  }

  /** What handling a message never changes about an actor. */
  ghost predicate SameQueueing(a: Actor, b: Actor)
  {
    a.inWorker == b.inWorker && a.inWaitQue == b.inWaitQue && a.box.recv == b.box.recv
  }

  lemma QueueMoved(r: Ready, a: string, actor: Actor)
    requires QueueInv(r) && a in r.ctxs && SameQueueing(r.ctxs[a], actor)
    ensures QueueInv(r.(ctxs := r.ctxs[a := actor]))
  {
    forall b | b in r.ctxs ensures Queued(r.ctxs[a := actor][b], b in r.wait) {
      assert Queued(r.ctxs[b], b in r.wait);
    }
  }

  lemma SerialActorMoved(ctxs: map<string, Actor>, ws: map<string, WorkerCtx>, a: string, actor: Actor)
    requires SerialInv(ctxs, ws) && a in ctxs && actor.inWorker == ctxs[a].inWorker
    ensures SerialInv(ctxs[a := actor], ws)
  {
  }

  lemma MainActorMoved(s: Sys, a: string, actor: Actor, log: map<string, History>)
    requires MainInv(s) && a in s.core.ready.ctxs && actor.inWorker == s.core.ready.ctxs[a].inWorker
    ensures MainInv(ActorMoved(s, a, actor, log))
  {
  }

  lemma LinkSame(s: Sys, t: Sys)
    requires LinkInv(s) && t.core.pool == s.core.pool && t.pc == s.pc && t.evs == s.evs && t.batch == s.batch
    ensures LinkInv(t)
  {
    hide LinkOk;
    forall v | v in t.core.pool.workers
      ensures LinkOk(t.core.pool.workers[v], t.pc[v], v in t.core.pool.idle, Events(t, v))
    {
      assert LinkOk(s.core.pool.workers[v], s.pc[v], v in s.core.pool.idle, Events(s, v));
    }
  }

  /** Only the worker that holds an actor can see its run queue shrink, and that worker has nothing reported. */
  lemma WorkActorMoved(s: Sys, w: string, a: string, actor: Actor, log: map<string, History>)
    requires WorkInv(s) && LinkInv(s) && SerialInv(s.core.ready.ctxs, s.core.pool.workers)
    requires Holds(s.core.pool.workers, w, a) && w in s.pc && s.pc[w] == Running
    ensures WorkInv(ActorMoved(s, a, actor, log))
  {
    var t := ActorMoved(s, a, actor, log);
    forall v | v in t.core.pool.workers && v in t.pc
      ensures WorkOk(t.core.ready.ctxs, t.core.pool.workers[v], t.pc[v])
    {
      var ctx := s.core.pool.workers[v];
      assert WorkOk(s.core.ready.ctxs, ctx, s.pc[v]);
      if ctx.context == Some(a) {
        assert Holds(s.core.pool.workers, v, a);
        assert LinkOk(ctx, s.pc[v], v in s.core.pool.idle, Events(s, v));
      }
    }
  }

  lemma BoxHandled(r: Ready, log: map<string, History>, a: string, sends: seq<Msg>)
    requires BoxInv(r, log) && a in r.ctxs && r.ctxs[a].inWorker && r.ctxs[a].box.run != []
    ensures var b := r.ctxs[a].box;
            BoxInv(r.(ctxs := r.ctxs[a := r.ctxs[a].(box := b.(run := b.run[1..], send := b.send + sends))]),
                   LogHandled(log, a, b))
  {
    var b := r.ctxs[a].box;
    assert BoxOk(r.ctxs[a], log[a]);
    hide Explains;
    HandleExplained(log[a], b);
    SendIrrelevant(Handled(log[a], b), b.(run := b.run[1..]), b.(run := b.run[1..], send := b.send + sends));
  }

  lemma HandleKeeps(s: Sys, w: string, sends: seq<Msg>)
    requires Inv(s) && Enabled(s, Handle(w, sends))
    ensures Inv(After(s, Handle(w, sends)))
  {
    var a := s.core.pool.workers[w].context.value;
    var actor := s.core.ready.ctxs[a];
    var b := actor.box;
    var actor' := actor.(box := b.(run := b.run[1..], send := b.send + sends));
    var log := LogHandled(s.actorLog, a, b);
    var t := ActorMoved(s, a, actor', log);
    assert After(s, Handle(w, sends)) == t;
    assert Holds(s.core.pool.workers, w, a);
    hide QueueInv, BoxInv, LinkInv, WorkInv, MainInv, UserInv, WakeInv, After;
    BoxHandled(s.core.ready, s.actorLog, a, sends);
    QueueMoved(s.core.ready, a, actor');
    SerialActorMoved(s.core.ready.ctxs, s.core.pool.workers, a, actor');
    WorkActorMoved(s, w, a, actor', log);
    MainActorMoved(s, a, actor', log);
    LinkSame(s, t);
  }
}
