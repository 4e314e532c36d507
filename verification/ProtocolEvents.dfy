/** Delivering messages and handling a worker's report keep the invariant of the running phase. */
module ProtocolEvents {
  import opened Basics
  import opened Messages
  import opened Mailboxes
  import opened ActorContexts
  import opened WorkerContexts
  import opened Routing
  import opened Scheduler
  import opened Protocol
  import opened ProtocolWorkerSteps
  import opened ProtocolMainSteps

  /** The part of the invariant that speaks of mail. */
  ghost predicate MailInv(s: Sys)
  {
    && QueueInv(s.core.ready)
    && BoxInv(s.core.ready, s.actorLog)
    && WakeInv(s.core.pool)
    && UserInv(s.core.pool.workers, s.workerLog)
  }

  ghost predicate SameButMail(a: Actor, b: Actor)
  {
    b == a.(box := a.box.(recv := b.box.recv), inWaitQue := b.inWaitQue)
  }

  ghost predicate SameWorkerButMail(a: WorkerCtx, b: WorkerCtx)
  {
    b == a.(box := a.box.(recv := b.box.recv), inWaitMsg := b.inWaitMsg)
  }

  /** From s to t nothing changes but pending mail and its flags. */
  ghost predicate OnlyMail(s: Sys, t: Sys)
  {
    && t.pc == s.pc && t.main == s.main && t.evs == s.evs && t.batch == s.batch
    && t.core.pool.idle == s.core.pool.idle
    && t.core.ready.ctxs.Keys == s.core.ready.ctxs.Keys
    && t.core.pool.workers.Keys == s.core.pool.workers.Keys
    && (forall a :: a in s.core.ready.ctxs ==> SameButMail(s.core.ready.ctxs[a], t.core.ready.ctxs[a]))
    && (forall w :: w in s.core.pool.workers ==> SameWorkerButMail(s.core.pool.workers[w], t.core.pool.workers[w]))
  }

  lemma UniqueSnoc(s: seq<string>, x: string)
    requires Unique(s) && x !in s
    ensures Unique(s + [x])
  {
    assert multiset(s + [x]) == multiset(s) + multiset{x};
  }

  lemma QueuePosted(r: Ready, m: Msg, a: string)
    requires QueueInv(r) && a in r.ctxs
    ensures QueueInv(Posted(r, m, a))
  {
    var q := Posted(r, m, a);
    if !r.ctxs[a].inWaitQue {
      assert Queued(r.ctxs[a], a in r.wait);
      UniqueSnoc(r.wait, a);
    }
    hide Unique;
    forall b | b in q.ctxs ensures Queued(q.ctxs[b], b in q.wait) {
      assert Queued(r.ctxs[b], b in r.wait);
    }
  }

  lemma KeepsRun(b: Box, m: Msg)
    ensures Receive(b, m) == b.(recv := Receive(b, m).recv)
  {
  }

  lemma BoxPosted(r: Ready, log: map<string, History>, m: Msg, a: string)
    requires BoxInv(r, log) && a in r.ctxs
    ensures BoxInv(Posted(r, m, a), log[a := Delivered(log[a], r.ctxs[a].box, m)])
  {
    hide Explains, Delivered, Receive;
    assert BoxOk(r.ctxs[a], log[a]);
    DeliverExplained(log[a], r.ctxs[a].box, m);
    assert Receive(r.ctxs[a].box, m) == Posted(r, m, a).ctxs[a].box;
    KeepsRun(r.ctxs[a].box, m);
  }

  lemma UserGets(w: WorkerCtx, l: UserLog, m: Msg)
    requires UserOk(w, l)
    ensures UserOk(w.(box := Receive(w.box, m), inWaitMsg := true), l.(mail := Delivered(l.mail, w.box, m)))
  {
    DeliverAccounts(l.mail, w.box, m);
    assert Books(l.mail, w.box);
    OrderedDelivered(l.mail, l.order, w.box, m);
    if !l.spliced {
      DeliverExplained(l.mail, w.box, m);
    }
    KeepsRun(w.box, m);
    hide Accounts, Explains, Ordered, Increasing, Delivered, Receive;
  }

  lemma UserPosted(p: Pool, log: map<string, UserLog>, m: Msg, w: string)
    requires UserInv(p.workers, log) && w in p.workers && p.workers[w].kind == User
    ensures UserInv(PostedToWorker(p, m, w).workers,
                    log[w := log[w].(mail := Delivered(log[w].mail, p.workers[w].box, m))])
  {
    UserGets(p.workers[w], log[w], m);
    hide UserOk;
    var ctx := p.workers[w].(box := Receive(p.workers[w].box, m), inWaitMsg := true);
    assert PostedToWorker(p, m, w).workers == p.workers[w := ctx];
    UserUpdated(p.workers, log, w, ctx, log[w].(mail := Delivered(log[w].mail, p.workers[w].box, m)));
  }

  lemma DeliverOneKeepsMail(s: Sys, d: Delivery)
    requires MailInv(s)
    ensures MailInv(SysDeliverOne(s, d)) && OnlyMail(s, SysDeliverOne(s, d))
  {
    hide QueueInv, BoxInv, UserInv, WakeInv;
    match d
    case ToActor(a, m) =>
      if ActorTarget(s.core, d).Some? {
        var x := ActorTarget(s.core, d).value;
        QueuePosted(s.core.ready, m, x);
        BoxPosted(s.core.ready, s.actorLog, m, x);
        assert x in s.actorLog by { BoxKeys(s.core.ready, s.actorLog); }
      }
    case ToWorker(w, m) =>
      if WorkerTarget(s.core, d).Some? {
        var x := WorkerTarget(s.core, d).value;
        PostKeepsWakeInv(s.core.pool, m, x);
        UserPosted(s.core.pool, s.workerLog, m, x);
        assert x in s.workerLog by { UserKeys(s.core.pool.workers, s.workerLog); }
      }
  }

  lemma BoxKeys(r: Ready, log: map<string, History>)
    requires BoxInv(r, log)
    ensures log.Keys == r.ctxs.Keys
  {
  }

  lemma UserKeys(ws: map<string, WorkerCtx>, log: map<string, UserLog>)
    requires UserInv(ws, log)
    ensures log.Keys == ws.Keys
  {
  }

  lemma {:induction false} DeliverKeepsMail(s: Sys, ds: seq<Delivery>)
    requires MailInv(s)
    ensures MailInv(SysDeliver(s, ds)) && OnlyMail(s, SysDeliver(s, ds))
    decreases |ds|
  {
    if ds == [] {
    } else {
      var t := SysDeliverOne(s, ds[0]);
      DeliverOneKeepsMail(s, ds[0]);
      DeliverKeepsMail(t, ds[1..]);
      hide MailInv, SysDeliverOne;
      OnlyMailTwice(s, t, SysDeliver(t, ds[1..]));
    }
  }

  lemma OnlyMailTwice(s: Sys, t: Sys, u: Sys)
    requires OnlyMail(s, t) && OnlyMail(t, u)
    ensures OnlyMail(s, u)
  {
    forall a | a in s.core.ready.ctxs ensures SameButMail(s.core.ready.ctxs[a], u.core.ready.ctxs[a]) {
      assert SameButMail(s.core.ready.ctxs[a], t.core.ready.ctxs[a]);
      assert SameButMail(t.core.ready.ctxs[a], u.core.ready.ctxs[a]);
    }
    forall w | w in s.core.pool.workers
      ensures SameWorkerButMail(s.core.pool.workers[w], u.core.pool.workers[w])
    {
      assert SameWorkerButMail(s.core.pool.workers[w], t.core.pool.workers[w]);
      assert SameWorkerButMail(t.core.pool.workers[w], u.core.pool.workers[w]);
    }
  }

  lemma SerialOnlyMail(s: Sys, t: Sys)
    requires OnlyMail(s, t) && SerialInv(s.core.ready.ctxs, s.core.pool.workers)
    ensures SerialInv(t.core.ready.ctxs, t.core.pool.workers)
  {
    var ctxs, ws := s.core.ready.ctxs, s.core.pool.workers;
    var ctxs', ws' := t.core.ready.ctxs, t.core.pool.workers;
    assert forall w :: w in ws ==> SameWorkerButMail(ws[w], ws'[w]);
    SerialFrame(ctxs, ws, ws');
    assert forall a :: a in ctxs ==> SameButMail(ctxs[a], ctxs'[a]);
  }

  lemma LinkOnlyMail(s: Sys, t: Sys)
    requires OnlyMail(s, t) && LinkInv(s)
    ensures LinkInv(t)
  {
    forall v | v in t.core.pool.workers
      ensures LinkOk(t.core.pool.workers[v], t.pc[v], v in t.core.pool.idle, Events(t, v))
    {
      assert LinkOk(s.core.pool.workers[v], s.pc[v], v in s.core.pool.idle, Events(s, v));
      assert SameWorkerButMail(s.core.pool.workers[v], t.core.pool.workers[v]);
    }
  }

  lemma WorkOnlyMail(s: Sys, t: Sys)
    requires OnlyMail(s, t) && WorkInv(s)
    ensures WorkInv(t)
  {
    forall v | v in t.core.pool.workers && v in t.pc
      ensures WorkOk(t.core.ready.ctxs, t.core.pool.workers[v], t.pc[v])
    {
      assert WorkOk(s.core.ready.ctxs, s.core.pool.workers[v], s.pc[v]);
      assert SameWorkerButMail(s.core.pool.workers[v], t.core.pool.workers[v]);
      var c := s.core.pool.workers[v].context;
      assert c.Some? && c.value in s.core.ready.ctxs ==>
          SameButMail(s.core.ready.ctxs[c.value], t.core.ready.ctxs[c.value]);
    }
  }

  lemma InjectKeeps(s: Sys, ds: seq<Delivery>)
    requires Inv(s) && Enabled(s, MainInject(ds))
    ensures Inv(After(s, MainInject(ds)))
  {
    var t := SysDeliver(s, ds);
    DeliverKeepsMail(s, ds);
    hide QueueInv, BoxInv, UserInv, WakeInv, SerialInv, LinkInv, WorkInv, SysDeliver;
    SerialOnlyMail(s, t);
    LinkOnlyMail(s, t);
    WorkOnlyMail(s, t);
  }

  // ---- A worker's report -------------------------------------------------------------------------

  lemma QueueReleased(r: Ready, a: string)
    requires QueueInv(r) && a in r.ctxs
    ensures QueueInv(r.(ctxs := r.ctxs[a := r.ctxs[a].(inWorker := false, box := r.ctxs[a].box.(send := []))]))
  {
    var q := r.(ctxs := r.ctxs[a := r.ctxs[a].(inWorker := false, box := r.ctxs[a].box.(send := []))]);
    hide Unique;
    forall b | b in q.ctxs ensures Queued(q.ctxs[b], b in q.wait) {
      assert Queued(r.ctxs[b], b in r.wait);
    }
  }

  lemma BoxReleased(r: Ready, log: map<string, History>, a: string)
    requires BoxInv(r, log) && a in r.ctxs && r.ctxs[a].box.run == []
    ensures BoxInv(r.(ctxs := r.ctxs[a := r.ctxs[a].(inWorker := false, box := r.ctxs[a].box.(send := []))]), log)
  {
    assert BoxOk(r.ctxs[a], log[a]);
    SendIrrelevant(log[a], r.ctxs[a].box, r.ctxs[a].box.(send := []));
    hide Explains;
  }

  lemma UserSendsTaken(s: Sys, w: string)
    requires MailInv(s) && w in s.core.pool.workers && s.core.pool.workers[w].kind != Common
    ensures MailInv(s.(core := SendsTaken(s.core, w)))
  {
    hide QueueInv, BoxInv, UserInv, WakeInv;
    var ctx := s.core.pool.workers[w];
    var ctx' := ctx.(box := ctx.box.(send := []));
    UserAt(s, w);
    if ctx.kind == User {
      UserSame(ctx, ctx', s.workerLog[w]);
    }
    hide UserOk;
    UserMoved(s.core.pool.workers, s.workerLog, w, ctx');
    WakeFrame(s.core.pool, s.core.pool.(workers := s.core.pool.workers[w := ctx']));
  }

  lemma ActorSendsTaken(s: Sys, w: string, a: string)
    requires MailInv(s) && w in s.core.pool.workers && s.core.pool.workers[w].kind == Common
    requires s.core.pool.workers[w].context == Some(a) && a in s.core.ready.ctxs && s.core.ready.ctxs[a].box.run == []
    ensures MailInv(s.(core := SendsTaken(s.core, w)))
  {
    hide QueueInv, BoxInv, UserInv, WakeInv;
    QueueReleased(s.core.ready, a);
    BoxReleased(s.core.ready, s.actorLog, a);
  }

  /** The sender's messages are taken only when its actor has nothing left to handle. */
  lemma SendsTakenKeepsMail(s: Sys, w: string)
    requires Inv(s) && w in s.core.pool.workers && s.core.pool.workers[w].chan.toMain != []
    ensures MailInv(s.(core := SendsTaken(s.core, w)))
  {
    var ctx := s.core.pool.workers[w];
    hide QueueInv, BoxInv, UserInv, WakeInv, LinkInv, SerialInv, MainInv;
    if ctx.kind != Common {
      UserSendsTaken(s, w);
    } else if ctx.context.Some? && ctx.context.value in s.core.ready.ctxs {
      assert w in s.pc by { LinkKeys(s); }
      assert WorkOk(s.core.ready.ctxs, ctx, s.pc[w]);
      ActorSendsTaken(s, w, ctx.context.value);
    }
  }

  lemma LinkKeys(s: Sys)
    requires LinkInv(s)
    ensures s.pc.Keys == s.core.pool.workers.Keys
  {
  }

  /** Taking the sends touches no channel, no context and no run queue. */
  lemma SendsTakenFrame(c: Core, w: string)
    requires w in c.pool.workers
    ensures var d := SendsTaken(c, w);
            && d.pool.idle == c.pool.idle && d.pool.wake == c.pool.wake
            && d.pool.workers.Keys == c.pool.workers.Keys && d.ready.ctxs.Keys == c.ready.ctxs.Keys
            && (forall v :: v in c.pool.workers ==>
                  d.pool.workers[v] == c.pool.workers[v].(box := d.pool.workers[v].box))
            && (forall a :: a in c.ready.ctxs ==>
                  && d.ready.ctxs[a].box.run == c.ready.ctxs[a].box.run
                  && (c.pool.workers[w].kind == Common ==>
                       (d.ready.ctxs[a].inWorker <==>
                          c.ready.ctxs[a].inWorker && c.pool.workers[w].context != Some(a))))
            && (c.pool.workers[w].kind != Common ==> d.ready == c.ready)
  {
  }

  lemma SendsTakenKeepsLinks(s: Sys, w: string)
    requires LinkInv(s) && WorkInv(s) && w in s.core.pool.workers
    ensures LinkInv(s.(core := SendsTaken(s.core, w))) && WorkInv(s.(core := SendsTaken(s.core, w)))
  {
    SendsTakenFrame(s.core, w);
    var t := s.(core := SendsTaken(s.core, w));
    hide SendsTaken;
    LinkSameChannels(s, t);
    forall v | v in t.core.pool.workers && v in t.pc
      ensures WorkOk(t.core.ready.ctxs, t.core.pool.workers[v], t.pc[v])
    {
      assert WorkOk(s.core.ready.ctxs, s.core.pool.workers[v], s.pc[v]);
    }
  }

  lemma LinkSameChannels(s: Sys, t: Sys)
    requires LinkInv(s) && t.core.pool.idle == s.core.pool.idle
    requires t.core.pool.workers.Keys == s.core.pool.workers.Keys
    requires t.pc == s.pc && t.evs == s.evs && t.batch == s.batch
    requires forall v :: v in s.core.pool.workers ==>
               t.core.pool.workers[v] == s.core.pool.workers[v].(box := t.core.pool.workers[v].box)
    ensures LinkInv(t)
  {
    forall v | v in t.core.pool.workers
      ensures LinkOk(t.core.pool.workers[v], t.pc[v], v in t.core.pool.idle, Events(t, v))
    {
      assert LinkOk(s.core.pool.workers[v], s.pc[v], v in s.core.pool.idle, Events(s, v));
    }
  }

  /** The reported command is the only one in flight and fits the kind of worker. */
  lemma ReportedOnly(s: Sys)
    requires LinkInv(s) && s.batch != []
    ensures var w := s.batch[0];
            && w in s.core.pool.workers && w in s.pc && w !in s.evs && w !in s.batch[1..] && w !in s.core.pool.idle
            && LinkOk(s.core.pool.workers[w], Blocked, false, 1) && s.pc[w] == Blocked
            && |s.core.pool.workers[w].chan.toMain| == 1
  {
    var w := s.batch[0];
    assert s.batch == [w] + s.batch[1..];
    MultisetFront(w, s.batch[1..]);
    assert w in s.batch;
    assert LinkOk(s.core.pool.workers[w], s.pc[w], w in s.core.pool.idle, Events(s, w));
    assert Events(s, w) == multiset(s.evs)[w] + 1 + multiset(s.batch[1..])[w];
  }

  /** The worker after its report has been answered. */
  ghost function AnsweredCtx(ctx: WorkerCtx): WorkerCtx
    requires ctx.chan.toMain != []
  {
    var p := Popped(ctx);
    if ctx.kind == Common then p.(context := None)
    else if ctx.chan.toMain[0] == WaitForMsg then p.(owner := Main)
    else p.(chan := ToOwner(p.chan, Run))
  }

  lemma AnsweredLink(ctx: WorkerCtx)
    requires LinkOk(ctx, Blocked, false, 1) && |ctx.chan.toMain| == 1
    ensures ctx.kind != User ==> ctx.chan.toMain[0] == Idle
    ensures ctx.chan.toMain[0] == Idle || ctx.chan.toMain[0] == WaitForMsg
    ensures LinkOk(AnsweredCtx(ctx), Blocked, ctx.kind == Common, 0)
  {
    assert InTurn(ctx.chan.sent, |ctx.chan.sent| - 1);
    SessionReply(ctx.chan.sent);
  }

  ghost function AnsweredFirst(s: Sys): Sys
    requires s.batch != [] && s.batch[0] in s.core.pool.workers
    requires s.core.pool.workers[s.batch[0]].chan.toMain != []
  {
    var w := s.batch[0];
    var ctx := s.core.pool.workers[w];
    s.(core := Answered(Updated(s.core, w, Popped(ctx)), w, ctx.chan.toMain[0]), batch := s.batch[1..])
  }

  lemma AnsweredIs(s: Sys)
    requires LinkInv(s) && s.batch != [] && s.batch[0] in s.core.pool.workers
    requires s.core.pool.workers[s.batch[0]].chan.toMain != []
    ensures var w := s.batch[0];
            var ctx := s.core.pool.workers[w];
            var p := s.core.pool;
            AnsweredFirst(s) == s.(batch := s.batch[1..], core := s.core.(pool := Pool(
              p.workers[w := AnsweredCtx(ctx)], if ctx.kind == Common then p.idle + [w] else p.idle, p.wake)))
  {
    hide LinkInv, LinkOk, Events;
    ReportedOnly(s);
    AnsweredLink(s.core.pool.workers[s.batch[0]]);
  }

  lemma EventsAfter(s: Sys, t: Sys, v: string)
    requires s.batch != [] && t.evs == s.evs && t.batch == s.batch[1..]
    ensures v != s.batch[0] ==> Events(t, v) == Events(s, v)
    ensures v !in t.evs && v !in t.batch ==> Events(t, v) == 0
  {
    assert s.batch == [s.batch[0]] + s.batch[1..];
    MultisetFront(s.batch[0], s.batch[1..]);
  }

  lemma AnswerKeepsLinks(s: Sys)
    requires LinkInv(s) && s.batch != [] && s.batch[0] in s.core.pool.workers
    requires s.core.pool.workers[s.batch[0]].chan.toMain != []
    ensures LinkInv(AnsweredFirst(s))
  {
    hide LinkOk, Unique, AnsweredFirst, AnsweredCtx, Answered, Events;
    var w, t := s.batch[0], AnsweredFirst(s);
    AnsweredIs(s);
    ReportedOnly(s);
    AnsweredLink(s.core.pool.workers[w]);
    if s.core.pool.workers[w].kind == Common {
      UniqueSnoc(s.core.pool.idle, w);
    }
    forall v | v in t.core.pool.workers
      ensures LinkOk(t.core.pool.workers[v], t.pc[v], v in t.core.pool.idle, Events(t, v))
    {
      EventsAfter(s, t, v);
      if v != w {
        assert LinkOk(s.core.pool.workers[v], s.pc[v], v in s.core.pool.idle, Events(s, v));
      }
    }
  }

  lemma UserAnswered(w: WorkerCtx, l: UserLog)
    requires UserOk(w, l) && LinkOk(w, Blocked, false, 1) && w.chan.toMain != [] && w.kind == User
    ensures UserOk(AnsweredCtx(w), l)
  {
    hide Accounts, Explains, Ordered, Increasing, Session;
  }

  lemma AnsweredKind(w: WorkerCtx)
    requires w.chan.toMain != []
    ensures AnsweredCtx(w).kind == w.kind
    ensures AnsweredCtx(w).box == w.box && AnsweredCtx(w).inWaitMsg == w.inWaitMsg
  {
  }

  lemma AnswerKeepsMail(s: Sys)
    requires MailInv(s) && LinkInv(s) && s.batch != [] && s.batch[0] in s.core.pool.workers
    requires s.core.pool.workers[s.batch[0]].chan.toMain != []
    ensures MailInv(AnsweredFirst(s))
  {
    hide QueueInv, BoxInv, WakeInv, UserInv, LinkInv, LinkOk, AnsweredFirst, Answered;
    var w, t := s.batch[0], AnsweredFirst(s);
    AnsweredIs(s);
    WakeFrame(s.core.pool, t.core.pool);
    ReportedOnly(s);
    UserAt(s, w);
    if s.core.pool.workers[w].kind == User {
      UserAnswered(s.core.pool.workers[w], s.workerLog[w]);
    }
    hide UserOk, AnsweredCtx;
    AnsweredKind(s.core.pool.workers[w]);
    UserMoved(s.core.pool.workers, s.workerLog, w, t.core.pool.workers[w]);
  }

  lemma AnswerKeepsWork(s: Sys)
    requires WorkInv(s) && LinkInv(s) && s.batch != [] && s.batch[0] in s.core.pool.workers
    requires s.core.pool.workers[s.batch[0]].chan.toMain != []
    ensures WorkInv(AnsweredFirst(s))
  {
    var w, t := s.batch[0], AnsweredFirst(s);
    AnsweredIs(s);
    ReportedOnly(s);
    hide LinkInv, AnsweredFirst;
    forall v | v in t.core.pool.workers && v in t.pc
      ensures WorkOk(t.core.ready.ctxs, t.core.pool.workers[v], t.pc[v])
    {
      assert WorkOk(s.core.ready.ctxs, s.core.pool.workers[v], s.pc[v]);
      if v == w && s.core.pool.workers[w].kind == Common {
        assert LinkOk(s.core.pool.workers[w], Blocked, false, 1);
      }
    }
  }

  /** The worker lets go of its actor and the actor's running flag goes down, together. */
  lemma SerialReleased(ctxs: map<string, Actor>, ws: map<string, WorkerCtx>, w: string,
                       ctxs': map<string, Actor>, ws': map<string, WorkerCtx>)
    requires SerialInv(ctxs, ws) && w in ws && ws'.Keys == ws.Keys && ctxs'.Keys == ctxs.Keys
    requires ws'[w].context == None
    requires forall v :: v in ws && v != w ==> ws'[v].context == ws[v].context && ws'[v].kind == ws[v].kind
    requires forall b :: b in ctxs ==> (ctxs'[b].inWorker <==> ctxs[b].inWorker && ws[w].context != Some(b))
    ensures SerialInv(ctxs', ws')
  {
    forall v, b | Holds(ws', v, b) ensures ws'[v].kind == Common && b in ctxs' && ctxs'[b].inWorker {
      assert Holds(ws, v, b);
      assert !Holds(ws, w, b);
    }
    forall u, v, b | Holds(ws', u, b) && Holds(ws', v, b) ensures u == v {
      assert Holds(ws, u, b) && Holds(ws, v, b);
    }
    forall b | b in ctxs' && ctxs'[b].inWorker ensures exists v :: Holds(ws', v, b) {
      var v :| Holds(ws, v, b);
      assert Holds(ws', v, b);
    }
  }

  lemma ProcessSerial(s: Sys, u: Sys)
    requires Inv(s) && s.batch != [] && s.batch[0] in s.core.pool.workers
    requires s.core.pool.workers[s.batch[0]].chan.toMain != []
    requires OnlyMail(s.(core := SendsTaken(s.core, s.batch[0])), u) && LinkInv(u)
    ensures u.batch == s.batch && u.batch[0] in u.core.pool.workers
    ensures u.core.pool.workers[u.batch[0]].chan.toMain != []
    ensures SerialInv(AnsweredFirst(u).core.ready.ctxs, AnsweredFirst(u).core.pool.workers)
  {
    hide Inv, LinkInv, SerialInv, SendsTaken, AnsweredFirst, Answered;
    var w := s.batch[0];
    var s1 := s.(core := SendsTaken(s.core, w));
    var ctxs, ws := s.core.ready.ctxs, s.core.pool.workers;
    SendsTakenFrame(s.core, w);
    assert SameWorkerButMail(s1.core.pool.workers[w], u.core.pool.workers[w]);
    AnsweredIs(u);
    SerialContexts(s, w);
    var t := AnsweredFirst(u);
    forall v | v in ws && v != w
      ensures t.core.pool.workers[v].context == ws[v].context && t.core.pool.workers[v].kind == ws[v].kind
    {
      assert SameWorkerButMail(s1.core.pool.workers[v], u.core.pool.workers[v]);
    }
    forall b | b in ctxs
      ensures t.core.ready.ctxs[b].inWorker <==> ctxs[b].inWorker && ws[w].context != Some(b)
    {
      assert SameButMail(s1.core.ready.ctxs[b], u.core.ready.ctxs[b]);
    }
    SerialReleased(ctxs, ws, w, t.core.ready.ctxs, t.core.pool.workers);
  }

  /** Only common workers hold actors. */
  lemma SerialContexts(s: Sys, w: string)
    requires Inv(s) && w in s.core.pool.workers
    ensures SerialInv(s.core.ready.ctxs, s.core.pool.workers)
    ensures s.core.pool.workers[w].kind != Common ==> s.core.pool.workers[w].context == None
  {
    var c := s.core.pool.workers[w].context;
    assert c.Some? ==> Holds(s.core.pool.workers, w, c.value);
  }

  lemma ProcessKeeps(s: Sys, ds: seq<Delivery>)
    requires Inv(s) && Enabled(s, MainProcess(ds))
    ensures Inv(After(s, MainProcess(ds)))
  {
    hide QueueInv, BoxInv, UserInv, WakeInv, SerialInv, LinkInv, WorkInv;
    if s.batch == [] {
      var t := s.(main := Waking(0));
      LinkSame(s, t);
      WorkSame(s, t);
    } else {
      var w := s.batch[0];
      var s1 := s.(core := SendsTaken(s.core, w));
      var s2 := SysDeliver(s1, ds);
      SysDeliverCore(s1, ds);
      DeliverKeepsWorkers(s1.core, ds, w);
      assert After(s, MainProcess(ds)) == AnsweredFirst(s2);
      ProcessedKeeps(s, s2, ds);
    }
  }

  lemma SentKeeps(s: Sys, ds: seq<Delivery>)
    requires Inv(s) && s.batch != [] && s.batch[0] in s.core.pool.workers
    requires s.core.pool.workers[s.batch[0]].chan.toMain != []
    ensures var s1 := s.(core := SendsTaken(s.core, s.batch[0]));
            var s2 := SysDeliver(s1, ds);
            OnlyMail(s1, s2) && MailInv(s2) && LinkInv(s2) && WorkInv(s2)
  {
    hide MailInv, OnlyMail, QueueInv, BoxInv, UserInv, WakeInv, SerialInv, LinkInv, WorkInv, MainInv, SysDeliver;
    var s1 := s.(core := SendsTaken(s.core, s.batch[0]));
    SendsTakenKeepsMail(s, s.batch[0]);
    SendsTakenKeepsLinks(s, s.batch[0]);
    hide SendsTaken;
    DeliverKeepsMail(s1, ds);
    LinkOnlyMail(s1, SysDeliver(s1, ds));
    WorkOnlyMail(s1, SysDeliver(s1, ds));
  }

  lemma ProcessedKeeps(s: Sys, s2: Sys, ds: seq<Delivery>)
    requires Inv(s) && s.main == Processing && s.batch != [] && s.batch[0] in s.core.pool.workers
    requires s.core.pool.workers[s.batch[0]].chan.toMain != []
    requires s2 == SysDeliver(s.(core := SendsTaken(s.core, s.batch[0])), ds)
    ensures s2.batch == s.batch && s2.batch[0] in s2.core.pool.workers
    ensures s2.core.pool.workers[s2.batch[0]].chan.toMain != []
    ensures Inv(AnsweredFirst(s2))
  {
    hide QueueInv, BoxInv, UserInv, WakeInv, SerialInv, LinkInv, WorkInv, SysDeliver, SendsTaken;
    SentKeeps(s, ds);
    assert s2.main == Processing;
    hide OnlyMail;
    ProcessSerial(s, s2);
    AnswerKeepsMail(s2);
    AnswerKeepsLinks(s2);
    AnswerKeepsWork(s2);
    assert AnsweredFirst(s2).main == Processing;
  }

  // ---- Every run ---------------------------------------------------------------------------------

  lemma StepKeeps(s: Sys, step: Step)
    requires Inv(s) && Enabled(s, step)
    ensures Inv(After(s, step))
  {
    match step
    case Report(w, cmd) => ReportKeeps(s, w, cmd);
    case Notify(w) => NotifyKeeps(s, w);
    case Resume(w) => ResumeKeeps(s, w);
    case Handle(w, sends) => HandleKeeps(s, w, sends);
    case UserPop(w) => UserPopKeeps(s, w);
    case UserSend(w, sends) => UserSendKeeps(s, w, sends);
    case MainWake => WakeKeeps(s);
    case MainAssign => AssignKeeps(s);
    case MainPoll => PollKeeps(s);
    case MainProcess(ds) => ProcessKeeps(s, ds);
    case MainInject(ds) => InjectKeeps(s, ds);
  }

  lemma FreshExplained(pendingSize: int, runSize: int)
    ensures Explains(NO_HISTORY, Box([], [], [], pendingSize, runSize))
    ensures Accounts(NO_HISTORY, Box([], [], [], pendingSize, runSize))
    ensures Ordered(NO_HISTORY, [], Box([], [], [], pendingSize, runSize)) && Increasing([])
  {
  }

  lemma FreshLink(ctx: WorkerCtx)
    requires ctx.chan == Channel([], [], []) && ctx.owner == Worker
    ensures LinkOk(ctx, Running, false, 0)
  {
  }

  lemma FreshActors(r: Ready, log: map<string, History>)
    requires r.wait == [] && log.Keys == r.ctxs.Keys
    requires forall a :: a in r.ctxs ==>
               && r.ctxs[a] == Actor(Box([], [], [], r.ctxs[a].box.pendingSize, r.ctxs[a].box.runSize), false, false)
               && log[a] == NO_HISTORY
    ensures QueueInv(r) && BoxInv(r, log)
  {
    forall a | a in r.ctxs ensures BoxOk(r.ctxs[a], log[a]) {
      FreshExplained(r.ctxs[a].box.pendingSize, r.ctxs[a].box.runSize);
    }
  }

  lemma FreshLinks(s: Sys)
    requires Init(s)
    ensures LinkInv(s)
  {
    var ws := s.core.pool.workers;
    hide LinkOk;
    forall w | w in ws ensures LinkOk(ws[w], s.pc[w], w in s.core.pool.idle, Events(s, w)) {
      FreshLink(ws[w]);
    }
  }

  lemma FreshUsers(s: Sys)
    requires Init(s)
    ensures UserInv(s.core.pool.workers, s.workerLog)
  {
    var ws := s.core.pool.workers;
    hide Accounts, Explains, Ordered, Increasing;
    forall w | w in ws ensures UserOk(ws[w], s.workerLog[w]) {
      FreshExplained(ws[w].box.pendingSize, ws[w].box.runSize);
    }
  }

  lemma FreshRest(s: Sys)
    requires Init(s)
    ensures SerialInv(s.core.ready.ctxs, s.core.pool.workers) && WakeInv(s.core.pool) && WorkInv(s) && MainInv(s)
  {
  }

  lemma InitOk(s: Sys)
    requires Init(s)
    ensures Inv(s)
  {
    FreshActors(s.core.ready, s.actorLog);
    FreshLinks(s);
    FreshUsers(s);
    FreshRest(s);
    hide QueueInv, BoxInv, LinkInv, UserInv, SerialInv, WakeInv, WorkInv, MainInv, Init;
  }

  /** The invariant holds in every state of every run. */
  lemma {:induction false} RunKeeps(s: Sys, steps: seq<Step>, t: Sys)
    requires Inv(s) && Runs(s, steps, t)
    ensures Inv(t)
    decreases |steps|
  {
    if steps == [] {
    } else {
      StepKeeps(s, steps[0]);
      RunKeeps(After(s, steps[0]), steps[1..], t);
    }
  }
}
