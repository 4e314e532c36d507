/** The running phase as a state machine: the main thread's loop (myframe/app.cpp:537-757) interleaved with every
    worker thread (myframe/worker.cpp:37-61, myframe/worker_common.cpp:24-51), one step at a time. */
module Protocol {
  import opened Basics
  import opened Messages
  import opened Mailboxes
  import opened ActorContexts
  import opened WorkerContexts
  import opened Routing
  import opened Scheduler

  /** A worker thread runs user code, has queued a report but not yet notified the poller, or waits for a reply. */
  datatype Pc = Running | Pushed | Blocked

  /** The main thread walks the wake-up list, assigns actors, is about to wait for events, or handles them. */
  datatype MainPc = Waking(at: nat) | Assigning | Polling | Processing

  /** A worker's mailbox history; whether each of its reports that it waits was made with an empty run queue; how many
      pending messages its last wake-up found; the numbers, in order of delivery, of the messages it has handled
      and has in its run queue; and whether a wake-up with a limit has found something in that queue. */
  datatype UserLog = UserLog(mail: History, drained: bool, seen: nat, order: seq<nat>, spliced: bool)

  datatype Sys = Sys(
    core: Core, pc: map<string, Pc>, main: MainPc, evs: seq<string>, batch: seq<string>,
    // History: everything each mailbox was given and what became of it.
    actorLog: map<string, History>, workerLog: map<string, UserLog>)

  datatype Step =
    | Report(worker: string, cmd: Cmd)
    | Notify(worker: string)
    | Resume(worker: string)
    | Handle(worker: string, sends: seq<Msg>)
    | UserPop(worker: string)
    | UserSend(worker: string, sends: seq<Msg>)
    | MainWake
    | MainAssign
    | MainPoll
    | MainProcess(deliveries: seq<Delivery>)
    | MainInject(deliveries: seq<Delivery>)

  // ---- Deliveries, with their history ------------------------------------------------------------

  function ActorTarget(c: Core, d: Delivery): Option<string>
  {
    if d.ToActor? && d.actor in c.ready.ctxs && Address(d.msg, d.actor) in c.ready.ctxs
    then Some(Address(d.msg, d.actor)) else None
  }

  function WorkerTarget(c: Core, d: Delivery): Option<string>
  {
    if d.ToWorker? && d.worker in c.pool.workers && Address(d.msg, d.worker) in c.pool.workers
       && c.pool.workers[Address(d.msg, d.worker)].kind == User
    then Some(Address(d.msg, d.worker)) else None
  }

  ghost function LogDelivered(log: map<string, History>, ctxs: map<string, Actor>, target: Option<string>, m: Msg)
    : map<string, History>
  {
    if target.Some? && target.value in log && target.value in ctxs
    then log[target.value := Delivered(log[target.value], ctxs[target.value].box, m)] else log
  }

  ghost function LogAssigned(log: map<string, History>, name: string, b: Box): map<string, History>
  {
    if name in log then log[name := Assigned(log[name], b)] else log
  }

  ghost function LogHandled(log: map<string, History>, name: string, b: Box): map<string, History>
  {
    if name in log && b.run != [] then log[name := Handled(log[name], b)] else log
  }

  ghost function UserDelivered(log: map<string, UserLog>, ws: map<string, WorkerCtx>, target: Option<string>, m: Msg)
    : map<string, UserLog>
  {
    if target.Some? && target.value in log && target.value in ws
    then log[target.value := log[target.value].(mail := Delivered(log[target.value].mail, ws[target.value].box, m))]
    else log
  }

  ghost function UserAssigned(l: UserLog, b: Box): UserLog
  {
    l.(mail := Assigned(l.mail, b), seen := |b.recv|,
       order := Reordered(l.order, |l.mail.handled|, |l.mail.fates|, b),
       spliced := l.spliced || (b.runSize > 0 && b.run != []))
  }

  ghost function UserHandled(l: UserLog, b: Box): UserLog
    requires b.run != []
  {
    l.(mail := Handled(l.mail, b))
  }

  ghost function UserReported(l: UserLog, cmd: Cmd, b: Box): UserLog
  {
    l.(drained := l.drained && (cmd == WaitForMsg ==> b.run == []))
  }

  ghost function SysDeliverOne(s: Sys, d: Delivery): Sys
  {
    s.(core := DeliverOne(s.core, d),
       actorLog := LogDelivered(s.actorLog, s.core.ready.ctxs, ActorTarget(s.core, d), d.msg),
       workerLog := UserDelivered(s.workerLog, s.core.pool.workers, WorkerTarget(s.core, d), d.msg))
  }

  ghost function SysDeliver(s: Sys, ds: seq<Delivery>): Sys
    decreases |ds|
  {
    if ds == [] then s else SysDeliver(SysDeliverOne(s, ds[0]), ds[1..])
  }

  lemma {:induction false} SysDeliverCore(s: Sys, ds: seq<Delivery>)
    ensures SysDeliver(s, ds).core == Deliver(s.core, ds)
    ensures SysDeliver(s, ds)
         == s.(core := Deliver(s.core, ds),
               actorLog := SysDeliver(s, ds).actorLog, workerLog := SysDeliver(s, ds).workerLog)
    decreases |ds|
  {
    if ds == [] {
    } else {
      SysDeliverCore(SysDeliverOne(s, ds[0]), ds[1..]);
    }
  }

  // ---- Steps -------------------------------------------------------------------------------------

  /** A common worker reports idle, before it ever gets an actor and whenever its run queue is drained; the timer
      worker reports idle; a user worker reports what its code asks for. */
  predicate MayReport(c: Core, w: WorkerCtx, cmd: Cmd)
  {
    match w.kind
    case Common =>
      && cmd == Idle
      && (w.context.Some? && w.context.value in c.ready.ctxs ==> c.ready.ctxs[w.context.value].box.run == [])
    case Timer => cmd == Idle
    case User => cmd == Idle || cmd == WaitForMsg
  }

  ghost predicate Enabled(s: Sys, step: Step)
  {
    var ws, ctxs := s.core.pool.workers, s.core.ready.ctxs;
    match step
    case Report(w, cmd) =>
      w in ws && w in s.pc && s.pc[w] == Running && MayReport(s.core, ws[w], cmd)
    case Notify(w) => w in s.pc && s.pc[w] == Pushed
    case Resume(w) => w in ws && w in s.pc && s.pc[w] == Blocked && ws[w].chan.toOwner != []
    case Handle(w, _) =>
      && w in ws && w in s.pc && s.pc[w] == Running && ws[w].kind == Common
      && ws[w].context.Some? && ws[w].context.value in ctxs && ctxs[ws[w].context.value].box.run != []
    case UserPop(w) =>
      w in ws && w in s.pc && s.pc[w] == Running && ws[w].kind == User && ws[w].box.run != []
    case UserSend(w, _) => w in ws && w in s.pc && s.pc[w] == Running && ws[w].kind != Common
    case MainWake => s.main.Waking? && s.main.at <= |s.core.pool.wake|
    case MainAssign => s.main == Assigning
    case MainPoll => s.main == Polling
    case MainProcess(_) =>
      && s.main == Processing
      // Taking a command off an empty list would be undefined; LinksNeverUnderflow shows it cannot happen.
      && (s.batch != [] ==> s.batch[0] in ws && ws[s.batch[0]].chan.toMain != [])
    case MainInject(_) => s.main == Processing
  }

  ghost function SetWorker(s: Sys, w: string, ctx: WorkerCtx): Sys
  {
    s.(core := Updated(s.core, w, ctx))
  }

  ghost function ProcessedFirst(s: Sys, ds: seq<Delivery>): Sys
    requires s.batch != [] && s.batch[0] in s.core.pool.workers
    requires s.core.pool.workers[s.batch[0]].chan.toMain != []
  {
    var w := s.batch[0];
    SysDeliver(s.(core := SendsTaken(s.core, w)), ds).(core := Processed(s.core, w, ds), batch := s.batch[1..])
  }

  ghost function After(s: Sys, step: Step): Sys
    requires Enabled(s, step)
  {
    var ws, ctxs := s.core.pool.workers, s.core.ready.ctxs;
    match step
    case Report(w, cmd) =>
      SetWorker(s, w, ws[w].(chan := ToMain(ws[w].chan, cmd))).(
        pc := s.pc[w := Pushed],
        workerLog := if w in s.workerLog
                     then s.workerLog[w := UserReported(s.workerLog[w], cmd, ws[w].box)] else s.workerLog)
    case Notify(w) => s.(evs := s.evs + [w], pc := s.pc[w := Blocked])
    case Resume(w) =>
      SetWorker(s, w, ws[w].(chan := ws[w].chan.(toOwner := ws[w].chan.toOwner[1..]))).(pc := s.pc[w := Running])
    case Handle(w, sends) =>
      var a := ws[w].context.value;
      var b := ctxs[a].box;
      s.(core := s.core.(ready := s.core.ready.(ctxs := ctxs[
           a := ctxs[a].(box := b.(run := b.run[1..], send := b.send + sends))])),
         actorLog := LogHandled(s.actorLog, a, b))
    case UserPop(w) =>
      SetWorker(s, w, ws[w].(box := ws[w].box.(run := ws[w].box.run[1..]))).(
        workerLog := if w in s.workerLog then s.workerLog[w := UserHandled(s.workerLog[w], ws[w].box)]
                     else s.workerLog)
    case UserSend(w, sends) =>
      SetWorker(s, w, ws[w].(box := ws[w].box.(send := ws[w].box.send + sends)))
    case MainWake =>
      var p, i := s.core.pool, s.main.at;
      if i == |p.wake| then s.(main := Assigning)
      else
        var r := WakeOne(p, i);
        s.(core := s.core.(pool := r.0), main := Waking(r.1),
           workerLog := if p.wake[i] in ws && ws[p.wake[i]].owner != Worker && p.wake[i] in s.workerLog
                        then s.workerLog[p.wake[i] := UserAssigned(s.workerLog[p.wake[i]], ws[p.wake[i]].box)]
                        else s.workerLog)
    case MainAssign =>
      (match AssignTurn(s.core)
       case Stop(c) => s.(core := c, main := Polling)
       case Again(c) =>
         var a := Taken(s.core.ready).1.value;
         s.(core := c,
            actorLog := if ctxs[a].box.recv != [] then LogAssigned(s.actorLog, a, ctxs[a].box) else s.actorLog))
    case MainPoll => s.(batch := s.evs, evs := [], main := Processing)
    case MainProcess(ds) => if s.batch == [] then s.(main := Waking(0)) else ProcessedFirst(s, ds)
    case MainInject(ds) => SysDeliver(s, ds)
  }

  // ---- The invariant -----------------------------------------------------------------------------

  ghost predicate Unique<T(!new)>(s: seq<T>)
  {
    forall x :: multiset(s)[x] <= 1
  }

  /** An actor is in the ready queue, exactly once, iff its flag says so iff it has mail. */
  ghost predicate QueueInv(r: Ready)
  {
    && Unique(r.wait)
    && (forall i :: 0 <= i < |r.wait| ==> r.wait[i] in r.ctxs)
    && (forall a :: a in r.ctxs ==> Queued(r.ctxs[a], a in r.wait))
  }

  ghost predicate Queued(a: Actor, listed: bool)
  {
    a.inWaitQue == listed && (listed <==> a.box.recv != [])
  }

  /** The history explains every actor's mailbox, and only a running actor has messages to handle or send. */
  ghost predicate BoxInv(r: Ready, log: map<string, History>)
  {
    log.Keys == r.ctxs.Keys && forall a :: a in r.ctxs ==> BoxOk(r.ctxs[a], log[a])
  }

  ghost predicate BoxOk(a: Actor, h: History)
  {
    Explains(h, a.box) && (!a.inWorker ==> a.box.run == [] && a.box.send == [])
  }

  ghost predicate Holds(ws: map<string, WorkerCtx>, w: string, a: string)
  {
    w in ws && ws[w].context == Some(a)
  }

  /** The running flag of an actor is up iff exactly one worker, a common one, refers to it. */
  ghost predicate SerialInv(ctxs: map<string, Actor>, ws: map<string, WorkerCtx>)
  {
    && (forall w, a :: Holds(ws, w, a) ==> ws[w].kind == Common && a in ctxs && ctxs[a].inWorker)
    && (forall v, w, a :: Holds(ws, v, a) && Holds(ws, w, a) ==> v == w)
    && (forall a :: a in ctxs && ctxs[a].inWorker ==> exists w :: Holds(ws, w, a))
  }

  function ReplyTo(report: Cmd): Cmd
  {
    if report == WaitForMsg then RunWithMsg else Run
  }

  /** Reports and replies alternate, and every reply fits the report before it. */
  ghost predicate Session(sent: seq<Cmd>)
  {
    forall i :: 0 <= i < |sent| ==> InTurn(sent, i)
  }

  ghost predicate InTurn(sent: seq<Cmd>, i: nat)
    requires i < |sent|
  {
    if i % 2 == 0 then sent[i] == Idle || sent[i] == WaitForMsg else sent[i] == ReplyTo(sent[i - 1])
  }

  /** A report that has not been answered. */
  ghost predicate Outstanding(w: WorkerCtx, pc: Pc)
  {
    pc != Running && w.chan.toOwner == []
  }

  /** One command in flight: where a worker thread stands determines both command lists, the notifications, the
      idle list and who has the control. */
  ghost predicate LinkOk(w: WorkerCtx, pc: Pc, idle: bool, events: nat)
  {
    && (match pc
        case Running => w.chan.toMain == [] && w.chan.toOwner == [] && events == 0
        case Pushed => |w.chan.toMain| == 1 && w.chan.toOwner == [] && events == 0
        case Blocked =>
          && |w.chan.toMain| + |w.chan.toOwner| <= 1
          && events == |w.chan.toMain|)
    && Session(w.chan.sent)
    && (Outstanding(w, pc) <==> |w.chan.sent| % 2 == 1)
    && (|w.chan.toMain| == 1 ==> w.chan.toMain[0] == w.chan.sent[|w.chan.sent| - 1])
    && (idle ==> && w.kind == Common && w.context == None
                 && w.chan.sent != [] && w.chan.sent[|w.chan.sent| - 1] == Idle)
    && (w.owner == Main ==> w.kind == User && w.chan.sent != [] && w.chan.sent[|w.chan.sent| - 1] == WaitForMsg)
    && (w.kind != User && w.chan.toMain != [] ==> w.chan.toMain[0] == Idle)
    && (idle || w.owner == Main <==> Held(w, pc))
  }

  /** The main thread has taken the report and still owes the reply. */
  ghost predicate Held(w: WorkerCtx, pc: Pc)
  {
    pc == Blocked && w.chan.toMain == [] && w.chan.toOwner == []
  }

  ghost function Events(s: Sys, w: string): nat
  {
    multiset(s.evs)[w] + multiset(s.batch)[w]
  }

  ghost predicate LinkInv(s: Sys)
  {
    && s.pc.Keys == s.core.pool.workers.Keys
    && Unique(s.core.pool.idle)
    && (forall w :: w in s.core.pool.idle || w in s.evs || w in s.batch ==> w in s.core.pool.workers)
    && (forall w :: w in s.core.pool.workers ==>
          LinkOk(s.core.pool.workers[w], s.pc[w], w in s.core.pool.idle, Events(s, w)))
  }

  /** A common worker that waits has drained its actor's run queue, unless it has just been given one to run. */
  ghost predicate WorkOk(ctxs: map<string, Actor>, w: WorkerCtx, pc: Pc)
  {
    w.kind == Common ==>
      && (w.chan.toOwner != [] ==> w.context.Some?)
      && (w.chan.toMain != [] && w.context.Some? && w.context.value in ctxs ==> ctxs[w.context.value].box.run == [])
  }

  ghost predicate WorkInv(s: Sys)
  {
    forall w :: w in s.core.pool.workers && w in s.pc ==>
      WorkOk(s.core.ready.ctxs, s.core.pool.workers[w], s.pc[w])
  }

  /** The last command on the channel is the worker's report that it waits. */
  ghost predicate WaitReported(w: WorkerCtx)
  {
    w.chan.sent != [] && w.chan.sent[|w.chan.sent| - 1] == WaitForMsg
  }

  /** A user worker's history accounts for its mailbox, and gives the order of what it has handled and is handling:
      that of delivery unless a wake-up with a limit has found something in the run queue, which a worker that drains it
      before it waits never lets happen. Whoever is told that there are messages has some, and mail that is not flagged
      is what the last wake-up left. */
  ghost predicate UserOk(w: WorkerCtx, l: UserLog)
  {
    && Accounts(l.mail, w.box)
    && Ordered(l.mail, l.order, w.box)
    && (Increasing(l.order) <==> !l.spliced)
    && (!l.spliced ==> Explains(l.mail, w.box))
    && (w.box.runSize <= 0 || l.drained ==> !l.spliced)
    && (l.drained && WaitReported(w) ==> w.box.run == [])
    && (w.chan.toOwner != [] && w.chan.toOwner[0] == RunWithMsg ==> w.box.run != [])
    && (!w.inWaitMsg ==>
          |w.box.recv| == if 0 < w.box.runSize < l.seen then l.seen - w.box.runSize else 0)
  }

  ghost predicate UserInv(ws: map<string, WorkerCtx>, log: map<string, UserLog>)
  {
    && log.Keys == ws.Keys
    && forall w :: w in ws && ws[w].kind == User ==> UserOk(ws[w], log[w])
  }

  /** Nothing is stranded when the main thread goes to wait: see NothingStranded. */
  ghost predicate MainInv(s: Sys)
  {
    && (s.main != Processing ==> s.batch == [])
    && match s.main
       case Waking(i) => i <= |s.core.pool.wake| && VisitedHaveControl(s.core.pool, i)
       case Assigning => VisitedHaveControl(s.core.pool, |s.core.pool.wake|)
       case Polling =>
         && VisitedHaveControl(s.core.pool, |s.core.pool.wake|)
         && (s.core.pool.idle == [] || NoneCanRun(s.core.ready))
       case Processing => true
  }

  ghost predicate NoneCanRun(r: Ready)
  {
    forall i :: 0 <= i < |r.wait| ==> !CanRun(r.ctxs, r.wait[i])
  }

  ghost predicate Inv(s: Sys)
  {
    && QueueInv(s.core.ready)
    && BoxInv(s.core.ready, s.actorLog)
    && SerialInv(s.core.ready.ctxs, s.core.pool.workers)
    && WakeInv(s.core.pool)
    && LinkInv(s)
    && WorkInv(s)
    && UserInv(s.core.pool.workers, s.workerLog)
    && MainInv(s)
  }

  const NO_HISTORY := History([], [], [])
  const NO_REPORTS := UserLog(NO_HISTORY, true, 0, [], false)

  /** Every thread has just started, no mailbox has anything in it, and the main thread is about to flush the
      messages cached during start-up. */
  ghost predicate Init(s: Sys)
  {
    && s.core.ready.wait == [] && s.core.pool.idle == [] && s.core.pool.wake == []
    && s.evs == [] && s.batch == [] && s.main == Processing
    && s.pc.Keys == s.core.pool.workers.Keys == s.workerLog.Keys
    && s.actorLog.Keys == s.core.ready.ctxs.Keys
    && (forall a :: a in s.core.ready.ctxs ==>
          && s.core.ready.ctxs[a] == Actor(Box([], [], [], s.core.ready.ctxs[a].box.pendingSize,
                                               s.core.ready.ctxs[a].box.runSize), false, false)
          && s.actorLog[a] == NO_HISTORY)
    && (forall w :: w in s.core.pool.workers ==>
          && s.core.pool.workers[w] == WorkerCtx(
               s.core.pool.workers[w].kind, Channel([], [], []), None,
               Box([], [], [], s.core.pool.workers[w].box.pendingSize, s.core.pool.workers[w].box.runSize),
               Worker, false)
          && s.pc[w] == Running && s.workerLog[w] == NO_REPORTS)
  }

  ghost predicate Runs(s: Sys, steps: seq<Step>, t: Sys)
    decreases |steps|
  {
    if steps == [] then s == t else Enabled(s, steps[0]) && Runs(After(s, steps[0]), steps[1..], t)
  }
}
