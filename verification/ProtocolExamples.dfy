/** Two runs with a user worker whose run queue is limited to one message: in the first it is left waiting with mail
    nobody will wake it for, in the second it gets its mail out of order. */
module ProtocolExamples {
  import opened Basics
  import opened Messages
  import opened Mailboxes
  import opened ActorContexts
  import opened WorkerContexts
  import opened Routing
  import opened Scheduler
  import opened Protocol
  import opened ProtocolGuarantees

  const NAME := "worker.u.1"

  /** The worker alone in the system. */
  ghost function Alone(w: WorkerCtx, pc: Pc, main: MainPc, evs: seq<string>, batch: seq<string>, wake: seq<string>,
                       l: UserLog): Sys
  {
    Sys(Core(Ready(map[], []), Pool(map[NAME := w], [], wake)), map[NAME := pc], main, evs, batch, map[],
        map[NAME := l])
  }

  ghost function Limited(recv: seq<Msg>, run: seq<Msg>, chan: Channel, owner: CtrlOwner, flag: bool): WorkerCtx
  {
    WorkerCtx(User, chan, None, Box(recv, run, [], -1, 1), owner, flag)
  }

  lemma {:induction false} RunsOn(s: Sys, steps: seq<Step>, t: Sys, step: Step)
    requires Runs(s, steps, t) && Enabled(t, step)
    ensures Runs(s, steps + [step], After(t, step))
    decreases |steps|
  {
    hide Enabled, After;
    if steps == [] {
      assert (steps + [step])[1..] == [];
    } else {
      assert (steps + [step])[1..] == steps[1..] + [step];
      RunsOn(After(s, steps[0]), steps[1..], t, step);
    }
  }

  lemma Goes(s: Sys, step: Step, t: Sys)
    requires Reachable(s) && Enabled(s, step) && After(s, step) == t
    ensures Reachable(t)
  {
    var s0, steps :| Init(s0) && Runs(s0, steps, s);
    RunsOn(s0, steps, s, step);
  }

  lemma Overwritten<T>(k: string, a: T, b: T)
    ensures map[k := a][k := b] == map[k := b]
  {
  }

  function Channelled(sent: seq<Cmd>): Channel
  {
    Channel([], [], sent)
  }

  lemma ReportGoes(w: WorkerCtx, wake: seq<string>, l: UserLog, w1: WorkerCtx, l1: UserLog)
    requires Reachable(Alone(w, Running, Processing, [], [], wake, l)) && w.kind == User
    requires w1 == w.(chan := ToMain(w.chan, WaitForMsg)) && l1 == UserReported(l, WaitForMsg, w.box)
    ensures Reachable(Alone(w1, Blocked, Processing, [NAME], [], wake, l1))
  {
    Overwritten(NAME, w, w1);
    Overwritten(NAME, Running, Pushed);
    Overwritten(NAME, Pushed, Blocked);
    Overwritten(NAME, l, l1);
    Goes(Alone(w, Running, Processing, [], [], wake, l), Report(NAME, WaitForMsg),
         Alone(w1, Pushed, Processing, [], [], wake, l1));
    Goes(Alone(w1, Pushed, Processing, [], [], wake, l1), Notify(NAME),
         Alone(w1, Blocked, Processing, [NAME], [], wake, l1));
  }

  lemma TakeGoes(w: WorkerCtx, wake: seq<string>, l: UserLog, w1: WorkerCtx)
    requires Reachable(Alone(w, Blocked, Processing, [], [NAME], wake, l))
    requires w.kind == User && w.box.send == [] && w.chan.toMain == [WaitForMsg]
    requires w1 == w.(chan := w.chan.(toMain := []), owner := Main)
    ensures Reachable(Alone(w1, Blocked, Waking(0), [], [], wake, l))
  {
    var s := Alone(w, Blocked, Processing, [], [NAME], wake, l);
    var t := Alone(w1, Blocked, Processing, [], [], wake, l);
    TakenReport(w, wake, w1);
    assert w.(box := w.box.(send := [])) == w;
    Overwritten(NAME, w, w);
    assert SendsTaken(s.core, NAME) == s.core;
    assert After(s, MainProcess([])) == t;
    Goes(s, MainProcess([]), t);
    Goes(t, MainProcess([]), t.(main := Waking(0)));
  }

  lemma TakenReport(w: WorkerCtx, wake: seq<string>, w1: WorkerCtx)
    requires w.kind == User && w.box.send == [] && w.chan.toMain == [WaitForMsg]
    requires w1 == w.(chan := w.chan.(toMain := []), owner := Main)
    ensures var c := Core(Ready(map[], []), Pool(map[NAME := w], [], wake));
            Processed(c, NAME, []) == Core(Ready(map[], []), Pool(map[NAME := w1], [], wake))
  {
    Overwritten(NAME, w, w);
    assert w.(box := w.box.(send := [])) == w;
    assert w.chan.toMain[1..] == [];
    Overwritten(NAME, w, Popped(w));
    Overwritten(NAME, Popped(w), w1);
  }

  /** The worker reports that it waits, and the main loop takes the report. */
  lemma Waits(recv: seq<Msg>, run: seq<Msg>, sent: seq<Cmd>, flag: bool, l: UserLog) returns (t: Sys)
    requires Reachable(Alone(Limited(recv, run, Channelled(sent), Worker, flag), Running, Processing, [], [],
                             if flag then [NAME] else [], l))
    ensures t == Alone(Limited(recv, run, Channelled(sent + [WaitForMsg]), Main, flag), Blocked, Waking(0), [], [],
                       if flag then [NAME] else [], UserReported(l, WaitForMsg, Box(recv, run, [], -1, 1)))
    ensures Reachable(t)
  {
    hide Reachable;
    var wake := if flag then [NAME] else [];
    var w := Limited(recv, run, Channelled(sent), Worker, flag);
    var l' := UserReported(l, WaitForMsg, w.box);
    var w1 := Limited(recv, run, Channel([WaitForMsg], [], sent + [WaitForMsg]), Worker, flag);
    var w2 := Limited(recv, run, Channelled(sent + [WaitForMsg]), Main, flag);
    ReportGoes(w, wake, l, w1, l');
    Idles(w1, [NAME], wake, l');
    TakeGoes(w1, wake, l', w2);
    t := Alone(w2, Blocked, Waking(0), [], [], wake, l');
  }

  /** The main loop goes once round without waking the worker, which has the control, and collects its report. */
  lemma Idles(w: WorkerCtx, evs: seq<string>, wake: seq<string>, l: UserLog)
    requires Reachable(Alone(w, Blocked, Processing, evs, [], wake, l)) && w.owner == Worker
    requires wake == [] || wake == [NAME]
    ensures Reachable(Alone(w, Blocked, Processing, [], evs, wake, l))
  {
    Goes(Alone(w, Blocked, Processing, evs, [], wake, l), MainProcess([]),
         Alone(w, Blocked, Waking(0), evs, [], wake, l));
    if wake != [] {
      Goes(Alone(w, Blocked, Waking(0), evs, [], wake, l), MainWake, Alone(w, Blocked, Waking(1), evs, [], wake, l));
    }
    Passes(w, evs, wake, l);
    Goes(Alone(w, Blocked, Polling, evs, [], wake, l), MainPoll, Alone(w, Blocked, Processing, [], evs, wake, l));
  }

  /** From the end of the wake-up list to waiting for events: there is no actor to assign. */
  lemma Passes(w: WorkerCtx, evs: seq<string>, wake: seq<string>, l: UserLog)
    requires Reachable(Alone(w, Blocked, Waking(|wake|), evs, [], wake, l))
    ensures Reachable(Alone(w, Blocked, Polling, evs, [], wake, l))
  {
    Goes(Alone(w, Blocked, Waking(|wake|), evs, [], wake, l), MainWake, Alone(w, Blocked, Assigning, evs, [], wake, l));
    Goes(Alone(w, Blocked, Assigning, evs, [], wake, l), MainAssign, Alone(w, Blocked, Polling, evs, [], wake, l));
  }

  /** The waiting worker is woken, and reads its reply while the main loop goes on to its events. */
  lemma Wakes(recv: seq<Msg>, run: seq<Msg>, sent: seq<Cmd>, l: UserLog)
    requires recv != []
    requires Reachable(Alone(Limited(recv, run, Channelled(sent), Main, true), Blocked, Waking(0), [], [], [NAME], l))
    ensures Reachable(Alone(Limited(recv[1..], [recv[0]] + run, Channelled(sent + [RunWithMsg]), Worker, false),
                            Running, Processing, [], [], [], UserAssigned(l, Box(recv, run, [], -1, 1))))
  {
    hide Reachable;
    var w := Limited(recv, run, Channelled(sent), Main, true);
    var w1 := Limited(recv[1..], [recv[0]] + run, Channel([], [RunWithMsg], sent + [RunWithMsg]), Worker, false);
    var w2 := Limited(recv[1..], [recv[0]] + run, Channelled(sent + [RunWithMsg]), Worker, false);
    var l' := UserAssigned(l, w.box);
    assert recv[..1] == [recv[0]];
    assert Woken(w) == w1;
    WakeGoes(w, l, w1, l');
    Passes(w1, [], [], l');
    ResumeGoes(w1, l', w2);
  }

  lemma WakeGoes(w: WorkerCtx, l: UserLog, w1: WorkerCtx, l1: UserLog)
    requires Reachable(Alone(w, Blocked, Waking(0), [], [], [NAME], l)) && w.owner == Main
    requires w1 == Woken(w) && l1 == UserAssigned(l, w.box)
    ensures Reachable(Alone(w1, Blocked, Waking(0), [], [], [], l1))
  {
    hide Reachable, Woken, UserAssigned;
    assert RemoveAt([NAME], 0) == [];
    Overwritten(NAME, w, w1);
    Overwritten(NAME, l, l1);
    var s := Alone(w, Blocked, Waking(0), [], [], [NAME], l);
    assert WakeOne(s.core.pool, 0) == (Pool(map[NAME := w1], [], []), 0);
    Goes(s, MainWake, Alone(w1, Blocked, Waking(0), [], [], [], l1));
  }

  lemma ResumeGoes(w: WorkerCtx, l: UserLog, w1: WorkerCtx)
    requires Reachable(Alone(w, Blocked, Polling, [], [], [], l)) && |w.chan.toOwner| == 1
    requires w1 == w.(chan := w.chan.(toOwner := []))
    ensures Reachable(Alone(w1, Running, Processing, [], [], [], l))
  {
    hide Reachable;
    Overwritten(NAME, w, w1);
    Overwritten(NAME, Blocked, Running);
    assert w.chan.toOwner[1..] == [];
    Goes(Alone(w, Blocked, Polling, [], [], [], l), MainPoll, Alone(w, Blocked, Processing, [], [], [], l));
    Goes(Alone(w, Blocked, Processing, [], [], [], l), Resume(NAME), Alone(w1, Running, Processing, [], [], [], l));
  }

  /** A message arrives while the main loop handles events. */
  lemma Arrives(recv: seq<Msg>, run: seq<Msg>, sent: seq<Cmd>, flag: bool, l: UserLog, m: Msg)
    requires Reachable(Alone(Limited(recv, run, Channelled(sent), Worker, flag), Running, Processing, [], [],
                             if flag then [NAME] else [], l))
    ensures Reachable(Alone(Limited(recv + [m], run, Channelled(sent), Worker, true), Running, Processing, [], [],
                            [NAME], l.(mail := Delivered(l.mail, Box(recv, run, [], -1, 1), m))))
  {
    hide Reachable, Delivered;
    var wake := if flag then [NAME] else [];
    var w := Limited(recv, run, Channelled(sent), Worker, flag);
    var w1 := Limited(recv + [m], run, Channelled(sent), Worker, true);
    var l1 := l.(mail := Delivered(l.mail, w.box, m));
    var s := Alone(w, Running, Processing, [], [], wake, l);
    var ds := [ToWorker(NAME, m)];
    Overwritten(NAME, w, w1);
    Overwritten(NAME, w, w.(box := Receive(w.box, m)));
    Overwritten(NAME, l, l1);
    assert ds[1..] == [] && [] + [NAME] == [NAME];
    assert PostedToWorker(s.core.pool, m, NAME) == Pool(map[NAME := w1], [], [NAME]);
    assert DeliverOne(s.core, ds[0]) == Core(Ready(map[], []), Pool(map[NAME := w1], [], [NAME]));
    assert SysDeliverOne(s, ds[0]) == Alone(w1, Running, Processing, [], [], [NAME], l1);
    hide SysDeliverOne;
    assert SysDeliver(s, ds) == SysDeliverOne(s, ds[0]);
    Goes(s, MainInject(ds), SysDeliverOne(s, ds[0]));
  }

  lemma Starts() returns (s: Sys)
    ensures s == Alone(Limited([], [], Channelled([]), Worker, false), Running, Processing, [], [], [], NO_REPORTS)
    ensures Reachable(s)
  {
    s := Alone(Limited([], [], Channelled([]), Worker, false), Running, Processing, [], [], [], NO_REPORTS);
    assert Runs(s, [], s);
  }

  /** Two messages have arrived and the worker has been woken with the first. */
  lemma WokenWithOne(a: Msg, b: Msg) returns (l: UserLog)
    ensures Reachable(Alone(Limited([b], [a], Channelled([WaitForMsg, RunWithMsg]), Worker, false),
                            Running, Processing, [], [], [], l))
    ensures l == UserLog(History([a, b], [Ran(2)], []), true, 2, [0], false)
  {
    hide Reachable;
    var s := Starts();
    var l1 := NO_REPORTS.(mail := History([a], [], []));
    var l2 := NO_REPORTS.(mail := History([a, b], [], []));
    assert Delivered(NO_HISTORY, Box([], [], [], -1, 1), a) == l1.mail;
    assert Delivered(l1.mail, Box([a], [], [], -1, 1), b) == l2.mail;
    Arrives([], [], [], false, NO_REPORTS, a);
    assert [] + [a] == [a];
    Arrives([a], [], [], true, l1, b);
    assert [a] + [b] == [a, b];
    var t := Waits([a, b], [], [], true, l2);
    assert [] + [WaitForMsg] == [WaitForMsg];
    Wakes([a, b], [], [WaitForMsg], l2);
    assert [a] + [] == [a] && [a, b][1..] == [b] && [WaitForMsg] + [RunWithMsg] == [WaitForMsg, RunWithMsg];
    l := UserAssigned(l2, Box([a, b], [], [], -1, 1));
    assert l.mail.fates == [Ran(2)];
  }

  lemma PopGoes(w: WorkerCtx, l: UserLog, w1: WorkerCtx, l1: UserLog)
    requires Reachable(Alone(w, Running, Processing, [], [], [], l)) && w.kind == User && |w.box.run| == 1
    requires w1 == w.(box := w.box.(run := [])) && l1 == UserHandled(l, w.box)
    ensures Reachable(Alone(w1, Running, Processing, [], [], [], l1))
  {
    hide Reachable, UserHandled;
    Overwritten(NAME, w, w1);
    Overwritten(NAME, l, l1);
    assert w.box.run[1..] == [];
    Goes(Alone(w, Running, Processing, [], [], [], l), UserPop(NAME), Alone(w1, Running, Processing, [], [], [], l1));
  }

  /** The worker handles what it was woken for and waits again: it has mail, is not listed, and no event will come. */
  lemma WaitsWithMail(a: Msg, b: Msg) returns (t: Sys)
    ensures Reachable(t) && t.main == Polling && t.evs == [] && t.core.pool.wake == []
    ensures NAME in t.core.pool.workers && t.core.pool.workers[NAME].kind == User
    ensures NAME in t.pc && t.pc[NAME] == Blocked
    ensures t.core.pool.workers[NAME].owner == Main && t.core.pool.workers[NAME].box.recv == [b]
    ensures t.core.pool.workers[NAME].chan.toMain == [] && t.core.pool.workers[NAME].chan.toOwner == []
  {
    hide Reachable;
    var l := WokenWithOne(a, b);
    var sent := [WaitForMsg, RunWithMsg];
    var w := Limited([b], [a], Channelled(sent), Worker, false);
    var l1 := UserHandled(l, w.box);
    PopGoes(w, l, Limited([b], [], Channelled(sent), Worker, false), l1);
    t := Waits([b], [], sent, false, l1);
    Passes(t.core.pool.workers[NAME], [], [], t.workerLog[NAME]);
    t := t.(main := Polling);
  }

  /** A worker that waits again without handling what it was woken for gets the next message in front of it. */
  lemma OutOfOrder(a: Msg, b: Msg, c: Msg) returns (t: Sys)
    requires a != b
    ensures Reachable(t) && NAME in t.core.pool.workers && NAME in t.workerLog
    ensures t.core.pool.workers[NAME].kind == User && t.core.pool.workers[NAME].box.pendingSize <= 0
    ensures var box, l := t.core.pool.workers[NAME].box, t.workerLog[NAME];
            && l.mail.delivered == [a, b, c] && l.mail.handled + box.run + box.recv == [b, a, c] != l.mail.delivered
  {
    hide Reachable;
    var l := WokenWithOne(a, b);
    var sent := [WaitForMsg, RunWithMsg];
    Arrives([b], [a], sent, false, l, c);
    assert [b] + [c] == [b, c];
    var l1 := l.(mail := Delivered(l.mail, Box([b], [a], [], -1, 1), c));
    assert l1.mail.delivered == [a, b, c];
    var s := Waits([b, c], [a], sent, true, l1);
    var l2 := s.workerLog[NAME];
    Wakes([b, c], [a], sent + [WaitForMsg], l2);
    assert [b, c][1..] == [c] && [b] + [a] == [b, a];
    t := Alone(Limited([c], [b, a], Channelled(sent + [WaitForMsg] + [RunWithMsg]), Worker, false),
               Running, Processing, [], [], [], UserAssigned(l2, Box([b, c], [a], [], -1, 1)));
    assert [b, a] + [c] == [b, a, c];
    assert [b, a, c][0] != [a, b, c][0];
  }
}
