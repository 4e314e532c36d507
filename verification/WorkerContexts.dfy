/** Worker contexts, their command channels and the poller (myframe/worker_context_manager.cpp,
    myframe/platform/cmd_channel_generic.h, myframe/platform/poller_generic.h). */
module WorkerContexts {
  import opened Basics
  import opened Messages
  import opened Mailboxes

  // `kQuit` belongs to shutdown, which is not modelled.
  datatype Cmd = Idle | WaitForMsg | Run | RunWithMsg

  /** The two command lists of a channel; `sent` is every command ever sent on it, in both directions. */
  datatype Channel = Channel(toMain: seq<Cmd>, toOwner: seq<Cmd>, sent: seq<Cmd>)

  function ToMain(c: Channel, cmd: Cmd): Channel
  {
    c.(toMain := c.toMain + [cmd], sent := c.sent + [cmd])
  }

  function ToOwner(c: Channel, cmd: Cmd): Channel
  {
    c.(toOwner := c.toOwner + [cmd], sent := c.sent + [cmd])
  }

  datatype Kind = Common | User | Timer
  datatype CtrlOwner = Main | Worker

  datatype WorkerCtx = WorkerCtx(
    kind: Kind, chan: Channel, context: Option<string>, box: Box, owner: CtrlOwner, inWaitMsg: bool)

  /** Workers by name, the idle common workers, and the user workers that have mail. A listed name without a
      context stands for an expired weak pointer. */
  datatype Pool = Pool(workers: map<string, WorkerCtx>, idle: seq<string>, wake: seq<string>)

  function PostedToWorker(p: Pool, m: Msg, name: string): Pool
  {
    if name !in p.workers || p.workers[name].kind != User then p
    else
      var w := p.workers[name];
      var got := w.(box := Receive(w.box, m));
      if w.inWaitMsg then p.(workers := p.workers[name := got])
      else p.(workers := p.workers[name := got.(inWaitMsg := true)], wake := p.wake + [name])
  }

  function RemoveAt<T>(s: seq<T>, i: nat): seq<T>
    requires i < |s|
  {
    s[..i] + s[i + 1..]
  }

  /** A waiting worker gets its mail and the control back. */
  function Woken(w: WorkerCtx): WorkerCtx
  {
    w.(box := MovedToRun(w.box), owner := Worker, inWaitMsg := false, chan := ToOwner(w.chan, RunWithMsg))
  }

  /** One turn of the wake-up loop at list position i, and the position it goes on from. */
  function WakeOne(p: Pool, i: nat): (r: (Pool, nat))
    requires i < |p.wake|
    ensures r.1 <= |r.0.wake| && |r.0.wake| - r.1 == |p.wake| - i - 1
  {
    var name := p.wake[i];
    if name !in p.workers then (p.(wake := RemoveAt(p.wake, i)), i)
    else if p.workers[name].owner == Worker then (p, i + 1)
    else (p.(workers := p.workers[name := Woken(p.workers[name])], wake := RemoveAt(p.wake, i)), i)
  }

  function WakeFrom(p: Pool, i: nat): Pool
    requires i <= |p.wake|
    decreases |p.wake| - i
  {
    if i == |p.wake| then p
    else
      var r := WakeOne(p, i);
      WakeFrom(r.0, r.1)
  }

  class PollerGeneric {
    var evs: seq<string>

    constructor ()
      ensures evs == []
    {
      evs := [];
    }

    method Notify(h: string)
      modifies this
      ensures evs == old(evs) + [h]
    {
      evs := evs + [h];
    }

    /** Hands out everything notified so far; the time-out is not modelled, so this may be nothing. */
    method Wait() returns (out: seq<string>)
      modifies this
      ensures out == old(evs) && evs == []
    {
      out := [];
      for i := 0 to |evs|
        invariant evs == old(evs) && out == evs[..i]
      {
        out := out + [evs[i]];
      }
      evs := [];
    }
  }

  class CmdChannelGeneric {
    const handle: string
    const poller: PollerGeneric
    var toMainCmd: seq<Cmd>
    var toOwnerCmd: seq<Cmd>
    ghost var sent: seq<Cmd>

    ghost function View(): Channel
      reads this
    {
      Channel(toMainCmd, toOwnerCmd, sent)
    }

    constructor (handle: string, poller: PollerGeneric)
      ensures View() == Channel([], [], []) && this.handle == handle && this.poller == poller
    {
      this.handle, this.poller := handle, poller;
      toMainCmd, toOwnerCmd, sent := [], [], [];
    }

    method SendToOwner(cmd: Cmd)
      modifies this
      ensures View() == ToOwner(old(View()), cmd)
    {
      toOwnerCmd := toOwnerCmd + [cmd];
      sent := sent + [cmd];
    }

    /** The wait on the condition variable ends only when there is a command. */
    method RecvFromMain() returns (cmd: Cmd)
      requires toOwnerCmd != []
      modifies this
      ensures cmd == old(toOwnerCmd)[0] && View() == old(View()).(toOwner := old(toOwnerCmd)[1..])
    {
      cmd := toOwnerCmd[0];
      toOwnerCmd := toOwnerCmd[1..];
    }

    method SendToMain(cmd: Cmd)
      modifies this, poller
      ensures View() == ToMain(old(View()), cmd) && poller.evs == old(poller.evs) + [handle]
    {
      toMainCmd := toMainCmd + [cmd];
      sent := sent + [cmd];
      poller.Notify(handle);
    }

    /** Takes the front unconditionally: the caller must know that there is one. */
    method RecvFromOwner() returns (cmd: Cmd)
      requires toMainCmd != []
      modifies this
      ensures cmd == old(toMainCmd)[0] && View() == old(View()).(toMain := old(toMainCmd)[1..])
    {
      cmd := toMainCmd[0];
      toMainCmd := toMainCmd[1..];
    }
  }

  class WorkerContextManager {
    var workers: map<string, WorkerCtx>
    var idle: seq<string>
    var wake: seq<string>

    function View(): Pool
      reads this
    {
      Pool(workers, idle, wake)
    }

    constructor (workers: map<string, WorkerCtx>)
      ensures View() == Pool(workers, [], [])
    {
      this.workers, idle, wake := workers, [], [];
    }

    /** Null when there is no idle worker or the first one has expired. */
    method FrontIdleWorker() returns (w: Option<string>)
      ensures w == if idle == [] || idle[0] !in workers then None else Some(idle[0])
    {
      if idle == [] {
        return None;
      }
      return if idle[0] in workers then Some(idle[0]) else None;
    }

    method PopFrontIdleWorker()
      modifies this`idle
      ensures idle == if old(idle) == [] then [] else old(idle)[1..]
    {
      if idle == [] {
        return;
      }
      idle := idle[1..];
    }

    method PushBackIdleWorker(name: string)
      modifies this`idle
      ensures idle == old(idle) + [name]
    {
      idle := idle + [name];
    }

    method PushWaitWorker(name: string)
      requires name in workers
      modifies this`workers
      ensures workers == old(workers)[name := old(workers)[name].(owner := Main)]
    {
      workers := workers[name := workers[name].(owner := Main)];
    }

    method WeakupWorker()
      modifies this`workers, this`wake
      ensures View() == WakeFrom(old(View()), 0)
    {
      var it := 0;
      while it != |wake|
        invariant it <= |wake|
        invariant idle == old(idle)
        invariant WakeFrom(View(), it) == WakeFrom(old(View()), 0)
        decreases |wake| - it
      {
        var name := wake[it];
        if name !in workers {
          wake := RemoveAt(wake, it);
          continue;
        }
        if workers[name].owner == Worker {
          it := it + 1;
          continue;
        }
        var w := workers[name];
        w := w.(box := MovedToRun(w.box));
        wake := RemoveAt(wake, it);
        w := w.(owner := Worker);
        w := w.(inWaitMsg := false);
        w := w.(chan := ToOwner(w.chan, RunWithMsg));
        workers := workers[name := w];
      }
    }

    method DispatchWorkerMsg(m: Msg, dst: string)
      modifies this`workers, this`wake
      ensures View() == PostedToWorker(old(View()), m, Address(m, dst))
    {
      var name := Address(m, dst);
      if name !in workers {
        return;
      }
      var w := workers[name];
      if w.kind == Timer || w.kind == Common {
        return;
      }
      workers := workers[name := w.(box := Receive(w.box, m))];
      if w.inWaitMsg {
        return;
      }
      workers := workers[name := workers[name].(inWaitMsg := true)];
      wake := wake + [name];
    }
  }

  // ---- Waking, over every pool -------------------------------------------------------------------

  /** The wake-up list is in step with the wait flags, and with the mail of the workers whose run queue is
      unlimited. */
  ghost predicate WakeInv(p: Pool)
  {
    && Distinct(p.wake)
    && (forall i :: 0 <= i < |p.wake| ==> p.wake[i] in p.workers)
    && (forall w :: w in p.workers ==> MailFlagged(p.workers[w], w in p.wake))
  }

  ghost predicate MailFlagged(w: WorkerCtx, listed: bool)
  {
    && w.inWaitMsg == listed
    && (w.inWaitMsg ==> w.kind == User && w.box.recv != [])
    && (w.kind == User && w.box.runSize <= 0 && w.box.recv != [] ==> w.inWaitMsg)
  }

  lemma RemovedAtMembers<T>(s: seq<T>, i: nat)
    requires i < |s| && Distinct(s)
    ensures Distinct(RemoveAt(s, i))
    ensures forall x :: x in RemoveAt(s, i) <==> x in s && x != s[i]
  {
    forall x ensures x in RemoveAt(s, i) <==> x in s && x != s[i] {
      assert s == s[..i] + [s[i]] + s[i + 1..];
    }
  }

  lemma PostKeepsWakeInv(p: Pool, m: Msg, name: string)
    requires WakeInv(p)
    ensures WakeInv(PostedToWorker(p, m, name))
  {
    var q := PostedToWorker(p, m, name);
    forall w | w in q.workers ensures MailFlagged(q.workers[w], w in q.wake) {
      assert MailFlagged(p.workers[w], w in p.wake);
    }
  }

  lemma WakeOneKeepsWakeInv(p: Pool, i: nat)
    requires i < |p.wake| && WakeInv(p)
    ensures WakeInv(WakeOne(p, i).0)
  {
    var q := WakeOne(p, i).0;
    RemovedAtMembers(p.wake, i);
    forall w | w in q.workers ensures MailFlagged(q.workers[w], w in q.wake) {
      assert MailFlagged(p.workers[w], w in p.wake);
    }
  }

  /** What a pass has visited stays listed only because the worker has the control. */
  ghost predicate VisitedHaveControl(p: Pool, i: nat)
    requires i <= |p.wake|
  {
    forall j :: 0 <= j < i ==> p.wake[j] in p.workers && p.workers[p.wake[j]].owner == Worker
  }

  lemma WakeOneVisits(p: Pool, i: nat)
    requires i < |p.wake| && WakeInv(p) && VisitedHaveControl(p, i)
    ensures VisitedHaveControl(WakeOne(p, i).0, WakeOne(p, i).1)
  {
  }

  /** No lost wake-up: after one pass, every worker that was waiting with mail has the control, a command to run
      and a run queue with that mail; nobody else is touched. */
  lemma {:induction false} PassWakesWaiters(p: Pool, i: nat, w: string)
    requires WakeInv(p) && i <= |p.wake| && VisitedHaveControl(p, i) && w in p.workers
    ensures w in WakeFrom(p, i).workers
    ensures WakeFrom(p, i).workers[w]
         == if p.workers[w].owner == Main && w in p.wake then Woken(p.workers[w]) else p.workers[w]
    decreases |p.wake| - i
  {
    if i == |p.wake| {
      assert w in p.wake ==> p.workers[w].owner == Worker;
    } else {
      var r := WakeOne(p, i);
      WakeOneKeepsWakeInv(p, i);
      WakeOneVisits(p, i);
      RemovedAtMembers(p.wake, i);
      PassWakesWaiters(r.0, r.1, w);
    }
  }

  /** Whatever the list: nobody stays on it after a pass but workers that exist and have the control. */
  lemma {:induction false} PassUnlistsExpired(p: Pool, i: nat)
    requires i <= |p.wake| && VisitedHaveControl(p, i)
    ensures VisitedHaveControl(WakeFrom(p, i), |WakeFrom(p, i).wake|)
    decreases |p.wake| - i
  {
    if i < |p.wake| {
      AnyWakeVisits(p, i);
      PassUnlistsExpired(WakeOne(p, i).0, WakeOne(p, i).1);
    }
  }

  lemma AnyWakeVisits(p: Pool, i: nat)
    requires i < |p.wake| && VisitedHaveControl(p, i)
    ensures VisitedHaveControl(WakeOne(p, i).0, WakeOne(p, i).1)
  {
  }

  lemma WaiterWithMailRuns(p: Pool, w: string)
    requires WakeInv(p) && w in p.workers
    requires p.workers[w].kind == User && p.workers[w].box.runSize <= 0
    requires p.workers[w].owner == Main && p.workers[w].box.recv != []
    ensures var after := WakeFrom(p, 0).workers;
            && w in after && after[w].owner == Worker
            && after[w].box.run == p.workers[w].box.run + p.workers[w].box.recv != []
            && after[w].chan.toOwner == p.workers[w].chan.toOwner + [RunWithMsg]
  {
    PassWakesWaiters(p, 0, w);
  }

  lemma {:induction false} PassOnlyUnlists(p: Pool, i: nat, w: string)
    requires WakeInv(p) && i <= |p.wake| && VisitedHaveControl(p, i) && w in p.workers
    ensures w in WakeFrom(p, i).wake <==> w in p.wake && p.workers[w].owner == Worker
    decreases |p.wake| - i
  {
    if i < |p.wake| {
      var r := WakeOne(p, i);
      WakeOneKeepsWakeInv(p, i);
      WakeOneVisits(p, i);
      RemovedAtMembers(p.wake, i);
      PassOnlyUnlists(r.0, r.1, w);
    }
  }

  /** The limit of the guarantee: a pass leaves a waiting worker with mail that is neither flagged nor listed
      exactly when its run queue is limited to less than the mail it has. */
  lemma LimitedRunQueueStrands(p: Pool, w: string)
    requires WakeInv(p) && w in p.workers && p.workers[w].owner == Main && w in p.wake
    ensures var after := WakeFrom(p, 0);
            && w in after.workers && w !in after.wake && !after.workers[w].inWaitMsg
            && (after.workers[w].box.recv != [] <==>
                0 < p.workers[w].box.runSize < |p.workers[w].box.recv|)
  {
    PassWakesWaiters(p, 0, w);
    PassOnlyUnlists(p, 0, w);
  }
}
