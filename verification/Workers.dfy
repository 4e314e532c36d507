/** The worker's side (myframe/worker_common.cpp:18-51, myframe/worker.cpp:37-61): one call of Work is a run of Handle
    steps that ends where the worker may report. */
module Workers {
  import opened Basics
  import opened Messages
  import opened Mailboxes
  import opened ActorContexts
  import opened WorkerContexts
  import opened Routing
  import opened Scheduler
  import opened Protocol

  /** A mailbox after its run queue has been handled, `replies[i]` being what the actor sends on message i. */
  function Worked(b: Box, replies: seq<seq<Msg>>): Box
    requires |replies| == |b.run|
    decreases |replies|
  {
    if replies == [] then b
    else Worked(b.(run := b.run[1..], send := b.send + replies[0]), replies[1..])
  }

  function Joined(replies: seq<seq<Msg>>): seq<Msg>
  {
    if replies == [] then [] else replies[0] + Joined(replies[1..])
  }

  /** Nothing is left to handle, the replies are sent in order, and the pending mail is not touched. */
  lemma {:induction false} WorkedIs(b: Box, replies: seq<seq<Msg>>)
    requires |replies| == |b.run|
    ensures Worked(b, replies) == b.(run := [], send := b.send + Joined(replies))
    decreases |replies|
  {
    if replies != [] {
      WorkedIs(b.(run := b.run[1..], send := b.send + replies[0]), replies[1..]);
      assert (b.send + replies[0]) + Joined(replies[1..]) == b.send + (replies[0] + Joined(replies[1..]));
    } else {
      assert b.send + Joined(replies) == b.send;
    }
  }

  class WorkerCommon {
    // The mailbox of the actor the worker runs, null when it has none.
    var context: Mailbox?

    constructor ()
      ensures context == null
    {
      context := null;
    }

    method Idle()
      modifies this
      ensures context == null
    {
      if context != null {
        context := null;
      }
    }

    /** Handles the whole run queue, front first. */
    method Work(replies: seq<seq<Msg>>) returns (r: int, handled: seq<Msg>)
      requires context != null ==> |replies| == |context.run|
      modifies if context == null then {} else {context}
      ensures if old(context) == null then r == -1 && handled == []
              else && r == 0 && handled == old(context.run)
                   && context.View() == Worked(old(context.View()), replies)
    {
      handled := [];
      if context == null {
        return -1, handled;
      }
      ghost var all := context.run;
      ghost var done := 0;
      assert replies[0..] == replies;
      while context.run != []
        invariant done <= |all| && context.run == all[done..] && handled == all[..done]
        invariant Worked(context.View(), replies[done..]) == Worked(old(context.View()), replies)
        decreases |context.run|
      {
        assert replies[done..][1..] == replies[done + 1..];
        var m := context.PopRun();
        handled := handled + [m.value];
        context.SendList(replies[|handled| - 1]);
        done := done + 1;
      }
      assert all[..done] == all;
      r := 0;
    }
  }

  // ---- Work as steps of the whole system ---------------------------------------------------------

  /** Worker w executes, and refers to an actor. */
  ghost predicate WorksOn(s: Sys, w: string)
  {
    && w in s.core.pool.workers && w in s.pc && s.pc[w] == Running && s.core.pool.workers[w].kind == Common
    && s.core.pool.workers[w].context.Some? && s.core.pool.workers[w].context.value in s.core.ready.ctxs
    && s.core.pool.workers[w].context.value in s.actorLog
  }

  function HandleSteps(w: string, replies: seq<seq<Msg>>): seq<Step>
  {
    if replies == [] then [] else [Handle(w, replies[0])] + HandleSteps(w, replies[1..])
  }

  /** The system after worker w has handled its actor's whole run queue. */
  ghost function WorkDone(s: Sys, w: string, replies: seq<seq<Msg>>): Sys
    requires WorksOn(s, w)
    requires |replies| == |s.core.ready.ctxs[s.core.pool.workers[w].context.value].box.run|
  {
    var a := s.core.pool.workers[w].context.value;
    var actor, h := s.core.ready.ctxs[a], s.actorLog[a];
    s.(core := s.core.(ready := s.core.ready.(ctxs :=
         s.core.ready.ctxs[a := actor.(box := Worked(actor.box, replies))])),
       actorLog := s.actorLog[a := h.(handled := h.handled + actor.box.run)])
  }

  lemma NothingToWork(s: Sys, w: string)
    requires WorksOn(s, w) && s.core.ready.ctxs[s.core.pool.workers[w].context.value].box.run == []
    ensures WorkDone(s, w, []) == s && Enabled(s, Report(w, Idle))
  {
    var a := s.core.pool.workers[w].context.value;
    var actor, h := s.core.ready.ctxs[a], s.actorLog[a];
    assert h.(handled := h.handled + actor.box.run) == h && actor.(box := Worked(actor.box, [])) == actor;
    assert s.core.ready.ctxs[a := actor] == s.core.ready.ctxs && s.actorLog[a := h] == s.actorLog;
  }

  lemma OneHandled(s: Sys, w: string, replies: seq<seq<Msg>>)
    requires WorksOn(s, w) && replies != []
    requires |replies| == |s.core.ready.ctxs[s.core.pool.workers[w].context.value].box.run|
    ensures Enabled(s, Handle(w, replies[0])) && !Enabled(s, Report(w, Idle))
    ensures var t := After(s, Handle(w, replies[0]));
            && WorksOn(t, w) && t.core.pool == s.core.pool
            && |t.core.ready.ctxs[s.core.pool.workers[w].context.value].box.run| == |replies| - 1
            && WorkDone(t, w, replies[1..]) == WorkDone(s, w, replies)
  {
    var a := s.core.pool.workers[w].context.value;
    var run := s.core.ready.ctxs[a].box.run;
    assert (s.actorLog[a].handled + [run[0]]) + run[1..] == s.actorLog[a].handled + run;
  }

  /** One call of Work is a run of steps from any state, whatever the actor sends; at its end the worker may report
      that it is idle, and it may not before. */
  lemma {:induction false} WorkIsRun(s: Sys, w: string, replies: seq<seq<Msg>>)
    requires WorksOn(s, w)
    requires |replies| == |s.core.ready.ctxs[s.core.pool.workers[w].context.value].box.run|
    ensures Runs(s, HandleSteps(w, replies), WorkDone(s, w, replies))
    ensures Enabled(WorkDone(s, w, replies), Report(w, Idle))
    ensures replies != [] ==> !Enabled(s, Report(w, Idle))
    decreases |replies|
  {
    hide Enabled, After, WorkDone;
    if replies == [] {
      NothingToWork(s, w);
    } else {
      OneHandled(s, w, replies);
      WorkIsRun(After(s, Handle(w, replies[0])), w, replies[1..]);
      assert HandleSteps(w, replies)[1..] == HandleSteps(w, replies[1..]);
    }
  }
}
