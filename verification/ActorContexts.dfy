/** The ready queue of actors that have mail (myframe/actor_context_manager.cpp:28-136). */
module ActorContexts {
  import opened Basics
  import opened Messages
  import opened Mailboxes

  datatype Actor = Actor(box: Box, inWorker: bool, inWaitQue: bool)

  /** Actor contexts by name, and the names waiting for a worker. A name without a context stands for an
      expired weak pointer. */
  datatype Ready = Ready(ctxs: map<string, Actor>, wait: seq<string>)

  predicate Running(ctxs: map<string, Actor>, a: string)
  {
    a in ctxs && ctxs[a].inWorker
  }

  predicate CanRun(ctxs: map<string, Actor>, a: string)
  {
    a in ctxs && !ctxs[a].inWorker
  }

  function Pushed(r: Ready, a: string): Ready
    requires a in r.ctxs
  {
    if r.ctxs[a].inWaitQue then r
    else Ready(r.ctxs[a := r.ctxs[a].(inWaitQue := true)], r.wait + [a])
  }

  function Posted(r: Ready, m: Msg, dst: string): Ready
  {
    if dst !in r.ctxs then r
    else Pushed(r.(ctxs := r.ctxs[dst := r.ctxs[dst].(box := Receive(r.ctxs[dst].box, m))]), dst)
  }

  /** The first waiting actor that can run, the queue behind it, and the running ones passed over. */
  function Scan(ctxs: map<string, Actor>, wait: seq<string>): (r: (Option<string>, seq<string>, seq<string>))
    ensures r.0.Some? ==> CanRun(ctxs, r.0.value)
    ensures r.0.None? ==> r.1 == []
  {
    if wait == [] then (None, [], [])
    else if wait[0] !in ctxs then Scan(ctxs, wait[1..])
    else if ctxs[wait[0]].inWorker then
      var r := Scan(ctxs, wait[1..]);
      (r.0, r.1, [wait[0]] + r.2)
    else (Some(wait[0]), wait[1..], [])
  }

  /** Takes the first actor that can run; the running ones passed over go to the back. */
  function Taken(r: Ready): (t: (Ready, Option<string>))
    ensures t.1.Some? ==> t.1.value in r.ctxs
  {
    var s := Scan(r.ctxs, r.wait);
    match s.0
    case None => (Ready(r.ctxs, s.1 + s.2), None)
    case Some(a) =>
      (Ready(r.ctxs[a := r.ctxs[a].(inWorker := true, inWaitQue := false)], s.1 + s.2), Some(a))
  }

  class ActorContextManager {
    var ctxs: map<string, Actor>
    var waitQueue: seq<string>

    function View(): Ready
      reads this
    {
      Ready(ctxs, waitQueue)
    }

    constructor ()
      ensures View() == Ready(map[], [])
    {
      ctxs, waitQueue := map[], [];
    }

    method Add(name: string, actor: Actor) returns (ok: bool)
      modifies this`ctxs
      ensures ok == (name !in old(ctxs))
      ensures View() == if ok then old(View()).(ctxs := old(ctxs)[name := actor]) else old(View())
    {
      if name in ctxs {
        return false;
      }
      ctxs := ctxs[name := actor];
      return true;
    }

    method PushContext(a: string)
      requires a in ctxs
      modifies this
      ensures View() == Pushed(old(View()), a)
    {
      if ctxs[a].inWaitQue {
        return;
      }
      ctxs := ctxs[a := ctxs[a].(inWaitQue := true)];
      waitQueue := waitQueue + [a];
    }

    method DispatchMsg(m: Msg, dst: string)
      modifies this
      ensures View() == Posted(old(View()), m, Address(m, dst))
    {
      var name := Address(m, dst);
      if name !in ctxs {
        return;
      }
      ctxs := ctxs[name := ctxs[name].(box := Receive(ctxs[name].box, m))];
      PushContext(name);
    }

    method GetContextWithMsg() returns (ret: Option<string>)
      modifies this
      ensures View() == Taken(old(View())).0 && ret == Taken(old(View())).1
    {
      ret := None;
      if waitQueue == [] {
        return;
      }
      var inRunning: seq<string> := [];
      while waitQueue != []
        invariant ctxs == old(ctxs)
        invariant var s, t := Scan(old(ctxs), old(waitQueue)), Scan(ctxs, waitQueue);
                  s.0 == t.0 && s.1 == t.1 && s.2 == inRunning + t.2
        invariant ret == None
        decreases |waitQueue|
      {
        var front := waitQueue[0];
        waitQueue := waitQueue[1..];
        if front !in ctxs {
          continue;
        }
        if ctxs[front].inWorker {
          inRunning := inRunning + [front];
        } else {
          ctxs := ctxs[front := ctxs[front].(inWorker := true, inWaitQue := false)];
          ret := Some(front);
          break;
        }
      }
      assert inRunning == Scan(old(ctxs), old(waitQueue)).2;
      assert waitQueue == Scan(old(ctxs), old(waitQueue)).1;
      if inRunning != [] {
        waitQueue := waitQueue + inRunning;
      }
      assert waitQueue == Scan(old(ctxs), old(waitQueue)).1 + Scan(old(ctxs), old(waitQueue)).2;
    }
  }

  // ---- Bounded overtaking ------------------------------------------------------------------------

  datatype QueueOp = Post(msg: Msg, dst: string) | Push(actor: string) | Complete(actor: string) | Get

  function Completed(r: Ready, a: string): Ready
  {
    if a in r.ctxs then r.(ctxs := r.ctxs[a := r.ctxs[a].(inWorker := false)]) else r
  }

  function Apply(r: Ready, op: QueueOp): (Ready, Option<string>)
  {
    match op
    case Post(m, dst) => (Posted(r, m, dst), None)
    case Push(a) => (if a in r.ctxs then Pushed(r, a) else r, None)
    case Complete(a) => (Completed(r, a), None)
    case Get => Taken(r)
  }

  function GetCount(ops: seq<QueueOp>): nat
  {
    if ops == [] then 0 else (if ops[0].Get? then 1 else 0) + GetCount(ops[1..])
  }

  /** Whether some call in the run hands out actor a. */
  predicate HandsOut(r: Ready, ops: seq<QueueOp>, a: string)
    decreases |ops|
  {
    ops != [] && (Apply(r, ops[0]).1 == Some(a) || HandsOut(Apply(r, ops[0]).0, ops[1..], a))
  }

  /** Each call that hands out another actor brings a waiting actor that can run strictly nearer to the front. */
  lemma {:induction false} ScanAdvances(ctxs: map<string, Actor>, wait: seq<string>, k: nat)
    requires k < |wait| && CanRun(ctxs, wait[k])
    ensures var s := Scan(ctxs, wait);
            && s.0.Some?
            && (s.0 != Some(wait[k]) ==> exists j :: 0 <= j < k && j < |s.1| && s.1[j] == wait[k])
  {
    if k > 0 && !CanRun(ctxs, wait[0]) {
      ScanAdvances(ctxs, wait[1..], k - 1);
    } else if k > 0 {
      assert Scan(ctxs, wait).1[k - 1] == wait[k];
    }
  }

  lemma StepKeepsPlace(r: Ready, op: QueueOp, k: nat) returns (j: nat)
    requires k < |r.wait| && CanRun(r.ctxs, r.wait[k]) && Apply(r, op).1 != Some(r.wait[k])
    ensures var t := Apply(r, op).0;
            j < |t.wait| && t.wait[j] == r.wait[k] && CanRun(t.ctxs, r.wait[k])
    ensures if op.Get? then j < k else j == k
  {
    j := k;
    if op.Get? {
      ScanAdvances(r.ctxs, r.wait, k);
      var s := Scan(r.ctxs, r.wait);
      j :| 0 <= j < k && j < |s.1| && s.1[j] == r.wait[k];
    }
  }

  /** An actor that can run, at distance k from the front, is handed out within the next k + 1 calls, whatever
      messages, pushes and completions come between. */
  lemma {:induction false} BoundedOvertaking(r: Ready, ops: seq<QueueOp>, k: nat)
    requires k < |r.wait| && CanRun(r.ctxs, r.wait[k])
    requires GetCount(ops) >= k + 1
    ensures HandsOut(r, ops, r.wait[k])
    decreases |ops|
  {
    if Apply(r, ops[0]).1 != Some(r.wait[k]) {
      var j := StepKeepsPlace(r, ops[0], k);
      BoundedOvertaking(Apply(r, ops[0]).0, ops[1..], j);
    }
  }

  // ---- Who is passed over ------------------------------------------------------------------------

  /** `at` lists, in order, the positions of the running actors. */
  ghost predicate RunningAt(ctxs: map<string, Actor>, wait: seq<string>, at: seq<nat>)
  {
    && Increasing(at)
    && (forall j :: 0 <= j < |at| ==> at[j] < |wait| && Running(ctxs, wait[at[j]]))
    && (forall i :: 0 <= i < |wait| && Running(ctxs, wait[i]) ==> Lists(at, i))
  }

  ghost predicate Lists(at: seq<nat>, i: nat)
  {
    exists j :: 0 <= j < |at| && at[j] == i
  }

  ghost function RunningOf(ctxs: map<string, Actor>, wait: seq<string>): seq<string>
  {
    if wait == [] then []
    else
      var front, last := RunningOf(ctxs, wait[..|wait| - 1]), wait[|wait| - 1];
      if Running(ctxs, last) then front + [last] else front
  }

  lemma RunningAtNext(ctxs: map<string, Actor>, wait: seq<string>, x: string, at: seq<nat>)
    requires RunningAt(ctxs, wait, at)
    ensures RunningAt(ctxs, wait + [x], if Running(ctxs, x) then at + [|wait|] else at)
  {
    hide Running, Lists;
    var all := wait + [x];
    var more := if Running(ctxs, x) then at + [|wait|] else at;
    forall j | 0 <= j < |more| ensures more[j] < |all| && Running(ctxs, all[more[j]]) {
      assert j < |at| ==> more[j] == at[j];
    }
    forall i | 0 <= i < |all| && Running(ctxs, all[i]) ensures Lists(more, i) {
      assert i < |wait| ==> all[i] == wait[i] && Lists(at, i);
      ListsMore(at, |wait|, i);
    }
  }

  lemma {:induction false} RunningOfAt(ctxs: map<string, Actor>, wait: seq<string>) returns (at: seq<nat>)
    ensures RunningAt(ctxs, wait, at) && (forall j :: 0 <= j < |at| ==> at[j] < |wait|)
    ensures RunningOf(ctxs, wait) == Pick(wait, at)
  {
    at := [];
    if wait != [] {
      hide Running, RunningAt, Pick;
      var k := |wait| - 1;
      var front := RunningOfAt(ctxs, wait[..k]);
      RunningAtNext(ctxs, wait[..k], wait[k], front);
      assert wait == wait[..k] + [wait[k]];
      at := if Running(ctxs, wait[k]) then front + [k] else front;
      PickLonger(wait[..k], wait[k], front);
    } else {
      assert Pick(wait, at) == [];
    }
  }

  lemma PickLonger(wait: seq<string>, x: string, at: seq<nat>)
    requires forall j :: 0 <= j < |at| ==> at[j] < |wait|
    ensures Pick(wait + [x], at) == Pick(wait, at)
    ensures Pick(wait + [x], at + [|wait|]) == Pick(wait, at) + [x]
  {
  }

  lemma ListsMore(at: seq<nat>, k: nat, i: nat)
    ensures Lists(at + [k], i) <==> Lists(at, i) || i == k
  {
    var all := at + [k];
    if Lists(at, i) {
      var j :| 0 <= j < |at| && at[j] == i;
      assert all[j] == i;
    }
    assert all[|at|] == k;
  }

  lemma {:induction false} RunningOfCons(ctxs: map<string, Actor>, x: string, wait: seq<string>)
    ensures RunningOf(ctxs, [x] + wait) == (if Running(ctxs, x) then [x] else []) + RunningOf(ctxs, wait)
  {
    hide Running;
    if wait == [] {
      assert [x] + wait == [x] && [x][..0] == [];
    } else {
      var k := |wait| - 1;
      RunningOfCons(ctxs, x, wait[..k]);
      assert ([x] + wait)[..k + 1] == [x] + wait[..k];
    }
  }

  lemma {:induction false} ScanOrder(ctxs: map<string, Actor>, wait: seq<string>) returns (k: nat)
    ensures k <= |wait| && (forall i :: 0 <= i < k ==> !CanRun(ctxs, wait[i]))
    ensures k < |wait| ==> CanRun(ctxs, wait[k])
    ensures Scan(ctxs, wait)
         == if k < |wait| then (Some(wait[k]), wait[k + 1..], RunningOf(ctxs, wait[..k]))
            else (None, [], RunningOf(ctxs, wait[..k]))
  {
    if wait == [] || CanRun(ctxs, wait[0]) {
      k := 0;
      assert RunningOf(ctxs, wait[..0]) == [];
    } else {
      var rest := ScanOrder(ctxs, wait[1..]);
      k := rest + 1;
      assert wait[..k] == [wait[0]] + wait[1..][..rest];
      RunningOfCons(ctxs, wait[0], wait[1..][..rest]);
      hide RunningOf;
      assert [] + RunningOf(ctxs, wait[1..][..rest]) == RunningOf(ctxs, wait[1..][..rest]);
      assert k < |wait| ==> wait[1..][rest] == wait[k] && wait[1..][rest + 1..] == wait[k + 1..];
      assert forall i :: 0 < i < k ==> wait[i] == wait[1..][i - 1];
    }
  }

  /** By positions: a call hands out the first actor that can run, at position k; whoever stood behind it comes first
      then, in order, and behind them, in order too, the running actors that were passed over. Expired ones are gone. */
  lemma GetOrder(r: Ready) returns (k: nat, at: seq<nat>)
    ensures k <= |r.wait| && (forall i :: 0 <= i < k ==> !CanRun(r.ctxs, r.wait[i]))
    ensures k < |r.wait| ==> CanRun(r.ctxs, r.wait[k])
    ensures RunningAt(r.ctxs, r.wait[..k], at)
    ensures Apply(r, Get).1 == if k < |r.wait| then Some(r.wait[k]) else None
    ensures var behind := if k < |r.wait| then |r.wait| - k - 1 else 0;
            var wait := Apply(r, Get).0.wait;
            && |wait| == behind + |at|
            && (forall i :: 0 <= i < behind ==> wait[i] == r.wait[k + 1 + i])
            && (forall j :: 0 <= j < |at| ==> wait[behind + j] == r.wait[at[j]])
    ensures Apply(r, Get).0.ctxs
         == if k < |r.wait|
            then r.ctxs[r.wait[k] := r.ctxs[r.wait[k]].(inWorker := true, inWaitQue := false)] else r.ctxs
  {
    k := ScanOrder(r.ctxs, r.wait);
    at := RunningOfAt(r.ctxs, r.wait[..k]);
    hide Scan, RunningOf, Running;
    assert |Pick(r.wait[..k], at)| == |at|;
  }

  /** Actor a waits, can run, and x waits behind it only. */
  ghost predicate InFront(r: Ready, a: string, x: string)
  {
    CanRun(r.ctxs, a) && exists i :: FrontAt(r, a, x, i)
  }

  ghost predicate FrontAt(r: Ready, a: string, x: string, i: nat)
  {
    i < |r.wait| && r.wait[i] == a && forall j :: 0 <= j <= i ==> r.wait[j] != x
  }

  /** The run hands out a, and not x before it. */
  ghost predicate OutBefore(r: Ready, ops: seq<QueueOp>, a: string, x: string)
    decreases |ops|
  {
    && ops != [] && Apply(r, ops[0]).1 != Some(x)
    && (Apply(r, ops[0]).1 == Some(a) || OutBefore(Apply(r, ops[0]).0, ops[1..], a, x))
  }

  lemma StepKeepsFront(r: Ready, op: QueueOp, a: string, x: string)
    requires InFront(r, a, x)
    ensures Apply(r, op).1 != Some(x)
    ensures Apply(r, op).1 != Some(a) ==> InFront(Apply(r, op).0, a, x)
  {
    var i :| FrontAt(r, a, x, i);
    if op.Get? {
      var k, at := GetOrder(r);
      assert k <= i && r.wait[k] != x;
      if r.wait[k] != a {
        assert FrontAt(Apply(r, op).0, a, x, i - k - 1);
      }
    } else {
      assert FrontAt(Apply(r, op).0, a, x, i);
    }
  }

  /** An actor that can run is handed out before those that wait behind it, whatever is interleaved. */
  lemma {:induction false} FrontGoesFirst(r: Ready, ops: seq<QueueOp>, a: string, x: string)
    requires InFront(r, a, x) && HandsOut(r, ops, x)
    ensures OutBefore(r, ops, a, x)
    decreases |ops|
  {
    hide Apply, InFront;
    StepKeepsFront(r, ops[0], a, x);
    if Apply(r, ops[0]).1 != Some(a) {
      FrontGoesFirst(Apply(r, ops[0]).0, ops[1..], a, x);
    }
  }

  /** So whoever can run and waits behind the actor handed out is handed out before every running one that was passed
      over, though that stood in front of it, whatever is interleaved. */
  lemma PassedOverWaits(r: Ready, ops: seq<QueueOp>, i: nat, j: nat)
    requires Distinct(r.wait) && i < j < |r.wait|
    requires !CanRun(r.ctxs, r.wait[i]) && CanRun(r.ctxs, r.wait[j])
    requires Apply(r, Get).1.Some? && Apply(r, Get).1 != Some(r.wait[j])
    requires forall m :: 0 <= m < i ==> !CanRun(r.ctxs, r.wait[m])
    requires HandsOut(Apply(r, Get).0, ops, r.wait[i])
    ensures OutBefore(Apply(r, Get).0, ops, r.wait[j], r.wait[i])
  {
    var k, at := GetOrder(r);
    assert i < k < j;
    assert FrontAt(Apply(r, Get).0, r.wait[j], r.wait[i], j - k - 1);
    FrontGoesFirst(Apply(r, Get).0, ops, r.wait[j], r.wait[i]);
  }

  function One(a: Option<string>): multiset<string>
  {
    match a
    case None => multiset{}
    case Some(x) => multiset{x}
  }

  lemma MultisetFront(x: string, s: seq<string>)
    ensures multiset([x] + s) == multiset{x} + multiset(s)
  {
  }

  /** Nothing but the actor handed out leaves the queue, as long as no context has expired. */
  lemma {:induction false} ScanConserves(ctxs: map<string, Actor>, wait: seq<string>)
    requires forall i :: 0 <= i < |wait| ==> wait[i] in ctxs
    ensures var s := Scan(ctxs, wait); multiset(wait) == multiset(s.1) + multiset(s.2) + One(s.0)
    ensures forall i :: 0 <= i < |Scan(ctxs, wait).2| ==> Running(ctxs, Scan(ctxs, wait).2[i])
  {
    if wait == [] {
    } else {
      assert wait == [wait[0]] + wait[1..];
      MultisetFront(wait[0], wait[1..]);
      if ctxs[wait[0]].inWorker {
        ScanConserves(ctxs, wait[1..]);
        MultisetFront(wait[0], Scan(ctxs, wait[1..]).2);
      }
    }
  }
}
