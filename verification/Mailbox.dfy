/** The three-queue mailbox (myframe/mailbox.cpp:55-124) and what its queues mean for a whole history. */
module Mailboxes {
  import opened Basics
  import opened Messages

  datatype Box = Box(recv: seq<Msg>, run: seq<Msg>, send: seq<Msg>, pendingSize: int, runSize: int)

  function Min(a: int, b: int): int
  {
    if a < b then a else b
  }

  /** The pending messages kept when one more arrives. */
  function Kept(recv: seq<Msg>, pendingSize: int): seq<Msg>
  {
    if pendingSize > 0 && |recv| >= pendingSize then recv[|recv| - pendingSize + 1..] else recv
  }

  function Receive(b: Box, m: Msg): Box
  {
    b.(recv := Kept(b.recv, b.pendingSize) + [m])
  }

  /** How many pending messages one assignment moves. */
  function Batch(b: Box): (k: nat)
    ensures k <= |b.recv|
  {
    if b.runSize > 0 then Min(b.runSize, |b.recv|) else |b.recv|
  }

  /** The limited branch splices at the front of the run queue, the unlimited one at its end. */
  function MovedToRun(b: Box): Box
  {
    if b.runSize > 0 then b.(run := b.recv[..Batch(b)] + b.run, recv := b.recv[Batch(b)..])
    else b.(run := b.run + b.recv, recv := [])
  }

  class Mailbox {
    var recv: seq<Msg>
    var run: seq<Msg>
    var send: seq<Msg>
    var pendingQueueSize: int
    var runQueueSize: int

    function View(): Box
      reads this
    {
      Box(recv, run, send, pendingQueueSize, runQueueSize)
    }

    constructor ()
      ensures View() == Box([], [], [], -1, -1)
    {
      recv, run, send := [], [], [];
      pendingQueueSize, runQueueSize := -1, -1;
    }

    method Recv(m: Msg)
      modifies this`recv
      ensures View() == Receive(old(View()), m)
    {
      if pendingQueueSize > 0 {
        while |recv| >= pendingQueueSize
          invariant Kept(recv, pendingQueueSize) == Kept(old(recv), pendingQueueSize)
          decreases |recv|
        {
          recv := recv[1..];
        }
      }
      recv := recv + [m];
    }

    method MoveToRun()
      modifies this`recv, this`run
      ensures View() == MovedToRun(old(View()))
      ensures var n := if 0 < runQueueSize < |old(recv)| then runQueueSize else |old(recv)|;
              && recv == old(recv)[n..]
              && run == if runQueueSize > 0 then old(recv)[..n] + old(run) else old(run) + old(recv)
    {
      if runQueueSize > 0 {
        var it, i := 0, 0;
        while i < runQueueSize && it != |recv|
          invariant 0 <= i == it <= Min(runQueueSize, |recv|)
        {
          it := it + 1;
          i := i + 1;
        }
        run := recv[..it] + run;
        recv := recv[it..];
        return;
      }
      run := run + recv;
      recv := [];
    }

    method PopRun() returns (m: Option<Msg>)
      modifies this`run
      ensures m == if old(run) == [] then None else Some(old(run)[0])
      ensures View() == if old(run) == [] then old(View()) else old(View()).(run := old(run)[1..])
    {
      if run == [] {
        return None;
      }
      m := Some(run[0]);
      run := run[1..];
    }

    method Send(m: Msg)
      modifies this`send
      ensures View() == old(View()).(send := old(send) + [m])
    {
      send := send + [m];
    }

    /** Splices a whole list onto the send queue. */
    method SendList(ms: seq<Msg>)
      modifies this`send
      ensures View() == old(View()).(send := old(send) + ms)
    {
      send := send + ms;
    }
  }

  // ---- What the queues mean for a whole history --------------------------------------------------

  /** How a message left the pending queue: moved to the run queue after `at` deliveries, or pushed out by delivery
      number `at`, counting from 0. */
  datatype Fate = Ran(at: nat) | Lost(at: nat)

  /** Everything delivered to one mailbox, the fate of each message that is no longer pending, in the order of
      delivery, and the messages handled. */
  datatype History = History(delivered: seq<Msg>, fates: seq<Fate>, handled: seq<Msg>)

  /** The deliveries that were moved to the run queue, in the order of delivery. */
  ghost function Survivors(from: seq<Msg>, fates: seq<Fate>): seq<Msg>
    requires |fates| <= |from|
  {
    if fates == [] then []
    else
      var p := |fates| - 1;
      var front := Survivors(from, fates[..p]);
      if fates[p].Ran? then front + [from[p]] else front
  }

  /** Message number p was taken while still within the bound, or pushed out by exactly the delivery that found the
      queue full with p at its front. */
  ghost predicate Fated(p: nat, f: Fate, pendingSize: int, deliveries: nat)
  {
    match f
    case Ran(at) => p < at <= deliveries && (pendingSize > 0 ==> at <= p + pendingSize)
    case Lost(at) => pendingSize > 0 && at == p + pendingSize && at < deliveries
  }

  /** Every message that is gone has a fate it can have, and nothing left before an older message. */
  ghost predicate Fair(fates: seq<Fate>, pendingSize: int, deliveries: nat)
  {
    && (forall p :: 0 <= p < |fates| ==> Fated(p, fates[p], pendingSize, deliveries))
    && (forall p, q :: 0 <= p < q < |fates| ==> fates[p].at <= fates[q].at)
  }

  /** The messages without a fate are pending, within the bound, and each message that is gone was the oldest pending
      one when it left. */
  ghost predicate Books(h: History, b: Box)
  {
    && (b.pendingSize > 0 ==> |b.recv| <= b.pendingSize)
    && |h.fates| + |b.recv| == |h.delivered|
    && b.recv == h.delivered[|h.fates|..]
    && Fair(h.fates, b.pendingSize, |h.delivered|)
  }

  /** Besides, the messages taken are handled or in the run queue, whatever the order. */
  ghost predicate Accounts(h: History, b: Box)
  {
    Books(h, b) && multiset(h.handled + b.run) == multiset(Survivors(h.delivered, h.fates))
  }

  /** Besides, they are in delivery order. */
  ghost predicate Explains(h: History, b: Box)
  {
    Books(h, b) && h.handled + b.run == Survivors(h.delivered, h.fates)
  }

  ghost function Repeated(f: Fate, n: nat): (r: seq<Fate>)
    ensures |r| == n
  {
    seq(n, _ => f)
  }

  ghost function Delivered(h: History, b: Box, m: Msg): History
  {
    h.(delivered := h.delivered + [m],
       fates := h.fates + Repeated(Lost(|h.delivered|), |b.recv| - |Kept(b.recv, b.pendingSize)|))
  }

  ghost function Assigned(h: History, b: Box): History
  {
    h.(fates := h.fates + Repeated(Ran(|h.delivered|), Batch(b)))
  }

  ghost function Handled(h: History, b: Box): History
    requires b.run != []
  {
    h.(handled := h.handled + [b.run[0]])
  }

  lemma {:induction false} SurvivorsOfLonger(from: seq<Msg>, m: Msg, fates: seq<Fate>)
    requires |fates| <= |from|
    ensures Survivors(from + [m], fates) == Survivors(from, fates)
  {
    if fates == [] {
    } else {
      SurvivorsOfLonger(from, m, fates[..|fates| - 1]);
    }
  }

  lemma {:induction false} SurvivorsAfter(from: seq<Msg>, fates: seq<Fate>, f: Fate, n: nat)
    requires |fates| + n <= |from|
    ensures Survivors(from, fates + Repeated(f, n))
         == Survivors(from, fates) + if f.Ran? then from[|fates|..|fates| + n] else []
  {
    if n == 0 {
      assert fates + Repeated(f, n) == fates;
    } else {
      SurvivorsAfter(from, fates, f, n - 1);
      assert (fates + Repeated(f, n))[..|fates| + n - 1] == fates + Repeated(f, n - 1);
    }
  }

  lemma FairAppended(fates: seq<Fate>, f: Fate, n: nat, pendingSize: int, before: nat, after: nat)
    requires Fair(fates, pendingSize, before) && before <= after && before <= f.at
    requires forall p :: |fates| <= p < |fates| + n ==> Fated(p, f, pendingSize, after)
    ensures Fair(fates + Repeated(f, n), pendingSize, after)
  {
    var all := fates + Repeated(f, n);
    forall p | 0 <= p < |all| ensures Fated(p, all[p], pendingSize, after) && (p < |fates| ==> all[p].at <= before) {
      assert p < |fates| ==> Fated(p, fates[p], pendingSize, before);
    }
    hide Fated;
  }

  lemma KeptFits(recv: seq<Msg>, pendingSize: int)
    requires pendingSize > 0 ==> |recv| <= pendingSize
    ensures var n := |recv| - |Kept(recv, pendingSize)|;
            && n == (if pendingSize > 0 && |recv| == pendingSize then 1 else 0)
            && Kept(recv, pendingSize) == recv[n..]
  {
  }

  lemma SuffixGrows(all: seq<Msg>, from: nat, n: nat, m: Msg)
    requires from + n <= |all|
    ensures all[from..][n..] + [m] == (all + [m])[from + n..]
  {
  }

  lemma SuffixSplits(all: seq<Msg>, from: nat, k: nat)
    requires from + k <= |all|
    ensures all[from..][..k] == all[from..from + k] && all[from..][k..] == all[from + k..]
  {
  }

  lemma Joined(a: seq<Msg>, b: seq<Msg>, c: seq<Msg>)
    ensures a + (b + c) == (a + b) + c
  {
  }

  /** A delivery takes nothing and loses at most the oldest pending message. */
  lemma DeliverBooks(h: History, b: Box, m: Msg)
    requires Books(h, b)
    ensures Books(Delivered(h, b, m), Receive(b, m))
    ensures Survivors(Delivered(h, b, m).delivered, Delivered(h, b, m).fates) == Survivors(h.delivered, h.fates)
    ensures Receive(b, m).run == b.run && Delivered(h, b, m).handled == h.handled
  {
    hide Survivors, Fair, Fated, Kept, Repeated;
    var n := |b.recv| - |Kept(b.recv, b.pendingSize)|;
    var f := Lost(|h.delivered|);
    KeptFits(b.recv, b.pendingSize);
    SuffixGrows(h.delivered, |h.fates|, n, m);
    SurvivorsAfter(h.delivered, h.fates, f, n);
    SurvivorsOfLonger(h.delivered, m, h.fates + Repeated(f, n));
    LostIsFated(|h.fates|, n, f, b.pendingSize, |h.delivered| + 1);
    FairAppended(h.fates, f, n, b.pendingSize, |h.delivered|, |h.delivered| + 1);
    assert Survivors(h.delivered, h.fates) + [] == Survivors(h.delivered, h.fates);
  }

  lemma DeliverExplained(h: History, b: Box, m: Msg)
    requires Explains(h, b)
    ensures Explains(Delivered(h, b, m), Receive(b, m))
  {
    hide Books, Survivors, Receive, Delivered;
    DeliverBooks(h, b, m);
  }

  lemma DeliverAccounts(h: History, b: Box, m: Msg)
    requires Accounts(h, b)
    ensures Accounts(Delivered(h, b, m), Receive(b, m))
  {
    hide Books, Survivors, Receive, Delivered;
    DeliverBooks(h, b, m);
  }

  lemma LostIsFated(from: nat, n: nat, f: Fate, pendingSize: int, deliveries: nat)
    requires deliveries > 0 && f == Lost(deliveries - 1)
    requires n == if pendingSize > 0 && deliveries - 1 - from == pendingSize then 1 else 0
    ensures forall p :: from <= p < from + n ==> Fated(p, f, pendingSize, deliveries)
  {
  }

  lemma RanIsFated(from: nat, n: nat, f: Fate, pendingSize: int, deliveries: nat)
    requires f == Ran(deliveries)
    requires from + n <= deliveries && (pendingSize > 0 ==> deliveries - from <= pendingSize)
    ensures forall p :: from <= p < from + n ==> Fated(p, f, pendingSize, deliveries)
  {
  }

  /** Assignment takes the oldest pending messages, whatever the run queue. */
  lemma AssignBooks(h: History, b: Box)
    requires Books(h, b)
    ensures Books(Assigned(h, b), MovedToRun(b))
    ensures Survivors(Assigned(h, b).delivered, Assigned(h, b).fates)
         == Survivors(h.delivered, h.fates) + b.recv[..Batch(b)]
  {
    hide Survivors, Fair, Fated, Repeated, MovedToRun, Batch;
    var k := Batch(b);
    var f := Ran(|h.delivered|);
    MovedRecv(b);
    SuffixSplits(h.delivered, |h.fates|, k);
    SurvivorsAfter(h.delivered, h.fates, f, k);
    RanIsFated(|h.fates|, k, f, b.pendingSize, |h.delivered|);
    FairAppended(h.fates, f, k, b.pendingSize, |h.delivered|, |h.delivered|);
  }

  /** A move takes as many messages as the limit of the run queue, all there are if that has no limit or they are fewer,
      oldest first. */
  lemma MovesExactly(b: Box)
    ensures var n := if 0 < b.runSize < |b.recv| then b.runSize else |b.recv|;
            && MovedToRun(b).recv == b.recv[n..]
            && MovedToRun(b).run == (if b.runSize > 0 then b.recv[..n] + b.run else b.run + b.recv[..n])
            && MovedToRun(b) == b.(run := MovedToRun(b).run, recv := MovedToRun(b).recv)
  {
    assert b.recv[..|b.recv|] == b.recv;
  }

  /** The fate of what was moved, and of no other message, is to have been moved after as many deliveries as there had
      been. */
  lemma AssignedFates(h: History, b: Box)
    ensures var n := |b.recv| - |MovedToRun(b).recv|;
            var after := Assigned(h, b);
            && n == (if 0 < b.runSize < |b.recv| then b.runSize else |b.recv|)
            && |after.fates| == |h.fates| + n && after.fates[..|h.fates|] == h.fates
            && (forall p :: |h.fates| <= p < |after.fates| ==> after.fates[p] == Ran(|h.delivered|))
            && after.delivered == h.delivered && after.handled == h.handled
  {
    MovesExactly(b);
  }

  lemma MovedRecv(b: Box)
    ensures MovedToRun(b) == b.(run := MovedToRun(b).run, recv := b.recv[Batch(b)..])
    ensures multiset(MovedToRun(b).run) == multiset(b.run) + multiset(b.recv[..Batch(b)])
  {
    assert b.runSize <= 0 ==> b.recv[..Batch(b)] == b.recv;
  }

  /** With a limit on the run queue, assignment keeps the order only because the run queue is empty then; see
      OrderKept. */
  lemma AssignExplained(h: History, b: Box)
    requires Explains(h, b) && (b.run == [] || b.runSize <= 0)
    ensures Explains(Assigned(h, b), MovedToRun(b))
  {
    hide Books, Survivors, MovedToRun, Batch;
    AssignBooks(h, b);
    MovedInOrder(b);
    Joined(h.handled, b.run, b.recv[..Batch(b)]);
  }

  /** Without it, still nothing is lost or doubled. */
  lemma AssignAccounts(h: History, b: Box)
    requires Accounts(h, b)
    ensures Accounts(Assigned(h, b), MovedToRun(b))
  {
    hide Fair, Survivors, MovedToRun, Batch;
    AssignBooks(h, b);
    MovedRecv(b);
    SameParts(h.handled, b.run, b.recv[..Batch(b)], MovedToRun(b).run, Survivors(h.delivered, h.fates));
  }

  lemma SameParts(handled: seq<Msg>, run: seq<Msg>, moved: seq<Msg>, after: seq<Msg>, survivors: seq<Msg>)
    requires multiset(after) == multiset(run) + multiset(moved) && multiset(handled + run) == multiset(survivors)
    ensures multiset(handled + after) == multiset(survivors + moved)
  {
    assert multiset(handled + after) == multiset(handled) + multiset(after);
    assert multiset(handled + run) == multiset(handled) + multiset(run);
    assert multiset(survivors + moved) == multiset(survivors) + multiset(moved);
  }

  lemma MovedInOrder(b: Box)
    requires b.run == [] || b.runSize <= 0
    ensures MovedToRun(b) == b.(run := b.run + b.recv[..Batch(b)], recv := b.recv[Batch(b)..])
  {
    assert b.run == [] ==> b.recv[..Batch(b)] + b.run == b.run + b.recv[..Batch(b)];
  }

  lemma HeadHandled(h: History, b: Box)
    requires b.run != []
    ensures Handled(h, b).handled + b.run[1..] == h.handled + b.run
  {
    assert h.handled + b.run == h.handled + [b.run[0]] + b.run[1..];
  }

  lemma HandleExplained(h: History, b: Box)
    requires Explains(h, b) && b.run != []
    ensures Explains(Handled(h, b), b.(run := b.run[1..]))
  {
    hide Fair, Survivors;
    HeadHandled(h, b);
  }

  lemma HandleAccounts(h: History, b: Box)
    requires Accounts(h, b) && b.run != []
    ensures Accounts(Handled(h, b), b.(run := b.run[1..]))
  {
    hide Fair, Survivors;
    HeadHandled(h, b);
  }

  lemma {:induction false} AllSurvive(from: seq<Msg>, fates: seq<Fate>)
    requires |fates| <= |from| && forall p :: 0 <= p < |fates| ==> fates[p].Ran?
    ensures Survivors(from, fates) == from[..|fates|]
  {
    if fates == [] {
    } else {
      AllSurvive(from, fates[..|fates| - 1]);
    }
  }

  /** With an unlimited pending queue nothing is lost and nothing overtakes. */
  lemma UnboundedIsFifo(h: History, b: Box)
    requires Explains(h, b) && b.pendingSize <= 0
    ensures h.handled + b.run + b.recv == h.delivered
  {
    forall p | 0 <= p < |h.fates| ensures h.fates[p].Ran? {
      assert Fated(p, h.fates[p], b.pendingSize, |h.delivered|);
    }
    AllSurvive(h.delivered, h.fates);
  }

  /** Nor, whatever the order, is anything lost or doubled. */
  lemma UnboundedLosesNothing(h: History, b: Box)
    requires Accounts(h, b) && b.pendingSize <= 0
    ensures multiset(h.handled + b.run + b.recv) == multiset(h.delivered)
  {
    forall p | 0 <= p < |h.fates| ensures h.fates[p].Ran? {
      assert Fated(p, h.fates[p], b.pendingSize, |h.delivered|);
    }
    AllSurvive(h.delivered, h.fates);
    assert h.delivered == h.delivered[..|h.fates|] + b.recv;
    assert multiset(h.handled + b.run + b.recv) == multiset(h.handled + b.run) + multiset(b.recv);
  }

  /** A bounded queue that has had no more than N deliveries has lost nothing either. */
  lemma NothingLostWithinBound(h: History, b: Box)
    requires Explains(h, b) && |h.delivered| <= b.pendingSize
    ensures h.handled + b.run + b.recv == h.delivered
  {
    forall p | 0 <= p < |h.fates| ensures h.fates[p].Ran? {
      assert Fated(p, h.fates[p], b.pendingSize, |h.delivered|);
    }
    AllSurvive(h.delivered, h.fates);
  }

  // ---- When moving keeps the order ---------------------------------------------------------------

  ghost function Positions(start: nat, k: nat): (r: seq<nat>)
    ensures |r| == k
  {
    seq(k, i requires 0 <= i < k => start + i)
  }

  ghost function Pick<T>(from: seq<T>, at: seq<nat>): (r: seq<T>)
    requires forall i :: 0 <= i < |at| ==> at[i] < |from|
    ensures |r| == |at|
  {
    seq(|at|, i requires 0 <= i < |at| => from[at[i]])
  }

  /** The run queue followed by the pending queue after moving, as positions in what they were before. */
  ghost function MoveOrder(b: Box): (r: seq<nat>)
    ensures |r| == |b.run| + |b.recv|
    ensures forall i :: 0 <= i < |r| ==> r[i] < |b.run| + |b.recv|
  {
    var k := Batch(b);
    if b.runSize > 0 then
      Positions(|b.run|, k) + Positions(0, |b.run|) + Positions(|b.run| + k, |b.recv| - k)
    else Positions(0, |b.run| + |b.recv|)
  }

  lemma MoveOrderIs(b: Box)
    ensures MovedToRun(b).run + MovedToRun(b).recv == Pick(b.run + b.recv, MoveOrder(b))
  {
  }

  /** Moving leaves every message in its place exactly when there is no limit, nothing in the run queue, or nothing
      to move. */
  lemma OrderKept(b: Box)
    ensures Increasing(MoveOrder(b)) <==> b.runSize <= 0 || b.run == [] || b.recv == []
  {
    if b.runSize > 0 && b.run != [] && b.recv != [] {
      assert MoveOrder(b)[0] == |b.run| && MoveOrder(b)[Batch(b)] == 0;
    }
  }

  /** As lists of messages, equal ones not told apart, the order is kept exactly when there is no limit or the run
      queue and what is moved give the same list either way round. */
  lemma FrontSpliceReorders(b: Box)
    ensures MovedToRun(b).run + MovedToRun(b).recv == b.run + b.recv <==>
            b.runSize <= 0 || b.recv[..Batch(b)] + b.run == b.run + b.recv[..Batch(b)]
  {
    var k := Batch(b);
    assert b.run + b.recv == (b.run + b.recv[..k]) + b.recv[k..];
    if b.runSize > 0 {
      SameFront(b.recv[..k] + b.run, b.run + b.recv[..k], b.recv[k..]);
    }
  }

  lemma SameFront(a: seq<Msg>, b: seq<Msg>, rest: seq<Msg>)
    requires |a| == |b|
    ensures a + rest == b + rest <==> a == b
  {
    assert (a + rest)[..|a|] == a && (b + rest)[..|b|] == b;
  }

  lemma DistinctReordered(b: Box)
    requires Distinct(b.run + b.recv)
    ensures MovedToRun(b).run + MovedToRun(b).recv == b.run + b.recv <==>
            b.runSize <= 0 || b.run == [] || b.recv == []
  {
    var all := b.run + b.recv;
    if b.runSize > 0 && b.run != [] && b.recv != [] {
      assert (MovedToRun(b).run + MovedToRun(b).recv)[0] == b.recv[0] == all[|b.run|];
      assert all[0] != all[|b.run|];
    }
  }

  // ---- The order of handling, by position --------------------------------------------------------

  /** What assignment does to the positions of the messages handled and running: those it moves come next in delivery,
      but with a limit they go in front of what is running. */
  ghost function Reordered(order: seq<nat>, handled: nat, next: nat, b: Box): seq<nat>
  {
    if b.runSize > 0 && handled <= |order| then order[..handled] + Positions(next, Batch(b)) + order[handled..]
    else order + Positions(next, Batch(b))
  }

  /** The messages handled and running are those delivered at the given positions, each position once and all of them
      no longer pending. */
  ghost predicate Ordered(h: History, order: seq<nat>, b: Box)
  {
    && |order| == |h.handled| + |b.run| && |h.fates| <= |h.delivered|
    && (forall i :: 0 <= i < |order| ==> order[i] < |h.fates|)
    && Distinct(order)
    && h.handled + b.run == Pick(h.delivered, order)
  }

  lemma OrderedDelivered(h: History, order: seq<nat>, b: Box, m: Msg)
    requires Ordered(h, order, b) && Books(h, b)
    ensures Ordered(Delivered(h, b, m), order, Receive(b, m))
  {
    hide Fair, Kept;
    DeliverBooks(h, b, m);
    assert Pick(h.delivered + [m], order) == Pick(h.delivered, order);
  }

  lemma OrderedHandled(h: History, order: seq<nat>, b: Box)
    requires Ordered(h, order, b) && b.run != []
    ensures Ordered(Handled(h, b), order, b.(run := b.run[1..]))
  {
    HeadHandled(h, b);
  }

  lemma PickConcat<T>(from: seq<T>, a: seq<nat>, b: seq<nat>)
    requires forall i :: 0 <= i < |a| ==> a[i] < |from|
    requires forall i :: 0 <= i < |b| ==> b[i] < |from|
    ensures forall i :: 0 <= i < |a + b| ==> (a + b)[i] < |from|
    ensures Pick(from, a + b) == Pick(from, a) + Pick(from, b)
  {
  }

  lemma PickPositions(from: seq<Msg>, start: nat, k: nat)
    requires start + k <= |from|
    ensures forall i :: 0 <= i < k ==> Positions(start, k)[i] < |from|
    ensures Pick(from, Positions(start, k)) == from[start..start + k]
  {
  }

  lemma DistinctReorder(order: seq<nat>, handled: nat, next: nat, b: Box)
    requires Distinct(order) && forall i :: 0 <= i < |order| ==> order[i] < next
    ensures var r := Reordered(order, handled, next, b);
            && Distinct(r) && |r| == |order| + Batch(b) && forall i :: 0 <= i < |r| ==> r[i] < next + Batch(b)
  {
    hide Batch;
  }

  lemma OrderedAssigned(h: History, order: seq<nat>, b: Box)
    requires Ordered(h, order, b) && Books(h, b)
    ensures Ordered(Assigned(h, b), Reordered(order, |h.handled|, |h.fates|, b), MovedToRun(b))
  {
    hide Fair, Batch, Distinct, Positions, Repeated;
    var n, k, f := |h.handled|, Batch(b), |h.fates|;
    DistinctReorder(order, n, f, b);
    PickPositions(h.delivered, f, k);
    SuffixSplits(h.delivered, f, k);
    assert order == order[..n] + order[n..];
    PickConcat(h.delivered, order[..n], order[n..]);
    assert Pick(h.delivered, order[..n]) == h.handled && Pick(h.delivered, order[n..]) == b.run by {
      SplitEqual(h.handled, b.run, Pick(h.delivered, order[..n]), Pick(h.delivered, order[n..]));
    }
    if b.runSize > 0 {
      PickConcat(h.delivered, order[..n], Positions(f, k));
      PickConcat(h.delivered, order[..n] + Positions(f, k), order[n..]);
      Joined(h.handled, b.recv[..k], b.run);
    } else {
      PickConcat(h.delivered, order, Positions(f, k));
      WholeBatch(b);
      Joined(h.handled, b.run, b.recv);
    }
  }

  lemma WholeBatch(b: Box)
    requires b.runSize <= 0
    ensures Batch(b) == |b.recv| && b.recv[..Batch(b)] == b.recv
  {
  }

  lemma SplitEqual(a: seq<Msg>, b: seq<Msg>, c: seq<Msg>, d: seq<Msg>)
    requires a + b == c + d && |a| == |c|
    ensures a == c && b == d
  {
    assert (a + b)[..|a|] == a && (c + d)[..|c|] == c;
    assert (a + b)[|a|..] == b && (c + d)[|c|..] == d;
  }

  /** Once two messages are out of order they stay so. */
  lemma ReorderStays(order: seq<nat>, handled: nat, next: nat, b: Box)
    requires !Increasing(order)
    ensures !Increasing(Reordered(order, handled, next, b))
  {
    var i, j :| 0 <= i < j < |order| && order[i] >= order[j];
    var r, k := Reordered(order, handled, next, b), Batch(b);
    hide Batch;
    if b.runSize > 0 && handled <= |order| {
      var i' := if i < handled then i else i + k;
      var j' := if j < handled then j else j + k;
      assert r[i'] == order[i] && r[j'] == order[j] && i' < j';
    } else {
      assert r[i] == order[i] && r[j] == order[j];
    }
  }

  /** Moving messages in front of others that are running puts them out of order, and nothing else does. */
  lemma ReorderIff(order: seq<nat>, handled: nat, next: nat, b: Box)
    requires Increasing(order) && handled <= |order| && b.recv != []
    requires forall i :: 0 <= i < |order| ==> order[i] < next
    ensures Increasing(Reordered(order, handled, next, b)) <==> b.runSize <= 0 || handled == |order|
  {
    var r, k := Reordered(order, handled, next, b), Batch(b);
    assert k > 0;
    hide Batch;
    if b.runSize > 0 && handled < |order| {
      assert r[handled] == next && r[handled + k] == order[handled] < next;
    } else {
      assert handled == |order| ==> order[..handled] == order && order[handled..] == [];
      assert r == order + Positions(next, k);
    }
  }
}
