/** Mail from one actor to another, over whole runs: what a report leads to is now what routing and the subscription
    table make of the messages its sender has sent (myframe/app.cpp:493-535, 585-674). */
module ProtocolMail {
  import opened Basics
  import opened Messages
  import opened Names
  import opened Mailboxes
  import opened ActorContexts
  import opened WorkerContexts
  import opened Routing
  import opened MsgManagers
  import opened Publications
  import opened Scheduler
  import opened Protocol
  import opened ProtocolEvents
  import opened ProtocolGuarantees

  /** Who sends: an actor while handling, a user or timer worker while it runs, or somebody outside, such as the
      start-up cache or another thread. */
  datatype Sender = ByActor(name: string) | ByWorker(name: string) | Outside

  /** A message handed to a mailbox, and who sent it. */
  datatype Posting = Posting(delivery: Delivery, from: Sender)

  /** The running phase with its subscription table and node, everything each sender has sent, everything handed to
      mailboxes, and the subscriptions and publications dispatched so far. */
  datatype Traced = Traced(sys: Sys, subs: Subs, node: string, sent: map<Sender, seq<Msg>>, posts: seq<Posting>,
                           events: seq<Event>)

  /** A step, the messages from outside that it dispatches, and the deliveries of each message. */
  datatype TracedStep = TracedStep(step: Step, news: seq<Msg>, parts: seq<seq<Delivery>>)

  /** The messages a step dispatches. */
  ghost function DispatchedBy(t: Traced, s: TracedStep): seq<Msg>
    requires Enabled(t.sys, s.step)
  {
    match s.step
    case MainProcess(_) => if t.sys.batch == [] then [] else SendsOf(t.sys.core, t.sys.batch[0])
    case MainInject(_) => s.news
    case _ => []
  }

  /** What is delivered is what the messages dispatched lead to, and nothing else. */
  ghost predicate Tied(t: Traced, s: TracedStep)
  {
    && Enabled(t.sys, s.step)
    && DispatchesAll(t.subs, DispatchedBy(t, s), t.node, s.parts)
    && (s.step.MainProcess? || s.step.MainInject? ==> s.step.deliveries == Flattened(s.parts))
  }

  /** Whose messages a report takes along. */
  function Reporter(s: Sys): Sender
    requires s.batch != [] && s.batch[0] in s.core.pool.workers
  {
    var ctx := s.core.pool.workers[s.batch[0]];
    if ctx.kind != Common then ByWorker(s.batch[0])
    else if ctx.context.Some? then ByActor(ctx.context.value) else Outside
  }

  function PostsOf(ds: seq<Delivery>, from: Sender): seq<Posting>
  {
    if ds == [] then [] else [Posting(ds[0], from)] + PostsOf(ds[1..], from)
  }

  function EventsOf(ms: seq<Msg>): seq<Event>
  {
    if ms == [] then []
    else
      var front, m := EventsOf(ms[..|ms| - 1]), ms[|ms| - 1];
      if m.kind == SUBSCRIBE then front + [Subscribe(m)]
      else if m.kind == PUBLISH then front + [Publish(m)] else front
  }

  function SentMore(sent: map<Sender, seq<Msg>>, from: Sender, ms: seq<Msg>): map<Sender, seq<Msg>>
  {
    if from in sent then sent[from := sent[from] + ms] else sent
  }

  ghost function TracedAfter(t: Traced, s: TracedStep): Traced
    requires Tied(t, s)
  {
    var ms := DispatchedBy(t, s);
    var u := t.(sys := After(t.sys, s.step), subs := TableAfterAll(t.subs, ms), events := t.events + EventsOf(ms));
    match s.step
    case Handle(w, sends) => u.(sent := SentMore(t.sent, ByActor(t.sys.core.pool.workers[w].context.value), sends))
    case UserSend(w, sends) => u.(sent := SentMore(t.sent, ByWorker(w), sends))
    case MainProcess(ds) => if t.sys.batch == [] then u else u.(posts := t.posts + PostsOf(ds, Reporter(t.sys)))
    case MainInject(ds) => u.(posts := t.posts + PostsOf(ds, Outside))
    case _ => u
  }

  /** The senders of a system: its actors and its user and timer workers. */
  ghost predicate Sends(c: Core, from: Sender)
  {
    match from
    case ByActor(a) => a in c.ready.ctxs
    case ByWorker(w) => w in c.pool.workers && c.pool.workers[w].kind != Common
    case Outside => false
  }

  /** What a sender has sent and not yet handed over. */
  function SendQueue(c: Core, from: Sender): seq<Msg>
  {
    match from
    case ByActor(a) => if a in c.ready.ctxs then c.ready.ctxs[a].box.send else []
    case ByWorker(w) =>
      if w in c.pool.workers && c.pool.workers[w].kind != Common then c.pool.workers[w].box.send else []
    case Outside => []
  }

  /** The subscription table is what the events of the start-up have left. */
  ghost predicate TracedInit(t: Traced)
  {
    && Init(t.sys) && t.posts == [] && t.subs == TableOf(t.events)
    && (forall from :: from in t.sent <==> Sends(t.sys.core, from))
    && forall from :: from in t.sent ==> t.sent[from] == []
  }

  ghost predicate TracedRuns(t: Traced, steps: seq<TracedStep>, u: Traced)
    decreases |steps|
  {
    if steps == [] then t == u
    else Tied(t, steps[0]) && TracedRuns(TracedAfter(t, steps[0]), steps[1..], u)
  }

  // ---- What has been handed over -----------------------------------------------------------------

  /** The plain in-process messages sent by a to component b, as they were handed over. */
  function FromTo(posts: seq<Posting>, a: Sender, b: string): seq<Msg>
  {
    if posts == [] then []
    else
      var p := posts[0];
      if p.from == a && p.delivery == To(b, p.delivery.msg) && LocalFor(p.delivery.msg, b)
      then [p.delivery.msg] + FromTo(posts[1..], a, b) else FromTo(posts[1..], a, b)
  }

  function ForActor(d: Delivery, actors: set<string>, b: string): seq<Msg>
  {
    if d.ToActor? && d.actor in actors && Address(d.msg, d.actor) == b then [d.msg] else []
  }

  function ForWorker(d: Delivery, workers: set<string>, b: string): seq<Msg>
  {
    if d.ToWorker? && d.worker in workers && Address(d.msg, d.worker) == b then [d.msg] else []
  }

  /** Everything handed to the mailbox of actor b. */
  function MailToActor(posts: seq<Posting>, actors: set<string>, b: string): seq<Msg>
  {
    if posts == [] then [] else ForActor(posts[0].delivery, actors, b) + MailToActor(posts[1..], actors, b)
  }

  /** Everything handed to the mailbox of user worker b. */
  function MailToWorker(posts: seq<Posting>, workers: set<string>, b: string): seq<Msg>
  {
    if posts == [] then [] else ForWorker(posts[0].delivery, workers, b) + MailToWorker(posts[1..], workers, b)
  }

  lemma {:induction false} FromToConcat(p: seq<Posting>, q: seq<Posting>, a: Sender, b: string)
    ensures FromTo(p + q, a, b) == FromTo(p, a, b) + FromTo(q, a, b)
  {
    hide To, LocalFor;
    if p == [] {
      assert p + q == q;
    } else {
      assert (p + q)[1..] == p[1..] + q;
      FromToConcat(p[1..], q, a, b);
    }
  }

  lemma {:induction false} ActorMailConcat(p: seq<Posting>, q: seq<Posting>, actors: set<string>, b: string)
    ensures MailToActor(p + q, actors, b) == MailToActor(p, actors, b) + MailToActor(q, actors, b)
  {
    hide ForActor;
    if p == [] {
      assert p + q == q;
    } else {
      assert (p + q)[1..] == p[1..] + q;
      ActorMailConcat(p[1..], q, actors, b);
    }
  }

  lemma {:induction false} WorkerMailConcat(p: seq<Posting>, q: seq<Posting>, workers: set<string>, b: string)
    ensures MailToWorker(p + q, workers, b) == MailToWorker(p, workers, b) + MailToWorker(q, workers, b)
  {
    hide ForWorker;
    if p == [] {
      assert p + q == q;
    } else {
      assert (p + q)[1..] == p[1..] + q;
      WorkerMailConcat(p[1..], q, workers, b);
    }
  }

  // ---- Deliveries go to the right kind of mailbox ------------------------------------------------

  ghost predicate RightKind(ds: seq<Delivery>, b: string)
  {
    forall i :: 0 <= i < |ds| ==> Target(ds[i]) == b ==> ds[i] == To(b, ds[i].msg)
  }

  lemma RoutedRightKind(m: Msg, dst: string, mode: TransMode, node: string, b: string)
    requires ActorAddress(b) || WorkerAddress(b)
    ensures RightKind(Routed(m, dst, mode, node), b)
  {
    KindPrefix(b);
    ActorOrWorker(b);
    hide ActorAddress, WorkerAddress, KnownKind, StartsWith;
  }

  lemma {:induction false} CallsRightKind(m: Msg, calls: seq<Call>, node: string, b: string)
    requires ActorAddress(b) || WorkerAddress(b)
    ensures RightKind(CallsRouted(m, calls, node), b)
  {
    hide ActorAddress, WorkerAddress, Routed, To;
    if calls == [] {
    } else {
      var call := calls[|calls| - 1];
      CallsRightKind(m, calls[..|calls| - 1], node, b);
      RoutedRightKind(m, if call.dst == "" then node else call.dst, call.mode, node, b);
    }
  }

  lemma DispatchRightKind(subs: Subs, m: Msg, node: string, ds: seq<Delivery>, b: string)
    requires Dispatches(subs, m, node, ds) && (ActorAddress(b) || WorkerAddress(b))
    ensures RightKind(ds, b)
  {
    hide ActorAddress, WorkerAddress, Routed, To, CallsRouted;
    if m.kind == SUBSCRIBE {
      RoutedRightKind(m, node, Dds, node, b);
    } else if m.kind == PUBLISH {
      if !TurnedAway(subs, m) {
        var calls :| Delivers(calls, m, Subscribers(subs, TopicName(m.src, m.name)))
                  && ds == CallsRouted(m, calls, node);
        CallsRightKind(m, calls, node, b);
      }
    } else {
      RoutedRightKind(m, m.dst, m.mode, node, b);
    }
  }

  lemma {:induction false} AllRightKind(subs: Subs, ms: seq<Msg>, node: string, parts: seq<seq<Delivery>>, b: string)
    requires DispatchesAll(subs, ms, node, parts) && (ActorAddress(b) || WorkerAddress(b))
    ensures RightKind(Flattened(parts), b)
  {
    hide ActorAddress, WorkerAddress, Dispatches, To, TableAfterAll;
    if ms == [] {
    } else {
      var k := |ms| - 1;
      DispatchesFront(subs, ms, node, parts);
      hide DispatchesAll, Flattened;
      AllRightKind(subs, ms[..k], node, parts[..k], b);
      DispatchRightKind(TableAfterAll(subs, ms[..k]), ms[k], node, parts[k], b);
    }
  }

  /** What a sender has posted to b is what is received there of its messages. */
  lemma {:induction false} PostedFrom(ds: seq<Delivery>, from: Sender, a: Sender, b: string)
    requires RightKind(ds, b)
    ensures FromTo(PostsOf(ds, from), a, b) == if from == a then Received(ds, b) else []
  {
    if ds == [] {
    } else {
      assert forall i :: 0 <= i < |ds[1..]| ==> ds[1..][i] == ds[i + 1];
      PostedFrom(ds[1..], from, a, b);
      assert Target(ds[0]) == b ==> ds[0] == To(b, ds[0].msg);
      assert Target(To(b, ds[0].msg)) == b;
    }
  }

  // ---- Sent is posted or still to be sent --------------------------------------------------------

  /** Everything a has sent to b has been handed over, in order, but for what is still in a's send queue. */
  ghost predicate SentInv(t: Traced, a: Sender, b: string)
  {
    && (a in t.sent <==> Sends(t.sys.core, a))
    && (a in t.sent ==> FromTo(t.posts, a, b) + LocalsFor(SendQueue(t.sys.core, a), b) == LocalsFor(t.sent[a], b))
  }

  /** Mailboxes, kinds and send queues as they were. */
  ghost predicate SameSends(c: Core, d: Core)
  {
    && d.ready.ctxs.Keys == c.ready.ctxs.Keys && d.pool.workers.Keys == c.pool.workers.Keys
    && (forall a :: a in c.ready.ctxs ==> d.ready.ctxs[a].box.send == c.ready.ctxs[a].box.send)
    && (forall w :: w in c.pool.workers ==>
          && d.pool.workers[w].kind == c.pool.workers[w].kind
          && d.pool.workers[w].box.send == c.pool.workers[w].box.send)
  }

  lemma {:induction false} DeliverKeepsSends(c: Core, ds: seq<Delivery>)
    ensures SameSends(c, Deliver(c, ds))
    decreases |ds|
  {
    if ds == [] {
    } else {
      OneKeepsSends(c, ds[0]);
      DeliverKeepsSends(DeliverOne(c, ds[0]), ds[1..]);
    }
  }

  lemma OneKeepsSends(c: Core, d: Delivery)
    ensures SameSends(c, DeliverOne(c, d))
  {
    hide Kept;
  }

  /** Only handling and running code fill a send queue, and only reporting empties it. */
  lemma SendsElsewhere(s: Sys, step: Step)
    requires Enabled(s, step) && !step.Handle? && !step.UserSend? && !(step.MainProcess? && s.batch != [])
    ensures SameSends(s.core, After(s, step).core)
  {
    match step
    case MainInject(ds) =>
      SysDeliverCore(s, ds);
      DeliverKeepsSends(s.core, ds);
    case MainAssign => AssignKeepsSends(s.core);
    case MainWake => WakeKeepsSends(s);
    case _ =>
  }

  lemma WakeKeepsSends(s: Sys)
    requires Enabled(s, MainWake)
    ensures SameSends(s.core, After(s, MainWake).core)
  {
    hide Batch, Repeated, Reordered;
  }

  lemma AssignKeepsSends(c: Core)
    ensures SameSends(c, AssignTurn(c).core)
  {
    hide Scan, Batch;
  }

  /** Processing a report empties the reporter's send queue and touches no other. */
  lemma SendsProcessed(s: Sys, ds: seq<Delivery>, from: Sender)
    requires Enabled(s, MainProcess(ds)) && s.batch != []
    ensures var t := After(s, MainProcess(ds));
            && t.core.ready.ctxs.Keys == s.core.ready.ctxs.Keys
            && t.core.pool.workers.Keys == s.core.pool.workers.Keys
            && (Sends(t.core, from) <==> Sends(s.core, from))
            && (Sends(s.core, from) ==>
                  SendQueue(t.core, from) == if Reporter(s) == from then [] else SendQueue(s.core, from))
  {
    var w := s.batch[0];
    var taken := SendsTaken(s.core, w);
    SendsTakenFrame(s.core, w);
    TakenQueues(s, from);
    DeliverKeepsWorkers(taken, ds, w);
    assert After(s, MainProcess(ds)).core == Processed(s.core, w, ds);
    hide After, Enabled, SendsTaken, Reporter, Sends, SendQueue;
    ProcessedSends(s.core, w, ds);
    hide Processed;
    SameQueue(taken, Processed(s.core, w, ds), from);
  }

  /** Once the sends are taken, dispatching them and answering touch no send queue. */
  lemma ProcessedSends(c: Core, w: string, ds: seq<Delivery>)
    requires w in c.pool.workers && |c.pool.workers[w].chan.toMain| > 0
    ensures SameSends(SendsTaken(c, w), Processed(c, w, ds))
  {
    var taken := SendsTaken(c, w);
    SendsTakenFrame(c, w);
    DeliverKeepsSends(taken, ds);
    DeliverKeepsWorkers(taken, ds, w);
    var d := Deliver(taken, ds);
    hide Deliver, SendsTaken;
    AnsweredSends(d, w);
    hide Answered, Updated, Popped;
    SendsThrough(taken, d, Processed(c, w, ds));
  }

  lemma SendsThrough(c: Core, d: Core, e: Core)
    requires SameSends(c, d) && SameSends(d, e)
    ensures SameSends(c, e)
  {
  }

  lemma TakenQueues(s: Sys, from: Sender)
    requires s.batch != [] && s.batch[0] in s.core.pool.workers
    ensures var c := SendsTaken(s.core, s.batch[0]);
            && (Sends(c, from) <==> Sends(s.core, from))
            && (Sends(s.core, from) ==>
                  SendQueue(c, from) == if Reporter(s) == from then [] else SendQueue(s.core, from))
  {
  }

  lemma AnsweredSends(c: Core, w: string)
    requires w in c.pool.workers && |c.pool.workers[w].chan.toMain| > 0
    ensures var cmd := c.pool.workers[w].chan.toMain[0];
            SameSends(c, Answered(Updated(c, w, Popped(c.pool.workers[w])), w, cmd))
  {
    var popped := Updated(c, w, Popped(c.pool.workers[w]));
    var cmd := c.pool.workers[w].chan.toMain[0];
    assert SameSends(c, popped);
    hide Updated, Popped;
    assert SameSends(popped, Answered(popped, w, cmd)) by { AnswerKeepsSends(popped, w, cmd); }
    hide Answered;
  }

  lemma AnswerKeepsSends(c: Core, w: string, cmd: Cmd)
    requires w in c.pool.workers
    ensures SameSends(c, Answered(c, w, cmd))
  {
  }

  /** The reporter's messages are those that are dispatched. */
  lemma ReporterSends(s: Sys)
    requires s.batch != [] && s.batch[0] in s.core.pool.workers
    ensures Sends(s.core, Reporter(s)) ==> SendsOf(s.core, s.batch[0]) == SendQueue(s.core, Reporter(s))
  {
  }

  lemma ProcessKeepsSent(t: Traced, s: TracedStep, a: Sender, b: string)
    requires Tied(t, s) && s.step.MainProcess? && t.sys.batch != []
    requires SentInv(t, a, b) && (ActorAddress(b) || WorkerAddress(b))
    ensures SentInv(TracedAfter(t, s), a, b)
  {
    hide ActorAddress, WorkerAddress, FromTo, PostsOf, Received, LocalsFor, Flattened, RightKind;
    hide DispatchesAll, After;
    var ds, from := s.step.deliveries, Reporter(t.sys);
    var ms := SendsOf(t.sys.core, t.sys.batch[0]);
    SendsProcessed(t.sys, ds, a);
    AllRightKind(t.subs, ms, t.node, s.parts, b);
    AllReceived(t.subs, ms, t.node, s.parts, b);
    PostedFrom(ds, from, a, b);
    FromToConcat(t.posts, PostsOf(ds, from), a, b);
    ReporterSends(t.sys);
    hide SendsOf, Enabled, Reporter, SendQueue, Sends;
    NothingReceived(b);
  }

  lemma SameQueue(c: Core, d: Core, a: Sender)
    requires SameSends(c, d)
    ensures Sends(c, a) <==> Sends(d, a)
    ensures SendQueue(c, a) == SendQueue(d, a)
  {
  }

  /** Handling and running code add what they send to the sender's queue. */
  lemma SendingKeepsSent(t: Traced, s: TracedStep, a: Sender, b: string)
    requires Tied(t, s) && SentInv(t, a, b) && (s.step.Handle? || s.step.UserSend?)
    ensures SentInv(TracedAfter(t, s), a, b)
  {
    hide FromTo, DispatchesAll, LocalsFor, TableAfterAll, EventsOf, LogHandled;
    var sends := s.step.sends;
    QueueGrows(t.sys, s.step, a);
    if a in t.sent {
      LocalsConcat(SendQueue(t.sys.core, a), sends, b);
      LocalsConcat(t.sent[a], sends, b);
    }
    hide After, SendQueue, Sends, Enabled;
  }

  function Filler(s: Sys, step: Step): Sender
    requires step.Handle? || step.UserSend?
    requires step.worker in s.core.pool.workers
  {
    if step.UserSend? then ByWorker(step.worker)
    else if s.core.pool.workers[step.worker].context.Some?
    then ByActor(s.core.pool.workers[step.worker].context.value) else Outside
  }

  lemma QueueGrows(s: Sys, step: Step, a: Sender)
    requires Enabled(s, step) && (step.Handle? || step.UserSend?)
    ensures Sends(After(s, step).core, a) <==> Sends(s.core, a)
    ensures Sends(s.core, a) ==>
              SendQueue(After(s, step).core, a)
              == if a == Filler(s, step) then SendQueue(s.core, a) + step.sends else SendQueue(s.core, a)
  {
  }

  lemma StepKeepsSent(t: Traced, s: TracedStep, a: Sender, b: string)
    requires Tied(t, s) && SentInv(t, a, b) && (ActorAddress(b) || WorkerAddress(b))
    ensures SentInv(TracedAfter(t, s), a, b)
  {
    hide ActorAddress, WorkerAddress, FromTo, DispatchesAll, LocalsFor, TableAfterAll, EventsOf, SameSends;
    if s.step.Handle? || s.step.UserSend? {
      SendingKeepsSent(t, s, a, b);
    } else if s.step.MainProcess? && t.sys.batch != [] {
      ProcessKeepsSent(t, s, a, b);
    } else {
      SendsElsewhere(t.sys, s.step);
      SameQueue(t.sys.core, After(t.sys, s.step).core, a);
      if s.step.MainInject? {
        InjectKeepsFrom(t, s, a, b);
      }
      hide After, Enabled, SendQueue, Sends;
    }
  }

  lemma InjectKeepsFrom(t: Traced, s: TracedStep, a: Sender, b: string)
    requires Tied(t, s) && s.step.MainInject? && (ActorAddress(b) || WorkerAddress(b))
    ensures a != Outside ==> FromTo(TracedAfter(t, s).posts, a, b) == FromTo(t.posts, a, b)
  {
    hide ActorAddress, WorkerAddress, FromTo, PostsOf, Flattened, RightKind, DispatchesAll, After;
    var ds := s.step.deliveries;
    AllRightKind(t.subs, s.news, t.node, s.parts, b);
    PostedFrom(ds, Outside, a, b);
    FromToConcat(t.posts, PostsOf(ds, Outside), a, b);
  }

  // ---- Posted is delivered -----------------------------------------------------------------------

  /** Each mailbox has been given what was posted to it, in that order. */
  ghost predicate PostInv(t: Traced, b: string)
  {
    var c := t.sys.core;
    && t.sys.actorLog.Keys == c.ready.ctxs.Keys && t.sys.workerLog.Keys == c.pool.workers.Keys
    && (b in c.ready.ctxs ==> t.sys.actorLog[b].delivered == MailToActor(t.posts, c.ready.ctxs.Keys, b))
    && (b in c.pool.workers && c.pool.workers[b].kind == User ==>
          t.sys.workerLog[b].mail.delivered == MailToWorker(t.posts, c.pool.workers.Keys, b))
  }

  lemma {:induction false} DeliveredLogs(s: Sys, ds: seq<Delivery>, from: Sender, b: string)
    requires s.actorLog.Keys == s.core.ready.ctxs.Keys && s.workerLog.Keys == s.core.pool.workers.Keys
    ensures var t := SysDeliver(s, ds);
            && t.actorLog.Keys == s.actorLog.Keys && t.workerLog.Keys == s.workerLog.Keys
            && (b in s.core.ready.ctxs ==>
                  t.actorLog[b].delivered
                  == s.actorLog[b].delivered + MailToActor(PostsOf(ds, from), s.core.ready.ctxs.Keys, b))
            && (b in s.core.pool.workers && s.core.pool.workers[b].kind == User ==>
                  t.workerLog[b].mail.delivered
                  == s.workerLog[b].mail.delivered + MailToWorker(PostsOf(ds, from), s.core.pool.workers.Keys, b))
    decreases |ds|
  {
    hide SysDeliverOne, ForActor, ForWorker;
    if ds == [] {
    } else {
      OneKeepsSends(s.core, ds[0]);
      OneLogged(s, ds[0], b);
      OneCore(s, ds[0]);
      hide DeliverOne;
      DeliveredLogs(SysDeliverOne(s, ds[0]), ds[1..], from, b);
    }
  }

  lemma OneCore(s: Sys, d: Delivery)
    ensures SysDeliverOne(s, d).core == DeliverOne(s.core, d)
  {
  }

  lemma OneLogged(s: Sys, d: Delivery, b: string)
    requires s.actorLog.Keys == s.core.ready.ctxs.Keys && s.workerLog.Keys == s.core.pool.workers.Keys
    ensures var t := SysDeliverOne(s, d);
            && t.actorLog.Keys == s.actorLog.Keys && t.workerLog.Keys == s.workerLog.Keys
            && (b in s.core.ready.ctxs ==>
                  t.actorLog[b].delivered
                  == s.actorLog[b].delivered + ForActor(d, s.core.ready.ctxs.Keys, b))
            && (b in s.core.pool.workers && s.core.pool.workers[b].kind == User ==>
                  t.workerLog[b].mail.delivered
                  == s.workerLog[b].mail.delivered + ForWorker(d, s.core.pool.workers.Keys, b))
  {
    hide DeliverOne, Repeated, Kept;
  }

  /** Deliveries and keys as they were. */
  ghost predicate SameLogs(s: Sys, t: Sys, b: string)
  {
    && t.actorLog.Keys == s.actorLog.Keys && t.workerLog.Keys == s.workerLog.Keys
    && t.core.ready.ctxs.Keys == s.core.ready.ctxs.Keys
    && t.core.pool.workers.Keys == s.core.pool.workers.Keys
    && (b in s.actorLog ==> t.actorLog[b].delivered == s.actorLog[b].delivered)
    && (b in s.workerLog ==> t.workerLog[b].mail.delivered == s.workerLog[b].mail.delivered)
    && (b in s.core.pool.workers ==> t.core.pool.workers[b].kind == s.core.pool.workers[b].kind)
  }

  lemma LogsOfWorkerSteps(s: Sys, step: Step, b: string)
    requires Enabled(s, step)
    requires step.Report? || step.Notify? || step.Resume? || step.Handle? || step.UserPop? || step.UserSend?
    ensures SameLogs(s, After(s, step), b)
  {
    hide MayReport;
  }

  lemma LogsOfWaking(s: Sys, b: string)
    requires Enabled(s, MainWake) && s.main.at < |s.core.pool.wake|
    requires s.core.pool.wake[s.main.at] in s.core.pool.workers
    requires s.core.pool.workers[s.core.pool.wake[s.main.at]].owner != Worker
    ensures SameLogs(s, After(s, MainWake), b)
  {
    hide Repeated, Batch, MovedToRun, Reordered;
  }

  lemma LogsOfNotWaking(s: Sys, b: string)
    requires Enabled(s, MainWake)
    requires s.main.at < |s.core.pool.wake| && s.core.pool.wake[s.main.at] in s.core.pool.workers ==>
               s.core.pool.workers[s.core.pool.wake[s.main.at]].owner == Worker
    ensures SameLogs(s, After(s, MainWake), b)
  {
    hide Woken, UserAssigned;
  }

  lemma LogsOfWake(s: Sys, b: string)
    requires Enabled(s, MainWake)
    ensures SameLogs(s, After(s, MainWake), b)
  {
    hide SameLogs, After;
    var p, i := s.core.pool, s.main.at;
    if i < |p.wake| && p.wake[i] in p.workers && p.workers[p.wake[i]].owner != Worker {
      LogsOfWaking(s, b);
    } else {
      LogsOfNotWaking(s, b);
    }
  }

  lemma LogsOfAssign(s: Sys, b: string)
    requires Enabled(s, MainAssign)
    ensures SameLogs(s, After(s, MainAssign), b)
  {
    AssignKeepsSends(s.core);
    hide Repeated, Scan, Batch, MovedToRun;
  }

  lemma LogsElsewhere(s: Sys, step: Step, b: string)
    requires Enabled(s, step) && !step.MainInject? && !(step.MainProcess? && s.batch != [])
    ensures SameLogs(s, After(s, step), b)
  {
    if step.MainWake? {
      LogsOfWake(s, b);
    } else if step.MainAssign? {
      LogsOfAssign(s, b);
    } else if !step.MainPoll? && !step.MainProcess? {
      LogsOfWorkerSteps(s, step, b);
    }
  }

  lemma StepKeepsPosts(t: Traced, s: TracedStep, b: string)
    requires Tied(t, s) && PostInv(t, b)
    ensures PostInv(TracedAfter(t, s), b)
  {
    hide DispatchesAll, MailToActor, MailToWorker;
    match s.step
    case MainProcess(ds) =>
      if t.sys.batch == [] {
        LogsElsewhere(t.sys, s.step, b);
      } else {
        ProcessKeepsPosts(t, s, b);
      }
    case MainInject(ds) =>
      SysDeliverCore(t.sys, ds);
      DeliverKeepsSends(t.sys.core, ds);
      DeliveredLogs(t.sys, ds, Outside, b);
      hide SysDeliver, Deliver;
      ActorMailConcat(t.posts, PostsOf(ds, Outside), t.sys.core.ready.ctxs.Keys, b);
      WorkerMailConcat(t.posts, PostsOf(ds, Outside), t.sys.core.pool.workers.Keys, b);
    case _ =>
      LogsElsewhere(t.sys, s.step, b);
      hide After, Enabled;
  }

  lemma ProcessKeepsPosts(t: Traced, s: TracedStep, b: string)
    requires Tied(t, s) && PostInv(t, b) && s.step.MainProcess? && t.sys.batch != []
    ensures PostInv(TracedAfter(t, s), b)
  {
    hide DispatchesAll, MailToActor, MailToWorker;
    var ds, w, from := s.step.deliveries, t.sys.batch[0], Reporter(t.sys);
    var s1 := t.sys.(core := SendsTaken(t.sys.core, w));
    SendsTakenFrame(t.sys.core, w);
    DeliveredLogs(s1, ds, from, b);
    DeliverKeepsSends(s1.core, ds);
    SysDeliverCore(s1, ds);
    SendsProcessed(t.sys, ds, Outside);
    DeliverKeepsWorkers(s1.core, ds, w);
    hide SysDeliver, Deliver, SendsTaken;
    AnsweredWorkers(t.sys.core, w, ds, b);
    ActorMailConcat(t.posts, PostsOf(ds, from), t.sys.core.ready.ctxs.Keys, b);
    WorkerMailConcat(t.posts, PostsOf(ds, from), t.sys.core.pool.workers.Keys, b);
  }

  lemma AnsweredWorkers(c: Core, w: string, ds: seq<Delivery>, b: string)
    requires w in c.pool.workers && c.pool.workers[w].chan.toMain != []
    ensures Processed(c, w, ds).pool.workers.Keys == c.pool.workers.Keys
    ensures b in c.pool.workers ==> Processed(c, w, ds).pool.workers[b].kind == c.pool.workers[b].kind
  {
    SendsTakenFrame(c, w);
    DeliverKeepsSends(SendsTaken(c, w), ds);
    DeliverKeepsWorkers(SendsTaken(c, w), ds, w);
    hide Deliver, SendsTaken;
    var d := Deliver(SendsTaken(c, w), ds);
    var ctx := d.pool.workers[w];
    AnsweredKinds(Updated(d, w, Popped(ctx)), w, ctx.chan.toMain[0], b);
    hide Answered;
  }

  lemma AnsweredKinds(c: Core, w: string, cmd: Cmd, b: string)
    requires w in c.pool.workers
    ensures Answered(c, w, cmd).pool.workers.Keys == c.pool.workers.Keys
    ensures b in c.pool.workers ==> Answered(c, w, cmd).pool.workers[b].kind == c.pool.workers[b].kind
  {
  }

  // ---- The subscription table --------------------------------------------------------------------

  lemma {:induction false} TableOfMore(events: seq<Event>, ms: seq<Msg>)
    ensures TableAfterAll(TableOf(events), ms) == TableOf(events + EventsOf(ms))
  {
    hide Recorded, Published, TurnedAway;
    if ms == [] {
      assert events + [] == events;
    } else {
      var front, m := ms[..|ms| - 1], ms[|ms| - 1];
      TableOfMore(events, front);
      var e := if m.kind == SUBSCRIBE then Subscribe(m) else Publish(m);
      assert (events + EventsOf(front)) + [e] == events + (EventsOf(front) + [e]);
      assert ((events + EventsOf(front)) + [e])[..|events + EventsOf(front)|] == events + EventsOf(front);
    }
  }

  /** The table is what the subscriptions and publications dispatched so far have left. */
  lemma StepKeepsTable(t: Traced, s: TracedStep)
    requires Tied(t, s) && t.subs == TableOf(t.events)
    ensures TracedAfter(t, s).subs == TableOf(TracedAfter(t, s).events)
  {
    hide TableOf, EventsOf, TableAfterAll, DispatchesAll, After, Enabled;
    TableOfMore(t.events, DispatchedBy(t, s));
  }

  // ---- Whole runs --------------------------------------------------------------------------------

  lemma {:induction false} TracedRunKeeps(t: Traced, steps: seq<TracedStep>, u: Traced, a: Sender, b: string)
    requires SentInv(t, a, b) && PostInv(t, b) && (ActorAddress(b) || WorkerAddress(b))
    requires TracedRuns(t, steps, u)
    ensures SentInv(u, a, b) && PostInv(u, b)
    decreases |steps|
  {
    hide SentInv, PostInv, Tied, ActorAddress, WorkerAddress;
    if steps == [] {
    } else {
      StepKeepsSent(t, steps[0], a, b);
      StepKeepsPosts(t, steps[0], b);
      TracedRunKeeps(TracedAfter(t, steps[0]), steps[1..], u, a, b);
    }
  }

  lemma {:induction false} TracedRunTable(t: Traced, steps: seq<TracedStep>, u: Traced)
    requires t.subs == TableOf(t.events) && TracedRuns(t, steps, u)
    ensures u.subs == TableOf(u.events)
    decreases |steps|
  {
    hide Tied, TableOf;
    if steps == [] {
    } else {
      StepKeepsTable(t, steps[0]);
      TracedRunTable(TracedAfter(t, steps[0]), steps[1..], u);
    }
  }

  /** A traced run is a run. */
  lemma {:induction false} TracedIsRun(t: Traced, steps: seq<TracedStep>, u: Traced) returns (plain: seq<Step>)
    requires TracedRuns(t, steps, u)
    ensures Runs(t.sys, plain, u.sys)
    decreases |steps|
  {
    hide Enabled, After;
    if steps == [] {
      plain := [];
    } else {
      var rest := TracedIsRun(TracedAfter(t, steps[0]), steps[1..], u);
      plain := [steps[0].step] + rest;
      assert plain[1..] == rest;
    }
  }

  lemma TracedStarts(t: Traced, a: Sender, b: string)
    requires TracedInit(t)
    ensures SentInv(t, a, b) && PostInv(t, b)
  {
  }

  /** Over every run, whatever else goes on: the plain in-process messages that actor, user worker or timer worker a has
      sent to actor b have been handed to b once each and in a's order, but for those still in a's send queue; and b has
      been given exactly what was handed to it. */
  lemma ToActorInOrder(t: Traced, steps: seq<TracedStep>, u: Traced, a: Sender, b: string)
    requires TracedInit(t) && TracedRuns(t, steps, u)
    requires ActorAddress(b) && Sends(u.sys.core, a) && b in u.sys.core.ready.ctxs
    ensures a in u.sent && b in u.sys.actorLog
    ensures LocalsFor(u.sent[a], b) == FromTo(u.posts, a, b) + LocalsFor(SendQueue(u.sys.core, a), b)
    ensures u.sys.actorLog[b].delivered == MailToActor(u.posts, u.sys.core.ready.ctxs.Keys, b)
  {
    TracedStarts(t, a, b);
    TracedRunKeeps(t, steps, u, a, b);
  }

  /** The same for a user worker that is sent to. */
  lemma ToWorkerInOrder(t: Traced, steps: seq<TracedStep>, u: Traced, a: Sender, b: string)
    requires TracedInit(t) && TracedRuns(t, steps, u)
    requires WorkerAddress(b) && Sends(u.sys.core, a) && b in u.sys.core.pool.workers
    requires u.sys.core.pool.workers[b].kind == User
    ensures a in u.sent && b in u.sys.workerLog
    ensures LocalsFor(u.sent[a], b) == FromTo(u.posts, a, b) + LocalsFor(SendQueue(u.sys.core, a), b)
    ensures u.sys.workerLog[b].mail.delivered == MailToWorker(u.posts, u.sys.core.pool.workers.Keys, b)
  {
    TracedStarts(t, a, b);
    TracedRunKeeps(t, steps, u, a, b);
  }

  /** Between actors. */
  lemma ActorToActor(t: Traced, steps: seq<TracedStep>, u: Traced, a: string, b: string)
    requires TracedInit(t) && TracedRuns(t, steps, u)
    requires ActorAddress(b) && a in u.sys.core.ready.ctxs && b in u.sys.core.ready.ctxs
    ensures ByActor(a) in u.sent && b in u.sys.actorLog
    ensures LocalsFor(u.sent[ByActor(a)], b)
         == FromTo(u.posts, ByActor(a), b) + LocalsFor(u.sys.core.ready.ctxs[a].box.send, b)
    ensures u.sys.actorLog[b].delivered == MailToActor(u.posts, u.sys.core.ready.ctxs.Keys, b)
  {
    ToActorInOrder(t, steps, u, ByActor(a), b);
  }

  /** From an actor to a user worker. */
  lemma ActorToWorker(t: Traced, steps: seq<TracedStep>, u: Traced, a: string, b: string)
    requires TracedInit(t) && TracedRuns(t, steps, u)
    requires WorkerAddress(b) && a in u.sys.core.ready.ctxs && b in u.sys.core.pool.workers
    requires u.sys.core.pool.workers[b].kind == User
    ensures ByActor(a) in u.sent && b in u.sys.workerLog
    ensures LocalsFor(u.sent[ByActor(a)], b)
         == FromTo(u.posts, ByActor(a), b) + LocalsFor(u.sys.core.ready.ctxs[a].box.send, b)
    ensures u.sys.workerLog[b].mail.delivered == MailToWorker(u.posts, u.sys.core.pool.workers.Keys, b)
  {
    ToWorkerInOrder(t, steps, u, ByActor(a), b);
  }

  /** The subscriptions and publications dispatched before message number i of a step. */
  ghost function EventsBefore(u: Traced, s: TracedStep, i: nat): seq<Event>
    requires Enabled(u.sys, s.step) && i <= |DispatchedBy(u, s)|
  {
    u.events + EventsOf(DispatchedBy(u, s)[..i])
  }

  /** Over every run, message number i of those a step dispatches is dealt with by the table that the subscriptions and
      publications before it have left. */
  lemma DispatchedInRun(t: Traced, steps: seq<TracedStep>, u: Traced, s: TracedStep, i: nat)
    requires TracedInit(t) && TracedRuns(t, steps, u) && Tied(u, s) && i < |DispatchedBy(u, s)|
    ensures i < |s.parts|
    ensures Dispatches(TableOf(EventsBefore(u, s, i)), DispatchedBy(u, s)[i], u.node, s.parts[i])
  {
    hide TableOf, EventsOf, TableAfterAll, Dispatches, TracedInit, Enabled;
    assert t.subs == TableOf(t.events) by { InitTable(t); }
    TracedRunTable(t, steps, u);
    var ms := DispatchedBy(u, s);
    TableOfMore(u.events, ms[..i]);
    hide DispatchedBy;
  }

  /** Over every run: when publication number i of the messages a step dispatches is dealt with, an actor or user worker
      c is handed it once if c's subscription was dispatched before it, once more if c is the node and the mode crosses
      processes, once more where nameless calls end if a nameless component subscribed before it, and otherwise not. */
  lemma PublicationInRun(t: Traced, steps: seq<TracedStep>, u: Traced, s: TracedStep, i: nat, c: string)
    requires TracedInit(t) && TracedRuns(t, steps, u) && Tied(u, s)
    requires i < |DispatchedBy(u, s)| && DispatchedBy(u, s)[i].kind == PUBLISH
    requires WellAddressed(EventsBefore(u, s, i)) && ThreePart(DispatchedBy(u, s)[i].src)
    requires ActorAddress(c) || WorkerAddress(c)
    ensures i < |s.parts|
    ensures var m, before := DispatchedBy(u, s)[i], EventsBefore(u, s, i);
            multiset(s.parts[i])[To(c, m)] == Copies(before, m, u.node, c)
  {
    hide TableOf, Dispatches, WellAddressed, Asked, ThreePart, ActorAddress, WorkerAddress, To;
    DispatchedInRun(t, steps, u, s, i);
    hide EventsBefore;
    PublicationDelivered(EventsBefore(u, s, i), DispatchedBy(u, s)[i], s.parts[i], u.node, c);
  }

  /** And a subscription is handed to the node, once, if its mode is DDS, or it is hybrid and no subscription of its
      sender to the topic was recorded before it; and to nobody else. */
  lemma SubscriptionInRun(t: Traced, steps: seq<TracedStep>, u: Traced, s: TracedStep, i: nat)
    requires TracedInit(t) && TracedRuns(t, steps, u) && Tied(u, s)
    requires i < |DispatchedBy(u, s)| && DispatchedBy(u, s)[i].kind == SUBSCRIBE
    ensures i < |s.parts|
    ensures var m := DispatchedBy(u, s)[i];
            var before := Subscribed(EventsBefore(u, s, i), TopicName(m.dst, m.name), m.src);
            var crosses := m.mode == Dds || (m.mode == Hybrid && !before);
            s.parts[i] == if crosses && Addresses(u.node, "actor") then [ToActor(u.node, m)]
                          else if crosses && Addresses(u.node, "worker") then [ToWorker(u.node, m)] else []
  {
    hide TableOf, Dispatches, Subscribed, TopicName, Addresses;
    DispatchedInRun(t, steps, u, s, i);
    hide EventsBefore;
    SubscriptionDelivered(EventsBefore(u, s, i), DispatchedBy(u, s)[i], s.parts[i], u.node);
  }

  lemma InitTable(t: Traced)
    requires TracedInit(t)
    ensures t.subs == TableOf(t.events)
  {
  }

  /** The postings that end in actor b's mailbox. */
  function Landed(posts: seq<Posting>, actors: set<string>, b: string): seq<Posting>
  {
    if posts == [] then []
    else if ForActor(posts[0].delivery, actors, b) != [] then [posts[0]] + Landed(posts[1..], actors, b)
    else Landed(posts[1..], actors, b)
  }

  function Contents(posts: seq<Posting>): seq<Msg>
  {
    if posts == [] then [] else [posts[0].delivery.msg] + Contents(posts[1..])
  }

  /** What a has handed over to actor b is read off b's mail, in the order of that mail. */
  lemma {:induction false} FromToIsMail(posts: seq<Posting>, actors: set<string>, a: Sender, b: string)
    requires ActorAddress(b) && b in actors
    ensures MailToActor(posts, actors, b) == Contents(Landed(posts, actors, b))
    ensures FromTo(posts, a, b) == FromTo(Landed(posts, actors, b), a, b)
  {
    ActorOrWorker(b);
    hide ActorAddress, LocalFor;
    if posts == [] {
    } else {
      FromToIsMail(posts[1..], actors, a, b);
    }
  }

  /** With an unlimited pending queue, what b has handled, has running and has pending is its mail, in order. */
  lemma HandledInOrder(t: Traced, steps: seq<TracedStep>, u: Traced, b: string)
    requires TracedInit(t) && TracedRuns(t, steps, u)
    requires ActorAddress(b) && b in u.sys.core.ready.ctxs && u.sys.core.ready.ctxs[b].box.pendingSize <= 0
    ensures b in u.sys.actorLog
    ensures var box := u.sys.core.ready.ctxs[b].box;
            u.sys.actorLog[b].handled + box.run + box.recv
            == MailToActor(u.posts, u.sys.core.ready.ctxs.Keys, b)
  {
    ActorToActor(t, steps, u, b, b);
    var plain := TracedIsRun(t, steps, u);
    assert Reachable(u.sys);
    ActorFifo(u.sys, b);
  }
}
