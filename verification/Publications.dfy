/** What the main thread does with one message (myframe/app.cpp:493-523), and what a publication comes to: from the
    subscription table to the mailboxes. */
module Publications {
  import opened Basics
  import opened Messages
  import opened Names
  import opened Routing
  import opened MsgManagers

  /** A call without an address is meant for the node. */
  function CallRouted(m: Msg, call: Call, node: string): seq<Delivery>
  {
    Routed(m, if call.dst == "" then node else call.dst, call.mode, node)
  }

  function CallsRouted(m: Msg, calls: seq<Call>, node: string): seq<Delivery>
  {
    if calls == [] then [] else CallsRouted(m, calls[..|calls| - 1], node) + CallRouted(m, calls[|calls| - 1], node)
  }

  /** The deliveries one message may lead to. A publication reaches its subscribers in any order. */
  ghost predicate Dispatches(subs: Subs, m: Msg, node: string, ds: seq<Delivery>)
  {
    if m.kind == SUBSCRIBE then ds == if Forwards(subs, m) then Routed(m, node, Dds, node) else []
    else if m.kind == PUBLISH then
      if TurnedAway(subs, m) then ds == []
      else exists calls :: Delivers(calls, m, Subscribers(subs, TopicName(m.src, m.name)))
                        && ds == CallsRouted(m, calls, node)
    else ds == Routed(m, m.dst, m.mode, node)
  }

  function TableAfter(subs: Subs, m: Msg): Subs
  {
    if m.kind == SUBSCRIBE then Recorded(subs, m) else if m.kind == PUBLISH then Published(subs, m) else subs
  }

  function TableAfterAll(subs: Subs, ms: seq<Msg>): Subs
  {
    if ms == [] then subs else TableAfter(TableAfterAll(subs, ms[..|ms| - 1]), ms[|ms| - 1])
  }

  function Flattened(parts: seq<seq<Delivery>>): seq<Delivery>
  {
    if parts == [] then [] else Flattened(parts[..|parts| - 1]) + parts[|parts| - 1]
  }

  /** The deliveries of a list of messages, message by message. */
  ghost predicate DispatchesAll(subs: Subs, ms: seq<Msg>, node: string, parts: seq<seq<Delivery>>)
  {
    && |parts| == |ms|
    && forall i :: 0 <= i < |ms| ==> Dispatches(TableAfterAll(subs, ms[..i]), ms[i], node, parts[i])
  }

  lemma NothingDispatched(subs: Subs, node: string)
    ensures DispatchesAll(subs, [], node, []) && TableAfterAll(subs, []) == subs && Flattened([]) == []
  {
  }

  lemma DispatchesMore(subs: Subs, ms: seq<Msg>, node: string, parts: seq<seq<Delivery>>, m: Msg, ds: seq<Delivery>)
    requires DispatchesAll(subs, ms, node, parts) && Dispatches(TableAfterAll(subs, ms), m, node, ds)
    ensures DispatchesAll(subs, ms + [m], node, parts + [ds])
    ensures TableAfterAll(subs, ms + [m]) == TableAfter(TableAfterAll(subs, ms), m)
    ensures Flattened(parts + [ds]) == Flattened(parts) + ds
  {
    hide Dispatches, TableAfter;
    assert (ms + [m])[..|ms|] == ms && (parts + [ds])[..|parts|] == parts;
    forall i | 0 <= i <= |ms|
      ensures Dispatches(TableAfterAll(subs, (ms + [m])[..i]), (ms + [m])[i], node, (parts + [ds])[i])
    {
      assert (ms + [m])[..i] == ms[..i];
      assert ms[..|ms|] == ms;
    }
  }

  // ---- Plain messages ----------------------------------------------------------------------------

  lemma {:induction false} CallsSame(m: Msg, calls: seq<Call>, node: string)
    ensures forall i :: 0 <= i < |CallsRouted(m, calls, node)| ==> CallsRouted(m, calls, node)[i].msg == m
  {
    hide Routed;
    if calls == [] {
    } else {
      var call := calls[|calls| - 1];
      CallsSame(m, calls[..|calls| - 1], node);
      RoutedSame(m, if call.dst == "" then node else call.dst, call.mode, node);
    }
  }

  lemma DispatchSame(subs: Subs, m: Msg, node: string, ds: seq<Delivery>)
    requires Dispatches(subs, m, node, ds)
    ensures forall i :: 0 <= i < |ds| ==> ds[i].msg == m
  {
    hide Routed, CallsRouted;
    if m.kind == SUBSCRIBE {
      RoutedSame(m, node, Dds, node);
    } else if m.kind == PUBLISH {
      if !TurnedAway(subs, m) {
        var calls :| Delivers(calls, m, Subscribers(subs, TopicName(m.src, m.name)))
                  && ds == CallsRouted(m, calls, node);
        CallsSame(m, calls, node);
      }
    } else {
      RoutedSame(m, m.dst, m.mode, node);
    }
  }

  /** Dispatching one message hands a plain in-process message to d exactly if it is one for d and d is a three-part
      address, once. */
  lemma DispatchReceived(subs: Subs, m: Msg, node: string, ds: seq<Delivery>, d: string)
    requires Dispatches(subs, m, node, ds) && (ActorAddress(d) || WorkerAddress(d))
    ensures Received(ds, d) == LocalsFor([m], d)
  {
    hide Routed, ActorAddress, WorkerAddress, Received;
    if Plain(m) {
      RoutedReceived(m, node, d);
    } else {
      DispatchSame(subs, m, node, ds);
      ReceivedNothing(ds, m, d);
    }
  }

  lemma DispatchesFront(subs: Subs, ms: seq<Msg>, node: string, parts: seq<seq<Delivery>>)
    requires DispatchesAll(subs, ms, node, parts) && ms != []
    ensures var k := |ms| - 1;
            && DispatchesAll(subs, ms[..k], node, parts[..k])
            && Dispatches(TableAfterAll(subs, ms[..k]), ms[k], node, parts[k])
            && Flattened(parts) == Flattened(parts[..k]) + parts[k]
            && ms == ms[..k] + [ms[k]]
  {
    hide Dispatches, TableAfterAll;
    var k := |ms| - 1;
    forall i | 0 <= i < k
      ensures Dispatches(TableAfterAll(subs, ms[..k][..i]), ms[..k][i], node, parts[..k][i])
    {
      assert ms[..k][..i] == ms[..i];
    }
  }

  /** Dispatching a list hands d its plain in-process messages, once each and in order. */
  lemma {:induction false} AllReceived(subs: Subs, ms: seq<Msg>, node: string, parts: seq<seq<Delivery>>, d: string)
    requires DispatchesAll(subs, ms, node, parts) && (ActorAddress(d) || WorkerAddress(d))
    ensures Received(Flattened(parts), d) == LocalsFor(ms, d)
  {
    hide Dispatches, Received, LocalsFor, ActorAddress, WorkerAddress;
    if ms == [] {
      NothingReceived(d);
    } else {
      var k := |ms| - 1;
      DispatchesFront(subs, ms, node, parts);
      hide DispatchesAll, TableAfterAll, Flattened;
      AllReceived(subs, ms[..k], node, parts[..k], d);
      DispatchReceived(TableAfterAll(subs, ms[..k]), ms[k], node, parts[k], d);
      ReceivedConcat(Flattened(parts[..k]), parts[k], d);
      LocalsConcat(ms[..k], [ms[k]], d);
    }
  }

  lemma NothingReceived(d: string)
    ensures Received([], d) == LocalsFor([], d) == []
  {
  }

  /** Dispatching a plain message of any mode hands it once to the actor or worker it is addressed to, unless the mode
      is DDS, and once to the node, unless the mode is Intra or the address is of no known kind. */
  lemma PlainDelivered(subs: Subs, m: Msg, node: string, ds: seq<Delivery>, c: string)
    requires Plain(m) && Dispatches(subs, m, node, ds)
    ensures var known := Addresses(m.dst, "actor") || Addresses(m.dst, "worker") || Addresses(m.dst, "event");
            && multiset(ds)[ToActor(c, m)] == If(m.mode != Dds && m.dst == c && Addresses(c, "actor"), 1)
                                            + If(m.mode != Intra && known && node == c && StartsWith(c, "actor"), 1)
            && multiset(ds)[ToWorker(c, m)] == If(m.mode != Dds && m.dst == c && Addresses(c, "worker"), 1)
                                             + If(m.mode != Intra && known && node == c && StartsWith(c, "worker"), 1)
            && forall i :: 0 <= i < |ds| ==> ds[i].msg == m
  {
    RouteReaches(m, m.dst, m.mode, node, c);
    RoutedSame(m, m.dst, m.mode, node);
    hide Routed, Addresses, StartsWith;
  }

  // ---- Subscriptions -----------------------------------------------------------------------------

  /** After any history, a subscription leads to exactly one delivery, to the node, if it crosses processes and is no
      repetition of one recorded and the node has an address of its kind; and otherwise to none. */
  lemma SubscriptionDelivered(events: seq<Event>, m: Msg, ds: seq<Delivery>, node: string)
    requires m.kind == SUBSCRIBE && Dispatches(TableOf(events), m, node, ds)
    ensures var crosses := || m.mode == Dds
                           || (m.mode == Hybrid && !Subscribed(events, TopicName(m.dst, m.name), m.src));
            ds == if crosses && Addresses(node, "actor") then [ToActor(node, m)]
                  else if crosses && Addresses(node, "worker") then [ToWorker(node, m)] else []
    ensures WellAddressed(events) && ThreePart(m.dst) ==>
              (Subscribed(events, TopicName(m.dst, m.name), m.src) <==> Asked(events, m.dst, m.name, m.src))
  {
    PassedOnIff(events, m);
    hide TableOf, Forwards, Subscribed, TopicName, Asked;
    if WellAddressed(events) && ThreePart(m.dst) {
      SubscribersSame(events, m);
    }
    KindsExact(node);
    KindPrefix(node);
    ActorOrWorker(node);
    hide WellAddressed, ThreePart, ActorAddress, WorkerAddress, Addresses;
    NodeOfKind(m, node);
  }

  lemma SubscribersSame(events: seq<Event>, m: Msg)
    requires WellAddressed(events) && ThreePart(m.dst)
    ensures Subscribed(events, TopicName(m.dst, m.name), m.src) <==> Asked(events, m.dst, m.name, m.src)
  {
    SubscribersSubscribed(events, TopicName(m.dst, m.name), m.src);
    SubscribersAsked(events, m.dst, m.name, m.src);
  }

  lemma NodeOfKind(m: Msg, node: string)
    ensures Routed(m, node, Dds, node)
         == if ActorAddress(node) then [ToActor(node, m)] else if WorkerAddress(node) then [ToWorker(node, m)] else []
  {
    KindPrefix(node);
    ActorOrWorker(node);
    if KnownKind(node) && !ActorAddress(node) && !WorkerAddress(node) {
      KindsExact(node);
      assert node[0] == 'e';
    }
  }

  // ---- Publications ------------------------------------------------------------------------------

  /** Where a call without an address and within the process ends: at the node, or without one where the message
      itself is addressed. */
  function Nameless(m: Msg, node: string): string
  {
    if node != "" then node else m.dst
  }

  /** A delivery to whatever kind of component has the address. */
  function To(c: string, m: Msg): Delivery
  {
    if ActorAddress(c) then ToActor(c, m) else ToWorker(c, m)
  }

  lemma OneCall(m: Msg, call: Call, node: string, c: string)
    requires ActorAddress(c) || WorkerAddress(c)
    requires call.mode == Intra || call == Call("", Dds)
    ensures multiset(CallRouted(m, call, node))[To(c, m)]
         == If(call == Call(c, Intra), 1) + If(call == Call("", Intra) && Nameless(m, node) == c, 1)
          + If(call == Call("", Dds) && node == c, 1)
  {
    var dst := if call.dst == "" then node else call.dst;
    RouteReaches(m, dst, call.mode, node, c);
    KindsExact(dst);
    KindsExact(c);
    KindPrefix(c);
    ActorOrWorker(c);
    hide Routed, ActorAddress, WorkerAddress, KnownKind, Addresses, StartsWith;
  }

  lemma CountOfSnoc(a: seq<Call>, b: Call, c: Call)
    ensures multiset(a + [b])[c] == multiset(a)[c] + If(b == c, 1)
  {
  }

  /** How many of the calls concern component c: those naming it, and those without a name that end at it. */
  ghost function Concerning(m: Msg, calls: seq<Call>, node: string, c: string): nat
  {
    multiset(calls)[Call(c, Intra)]
    + If(Nameless(m, node) == c, multiset(calls)[Call("", Intra)])
    + If(node == c, multiset(calls)[Call("", Dds)])
  }

  lemma ConcerningSnoc(m: Msg, calls: seq<Call>, call: Call, node: string, c: string)
    ensures Concerning(m, calls + [call], node, c)
         == Concerning(m, calls, node, c)
          + If(call == Call(c, Intra), 1) + If(call == Call("", Intra) && Nameless(m, node) == c, 1)
          + If(call == Call("", Dds) && node == c, 1)
  {
    hide Nameless;
    CountOfSnoc(calls, call, Call(c, Intra));
    CountOfSnoc(calls, call, Call("", Intra));
    CountOfSnoc(calls, call, Call("", Dds));
  }

  lemma {:induction false} CountDeliveries(m: Msg, calls: seq<Call>, node: string, c: string)
    requires ActorAddress(c) || WorkerAddress(c)
    requires forall i :: 0 <= i < |calls| ==> calls[i].mode == Intra || calls[i] == Call("", Dds)
    ensures multiset(CallsRouted(m, calls, node))[To(c, m)] == Concerning(m, calls, node, c)
  {
    hide CallRouted, ActorAddress, WorkerAddress, Nameless;
    if calls == [] {
    } else {
      hide Concerning, To;
      var front, call := calls[..|calls| - 1], calls[|calls| - 1];
      CountDeliveries(m, front, node, c);
      OneCall(m, call, node, c);
      CountOfConcat(CallsRouted(m, front, node), CallRouted(m, call, node), To(c, m));
      ConcerningSnoc(m, front, call, node, c);
      assert calls == front + [call];
    }
  }

  /** One for having asked within the process, one for being the node if the mode crosses processes, and one more where
      nameless calls end if a component without a name has asked. */
  ghost function Copies(events: seq<Event>, m: Msg, node: string, c: string): nat
  {
    If(m.mode != Dds && Asked(events, m.src, m.name, c), 1)
    + If(m.mode != Dds && Asked(events, m.src, m.name, "") && Nameless(m, node) == c, 1)
    + If(m.mode != Intra && node == c, 1)
  }

  /** After any history of subscriptions and publications, whatever a publication leads to hands it to actor or user
      worker c once if c asked for it within the process, once more if c is the node and the mode crosses processes,
      and, should a component without a name have asked, once more where nameless calls end; otherwise not at all. That
      a publication may be turned away changes nothing: then nobody had asked. */
  lemma PublicationDelivered(events: seq<Event>, m: Msg, ds: seq<Delivery>, node: string, c: string)
    requires WellAddressed(events) && ThreePart(m.src) && (ActorAddress(c) || WorkerAddress(c))
    requires m.kind == PUBLISH && Dispatches(TableOf(events), m, node, ds)
    ensures multiset(ds)[To(c, m)] == Copies(events, m, node, c)
  {
    hide WellAddressed, Asked, ThreePart, ActorAddress, WorkerAddress, Nameless, To;
    hide CallsRouted, Routed, TopicName, TableOf;
    if TurnedAway(TableOf(events), m) {
      TurnedAwayReachesNobody(events, m, c);
      TurnedAwayReachesNobody(events, m, "");
    } else {
      var calls :| Delivers(calls, m, Subscribers(TableOf(events), TopicName(m.src, m.name)))
                && ds == CallsRouted(m, calls, node);
      PublicationReaches(events, m, calls, c);
      PublicationReaches(events, m, calls, "");
      CallsKnown(calls, m, Subscribers(TableOf(events), TopicName(m.src, m.name)));
      CountDeliveries(m, calls, node, c);
    }
  }

  lemma CallsKnown(calls: seq<Call>, m: Msg, subscribers: set<string>)
    requires Delivers(calls, m, subscribers)
    ensures forall i :: 0 <= i < |calls| ==> calls[i].mode == Intra || calls[i] == Call("", Dds)
  {
  }
}
