/** Publish/subscribe bookkeeping (myframe/msg_manager.cpp:19-100). */
module MsgManagers {
  import opened Basics
  import opened Messages
  import opened Names

  // Per topic, the components that subscribed to it. Two subscriptions of one component are the same entry.
  type Subs = map<string, set<string>>

  function TopicName(addr: string, name: string): string
  {
    if addr == "" then "" else if name == "" then addr else addr + "." + name
  }

  function Subscribers(subs: Subs, topic: string): set<string>
  {
    if topic in subs then subs[topic] else {}
  }

  function Recorded(subs: Subs, m: Msg): Subs
  {
    if m.mode == Dds then subs
    else
      var topic := TopicName(m.dst, m.name);
      subs[topic := Subscribers(subs, topic) + {m.src}]
  }

  /** A subscription goes on to the node iff its mode crosses processes and it is not a repetition. */
  predicate Forwards(subs: Subs, m: Msg)
  {
    m.mode == Dds || (m.mode == Hybrid && m.src !in Subscribers(subs, TopicName(m.dst, m.name)))
  }

  /** A publication within the process is turned away when its topic has no entry. */
  predicate TurnedAway(subs: Subs, m: Msg)
  {
    m.mode == Intra && TopicName(m.src, m.name) !in subs
  }

  /** Looking the topic up leaves an entry for it, empty if there was none. */
  function LookedUp(subs: Subs, m: Msg): Subs
  {
    var topic := TopicName(m.src, m.name);
    if m.mode == Dds then subs else subs[topic := Subscribers(subs, topic)]
  }

  function Published(subs: Subs, m: Msg): Subs
  {
    if TurnedAway(subs, m) then subs else LookedUp(subs, m)
  }

  datatype Call = Call(dst: string, mode: TransMode)

  class MsgManager {
    var subList: Subs

    constructor ()
      ensures subList == map[]
    {
      subList := map[];
    }

    method AddSubInfo(m: Msg) returns (forward: bool)
      modifies this
      ensures subList == Recorded(old(subList), m)
      ensures forward == Forwards(old(subList), m)
      ensures forward <==>
              || m.mode == Dds
              || (m.mode == Hybrid && (TopicName(m.dst, m.name) in old(subList) ==>
                                         m.src !in old(subList)[TopicName(m.dst, m.name)]))
    {
      var topic := TopicName(m.dst, m.name);
      if m.mode == Intra || m.mode == Hybrid {
        if topic !in subList {
          assert Subscribers(subList, topic) + {m.src} == {m.src};
          subList := subList[topic := {m.src}];
        } else if m.src !in subList[topic] {
          subList := subList[topic := subList[topic] + {m.src}];
        } else {
          assert subList[topic] + {m.src} == subList[topic];
          assert subList[topic := subList[topic]] == subList;
          return false;
        }
      }
      return m.mode == Dds || m.mode == Hybrid;
    }

    method AddPubInfo(m: Msg) returns (ok: bool)
      ensures ok == !TurnedAway(subList, m)
    {
      if m.mode == Intra && TopicName(m.src, m.name) !in subList {
        return false;
      }
      return true;
    }

    /** The calls made for one publication, in order; which subscriber comes first is left open. */
    method DispatchPubMsg(m: Msg) returns (calls: seq<Call>)
      modifies this
      ensures subList == LookedUp(old(subList), m)
      ensures Delivers(calls, m, Subscribers(old(subList), TopicName(m.src, m.name)))
    {
      calls := [];
      var topic := TopicName(m.src, m.name);
      if m.mode == Intra || m.mode == Hybrid {
        if topic !in subList {
          subList := subList[topic := {}];
        } else {
          assert subList[topic := subList[topic]] == subList;
        }
        calls := CallEach(subList[topic]);
      }
      if m.mode == Dds || m.mode == Hybrid {
        assert (calls + [Call("", Dds)])[..|calls|] == calls;
        calls := calls + [Call("", Dds)];
      } else {
        assert calls[..|calls|] == calls;
      }
    }

    method CallEach(all: set<string>) returns (calls: seq<Call>)
      ensures |calls| == |all|
      ensures forall i :: 0 <= i < |calls| ==> calls[i].mode == Intra && calls[i].dst in all
      ensures forall i, j :: 0 <= i < j < |calls| ==> calls[i].dst != calls[j].dst
      ensures forall c :: c in all ==> Call(c, Intra) in calls
    {
      calls := [];
      var rest := all;
      while rest != {}
        invariant rest <= all
        invariant |calls| + |rest| == |all|
        invariant forall i :: 0 <= i < |calls| ==> calls[i].mode == Intra && calls[i].dst in all - rest
        invariant forall i, j :: 0 <= i < j < |calls| ==> calls[i].dst != calls[j].dst
        invariant forall c :: c in all - rest ==> Call(c, Intra) in calls
        decreases rest
      {
        var c :| c in rest;
        rest := rest - {c};
        calls := calls + [Call(c, Intra)];
      }
    }
  }

  /** One in-process call per subscriber unless the mode is DDS, then one node forward unless it is Intra. */
  ghost predicate Delivers(calls: seq<Call>, m: Msg, subscribers: set<string>)
  {
    var n := if m.mode == Dds then 0 else |subscribers|;
    && |calls| == n + (if m.mode == Intra then 0 else 1)
    && (forall i :: 0 <= i < n ==> calls[i].mode == Intra && calls[i].dst in subscribers)
    && (forall i, j :: 0 <= i < j < n ==> calls[i].dst != calls[j].dst)
    && (m.mode != Dds ==> forall c :: c in subscribers ==> Call(c, Intra) in calls[..n])
    && (m.mode != Intra ==> calls[n] == Call("", Dds))
  }

  // ---- What a publication means after any history ------------------------------------------------

  /** Distinct publishers with three-part addresses never share a topic, whatever the message names. */
  lemma TopicInjective(a: string, n: string, b: string, m: string)
    requires ThreePart(a) && ThreePart(b)
    ensures TopicName(a, n) == TopicName(b, m) <==> a == b && n == m
  {
    if TopicName(a, n) == TopicName(b, m) {
      TopicPieces(a, n);
      TopicPieces(b, m);
      var p := Pieces(TopicName(a, n));
      assert Pieces(a) == p[..3] == Pieces(b);
      JoinPieces(a);
      JoinPieces(b);
      assert a == b;
      if n != "" && m != "" {
        assert (a + "." + n)[|a| + 1..] == n && (b + "." + m)[|b| + 1..] == m;
      }
    }
  }

  lemma TopicPieces(a: string, n: string)
    requires ThreePart(a)
    ensures Pieces(TopicName(a, n)) == Pieces(a) + if n == "" then [] else Pieces(n)
    ensures Pieces(TopicName(a, n))[..3] == Pieces(a)
  {
    if n != "" {
      PiecesConcat(a, n);
    }
  }

  /** The topic of (b, m) starts with address a and a dot, and name n says what follows. */
  predicate Continues(a: string, n: string, b: string, m: string)
  {
    && 0 < |a| < |b| && b[..|a| + 1] == a + "." && n != ""
    && n == if m == "" then b[|a| + 1..] else b[|a| + 1..] + "." + m
  }

  /** Exactly when two pairs of any shape share a topic: both addresses are empty, the pairs are equal, or the longer
      address goes on with a dot and the other name says what follows it. */
  lemma SameTopic(a: string, n: string, b: string, m: string)
    ensures TopicName(a, n) == TopicName(b, m) <==>
            (a == "" && b == "") || (a == b && n == m) || Continues(a, n, b, m) || Continues(b, m, a, n)
  {
    if a != "" && b != "" {
      if |a| <= |b| {
        SameTopicOrdered(a, n, b, m);
      } else {
        SameTopicOrdered(b, m, a, n);
      }
    }
  }

  lemma SameTopicOrdered(a: string, n: string, b: string, m: string)
    requires 0 < |a| <= |b|
    ensures TopicName(a, n) == TopicName(b, m) <==> (a == b && n == m) || Continues(a, n, b, m)
  {
    var s, t := TopicName(a, n), TopicName(b, m);
    assert s[..|a|] == a && t[..|b|] == b;
    assert n != "" ==> s == (a + ".") + n && s[|a| + 1..] == n;
    assert m != "" ==> t == b + ("." + m) && t[|b| + 1..] == m;
    if |a| < |b| {
      var rest := if m == "" then b[|a| + 1..] else b[|a| + 1..] + "." + m;
      assert b == b[..|a| + 1] + b[|a| + 1..];
      assert t == b[..|a| + 1] + rest;
      assert t[..|a| + 1] == b[..|a| + 1] && t[|a| + 1..] == rest;
      assert n != "" ==> s[..|a| + 1] == a + ".";
    }
  }

  /** Without the three-part rule a dot may belong to the address or to the name. */
  lemma LongerAddressesCollide(a: string, n: string)
    requires ThreePart(a) && n != ""
    ensures !ThreePart(a + "." + n) && TopicName(a + "." + n, "") == TopicName(a, n)
  {
    PiecesConcat(a, n);
  }

  datatype Event = Subscribe(msg: Msg) | Publish(msg: Msg)

  /** The table after a history, empty entries included. */
  function TableOf(events: seq<Event>): Subs
  {
    if events == [] then map[]
    else
      var before := TableOf(events[..|events| - 1]);
      match events[|events| - 1]
      case Subscribe(m) => Recorded(before, m)
      case Publish(m) => Published(before, m)
  }

  lemma TableOfNext(events: seq<Event>, k: nat)
    requires k < |events|
    ensures TableOf(events[..k + 1])
         == match events[k]
            case Subscribe(m) => Recorded(TableOf(events[..k]), m)
            case Publish(m) => Published(TableOf(events[..k]), m)
  {
    assert events[..k + 1][..k] == events[..k];
  }

  /** What gives a topic an entry: a subscription recorded for it, or a hybrid publication on it. */
  ghost predicate Opens(e: Event, topic: string)
  {
    match e
    case Subscribe(m) => m.mode != Dds && TopicName(m.dst, m.name) == topic
    case Publish(m) => m.mode == Hybrid && TopicName(m.src, m.name) == topic
  }

  ghost predicate Opened(events: seq<Event>, topic: string)
  {
    exists i :: 0 <= i < |events| && Opens(events[i], topic)
  }

  lemma {:induction false} EntryOpened(events: seq<Event>, topic: string)
    ensures topic in TableOf(events) <==> Opened(events, topic)
  {
    if events == [] {
    } else {
      var front, e := events[..|events| - 1], events[|events| - 1];
      EntryOpened(front, topic);
      assert forall i :: 0 <= i < |front| ==> front[i] == events[i];
      if Opened(front, topic) {
        var i :| 0 <= i < |front| && Opens(front[i], topic);
        assert Opens(events[i], topic);
      }
      if Opened(events, topic) && !Opens(e, topic) {
        var i :| 0 <= i < |events| && Opens(events[i], topic);
        assert Opens(front[i], topic);
      }
    }
  }

  /** After any history, a publication is turned away exactly when it stays within the process and nobody subscribed
      within the process to its topic, nor was there a hybrid publication on it, before. */
  lemma TurnedAwayIff(events: seq<Event>, m: Msg)
    ensures TurnedAway(TableOf(events), m) <==> m.mode == Intra && !Opened(events, TopicName(m.src, m.name))
  {
    EntryOpened(events, TopicName(m.src, m.name));
  }

  /** One hybrid publication on a topic nobody subscribed to: from then on publications within the process are let
      through, and reach nobody. */
  lemma HybridOpensTopic(h: Msg, m: Msg)
    requires h.mode == Hybrid && m.mode == Intra && h.src == m.src && h.name == m.name
    ensures TurnedAway(TableOf([]), m) && !TurnedAway(TableOf([Publish(h)]), m)
    ensures Subscribers(TableOf([Publish(h)]), TopicName(m.src, m.name)) == {}
  {
    assert [Publish(h)][..0] == [];
  }

  lemma RecordedLookup(subs: Subs, m: Msg, t: string)
    ensures Subscribers(Recorded(subs, m), t)
         == if m.mode != Dds && t == TopicName(m.dst, m.name) then Subscribers(subs, t) + {m.src}
            else Subscribers(subs, t)
  {
  }

  /** The components that asked, in this process, for this message of this publisher. */
  ghost predicate Asked(events: seq<Event>, publisher: string, name: string, c: string)
  {
    exists i :: 0 <= i < |events| && Asks(events[i], publisher, name, c)
  }

  ghost predicate Asks(e: Event, publisher: string, name: string, c: string)
  {
    e.Subscribe? && e.msg.mode != Dds && e.msg.dst == publisher && e.msg.name == name && e.msg.src == c
  }

  ghost predicate WellAddressed(events: seq<Event>)
  {
    forall i :: 0 <= i < |events| && events[i].Subscribe? ==> ThreePart(events[i].msg.dst)
  }

  /** After any history, the subscribers of a topic are exactly the components that asked for it. */
  lemma {:induction false} SubscribersAsked(events: seq<Event>, publisher: string, name: string, c: string)
    requires WellAddressed(events) && ThreePart(publisher)
    ensures c in Subscribers(TableOf(events), TopicName(publisher, name)) <==> Asked(events, publisher, name, c)
  {
    if events == [] {
    } else {
      var front, e := events[..|events| - 1], events[|events| - 1];
      assert forall i :: 0 <= i < |front| ==> front[i] == events[i];
      SubscribersAsked(front, publisher, name, c);
      AskedSplit(front, e, publisher, name, c);
      assert events == front + [e];
      if e.Subscribe? {
        TopicInjective(e.msg.dst, e.msg.name, publisher, name);
        RecordedLookup(TableOf(front), e.msg, TopicName(publisher, name));
      }
    }
  }

  /** Component c subscribed within the process to the topic. */
  ghost predicate Subscribed(events: seq<Event>, topic: string, c: string)
  {
    exists i :: 0 <= i < |events| && Subscribes(events[i], topic, c)
  }

  ghost predicate Subscribes(e: Event, topic: string, c: string)
  {
    e.Subscribe? && e.msg.mode != Dds && TopicName(e.msg.dst, e.msg.name) == topic && e.msg.src == c
  }

  lemma SubscribedSplit(front: seq<Event>, e: Event, topic: string, c: string)
    ensures Subscribed(front + [e], topic, c) <==> Subscribed(front, topic, c) || Subscribes(e, topic, c)
  {
    hide Subscribes;
    var all := front + [e];
    if Subscribed(front, topic, c) {
      var i :| 0 <= i < |front| && Subscribes(front[i], topic, c);
      assert Subscribes(all[i], topic, c);
    }
    if Subscribes(e, topic, c) {
      assert Subscribes(all[|front|], topic, c);
    }
  }

  /** Addresses of any shape: recorded under a topic are exactly the components that subscribed to it. */
  lemma {:induction false} SubscribersSubscribed(events: seq<Event>, topic: string, c: string)
    ensures c in Subscribers(TableOf(events), topic) <==> Subscribed(events, topic, c)
  {
    if events == [] {
    } else {
      hide Subscribed;
      var front, e := events[..|events| - 1], events[|events| - 1];
      assert events == front + [e];
      SubscribersSubscribed(front, topic, c);
      SubscribedSplit(front, e, topic, c);
      if e.Subscribe? {
        RecordedLookup(TableOf(front), e.msg, topic);
      }
    }
  }

  /** After any history, a subscription is passed on to the node iff its mode is DDS, or it is hybrid and the component
      has not subscribed to the topic before, other than in mode DDS. */
  lemma PassedOnIff(events: seq<Event>, m: Msg)
    ensures Forwards(TableOf(events), m) <==>
            || m.mode == Dds
            || (m.mode == Hybrid && !Subscribed(events, TopicName(m.dst, m.name), m.src))
    ensures WellAddressed(events) && ThreePart(m.dst) ==>
              (Forwards(TableOf(events), m) <==>
               m.mode == Dds || (m.mode == Hybrid && !Asked(events, m.dst, m.name, m.src)))
  {
    hide TableOf, Subscribed, Asked, TopicName, WellAddressed, ThreePart;
    SubscribersSubscribed(events, TopicName(m.dst, m.name), m.src);
    if WellAddressed(events) && ThreePart(m.dst) {
      SubscribersAsked(events, m.dst, m.name, m.src);
    }
  }

  lemma AskedSplit(front: seq<Event>, e: Event, publisher: string, name: string, c: string)
    ensures Asked(front + [e], publisher, name, c)
        <==> Asked(front, publisher, name, c) || Asks(e, publisher, name, c)
  {
    var all := front + [e];
    if Asked(front, publisher, name, c) {
      var i :| 0 <= i < |front| && Asks(front[i], publisher, name, c);
      assert Asks(all[i], publisher, name, c);
    }
    if Asks(e, publisher, name, c) {
      assert Asks(all[|front|], publisher, name, c);
    }
  }

  lemma CallsCounted(calls: seq<Call>, m: Msg, subscribers: set<string>, c: string)
    requires Delivers(calls, m, subscribers)
    ensures multiset(calls)[Call(c, Intra)] == if m.mode != Dds && c in subscribers then 1 else 0
    ensures multiset(calls)[Call("", Dds)] == if m.mode != Intra then 1 else 0
  {
    var n := if m.mode == Dds then 0 else |subscribers|;
    var local, rest := calls[..n], calls[n..];
    assert forall i :: 0 <= i < n ==> local[i] == calls[i];
    CountDistinct(local, Call(c, Intra));
    CountDistinct(local, Call("", Dds));
    assert calls == local + rest;
    assert rest == if m.mode == Intra then [] else [Call("", Dds)];
    CountOfConcat(local, rest, Call(c, Intra));
    CountOfConcat(local, rest, Call("", Dds));
  }

  /** A publication calls each component that asked exactly once, nobody else, and the node exactly once iff its mode
      crosses processes. */
  lemma PublicationReaches(events: seq<Event>, m: Msg, calls: seq<Call>, c: string)
    requires WellAddressed(events) && ThreePart(m.src)
    requires Delivers(calls, m, Subscribers(TableOf(events), TopicName(m.src, m.name)))
    ensures multiset(calls)[Call(c, Intra)] == if m.mode != Dds && Asked(events, m.src, m.name, c) then 1 else 0
    ensures multiset(calls)[Call("", Dds)] == if m.mode != Intra then 1 else 0
  {
    hide WellAddressed, Asked, TopicName, Subscribers, ThreePart, TableOf, Delivers;
    SubscribersAsked(events, m.src, m.name, c);
    CallsCounted(calls, m, Subscribers(TableOf(events), TopicName(m.src, m.name)), c);
  }

  lemma {:induction false} CountDistinct(calls: seq<Call>, c: Call)
    requires forall i, j :: 0 <= i < j < |calls| ==> calls[i].dst != calls[j].dst
    ensures multiset(calls)[c] == if c in calls then 1 else 0
  {
    if calls == [] {
    } else {
      CountDistinct(calls[1..], c);
      assert calls == [calls[0]] + calls[1..];
    }
  }

  /** A publication turned away had nobody to reach. */
  lemma TurnedAwayReachesNobody(events: seq<Event>, m: Msg, c: string)
    requires WellAddressed(events) && ThreePart(m.src) && TurnedAway(TableOf(events), m)
    ensures !Asked(events, m.src, m.name, c)
  {
    SubscribersAsked(events, m.src, m.name, c);
  }

  /** What the answers and calls of one event must be, given the events before it: a subscription is passed on to the
      node if it crosses processes and is no repetition of one recorded; a publication is let through iff it crosses
      processes or its topic has been opened, and then calls the components that asked, each once, and the node by its
      mode. */
  ghost predicate AnsweredWell(before: seq<Event>, e: Event, ok: bool, calls: seq<Call>)
  {
    match e
    case Subscribe(m) =>
      && calls == []
      && (ok <==> m.mode == Dds || (m.mode == Hybrid && !Subscribed(before, TopicName(m.dst, m.name), m.src)))
      && (WellAddressed(before) && ThreePart(m.dst) ==>
            (ok <==> m.mode == Dds || (m.mode == Hybrid && !Asked(before, m.dst, m.name, m.src))))
    case Publish(m) =>
      && (ok <==> m.mode != Intra || Opened(before, TopicName(m.src, m.name)))
      && (if ok then Delivers(calls, m, Subscribers(TableOf(before), TopicName(m.src, m.name))) else calls == [])
      && (WellAddressed(before) && ThreePart(m.src) ==> forall c :: CalledWell(before, m, calls, c))
  }

  ghost predicate CalledWell(before: seq<Event>, m: Msg, calls: seq<Call>, c: string)
  {
    multiset(calls)[Call(c, Intra)] == if m.mode != Dds && Asked(before, m.src, m.name, c) then 1 else 0
  }

  lemma AllCalledWell(before: seq<Event>, m: Msg, ok: bool, calls: seq<Call>)
    requires ok == !TurnedAway(TableOf(before), m)
    requires if ok then Delivers(calls, m, Subscribers(TableOf(before), TopicName(m.src, m.name))) else calls == []
    ensures AnsweredWell(before, Publish(m), ok, calls)
  {
    hide TableOf, Delivers, Subscribers, Asked, WellAddressed, ThreePart, TopicName;
    TurnedAwayIff(before, m);
    if WellAddressed(before) && ThreePart(m.src) {
      forall c ensures CalledWell(before, m, calls, c) {
        if ok {
          PublicationReaches(before, m, calls, c);
        } else {
          TurnedAwayReachesNobody(before, m, c);
        }
      }
    }
  }

  /** The manager through any history of subscriptions and publications, each publication as the main thread deals with
      it (myframe/app.cpp:493-514). */
  method Drive(events: seq<Event>) returns (mgr: MsgManager, answers: seq<bool>, calls: seq<seq<Call>>)
    ensures fresh(mgr) && mgr.subList == TableOf(events)
    ensures |answers| == |calls| == |events|
    ensures forall i :: 0 <= i < |events| ==> AnsweredWell(events[..i], events[i], answers[i], calls[i])
  {
    hide AnsweredWell, TableOf, Delivers, Subscribers;
    mgr := new MsgManager();
    answers, calls := [], [];
    NoEvents();
    assert events[..0] == [];
    for k := 0 to |events|
      invariant fresh(mgr) && mgr.subList == TableOf(events[..k])
      invariant |answers| == |calls| == k
      invariant forall i :: 0 <= i < k ==> AnsweredWell(events[..i], events[i], answers[i], calls[i])
    {
      TableOfNext(events, k);
      var ok, made := false, [];
      match events[k] {
        case Subscribe(m) =>
          ok := mgr.AddSubInfo(m);
          SubscribedWell(events[..k], m);
        case Publish(m) =>
          ok := mgr.AddPubInfo(m);
          if ok {
            made := mgr.DispatchPubMsg(m);
          }
          AllCalledWell(events[..k], m, ok, made);
      }
      answers, calls := answers + [ok], calls + [made];
    }
    assert events[..|events|] == events;
  }

  lemma NoEvents()
    ensures TableOf([]) == map[]
  {
  }

  lemma SubscribedWell(before: seq<Event>, m: Msg)
    ensures AnsweredWell(before, Subscribe(m), Forwards(TableOf(before), m), [])
  {
    hide Forwards, TableOf, Subscribed, Asked, TopicName, WellAddressed, ThreePart;
    PassedOnIff(before, m);
  }
}
