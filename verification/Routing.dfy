/** Where the main thread sends a message (myframe/app.cpp:384-491). */
module Routing {
  import opened Basics
  import opened Messages
  import opened Names

  datatype Delivery = ToActor(actor: string, msg: Msg) | ToWorker(worker: string, msg: Msg)

  predicate StartsWith(s: string, prefix: string)
  {
    |prefix| <= |s| && s[..|prefix|] == prefix
  }

  predicate ActorAddress(d: string)
  {
    |Split(d)| == 3 && Split(d)[0] == "actor"
  }

  predicate WorkerAddress(d: string)
  {
    |Split(d)| == 3 && Split(d)[0] == "worker"
  }

  /** Addresses the routing table knows; connections are not modelled and go nowhere. */
  predicate KnownKind(address: string)
  {
    |Split(address)| == 3 && Split(address)[0] in ["actor", "worker", "event"]
  }

  /** A copy for the addressed actor or worker itself. */
  function Here(m: Msg, address: string): seq<Delivery>
  {
    if ActorAddress(address) then [ToActor(address, m)]
    else if WorkerAddress(address) then [ToWorker(address, m)] else []
  }

  /** A copy for the node, whatever the shape of its address. */
  function ToNode(m: Msg, node: string): seq<Delivery>
  {
    if StartsWith(node, "actor") then [ToActor(node, m)]
    else if StartsWith(node, "worker") then [ToWorker(node, m)]
    else []
  }

  /** Within the process the addressee gets the message, across processes the node, in hybrid mode both. */
  function Routed(m: Msg, dst: string, mode: TransMode, node: string): seq<Delivery>
  {
    if !KnownKind(Address(m, dst)) then []
    else (if mode == Dds then [] else Here(m, Address(m, dst))) + (if mode == Intra then [] else ToNode(m, node))
  }

  /** The table of the original: a row for each kind of address, a column for each mode. */
  method Route(m: Msg, dst: string, mode: TransMode, node: string) returns (ds: seq<Delivery>)
    ensures ds == Routed(m, dst, mode, node)
  {
    var address := if dst == "" then m.dst else dst;
    var tokens := SplitMsgName(address);
    if |tokens| != 3 {
      return [];
    }
    ds := [];
    if tokens[0] == "actor" {
      match mode {
        case Intra => ds := [ToActor(address, m)];
        case Dds => ds := TransToDds(m, node);
        case Hybrid =>
          if node == "" {
            return [ToActor(address, m)];
          }
          var rest := TransToDds(m, node);
          ds := [ToActor(address, m)] + rest;
      }
    } else if tokens[0] == "worker" {
      match mode {
        case Intra => ds := [ToWorker(address, m)];
        case Dds => ds := TransToDds(m, node);
        case Hybrid =>
          if node == "" {
            return [ToWorker(address, m)];
          }
          var rest := TransToDds(m, node);
          ds := [ToWorker(address, m)] + rest;
      }
    } else if tokens[0] == "event" {
      if mode != Intra {
        ds := TransToDds(m, node);
      }
    }
  }

  method TransToDds(m: Msg, node: string) returns (ds: seq<Delivery>)
    ensures ds == ToNode(m, node)
  {
    if node == "" {
      return [];
    }
    if |node| >= 5 && node[..5] == "actor" {
      return [ToActor(node, m)];
    }
    if |node| >= 6 && node[..6] == "worker" {
      return [ToWorker(node, m)];
    }
    return [];
  }

  // ---- Who gets a message ------------------------------------------------------------------------

  ghost function If(b: bool, n: nat): nat
  {
    if b then n else 0
  }

  lemma ActorOrWorker(c: string)
    ensures !(StartsWith(c, "actor") && StartsWith(c, "worker"))
    ensures !(ActorAddress(c) && WorkerAddress(c))
    ensures ActorAddress(c) || WorkerAddress(c) ==> KnownKind(c) && c != ""
  {
    if StartsWith(c, "actor") {
      assert "worker"[0] == 'w' && "actor"[0] == 'a' && c[..5][0] == c[0];
      assert |c| >= 6 ==> c[..6][0] == c[0];
    }
    assert "actor"[0] != "worker"[0];
  }

  /** Three-part addresses carry their kind in front. */
  lemma KindPrefix(d: string)
    ensures ActorAddress(d) ==> StartsWith(d, "actor") && !StartsWith(d, "worker")
    ensures WorkerAddress(d) ==> StartsWith(d, "worker") && !StartsWith(d, "actor")
  {
    ActorOrWorker(d);
    if ActorAddress(d) || WorkerAddress(d) {
      JoinPieces(d);
      var p := Pieces(d);
      assert Join(p) == p[0] + "." + Join(p[1..]);
      assert ActorAddress(d) ==> d[..5] == "actor";
      assert WorkerAddress(d) ==> d[..6] == "worker";
    }
  }

  /** A kind and two more parts, none with a dot in it; the last two may be empty. */
  ghost predicate Addresses(d: string, kind: string)
  {
    exists a, b :: DotFree(a) && DotFree(b) && d == kind + "." + a + "." + b
  }

  lemma AddressIs(d: string, kind: string)
    requires DotFree(kind)
    ensures Addresses(d, kind) <==> |Split(d)| == 3 && Split(d)[0] == kind
  {
    hide DotFree;
    if Addresses(d, kind) {
      var a, b :| DotFree(a) && DotFree(b) && d == kind + "." + a + "." + b;
      assert d == kind + "." + (a + "." + b);
      PiecesAtDot(kind, a + "." + b);
      PiecesAtDot(a, b);
      PiecesOfDotFree(b);
    }
    if |Split(d)| == 3 && Split(d)[0] == kind {
      var p := Pieces(d);
      PiecesDotFree(d);
      JoinPieces(d);
      assert Join(p[1..]) == p[1] + "." + p[2];
      assert d == p[0] + "." + (p[1] + "." + p[2]) == p[0] + "." + p[1] + "." + p[2];
    }
  }

  /** The three kinds of address, and no other, are routed. */
  lemma KindsExact(d: string)
    ensures ActorAddress(d) <==> Addresses(d, "actor")
    ensures WorkerAddress(d) <==> Addresses(d, "worker")
    ensures KnownKind(d) <==> Addresses(d, "actor") || Addresses(d, "worker") || Addresses(d, "event")
  {
    AddressIs(d, "actor");
    AddressIs(d, "worker");
    AddressIs(d, "event");
    hide Addresses;
  }

  lemma HereCount(m: Msg, address: string, c: string)
    ensures multiset(Here(m, address))[ToActor(c, m)] == If(address == c && ActorAddress(c), 1)
    ensures multiset(Here(m, address))[ToWorker(c, m)] == If(address == c && WorkerAddress(c), 1)
  {
    hide ActorAddress, WorkerAddress;
    ActorOrWorker(address);
  }

  lemma NodeCount(m: Msg, node: string, c: string)
    ensures multiset(ToNode(m, node))[ToActor(c, m)] == If(node == c && StartsWith(c, "actor"), 1)
    ensures multiset(ToNode(m, node))[ToWorker(c, m)] == If(node == c && StartsWith(c, "worker"), 1)
  {
    ActorOrWorker(c);
  }

  /** For every mode and address: the addressed actor or worker gets one copy unless the mode is DDS, the node gets one
      unless it is Intra, and nobody gets any when the address has not three parts of a known kind. */
  lemma RouteReaches(m: Msg, dst: string, mode: TransMode, node: string, c: string)
    ensures var address := Address(m, dst);
            var ds := multiset(Routed(m, dst, mode, node));
            var known := Addresses(address, "actor") || Addresses(address, "worker") || Addresses(address, "event");
            && ds[ToActor(c, m)] == If(mode != Dds && address == c && Addresses(c, "actor"), 1)
                                  + If(mode != Intra && known && node == c && StartsWith(c, "actor"), 1)
            && ds[ToWorker(c, m)] == If(mode != Dds && address == c && Addresses(c, "worker"), 1)
                                   + If(mode != Intra && known && node == c && StartsWith(c, "worker"), 1)
  {
    hide Here, ToNode, StartsWith, KnownKind, ActorAddress, WorkerAddress, Addresses;
    var address := Address(m, dst);
    KindsExact(address);
    KindsExact(c);
    ActorOrWorker(c);
    HereCount(m, address, c);
    NodeCount(m, node, c);
    CountOfConcat(Here(m, address), ToNode(m, node), ToActor(c, m));
    CountOfConcat(Here(m, address), ToNode(m, node), ToWorker(c, m));
    assert Here(m, address) + [] == Here(m, address) && [] + ToNode(m, node) == ToNode(m, node);
  }

  // ---- Plain messages within the process ---------------------------------------------------------

  predicate Plain(m: Msg)
  {
    m.kind != SUBSCRIBE && m.kind != PUBLISH
  }

  predicate LocalFor(m: Msg, d: string)
  {
    m.dst == d && m.mode == Intra && Plain(m)
  }

  function Target(d: Delivery): string
  {
    match d
    case ToActor(a, _) => a
    case ToWorker(w, _) => w
  }

  /** The plain in-process messages for d. */
  function LocalsFor(ms: seq<Msg>, d: string): seq<Msg>
  {
    if ms == [] then []
    else if LocalFor(ms[0], d) then [ms[0]] + LocalsFor(ms[1..], d) else LocalsFor(ms[1..], d)
  }

  /** Those that d is handed. */
  function Received(ds: seq<Delivery>, d: string): seq<Msg>
  {
    if ds == [] then []
    else if Target(ds[0]) == d && LocalFor(ds[0].msg, d) then [ds[0].msg] + Received(ds[1..], d)
    else Received(ds[1..], d)
  }

  lemma {:induction false} ReceivedConcat(a: seq<Delivery>, b: seq<Delivery>, d: string)
    ensures Received(a + b, d) == Received(a, d) + Received(b, d)
  {
    if a == [] {
      assert a + b == b;
    } else {
      assert (a + b)[1..] == a[1..] + b;
      ReceivedConcat(a[1..], b, d);
    }
  }

  lemma {:induction false} LocalsConcat(a: seq<Msg>, b: seq<Msg>, d: string)
    ensures LocalsFor(a + b, d) == LocalsFor(a, d) + LocalsFor(b, d)
  {
    if a == [] {
      assert a + b == b;
    } else {
      assert (a + b)[1..] == a[1..] + b;
      LocalsConcat(a[1..], b, d);
    }
  }

  /** Messages that are not plain, or cross processes, are not counted. */
  lemma {:induction false} ReceivedNothing(ds: seq<Delivery>, m: Msg, d: string)
    requires forall i :: 0 <= i < |ds| ==> ds[i].msg == m
    requires !Plain(m) || m.mode != Intra
    ensures Received(ds, d) == []
  {
    if ds == [] {
    } else {
      ReceivedNothing(ds[1..], m, d);
    }
  }

  lemma RoutedSame(m: Msg, dst: string, mode: TransMode, node: string)
    ensures forall i :: 0 <= i < |Routed(m, dst, mode, node)| ==> Routed(m, dst, mode, node)[i].msg == m
  {
    hide StartsWith, KnownKind, ActorAddress, WorkerAddress;
  }

  /** Routing a plain message hands it, as an in-process message, exactly to the three-part address it carries. */
  lemma RoutedReceived(m: Msg, node: string, d: string)
    requires Plain(m)
    ensures Received(Routed(m, m.dst, m.mode, node), d)
         == if LocalFor(m, d) && (ActorAddress(d) || WorkerAddress(d)) then [m] else []
  {
    hide StartsWith, KnownKind, ActorAddress, WorkerAddress;
    RoutedSame(m, m.dst, m.mode, node);
    ActorOrWorker(d);
    ActorOrWorker(m.dst);
    if m.mode != Intra {
      ReceivedNothing(Routed(m, m.dst, m.mode, node), m, d);
    } else {
      hide ToNode;
      assert Routed(m, m.dst, m.mode, node) == if KnownKind(m.dst) then Here(m, m.dst) else [];
    }
  }
}
