/** The hierarchical timing wheel (myframe/worker_timer.cpp), refining the flat list of timers. */
module WorkerTimer {
  import opened Basics
  import opened Messages
  import opened TimerPlacement
  import opened FlatTimers
  import opened ClockedTimers

  /** The pending timers that belong in one slot, in registration order. */
  ghost function InSlot(p: seq<Timer>, c: uint32, q: Place): seq<Timer>
  {
    if |p| == 0 then []
    else
      var front := InSlot(p[..|p| - 1], c, q);
      if PlaceOf(p[|p| - 1].expire, c) == q then front + [p[|p| - 1]] else front
  }

  lemma InSlotAppend(p: seq<Timer>, t: Timer, c: uint32, q: Place)
    ensures InSlot(p + [t], c, q)
         == if PlaceOf(t.expire, c) == q then InSlot(p, c, q) + [t] else InSlot(p, c, q)
  {
    assert (p + [t])[..|p|] == p;
  }

  lemma NothingInSlots(c: uint32)
    ensures forall q :: InSlot([], c, q) == []
  {
  }

  lemma {:induction false} InSlotPlaced(p: seq<Timer>, c: uint32, q: Place)
    requires AllAhead(p, c)
    ensures forall i :: 0 <= i < |InSlot(p, c, q)| ==>
              PlaceOf(InSlot(p, c, q)[i].expire, c) == q && Ahead(InSlot(p, c, q)[i].expire, c)
  {
    if |p| == 0 {
    } else {
      var front := p[..|p| - 1];
      assert forall i :: 0 <= i < |front| ==> front[i] == p[i];
      InSlotPlaced(front, c, q);
    }
  }

  /** The slots partition the pending timers: each is in its own slot, as often as it is pending, and in no other. */
  lemma {:induction false} SlotsPartition(p: seq<Timer>, c: uint32, q: Place, t: Timer)
    ensures multiset(InSlot(p, c, q))[t] == if PlaceOf(t.expire, c) == q then multiset(p)[t] else 0
  {
    if |p| == 0 {
    } else {
      SlotsPartition(p[..|p| - 1], c, q, t);
      assert p == p[..|p| - 1] + [p[|p| - 1]];
    }
  }

  /** Re-placing one cascade slot brings every slot from its content at the old clock to that at the new one,
      order included. */
  lemma {:induction false} CascadeMoves(p: seq<Timer>, c: uint32, from: Place, q: Place)
    requires AllAhead(p, c) && Cascade(Next(c)) == Some(from)
    ensures q != from ==>
              InSlot(p, Next(c), q) == InSlot(p, c, q) + InSlot(InSlot(p, c, from), Next(c), q)
    ensures q == from ==> InSlot(p, Next(c), q) == []
    ensures q.level < from.level ==> InSlot(p, c, q) == []
    ensures q.level >= from.level ==> InSlot(InSlot(p, c, from), Next(c), q) == []
  {
    hide Cascade, Slot, Ahead, Next;
    if |p| == 0 {
    } else {
      var front, t := p[..|p| - 1], p[|p| - 1];
      assert forall i :: 0 <= i < |front| ==> front[i] == p[i];
      CascadeMoves(front, c, from, q);
      CascadeExact(t.expire, c);
      InSlotAppend(InSlot(front, c, from), t, Next(c), q);
      if PlaceOf(t.expire, c) != from {
        assert InSlot(p, c, from) == InSlot(front, c, from);
      }
    }
  }

  /** Each timer of the cascade slot goes to a strictly finer level. */
  lemma CascadeGoesDown(p: seq<Timer>, c: uint32, from: Place)
    requires AllAhead(p, c) && Cascade(Next(c)) == Some(from)
    ensures forall i :: 0 <= i < |InSlot(p, c, from)| ==>
              PlaceOf(InSlot(p, c, from)[i].expire, Next(c)).level < from.level
  {
    InSlotPlaced(p, c, from);
    forall i | 0 <= i < |InSlot(p, c, from)|
      ensures PlaceOf(InSlot(p, c, from)[i].expire, Next(c)).level < from.level
    {
      CascadeExact(InSlot(p, c, from)[i].expire, c);
    }
  }

  lemma {:induction false} NoCascadeMoves(p: seq<Timer>, c: uint32, q: Place)
    requires AllAhead(p, c) && Cascade(Next(c)).None?
    ensures InSlot(p, Next(c), q) == InSlot(p, c, q)
  {
    if |p| == 0 {
    } else {
      var front := p[..|p| - 1];
      assert forall i :: 0 <= i < |front| ==> front[i] == p[i];
      NoCascadeMoves(front, c, q);
      CascadeExact(p[|p| - 1].expire, c);
    }
  }

  /** After the cascade, the near slot of the new tick holds the due timers and every other slot the rest. */
  lemma {:induction false} DueIsNearSlot(p: seq<Timer>, c: uint32, q: Place)
    ensures q == Place(0, c % TVR_SIZE) ==> InSlot(p, c, q) == Due(p, c) && InSlot(NotDue(p, c), c, q) == []
    ensures q != Place(0, c % TVR_SIZE) ==> InSlot(p, c, q) == InSlot(NotDue(p, c), c, q)
  {
    if |p| == 0 {
    } else {
      var front, t := p[..|p| - 1], p[|p| - 1];
      DueIsNearSlot(front, c, q);
      DueSlot(t.expire, c);
      InSlotAppend(NotDue(front, c), t, c, q);
    }
  }

  lemma {:induction false} NearSlotEmpty(p: seq<Timer>, c: uint32)
    requires AllAhead(p, c)
    ensures InSlot(p, c, Place(0, c % TVR_SIZE)) == []
  {
    hide PlaceOf;
    if |p| == 0 {
    } else {
      var front := p[..|p| - 1];
      assert forall i :: 0 <= i < |front| ==> front[i] == p[i];
      NearSlotEmpty(front, c);
      DueSlot(p[|p| - 1].expire, c);
    }
  }

  lemma {:induction false} MiddleSlotsEmpty(p: seq<Timer>, c: uint32, level: nat)
    requires AllAhead(p, c) && 1 <= level <= 3
    ensures InSlot(p, c, Place(level, 0)) == []
  {
    if |p| == 0 {
    } else {
      var front := p[..|p| - 1];
      assert forall i :: 0 <= i < |front| ==> front[i] == p[i];
      MiddleSlotsEmpty(front, c, level);
      MiddleSlotZeroEmpty(p[|p| - 1].expire, c);
    }
  }

  lemma ZeroDigit(ct: uint32, i: nat)
    requires ct != 0 && i <= 3 && ct % Unit(i + 1) == 0 && ct / Unit(i + 1) % TVN_SIZE == 0
    ensures i < 3 && ct % Unit(i + 2) == 0 && ct / Unit(i + 1) / TVN_SIZE == ct / Unit(i + 2)
  {
  }

  lemma LowByteClear(ct: uint32, i: nat)
    requires i <= 3 && ct % Unit(i + 1) == 0
    ensures ct % 0x100 == 0
  {
  }

  lemma FirstNonZeroDigit(ct: uint32, i: nat)
    requires ct != 0 && i <= 3 && ct % Unit(i + 1) == 0 && Slot(ct, i + 1) != 0
    requires forall j :: 1 <= j <= i ==> Slot(ct, j) == 0
    ensures Cascade(ct) == Some(Place(i + 1, Slot(ct, i + 1)))
  {
    LowByteClear(ct, i);
    hide Slot, Unit;
    assert i >= 1 ==> Slot(ct, 1) == 0;
    assert i >= 2 ==> Slot(ct, 2) == 0;
    assert i >= 3 ==> Slot(ct, 3) == 0;
  }

  lemma SlotIs(ct: uint32, i: nat)
    requires i <= 3
    ensures Slot(ct, i + 1) == ct / Unit(i + 1) % TVN_SIZE
  {
  }

  lemma CascadeOrNot(ct: uint32)
    ensures ct == 0 ==> Cascade(ct) == Some(Place(4, 0))
    ensures ct % 0x100 != 0 ==> Cascade(ct) == None
  {
  }

  /** One mask test of `_AddTimerNode`: it fixes the level, or leaves the coarser ones. */
  lemma MaskTest(t: uint32, c: uint32, level: nat)
    requires level <= 3 && Level(t, c) >= level
    ensures OrLow(t, Unit(level + 1)) == OrLow(c, Unit(level + 1)) <==> Level(t, c) == level
  {
    match level {
      case 0 => assert Unit(1) == 0x100;
      case 1 => assert Unit(2) == 0x4000;
      case 2 => assert Unit(3) == 0x10_0000;
      case _ => assert Unit(4) == 0x400_0000;
    }
  }

  lemma ConcatThree<T>(a: seq<T>, b: seq<T>, c: seq<T>)
    ensures (a + b) + c == a + (b + c)
  {
  }

  lemma HeadMoved<T>(moved: seq<T>, rest: seq<T>)
    requires rest != []
    ensures moved + rest == (moved + [rest[0]]) + rest[1..] && rest[0] == (moved + rest)[|moved|]
  {
  }

  lemma PlacedAgain(before: seq<Timer>, moved: seq<Timer>, t: Timer, c: uint32, q: Place)
    ensures before + InSlot(moved + [t], c, q)
         == if q == PlaceOf(t.expire, c) then (before + InSlot(moved, c, q)) + [t] else before + InSlot(moved, c, q)
  {
    hide InSlot, PlaceOf;
    InSlotAppend(moved, t, c, q);
    ConcatThree(before, InSlot(moved, c, q), [t]);
  }

  class TimerManager {
    const tv1: array<seq<Timer>>
    const tv: array2<seq<Timer>>
    var time: uint32
    var curPoint: nat
    var timeoutList: seq<Msg>

    // The timers registered and not yet emitted, in registration order.
    ghost var pending: seq<Timer>

    ghost predicate Shaped()
    {
      tv1.Length == TVR_SIZE && tv.Length0 == 4 && tv.Length1 == TVN_SIZE
    }

    ghost function SlotAt(q: Place): seq<Timer>
      requires Shaped() && ValidPlace(q)
      reads tv1, tv
    {
      if q.level == 0 then tv1[q.slot] else tv[q.level - 1, q.slot]
    }

    /** Canonical placement: every slot holds exactly the pending timers that belong there now. */
    ghost predicate Valid()
      reads this, tv1, tv
    {
      && Shaped()
      && AllAhead(pending, time)
      && forall q :: ValidPlace(q) ==> SlotAt(q) == InSlot(pending, time, q)
    }

    ghost function Abs(): Flat
      reads this
    {
      Flat(time, pending, timeoutList)
    }

    constructor (time: uint32, now: nat)
      ensures Valid() && fresh(tv1) && fresh(tv)
      ensures Abs() == Flat(time, [], []) && curPoint == now
    {
      tv1 := new seq<Timer>[TVR_SIZE](_ => []);
      tv := new seq<Timer>[4, TVN_SIZE]((_, _) => []);
      this.time := time;
      curPoint := now;
      timeoutList := [];
      pending := [];
    }

    method AddTail(q: Place, node: Timer)
      requires Shaped() && ValidPlace(q)
      modifies tv1, tv
      ensures forall r :: ValidPlace(r) ==> SlotAt(r) == if r == q then old(SlotAt(r)) + [node] else old(SlotAt(r))
    {
      if q.level == 0 {
        tv1[q.slot] := tv1[q.slot] + [node];
      } else {
        tv[q.level - 1, q.slot] := tv[q.level - 1, q.slot] + [node];
      }
    }

    method DelHead(q: Place) returns (node: Timer)
      requires Shaped() && ValidPlace(q) && q.level >= 1 && SlotAt(q) != []
      modifies tv
      ensures node == old(SlotAt(q))[0]
      ensures forall r :: ValidPlace(r) ==> SlotAt(r) == if r == q then old(SlotAt(r))[1..] else old(SlotAt(r))
    {
      node := tv[q.level - 1, q.slot][0];
      tv[q.level - 1, q.slot] := tv[q.level - 1, q.slot][1..];
    }

    method AddTimerNode(node: Timer)
      requires Shaped()
      modifies tv1, tv
      ensures forall q :: ValidPlace(q) ==>
                SlotAt(q) == if q == PlaceOf(node.expire, time) then old(SlotAt(q)) + [node] else old(SlotAt(q))
    {
      var t := node.expire;
      MaskTest(t, time, 0);
      hide OrLow, Level;
      if OrLow(t, TVR_SIZE) == OrLow(time, TVR_SIZE) {
        AddTail(Place(0, t % TVR_SIZE), node);
      } else {
        var i := 0;
        var mask := TVR_SIZE * TVN_SIZE;
        while i < 3
          invariant 0 <= i <= 3
          invariant mask == Unit(i + 2)
          invariant Level(t, time) >= i + 1
          invariant forall q :: ValidPlace(q) ==> SlotAt(q) == old(SlotAt(q))
        {
          MaskTest(t, time, i + 1);
          if OrLow(t, mask) == OrLow(time, mask) {
            break;
          }
          mask := mask * TVN_SIZE;
          i := i + 1;
        }
        var idx := t / Unit(i + 1) % TVN_SIZE;
        SlotIs(t, i);
        AddTail(Place(i + 1, idx), node);
      }
    }

    method Timeout(actorName: string, timerName: string, delay: int) returns (r: int)
      requires Valid() && delay < MAX_DELAY
      modifies this`pending, tv1, tv
      ensures Valid()
      ensures r == if delay <= 0 then -1 else 0
      ensures Abs() == Register(old(Abs()), actorName, timerName, delay)
    {
      if delay <= 0 {
        return -1;
      }
      var timer := Timer(actorName, timerName, (delay + time) % WORD);
      AddTimerNode(timer);
      ghost var before := pending;
      pending := pending + [timer];
      TimerPlacement.Registered(time, delay);
      AllAheadAppend(before, timer, time);
      forall q | ValidPlace(q)
        ensures SlotAt(q) == InSlot(pending, time, q)
      {
        InSlotAppend(before, timer, time, q);
      }
      r := 0;
    }

    /** Empties one near slot into the list of time-outs. */
    method Dispatch(idx: nat)
      requires Shaped() && idx < TVR_SIZE
      modifies this`timeoutList, tv1
      ensures timeoutList == old(timeoutList) + TimeoutMsgs(old(tv1[idx]))
      ensures tv1[idx] == []
      ensures forall i :: 0 <= i < TVR_SIZE && i != idx ==> tv1[i] == old(tv1[i])
    {
      ghost var all := tv1[idx];
      ghost var done := 0;
      while tv1[idx] != []
        invariant 0 <= done <= |all|
        invariant tv1[idx] == all[done..]
        invariant timeoutList == old(timeoutList) + TimeoutMsgs(all[..done])
        invariant forall i :: 0 <= i < TVR_SIZE && i != idx ==> tv1[i] == old(tv1[i])
        decreases |tv1[idx]|
      {
        var timer := tv1[idx][0];
        tv1[idx] := tv1[idx][1..];
        timeoutList := timeoutList + [TimeoutMsg(timer)];
        assert all[..done + 1] == all[..done] + [timer];
        done := done + 1;
      }
      assert all[..done] == all;
    }

    method Execute()
      requires Shaped()
      modifies this`timeoutList, tv1
      ensures timeoutList == old(timeoutList) + TimeoutMsgs(old(tv1[time % TVR_SIZE]))
      ensures tv1[time % TVR_SIZE] == []
      ensures forall i :: 0 <= i < TVR_SIZE && i != time % TVR_SIZE ==> tv1[i] == old(tv1[i])
    {
      var idx := time % TVR_SIZE;
      while tv1[idx] != []
        invariant forall i :: 0 <= i < TVR_SIZE && i != idx ==> tv1[i] == old(tv1[i])
        invariant || (tv1[idx] == old(tv1[idx]) && timeoutList == old(timeoutList))
                  || (tv1[idx] == [] && timeoutList == old(timeoutList) + TimeoutMsgs(old(tv1[idx])))
        decreases |tv1[idx]|
      {
        Dispatch(idx);
      }
    }

    /** Places the first timer of one slot again. */
    method MoveOne(here: Place) returns (timer: Timer)
      requires Shaped() && ValidPlace(here) && here.level >= 1 && SlotAt(here) != []
      requires PlaceOf(SlotAt(here)[0].expire, time).level < here.level
      modifies tv1, tv
      ensures timer == old(SlotAt(here))[0] && SlotAt(here) == old(SlotAt(here))[1..]
      ensures forall q :: ValidPlace(q) && q != here ==>
                SlotAt(q) == if q == PlaceOf(timer.expire, time) then old(SlotAt(q)) + [timer] else old(SlotAt(q))
    {
      hide Level, Slot, PlaceOf;
      timer := DelHead(here);
      AddTimerNode(timer);
    }

    /** Places every timer of one slot again; none of them goes back to it. */
    method MoveList(level: nat, idx: nat)
      requires Shaped() && level < 4 && idx < TVN_SIZE
      requires forall i :: 0 <= i < |tv[level, idx]| ==> PlaceOf(tv[level, idx][i].expire, time).level < level + 1
      modifies tv1, tv
      ensures forall q :: ValidPlace(q) ==>
                SlotAt(q) == if q == Place(level + 1, idx) then []
                             else old(SlotAt(q)) + InSlot(old(tv[level, idx]), time, q)
    {
      hide InSlot, Level, Slot, PlaceOf;
      var here := Place(level + 1, idx);
      ghost var all, moved := tv[level, idx], [];
      NothingInSlots(time);
      while tv[level, idx] != []
        invariant all == moved + SlotAt(here)
        invariant forall q :: ValidPlace(q) && q != here ==> SlotAt(q) == old(SlotAt(q)) + InSlot(moved, time, q)
        decreases |tv[level, idx]|
      {
        assert SlotAt(here) == tv[level, idx];
        ghost var rest := SlotAt(here);
        HeadMoved(moved, rest);
        var timer := MoveOne(here);
        forall q | ValidPlace(q) && q != here
          ensures SlotAt(q) == old(SlotAt(q)) + InSlot(moved + [timer], time, q)
        {
          PlacedAgain(old(SlotAt(q)), moved, timer, time, q);
        }
        moved := moved + [timer];
      }
      assert all == moved;
    }

    /** Once the slot `from` has been placed again, every slot is canonical for the new tick. */
    lemma Cascaded(c: uint32, from: Place)
      requires Shaped() && AllAhead(pending, c) && time == Next(c) && Cascade(time) == Some(from)
      requires forall q :: ValidPlace(q) ==>
                 SlotAt(q) == if q == from then []
                              else InSlot(pending, c, q) + InSlot(InSlot(pending, c, from), time, q)
      ensures forall q :: ValidPlace(q) ==> SlotAt(q) == InSlot(pending, time, q)
    {
      hide InSlot;
      forall q | ValidPlace(q) ensures SlotAt(q) == InSlot(pending, time, q) {
        CascadeMoves(pending, c, from, q);
      }
    }

    /** Moves the clock one tick and re-places the one slot this makes necessary. */
    method Shift()
      requires Valid()
      modifies this`time, tv1, tv
      ensures time == Next(old(time))
      ensures forall q :: ValidPlace(q) ==> SlotAt(q) == InSlot(pending, time, q)
    {
      hide InSlot, Level, PlaceOf, Slot, Cascade;
      ghost var c := time;
      var mask := TVR_SIZE;
      time := (time + 1) % WORD;
      var ct := time;
      CascadeOrNot(ct);
      if ct == 0 {
        CascadeGoesDown(pending, c, Place(4, 0));
        assert SlotAt(Place(4, 0)) == InSlot(pending, c, Place(4, 0));
        MoveList(3, 0);
        Cascaded(c, Place(4, 0));
      } else {
        var t := ct / TVR_SIZE;
        var i := 0;
        ghost var moved := false;
        while ct % mask == 0
          invariant !moved && time == ct
          invariant 0 <= i <= 3 && mask == Unit(i + 1) <= 0x400_0000
          invariant t == ct / Unit(i + 1)
          invariant i > 0 ==> ct % mask == 0
          invariant forall j :: 1 <= j <= i ==> Slot(ct, j) == 0
          invariant forall q :: ValidPlace(q) ==> SlotAt(q) == InSlot(pending, c, q)
          decreases 3 - i
        {
          var idx := t % TVN_SIZE;
          SlotIs(ct, i);
          if idx != 0 {
            ghost var from := Place(i + 1, idx);
            FirstNonZeroDigit(ct, i);
            CascadeGoesDown(pending, c, from);
            assert SlotAt(from) == InSlot(pending, c, from);
            assert tv[i, idx] == SlotAt(from);
            MoveList(i, idx);
            Cascaded(c, from);
            moved := true;
            break;
          }
          ZeroDigit(ct, i);
          mask := mask * TVN_SIZE;
          t := t / TVN_SIZE;
          i := i + 1;
        }
        if !moved {
          assert i == 0 && Cascade(ct) == None;
          assert forall q :: ValidPlace(q) ==> SlotAt(q) == InSlot(pending, c, q);
          forall q | ValidPlace(q) ensures SlotAt(q) == InSlot(pending, time, q) {
            NoCascadeMoves(pending, c, q);
          }
        }
      }
    }

    /** One tick of the wheel is one tick of the flat list. */
    method UpdateOneTick()
      requires Valid()
      modifies this`time, this`timeoutList, this`pending, tv1, tv
      ensures Valid()
      ensures Abs() == Tick(old(Abs()))
    {
      hide InSlot, Level, Slot, PlaceOf;
      ghost var c, p, near := time, pending, Place(0, Next(time) % TVR_SIZE);
      NearSlotEmpty(p, c);
      assert SlotAt(Place(0, c % TVR_SIZE)) == [];
      Execute();
      assert timeoutList == old(timeoutList);
      assert forall q :: ValidPlace(q) ==> SlotAt(q) == old(SlotAt(q));
      Shift();
      label shifted:
      DueIsNearSlot(p, time, near);
      assert SlotAt(near) == Due(p, time);
      Execute();
      assert timeoutList == old(timeoutList) + TimeoutMsgs(Due(p, time));
      pending := NotDue(p, time);
      NotDueStaysAhead(p, c);
      forall q | ValidPlace(q) ensures SlotAt(q) == InSlot(pending, time, q) {
        DueIsNearSlot(p, time, q);
        assert q != near ==> SlotAt(q) == old@shifted(SlotAt(q));
      }
    }

    /** Catches up with the clock; the number of missed ticks is cut to 32 bits. */
    method UpdateTime(now: nat)
      requires Valid()
      modifies this, tv1, tv
      ensures Valid() && curPoint == now
      ensures Abs() == RunFrom(old(Abs()), Elapses(if now < old(curPoint) then 0 else (now - old(curPoint)) % WORD))
    {
      if now < curPoint {
        curPoint := now;
      } else if now != curPoint {
        var diff := (now - curPoint) % WORD;
        curPoint := now;
        for i := 0 to diff
          invariant Valid() && curPoint == now
          invariant Abs() == RunFrom(old(Abs()), Elapses(i))
        {
          assert Elapses(i + 1)[..i] == Elapses(i);
          UpdateOneTick();
        }
      }
    }

    /** What `Mailbox::Send(list)` does to the list: its messages are spliced away. */
    method TakeTimeouts() returns (ms: seq<Msg>)
      requires Valid()
      modifies this`timeoutList
      ensures Valid()
      ensures ms == old(timeoutList) && Abs() == old(Abs()).(out := [])
    {
      ms := timeoutList;
      timeoutList := [];
    }
  }

  /** The wheel through any run of registrations and ticks, from any starting clock: what it has emitted is the schedule
      of the registrations, each at exactly its tick and in registration order, and what it holds is the rest. */
  method Drive(start: uint32, ops: seq<Op>) returns (wheel: TimerManager)
    requires IntDelays(ops)
    ensures fresh(wheel) && wheel.Valid() && wheel.Abs() == Run(start, ops)
    ensures OnSchedule(start, wheel.Abs(), FlatTimers.Registered(ops), TickCount(ops))
    ensures wheel.timeoutList == Schedule(FlatTimers.Registered(ops), TickCount(ops))
  {
    wheel := new TimerManager(start, 0);
    for i := 0 to |ops|
      invariant fresh(wheel) && fresh(wheel.tv1) && fresh(wheel.tv)
      invariant wheel.Valid() && wheel.Abs() == Run(start, ops[..i])
    {
      assert ops[..i + 1][..i] == ops[..i];
      match ops[i] {
        case Timeout(actorName, timerName, delay) =>
          var r := wheel.Timeout(actorName, timerName, delay);
        case Elapse => wheel.UpdateOneTick();
      }
    }
    assert ops[..|ops|] == ops;
    RunIsSchedule(start, ops);
  }

  /** The wheel as the timer worker drives it, by readings of the clock and registrations in any order, from any reading
      on: see RunByClock and FiresByClock. */
  method DriveByClock(start: uint32, now: nat, calls: seq<Call>) returns (wheel: TimerManager)
    requires IntAsks(calls)
    ensures fresh(wheel) && wheel.Valid() && wheel.curPoint == LastReading(now, calls)
    ensures wheel.Abs() == Run(start, AsOps(now, calls))
    ensures wheel.timeoutList == Schedule(FlatTimers.Registered(AsOps(now, calls)), TicksRead(now, calls))
  {
    wheel := new TimerManager(start, now);
    for i := 0 to |calls|
      invariant fresh(wheel) && fresh(wheel.tv1) && fresh(wheel.tv)
      invariant wheel.Valid() && wheel.curPoint == LastReading(now, calls[..i])
      invariant wheel.Abs() == Run(start, AsOps(now, calls[..i]))
    {
      assert calls[..i + 1][..i] == calls[..i];
      ghost var before := wheel.Abs();
      RunOn(Flat(start, [], []), AsOps(now, calls[..i]), CallOps(LastReading(now, calls[..i]), calls[i]));
      match calls[i] {
        case Ask(actorName, timerName, delay) =>
          var r := wheel.Timeout(actorName, timerName, delay);
          OneOp(before, Timeout(actorName, timerName, delay));
        case Read(point) => wheel.UpdateTime(point);
      }
    }
    assert calls[..|calls|] == calls;
    RunByClock(start, now, calls);
  }
}
