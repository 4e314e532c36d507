/** The simple thing the timing wheel stands for: one list of timers in registration order. */
module FlatTimers {
  import opened Basics
  import opened Messages
  import opened TimerPlacement

  datatype Timer = Timer(actorName: string, timerName: string, expire: uint32)

  /** `out` is everything `timeout_list_` has received and not yet handed over. */
  datatype Flat = Flat(time: uint32, pending: seq<Timer>, out: seq<Msg>)

  function TimeoutMsg(t: Timer): Msg
  {
    Msg("worker.timer", t.actorName, t.timerName, TIMER, Intra, "")
  }

  function TimeoutMsgs(ts: seq<Timer>): (ms: seq<Msg>)
    ensures |ms| == |ts|
  {
    seq(|ts|, i requires 0 <= i < |ts| => TimeoutMsg(ts[i]))
  }

  function Due(p: seq<Timer>, c: uint32): seq<Timer>
  {
    if |p| == 0 then []
    else
      var front := Due(p[..|p| - 1], c);
      if p[|p| - 1].expire == c then front + [p[|p| - 1]] else front
  }

  function NotDue(p: seq<Timer>, c: uint32): seq<Timer>
  {
    if |p| == 0 then []
    else
      var front := NotDue(p[..|p| - 1], c);
      if p[|p| - 1].expire == c then front else front + [p[|p| - 1]]
  }

  ghost predicate AllAhead(p: seq<Timer>, c: uint32)
  {
    forall i :: 0 <= i < |p| ==> Ahead(p[i].expire, c)
  }

  function Expiry(c: uint32, delay: int): uint32
    requires delay >= 0
  {
    (delay + c) % WORD
  }

  function Register(f: Flat, actorName: string, timerName: string, delay: int): Flat
  {
    if delay <= 0 then f
    else f.(pending := f.pending + [Timer(actorName, timerName, Expiry(f.time, delay))])
  }

  /** One tick: everything whose expiry equals the new time leaves, in registration order. */
  function Tick(f: Flat): Flat
  {
    var c := Next(f.time);
    Flat(c, NotDue(f.pending, c), f.out + TimeoutMsgs(Due(f.pending, c)))
  }

  lemma {:induction false} NotDueStaysAhead(p: seq<Timer>, c: uint32)
    requires AllAhead(p, c)
    ensures AllAhead(NotDue(p, Next(c)), Next(c))
  {
    if |p| == 0 {
    } else {
      var front := p[..|p| - 1];
      assert forall i :: 0 <= i < |front| ==> front[i] == p[i];
      NotDueStaysAhead(front, c);
      if p[|p| - 1].expire != Next(c) {
        AheadStays(p[|p| - 1].expire, c);
      }
    }
  }

  // ---- Whole runs, against a closed form on unbounded tick numbers -------------------------------

  datatype Op = Timeout(actorName: string, timerName: string, delay: int) | Elapse

  /** A registration with the tick it is due at, counted without wrap-around from the start of the run. */
  datatype Entry = Entry(due: nat, msg: Msg)

  /** Delays are C++ ints. */
  predicate IntDelays(ops: seq<Op>)
  {
    forall i :: 0 <= i < |ops| && ops[i].Timeout? ==> ops[i].delay < MAX_DELAY
  }

  function Step(f: Flat, op: Op): Flat
  {
    match op
    case Timeout(a, n, d) => Register(f, a, n, d)
    case Elapse => Tick(f)
  }

  function RunFrom(f: Flat, ops: seq<Op>): Flat
  {
    if |ops| == 0 then f else Step(RunFrom(f, ops[..|ops| - 1]), ops[|ops| - 1])
  }

  function Run(start: uint32, ops: seq<Op>): Flat
  {
    RunFrom(Flat(start, [], []), ops)
  }

  lemma {:induction false} RunOn(f: Flat, a: seq<Op>, b: seq<Op>)
    ensures RunFrom(RunFrom(f, a), b) == RunFrom(f, a + b)
  {
    if |b| == 0 {
      assert a + b == a;
    } else {
      var k := |b| - 1;
      RunOn(f, a, b[..k]);
      assert (a + b)[..|a| + k] == a + b[..k];
    }
  }

  /** Ticks and nothing else. */
  function Elapses(n: nat): (ops: seq<Op>)
    ensures |ops| == n && forall i :: 0 <= i < n ==> ops[i] == Elapse
  {
    seq(n, _ => Elapse)
  }

  function Elapsed(op: Op): nat
  {
    if op.Elapse? then 1 else 0
  }

  function TickCount(ops: seq<Op>): nat
  {
    if |ops| == 0 then 0 else TickCount(ops[..|ops| - 1]) + Elapsed(ops[|ops| - 1])
  }

  /** A positive delay registered after n ticks is due d ticks later. */
  function Noted(es: seq<Entry>, n: nat, op: Op): seq<Entry>
  {
    match op
    case Timeout(a, m, d) =>
      if d <= 0 then es else es + [Entry(n + d, Msg("worker.timer", a, m, TIMER, Intra, ""))]
    case Elapse => es
  }

  function Registered(ops: seq<Op>): seq<Entry>
  {
    if |ops| == 0 then []
    else
      var front := ops[..|ops| - 1];
      Noted(Registered(front), TickCount(front), ops[|ops| - 1])
  }

  function DueAt(es: seq<Entry>, tick: nat): seq<Msg>
  {
    if |es| == 0 then []
    else
      var front := DueAt(es[..|es| - 1], tick);
      if es[|es| - 1].due == tick then front + [es[|es| - 1].msg] else front
  }

  /** The batches due at ticks 1, 2, ..., n, each in registration order, one after the other. */
  function Schedule(es: seq<Entry>, n: nat): seq<Msg>
  {
    if n == 0 then [] else Schedule(es, n - 1) + DueAt(es, n)
  }

  function Later(es: seq<Entry>, n: nat): seq<Entry>
  {
    if |es| == 0 then []
    else
      var front := Later(es[..|es| - 1], n);
      if es[|es| - 1].due > n then front + [es[|es| - 1]] else front
  }

  /** The 32-bit timer of an entry. */
  function AsTimer(start: uint32, e: Entry): Timer
  {
    Timer(e.msg.dst, e.msg.name, (start + e.due) % WORD)
  }

  function AsTimers(start: uint32, es: seq<Entry>): seq<Timer>
  {
    if |es| == 0 then [] else AsTimers(start, es[..|es| - 1]) + [AsTimer(start, es[|es| - 1])]
  }

  /** Every entry is a timer message, and none is due later than the longest delay allows. */
  ghost predicate Bounded(es: seq<Entry>, n: nat)
  {
    forall i :: 0 <= i < |es| ==>
      && 1 <= es[i].due < n + MAX_DELAY
      && es[i].msg == TimeoutMsg(AsTimer(0, es[i]))
  }

  lemma {:induction false} RegisteredBounded(ops: seq<Op>)
    requires IntDelays(ops)
    ensures Bounded(Registered(ops), TickCount(ops))
  {
    if |ops| == 0 {
    } else {
      RegisteredBounded(ops[..|ops| - 1]);
    }
  }

  lemma DueAppend(p: seq<Timer>, t: Timer, c: uint32)
    ensures Due(p + [t], c) == if t.expire == c then Due(p, c) + [t] else Due(p, c)
    ensures NotDue(p + [t], c) == if t.expire == c then NotDue(p, c) else NotDue(p, c) + [t]
  {
    assert (p + [t])[..|p|] == p;
  }

  lemma EntriesAppend(es: seq<Entry>, e: Entry, n: nat)
    ensures Later(es + [e], n) == if e.due > n then Later(es, n) + [e] else Later(es, n)
    ensures DueAt(es + [e], n) == if e.due == n then DueAt(es, n) + [e.msg] else DueAt(es, n)
  {
    assert (es + [e])[..|es|] == es;
  }

  lemma AsTimersAppend(start: uint32, es: seq<Entry>, e: Entry)
    ensures AsTimers(start, es + [e]) == AsTimers(start, es) + [AsTimer(start, e)]
  {
    assert (es + [e])[..|es|] == es;
  }

  lemma TimeoutMsgsAppend(ts: seq<Timer>, us: seq<Timer>)
    ensures TimeoutMsgs(ts + us) == TimeoutMsgs(ts) + TimeoutMsgs(us)
  {
  }

  /** A tick splits the timers still to come exactly as the unbounded due ticks do. */
  lemma {:induction false} TickSplits(start: uint32, es: seq<Entry>, n: nat)
    requires Bounded(es, n)
    ensures var c := (start + n + 1) % WORD;
            && NotDue(AsTimers(start, Later(es, n)), c) == AsTimers(start, Later(es, n + 1))
            && TimeoutMsgs(Due(AsTimers(start, Later(es, n)), c)) == DueAt(es, n + 1)
  {
    if |es| == 0 {
    } else {
      var front, e := es[..|es| - 1], es[|es| - 1];
      assert es == front + [e];
      assert Bounded(front, n) by {
        assert forall i :: 0 <= i < |front| ==> front[i] == es[i];
      }
      TickSplits(start, front, n);
      TickSplitsLast(start, front, e, n);
    }
  }

  lemma TickSplitsLast(start: uint32, es: seq<Entry>, e: Entry, n: nat)
    requires Bounded([e], n)
    requires var c := (start + n + 1) % WORD;
             && NotDue(AsTimers(start, Later(es, n)), c) == AsTimers(start, Later(es, n + 1))
             && TimeoutMsgs(Due(AsTimers(start, Later(es, n)), c)) == DueAt(es, n + 1)
    ensures var c := (start + n + 1) % WORD;
            && NotDue(AsTimers(start, Later(es + [e], n)), c) == AsTimers(start, Later(es + [e], n + 1))
            && TimeoutMsgs(Due(AsTimers(start, Later(es + [e], n)), c)) == DueAt(es + [e], n + 1)
  {
    hide Due, NotDue, Later, DueAt, AsTimers;
    var c := (start + n + 1) % WORD;
    EntriesAppend(es, e, n);
    EntriesAppend(es, e, n + 1);
    if e.due > n {
      var t := AsTimer(start, e);
      var before := AsTimers(start, Later(es, n));
      AsTimersAppend(start, Later(es, n), e);
      DueAppend(before, t, c);
      assert e == [e][0];
      SameWord(start, e.due, n + 1);
      if e.due == n + 1 {
        TimeoutMsgsAppend(Due(before, c), [t]);
        assert TimeoutMsgs([t]) == [e.msg];
      } else {
        AsTimersAppend(start, Later(es, n + 1), e);
      }
    }
  }

  lemma SameWord(start: uint32, a: nat, b: nat)
    requires a < b + WORD && b < a + WORD
    ensures (start + a) % WORD == (start + b) % WORD <==> a == b
  {
  }

  lemma {:induction false} NewEntryIsLater(es: seq<Entry>, e: Entry, n: nat)
    requires e.due > n
    ensures Schedule(es + [e], n) == Schedule(es, n)
    decreases n
  {
    if n == 0 {
    } else {
      NewEntryIsLater(es, e, n - 1);
      EntriesAppend(es, e, n);
    }
  }

  ghost predicate OnSchedule(start: uint32, f: Flat, es: seq<Entry>, n: nat)
  {
    && f.time == (start + n) % WORD
    && f.pending == AsTimers(start, Later(es, n))
    && f.out == Schedule(es, n)
    && AllAhead(f.pending, f.time)
  }

  lemma RegisterKeepsSchedule(start: uint32, f: Flat, es: seq<Entry>, n: nat, a: string, m: string, d: int)
    requires OnSchedule(start, f, es, n) && 1 <= d < MAX_DELAY
    ensures OnSchedule(start, Register(f, a, m, d),
                       es + [Entry(n + d, Msg("worker.timer", a, m, TIMER, Intra, ""))], n)
  {
    hide Schedule, Later, AsTimers, AllAhead, Ahead, Distance;
    var e := Entry(n + d, Msg("worker.timer", a, m, TIMER, Intra, ""));
    NewEntryIsLater(es, e, n);
    EntriesAppend(es, e, n);
    AsTimersAppend(start, Later(es, n), e);
    WrapTwice(start + n, d);
    assert Expiry(f.time, d) == AsTimer(start, e).expire;
    AheadAtRegistration(f.time, d);
    AllAheadAppend(f.pending, AsTimer(start, e), f.time);
  }

  lemma AheadAtRegistration(c: uint32, d: int)
    requires 1 <= d < MAX_DELAY
    ensures Ahead(Expiry(c, d), c)
  {
    TimerPlacement.Registered(c, d);
  }

  lemma WrapTwice(a: nat, d: nat)
    ensures (d + a % WORD) % WORD == (a + d) % WORD
  {
  }

  lemma AllAheadAppend(p: seq<Timer>, t: Timer, c: uint32)
    requires AllAhead(p, c) && Ahead(t.expire, c)
    ensures AllAhead(p + [t], c)
  {
  }

  lemma TickKeepsSchedule(start: uint32, f: Flat, es: seq<Entry>, n: nat)
    requires OnSchedule(start, f, es, n) && Bounded(es, n)
    ensures OnSchedule(start, Tick(f), es, n + 1)
  {
    hide Bounded, Due, NotDue, Later, DueAt, AsTimers, AllAhead;
    TickSplits(start, es, n);
    NotDueStaysAhead(f.pending, f.time);
  }

  lemma StepKeepsSchedule(start: uint32, f: Flat, es: seq<Entry>, n: nat, op: Op)
    requires OnSchedule(start, f, es, n) && Bounded(es, n) && (op.Timeout? ==> op.delay < MAX_DELAY)
    ensures OnSchedule(start, Step(f, op), Noted(es, n, op), n + Elapsed(op))
  {
    hide OnSchedule, Bounded, Tick;
    match op
    case Timeout(a, m, d) =>
      if d > 0 {
        RegisterKeepsSchedule(start, f, es, n, a, m, d);
      }
    case Elapse => TickKeepsSchedule(start, f, es, n);
  }

  /** Exact firing and stable order, over every run from every starting clock: what has been emitted is the
      schedule of the registrations, and what is pending is the registrations still to come. */
  lemma {:induction false} RunIsSchedule(start: uint32, ops: seq<Op>)
    requires IntDelays(ops)
    ensures OnSchedule(start, Run(start, ops), Registered(ops), TickCount(ops))
  {
    if |ops| == 0 {
    } else {
      hide OnSchedule, Bounded, Step, Noted, Elapsed;
      var front := ops[..|ops| - 1];
      RunIsSchedule(start, front);
      RegisteredBounded(front);
      StepKeepsSchedule(start, Run(start, front), Registered(front), TickCount(front), ops[|ops| - 1]);
    }
  }

  // ---- Exactly once ------------------------------------------------------------------------------

  function CountUpTo(es: seq<Entry>, m: Msg, n: nat): nat
  {
    if |es| == 0 then 0
    else CountUpTo(es[..|es| - 1], m, n) +
         if es[|es| - 1].msg == m && 1 <= es[|es| - 1].due <= n then 1 else 0
  }

  lemma {:induction false} DueAtCount(es: seq<Entry>, m: Msg, n: nat)
    ensures CountUpTo(es, m, n + 1) == CountUpTo(es, m, n) + multiset(DueAt(es, n + 1))[m]
  {
    if |es| == 0 {
    } else {
      DueAtCount(es[..|es| - 1], m, n);
    }
  }

  lemma {:induction false} CountNone(es: seq<Entry>, m: Msg)
    ensures CountUpTo(es, m, 0) == 0
  {
    if |es| == 0 {
    } else {
      CountNone(es[..|es| - 1], m);
    }
  }

  /** Every registration due so far is in the schedule exactly once, and no other is. */
  lemma {:induction false} ScheduleCount(es: seq<Entry>, m: Msg, n: nat)
    ensures multiset(Schedule(es, n))[m] == CountUpTo(es, m, n)
    decreases n
  {
    hide CountUpTo, DueAt;
    if n == 0 {
      CountNone(es, m);
    } else {
      assert Schedule(es, n) == Schedule(es, n - 1) + DueAt(es, n);
      hide Schedule;
      ScheduleCount(es, m, n - 1);
      DueAtCount(es, m, n - 1);
      CountOfConcat(Schedule(es, n - 1), DueAt(es, n), m);
    }
  }

  ghost predicate Registers(op: Op, a: string, m: string)
  {
    op.Timeout? && op.actorName == a && op.timerName == m && op.delay > 0
  }

  lemma {:induction false} NeverRegistered(ops: seq<Op>, a: string, m: string, n: nat)
    requires forall i :: 0 <= i < |ops| ==> !Registers(ops[i], a, m)
    ensures CountUpTo(Registered(ops), Msg("worker.timer", a, m, TIMER, Intra, ""), n) == 0
  {
    if |ops| == 0 {
    } else {
      NeverRegistered(ops[..|ops| - 1], a, m, n);
    }
  }

  lemma OneMore(ops: seq<Op>, op: Op, m: Msg, n: nat)
    ensures TickCount(ops + [op]) == TickCount(ops) + if op.Elapse? then 1 else 0
    ensures CountUpTo(Registered(ops + [op]), m, n) == CountUpTo(Registered(ops), m, n)
            + if op.Timeout? && op.delay > 0 && Msg("worker.timer", op.actorName, op.timerName, TIMER, Intra, "") == m
                 && TickCount(ops) + op.delay <= n then 1 else 0
  {
    assert (ops + [op])[..|ops|] == ops;
  }

  lemma {:induction false} RegisteredOnce(before: seq<Op>, op: Op, after: seq<Op>, n: nat)
    requires op.Timeout? && op.delay > 0
    requires forall i :: 0 <= i < |before| ==> !Registers(before[i], op.actorName, op.timerName)
    requires forall i :: 0 <= i < |after| ==> !Registers(after[i], op.actorName, op.timerName)
    ensures TickCount(before + [op] + after) == TickCount(before) + TickCount(after)
    ensures CountUpTo(Registered(before + [op] + after),
                      Msg("worker.timer", op.actorName, op.timerName, TIMER, Intra, ""), n)
            == if TickCount(before) + op.delay <= n then 1 else 0
    decreases |after|
  {
    var ops := before + [op] + after;
    var m := Msg("worker.timer", op.actorName, op.timerName, TIMER, Intra, "");
    hide TickCount, Registered, CountUpTo;
    if |after| == 0 {
      assert before + [op] + after == before + [op];
      OneMore(before, op, m, n);
      NeverRegistered(before, op.actorName, op.timerName, n);
      NoTicks();
    } else {
      var front, last := after[..|after| - 1], after[|after| - 1];
      assert before + [op] + after == before + [op] + front + [last] && after == front + [last];
      assert !Registers(last, op.actorName, op.timerName);
      RegisteredOnce(before, op, front, n);
      OneMore(before + [op] + front, last, m, n);
      OneMore(front, last, m, n);
    }
  }

  lemma NoTicks()
    ensures TickCount([]) == 0
  {
  }

  /** A timer registered with delay d anywhere in a run has been emitted exactly once as soon as d more ticks
      have passed, and not at all before. */
  lemma FiresExactlyAfterDelay(start: uint32, before: seq<Op>, op: Op, after: seq<Op>)
    requires IntDelays(before + [op] + after) && op.Timeout? && op.delay > 0
    requires forall i :: 0 <= i < |before| ==> !Registers(before[i], op.actorName, op.timerName)
    requires forall i :: 0 <= i < |after| ==> !Registers(after[i], op.actorName, op.timerName)
    ensures multiset(Run(start, before + [op] + after).out)
              [Msg("worker.timer", op.actorName, op.timerName, TIMER, Intra, "")]
            == if TickCount(after) >= op.delay then 1 else 0
  {
    var ops := before + [op] + after;
    var m := Msg("worker.timer", op.actorName, op.timerName, TIMER, Intra, "");
    RunIsSchedule(start, ops);
    ScheduleCount(Registered(ops), m, TickCount(ops));
    RegisteredOnce(before, op, after, TickCount(ops));
  }
}
