/** The timers against the clock: what catching up with it (myframe/worker_timer.cpp:146-159) means for whole runs. */
module ClockedTimers {
  import opened Basics
  import opened Messages
  import opened TimerPlacement
  import opened FlatTimers

  /** A call of the wheel: a registration, or a reading of the clock in ticks. */
  datatype Call = Ask(actorName: string, timerName: string, delay: int) | Read(point: nat)

  /** The last reading, `now` being the one before all calls. */
  function LastReading(now: nat, calls: seq<Call>): nat
  {
    if |calls| == 0 then now
    else
      var k := |calls| - 1;
      if calls[k].Read? then calls[k].point else LastReading(now, calls[..k])
  }

  /** A reading that is not before the last one, `last`, is one tick for each tick of the clock, counted in 32 bits. */
  function CallOps(last: nat, call: Call): seq<Op>
  {
    match call
    case Ask(a, m, d) => [Timeout(a, m, d)]
    case Read(point) => Elapses(if point < last then 0 else (point - last) % WORD)
  }

  function AsOps(now: nat, calls: seq<Call>): seq<Op>
  {
    if |calls| == 0 then []
    else
      var k := |calls| - 1;
      AsOps(now, calls[..k]) + CallOps(LastReading(now, calls[..k]), calls[k])
  }

  /** The forward differences of the readings, each counted in 32 bits, added up. */
  function TicksRead(now: nat, calls: seq<Call>): nat
  {
    if |calls| == 0 then 0
    else
      var k := |calls| - 1;
      var last := LastReading(now, calls[..k]);
      TicksRead(now, calls[..k])
      + if calls[k].Read? && calls[k].point >= last then (calls[k].point - last) % WORD else 0
  }

  lemma {:induction false} TickCountConcat(a: seq<Op>, b: seq<Op>)
    ensures TickCount(a + b) == TickCount(a) + TickCount(b)
  {
    if |b| == 0 {
      assert a + b == a;
    } else {
      var k := |b| - 1;
      TickCountConcat(a, b[..k]);
      assert (a + b)[..|a| + k] == a + b[..k];
    }
  }

  lemma {:induction false} TickCountOfElapses(n: nat)
    ensures TickCount(Elapses(n)) == n
    decreases n
  {
    if n == 0 {
    } else {
      TickCountOfElapses(n - 1);
      assert Elapses(n)[..n - 1] == Elapses(n - 1);
    }
  }

  lemma {:induction false} TicksAreRead(now: nat, calls: seq<Call>)
    ensures TickCount(AsOps(now, calls)) == TicksRead(now, calls)
  {
    if |calls| == 0 {
    } else {
      var k := |calls| - 1;
      var last := LastReading(now, calls[..k]);
      TicksAreRead(now, calls[..k]);
      TickCountConcat(AsOps(now, calls[..k]), CallOps(last, calls[k]));
      match calls[k]
      case Ask(a, m, d) => assert TickCount([Timeout(a, m, d)][..0]) == 0;
      case Read(point) => TickCountOfElapses(|CallOps(last, calls[k])|);
    }
  }

  /** Delays are C++ ints. */
  predicate IntAsks(calls: seq<Call>)
  {
    forall i :: 0 <= i < |calls| && calls[i].Ask? ==> calls[i].delay < MAX_DELAY
  }

  lemma {:induction false} AsksAreInt(now: nat, calls: seq<Call>)
    requires IntAsks(calls)
    ensures IntDelays(AsOps(now, calls))
  {
    if |calls| == 0 {
    } else {
      AsksAreInt(now, calls[..|calls| - 1]);
    }
  }

  /** Over every sequence of readings and registrations, from every starting clock: what has been emitted is the
      schedule of the registrations up to the sum of the forward differences, and what is pending is the later ones. */
  lemma RunByClock(start: uint32, now: nat, calls: seq<Call>)
    requires IntAsks(calls)
    ensures OnSchedule(start, Run(start, AsOps(now, calls)),
                       FlatTimers.Registered(AsOps(now, calls)), TicksRead(now, calls))
    ensures Run(start, AsOps(now, calls)).out
         == Schedule(FlatTimers.Registered(AsOps(now, calls)), TicksRead(now, calls))
  {
    AsksAreInt(now, calls);
    RunIsSchedule(start, AsOps(now, calls));
    TicksAreRead(now, calls);
  }

  lemma OneOp(f: Flat, op: Op)
    ensures RunFrom(f, [op]) == Step(f, op)
  {
    assert [op][..0] == [];
  }

  // ---- In step with the clock --------------------------------------------------------------------

  /** The clock never goes back, and never 2^32 ticks or more ahead at one reading. */
  ghost predicate Steady(now: nat, calls: seq<Call>)
  {
    forall i :: 0 <= i < |calls| ==> SteadyAt(now, calls, i)
  }

  ghost predicate SteadyAt(now: nat, calls: seq<Call>, i: nat)
    requires i < |calls|
  {
    var last := LastReading(now, calls[..i]);
    calls[i].Read? ==> last <= calls[i].point < last + WORD
  }

  /** The ticks counted are the ticks of the clock. */
  ghost predicate InStep(now: nat, calls: seq<Call>)
  {
    now + TicksRead(now, calls) == LastReading(now, calls)
  }

  lemma SteadyFront(now: nat, calls: seq<Call>)
    requires |calls| > 0
    ensures var k := |calls| - 1; Steady(now, calls) <==> Steady(now, calls[..k]) && SteadyAt(now, calls, k)
  {
    var k := |calls| - 1;
    assert forall i :: 0 <= i < k ==> calls[..k][..i] == calls[..i];
    assert forall i :: 0 <= i < k ==> SteadyAt(now, calls, i) == SteadyAt(now, calls[..k], i);
  }

  /** At every moment of a run the wheel is in step with the clock if and only if the clock has been steady. */
  lemma {:induction false} InStepIffSteady(now: nat, calls: seq<Call>)
    ensures (forall i :: 0 <= i <= |calls| ==> InStep(now, calls[..i])) <==> Steady(now, calls)
  {
    if |calls| == 0 {
      assert calls[..0] == [];
    } else {
      var k := |calls| - 1;
      InStepIffSteady(now, calls[..k]);
      SteadyFront(now, calls);
      assert forall i :: 0 <= i <= k ==> calls[..k][..i] == calls[..i];
      assert calls[..|calls|] == calls;
      assert InStep(now, calls[..k]) ==> (InStep(now, calls) <==> SteadyAt(now, calls, k));
      assert (forall i :: 0 <= i <= |calls| ==> InStep(now, calls[..i]))
        <==> (forall i :: 0 <= i <= k ==> InStep(now, calls[..k][..i])) && InStep(now, calls);
    }
  }

  // ---- Time-outs by the clock --------------------------------------------------------------------

  lemma {:induction false} ReadOn(now: nat, a: seq<Call>, b: seq<Call>)
    ensures LastReading(now, a + b) == LastReading(LastReading(now, a), b)
    ensures AsOps(now, a + b) == AsOps(now, a) + AsOps(LastReading(now, a), b)
  {
    if |b| == 0 {
      assert a + b == a;
    } else {
      var k := |b| - 1;
      ReadOn(now, a, b[..k]);
      var mid := LastReading(now, a);
      var last := LastReading(mid, b[..k]);
      LastApart(a, b);
      CallLast(now, a + b[..k], b[k]);
      CallLast(mid, b[..k], b[k]);
      hide LastReading, AsOps, CallOps;
      Regrouped(AsOps(now, a), AsOps(mid, b[..k]), CallOps(last, b[k]));
    }
  }

  lemma LastApart(a: seq<Call>, b: seq<Call>)
    requires |b| > 0
    ensures a + b == (a + b[..|b| - 1]) + [b[|b| - 1]] && b == b[..|b| - 1] + [b[|b| - 1]]
  {
  }

  lemma Regrouped(a: seq<Op>, b: seq<Op>, c: seq<Op>)
    ensures (a + b) + c == a + (b + c)
  {
  }

  lemma CallLast(now: nat, calls: seq<Call>, call: Call)
    ensures LastReading(now, calls + [call]) == if call.Read? then call.point else LastReading(now, calls)
    ensures AsOps(now, calls + [call]) == AsOps(now, calls) + CallOps(LastReading(now, calls), call)
  {
    assert (calls + [call])[..|calls|] == calls;
  }

  ghost predicate AsksFor(call: Call, a: string, m: string)
  {
    call.Ask? && call.actorName == a && call.timerName == m && call.delay > 0
  }

  lemma {:induction false} NeverAsked(now: nat, calls: seq<Call>, a: string, m: string)
    requires forall i :: 0 <= i < |calls| ==> !AsksFor(calls[i], a, m)
    ensures forall i :: 0 <= i < |AsOps(now, calls)| ==> !Registers(AsOps(now, calls)[i], a, m)
  {
    if |calls| == 0 {
    } else {
      var k := |calls| - 1;
      assert forall i :: 0 <= i < k ==> calls[..k][i] == calls[i];
      NeverAsked(now, calls[..k], a, m);
    }
  }

  /** With a steady clock, a timer asked for with delay d has been emitted exactly once when the clock has been read at
      d ticks or more after the reading before it was asked for, and not at all before. */
  lemma FiresByClock(start: uint32, now: nat, before: seq<Call>, ask: Call, after: seq<Call>)
    requires ask.Ask? && ask.delay > 0 && IntAsks(before + [ask] + after) && Steady(now, before + [ask] + after)
    requires forall i :: 0 <= i < |before| ==> !AsksFor(before[i], ask.actorName, ask.timerName)
    requires forall i :: 0 <= i < |after| ==> !AsksFor(after[i], ask.actorName, ask.timerName)
    ensures multiset(Run(start, AsOps(now, before + [ask] + after)).out)
              [Msg("worker.timer", ask.actorName, ask.timerName, TIMER, Intra, "")]
            == if LastReading(now, before + [ask] + after) >= LastReading(now, before) + ask.delay then 1 else 0
  {
    var calls, asked := before + [ask] + after, before + [ask];
    var op := Timeout(ask.actorName, ask.timerName, ask.delay);
    var mid := LastReading(now, before);
    assert LastReading(now, asked) == mid && AsOps(now, asked) == AsOps(now, before) + [op] by {
      assert asked[..|before|] == before;
    }
    ReadOn(now, asked, after);
    AsksAreInt(now, calls);
    NeverAsked(now, before, ask.actorName, ask.timerName);
    NeverAsked(mid, after, ask.actorName, ask.timerName);
    FiresExactlyAfterDelay(start, AsOps(now, before), op, AsOps(mid, after));
    TicksAreRead(now, calls);
    TicksAreRead(now, asked);
    TickCountConcat(AsOps(now, asked), AsOps(mid, after));
    InStepIffSteady(now, calls);
    assert calls[..|calls|] == calls && calls[..|asked|] == asked;
    assert InStep(now, calls[..|calls|]) && InStep(now, calls[..|asked|]);
  }
}
