/** Where the timing wheel keeps a timer: the digit arithmetic behind its five levels. */
module TimerPlacement {
  import opened Basics

  // Sizes and bit counts of myframe/worker_timer.h:18-23, as powers of two.
  const TVR_SIZE: nat := 256
  const TVN_SIZE: nat := 64

  const WORD: nat := 0x1_0000_0000

  /** Longest delay a positive C++ `int` can hold, plus one. */
  const MAX_DELAY: nat := 0x8000_0000

  type uint32 = x: nat | x < WORD

  /** Ticks covered by one slot of a level; level 5 stands for the whole word. */
  function Unit(level: nat): (u: nat)
    requires level <= 5
    ensures u > 0
  {
    match level
    case 0 => 1
    case 1 => 0x100
    case 2 => 0x4000
    case 3 => 0x10_0000
    case 4 => 0x400_0000
    case _ => 0x1_0000_0000
  }

  function SlotCount(level: nat): nat
  {
    if level == 0 then TVR_SIZE else TVN_SIZE
  }

  /** The value of `x | (mask - 1)` for a power of two `mask`. */
  function OrLow(x: uint32, mask: nat): nat
    requires mask > 0
  {
    x / mask * mask + (mask - 1)
  }

  /** The finest level whose slots still share all higher digits with the current time. */
  function Level(t: uint32, c: uint32): (l: nat)
    ensures l <= 4
  {
    if t / 0x100 == c / 0x100 then 0
    else if t / 0x4000 == c / 0x4000 then 1
    else if t / 0x10_0000 == c / 0x10_0000 then 2
    else if t / 0x400_0000 == c / 0x400_0000 then 3
    else 4
  }

  function Slot(t: uint32, level: nat): (i: nat)
    requires level <= 4
    ensures i < SlotCount(level)
  {
    t / Unit(level) % SlotCount(level)
  }

  datatype Place = Place(level: nat, slot: nat)

  predicate ValidPlace(p: Place)
  {
    p.level <= 4 && p.slot < SlotCount(p.level)
  }

  function PlaceOf(t: uint32, c: uint32): (p: Place)
    ensures ValidPlace(p)
  {
    Place(Level(t, c), Slot(t, Level(t, c)))
  }

  function Next(c: uint32): uint32
  {
    if c + 1 == WORD then 0 else c + 1
  }

  /** Ticks from `c` forward to `t` on the 32-bit circle. */
  function Distance(t: uint32, c: uint32): nat
  {
    (t - c) % WORD
  }

  predicate Ahead(t: uint32, c: uint32)
  {
    1 <= Distance(t, c) < MAX_DELAY
  }

  /** The one slot whose timers must be placed again when the clock reaches `ct`. */
  function Cascade(ct: uint32): (p: Option<Place>)
    ensures p.Some? ==> ValidPlace(p.value) && p.value.level >= 1
  {
    if ct == 0 then Some(Place(4, 0))
    else if ct % 0x100 != 0 then None
    else if Slot(ct, 1) != 0 then Some(Place(1, Slot(ct, 1)))
    else if Slot(ct, 2) != 0 then Some(Place(2, Slot(ct, 2)))
    else if Slot(ct, 3) != 0 then Some(Place(3, Slot(ct, 3)))
    else Some(Place(4, Slot(ct, 4)))
  }

  /** Each level's number is the next finer one without its last digit. */
  lemma Digits(x: uint32)
    ensures x / 0x4000 == x / 0x100 / 64
    ensures x / 0x10_0000 == x / 0x4000 / 64
    ensures x / 0x400_0000 == x / 0x10_0000 / 64
    ensures x / 0x400_0000 < 64
  {
  }

  lemma Ordered(t: uint32, c: uint32)
    requires Ahead(t, c)
    ensures t > c || t / 0x400_0000 < c / 0x400_0000
  {
  }

  /** Adding one carries into the next digit exactly when the last digit becomes zero. */
  lemma Carry(c: nat, base: nat)
    requires base == 64 || base == 256
    ensures (c + 1) / base == if (c + 1) % base == 0 then c / base + 1 else c / base
  {
  }

  lemma NextDigits(c: uint32)
    requires c + 1 < WORD
    ensures var d := c + 1;
            && d / 0x100 == (if d % 0x100 == 0 then c / 0x100 + 1 else c / 0x100)
            && d / 0x4000 == (if d % 0x100 == 0 && d / 0x100 % 64 == 0 then c / 0x4000 + 1 else c / 0x4000)
            && d / 0x10_0000 == (if d % 0x100 == 0 && d / 0x100 % 64 == 0 && d / 0x4000 % 64 == 0
                                 then c / 0x10_0000 + 1 else c / 0x10_0000)
  {
    Digits(c);
    Digits(c + 1);
    Carry(c, 256);
    Carry(c / 0x100, 64);
    Carry(c / 0x4000, 64);
  }

  lemma NextTopDigit(c: uint32)
    requires c + 1 < WORD
    ensures var d := c + 1;
            d / 0x400_0000 == if d % 0x100 == 0 && d / 0x100 % 64 == 0 && d / 0x4000 % 64 == 0
                                 && d / 0x10_0000 % 64 == 0
                              then c / 0x400_0000 + 1 else c / 0x400_0000
  {
    NextDigits(c);
    Digits(c);
    Digits(c + 1);
    Carry(c / 0x10_0000, 64);
  }

  lemma Monotone(a: uint32, b: uint32)
    requires a <= b
    ensures a / 0x100 <= b / 0x100 && a / 0x4000 <= b / 0x4000
    ensures a / 0x10_0000 <= b / 0x10_0000 && a / 0x400_0000 <= b / 0x400_0000
  {
  }

  /** A timer ahead of the clock is past each digit of the tick just reached, or a whole lap behind it. */
  lemma AheadDigits(t: uint32, c: uint32)
    requires Ahead(t, c) && c + 1 < WORD
    ensures || (t / 0x100 >= (c + 1) / 0x100 && t / 0x4000 >= (c + 1) / 0x4000
                && t / 0x10_0000 >= (c + 1) / 0x10_0000 && t / 0x400_0000 >= (c + 1) / 0x400_0000)
            || (t / 0x100 < c / 0x100 && t / 0x4000 < c / 0x4000
                && t / 0x10_0000 < c / 0x10_0000 && t / 0x400_0000 < c / 0x400_0000)
  {
    Ordered(t, c);
    if t > c {
      Monotone(c + 1, t);
    } else {
      Monotone(t, c);
      Digits(t);
      Digits(c);
    }
  }

  lemma SameDigits(a: nat, b: nat)
    ensures a == b <==> a / 64 == b / 64 && a % 64 == b % 64
  {
  }

  lemma NoCascade(t: uint32, c: uint32)
    requires Ahead(t, c) && c + 1 < WORD && (c + 1) % 0x100 != 0
    ensures PlaceOf(t, c + 1) == PlaceOf(t, c)
  {
    NextDigits(c);
    NextTopDigit(c);
  }

  /** The clock carries into the digit of level `p.level`: exactly the timers of slot `p` change place. */
  lemma CascadeAt(t: uint32, c: uint32, p: Place)
    requires Ahead(t, c) && c + 1 < WORD && Cascade(c + 1) == Some(p)
    ensures Level(t, c) >= p.level
    ensures if PlaceOf(t, c) == p then Level(t, c + 1) < p.level else PlaceOf(t, c + 1) == PlaceOf(t, c)
  {
    var d := c + 1;
    NextDigits(c);
    NextTopDigit(c);
    AheadDigits(t, c);
    Digits(t);
    Digits(d);
    match p.level {
      case 1 => SameDigits(t / 0x100, d / 0x100);
      case 2 => SameDigits(t / 0x4000, d / 0x4000);
      case 3 => SameDigits(t / 0x10_0000, d / 0x10_0000);
      case _ => SameDigits(t / 0x400_0000, d / 0x400_0000);
    }
  }

  /** Going from clock `c` to clock `d`, a timer changes place iff it is in slot `p`, and then to a finer level. */
  ghost predicate MovedBy(t: uint32, c: uint32, d: uint32, p: Option<Place>)
  {
    match p
    case None => PlaceOf(t, d) == PlaceOf(t, c)
    case Some(q) =>
      && Level(t, c) >= q.level
      && if PlaceOf(t, c) == q then Level(t, d) < q.level else PlaceOf(t, d) == PlaceOf(t, c)
  }

  lemma CascadeExact(t: uint32, c: uint32)
    requires Ahead(t, c)
    ensures MovedBy(t, c, Next(c), Cascade(Next(c)))
  {
    if c + 1 == WORD {
      CascadeWrap(t, c);
    } else {
      match Cascade(c + 1)
      case None => NoCascade(t, c);
      case Some(p) => CascadeAt(t, c, p);
    }
  }

  lemma CascadeWrap(t: uint32, c: uint32)
    requires Ahead(t, c) && c + 1 == WORD
    ensures Level(t, c) == 4
    ensures if PlaceOf(t, c) == Place(4, 0) then Level(t, 0) < 4 else PlaceOf(t, 0) == PlaceOf(t, c)
  {
    Ordered(t, c);
    Digits(t);
    Digits(c);
  }

  /** A timer is due now iff it is in the near slot of the current tick. */
  lemma DueSlot(t: uint32, c: uint32)
    ensures PlaceOf(t, c) == Place(0, c % TVR_SIZE) <==> t == c
  {
    assert t == t / 0x100 * 0x100 + t % 0x100;
    assert c == c / 0x100 * 0x100 + c % 0x100;
  }

  /** Slot 0 of the three middle levels never holds a timer that is still ahead. */
  lemma MiddleSlotZeroEmpty(t: uint32, c: uint32)
    requires Ahead(t, c)
    ensures 1 <= Level(t, c) <= 3 ==> Slot(t, Level(t, c)) != 0
  {
    Ordered(t, c);
    Digits(t);
    Digits(c);
    if t > c {
      Monotone(c, t);
    }
  }

  lemma AheadStays(t: uint32, c: uint32)
    requires Ahead(t, c) && t != Next(c)
    ensures Ahead(t, Next(c))
    ensures Distance(t, Next(c)) == Distance(t, c) - 1
  {
  }

  /** Registration: the stored expiry is ahead by exactly the delay, whether or not the sum wraps. */
  lemma Registered(c: uint32, delay: int)
    requires 1 <= delay < MAX_DELAY
    ensures Distance((delay + c) % WORD, c) == delay
  {
  }
}
