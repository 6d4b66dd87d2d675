// Reading timers that go on running while they are read: systemCounterGetTicks and its interrupt handler
// (source/common/system_counter.c), cpuGetTiming and timerElapsed (source/common/timers.c). Time is the
// number of ticks since the timer was started; its register shows the low 16 bits.

module Counters {
  import opened Words

  const TWO48 := 0x1_0000_0000_0000
  const TWO64 := 0x1_0000_0000_0000_0000

  // ----- the system counter as a step system

  // The ticks gone by; libnds_tick_count; and the timer's bit in REG_IF, which an overflow sets and the
  // interrupt dispatcher clears when it calls the handler.
  datatype Counter = Counter(now: nat, count: nat, pending: bool)

  datatype Event = Tick | Service

  const START := Counter(0, 0, false)

  predicate Can(c: Counter, e: Event) { e.Tick? || c.pending }

  function Next(c: Counter, e: Event): Counter
    requires Can(c, e)
  {
    match e
    case Tick => Counter(c.now + 1, c.count, c.pending || (c.now + 1) % TWO16 == 0)
    case Service => Counter(c.now, (c.count + TWO16) % TWO64, false)
  }

  // The overflow is not seen, because the one before it has not been serviced: one bit stands for both.
  predicate LosesOverflow(c: Counter, e: Event) { e.Tick? && c.pending && (c.now + 1) % TWO16 == 0 }

  // Every overflow is counted, or pending.
  predicate Exact(c: Counter) {
    c.count == TWO16 * ((c.now / TWO16 - if c.pending then 1 else 0) % TWO48)
  }

  ghost predicate IsRun(c: Counter, events: seq<Event>, last: Counter)
    decreases |events|
  {
    if events == [] then last == c
    else Can(c, events[0]) && IsRun(Next(c, events[0]), events[1..], last)
  }

  ghost predicate LosesNothing(c: Counter, events: seq<Event>)
    decreases |events|
  {
    events == [] ||
    (Can(c, events[0]) && !LosesOverflow(c, events[0]) && LosesNothing(Next(c, events[0]), events[1..]))
  }

  lemma NextTick(now: nat)
    ensures (now + 1) % TWO16 == 0 ==> (now + 1) / TWO16 == now / TWO16 + 1
    ensures (now + 1) % TWO16 != 0 ==> (now + 1) / TWO16 == now / TWO16
  {
  }

  lemma AddUnit(n: int)
    ensures (TWO16 * (n % TWO48) + TWO16) % TWO64 == TWO16 * ((n + 1) % TWO48)
  {
    var r := n % TWO48;
    if r + 1 < TWO48 {
      assert (n + 1) % TWO48 == r + 1;
    } else {
      assert (n + 1) % TWO48 == 0;
    }
  }

  lemma StepIsExact(c: Counter, e: Event)
    requires Exact(c) && Can(c, e) && !LosesOverflow(c, e)
    ensures Exact(Next(c, e))
  {
    NextTick(c.now);
    AddUnit(c.now / TWO16 - 1);
  }

  lemma {:induction false} RunIsExact(c: Counter, events: seq<Event>, last: Counter)
    requires Exact(c) && IsRun(c, events, last) && LosesNothing(c, events)
    ensures Exact(last)
    decreases |events|
  {
    if events != [] {
      StepIsExact(c, events[0]);
      RunIsExact(Next(c, events[0]), events[1..], last);
    }
  }

  // ----- reading it

  // The counter some time later, when no interrupt is serviced.
  function Later(c: Counter, ticks: nat): Counter {
    Counter(c.now + ticks, c.count, c.pending || (c.now + ticks) / TWO16 > c.now / TWO16)
  }

  lemma {:induction false} LaterIsTicks(c: Counter, ticks: nat)
    ensures IsRun(c, seq(ticks, _ => Tick), Later(c, ticks))
    decreases ticks
  {
    if ticks > 0 {
      var d := Next(c, Tick);
      NextTick(c.now);
      LaterIsTicks(d, ticks - 1);
      assert seq(ticks, _ => Tick)[1..] == seq(ticks - 1, _ => Tick);
      assert (d.now + (ticks - 1)) / TWO16 >= d.now / TWO16;
    }
  }

  class SystemCounter {
    var count: nat                // libnds_tick_count
    var pending: bool             // the timer's bit in REG_IF
    var now: nat                  // the hardware timer

    function State(): Counter reads this { Counter(now, count, pending) }

    constructor ()
      ensures State() == START
    {
      count, pending, now := 0, false, 0;
    }

    // Time passes between two instructions.
    method Wait(ticks: nat)
      modifies this
      ensures State() == Later(old(State()), ticks)
    {
      pending := pending || (now + ticks) / TWO16 > now / TWO16;
      now := now + ticks;
    }

    method Handler()
      requires pending
      modifies this
      ensures State() == Next(old(State()), Service)
    {
      pending := false;
      count := (count + TWO16) % TWO64;
    }

    // With interrupts disabled. The parameters are the ticks that pass between the reads. The result is
    // the time of the last read if and only if no overflow has been lost by then.
    method GetTicks(wait1: nat, wait2: nat, wait3: nat) returns (ticks: nat)
      requires count < TWO64 && count % TWO16 == 0 && wait2 + wait3 < TWO16
      modifies this
      ensures State() == Later(old(State()), wait1 + wait2 + wait3)
      ensures ticks == ReadTicks(old(State()), wait1, wait2, wait3)
      ensures ticks == now % TWO64 <==> Exact(State())
    {
      ghost var c := State();
      var base := count;
      Wait(wait1);
      var timer1 := now % TWO16;
      Wait(wait2);
      var reg_if := pending;
      Wait(wait3);
      var timer2 := now % TWO16;
      ticks := base;
      if reg_if || timer2 < timer1 {
        ticks := (ticks + TWO16) % TWO64;
      }
      ticks := ticks + timer2;
      LaterIsLater(c.now, c.now + wait1, c.now + wait1 + wait2, now);
      ReadIsExact(c, wait1, wait2, wait3);
    }
  }

  // What a read returns: count, register, flag, register.
  function ReadTicks(c: Counter, wait1: nat, wait2: nat, wait3: nat): nat {
    var a := Later(c, wait1);
    var b := Later(a, wait2);
    var d := Later(b, wait3);
    (if b.pending || d.now % TWO16 < a.now % TWO16 then (c.count + TWO16) % TWO64 else c.count) + d.now % TWO16
  }

  lemma ReadIsExact(c: Counter, wait1: nat, wait2: nat, wait3: nat)
    requires c.count < TWO64 && c.count % TWO16 == 0 && wait2 + wait3 < TWO16
    ensures var d := Later(c, wait1 + wait2 + wait3);
      ReadTicks(c, wait1, wait2, wait3) == d.now % TWO64 <==> Exact(d)
  {
    var first, last := c.now + wait1, c.now + wait1 + wait2 + wait3;
    OverflowIsSeen(first, last);
    LaterIsLater(c.now, first, first + wait2, last);
    ReadOff(c.count / TWO16, last, Later(c, wait1 + wait2 + wait3).pending, last % TWO16);
  }

  lemma LaterIsLater(a: nat, b: nat, c: nat, d: nat)
    requires a <= b <= c <= d
    ensures a / TWO16 <= b / TWO16 <= c / TWO16 <= d / TWO16
  {
  }

  lemma OverflowIsSeen(first: nat, last: nat)
    requires first <= last < first + TWO16
    ensures last % TWO16 < first % TWO16 <==> last / TWO16 > first / TWO16
  {
  }

  // The high part with or without the pending overflow, and the low part beside it.
  lemma ReadOff(high: nat, now: nat, pending: bool, low: nat)
    requires high < TWO48 && low == now % TWO16
    ensures var base := TWO16 * high;
      (if pending then (base + TWO16) % TWO64 else base) + low == now % TWO64 <==>
      base == TWO16 * ((now / TWO16 - if pending then 1 else 0) % TWO48)
  {
    var o := now / TWO16;
    LowPart(now);
    if pending {
      AddUnit(high);
      SameAfterAdding(high, o - 1);
    }
  }

  lemma LowPart(now: nat)
    ensures now % TWO64 == TWO16 * (now / TWO16 % TWO48) + now % TWO16
  {
    var o := now / TWO16;
    var q, r := o / TWO48, o % TWO48;
    assert now == TWO64 * q + (TWO16 * r + now % TWO16);
  }

  lemma SameAfterAdding(high: nat, n: int)
    requires high < TWO48
    ensures (high + 1) % TWO48 == (n + 1) % TWO48 <==> high == n % TWO48
  {
    var r := n % TWO48;
    if r + 1 < TWO48 {
      assert (n + 1) % TWO48 == r + 1;
    } else {
      assert (n + 1) % TWO48 == 0;
    }
  }

  // ----- reads over a whole run

  datatype Action = Hardware(e: Event) | Read(wait1: nat, wait2: nat, wait3: nat)

  // The reads among these actions return these values. No overflow is lost: the handler is never as late
  // as the next overflow, and no two reads of the register are that far apart.
  ghost predicate Reads(c: Counter, actions: seq<Action>, values: seq<nat>, last: Counter)
    decreases |actions|
  {
    if actions == [] then values == [] && last == c
    else match actions[0]
      case Hardware(e) =>
        Can(c, e) && !LosesOverflow(c, e) && Reads(Next(c, e), actions[1..], values, last)
      case Read(w1, w2, w3) =>
        w2 + w3 < TWO16 && !(c.pending && (c.now + w1 + w2 + w3) / TWO16 > c.now / TWO16) && w1 + w2 + w3 < TWO16 &&
        values != [] && values[0] == ReadTicks(c, w1, w2, w3) &&
        Reads(Later(c, w1 + w2 + w3), actions[1..], values[1..], last)
  }

  lemma LaterIsExact(c: Counter, ticks: nat)
    requires Exact(c) && ticks < TWO16 && !(c.pending && (c.now + ticks) / TWO16 > c.now / TWO16)
    ensures Exact(Later(c, ticks))
  {
    OverflowIsSeen(c.now, c.now + ticks);
    AtMostOneMore(c.now, ticks);
  }

  lemma AtMostOneMore(now: nat, ticks: nat)
    requires ticks < TWO16
    ensures now / TWO16 <= (now + ticks) / TWO16 <= now / TWO16 + 1
  {
  }

  // The values go up from `low` to `high`.
  ghost predicate GoUp(values: seq<nat>, low: nat, high: nat) {
    low <= high && (values != [] ==> low <= values[0] && GoUp(values[1..], values[0], high))
  }

  lemma {:induction false} GoUpIsSorted(values: seq<nat>, low: nat, high: nat)
    requires GoUp(values, low, high)
    ensures forall k :: 0 <= k < |values| ==> low <= values[k] <= high
    ensures forall j, k :: 0 <= j < k < |values| ==> values[j] <= values[k]
  {
    if values != [] {
      GoUpIsSorted(values[1..], values[0], high);
      assert values == [values[0]] + values[1..];
    }
  }

  lemma {:induction false} GoUpFromLower(values: seq<nat>, lower: nat, low: nat, high: nat)
    requires GoUp(values, low, high) && lower <= low
    ensures GoUp(values, lower, high)
  {
  }

  lemma {:induction false} ReadsGoUp(c: Counter, actions: seq<Action>, values: seq<nat>, last: Counter)
    requires Exact(c) && Reads(c, actions, values, last) && last.now < TWO64
    ensures c.now <= last.now && Exact(last)
    ensures GoUp(values, c.now, last.now)
    decreases |actions|
  {
    hide Exact, ReadTicks;
    if actions != [] {
      match actions[0]
      case Hardware(e) =>
        StepIsExact(c, e);
        var d := Next(c, e);
        ReadsGoUp(d, actions[1..], values, last);
        GoUpFromLower(values, c.now, d.now, last.now);
      case Read(w1, w2, w3) =>
        var d := Later(c, w1 + w2 + w3);
        ReadKeepsExact(c, w1, w2, w3);
        ReadsGoUp(d, actions[1..], values[1..], last);
        assert d.now % TWO64 == d.now;
    }
  }

  // Over a whole run, time as read never goes back, and lies between the start and the end of the run.
  lemma ReadsAreMonotone(c: Counter, actions: seq<Action>, values: seq<nat>, last: Counter)
    requires Exact(c) && Reads(c, actions, values, last) && last.now < TWO64
    ensures Exact(last) && forall k :: 0 <= k < |values| ==> c.now <= values[k] <= last.now
    ensures forall j, k :: 0 <= j < k < |values| ==> values[j] <= values[k]
  {
    ReadsGoUp(c, actions, values, last);
    GoUpIsSorted(values, c.now, last.now);
  }

  lemma ReadKeepsExact(c: Counter, w1: nat, w2: nat, w3: nat)
    requires Exact(c) && w1 + w2 + w3 < TWO16
    requires !(c.pending && (c.now + w1 + w2 + w3) / TWO16 > c.now / TWO16)
    ensures Exact(Later(c, w1 + w2 + w3)) && ReadTicks(c, w1, w2, w3) == (c.now + w1 + w2 + w3) % TWO64
  {
    LaterIsExact(c, w1 + w2 + w3);
    ReadIsExact(c, w1, w2, w3);
  }

  // ----- two timers in cascade (cpuGetTiming)

  // The timers' registers at some time.
  function LowAt(now: nat): (low: nat)
    ensures low < TWO16
  {
    now % TWO16
  }

  function HighAt(now: nat): (high: nat)
    ensures high < TWO16
  {
    now / TWO16 % TWO16
  }

  // The parameters are the ticks that pass between the four reads. If all of them together are fewer than
  // an overflow apart, the result is the time of the first or of the third read, not a mix.
  method CpuGetTiming(start: nat, wait1: nat, wait2: nat, wait3: nat) returns (ticks: Word)
    ensures wait1 + wait2 + wait3 < TWO16 ==>
      ticks == (if LowAt(start + wait1 + wait2) < LowAt(start) then start + wait1 + wait2 else start) % TWO32
    ensures wait1 + wait2 + wait3 < TWO16 && start + wait1 + wait2 < TWO32 ==> start <= ticks <= start + wait1 + wait2
  {
    hide LowAt, HighAt;
    var now := start;
    var lo := LowAt(now);
    now := now + wait1;
    var hi := HighAt(now);
    now := now + wait2;
    var lo2 := LowAt(now);
    now := now + wait3;
    var hi2 := HighAt(now);
    if wait1 + wait2 + wait3 < TWO16 {
      NotTorn(start, wait1, wait2, wait3);
    }
    if lo2 < lo {
      lo := lo2;
      hi := hi2;
    }
    // lo | hi << 16: the bits of the two do not meet.
    ticks := lo + hi * TWO16;
  }

  lemma NotTorn(start: nat, wait1: nat, wait2: nat, wait3: nat)
    requires wait1 + wait2 + wait3 < TWO16
    ensures var third := start + wait1 + wait2;
      if LowAt(third) < LowAt(start) then LowAt(third) + HighAt(third + wait3) * TWO16 == third % TWO32
      else LowAt(start) + HighAt(start + wait1) * TWO16 == start % TWO32
  {
    var third := start + wait1 + wait2;
    OverflowIsSeen(start, third);
    AtMostOneMore(start, wait1 + wait2 + wait3);
    LaterIsLater(start, start + wait1, third, third + wait3);
    Registers(third);
    Registers(start);
  }

  lemma Registers(now: nat)
    ensures LowAt(now) + HighAt(now) * TWO16 == now % TWO32
  {
    var o := now / TWO16;
    var q, r := o / TWO16, o % TWO16;
    assert now == TWO32 * q + (TWO16 * r + now % TWO16);
  }

  // ----- time since the last call (timerElapsed)

  class Timers {
    const elapsed: array<int>

    predicate Valid() reads this, elapsed {
      elapsed.Length == 4 && forall i :: 0 <= i < 4 ==> 0 <= elapsed[i] < TWO16
    }

    constructor ()
      ensures Valid() && forall i :: 0 <= i < 4 ==> elapsed[i] == 0
    {
      elapsed := new int[4](_ => 0);
    }

    method TimerElapsed(timer: nat, now: nat) returns (result: nat)
      requires timer < 4 && Valid()
      modifies elapsed
      ensures Valid() && elapsed[timer] == now % TWO16
      ensures forall i :: 0 <= i < 4 && i != timer ==> elapsed[i] == old(elapsed[i])
      ensures forall before: nat :: before % TWO16 == old(elapsed[timer]) && before <= now ==>
        result == Since(before, now)
    {
      var time := now % TWO16;
      var signed := time - elapsed[timer];
      if signed < 0 {
        signed := time + (TWO16 - elapsed[timer]);
      }
      forall before: nat | before % TWO16 == elapsed[timer] && before <= now
        ensures signed == Since(before, now)
      {
        DifferenceOfRegisters(before, now);
      }
      elapsed[timer] := time;
      result := signed;
    }
  }

  // What a call at `now` returns when the last one was at `before`.
  function Since(before: nat, now: nat): nat
    requires before <= now
  {
    (now - before) % TWO16
  }

  lemma DifferenceOfRegisters(before: nat, now: nat)
    requires before <= now
    ensures var d := now % TWO16 - before % TWO16;
      (now - before) % TWO16 == if d < 0 then d + TWO16 else d
  {
    var q := now / TWO16 - before / TWO16;
    var d := now % TWO16 - before % TWO16;
    assert now - before == q * TWO16 + d;
    if d < 0 {
      assert now - before == (q - 1) * TWO16 + (d + TWO16);
    }
  }

  ghost predicate Ascending(times: seq<nat>) {
    |times| >= 2 ==> times[0] <= times[1] && Ascending(times[1..])
  }

  // All the results of a row of calls, added up.
  ghost function SumOfResults(times: seq<nat>): nat
    requires Ascending(times)
  {
    if |times| < 2 then 0 else Since(times[0], times[1]) + SumOfResults(times[1..])
  }

  // No two calls are an overflow or more apart.
  ghost predicate Prompt(times: seq<nat>) {
    |times| >= 2 ==> times[1] - times[0] < TWO16 && Prompt(times[1..])
  }

  // No time gets lost if and only if the calls are prompt.
  lemma {:induction false} NoTimeIsLost(times: seq<nat>)
    requires Ascending(times) && times != []
    ensures times[0] + SumOfResults(times) <= times[|times| - 1]
    ensures times[0] + SumOfResults(times) == times[|times| - 1] <==> Prompt(times)
  {
    if |times| >= 2 {
      NoTimeIsLost(times[1..]);
      assert times[1..][|times| - 2] == times[|times| - 1];
      SmallOrLess(times[1] - times[0]);
    }
  }

  lemma SmallOrLess(gap: nat)
    ensures gap % TWO16 <= gap && (gap % TWO16 == gap <==> gap < TWO16)
  {
  }
}
