// The mutex and the semaphore of include/nds/cothread.h, for any number of threads. Threads are
// cooperative: one runs until it yields. A mutex is for threads alone, so that a turn of its loop, with the
// try and the yield it ends in, is one step. A semaphore may be signalled and tried from interrupt
// handlers as well, and these come between the instructions of a thread: there each load of the value is a
// step of its own. (The value is volatile, so that a test and the decrement behind it load it twice.)
// Waiting and waking follow the documentation of cothread_yield_signal and cothread_send_signal: a signal
// wakes every thread that waits for it. (Module Signals is about the lists behind it.)

module Locks {
  import opened Words

  // Where a thread is with respect to one lock: outside all of its functions, in the loop of an acquire
  // or a wait and about to try, asleep in that loop, or past it. In the functions of a semaphore, besides: its
  // test has found no unit in a wait, it has found one, or the value has been loaded to be changed.
  datatype Place = Outside | Trying | Asleep | Holding | Failed | Passed | Loaded(copy: Word, use: Use)

  datatype Use = ToTake | ToAdd

  // What a signal does: all sleepers go back to their loop.
  function Woken(place: seq<Place>): (r: seq<Place>)
    ensures |r| == |place|
    ensures forall t :: 0 <= t < |r| ==> r[t] == if place[t] == Asleep then Trying else place[t]
  {
    seq(|place|, t requires 0 <= t < |place| => if place[t] == Asleep then Trying else place[t])
  }

  // ----- the mutex

  datatype Mutex = Mutex(value: Byte, place: seq<Place>)

  datatype MutexStep =
    | Call(t: nat)        // comutex_acquire is called
    | Turn(t: nat)        // one turn of its loop
    | TryOnce(t: nat)     // comutex_try_acquire
    | Release(t: nat)     // comutex_release, by the thread that holds the mutex

  function FreshMutex(threads: nat): Mutex { Mutex(0, seq(threads, _ => Outside)) }

  predicate CanStep(m: Mutex, s: MutexStep) {
    s.t < |m.place| && match s
      case Call(t) => m.place[t] == Outside
      case Turn(t) => m.place[t] == Trying
      case TryOnce(t) => m.place[t] == Outside
      case Release(t) => m.place[t] == Holding
  }

  function Step(m: Mutex, s: MutexStep): Mutex
    requires CanStep(m, s)
  {
    match s
    case Call(t) => m.(place := m.place[t := Trying])
    case Turn(t) => if m.value != 0 then m.(place := m.place[t := Asleep]) else Mutex(1, m.place[t := Holding])
    case TryOnce(t) => if m.value != 0 then m else Mutex(1, m.place[t := Holding])
    case Release(t) => Mutex(0, Woken(m.place[t := Outside]))
  }

  ghost predicate IsMutexRun(m: Mutex, steps: seq<MutexStep>, last: Mutex)
    decreases |steps|
  {
    if steps == [] then last == m
    else CanStep(m, steps[0]) && IsMutexRun(Step(m, steps[0]), steps[1..], last)
  }

  // At most one thread holds the mutex.
  ghost predicate Exclusive(m: Mutex) {
    forall t, u :: 0 <= t < |m.place| && 0 <= u < |m.place| && m.place[t] == Holding && m.place[u] == Holding ==> t == u
  }

  ghost predicate IsHeld(m: Mutex) { exists t :: 0 <= t < |m.place| && m.place[t] == Holding }

  // The value says whether the mutex is held, and nobody sleeps on a free mutex.
  ghost predicate GoodMutex(m: Mutex) {
    Exclusive(m) &&
    m.value == (if IsHeld(m) then 1 else 0) &&
    forall t :: 0 <= t < |m.place| && m.place[t] == Asleep ==> m.value == 1
  }

  lemma StepKeepsMutex(m: Mutex, s: MutexStep)
    requires GoodMutex(m) && CanStep(m, s)
    ensures GoodMutex(Step(m, s))
  {
    var n := Step(m, s);
    if m.value == 0 && (s.Turn? || s.TryOnce?) {
      assert n.place[s.t] == Holding;
    } else if !s.Release? && IsHeld(m) {
      var h :| 0 <= h < |m.place| && m.place[h] == Holding;
      assert n.place[h] == Holding;
    }
  }

  lemma {:induction false} RunKeepsMutex(m: Mutex, steps: seq<MutexStep>, last: Mutex)
    requires GoodMutex(m) && IsMutexRun(m, steps, last)
    ensures GoodMutex(last)
    decreases |steps|
  {
    if steps != [] {
      StepKeepsMutex(m, steps[0]);
      RunKeepsMutex(Step(m, steps[0]), steps[1..], last);
    }
  }

  // Whatever the threads do: mutual exclusion, and no lost wake-up.
  lemma MutexIsSafe(threads: nat, steps: seq<MutexStep>, last: Mutex)
    requires IsMutexRun(FreshMutex(threads), steps, last)
    ensures Exclusive(last) && (last.value == 0 <==> !IsHeld(last))
    ensures forall t :: 0 <= t < |last.place| && last.place[t] == Asleep ==> IsHeld(last)
  {
    assert GoodMutex(FreshMutex(threads));
    RunKeepsMutex(FreshMutex(threads), steps, last);
  }

  // While a thread is in an acquire, some thread can move the mutex on: a waiting thread tries, or the
  // holder (which is then not waiting itself) releases.
  lemma NobodyWaitsForNobody(m: Mutex, t: nat) returns (s: MutexStep)
    requires GoodMutex(m) && t < |m.place| && m.place[t] in {Trying, Asleep}
    ensures CanStep(m, s) && ((s == Turn(t)) || (s.Release? && m.place[t] == Asleep))
  {
    if m.place[t] == Trying {
      s := Turn(t);
    } else {
      var h :| 0 <= h < |m.place| && m.place[h] == Holding;
      s := Release(h);
    }
  }

  // After a release, the sleepers' next turn is not lost: the first of them to run gets the mutex, unless
  // another thread took it before.
  lemma ReleaseLetsSleeperIn(m: Mutex, h: nat, t: nat)
    requires GoodMutex(m) && CanStep(m, Release(h)) && t < |m.place| && m.place[t] == Asleep
    ensures var n := Step(m, Release(h));
      CanStep(n, Turn(t)) && Step(n, Turn(t)).place[t] == Holding
  {
  }

  class Comutex {
    var value: Byte
    var place: seq<Place>       // the scheduler's side: which threads wait

    ghost function State(): Mutex reads this { Mutex(value, place) }

    constructor (threads: nat)
      ensures State() == FreshMutex(threads)
    {
      value := 0;
      place := seq(threads, _ => Outside);
    }

    // cothread_yield_signal and cothread_send_signal, as they are documented
    method YieldSignal(t: nat)
      requires t < |place|
      modifies this`place
      ensures place == old(place)[t := Asleep]
    {
      place := place[t := Asleep];
    }

    method SendSignal()
      modifies this`place
      ensures place == Woken(old(place))
    {
      place := Woken(place);
    }

    method TryAcquire(t: nat) returns (acquired: bool)
      requires t < |place| && place[t] in {Outside, Trying}
      modifies this
      ensures acquired == (old(value) == 0)
      ensures State() == if acquired then Mutex(1, old(place)[t := Holding]) else old(State())
    {
      if value != 0 {
        return false;
      }
      value := 1;
      place := place[t := Holding];
      return true;
    }

    // One turn of comutex_acquire: when it is not done, the thread sleeps until the signal.
    method AcquireTurn(t: nat) returns (done: bool)
      requires CanStep(State(), Turn(t))
      modifies this
      ensures State() == Step(old(State()), Turn(t))
      ensures done <==> place[t] == Holding
      ensures GoodMutex(old(State())) ==> GoodMutex(State())
    {
      ghost var before := State();
      done := TryAcquire(t);
      if !done {
        YieldSignal(t);
      }
      if GoodMutex(before) {
        StepKeepsMutex(before, Turn(t));
      }
    }

    method Release(t: nat)
      requires CanStep(State(), MutexStep.Release(t))
      modifies this
      ensures State() == Step(old(State()), MutexStep.Release(t))
      ensures GoodMutex(old(State())) ==> GoodMutex(State())
    {
      ghost var before := State();
      value := 0;
      place := place[t := Outside];
      SendSignal();
      if GoodMutex(before) {
        StepKeepsMutex(before, MutexStep.Release(t));
      }
    }
  }

  // ----- the semaphore

  // With the history that its laws are about: the first value, and how many signals and how many waits
  // that returned there have been.
  datatype Sema = Sema(value: Word, first: Word, signals: nat, waits: nat, place: seq<Place>)

  datatype SemaStep =
    | CallWait(t: nat)      // cosema_wait is called
    | TestWait(t: nat)      // the test in a turn of its loop
    | TestTry(t: nat)       // the test in cosema_try_wait
    | Load(t: nat)          // after a test that has found a unit
    | LoadSignal(t: nat)    // in cosema_signal
    | Finish(t: nat)        // the store, or the yield
    | HandlerSignal         // cosema_signal in an interrupt handler
    | HandlerTry            // cosema_try_wait there

  function FreshSema(first: Word, threads: nat): Sema { Sema(first, first, 0, 0, seq(threads, _ => Outside)) }

  // The thread is within one of the functions, and not in a yield.
  predicate Busy(p: Place) { p.Failed? || p.Passed? || p.Loaded? }

  // No other thread runs before it has got through.
  predicate OthersAreDone(place: seq<Place>, t: nat) {
    forall u :: 0 <= u < |place| && u != t ==> !Busy(place[u])
  }

  predicate CanBe(s: Sema, t: nat, at: Place) { t < |s.place| && s.place[t] == at && OthersAreDone(s.place, t) }

  predicate CanSema(s: Sema, step: SemaStep) {
    match step
    case CallWait(t) => CanBe(s, t, Outside)
    case TestWait(t) => CanBe(s, t, Trying)
    case TestTry(t) => CanBe(s, t, Outside)
    case Load(t) => CanBe(s, t, Passed)
    case LoadSignal(t) => CanBe(s, t, Outside)
    case Finish(t) => t < |s.place| && (s.place[t].Loaded? || s.place[t].Failed?) && OthersAreDone(s.place, t)
    case _ => true
  }

  // One unit is taken: the value that was loaded, less one, is stored. (The counter is a 32-bit word.)
  function Taken(s: Sema, copy: Word): Sema {
    s.(value := (copy - 1) % TWO32, waits := s.waits + 1)
  }

  // One unit is added.
  function Added(s: Sema, copy: Word): Sema {
    s.(value := (copy + 1) % TWO32, signals := s.signals + 1, place := Woken(s.place))
  }

  function SemaNext(s: Sema, step: SemaStep): Sema
    requires CanSema(s, step)
  {
    match step
    case CallWait(t) => s.(place := s.place[t := Trying])
    case TestWait(t) => s.(place := s.place[t := if s.value > 0 then Passed else Failed])
    case TestTry(t) => if s.value > 0 then s.(place := s.place[t := Passed]) else s
    case Load(t) => s.(place := s.place[t := Loaded(s.value, ToTake)])
    case LoadSignal(t) => s.(place := s.place[t := Loaded(s.value, ToAdd)])
    case Finish(t) =>
      if s.place[t].Failed? then s.(place := s.place[t := Asleep])
      else
        var done, copy := s.(place := s.place[t := Outside]), s.place[t].copy;
        if s.place[t].use == ToAdd then Added(done, copy) else Taken(done, copy)
    case HandlerSignal => Added(s, s.value)
    case HandlerTry => if s.value > 0 then Taken(s, s.value) else s
  }

  ghost predicate IsSemaRun(s: Sema, steps: seq<SemaStep>, last: Sema)
    decreases |steps|
  {
    if steps == [] then last == s
    else CanSema(s, steps[0]) && IsSemaRun(SemaNext(s, steps[0]), steps[1..], last)
  }

  // The units there are, as the history has them.
  function Units(s: Sema): int { s.first + s.signals - s.waits }

  // Conservation, as the counter's width allows.
  predicate Counts(s: Sema) { Units(s) >= 0 && Units(s) % TWO32 == s.value }

  // Nobody sleeps while there is something to take.
  predicate SleepersHaveNothing(s: Sema) {
    forall t :: 0 <= t < |s.place| && s.place[t] == Asleep ==> s.value == 0
  }

  // What a thread has found out still holds.
  predicate IsRight(s: Sema, p: Place) {
    match p
    case Failed => s.value == 0
    case Passed => Units(s) > 0
    case Loaded(copy, use) => copy == s.value && (use == ToTake ==> Units(s) > 0)
    case _ => true
  }

  predicate ThreadsAreRight(s: Sema) { forall t :: 0 <= t < |s.place| ==> IsRight(s, s.place[t]) }

  // At most one thread is busy.
  predicate OneIsBusy(s: Sema) {
    forall t :: 0 <= t < |s.place| && Busy(s.place[t]) ==> OthersAreDone(s.place, t)
  }

  predicate GoodCount(s: Sema) { Counts(s) && ThreadsAreRight(s) && OneIsBusy(s) }

  // A thread that has found a unit, or has loaded the value to take it.
  predicate IsTaking(p: Place) { p.Passed? || (p.Loaded? && p.use == ToTake) }

  // While there is one, nobody sleeps.
  predicate TakersHaveNoSleepers(s: Sema) {
    forall t, u :: 0 <= t < |s.place| && 0 <= u < |s.place| && s.place[t] == Asleep ==> !IsTaking(s.place[u])
  }

  predicate GoodSema(s: Sema) { GoodCount(s) && SleepersHaveNothing(s) && TakersHaveNoSleepers(s) }

  // An interrupt handler comes late for a thread in the given place: the thread has found no unit, or has
  // loaded the value, and the handler changes it; or the thread has found the only unit, and the handler takes it.
  predicate IsLateFor(s: Sema, step: SemaStep, p: Place) {
    match p
    case Failed => step.HandlerSignal?
    case Passed => step.HandlerTry? && Units(s) == 1
    case Loaded(_, _) => step.HandlerSignal? || (step.HandlerTry? && s.value > 0)
    case _ => false
  }

  predicate IsLate(s: Sema, step: SemaStep) { exists t :: 0 <= t < |s.place| && IsLateFor(s, step, s.place[t]) }

  lemma CountUp(n: int, v: int)
    requires n % TWO32 == v
    ensures (n + 1) % TWO32 == (v + 1) % TWO32
  {
  }

  lemma CountDown(n: int, v: int)
    requires n % TWO32 == v
    ensures (n - 1) % TWO32 == (v - 1) % TWO32
  {
  }

  lemma Neighbours(v: Word)
    ensures (v + 1) % TWO32 != v && (v - 1) % TWO32 != v && (v + 1) % TWO32 != (v - 1) % TWO32
    ensures v > 0 ==> (v - 1) % TWO32 == v - 1
  {
  }

  lemma PositiveCount(n: int, v: Word)
    requires n >= 0 && n % TWO32 == v && v > 0
    ensures n > 0 && (n == 1 ==> v == 1)
  {
  }

  // A step that is not late.
  lemma StepKeepsCount(s: Sema, step: SemaStep)
    requires GoodCount(s) && CanSema(s, step) && !IsLate(s, step)
    ensures GoodCount(SemaNext(s, step))
  {
    var n := SemaNext(s, step);
    CountsAfter(s, step);
    forall t | 0 <= t < |n.place| ensures IsRight(n, n.place[t]) {
      assert IsRight(s, s.place[t]) && !IsLateFor(s, step, s.place[t]);
      RightAfter(s, step, t);
    }
    OneIsBusyAfter(s, step);
  }

  lemma OneIsBusyAfter(s: Sema, step: SemaStep)
    requires OneIsBusy(s) && CanSema(s, step)
    ensures OneIsBusy(SemaNext(s, step))
  {
    var n := SemaNext(s, step);
    if step.HandlerSignal? || step.HandlerTry? {
      assert forall u :: 0 <= u < |n.place| ==> Busy(n.place[u]) == Busy(s.place[u]);
    } else {
      assert forall u :: 0 <= u < |n.place| && u != step.t ==> !Busy(s.place[u]) && !Busy(n.place[u]);
    }
  }

  lemma CountsAfter(s: Sema, step: SemaStep)
    requires GoodCount(s) && CanSema(s, step)
    ensures Counts(SemaNext(s, step))
  {
    CountUp(Units(s), s.value);
    CountDown(Units(s), s.value);
    if s.value > 0 {
      PositiveCount(Units(s), s.value);
    }
    if step.Finish? {
      assert IsRight(s, s.place[step.t]);
    }
  }

  lemma RightAfter(s: Sema, step: SemaStep, t: nat)
    requires GoodCount(s) && CanSema(s, step) && t < |s.place|
    requires IsRight(s, s.place[t]) && !IsLateFor(s, step, s.place[t])
    ensures |SemaNext(s, step).place| == |s.place| && IsRight(SemaNext(s, step), SemaNext(s, step).place[t])
  {
    if s.value > 0 {
      PositiveCount(Units(s), s.value);
    }
    if Busy(s.place[t]) {
      assert OthersAreDone(s.place, t);
    }
  }

  // A late one leaves a thread with something wrong.
  lemma LateStepMisleads(s: Sema, step: SemaStep)
    requires GoodCount(s) && IsLate(s, step)
    ensures CanSema(s, step) && !ThreadsAreRight(SemaNext(s, step))
  {
    var t :| 0 <= t < |s.place| && IsLateFor(s, step, s.place[t]);
    Neighbours(s.value);
    assert IsRight(s, s.place[t]) && SemaNext(s, step).place[t] == s.place[t];
    assert Units(s) == 1 ==> s.value == 1;
    assert !IsRight(SemaNext(s, step), s.place[t]);
  }

  lemma StepKeepsSema(s: Sema, step: SemaStep)
    requires GoodSema(s) && CanSema(s, step)
    ensures GoodSema(SemaNext(s, step)) <==> !IsLate(s, step)
  {
    hide GoodCount, IsLate;
    assert GoodCount(s);
    if IsLate(s, step) {
      LateStepMisleads(s, step);
      GoodCountSays(SemaNext(s, step));
    } else {
      StepKeepsCount(s, step);
      StepKeepsSleepers(s, step);
    }
  }

  lemma GoodCountSays(s: Sema)
    ensures GoodCount(s) ==> ThreadsAreRight(s)
  {
  }

  lemma StepKeepsSleepers(s: Sema, step: SemaStep)
    requires GoodSema(s) && CanSema(s, step) && !IsLate(s, step)
    ensures SleepersHaveNothing(SemaNext(s, step)) && TakersHaveNoSleepers(SemaNext(s, step))
  {
    if step.Finish? {
      assert IsRight(s, s.place[step.t]) && !IsTaking(Failed);
      assert s.place[step.t].Failed? ==> forall u :: 0 <= u < |s.place| && u != step.t ==> !IsTaking(s.place[u]);
    }
  }

  // What the thread does before it yields or leaves.
  function Through(s: Sema, t: nat): Sema
    requires t < |s.place| && Busy(s.place[t]) && OthersAreDone(s.place, t)
  {
    SemaNext(if s.place[t].Passed? then SemaNext(s, Load(t)) else s, Finish(t))
  }

  lemma HandlersLeaveBusy(s: Sema, step: SemaStep, t: nat)
    requires (step.HandlerSignal? || step.HandlerTry?) && t < |s.place| && Busy(s.place[t]) && OthersAreDone(s.place, t)
    ensures var n := SemaNext(s, step); |n.place| == |s.place| && n.place[t] == s.place[t] && OthersAreDone(n.place, t)
  {
    var n := SemaNext(s, step);
    assert forall u :: 0 <= u < |s.place| ==> Busy(n.place[u]) == Busy(s.place[u]);
  }

  // And when the thread gets through, one of the laws is broken: units are lost or given twice, or the thread
  // sleeps while there is something to take.
  lemma LateStepBreaksLaw(s: Sema, step: SemaStep, t: nat)
    requires GoodSema(s) && t < |s.place| && IsLateFor(s, step, s.place[t])
    ensures CanSema(s, step) && OthersAreDone(s.place, t) && OthersAreDone(SemaNext(s, step).place, t)
    ensures SemaNext(s, step).place[t] == s.place[t]
    ensures var n := Through(SemaNext(s, step), t); !Counts(n) || !SleepersHaveNothing(n)
  {
    hide GoodSema, OthersAreDone;
    GoodSemaSays(s, t);
    HandlersLeaveBusy(s, step, t);
    var u, v, n := Units(s), s.value, Through(SemaNext(s, step), t);
    Neighbours(v);
    CountUp(u, v);
    CountDown(u, v);
    CountUp(u + 1, (v + 1) % TWO32);
    CountDown(u - 1, (v - 1) % TWO32);
    TwoAreNotOne(v);
    if s.place[t].Failed? {
      assert n.place[t] == Asleep && n.value == 1;
    }
  }

  lemma TwoAreNotOne(v: Word)
    ensures ((v + 1) % TWO32 + 1) % TWO32 != (v + 1) % TWO32 && ((v - 1) % TWO32 - 1) % TWO32 != (v - 1) % TWO32
  {
  }

  lemma GoodSemaSays(s: Sema, t: nat)
    requires GoodSema(s) && t < |s.place|
    ensures Counts(s) && IsRight(s, s.place[t]) && (Busy(s.place[t]) ==> OthersAreDone(s.place, t))
  {
  }

  ghost predicate NeverLate(s: Sema, steps: seq<SemaStep>)
    decreases |steps|
  {
    steps == [] ||
    (CanSema(s, steps[0]) && !IsLate(s, steps[0]) && NeverLate(SemaNext(s, steps[0]), steps[1..]))
  }

  ghost predicate AlwaysGood(s: Sema, steps: seq<SemaStep>)
    decreases |steps|
  {
    GoodSema(s) && (steps == [] || (CanSema(s, steps[0]) && AlwaysGood(SemaNext(s, steps[0]), steps[1..])))
  }

  // The semaphore is good throughout a run if and only if no step of an interrupt handler is late.
  lemma {:induction false} GoodIffNeverLate(s: Sema, steps: seq<SemaStep>, last: Sema)
    requires GoodSema(s) && IsSemaRun(s, steps, last)
    ensures AlwaysGood(s, steps) <==> NeverLate(s, steps)
    ensures NeverLate(s, steps) ==> GoodSema(last)
    ensures last.first == s.first
    decreases |steps|
  {
    hide GoodSema, IsLate, CanSema;
    if steps != [] {
      StepKeepsSema(s, steps[0]);
      StepKeepsFirst(s, steps[0]);
      if IsLate(s, steps[0]) {
        RunKeepsFirst(SemaNext(s, steps[0]), steps[1..], last);
        assert !AlwaysGood(SemaNext(s, steps[0]), steps[1..]);
      } else {
        GoodIffNeverLate(SemaNext(s, steps[0]), steps[1..], last);
      }
    }
  }

  lemma StepKeepsFirst(s: Sema, step: SemaStep)
    requires CanSema(s, step)
    ensures SemaNext(s, step).first == s.first && |SemaNext(s, step).place| == |s.place|
  {
  }

  lemma {:induction false} RunKeepsFirst(s: Sema, steps: seq<SemaStep>, last: Sema)
    requires IsSemaRun(s, steps, last)
    ensures last.first == s.first
    decreases |steps|
  {
    if steps != [] {
      RunKeepsFirst(SemaNext(s, steps[0]), steps[1..], last);
    }
  }

  // What good says to a caller: the value is the first value plus the signals minus the waits that
  // returned, exactly when that number fits the counter; and no wait returned without a signal or a first
  // unit of its own.
  lemma CountsSay(s: Sema)
    requires Counts(s)
    ensures s.waits <= s.first + s.signals
    ensures s.value == s.first + s.signals - s.waits <==> s.first + s.signals - s.waits < TWO32
  {
  }

  // Whatever the threads and the handlers do, when no step is late.
  lemma SemaIsSafe(first: Word, threads: nat, steps: seq<SemaStep>, last: Sema)
    requires IsSemaRun(FreshSema(first, threads), steps, last) && NeverLate(FreshSema(first, threads), steps)
    ensures last.waits <= first + last.signals
    ensures last.value == first + last.signals - last.waits <==> first + last.signals - last.waits < TWO32
    ensures forall t :: 0 <= t < |last.place| && last.place[t] == Asleep ==> last.value == 0
  {
    assert GoodSema(FreshSema(first, threads));
    GoodIffNeverLate(FreshSema(first, threads), steps, last);
    CountsSay(last);
  }

  // A run with a late signal: the thread sleeps though the semaphore has been signalled.
  lemma SleepsThroughSignal()
    ensures IsSemaRun(FreshSema(0, 1), [CallWait(0), TestWait(0), HandlerSignal, Finish(0)],
                      Sema(1, 0, 1, 0, [Asleep]))
  {
    var a, b, c := Sema(0, 0, 0, 0, [Trying]), Sema(0, 0, 0, 0, [Failed]), Sema(1, 0, 1, 0, [Failed]);
    var d := Sema(1, 0, 1, 0, [Asleep]);
    assert SemaNext(FreshSema(0, 1), CallWait(0)) == a && SemaNext(a, TestWait(0)) == b;
    assert SemaNext(b, HandlerSignal) == c && SemaNext(c, Finish(0)) == d;
    ConsSemaRun(c, Finish(0), [], d);
    ConsSemaRun(b, HandlerSignal, [Finish(0)], d);
    ConsSemaRun(a, TestWait(0), [HandlerSignal, Finish(0)], d);
    ConsSemaRun(FreshSema(0, 1), CallWait(0), [TestWait(0), HandlerSignal, Finish(0)], d);
  }

  lemma ConsSemaRun(s: Sema, step: SemaStep, rest: seq<SemaStep>, last: Sema)
    requires CanSema(s, step) && IsSemaRun(SemaNext(s, step), rest, last)
    ensures IsSemaRun(s, [step] + rest, last)
  {
    assert ([step] + rest)[1..] == rest;
  }

  // What a function does from its first load on, when no handler comes in between.
  function Whole(s: Sema, first: SemaStep): Sema
    requires CanSema(s, first) && (first.TestWait? || first.TestTry? || first.LoadSignal?)
  {
    var n := SemaNext(s, first);
    if Busy(n.place[first.t]) then Through(n, first.t) else n
  }

  class Cosema {
    var value: Word
    ghost var first: Word
    ghost var signals: nat
    ghost var waits: nat
    var place: seq<Place>       // the scheduler's side: which threads wait

    ghost function State(): Sema reads this { Sema(value, first, signals, waits, place) }

    constructor (initial: Word, threads: nat)
      ensures State() == FreshSema(initial, threads)
    {
      value, first, signals, waits := initial, initial, 0, 0;
      place := seq(threads, _ => Outside);
    }

    method YieldSignal(t: nat)
      requires t < |place|
      modifies this`place
      ensures place == old(place)[t := Asleep]
    {
      place := place[t := Asleep];
    }

    method SendSignal()
      modifies this`place
      ensures place == Woken(old(place))
    {
      place := Woken(place);
    }

    // It is the same whether a handler or a thread signals.
    method Signal(ghost t: nat)
      modifies this
      ensures State() == SemaNext(old(State()), HandlerSignal)
      ensures old(CanSema(State(), LoadSignal(t))) ==> State() == Whole(old(State()), LoadSignal(t))
    {
      value := (value + 1) % TWO32;
      signals := signals + 1;
      SendSignal();
    }

    method TryWait(ghost t: nat) returns (signalled: bool)
      modifies this
      ensures signalled == (old(value) > 0)
      ensures State() == SemaNext(old(State()), HandlerTry)
      ensures old(CanSema(State(), TestTry(t))) ==> State() == Whole(old(State()), TestTry(t))
    {
      if value > 0 {
        value := value - 1;
        waits := waits + 1;
        return true;
      }
      return false;
    }

    method WaitTurn(t: nat) returns (done: bool)
      requires CanSema(State(), TestWait(t))
      modifies this
      ensures State() == Whole(old(State()), TestWait(t))
      ensures done <==> place[t] == Outside
      ensures done == (old(value) > 0)
    {
      done := TryWait(t);
      if done {
        place := place[t := Outside];
      } else {
        YieldSignal(t);
      }
    }
  }
}
