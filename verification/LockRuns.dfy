// Mutexes and semaphores on the scheduler's lists of waiting threads, as the code has them: a thread that
// cannot go on calls cothread_yield_signal, and a release or a signal calls cothread_send_signal. The same
// threads wait for interrupts and are deleted, which works on the same links. Module Locks says what
// waiting and waking are documented to do. This module says in which runs they do it: exactly in those
// that keep the lists sound. All theorems of Locks hold in these.

module LockRuns {
  import opened Words
  import opened Signals
  import Locks

  // The locks of a program, any number of each kind. Their places know the threads that are in the loop
  // of an acquire or a wait as Trying; which of them sleep is for the list to say.
  datatype Lock = Mutex(m: Locks.Mutex) | Sema(s: Locks.Sema)

  datatype Program = Program(list: List, locks: seq<Lock>)

  // `ids` are the signal ids of the locks (comutex_to_signal_id, cosema_to_signal_id): their addresses,
  // so all different, with a bit set that the ids of an application's own signals have clear.
  datatype Step =
    | OnMutex(k: nat, m: Locks.MutexStep)
    | OnSema(k: nat, s: Locks.SemaStep)
    | Wait(t: nat, signal: Word)       // an application's own cothread_yield_signal
    | Send(signal: Word)               // and cothread_send_signal
    | WaitIrq(t: nat, i: nat)          // cothread_yield_irq
    | Interrupt(i: nat)                // the dispatcher, when the handler of the interrupt is done
    | Delete(t: nat)                   // cothread_delete, or the end of the thread

  predicate Distinct(ids: seq<Word>) { forall j, k :: 0 <= j < k < |ids| ==> ids[j] != ids[k] }

  function PlaceOf(l: Lock): seq<Locks.Place> { match l case Mutex(m) => m.place case Sema(s) => s.place }

  // A semaphore may be signalled and tried in interrupt handlers.
  predicate SemaActorRuns(list: List, s: Locks.SemaStep) {
    match s
    case HandlerSignal => true
    case HandlerTry => true
    case _ => Runs(list, s.t)
  }

  predicate Fits(ids: seq<Word>, p: Program) {
    |p.locks| == |ids| && Sized(p.list) &&
    (forall k :: 0 <= k < |ids| ==> |PlaceOf(p.locks[k])| == |p.list.next|) &&
    (forall k, t :: 0 <= k < |ids| && 0 <= t < |PlaceOf(p.locks[k])| ==> PlaceOf(p.locks[k])[t] != Locks.Asleep)
  }

  // What a step does to the lists.
  datatype ListStep =
    | Quiet
    | Yields(t: nat, k: nat, signal: Word)
    | Signals(signal: Word)
    | Wakes(k: nat)
    | Deletes(t: nat)

  // The thread has found nothing to take, and goes to sleep.
  predicate GivesUp(s: Locks.Sema, step: Locks.SemaStep) {
    step.Finish? && step.t < |s.place| && s.place[step.t].Failed?
  }

  predicate Signalled(s: Locks.Sema, step: Locks.SemaStep) {
    step.HandlerSignal? ||
    (step.Finish? && step.t < |s.place| && s.place[step.t].Loaded? && s.place[step.t].use == Locks.ToAdd)
  }

  function OnList(ids: seq<Word>, p: Program, step: Step): ListStep {
    match step
    case OnMutex(k, m) =>
      if k >= |ids| || k >= |p.locks| || !p.locks[k].Mutex? then Quiet
      else if m.Turn? && p.locks[k].m.value != 0 then Yields(m.t, SIGNALS, ids[k])
      else if m.Release? then Signals(ids[k])
      else Quiet
    case OnSema(k, s) =>
      if k >= |ids| || k >= |p.locks| || !p.locks[k].Sema? then Quiet
      else if GivesUp(p.locks[k].s, s) then Yields(s.t, SIGNALS, ids[k])
      else if Signalled(p.locks[k].s, s) then Signals(ids[k])
      else Quiet
    case Wait(t, signal) => Yields(t, SIGNALS, signal)
    case Send(signal) => Signals(signal)
    case WaitIrq(t, i) => Yields(t, i + 1, 0)
    case Interrupt(i) => Wakes(i + 1)
    case Delete(t) => Deletes(t)
  }

  // Only a thread that does not wait takes steps. A signal or a deletion is a step when its loops come to an
  // end; the loop of the dispatcher always does.
  ghost predicate CanOnList(list: List, op: ListStep) {
    Sized(list) && match op
      case Quiet => true
      case Yields(t, k, _) => Runs(list, t) && k < |list.heads|
      case Signals(signal) => Returns(list, signal)
      case Wakes(k) => k < |list.heads|
      case Deletes(t) => t < |list.next| && !list.gone[t] && SearchEnds(list)
  }

  ghost predicate Can(ids: seq<Word>, p: Program, step: Step) {
    Fits(ids, p) && CanOnList(p.list, OnList(ids, p, step)) && match step
      case OnMutex(k, m) =>
        k < |ids| && p.locks[k].Mutex? && Locks.CanStep(p.locks[k].m, m) && Runs(p.list, m.t)
      case OnSema(k, s) =>
        k < |ids| && p.locks[k].Sema? && Locks.CanSema(p.locks[k].s, s) && SemaActorRuns(p.list, s)
      case Wait(_, signal) => signal !in ids
      case Send(signal) => signal !in ids
      case _ => true
  }

  ghost function Applied(list: List, op: ListStep): List
    requires CanOnList(list, op)
  {
    match op
    case Quiet => list
    case Yields(t, k, signal) => Yielded(list, t, k, signal)
    case Signals(signal) => Sent(list, signal)
    case Wakes(k) => Interrupted(list, k)
    case Deletes(t) => Deleted(list, t)
  }

  // What a step does to its lock: a turn that fails leaves the thread in its loop, and a release or a
  // signal wakes nobody by itself.
  function OnLock(l: Lock, step: Step): Lock
    requires match step
      case OnMutex(_, m) => l.Mutex? && Locks.CanStep(l.m, m)
      case OnSema(_, s) => l.Sema? && Locks.CanSema(l.s, s)
      case _ => false
  {
    match step
    case OnMutex(_, m) =>
      if m.Turn? && l.m.value != 0 then l
      else if m.Release? then Mutex(Locks.Mutex(0, l.m.place[m.t := Locks.Outside]))
      else Mutex(Locks.Step(l.m, m))
    case OnSema(_, s) =>
      if GivesUp(l.s, s) then Sema(l.s.(place := l.s.place[s.t := Locks.Trying]))
      else if s.HandlerSignal? then Sema(Locks.Added(l.s, l.s.value).(place := l.s.place))
      else if Signalled(l.s, s) then
        Sema(Locks.Added(l.s, l.s.place[s.t].copy).(place := l.s.place[s.t := Locks.Outside]))
      else Sema(Locks.SemaNext(l.s, s))
  }

  ghost function Next(ids: seq<Word>, p: Program, step: Step): Program
    requires Can(ids, p, step)
  {
    Program(Applied(p.list, OnList(ids, p, step)),
            if step.OnMutex? || step.OnSema? then p.locks[step.k := OnLock(p.locks[step.k], step)] else p.locks)
  }

  // ----- what one step means for the lists

  // A thread that is stale yields, a signal leaves a thread behind, or a thread is deleted while it waits for a
  // signal: see Signals. An interrupt is never bad.
  predicate IsBad(ids: seq<Word>, p: Program, step: Step) {
    Sized(p.list) && match OnList(ids, p, step)
      case Quiet => false
      case Yields(t, k, _) => IsStale(p.list, t, k)
      case Signals(signal) => PairBehind(p.list.queues[SIGNALS], p.list.id, signal, false)
      case Wakes(_) => false
      case Deletes(t) => t < |p.list.next| && WaitsOn(p.list, t, SIGNALS)
  }

  lemma StepKeepsSound(ids: seq<Word>, p: Program, step: Step)
    requires Can(ids, p, step) && Sound(p.list)
    ensures Sound(Next(ids, p, step).list) <==> !IsBad(ids, p, step)
  {
    hide Lists, Yielded, Sent, Interrupted, Deleted, PairBehind, IsStale, WaitsOn, Locks.Step, Locks.SemaNext;
    match OnList(ids, p, step)
    case Quiet =>
    case Yields(t, k, signal) => YieldIsSoundIff(p.list, t, k, signal);
    case Signals(signal) => SendIsSoundIff(p.list, signal);
    case Wakes(k) => InterruptKeepsSound(p.list, k);
    case Deletes(t) => DeleteIsSoundIff(p.list, t);
  }

  // ----- what one step means for a lock

  // Where the threads are with respect to a lock, sleepers told apart.
  function Seen(place: seq<Locks.Place>, list: List, id: Word): (r: seq<Locks.Place>)
    requires Sized(list) && |place| == |list.next|
    ensures |r| == |place|
    ensures forall t :: 0 <= t < |r| ==>
      r[t] == if place[t] == Locks.Trying && WaitsOn(list, t, SIGNALS) && list.id[t] == id then Locks.Asleep
              else place[t]
  {
    seq(|place|, t requires 0 <= t < |place| =>
      if place[t] == Locks.Trying && WaitsOn(list, t, SIGNALS) && list.id[t] == id then Locks.Asleep else place[t])
  }

  // The lock as module Locks has it.
  function View(ids: seq<Word>, p: Program, k: nat): (l: Lock)
    requires Fits(ids, p) && k < |ids|
    ensures l.Mutex? <==> p.locks[k].Mutex?
  {
    match p.locks[k]
    case Mutex(m) => Mutex(m.(place := Seen(m.place, p.list, ids[k])))
    case Sema(s) => Sema(s.(place := Seen(s.place, p.list, ids[k])))
  }

  lemma YieldIsSeen(place: seq<Locks.Place>, list: List, t: nat, k: nat, signal: Word, id: Word)
    requires Runs(list, t) && k < |list.heads| && |place| == |list.next|
    ensures var n := Yielded(list, t, k, signal);
      Sized(n) && |n.next| == |list.next| && Seen(place, n, id) ==
        if k == SIGNALS && signal == id && place[t] == Locks.Trying then Seen(place, list, id)[t := Locks.Asleep]
        else Seen(place, list, id)
  {
  }

  lemma SendIsSeen(place: seq<Locks.Place>, list: List, signal: Word, id: Word)
    requires Sound(list) && |place| == |list.next| && forall t :: 0 <= t < |place| ==> place[t] != Locks.Asleep
    ensures var n := Sent(list, signal);
      Sized(n) && |n.next| == |list.next| &&
      Seen(place, n, id) == if signal == id then Locks.Woken(Seen(place, list, id)) else Seen(place, list, id)
  {
    hide Turns, Chain, LoopEnd;
    SendWakes(list, signal);
  }

  lemma InterruptIsSeen(place: seq<Locks.Place>, list: List, k: nat, id: Word)
    requires Sound(list) && |place| == |list.next| && 1 <= k < |list.heads|
    ensures var n := Interrupted(list, k);
      Sized(n) && |n.next| == |list.next| && Seen(place, n, id) == Seen(place, list, id)
  {
    hide ClearAll, Chain;
    InterruptKeepsSound(list, k);
    assert forall t :: 0 <= t < |list.next| && WaitsOn(list, t, SIGNALS) ==> !WaitsOn(list, t, k);
  }

  lemma DeleteIsSeen(place: seq<Locks.Place>, list: List, t: nat, id: Word)
    requires Sound(list) && |place| == |list.next| && t < |list.next| && !WaitsOn(list, t, SIGNALS)
    ensures var n := Deleted(list, t);
      Sized(n) && |n.next| == |list.next| && Seen(place, n, id) == Seen(place, list, id)
  {
    hide Chain, AllMet, NextWithout, HeadWithout, Without, FirstWith;
    DeleteKeepsSound(list, t);
  }

  // A thread's own place changes, and it does not wait.
  lemma MoveIsSeen(place: seq<Locks.Place>, list: List, id: Word, t: nat, there: Locks.Place)
    requires Runs(list, t) && |place| == |list.next|
    ensures Seen(place[t := there], list, id) == Seen(place, list, id)[t := there]
  {
  }

  // A step of a mutex, on sound lists, is the step that Locks says it is.
  lemma MutexStepIsSeen(ids: seq<Word>, p: Program, k: nat, m: Locks.MutexStep)
    requires Can(ids, p, OnMutex(k, m)) && Sound(p.list)
    ensures Fits(ids, Next(ids, p, OnMutex(k, m)))
    ensures Locks.CanStep(View(ids, p, k).m, m)
    ensures View(ids, Next(ids, p, OnMutex(k, m)), k) == Mutex(Locks.Step(View(ids, p, k).m, m))
  {
    hide Yielded, Sent, Sound, Returns;
    var n, place, id := Next(ids, p, OnMutex(k, m)), p.locks[k].m.place, ids[k];
    match m
    case Turn(t) =>
      if p.locks[k].m.value != 0 {
        YieldIsSeen(place, p.list, t, SIGNALS, id, id);
      } else {
        MoveIsSeen(place, p.list, id, t, Locks.Holding);
      }
    case Release(t) =>
      MoveIsSeen(place, p.list, id, t, Locks.Outside);
      SendIsSeen(place[t := Locks.Outside], p.list, id, id);
    case Call(t) => MoveIsSeen(place, p.list, id, t, Locks.Trying);
    case TryOnce(t) => MoveIsSeen(place, p.list, id, t, Locks.Holding);
  }

  // Those that are busy are seen as they are.
  lemma BusyIsSeen(place: seq<Locks.Place>, list: List, id: Word)
    requires Sized(list) && |place| == |list.next|
    ensures forall t :: Locks.OthersAreDone(Seen(place, list, id), t) <==> Locks.OthersAreDone(place, t)
    ensures forall t :: 0 <= t < |place| && Locks.Busy(place[t]) ==> Seen(place, list, id)[t] == place[t]
    ensures forall t :: 0 <= t < |place| ==> Locks.Busy(Seen(place, list, id)[t]) == Locks.Busy(place[t])
  {
    var seen := Seen(place, list, id);
    assert forall t :: 0 <= t < |place| ==> Locks.Busy(seen[t]) == Locks.Busy(place[t]);
  }

  lemma CanSemaIsSeen(ids: seq<Word>, p: Program, k: nat, s: Locks.SemaStep)
    requires Can(ids, p, OnSema(k, s))
    ensures Locks.CanSema(View(ids, p, k).s, s)
    ensures Locks.IsLate(View(ids, p, k).s, s) <==> Locks.IsLate(p.locks[k].s, s)
  {
    hide Returns;
    var place, seen := p.locks[k].s.place, View(ids, p, k).s.place;
    BusyIsSeen(place, p.list, ids[k]);
    forall t | 0 <= t < |place|
      ensures Locks.IsLateFor(p.locks[k].s, s, place[t]) == Locks.IsLateFor(View(ids, p, k).s, s, seen[t])
    {
    }
  }

  // So is a step of a semaphore.
  lemma SemaStepIsSeen(ids: seq<Word>, p: Program, k: nat, s: Locks.SemaStep)
    requires Can(ids, p, OnSema(k, s)) && Sound(p.list)
    ensures Fits(ids, Next(ids, p, OnSema(k, s)))
    ensures Locks.CanSema(View(ids, p, k).s, s)
    ensures View(ids, Next(ids, p, OnSema(k, s)), k) == Sema(Locks.SemaNext(View(ids, p, k).s, s))
  {
    CanSemaIsSeen(ids, p, k, s);
    hide *;
    match s
    case Finish(t) => FinishIsSeen(ids, p, k, t);
    case HandlerSignal => HandlerSignalIsSeen(ids, p, k);
    case _ => TestIsSeen(ids, p, k, s);
  }

  // The steps that do not touch the lists.
  predicate IsQuiet(s: Locks.SemaStep) { !s.Finish? && !s.HandlerSignal? }

  lemma QuietStep(ids: seq<Word>, p: Program, k: nat, s: Locks.SemaStep)
    requires Can(ids, p, OnSema(k, s)) && IsQuiet(s)
    ensures k < |ids| && k < |p.locks| && p.locks[k].Sema? && Locks.CanSema(p.locks[k].s, s)
    ensures Fits(ids, p) && |p.locks[k].s.place| == |p.list.next| && SemaActorRuns(p.list, s)
    ensures Next(ids, p, OnSema(k, s)) == Program(p.list, p.locks[k := Sema(Locks.SemaNext(p.locks[k].s, s))])
  {
    hide Locks.SemaNext, Locks.OthersAreDone;
  }

  lemma UpdatedIsSeen(ids: seq<Word>, p: Program, k: nat, l: Locks.Sema)
    requires Fits(ids, p) && k < |ids| && |l.place| == |p.list.next|
    requires forall t :: 0 <= t < |l.place| ==> l.place[t] != Locks.Asleep
    ensures Fits(ids, Program(p.list, p.locks[k := Sema(l)]))
    ensures View(ids, Program(p.list, p.locks[k := Sema(l)]), k) ==
      Sema(l.(place := Seen(l.place, p.list, ids[k])))
  {
    hide Sized;
  }

  lemma TestIsSeen(ids: seq<Word>, p: Program, k: nat, s: Locks.SemaStep)
    requires Can(ids, p, OnSema(k, s)) && IsQuiet(s)
    requires Locks.CanSema(View(ids, p, k).s, s)
    ensures Fits(ids, Next(ids, p, OnSema(k, s)))
    ensures View(ids, Next(ids, p, OnSema(k, s)), k) == Sema(Locks.SemaNext(View(ids, p, k).s, s))
  {
    hide Can, Next, Locks.OthersAreDone;
    QuietStep(ids, p, k, s);
    var place, id, value := p.locks[k].s.place, ids[k], p.locks[k].s.value;
    UpdatedIsSeen(ids, p, k, Locks.SemaNext(p.locks[k].s, s));
    match s
    case CallWait(t) => MoveIsSeen(place, p.list, id, t, Locks.Trying);
    case TestWait(t) => MoveIsSeen(place, p.list, id, t, if value > 0 then Locks.Passed else Locks.Failed);
    case TestTry(t) => MoveIsSeen(place, p.list, id, t, Locks.Passed);
    case Load(t) => MoveIsSeen(place, p.list, id, t, Locks.Loaded(value, Locks.ToTake));
    case LoadSignal(t) => MoveIsSeen(place, p.list, id, t, Locks.Loaded(value, Locks.ToAdd));
    case HandlerTry =>
  }

  lemma HandlerSignalIsSeen(ids: seq<Word>, p: Program, k: nat)
    requires Can(ids, p, OnSema(k, Locks.HandlerSignal)) && Sound(p.list)
    requires Locks.CanSema(View(ids, p, k).s, Locks.HandlerSignal)
    ensures Fits(ids, Next(ids, p, OnSema(k, Locks.HandlerSignal)))
    ensures View(ids, Next(ids, p, OnSema(k, Locks.HandlerSignal)), k) ==
      Sema(Locks.SemaNext(View(ids, p, k).s, Locks.HandlerSignal))
  {
    hide Yielded, Sent, Sound, Returns, Locks.OthersAreDone;
    SendIsSeen(p.locks[k].s.place, p.list, ids[k], ids[k]);
  }

  lemma FinishIsSeen(ids: seq<Word>, p: Program, k: nat, t: nat)
    requires Can(ids, p, OnSema(k, Locks.Finish(t))) && Sound(p.list)
    requires Locks.CanSema(View(ids, p, k).s, Locks.Finish(t))
    ensures Fits(ids, Next(ids, p, OnSema(k, Locks.Finish(t))))
    ensures View(ids, Next(ids, p, OnSema(k, Locks.Finish(t))), k) ==
      Sema(Locks.SemaNext(View(ids, p, k).s, Locks.Finish(t)))
  {
    hide Yielded, Sent, Sound, Returns, Locks.OthersAreDone, WaitsOn, View, Next;
    if GivesUp(p.locks[k].s, Locks.Finish(t)) {
      GivingUpIsSeen(ids, p, k, t);
    } else {
      GoingOnIsSeen(ids, p, k, t);
    }
  }

  lemma GivingUpIsSeen(ids: seq<Word>, p: Program, k: nat, t: nat)
    requires Can(ids, p, OnSema(k, Locks.Finish(t))) && GivesUp(p.locks[k].s, Locks.Finish(t))
    requires Locks.CanSema(View(ids, p, k).s, Locks.Finish(t))
    ensures Fits(ids, Next(ids, p, OnSema(k, Locks.Finish(t))))
    ensures View(ids, Next(ids, p, OnSema(k, Locks.Finish(t))), k) ==
      Sema(Locks.SemaNext(View(ids, p, k).s, Locks.Finish(t)))
  {
    hide Yielded, Sent, Returns, Locks.OthersAreDone, WaitsOn;
    var place, id := p.locks[k].s.place, ids[k];
    BusyIsSeen(place, p.list, id);
    MoveIsSeen(place, p.list, id, t, Locks.Trying);
    YieldIsSeen(place[t := Locks.Trying], p.list, t, SIGNALS, id, id);
  }

  lemma GoingOnIsSeen(ids: seq<Word>, p: Program, k: nat, t: nat)
    requires Can(ids, p, OnSema(k, Locks.Finish(t))) && Sound(p.list) && !GivesUp(p.locks[k].s, Locks.Finish(t))
    requires Locks.CanSema(View(ids, p, k).s, Locks.Finish(t))
    ensures Fits(ids, Next(ids, p, OnSema(k, Locks.Finish(t))))
    ensures View(ids, Next(ids, p, OnSema(k, Locks.Finish(t))), k) ==
      Sema(Locks.SemaNext(View(ids, p, k).s, Locks.Finish(t)))
  {
    hide Yielded, Sent, Sound, Returns, Locks.OthersAreDone, WaitsOn;
    var sema, place, id := p.locks[k].s, p.locks[k].s.place, ids[k];
    BusyIsSeen(place, p.list, id);
    MoveIsSeen(place, p.list, id, t, Locks.Outside);
    if Signalled(sema, Locks.Finish(t)) {
      SendIsSeen(place[t := Locks.Outside], p.list, id, id);
    }
  }

  // And no other lock sees the step.
  lemma OthersDoNotSee(ids: seq<Word>, p: Program, step: Step, k: nat)
    requires Distinct(ids) && Can(ids, p, step) && Sound(p.list) && !IsBad(ids, p, step) && k < |ids|
    requires !(step.OnMutex? && step.k == k) && !(step.OnSema? && step.k == k)
    requires Fits(ids, Next(ids, p, step))
    ensures View(ids, Next(ids, p, step), k) == View(ids, p, k)
  {
    hide Yielded, Sent, Interrupted, Deleted, Sound, Returns, OnLock, SearchEnds, WaitsOn, IsStale, PairBehind;
    ListIsSeen(ids, p, step, PlaceOf(p.locks[k]), ids[k]);
  }

  // What a step that is not of a lock means for the view of it.
  lemma ListIsSeen(ids: seq<Word>, p: Program, step: Step, place: seq<Locks.Place>, id: Word)
    requires Can(ids, p, step) && Sound(p.list) && !IsBad(ids, p, step) && |place| == |p.list.next|
    requires forall t :: 0 <= t < |place| ==> place[t] != Locks.Asleep
    ensures Sized(Next(ids, p, step).list) && |Next(ids, p, step).list.next| == |place|
    ensures var op := OnList(ids, p, step);
      (op.Yields? && op.k == SIGNALS ==> op.signal != id) && (op.Signals? ==> op.signal != id) ==>
      Seen(place, Next(ids, p, step).list, id) == Seen(place, p.list, id)
  {
    hide Yielded, Sent, Interrupted, Deleted, Sound, Returns, OnLock, SearchEnds, WaitsOn, IsStale, PairBehind;
    match OnList(ids, p, step)
    case Quiet =>
    case Yields(t, k, signal) => YieldIsSeen(place, p.list, t, k, signal, id);
    case Signals(signal) => SendIsSeen(place, p.list, signal, id);
    case Wakes(k) => InterruptIsSeen(place, p.list, k, id);
    case Deletes(t) => DeleteIsSeen(place, p.list, t, id);
  }

  lemma StepFits(ids: seq<Word>, p: Program, step: Step)
    requires Can(ids, p, step) && Sound(p.list) && !IsBad(ids, p, step)
    ensures Fits(ids, Next(ids, p, step))
  {
    hide Yielded, Sent, Interrupted, Deleted, Sound, Returns, SearchEnds, IsBad, Locks.Step, Locks.SemaNext;
    if step.OnMutex? {
      MutexStepIsSeen(ids, p, step.k, step.m);
    } else if step.OnSema? {
      SemaStepIsSeen(ids, p, step.k, step.s);
    } else {
      ListIsSeen(ids, p, step, seq(|p.list.next|, _ => Locks.Outside), 0);
    }
  }

  // ----- runs

  ghost predicate IsRun(ids: seq<Word>, p: Program, steps: seq<Step>, last: Program)
    decreases |steps|
  {
    if steps == [] then last == p else Can(ids, p, steps[0]) && IsRun(ids, Next(ids, p, steps[0]), steps[1..], last)
  }

  ghost predicate NeverBad(ids: seq<Word>, p: Program, steps: seq<Step>)
    decreases |steps|
  {
    steps == [] ||
    (Can(ids, p, steps[0]) && !IsBad(ids, p, steps[0]) && NeverBad(ids, Next(ids, p, steps[0]), steps[1..]))
  }

  ghost predicate AlwaysSound(ids: seq<Word>, p: Program, steps: seq<Step>)
    decreases |steps|
  {
    Sound(p.list) &&
    (steps == [] || (Can(ids, p, steps[0]) && AlwaysSound(ids, Next(ids, p, steps[0]), steps[1..])))
  }

  // The lists are sound throughout a run if and only if no step is bad: no thread yields, for a signal or an
  // interrupt, on an empty list with its own link set; no signal is sent past another thread to two threads
  // in a row; and no thread is deleted while it waits for a signal.
  lemma {:induction false} SoundIffNeverBad(ids: seq<Word>, p: Program, steps: seq<Step>, last: Program)
    requires Sound(p.list) && IsRun(ids, p, steps, last)
    ensures AlwaysSound(ids, p, steps) <==> NeverBad(ids, p, steps)
    ensures NeverBad(ids, p, steps) ==> Sound(last.list)
    decreases |steps|
  {
    hide Sound, Can, Next, IsBad;
    if steps != [] {
      StepKeepsSound(ids, p, steps[0]);
      if !IsBad(ids, p, steps[0]) {
        SoundIffNeverBad(ids, Next(ids, p, steps[0]), steps[1..], last);
      } else {
        assert !AlwaysSound(ids, Next(ids, p, steps[0]), steps[1..]);
      }
    }
  }

  // The steps of one lock.
  function MutexSteps(steps: seq<Step>, k: nat): seq<Locks.MutexStep> {
    if steps == [] then []
    else (if steps[0].OnMutex? && steps[0].k == k then [steps[0].m] else []) + MutexSteps(steps[1..], k)
  }

  function SemaSteps(steps: seq<Step>, k: nat): seq<Locks.SemaStep> {
    if steps == [] then []
    else (if steps[0].OnSema? && steps[0].k == k then [steps[0].s] else []) + SemaSteps(steps[1..], k)
  }

  lemma StepKeepsKind(ids: seq<Word>, p: Program, step: Step, k: nat)
    requires Can(ids, p, step) && k < |ids|
    ensures |Next(ids, p, step).locks| == |p.locks| == |ids|
    ensures Next(ids, p, step).locks[k].Mutex? <==> p.locks[k].Mutex?
  {
    hide Yielded, Sent, Sound, Returns, CanOnList;
  }

  lemma ConsMutexRun(m: Locks.Mutex, step: Locks.MutexStep, rest: seq<Locks.MutexStep>, last: Locks.Mutex)
    requires Locks.CanStep(m, step) && Locks.IsMutexRun(Locks.Step(m, step), rest, last)
    ensures Locks.IsMutexRun(m, [step] + rest, last)
  {
    assert ([step] + rest)[1..] == rest;
  }

  // What such a run does to a mutex is a run of the mutex as Locks has it: signals wake as documented.
  lemma {:induction false} RunRefinesMutex(ids: seq<Word>, p: Program, steps: seq<Step>, last: Program, k: nat)
    requires Distinct(ids) && Fits(ids, p) && Sound(p.list) && k < |ids| && p.locks[k].Mutex?
    requires IsRun(ids, p, steps, last) && NeverBad(ids, p, steps)
    ensures Fits(ids, last) && last.locks[k].Mutex?
    ensures Locks.IsMutexRun(View(ids, p, k).m, MutexSteps(steps, k), View(ids, last, k).m)
    decreases |steps|
  {
    hide Sound, Can, Next, IsBad, Fits, View, Distinct, Locks.Step, Locks.CanStep;
    if steps != [] {
      var step, n := steps[0], Next(ids, p, steps[0]);
      StepKeepsSound(ids, p, step);
      StepFits(ids, p, step);
      StepKeepsKind(ids, p, step, k);
      RunRefinesMutex(ids, n, steps[1..], last, k);
      if step.OnMutex? && step.k == k {
        MutexStepIsSeen(ids, p, k, step.m);
        ConsMutexRun(View(ids, p, k).m, step.m, MutexSteps(steps[1..], k), View(ids, last, k).m);
      } else {
        IsNotSema(ids, p, step, k);
        OthersDoNotSee(ids, p, step, k);
        assert MutexSteps(steps, k) == MutexSteps(steps[1..], k);
      }
    }
  }

  lemma IsNotSema(ids: seq<Word>, p: Program, step: Step, k: nat)
    requires Can(ids, p, step) && k < |ids|
    ensures p.locks[k].Mutex? ==> !(step.OnSema? && step.k == k)
    ensures p.locks[k].Sema? ==> !(step.OnMutex? && step.k == k)
  {
    hide CanOnList;
  }

  // The step is one of an interrupt handler on this semaphore, and late.
  predicate StepIsLate(p: Program, step: Step, k: nat) {
    k < |p.locks| && p.locks[k].Sema? && step.OnSema? && step.k == k && Locks.IsLate(p.locks[k].s, step.s)
  }

  ghost predicate NeverLate(ids: seq<Word>, p: Program, steps: seq<Step>, k: nat)
    decreases |steps|
  {
    steps == [] ||
    (Can(ids, p, steps[0]) && !StepIsLate(p, steps[0], k) && NeverLate(ids, Next(ids, p, steps[0]), steps[1..], k))
  }

  lemma ConsNeverLate(s: Locks.Sema, step: Locks.SemaStep, rest: seq<Locks.SemaStep>)
    requires Locks.CanSema(s, step)
    ensures Locks.NeverLate(s, [step] + rest) <==>
      !Locks.IsLate(s, step) && Locks.NeverLate(Locks.SemaNext(s, step), rest)
  {
    assert ([step] + rest)[1..] == rest;
  }

  lemma {:induction false} RunRefinesSema(ids: seq<Word>, p: Program, steps: seq<Step>, last: Program, k: nat)
    requires Distinct(ids) && Fits(ids, p) && Sound(p.list) && k < |ids| && p.locks[k].Sema?
    requires IsRun(ids, p, steps, last) && NeverBad(ids, p, steps)
    ensures Fits(ids, last) && last.locks[k].Sema?
    ensures Locks.IsSemaRun(View(ids, p, k).s, SemaSteps(steps, k), View(ids, last, k).s)
    ensures NeverLate(ids, p, steps, k) <==> Locks.NeverLate(View(ids, p, k).s, SemaSteps(steps, k))
    decreases |steps|
  {
    hide Sound, Can, Next, IsBad, Fits, View, Distinct, Locks.SemaNext, Locks.CanSema, Locks.IsLate;
    if steps != [] {
      var step, n := steps[0], Next(ids, p, steps[0]);
      StepKeepsSound(ids, p, step);
      StepFits(ids, p, step);
      StepKeepsKind(ids, p, step, k);
      RunRefinesSema(ids, n, steps[1..], last, k);
      if step.OnSema? && step.k == k {
        SemaStepIsSeen(ids, p, k, step.s);
        CanSemaIsSeen(ids, p, k, step.s);
        ConsNeverLate(View(ids, p, k).s, step.s, SemaSteps(steps[1..], k));
        Locks.ConsSemaRun(View(ids, p, k).s, step.s, SemaSteps(steps[1..], k), View(ids, last, k).s);
      } else {
        IsNotSema(ids, p, step, k);
        OthersDoNotSee(ids, p, step, k);
        assert SemaSteps(steps, k) == SemaSteps(steps[1..], k);
      }
    }
  }

  // ----- the locks of the code

  // Nothing has happened yet.
  predicate IsFresh(p: Program) {
    var n := |p.list.next|;
    |p.list.heads| > 0 && p.list == FreshList(n, |p.list.heads| - 1) &&
    forall k :: 0 <= k < |p.locks| ==> match p.locks[k]
      case Mutex(m) => m == Locks.FreshMutex(n)
      case Sema(s) => s == Locks.FreshSema(s.first, n)
  }

  // The thread sleeps in the loop of the lock.
  predicate SleepsOn(ids: seq<Word>, p: Program, k: nat, t: nat)
    requires Fits(ids, p) && k < |ids|
  {
    t < |p.list.next| && PlaceOf(p.locks[k])[t] == Locks.Trying && WaitsOn(p.list, t, SIGNALS) && p.list.id[t] == ids[k]
  }

  lemma FreshFits(ids: seq<Word>, p: Program, k: nat)
    requires IsFresh(p) && |p.locks| == |ids| && k < |ids|
    ensures Fits(ids, p) && Sound(p.list)
    ensures View(ids, p, k) == p.locks[k]
  {
  }

  // In the code no place is Asleep, so a release wakes nobody here.
  lemma NobodyToWake(place: seq<Locks.Place>)
    requires forall t :: 0 <= t < |place| ==> place[t] != Locks.Asleep
    ensures Locks.Woken(place) == place
  {
  }

  lemma MutexStepInCode(ids: seq<Word>, p: Program, step: Step, k: nat)
    requires Can(ids, p, step) && k < |ids| && p.locks[k].Mutex? && Locks.GoodMutex(p.locks[k].m)
    ensures Next(ids, p, step).locks[k].Mutex? && Locks.GoodMutex(Next(ids, p, step).locks[k].m)
  {
    hide CanOnList, Applied, Locks.GoodMutex;
    if step.OnMutex? && step.k == k {
      var m := p.locks[k].m;
      Locks.StepKeepsMutex(m, step.m);
      assert forall t :: 0 <= t < |m.place| ==> PlaceOf(p.locks[k])[t] != Locks.Asleep;
      if step.m.Release? {
        NobodyToWake(m.place[step.m.t := Locks.Outside]);
      }
    }
  }

  lemma {:induction false} MutexRunInCode(ids: seq<Word>, p: Program, steps: seq<Step>, last: Program, k: nat)
    requires IsRun(ids, p, steps, last) && k < |ids| == |p.locks| && p.locks[k].Mutex? && Locks.GoodMutex(p.locks[k].m)
    ensures |last.locks| == |ids| && last.locks[k].Mutex? && Locks.GoodMutex(last.locks[k].m)
    decreases |steps|
  {
    hide Can, Next, Locks.GoodMutex;
    if steps != [] {
      MutexStepInCode(ids, p, steps[0], k);
      StepKeepsKind(ids, p, steps[0], k);
      MutexRunInCode(ids, Next(ids, p, steps[0]), steps[1..], last, k);
    }
  }

  // In every run of the code, whatever the lists are like: at most one thread holds the mutex, and its value
  // says whether one does.
  lemma MutexIsExclusiveInCode(ids: seq<Word>, p: Program, steps: seq<Step>, last: Program, k: nat)
    requires |p.locks| == |ids| && IsFresh(p) && k < |ids| && p.locks[k].Mutex? && IsRun(ids, p, steps, last)
    ensures |last.locks| == |ids| && last.locks[k].Mutex? && Locks.Exclusive(last.locks[k].m)
    ensures last.locks[k].m.value == if Locks.IsHeld(last.locks[k].m) then 1 else 0
  {
    hide IsRun;
    assert Locks.GoodMutex(p.locks[k].m);
    MutexRunInCode(ids, p, steps, last, k);
  }

  // In every run without a bad step, the mutex of the code keeps the rest of what MutexIsSafe says: no thread
  // sleeps on it while it is free.
  lemma MutexIsSafeInCode(ids: seq<Word>, p: Program, steps: seq<Step>, last: Program, k: nat)
    requires Distinct(ids) && |p.locks| == |ids| && IsFresh(p) && k < |ids| && p.locks[k].Mutex?
    requires IsRun(ids, p, steps, last) && NeverBad(ids, p, steps)
    ensures Fits(ids, last) && last.locks[k].Mutex?
    ensures forall t: nat :: SleepsOn(ids, last, k, t) ==> Locks.IsHeld(last.locks[k].m)
  {
    hide Can, Next, IsBad, Sound, Locks.Step, Locks.CanStep;
    FreshFits(ids, p, k);
    RunRefinesMutex(ids, p, steps, last, k);
    Locks.MutexIsSafe(|p.list.next|, MutexSteps(steps, k), View(ids, last, k).m);
    var m, v := last.locks[k].m, View(ids, last, k).m;
    assert forall t :: 0 <= t < |m.place| ==> (m.place[t] == Locks.Holding <==> v.place[t] == Locks.Holding);
    assert Locks.IsHeld(m) <==> Locks.IsHeld(v);
    forall t: nat | SleepsOn(ids, last, k, t) ensures Locks.IsHeld(m) {
      assert v.place[t] == Locks.Asleep;
    }
  }

  // On sound lists a release returns, and each thread that sleeps on the mutex can then run; the first to do so
  // gets the mutex.
  lemma ReleaseLetsSleeperIn(ids: seq<Word>, p: Program, k: nat, h: nat, t: nat)
    requires Fits(ids, p) && Sound(p.list) && k < |ids| && p.locks[k].Mutex?
    requires Locks.CanStep(p.locks[k].m, Locks.Release(h)) && Runs(p.list, h) && SleepsOn(ids, p, k, t)
    ensures Can(ids, p, OnMutex(k, Locks.Release(h)))
    ensures var n := Next(ids, p, OnMutex(k, Locks.Release(h)));
      Can(ids, n, OnMutex(k, Locks.Turn(t))) &&
      PlaceOf(Next(ids, n, OnMutex(k, Locks.Turn(t))).locks[k])[t] == Locks.Holding
  {
    hide Turns, Chain, LoopEnd;
    SendWakes(p.list, ids[k]);
    LoopEndIs(p.list, ids[k]);
    MutexStepIsSeen(ids, p, k, Locks.Release(h));
  }

  lemma SemaStepInCode(ids: seq<Word>, p: Program, step: Step, k: nat)
    requires Can(ids, p, step) && k < |ids| && p.locks[k].Sema? && Locks.GoodCount(p.locks[k].s)
    requires !StepIsLate(p, step, k)
    ensures Next(ids, p, step).locks[k].Sema? && Locks.GoodCount(Next(ids, p, step).locks[k].s)
    ensures Next(ids, p, step).locks[k].s.first == p.locks[k].s.first
  {
    hide CanOnList, Applied;
    if step.OnSema? && step.k == k {
      var s := p.locks[k].s;
      Locks.StepKeepsCount(s, step.s);
      assert forall t :: 0 <= t < |s.place| ==> PlaceOf(p.locks[k])[t] != Locks.Asleep;
      if step.s.HandlerSignal? {
        NobodyToWake(s.place);
      } else if step.s.Finish? {
        NobodyToWake(s.place[step.s.t := Locks.Outside]);
      }
    }
  }

  lemma {:induction false} SemaRunInCode(ids: seq<Word>, p: Program, steps: seq<Step>, last: Program, k: nat)
    requires IsRun(ids, p, steps, last) && k < |ids| == |p.locks| && p.locks[k].Sema? && Locks.GoodCount(p.locks[k].s)
    requires NeverLate(ids, p, steps, k)
    ensures |last.locks| == |ids| && last.locks[k].Sema? && Locks.GoodCount(last.locks[k].s)
    ensures last.locks[k].s.first == p.locks[k].s.first
    decreases |steps|
  {
    hide Can, Next, Locks.GoodCount, StepIsLate;
    if steps != [] {
      SemaStepInCode(ids, p, steps[0], k);
      StepKeepsKind(ids, p, steps[0], k);
      SemaRunInCode(ids, Next(ids, p, steps[0]), steps[1..], last, k);
    }
  }

  // In every run of the code in which no handler is late, whatever the lists are like, the semaphore counts as
  // SemaIsSafe says.
  lemma SemaCountsInCode(ids: seq<Word>, p: Program, steps: seq<Step>, last: Program, k: nat)
    requires |p.locks| == |ids| && IsFresh(p) && k < |ids| && p.locks[k].Sema?
    requires IsRun(ids, p, steps, last) && NeverLate(ids, p, steps, k)
    ensures |last.locks| == |ids| && last.locks[k].Sema?
    ensures var s, first := last.locks[k].s, p.locks[k].s.first;
      s.waits <= first + s.signals &&
      (s.value == first + s.signals - s.waits <==> first + s.signals - s.waits < TWO32)
  {
    hide IsRun, NeverLate;
    assert Locks.GoodCount(p.locks[k].s);
    SemaRunInCode(ids, p, steps, last, k);
    Locks.CountsSay(last.locks[k].s);
  }

  // And if there is no bad step either, no thread sleeps on it while there is something to take.
  lemma SemaIsSafeInCode(ids: seq<Word>, p: Program, steps: seq<Step>, last: Program, k: nat)
    requires Distinct(ids) && |p.locks| == |ids| && IsFresh(p) && k < |ids| && p.locks[k].Sema?
    requires IsRun(ids, p, steps, last) && NeverBad(ids, p, steps) && NeverLate(ids, p, steps, k)
    ensures Fits(ids, last) && last.locks[k].Sema?
    ensures forall t: nat :: SleepsOn(ids, last, k, t) ==> last.locks[k].s.value == 0
  {
    hide Can, Next, IsBad, Sound, Locks.SemaNext, Locks.CanSema, Locks.IsLate, StepIsLate;
    FreshFits(ids, p, k);
    RunRefinesSema(ids, p, steps, last, k);
    Locks.SemaIsSafe(p.locks[k].s.first, |p.list.next|, SemaSteps(steps, k), View(ids, last, k).s);
    var v := View(ids, last, k).s;
    forall t: nat | SleepsOn(ids, last, k, t) ensures last.locks[k].s.value == 0 {
      assert v.place[t] == Locks.Asleep;
    }
  }

  // ----- runs that are never bad

  predicate NoLinks(list: List) { forall t :: 0 <= t < |list.next| ==> list.next[t] == NULL }

  // Each yield finds no other thread in its list, and no thread is deleted that waits for a signal.
  ghost predicate OneSleeper(ids: seq<Word>, p: Program, steps: seq<Step>)
    decreases |steps|
  {
    steps == [] ||
    (Can(ids, p, steps[0]) && IsLonely(p.list, OnList(ids, p, steps[0])) &&
     OneSleeper(ids, Next(ids, p, steps[0]), steps[1..]))
  }

  predicate IsLonely(list: List, op: ListStep) {
    Sized(list) &&
    (op.Yields? ==> op.k < |list.heads| && list.heads[op.k] == NULL) &&
    (op.Deletes? ==> op.t < |list.next| && !WaitsOn(list, op.t, SIGNALS))
  }

  lemma SecondIsLinked(next: seq<int>, head: int, q: seq<nat>)
    requires Chain(next, head, q) && |q| >= 2
    ensures q[0] < |next| && next[q[0]] == q[1]
  {
    assert Chain(next, next[q[0]], q[1..]) && q[1..][0] == q[1];
  }

  lemma ShortQueue(list: List, k: nat)
    requires Linked(list) && NoLinks(list) && k < |list.heads|
    ensures |list.queues[k]| <= 1
  {
    if |list.queues[k]| >= 2 {
      SecondIsLinked(list.next, list.heads[k], list.queues[k]);
    }
  }

  lemma SignalSetsNoLinks(list: List, signal: Word)
    requires Linked(list) && NoLinks(list)
    ensures !PairBehind(list.queues[SIGNALS], list.id, signal, false) && NoLinks(Sent(list, signal))
  {
    hide LoopEnd, Returns;
    ShortQueue(list, SIGNALS);
    LoopEndIs(list, signal);
    if |list.queues[SIGNALS]| == 1 {
      TurnsFirst(LoopStart(list), list.id, signal, 1);
    }
  }

  lemma InterruptSetsNoLinks(list: List, k: nat)
    requires Sound(list) && NoLinks(list) && k < |list.heads|
    ensures NoLinks(Interrupted(list, k))
  {
    hide ClearAll, Chain;
    HeadIsFirst(list.next, list.heads[k], list.queues[k]);
    ClearsChain(ClearingStart(list, k), list.queues[k]);
  }

  lemma DeleteSetsNoLinks(list: List, t: nat)
    requires Linked(list) && NoLinks(list) && t < |list.next|
    ensures NoLinks(Deleted(list, t))
  {
    hide Chain;
    MetIsQueues(list);
    var k := FirstWith(list.queues, t, 1);
    if k < |list.queues| {
      ShortQueue(list, k);
    }
  }

  // As long as there is one sleeper at a time for each interrupt and one for all signals, as with two threads,
  // no step is bad.
  lemma {:induction false} OneSleeperIsNeverBad(ids: seq<Word>, p: Program, steps: seq<Step>, last: Program)
    requires Sound(p.list) && NoLinks(p.list) && IsRun(ids, p, steps, last) && OneSleeper(ids, p, steps)
    ensures NeverBad(ids, p, steps)
    decreases |steps|
  {
    hide Sound, NoLinks, Can, IsBad, Next, IsLonely;
    if steps != [] {
      var step := steps[0];
      OneSleeperStep(ids, p, step);
      OneSleeperIsNeverBad(ids, Next(ids, p, step), steps[1..], last);
    }
  }

  lemma OneSleeperStep(ids: seq<Word>, p: Program, step: Step)
    requires Sound(p.list) && NoLinks(p.list) && Can(ids, p, step) && IsLonely(p.list, OnList(ids, p, step))
    ensures !IsBad(ids, p, step) && Sound(Next(ids, p, step).list) && NoLinks(Next(ids, p, step).list)
  {
    hide Sound, Sent, Interrupted, Deleted, PairBehind, OnLock, Linked, WaitsOn, Returns, SearchEnds;
    SoundIsLinked(p.list);
    match OnList(ids, p, step) {
      case Quiet =>
      case Yields(t, k, signal) => assert Yielded(p.list, t, k, signal).next == p.list.next;
      case Signals(signal) => SignalSetsNoLinks(p.list, signal);
      case Wakes(k) => InterruptSetsNoLinks(p.list, k);
      case Deletes(t) => DeleteSetsNoLinks(p.list, t);
    }
    StepKeepsSound(ids, p, step);
  }

  lemma SoundIsLinked(list: List)
    requires Sound(list)
    ensures Linked(list)
  {
  }

  // ----- a run that ends in a circle

  lemma {:induction false} RunsOneMore(ids: seq<Word>, p: Program, steps: seq<Step>, last: Program, step: Step)
    requires IsRun(ids, p, steps, last) && Can(ids, last, step)
    ensures IsRun(ids, p, steps + [step], Next(ids, last, step))
    decreases |steps|
  {
    hide Can, Next;
    var more := steps + [step];
    if steps == [] {
      assert more[1..] == [];
    } else {
      assert more[1..] == steps[1..] + [step];
      RunsOneMore(ids, Next(ids, p, steps[0]), steps[1..], last, step);
    }
  }

  lemma {:induction false} NeverBadOneMore(ids: seq<Word>, p: Program, steps: seq<Step>, last: Program, step: Step)
    requires IsRun(ids, p, steps, last) && NeverBad(ids, p, steps) && Can(ids, last, step) && !IsBad(ids, last, step)
    ensures NeverBad(ids, p, steps + [step])
    decreases |steps|
  {
    hide Can, Next, IsBad;
    var more := steps + [step];
    if steps == [] {
      assert more[1..] == [];
    } else {
      assert more[1..] == steps[1..] + [step];
      NeverBadOneMore(ids, Next(ids, p, steps[0]), steps[1..], last, step);
    }
  }

  lemma Goes(ids: seq<Word>, p: Program, steps: seq<Step>, last: Program, step: Step)
    returns (more: seq<Step>, next: Program)
    requires IsRun(ids, p, steps, last) && Can(ids, last, step)
    ensures more == steps + [step] && next == Next(ids, last, step) && IsRun(ids, p, more, next)
    ensures NeverBad(ids, p, steps) && !IsBad(ids, last, step) ==> NeverBad(ids, p, more)
  {
    hide Can, Next, IsBad, IsRun, NeverBad;
    RunsOneMore(ids, p, steps, last, step);
    if NeverBad(ids, p, steps) && !IsBad(ids, last, step) {
      NeverBadOneMore(ids, p, steps, last, step);
    }
    more, next := steps + [step], Next(ids, last, step);
  }

  lemma NoSteps(ids: seq<Word>, p: Program)
    ensures IsRun(ids, p, [], p) && NeverBad(ids, p, [])
  {
  }

  // Three threads, one mutex and one interrupt.
  function Start(): Program { Program(FreshList(3, 1), [Mutex(Locks.FreshMutex(3))]) }

  predicate IsThree(mutex: Word, p: Program, value: Byte, place: seq<Locks.Place>) {
    Fits([mutex], p) && |p.list.next| == 3 && |p.list.heads| == 2 && p.locks[0] == Mutex(Locks.Mutex(value, place))
  }

  // Nobody has been deleted, and q is to be the list of the signals: its threads wait for the mutex.
  predicate ListIs(mutex: Word, list: List, heads: seq<int>, next: seq<int>, waiting: seq<bool>, q: seq<nat>) {
    Sized(list) && list.heads == heads && list.next == next && list.waiting == waiting && list.queues[SIGNALS] == q &&
    forall t :: 0 <= t < |list.next| ==> !list.gone[t] && (t in q ==> list.id[t] == mutex)
  }

  // Thread 2 holds the mutex.
  lemma Holds(mutex: Word) returns (steps: seq<Step>, p: Program)
    ensures IsRun([mutex], Start(), steps, p) && NeverBad([mutex], Start(), steps)
    ensures IsThree(mutex, p, 1, [Locks.Outside, Locks.Outside, Locks.Holding])
    ensures ListIs(mutex, p.list, [NULL, NULL], [NULL, NULL, NULL], [false, false, false], [])
  {
    hide IsRun, NeverBad;
    var ids := [mutex];
    NoSteps(ids, Start());
    steps, p := Goes(ids, Start(), [], Start(), OnMutex(0, Locks.Call(2)));
    steps, p := Goes(ids, Start(), steps, p, OnMutex(0, Locks.Turn(2)));
  }

  // Now 0 waits for it.
  lemma FirstWaits(mutex: Word) returns (steps: seq<Step>, p: Program)
    ensures IsRun([mutex], Start(), steps, p) && NeverBad([mutex], Start(), steps)
    ensures IsThree(mutex, p, 1, [Locks.Trying, Locks.Outside, Locks.Holding])
    ensures ListIs(mutex, p.list, [0, NULL], [NULL, NULL, NULL], [true, false, false], [0])
  {
    hide IsRun, NeverBad;
    var ids := [mutex];
    NoSteps(ids, Start());
    steps, p := Holds(mutex);
    steps, p := Goes(ids, Start(), steps, p, OnMutex(0, Locks.Call(0)));
    steps, p := Goes(ids, Start(), steps, p, OnMutex(0, Locks.Turn(0)));
    assert p.list.queues[SIGNALS] == [0] + [];
  }

  // Now 1 waits as well, at the head of the list.
  lemma TwoWait(mutex: Word) returns (steps: seq<Step>, p: Program)
    ensures IsRun([mutex], Start(), steps, p) && NeverBad([mutex], Start(), steps)
    ensures IsThree(mutex, p, 1, [Locks.Trying, Locks.Trying, Locks.Holding])
    ensures ListIs(mutex, p.list, [1, NULL], [NULL, 0, NULL], [true, true, false], [1, 0])
  {
    hide IsRun, NeverBad;
    var ids := [mutex];
    steps, p := FirstWaits(mutex);
    steps, p := Goes(ids, Start(), steps, p, OnMutex(0, Locks.Call(1)));
    steps, p := Goes(ids, Start(), steps, p, OnMutex(0, Locks.Turn(1)));
  }

  // And 2 releases the mutex: nobody waits, and 1 is linked to 0 still.
  lemma BothWoken(mutex: Word) returns (steps: seq<Step>, p: Program)
    ensures IsRun([mutex], Start(), steps, p) && NeverBad([mutex], Start(), steps)
    ensures IsThree(mutex, p, 0, [Locks.Trying, Locks.Trying, Locks.Outside])
    ensures ListIs(mutex, p.list, [NULL, NULL], [NULL, 0, NULL], [false, false, false], [])
  {
    hide IsRun, NeverBad, LoopEnd, Returns;
    var ids := [mutex];
    steps, p := TwoWait(mutex);
    SendToBoth(mutex, p.list);
    steps, p := Goes(ids, Start(), steps, p, OnMutex(0, Locks.Release(2)));
  }

  // A signal for the only two threads that wait leaves their links as they are.
  lemma SendToBoth(mutex: Word, list: List)
    requires ListIs(mutex, list, [1, NULL], [NULL, 0, NULL], [true, true, false], [1, 0])
    ensures Returns(list, mutex) && !PairBehind(list.queues[SIGNALS], list.id, mutex, false)
    ensures ListIs(mutex, Sent(list, mutex), [NULL, NULL], [NULL, 0, NULL], [false, false, false], [])
  {
    hide LoopEnd, Returns;
    var l := LoopStart(list);
    var m := Turn(l, list.id, mutex);
    TurnsFirst(l, list.id, mutex, 2);
    TurnsFirst(m, list.id, mutex, 1);
    LoopEndsAfter(list, mutex, 2);
    assert [1, 0][1..] == [0] && [0][1..] == [];
    assert Left([1, 0], list.id, mutex, Nothing) == Left([0], list.id, mutex, Nothing) == [];
    assert !PairBehind([0], list.id, mutex, false);
  }

  // While thread 2 holds the mutex, 0 and 1 wait; 2 releases it and takes it again before either of them
  // runs; now 1 tries first, and then 0. The two are linked in a circle, and no signal returns any more:
  // neither that of the release of the mutex, nor any other.
  lemma CircleIsReached(mutex: Word) returns (steps: seq<Step>, last: Program)
    ensures IsRun([mutex], Start(), steps, last)
    ensures IsThree(mutex, last, 1, [Locks.Trying, Locks.Trying, Locks.Holding])
    ensures forall signal :: !Returns(last.list, signal)
  {
    hide IsRun, NeverBad;
    var ids := [mutex];
    steps, last := BothWoken(mutex);
    steps, last := Goes(ids, Start(), steps, last, OnMutex(0, Locks.Call(2)));
    steps, last := Goes(ids, Start(), steps, last, OnMutex(0, Locks.Turn(2)));
    steps, last := Goes(ids, Start(), steps, last, OnMutex(0, Locks.Turn(1)));
    steps, last := Goes(ids, Start(), steps, last, OnMutex(0, Locks.Turn(0)));
    forall signal ensures !Returns(last.list, signal) {
      CircleHangs(last.list, 0, 1, signal);
    }
  }

  lemma CircleHangs(list: List, a: nat, b: nat, signal: Word)
    requires Sized(list) && a < |list.next| && b < |list.next| && list.next[a] == b && list.next[b] == a
    requires list.id[a] == list.id[b] && list.heads[SIGNALS] == a
    ensures !Returns(list, signal)
  {
    hide Turns;
    forall n: nat ensures Turns(LoopStart(list), list.id, signal, n).t != NULL {
      CircleNeverEnds(LoopStart(list), list.id, a, b, signal, n);
    }
  }

  // With an interrupt, the two threads need not compete: 1 takes the mutex that 2 has released, 0 waits for it,
  // and 1 then waits for an interrupt, alone. It is linked to 0 still, so the interrupt wakes 0 as well,
  // which is left in the signals' list; 0 tries, fails, and is linked to itself. No signal returns any more:
  // thread 1 cannot release the mutex.
  lemma InterruptEndsInCircle(mutex: Word) returns (steps: seq<Step>, mid: Program, last: Program)
    ensures IsRun([mutex], Start(), steps, mid) && NeverBad([mutex], Start(), steps)
    ensures Can([mutex], mid, WaitIrq(1, 0)) && IsBad([mutex], mid, WaitIrq(1, 0))
    ensures IsRun([mutex], Start(), steps + [WaitIrq(1, 0), Interrupt(0), OnMutex(0, Locks.Turn(0))], last)
    ensures IsThree(mutex, last, 1, [Locks.Trying, Locks.Holding, Locks.Outside])
    ensures forall signal :: !Returns(last.list, signal)
  {
    hide IsRun, NeverBad, ClearAll;
    var ids := [mutex];
    steps, mid := BothWoken(mutex);
    steps, mid := Goes(ids, Start(), steps, mid, OnMutex(0, Locks.Turn(1)));
    steps, mid := Goes(ids, Start(), steps, mid, OnMutex(0, Locks.Turn(0)));
    var more, next := Goes(ids, Start(), steps, mid, WaitIrq(1, 0));
    InterruptWakesBoth(mutex, next.list);
    more, next := Goes(ids, Start(), more, next, Interrupt(0));
    more, last := Goes(ids, Start(), more, next, OnMutex(0, Locks.Turn(0)));
    assert more == steps + [WaitIrq(1, 0), Interrupt(0), OnMutex(0, Locks.Turn(0))];
    forall signal ensures !Returns(last.list, signal) {
      CircleHangs(last.list, 0, 0, signal);
    }
  }

  lemma InterruptWakesBoth(mutex: Word, list: List)
    requires ListIs(mutex, list, [0, 1], [NULL, 0, NULL], [true, true, false], [0])
    ensures ListIs(mutex, Interrupted(list, 1), [0, NULL], [NULL, NULL, NULL], [false, false, false], [0])
  {
    hide ClearAll;
    var l := ClearingStart(list, 1);
    var m := ClearTurn(l);
    ClearsFirst(l);
    ClearsFirst(m);
    ClearsNothing(ClearTurn(m));
  }
}
