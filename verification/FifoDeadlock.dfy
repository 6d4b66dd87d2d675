// When two CPUs can go on delivering what they have accepted, and when they never can again.

module FifoDeadlock {
  import opened FifoLayout
  import opened FifoWire
  import opened Words
  import opened FifoProtocol
  import opened FifoUpdates
  import opened FifoSystem

  // The words of the longest message: a header and 128 bytes.
  const LONGEST := 33

  // Both hardware FIFOs exist, and both pools hold a whole message of any kind.
  predicate IsRoomy(c: Config) {
    ValidConfig(c) && c.depth > 0 && c.capacity[0] >= LONGEST && c.capacity[1] >= LONGEST
  }

  predicate NothingQueued(v: Cpu) { forall q :: 0 <= q < |v.pending| ==> v.pending[q] == [] }

  // The CPU has words to send, which the hardware does not take; its pool is full of them, so that it can read
  // no word; and it has nothing to hand over that would free a block.
  predicate IsFull(c: Config, s: System, i: nat)
    requires i < |s.cpu| && i < |s.link|
  {
    && s.cpu[i].free == 0 && s.cpu[i].tx != [] && |s.link[i]| == c.depth
    && NothingQueued(s.cpu[i]) && Parse(s.cpu[i].rx).Incomplete?
  }

  predicate Blocked(c: Config, s: System) {
    |s.cpu| == 2 && |s.link| == 2 && IsFull(c, s, 0) && IsFull(c, s, 1)
  }

  // Nothing is under way: no word in a queue or in the hardware, no message in a queue of a channel, and no
  // callback.
  predicate IsQuiet(s: System, i: nat)
    requires i < |s.cpu| && i < |s.link|
  {
    var v := s.cpu[i];
    v.tx == [] && s.link[i] == [] && NothingQueued(v) && Parse(v.rx).Incomplete? && !v.control.Due? &&
    !v.control.Callback?
  }

  predicate Delivered(s: System) { |s.cpu| == 2 && |s.link| == 2 && IsQuiet(s, 0) && IsQuiet(s, 1) }

  // ----- two full CPUs stay full

  // All that can happen is that an activation begins, calls its callback, returns from it, or ends.
  lemma BlockedAllows(c: Config, s: System, step: Step)
    requires Blocked(c, s) && Enabled(c, s, step)
    ensures match step.action
      case SendMessage(_) => false
      case DrainWord => false
      case ReceiveWord => false
      case DispatchMessage => false
      case GetMessage(_) => false
      case _ => true
  {
    hide Parse, Sendable, Deliverable, QueueOf, Payload;
  }

  lemma BlockedKeeps(c: Config, s: System, step: Step)
    requires Blocked(c, s) && Enabled(c, s, step)
    ensures var n, i := Next(c, s, step), step.who;
      |s.cpu| == |n.cpu| == 2 && i < 2 && n.link == s.link && n.cpu[1 - i] == s.cpu[1 - i] &&
      n.cpu[i] == s.cpu[i].(control := n.cpu[i].control, calls := n.cpu[i].calls)
  {
    BlockedAllows(c, s, step);
    hide Parse, Encode, Sendable, Deliverable, QueueOf, Payload, Dispatch, Accept, Drain, Receive;
  }

  lemma BlockedStays(c: Config, s: System, step: Step)
    requires Blocked(c, s) && Enabled(c, s, step)
    ensures Blocked(c, Next(c, s, step))
  {
    hide Parse, Next, Enabled;
    BlockedKeeps(c, s, step);
  }

  // ----- only a send can fill them

  lemma BlockedBySend(c: Config, s: System, step: Step)
    requires Invariant(c, s) && Enabled(c, s, step) && !Blocked(c, s) && Blocked(c, Next(c, s, step))
    ensures step.action.SendMessage?
  {
    hide Parse, Encode, Sendable, Good, Blocked;
    var n, i := Next(c, s, step), step.who;
    assert FifoSystem.Linked(c, s, 0) && FifoSystem.Linked(c, s, 1);
    match step.action
    case SendMessage(_) =>
    case DrainWord => FullHasNoFree(c, n, i);
    case ReceiveWord => FullLink(c, n, 1 - i);
    case DispatchMessage => FullHasNoFree(c, n, i); DispatchGivesRoom(s.cpu[i], c.handlers[i]);
    case GetMessage(q) => FullHasNoFree(c, n, i); TakeGivesRoom(c, s, i, q);
    case ReturnFromCallback =>
      FullHasNoFree(c, n, i);
      var q := s.cpu[i].control.call.q;
      if q >= DATA && s.cpu[i].pending[q] != [] {
        TakeGivesRoom(c, s, i, q);
      } else {
        SameIsBlocked(c, s, n, i);
      }
    case _ => SameIsBlocked(c, s, n, i);
  }

  lemma FullHasNoFree(c: Config, s: System, i: nat)
    requires Blocked(c, s) && i < 2
    ensures |s.cpu| == 2 && s.cpu[i].free == 0 && NothingQueued(s.cpu[i])
  {
    hide Parse;
  }

  lemma FullLink(c: Config, s: System, i: nat)
    requires Blocked(c, s) && i < 2
    ensures |s.link| == 2 && |s.link[i]| == c.depth
  {
    hide Parse, NothingQueued;
  }

  lemma SameIsBlocked(c: Config, s: System, n: System, i: nat)
    requires Blocked(c, n) && |s.cpu| == 2 && i < 2 && s.link == n.link && s.cpu[1 - i] == n.cpu[1 - i]
    requires s.cpu[i].free == n.cpu[i].free && s.cpu[i].tx == n.cpu[i].tx && s.cpu[i].rx == n.cpu[i].rx
    requires s.cpu[i].pending == n.cpu[i].pending
    ensures Blocked(c, s)
  {
    hide Parse;
  }

  // A dispatch puts a message in a queue or frees a block.
  lemma DispatchGivesRoom(v: Cpu, handlers: seq<bool>)
    requires CanDispatch(v, handlers)
    ensures Dispatch(v, handlers).free > 0 || !NothingQueued(Dispatch(v, handlers))
  {
    hide Parse, Payload;
    DispatchIs(v, handlers);
    var u, q := Dispatch(v, handlers), QueueOf(Parse(v.rx).message);
    if u.free == 0 {
      assert u.pending[q] != [];
    }
  }

  lemma TakeGivesRoom(c: Config, s: System, i: nat, q: nat)
    requires Invariant(c, s) && i < 2 && CanTake(s.cpu[i], q)
    ensures Take(s.cpu[i], q).free > 0
  {
    hide Good, Payload, Deliverable, QueuesInOrder, CallbacksInOrder;
    QueuesAreInOrder(c, s, i);
    PendingBelongs(s.cpu[i], q);
  }

  // ----- otherwise something can go on

  // A step that brings words or messages on: not a send, and not the beginning of an activation for nothing.
  ghost predicate IsProgress(c: Config, s: System, step: Step) {
    Enabled(c, s, step) && !step.action.SendMessage? && !step.action.EndActivation? &&
    (step.action.BeginActivation? ==> Parse(s.cpu[step.who].rx).Got?)
  }

  lemma EncodeIsShort(m: Message)
    requires Sendable(m)
    ensures |Encode(m)| <= LONGEST
  {
  }

  // A message that has not arrived as a whole has arrived up to its last word but one.
  lemma CutIsShort(c: Config, s: System, i: nat)
    requires Invariant(c, s) && i < 2 && Parse(s.cpu[i].rx).Incomplete?
    ensures |s.cpu[i].rx| < LONGEST
  {
    hide Parse, ParseAll, EncodeAll, Encode, Sendable, Good, FifoSystem.Linked, Deliverable;
    DirectionIsConserved(c, s, 1 - i);
    var u, v, link := s.cpu[1 - i], s.cpu[i], s.link[1 - i];
    var all := EncodeAll(u.accepted);
    var read := v.consumed + v.rx;
    assert all == read + (link + u.tx);
    assert all[..|read|] == read;
    ParseCutStream(u.accepted, |read|);
    ParseAllConcat(v.consumed, v.rx);
    assert [] + v.rx == v.rx;
    IncompleteIsLeft(v.rx);
    assert v.handled + [] == v.handled;
    if |v.handled| < |u.accepted| {
      EncodeIsShort(u.accepted[|v.handled|]);
    } else {
      assert v.handled == u.accepted;
      assert |all| + |v.rx| == |read|;
    }
  }

  lemma IncompleteIsLeft(s: seq<Word>)
    requires Parse(s).Incomplete?
    ensures ParseAll(s) == ([], s)
  {
    hide Parse;
  }

  // A CPU alone: a callback, a message in a queue, or a whole message in the RX queue goes on.
  lemma CpuGoesOn(c: Config, s: System, i: nat) returns (step: Step)
    requires Invariant(c, s) && i < 2
    requires var v := s.cpu[i]; v.control.Due? || v.control.Callback? || !NothingQueued(v) || Parse(v.rx).Got?
    ensures IsProgress(c, s, step)
  {
    hide Parse, Good, FifoSystem.Linked, Conserved, Deliverable, CanDispatch;
    var v := s.cpu[i];
    QueuesAreInOrder(c, s, i);
    DirectionIsConserved(c, s, 1 - i);
    if v.control.Due? {
      step := Step(i, EnterCallback);
    } else if v.control.Callback? {
      step := Step(i, ReturnFromCallback);
    } else if !NothingQueued(v) {
      var q :| 0 <= q < |v.pending| && v.pending[q] != [];
      step := Step(i, GetMessage(q));
    } else if v.control.Idle? {
      step := Step(i, BeginActivation);
    } else {
      ActivationIsNotStuck(s.cpu[1 - i], v, s.link[1 - i], c.handlers[i]);
      step := Step(i, DispatchMessage);
    }
  }

  // A CPU that has nothing of its own to go on with, and no free block, has words to send.
  lemma FullHasToSend(c: Config, s: System, i: nat)
    requires Invariant(c, s) && IsRoomy(c) && i < 2
    requires NothingQueued(s.cpu[i]) && Parse(s.cpu[i].rx).Incomplete? && s.cpu[i].free == 0
    ensures s.cpu[i].tx != []
  {
    hide Parse, SentInOrder, ReadInOrder, CallbacksInOrder, FifoSystem.Linked;
    CutIsShort(c, s, i);
    assert Good(s.cpu[i], c.handlers[i], c.capacity[i]);
    BlocksOfEmpty(s.cpu[i].pending);
  }

  // In every state of a run, unless everything is delivered or both CPUs are full, a step goes on.
  lemma SomeProgress(c: Config, s: System) returns (step: Step)
    requires Invariant(c, s) && IsRoomy(c) && !Delivered(s) && !Blocked(c, s)
    ensures IsProgress(c, s, step)
  {
    hide Parse, Good, FifoSystem.Linked, NothingQueued;
    if i :| 0 <= i < 2 && (s.cpu[i].control.Due? || s.cpu[i].control.Callback? || !NothingQueued(s.cpu[i]) ||
                           Parse(s.cpu[i].rx).Got?) {
      step := CpuGoesOn(c, s, i);
    } else if i :| 0 <= i < 2 && s.cpu[i].tx != [] && |s.link[i]| < c.depth {
      step := Step(i, DrainWord);
    } else if i :| 0 <= i < 2 && s.link[1 - i] != [] && s.cpu[i].free > 0 {
      step := Step(i, ReceiveWord);
    } else {
      BothAreFull(c, s);
      assert false;
    }
  }

  lemma BothAreFull(c: Config, s: System)
    requires Invariant(c, s) && IsRoomy(c) && !Delivered(s)
    requires forall i :: 0 <= i < 2 ==> var v := s.cpu[i];
      && !v.control.Due? && !v.control.Callback? && NothingQueued(v) && Parse(v.rx).Incomplete?
      && (v.tx == [] || |s.link[i]| >= c.depth) && (s.link[1 - i] == [] || v.free == 0)
    ensures Blocked(c, s)
  {
    hide Parse, Good, NothingQueued;
    assert FifoSystem.Linked(c, s, 0) && FifoSystem.Linked(c, s, 1);
    var i := if s.cpu[0].tx != [] || s.link[0] != [] then 0 else 1;
    assert s.cpu[i].tx != [] || s.link[i] != [];
    assert s.link[i] != [] && s.cpu[1 - i].free == 0;
    FullHasToSend(c, s, 1 - i);
    assert s.link[1 - i] != [] && s.cpu[i].free == 0;
    FullHasToSend(c, s, i);
  }

  // ----- and it comes to an end

  function Rank(control: Control): nat {
    match control case Idle => 1 case Processing => 0 case Due(_) => 2 case Callback(_) => 1
  }

  // How far the words and messages of a CPU still have to go.
  function CpuWork(v: Cpu): nat { 7 * |v.tx| + 5 * |v.rx| + Blocks(v.pending) + Rank(v.control) }

  function Work(s: System): nat
    requires |s.cpu| == 2 && |s.link| == 2
  {
    CpuWork(s.cpu[0]) + CpuWork(s.cpu[1]) + 6 * |s.link[0]| + 6 * |s.link[1]|
  }

  lemma PayloadIsRead(s: seq<Word>)
    requires Parse(s).Got?
    ensures |Payload(Parse(s).message)| <= Parse(s).used
  {
  }

  lemma DispatchIsWork(v: Cpu, handlers: seq<bool>)
    requires CanDispatch(v, handlers)
    ensures CpuWork(Dispatch(v, handlers)) < CpuWork(v)
  {
    hide Parse, Blocks;
    var u, m, k := Dispatch(v, handlers), Parse(v.rx).message, Parse(v.rx).used;
    var q := QueueOf(m);
    BlocksUpdate(v.pending, q, v.pending[q] + [m]);
    PayloadsConcat(v.pending[q], [m]);
    assert Payloads([m]) == Payload(m) + [] == Payload(m);
    PayloadIsRead(v.rx);
    assert 0 < k && |u.rx| == |v.rx| - k && u.tx == v.tx;
    assert Blocks(u.pending) <= Blocks(v.pending) + |Payload(m)|;
    assert Rank(u.control) <= Rank(v.control) + 2;
  }

  lemma TakeIsWork(v: Cpu, q: nat)
    requires QueuesInOrder(v) && CanTake(v, q)
    ensures CpuWork(Take(v, q)) < CpuWork(v)
  {
    hide Payload, For, Deliverable;
    PendingBelongs(v, q);
    BlocksUpdate(v.pending, q, v.pending[q][1..]);
  }

  lemma ProgressIsWork(c: Config, s: System, step: Step)
    requires Invariant(c, s) && IsProgress(c, s, step)
    ensures |Next(c, s, step).cpu| == 2 && |Next(c, s, step).link| == 2 && Work(Next(c, s, step)) < Work(s)
  {
    hide Parse, Good, FifoSystem.Linked, Payload, Blocks, QueuesInOrder, CallbacksInOrder, Dispatch;
    var i := step.who;
    QueuesAreInOrder(c, s, i);
    match step.action
    case DispatchMessage => DispatchIsWork(s.cpu[i], c.handlers[i]);
    case GetMessage(q) => TakeIsWork(s.cpu[i], q);
    case ReturnFromCallback =>
      var q := s.cpu[i].control.call.q;
      if q >= DATA && s.cpu[i].pending[q] != [] {
        TakeIsWork(s.cpu[i], q);
      }
    case _ =>
  }

  // ----- the theorems

  predicate NoSends(steps: seq<Step>) { forall k :: 0 <= k < |steps| ==> !steps[k].action.SendMessage? }

  // The run can go on, without a send, until nothing is under way.
  ghost predicate CanBeDelivered(c: Config, states: seq<System>, steps: seq<Step>) {
    exists more, moves :: GoesOn(c, states, steps, more, moves) && Delivered(more[|moves|])
  }

  ghost predicate GoesOn(c: Config, states: seq<System>, steps: seq<Step>, more: seq<System>, moves: seq<Step>) {
    IsRun(c, more, moves) && |more| == |moves| + 1 && states <= more && steps <= moves && NoSends(moves[|steps|..])
  }

  lemma {:induction false} Delivers(c: Config, states: seq<System>, steps: seq<Step>)
    returns (more: seq<System>, moves: seq<Step>)
    requires IsRun(c, states, steps) && IsRoomy(c) && !Blocked(c, states[|steps|])
    requires Invariant(c, states[|steps|])
    ensures GoesOn(c, states, steps, more, moves) && Delivered(more[|moves|])
    decreases Work(states[|steps|])
  {
    hide Enabled, Next, Invariant, Good, FifoSystem.Linked, Blocked, Delivered, Work, Start;
    var s := states[|steps|];
    if Delivered(s) {
      more, moves := states, steps;
    } else {
      var step := SomeProgress(c, s);
      var n := Next(c, s, step);
      RunGoesOn(c, states, steps, step);
      StepKeepsInvariant(c, s, step);
      ProgressIsWork(c, s, step);
      if Blocked(c, n) {
        BlockedBySend(c, s, step);
      }
      more, moves := Delivers(c, states + [n], steps + [step]);
      assert moves[|steps|..] == [step] + moves[|steps| + 1..];
    }
  }

  lemma {:induction false} StaysBlocked(c: Config, states: seq<System>, steps: seq<Step>, j: nat, k: nat)
    requires IsRun(c, states, steps) && j <= k <= |steps| && Blocked(c, states[j])
    ensures Blocked(c, states[k])
    decreases k
  {
    hide Blocked, Enabled, Next, Start;
    if j < k {
      StaysBlocked(c, states, steps, j, k - 1);
      assert Enabled(c, states[k - 1], steps[k - 1]) && states[k - 1 + 1] == Next(c, states[k - 1], steps[k - 1]);
      BlockedStays(c, states[k - 1], steps[k - 1]);
    }
  }

  // From every state of every run, all that was accepted can still be delivered, without a further send, if and
  // only if the two CPUs are not full of words for each other.
  lemma DeliveryIffNotBlocked(c: Config, states: seq<System>, steps: seq<Step>)
    requires IsRun(c, states, steps) && IsRoomy(c)
    ensures CanBeDelivered(c, states, steps) <==> !Blocked(c, states[|steps|])
  {
    hide IsRun, Delivered, Blocked, Invariant;
    var n := |steps|;
    RunHasStates(c, states, steps);
    if Blocked(c, states[n]) {
      forall more, moves | GoesOn(c, states, steps, more, moves) ensures !Delivered(more[|moves|]) {
        assert more[n] == states[n];
        StaysBlocked(c, more, moves, n, |moves|);
        BlockedIsNotDelivered(c, more[|moves|]);
      }
    } else {
      RunKeepsInvariant(c, states, steps, n);
      var more, moves := Delivers(c, states, steps);
    }
  }

  lemma RunHasStates(c: Config, states: seq<System>, steps: seq<Step>)
    requires IsRun(c, states, steps)
    ensures |states| == |steps| + 1
  {
    hide Enabled, Next;
  }

  lemma BlockedIsNotDelivered(c: Config, s: System)
    requires Blocked(c, s)
    ensures !Delivered(s)
  {
    hide Parse, NothingQueued;
  }

  // Once they are full, they are for ever: nothing is ever read, sent or accepted again.
  lemma BlockedIsForEver(c: Config, states: seq<System>, steps: seq<Step>, j: nat, k: nat, i: nat)
    requires IsRun(c, states, steps) && j <= k <= |steps| && Blocked(c, states[j]) && i < 2
    ensures Blocked(c, states[k])
    ensures states[k].cpu[i].read == states[j].cpu[i].read && states[k].cpu[i].written == states[j].cpu[i].written
    ensures states[k].cpu[i].accepted == states[j].cpu[i].accepted &&
      states[k].cpu[i].handled == states[j].cpu[i].handled
    decreases k
  {
    hide Blocked, Enabled, Next, Start;
    StaysBlocked(c, states, steps, j, k);
    StaysBlocked(c, states, steps, j, j);
    if j < k {
      StaysBlocked(c, states, steps, j, k - 1);
      BlockedIsForEver(c, states, steps, j, k - 1, i);
      assert Enabled(c, states[k - 1], steps[k - 1]) && states[k - 1 + 1] == Next(c, states[k - 1], steps[k - 1]);
      BlockedDoesNothing(c, states[k - 1], steps[k - 1], i);
    } else {
      BlockedHasCpus(c, states[j]);
    }
  }

  lemma BlockedHasCpus(c: Config, s: System)
    requires Blocked(c, s)
    ensures |s.cpu| == 2
  {
    hide IsFull;
  }

  lemma BlockedDoesNothing(c: Config, s: System, step: Step, i: nat)
    requires Blocked(c, s) && Enabled(c, s, step) && i < 2
    ensures |s.cpu| == 2 && |Next(c, s, step).cpu| == 2
    ensures var v, u := s.cpu[i], Next(c, s, step).cpu[i];
      u.read == v.read && u.written == v.written && u.accepted == v.accepted && u.handled == v.handled
  {
    hide Blocked, Next, Enabled;
    BlockedKeeps(c, s, step);
  }

  // When everything is delivered, each CPU has handled all that the other one accepted.
  lemma DeliveredIsAll(c: Config, states: seq<System>, steps: seq<Step>, i: nat)
    requires IsRun(c, states, steps) && i < 2 && Delivered(states[|steps|])
    ensures var s := states[|steps|];
      s.cpu[1 - i].handled == s.cpu[i].accepted && s.cpu[1 - i].calls == Announced(s.cpu[i].accepted, c.handlers[1 - i])
  {
    HandledInOrder(c, states, steps, i);
    RunKeepsInvariant(c, states, steps, |steps|);
    hide IsRun, Parse, Good, FifoSystem.Linked, Announced;
    QueuesAreInOrder(c, states[|steps|], 1 - i);
  }

  // ----- they get there

  // A CPU that has received nothing.
  predicate IsFresh(c: Config, s: System, i: nat)
    requires ValidConfig(c) && i < 2
  {
    && |s.cpu| == 2 && |s.link| == 2 && |s.link[i]| <= c.depth
    && s.cpu[i].free == c.capacity[i] && s.cpu[i].tx == [] && s.cpu[i].rx == [] && NothingQueued(s.cpu[i])
  }

  // It sends until the hardware and the pool are full.
  lemma FillsUp(c: Config, states: seq<System>, steps: seq<Step>, i: nat)
    returns (more: seq<System>, moves: seq<Step>)
    requires ValidConfig(c) && i < 2 && c.capacity[i] > 0
    requires |states| == |steps| + 1 && IsRun(c, states, steps) && IsFresh(c, states[|steps|], i)
    ensures |more| == |moves| + 1 && IsRun(c, more, moves)
    ensures var s, n := states[|steps|], more[|moves|];
      |n.cpu| == 2 && |n.link| == 2 && IsFull(c, n, i) && n.cpu[1 - i] == s.cpu[1 - i] && n.link[1 - i] == s.link[1 - i]
  {
    hide IsRun, Encode, Sendable, Deliverable, Parse;
    OneWordMessage();
    NothingToParse();
    var m := Value32(0, 0);
    var send, drain := Step(i, SendMessage(m)), Step(i, DrainWord);
    var s := states[|steps|];
    more, moves := states, steps;
    while |s.link[i]| < c.depth
      invariant |more| == |moves| + 1 && s == more[|moves|] && IsRun(c, more, moves) && IsFresh(c, s, i)
      invariant s.cpu[1 - i] == states[|steps|].cpu[1 - i] && s.link[1 - i] == states[|steps|].link[1 - i]
      decreases c.depth - |s.link[i]|
    {
      RunGoesOn(c, more, moves, send);
      s := Next(c, s, send);
      more, moves := more + [s], moves + [send];
      RunGoesOn(c, more, moves, drain);
      s := Next(c, s, drain);
      more, moves := more + [s], moves + [drain];
    }
    while s.cpu[i].free > 0
      invariant |more| == |moves| + 1 && s == more[|moves|] && IsRun(c, more, moves)
      invariant |s.cpu| == 2 && |s.link| == 2 && |s.link[i]| == c.depth
      invariant s.cpu[i].free + |s.cpu[i].tx| == c.capacity[i] && s.cpu[i].rx == [] && NothingQueued(s.cpu[i])
      invariant s.cpu[1 - i] == states[|steps|].cpu[1 - i] && s.link[1 - i] == states[|steps|].link[1 - i]
      decreases s.cpu[i].free
    {
      RunGoesOn(c, more, moves, send);
      s := Next(c, s, send);
      more, moves := more + [s], moves + [send];
    }
  }

  // When the other CPU does not read, messages of one word fill the hardware FIFO and then the pool: no
  // block is left, and no word can be drained to make room.
  lemma PoolFillsUp(c: Config) returns (states: seq<System>, steps: seq<Step>)
    requires ValidConfig(c) && c.capacity[0] > 0
    ensures IsRun(c, states, steps)
    ensures var s := states[|steps|];
      |s.cpu| == 2 && |s.link| == 2 && s.cpu[0].free == 0 && !Enabled(c, s, Step(0, DrainWord))
  {
    hide IsRun, Parse;
    StartIsRun(c);
    states, steps := FillsUp(c, [Start(c)], [], 0);
  }

  // Two CPUs that send and do not read in time block each other, whatever the sizes of their pools.
  lemma DeadlockIsReached(c: Config) returns (states: seq<System>, steps: seq<Step>)
    requires ValidConfig(c) && c.capacity[0] > 0 && c.capacity[1] > 0
    ensures |states| == |steps| + 1 && IsRun(c, states, steps) && Blocked(c, states[|steps|])
  {
    hide IsRun, Parse;
    StartIsRun(c);
    states, steps := FillsUp(c, [Start(c)], [], 0);
    states, steps := FillsUp(c, states, steps, 1);
  }
}
