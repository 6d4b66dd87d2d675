// Two CPUs that talk through the hardware FIFOs: every interleaving of their steps.

module FifoSystem {
  import opened FifoLayout
  import opened FifoWire
  import opened Words
  import opened FifoProtocol

  // What is fixed before traffic starts: the depth of the hardware FIFOs, and for each CPU the
  // number of usable blocks of its pool and the queues that have a callback.
  datatype Config = Config(depth: nat, capacity: seq<nat>, handlers: seq<seq<bool>>)

  predicate ValidConfig(c: Config) {
    |c.capacity| == 2 && |c.handlers| == 2 && |c.handlers[0]| == QUEUES && |c.handlers[1]| == QUEUES
  }

  // link[i] holds the words that CPU i wrote and the other CPU did not read yet.
  datatype System = System(cpu: seq<Cpu>, link: seq<seq<Word>>)

  datatype Action =
    | SendMessage(m: Message)
    | DrainWord
    | ReceiveWord
    | BeginActivation
    | DispatchMessage
    | EnterCallback
    | ReturnFromCallback
    | EndActivation
    | GetMessage(q: nat)

  // CPU `who` (0 or 1) performs an action.
  datatype Step = Step(who: nat, action: Action)

  function Start(c: Config): System
    requires ValidConfig(c)
  {
    System([Initial(c.capacity[0]), Initial(c.capacity[1])], [[], []])
  }

  // Sends, gets and hardware transfers may happen at any time, also inside a callback or in an
  // interrupt during one; only an activation without a due or running callback dispatches or ends.
  ghost predicate Enabled(c: Config, s: System, step: Step) {
    && ValidConfig(c) && |s.cpu| == 2 && |s.link| == 2 && step.who < 2
    && var v := s.cpu[step.who];
    match step.action
    case SendMessage(m) => Deliverable(m) && CanAccept(v, m)
    case DrainWord => CanDrain(v) && |s.link[step.who]| < c.depth
    case ReceiveWord => CanReceive(v) && s.link[1 - step.who] != []
    case BeginActivation => v.control == Idle
    case DispatchMessage => CanDispatch(v, c.handlers[step.who])
    case EnterCallback => CanEnter(v)
    case ReturnFromCallback => CanReturn(v)
    case EndActivation => CanEnd(v)
    case GetMessage(q) => CanTake(v, q)
  }

  ghost function Next(c: Config, s: System, step: Step): System
    requires Enabled(c, s, step)
  {
    var i := step.who;
    var v := s.cpu[i];
    match step.action
    case SendMessage(m) => s.(cpu := s.cpu[i := Accept(v, m)])
    case DrainWord => System(s.cpu[i := Drain(v)], s.link[i := s.link[i] + [v.tx[0]]])
    case ReceiveWord =>
      System(s.cpu[i := Receive(v, s.link[1 - i][0])], s.link[1 - i := s.link[1 - i][1..]])
    case BeginActivation => s.(cpu := s.cpu[i := Begin(v)])
    case DispatchMessage => s.(cpu := s.cpu[i := Dispatch(v, c.handlers[i])])
    case EnterCallback => s.(cpu := s.cpu[i := Enter(v)])
    case ReturnFromCallback => s.(cpu := s.cpu[i := Return(v)])
    case EndActivation => s.(cpu := s.cpu[i := End(v)])
    case GetMessage(q) => s.(cpu := s.cpu[i := Take(v, q)])
  }

  // A run from the start: states[k + 1] comes from states[k] by steps[k].
  ghost predicate IsRun(c: Config, states: seq<System>, steps: seq<Step>) {
    && ValidConfig(c) && |states| == |steps| + 1 && states[0] == Start(c)
    && (forall k {:trigger steps[k]} :: 0 <= k < |steps| ==>
          Enabled(c, states[k], steps[k]) && states[k + 1] == Next(c, states[k], steps[k]))
  }

  ghost predicate Linked(c: Config, s: System, i: nat)
    requires i < 2 && |s.cpu| == 2 && |s.link| == 2
  {
    && s.cpu[i].written == s.cpu[1 - i].read + s.link[i] && |s.link[i]| <= c.depth
    && (forall k {:trigger s.cpu[i].accepted[k]} :: 0 <= k < |s.cpu[i].accepted| ==> Deliverable(s.cpu[i].accepted[k]))
  }

  ghost predicate Invariant(c: Config, s: System) {
    && ValidConfig(c) && |s.cpu| == 2 && |s.link| == 2
    && Good(s.cpu[0], c.handlers[0], c.capacity[0]) && Good(s.cpu[1], c.handlers[1], c.capacity[1])
    && Linked(c, s, 0) && Linked(c, s, 1)
  }

  lemma CpuStepKeepsGood(c: Config, s: System, step: Step)
    requires Enabled(c, s, step) && Good(s.cpu[step.who], c.handlers[step.who], c.capacity[step.who])
    ensures Good(Next(c, s, step).cpu[step.who], c.handlers[step.who], c.capacity[step.who])
  {
    hide Good, Accept, Drain, Receive, Begin, Dispatch, Enter, Return, End, Take, Parse, Deliverable;
    var i := step.who;
    var v, h, n := s.cpu[i], c.handlers[i], c.capacity[i];
    match step.action
    case SendMessage(m) => AcceptKeepsGood(v, m, h, n);
    case DrainWord => DrainKeepsGood(v, h, n);
    case ReceiveWord => ReceiveKeepsGood(v, s.link[1 - i][0], h, n);
    case BeginActivation => ControlKeepsGood(v, h, n);
    case DispatchMessage => DispatchKeepsGood(v, h, n);
    case EnterCallback => EnterKeepsGood(v, h, n);
    case ReturnFromCallback => ReturnKeepsGood(v, h, n);
    case EndActivation => ControlKeepsGood(v, h, n);
    case GetMessage(q) => TakeKeepsGood(v, q, h, n);
  }

  // A step of a CPU changes what it wrote, read and accepted in one of three ways, or not at all.
  lemma StepKeepsLinked(c: Config, s: System, step: Step, i: nat)
    requires Enabled(c, s, step) && i < 2 && Linked(c, s, i)
    ensures Linked(c, Next(c, s, step), i)
  {
    hide Parse, Encode, Sendable, QueueOf, Payload, Deliverable;
    var t := Next(c, s, step);
    if step.action.DrainWord? && step.who == i {
      assert s.cpu[1 - i].read + (s.link[i] + [s.cpu[i].tx[0]]) == s.cpu[i].written + [s.cpu[i].tx[0]];
    } else if step.action.ReceiveWord? && step.who == 1 - i {
      assert s.link[i] == [s.link[i][0]] + s.link[i][1..];
      assert (s.cpu[1 - i].read + [s.link[i][0]]) + s.link[i][1..] == s.cpu[1 - i].read + s.link[i];
    }
  }

  lemma StepLeavesOtherCpu(c: Config, s: System, step: Step)
    requires Enabled(c, s, step)
    ensures var t := Next(c, s, step);
      |t.cpu| == 2 && |t.link| == 2 && t.cpu[1 - step.who] == s.cpu[1 - step.who]
  {
    hide Parse, Encode, Sendable, QueueOf, Payload, Deliverable;
  }

  lemma StepKeepsInvariant(c: Config, s: System, step: Step)
    requires Invariant(c, s) && Enabled(c, s, step)
    ensures Invariant(c, Next(c, s, step))
  {
    hide Good, Linked, Next;
    var i := step.who;
    assert Good(s.cpu[i], c.handlers[i], c.capacity[i]) && Good(s.cpu[1 - i], c.handlers[1 - i], c.capacity[1 - i]);
    assert i < 2 && ValidConfig(c);
    hide Enabled, Invariant;
    CpuStepKeepsGood(c, s, step);
    StepKeepsLinked(c, s, step, 0);
    StepKeepsLinked(c, s, step, 1);
    StepLeavesOtherCpu(c, s, step);
    BothSides(c, Next(c, s, step), i);
  }

  lemma BothSides(c: Config, s: System, i: nat)
    requires i < 2 && ValidConfig(c) && |s.cpu| == 2 && |s.link| == 2
    requires Good(s.cpu[i], c.handlers[i], c.capacity[i]) && Good(s.cpu[1 - i], c.handlers[1 - i], c.capacity[1 - i])
    requires Linked(c, s, 0) && Linked(c, s, 1)
    ensures Invariant(c, s)
  {
    hide Good, Linked;
  }

  lemma StartInvariant(c: Config)
    requires ValidConfig(c)
    ensures Invariant(c, Start(c))
  {
    InitialIsGood(c.handlers[0], c.capacity[0]);
    InitialIsGood(c.handlers[1], c.capacity[1]);
    hide Good;
  }

  lemma {:induction false} RunKeepsInvariant(c: Config, states: seq<System>, steps: seq<Step>, k: nat)
    requires IsRun(c, states, steps) && k < |states|
    ensures Invariant(c, states[k])
  {
    hide Invariant, Enabled, Next, Start;
    if k == 0 {
      StartInvariant(c);
    } else {
      RunKeepsInvariant(c, states, steps, k - 1);
      assert Enabled(c, states[k - 1], steps[k - 1]) && states[k - 1 + 1] == Next(c, states[k - 1], steps[k - 1]);
      StepKeepsInvariant(c, states[k - 1], steps[k - 1]);
    }
  }

  // ----- what the invariant says about one direction: a sender, a receiver and the link between

  ghost predicate Conserved(u: Cpu, v: Cpu, link: seq<Word>) {
    && AllSendable(u.accepted)
    && v.consumed + v.rx + link + u.tx == EncodeAll(u.accepted)
    && ParseAll(v.consumed) == (v.handled, [])
  }

  lemma DirectionIsConserved(c: Config, s: System, i: nat)
    requires Invariant(c, s) && i < 2
    ensures Conserved(s.cpu[i], s.cpu[1 - i], s.link[i]) && |s.link[i]| <= c.depth
    ensures forall k {:trigger s.cpu[i].accepted[k]} :: 0 <= k < |s.cpu[i].accepted| ==>
      Deliverable(s.cpu[i].accepted[k])
  {
    hide ParseAll, EncodeAll, AllSendable, Deliverable, QueuesInOrder, CallbacksInOrder, BlocksConserved;
    assert Linked(c, s, i);
  }

  lemma QueuesAreInOrder(c: Config, s: System, i: nat)
    requires Invariant(c, s) && i < 2
    ensures QueuesInOrder(s.cpu[i]) && CallbacksInOrder(s.cpu[i], c.handlers[i])
  {
    hide QueuesInOrder, CallbacksInOrder, SentInOrder, ReadInOrder, BlocksConserved, Linked;
  }

  lemma PrefixIsHandled(accepted: seq<Message>, consumed: seq<Word>, rest: seq<Word>, handled: seq<Message>)
    requires AllSendable(accepted) && consumed + rest == EncodeAll(accepted)
    requires ParseAll(consumed) == (handled, [])
    ensures handled <= accepted
    ensures Parse(rest).Incomplete? ==> handled == accepted && rest == []
  {
    hide Parse, Encode, Sendable;
    assert EncodeAll(accepted)[..|consumed|] == consumed;
    ParseCutStream(accepted, |consumed|);
    if Parse(rest).Incomplete? {
      ParseAllConcat(consumed, rest);
      ParseEncodeAll(accepted);
      assert [] + rest == rest;
      assert handled + [] == handled;
    }
  }

  // For a prefix of the messages, the part for one queue is a prefix of the part for that queue.
  lemma {:induction false} ForPrefix(a: seq<Message>, b: seq<Message>, q: nat)
    requires a <= b
    ensures For(a, q) <= For(b, q)
    decreases |b|
  {
    if |a| < |b| {
      ForPrefix(a, b[..|b| - 1], q);
    } else {
      assert a == b;
    }
  }

  lemma {:induction false} AnnouncedPrefix(a: seq<Message>, b: seq<Message>, handlers: seq<bool>)
    requires a <= b && |handlers| == QUEUES
    ensures Announced(a, handlers) <= Announced(b, handlers)
    decreases |b|
  {
    if |a| < |b| {
      AnnouncedPrefix(a, b[..|b| - 1], handlers);
    } else {
      assert a == b;
    }
  }

  lemma Regroup<T>(a: seq<T>, b: seq<T>, k: nat, c: seq<T>)
    requires k <= |b|
    ensures (a + b[..k]) + (b[k..] + c) == a + b + c
  {
    assert b[..k] + b[k..] == b;
  }

  lemma NextIsAccepted(accepted: seq<Message>, consumed: seq<Word>, rx: seq<Word>, late: seq<Word>,
      handled: seq<Message>)
    requires AllSendable(accepted) && consumed + rx + late == EncodeAll(accepted)
    requires ParseAll(consumed) == (handled, []) && Parse(rx).Got?
    ensures |handled| < |accepted| && Parse(rx).message == accepted[|handled|]
  {
    hide *;
    var k := Parse(rx).used;
    ParseAllStep(consumed, rx);
    Regroup(consumed, rx, k, late);
    PrefixIsHandled(accepted, consumed + rx[..k], rx[k..] + late, handled + [Parse(rx).message]);
    assert (handled + [Parse(rx).message])[|handled|] == Parse(rx).message;
  }

  // ----- the theorems, for every run and every interleaving

  // End to end: what the receiver consumed, its RX queue, the hardware FIFO and the sender's TX
  // queue are together the encoding of all accepted messages, in order; and what it consumed is
  // exactly what it handled.
  lemma WordsConserved(c: Config, states: seq<System>, steps: seq<Step>, i: nat)
    requires IsRun(c, states, steps) && i < 2
    ensures var s := states[|steps|];
      && |s.cpu| == 2 && |s.link| == 2 && AllSendable(s.cpu[i].accepted) && |s.link[i]| <= c.depth
      && s.cpu[1 - i].consumed + s.cpu[1 - i].rx + s.link[i] + s.cpu[i].tx == EncodeAll(s.cpu[i].accepted)
      && ParseAll(s.cpu[1 - i].consumed) == (s.cpu[1 - i].handled, [])
  {
    RunKeepsInvariant(c, states, steps, |steps|);
    hide Good, ParseAll, EncodeAll, AllSendable, Linked;
    DirectionIsConserved(c, states[|steps|], i);
  }

  // Each message is handled once and in order: the handled messages are a prefix of the accepted
  // ones, and when nothing is in transit and the receiver has nothing to dispatch, all of them.
  lemma HandledInOrder(c: Config, states: seq<System>, steps: seq<Step>, i: nat)
    requires IsRun(c, states, steps) && i < 2
    ensures var s := states[|steps|];
      && |s.cpu| == 2 && |s.link| == 2
      && s.cpu[1 - i].handled <= s.cpu[i].accepted
      && (s.link[i] == [] && s.cpu[i].tx == [] && Parse(s.cpu[1 - i].rx).Incomplete? ==>
            s.cpu[1 - i].handled == s.cpu[i].accepted && s.cpu[1 - i].rx == [])
  {
    WordsConserved(c, states, steps, i);
    hide *;
    var s := states[|steps|];
    var rest := s.cpu[1 - i].rx + s.link[i] + s.cpu[i].tx;
    assert s.cpu[1 - i].consumed + rest == s.cpu[1 - i].consumed + s.cpu[1 - i].rx + s.link[i] + s.cpu[i].tx;
    PrefixIsHandled(s.cpu[i].accepted, s.cpu[1 - i].consumed, rest, s.cpu[1 - i].handled);
    assert s.link[i] == [] && s.cpu[i].tx == [] ==> rest == s.cpu[1 - i].rx;
  }

  // Each queue gets exactly what was sent to it, once and in order: the messages that left the
  // queue, and then those still in it, are a prefix of the messages accepted for it. Callbacks
  // are called with a prefix of what the messages accepted for channels that have one tell them.
  lemma QueuesGetPrefix(c: Config, states: seq<System>, steps: seq<Step>, i: nat, q: nat)
    requires IsRun(c, states, steps) && i < 2 && q < QUEUES
    ensures var s := states[|steps|];
      && |s.cpu| == 2 && |s.cpu[1 - i].taken| == QUEUES && |s.cpu[1 - i].pending| == QUEUES
      && s.cpu[1 - i].taken[q] + s.cpu[1 - i].pending[q] <= For(s.cpu[i].accepted, q)
      && s.cpu[1 - i].calls <= Calls(s.cpu[1 - i]) <= Announced(s.cpu[i].accepted, c.handlers[1 - i])
  {
    RunKeepsInvariant(c, states, steps, |steps|);
    QueuesAreInOrder(c, states[|steps|], 1 - i);
    HandledInOrder(c, states, steps, i);
    hide IsRun, Good, Linked, For, Announced, Parse;
    var v, u := states[|steps|].cpu[1 - i], states[|steps|].cpu[i];
    assert v.taken[q] + v.pending[q] == For(v.handled, q);
    ForPrefix(v.handled, u.accepted, q);
    AnnouncedPrefix(v.handled, u.accepted, c.handlers[1 - i]);
  }

  // The receiver never meets a message that it cannot deliver: an activation that has a whole
  // message and no running callback can always dispatch it.
  lemma DispatchNeverStuck(c: Config, states: seq<System>, steps: seq<Step>, i: nat)
    requires IsRun(c, states, steps) && i < 2
    ensures var s := states[|steps|];
      && |s.cpu| == 2 && |c.handlers| == 2
      && (s.cpu[i].control == Processing ==> CanEnd(s.cpu[i]) || CanDispatch(s.cpu[i], c.handlers[i]))
  {
    var s := states[|steps|];
    RunKeepsInvariant(c, states, steps, |steps|);
    assert Invariant(c, s) && |s.cpu| == 2 && |s.link| == 2 && |c.handlers| == 2;
    hide Invariant, QueuesInOrder, CallbacksInOrder, Conserved, Deliverable, CanEnd, CanDispatch, IsRun;
    QueuesAreInOrder(c, s, i);
    DirectionIsConserved(c, s, 1 - i);
    ActivationIsNotStuck(s.cpu[1 - i], s.cpu[i], s.link[1 - i], c.handlers[i]);
  }

  lemma ActivationIsNotStuck(u: Cpu, v: Cpu, link: seq<Word>, handlers: seq<bool>)
    requires Conserved(u, v, link) && QueuesInOrder(v) && |handlers| == QUEUES
    requires CallbacksInOrder(v, handlers)
    requires forall k {:trigger u.accepted[k]} :: 0 <= k < |u.accepted| ==> Deliverable(u.accepted[k])
    ensures v.control == Processing ==> CanEnd(v) || CanDispatch(v, handlers)
  {
    hide For, Announced, Parse, ParseAll, EncodeAll, AllSendable, Deliverable;
    if v.control == Processing && Parse(v.rx).Got? {
      assert v.consumed + v.rx + (link + u.tx) == v.consumed + v.rx + link + u.tx;
      NextIsAccepted(u.accepted, v.consumed, v.rx, link + u.tx, v.handled);
      assert Deliverable(u.accepted[|v.handled|]);
    }
  }

  // ----- runs that go on

  lemma RunGoesOn(c: Config, states: seq<System>, steps: seq<Step>, step: Step)
    requires IsRun(c, states, steps) && Enabled(c, states[|steps|], step)
    ensures IsRun(c, states + [Next(c, states[|steps|], step)], steps + [step])
  {
    hide Enabled, Next;
  }

  lemma OneWordMessage()
    ensures var m := Value32(0, 0); Sendable(m) && Deliverable(m) && |Encode(m)| == 1
  {
  }

  lemma StartIsRun(c: Config)
    requires ValidConfig(c)
    ensures IsRun(c, [Start(c)], [])
  {
  }
}
