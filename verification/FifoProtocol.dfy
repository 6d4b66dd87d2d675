// What one CPU's side of source/common/fifosystem.c does, one atomic step at a time, on values.
//
// A Cpu holds the contents of the software queues and the history of what went through them.
// The class in FifoCpu keeps such a value up to date while it changes the pool in place; the
// two-CPU system in FifoSystem interleaves the same steps.

module FifoProtocol {
  import opened FifoLayout
  import opened FifoWire
  import opened Words

  // A call of the callback of a queue, with the address, the value, or the number of bytes.
  datatype Call = Call(q: nat, argument: nat)

  // What fifo_rx_processing and the place in fifoProcessRxBuffer say: nobody processes the RX
  // queue; an activation is between two messages, or about to call a callback, or in the callback.
  datatype Control = Idle | Processing | Due(call: Call) | Callback(call: Call)

  datatype Cpu = Cpu(
    free: nat,                      // global_pool_free_words
    tx: seq<Word>,                  // words of the software TX queue
    rx: seq<Word>,                  // words of the software RX queue
    pending: seq<seq<Message>>,     // messages in each channel queue, by queue number
    control: Control,
    accepted: seq<Message>,         // messages that a send function accepted
    written: seq<Word>,             // words that were written to the hardware FIFO
    read: seq<Word>,                // words that were read from the hardware FIFO
    consumed: seq<Word>,            // words that left the RX queue as whole messages
    handled: seq<Message>,          // the messages they made
    calls: seq<Call>,               // the callbacks that were called
    taken: seq<seq<Message>>        // messages that left each channel queue or went to a callback
  )

  // The queue of a channel that a message goes to.
  function QueueOf(m: Message): nat
    requires !m.Special? && m.channel < CHANNELS
  {
    match m
    case Address(c, _) => ADDRESS + c
    case Value32(c, _) => VALUE + c
    case Data(c, _, _) => DATA + c
  }

  // The words of a message that stay in the pool while it is in the queue of a channel.
  function Payload(m: Message): seq<Word> {
    match m
    case Address(_, a) => [a]
    case Value32(_, v) => [v]
    case Data(_, _, ws) => ws
    case Special(_) => []
  }

  function Payloads(ms: seq<Message>): seq<Word> {
    if ms == [] then [] else Payload(ms[0]) + Payloads(ms[1..])
  }

  // The messages that the receiver can put in a queue.
  predicate Deliverable(m: Message) {
    !m.Special? && m.channel < CHANNELS && (m.Data? ==> 0 < m.length && |m.words| == WordCount(m.length))
  }

  // The messages of a stream that belong to queue q, in order.
  function For(ms: seq<Message>, q: nat): seq<Message> {
    if ms == [] then []
    else
      var m := ms[|ms| - 1];
      For(ms[..|ms| - 1], q) + (if Deliverable(m) && QueueOf(m) == q then [m] else [])
  }

  // What the callback for a message is told.
  function CallOf(m: Message): Call
    requires !m.Special? && m.channel < CHANNELS
  {
    Call(QueueOf(m), match m case Address(_, a) => a case Value32(_, w) => w case Data(_, n, _) => n)
  }

  // The calls for the messages of a stream whose queue has a callback, in order.
  function Announced(ms: seq<Message>, handlers: seq<bool>): seq<Call>
    requires |handlers| == QUEUES
  {
    if ms == [] then []
    else
      var m := ms[|ms| - 1];
      Announced(ms[..|ms| - 1], handlers) + (if Deliverable(m) && handlers[QueueOf(m)] then [CallOf(m)] else [])
  }

  // Blocks that a list of queues occupies.
  function Blocks(pending: seq<seq<Message>>): nat {
    if pending == [] then 0 else Blocks(pending[..|pending| - 1]) + |Payloads(pending[|pending| - 1])|
  }

  ghost predicate SentInOrder(v: Cpu) {
    AllSendable(v.accepted) && v.written + v.tx == EncodeAll(v.accepted)
  }

  ghost predicate ReadInOrder(v: Cpu) {
    v.read == v.consumed + v.rx && ParseAll(v.consumed) == (v.handled, [])
  }

  ghost predicate QueuesInOrder(v: Cpu) {
    && |v.pending| == QUEUES && |v.taken| == QUEUES
    && (forall q {:trigger v.pending[q]} :: 0 <= q < QUEUES ==> v.taken[q] + v.pending[q] == For(v.handled, q))
    && (forall i {:trigger v.handled[i]} :: 0 <= i < |v.handled| ==> Deliverable(v.handled[i]))
  }

  // The callback of queue q is due, or runs.
  predicate InCallback(c: Control, q: nat) { (c.Due? || c.Callback?) && c.call.q == q }

  // The calls made, and the one that is due.
  function Calls(v: Cpu): seq<Call> {
    if v.control.Due? then v.calls + [v.control.call] else v.calls
  }

  // Callbacks are called for the messages of their queues, in wire order, with what they are to be told;
  // such a queue holds a message only for the callback that is due or runs, and only if it is a queue of
  // data messages.
  ghost predicate CallbacksInOrder(v: Cpu, handlers: seq<bool>) {
    && |handlers| == QUEUES && |v.pending| == QUEUES
    && Calls(v) == Announced(v.handled, handlers)
    && (forall q {:trigger v.pending[q]} :: 0 <= q < QUEUES && handlers[q] && v.pending[q] != [] ==>
          InCallback(v.control, q) && q >= DATA && |v.pending[q]| == 1)
    && (v.control.Due? || v.control.Callback? ==> v.control.call.q < QUEUES && handlers[v.control.call.q])
  }

  // No block is lost or made up.
  ghost predicate BlocksConserved(v: Cpu, capacity: nat) {
    v.free + |v.tx| + |v.rx| + Blocks(v.pending) == capacity
  }

  ghost predicate Good(v: Cpu, handlers: seq<bool>, capacity: nat) {
    SentInOrder(v) && ReadInOrder(v) && QueuesInOrder(v) && CallbacksInOrder(v, handlers)
    && BlocksConserved(v, capacity)
  }

  // ----- the steps

  function Initial(capacity: nat): Cpu {
    Cpu(capacity, [], [], seq(QUEUES, _ => []), Idle, [], [], [], [], [], [], seq(QUEUES, _ => []))
  }

  // fifoInternalSend puts a whole message in the TX queue, or none of it.
  predicate CanAccept(v: Cpu, m: Message) { Sendable(m) && v.free >= |Encode(m)| }

  function Accept(v: Cpu, m: Message): Cpu
    requires CanAccept(v, m)
  {
    v.(free := v.free - |Encode(m)|, tx := v.tx + Encode(m), accepted := v.accepted + [m])
  }

  // fifoFillTxFifoFromBuffer writes one word to the hardware FIFO.
  predicate CanDrain(v: Cpu) { v.tx != [] }

  function Drain(v: Cpu): Cpu
    requires CanDrain(v)
  {
    v.(free := v.free + 1, tx := v.tx[1..], written := v.written + [v.tx[0]])
  }

  // fifoFillBufferFromRxFifo reads one word from the hardware FIFO.
  predicate CanReceive(v: Cpu) { v.free > 0 }

  function Receive(v: Cpu, w: Word): Cpu
    requires CanReceive(v)
  {
    v.(free := v.free - 1, rx := v.rx + [w], read := v.read + [w])
  }

  // fifoReadRxFifoAndProcessBuffer starts an activation, unless there is one already.
  function Begin(v: Cpu): Cpu
    requires v.control == Idle
  {
    v.(control := Processing)
  }

  predicate CanEnd(v: Cpu) { v.control == Processing && Parse(v.rx).Incomplete? }

  function End(v: Cpu): Cpu
    requires CanEnd(v)
  {
    v.(control := Idle)
  }

  // fifoProcessRxBuffer takes the next message from the RX queue. An address or a value of a
  // channel with a callback is kept for the callback and its blocks are freed; any other message
  // goes to the queue of its channel, and a callback for a data message finds it there.
  predicate CanDispatch(v: Cpu, handlers: seq<bool>) {
    && |v.pending| == QUEUES && |v.taken| == QUEUES && |handlers| == QUEUES
    && v.control == Processing && Parse(v.rx).Got? && Deliverable(Parse(v.rx).message)
  }

  function Dispatch(v: Cpu, handlers: seq<bool>): Cpu
    requires CanDispatch(v, handlers)
  {
    var m, k := Parse(v.rx).message, Parse(v.rx).used;
    var q := QueueOf(m);
    var u := v.(rx := v.rx[k..], consumed := v.consumed + v.rx[..k], handled := v.handled + [m],
                control := if handlers[q] then Due(CallOf(m)) else Processing);
    if handlers[q] && !m.Data? then
      u.(free := v.free + k, taken := v.taken[q := v.taken[q] + [m]])
    else
      assert |Payload(m)| <= k;
      u.(free := v.free + k - |Payload(m)|, pending := v.pending[q := v.pending[q] + [m]])
  }

  // fifoGetAddress, fifoGetValue32 and fifoGetDatamsg take the first message of a queue.
  predicate CanTake(v: Cpu, q: nat) {
    q < QUEUES && |v.pending| == QUEUES && |v.taken| == QUEUES && v.pending[q] != []
  }

  function Take(v: Cpu, q: nat): Cpu
    requires CanTake(v, q)
  {
    var m := v.pending[q][0];
    v.(free := v.free + |Payload(m)|, pending := v.pending[q := v.pending[q][1..]],
       taken := v.taken[q := v.taken[q] + [m]])
  }

  // The callback that is due is called.
  predicate CanEnter(v: Cpu) { v.control.Due? }

  function Enter(v: Cpu): Cpu
    requires CanEnter(v)
  {
    v.(control := Callback(v.control.call), calls := v.calls + [v.control.call])
  }

  // After a callback: a data message that it did not fetch is deleted.
  predicate CanReturn(v: Cpu) {
    v.control.Callback? && |v.pending| == |v.taken| == QUEUES && v.control.call.q < QUEUES
  }

  function Return(v: Cpu): Cpu
    requires CanReturn(v)
  {
    var q := v.control.call.q;
    (if q >= DATA && v.pending[q] != [] then Take(v, q) else v).(control := Processing)
  }

  // ----- what every step keeps

  lemma {:induction false} BlocksUpdate(pending: seq<seq<Message>>, q: nat, ms: seq<Message>)
    requires q < |pending|
    ensures Blocks(pending[q := ms]) == Blocks(pending) - |Payloads(pending[q])| + |Payloads(ms)|
  {
    var n := |pending| - 1;
    if q == n {
      assert pending[q := ms][..n] == pending[..n];
    } else {
      assert pending[q := ms][..n] == pending[..n][q := ms];
      BlocksUpdate(pending[..n], q, ms);
    }
  }

  lemma {:induction false} PayloadsConcat(a: seq<Message>, b: seq<Message>)
    ensures Payloads(a + b) == Payloads(a) + Payloads(b)
  {
    if a == [] {
      assert a + b == b;
    } else {
      assert (a + b)[1..] == a[1..] + b;
      PayloadsConcat(a[1..], b);
    }
  }

  lemma {:induction false} BlocksOfEmpty(pending: seq<seq<Message>>)
    requires forall q :: 0 <= q < |pending| ==> pending[q] == []
    ensures Blocks(pending) == 0
  {
    if pending != [] {
      BlocksOfEmpty(pending[..|pending| - 1]);
    }
  }

  lemma InitialIsGood(handlers: seq<bool>, capacity: nat)
    requires |handlers| == QUEUES
    ensures Good(Initial(capacity), handlers, capacity)
  {
    BlocksOfEmpty(Initial(capacity).pending);
    assert Parse([]) == Incomplete;
  }

  lemma AcceptKeepsGood(v: Cpu, m: Message, handlers: seq<bool>, capacity: nat)
    requires Good(v, handlers, capacity) && CanAccept(v, m)
    ensures Good(Accept(v, m), handlers, capacity)
  {
    hide Encode, Sendable, ParseAll;
    EncodeAllConcat(v.accepted, [m]);
    assert [m][1..] == [] && EncodeAll([m]) == Encode(m) + [] == Encode(m);
    assert v.written + (v.tx + Encode(m)) == (v.written + v.tx) + Encode(m);
  }

  lemma DrainKeepsGood(v: Cpu, handlers: seq<bool>, capacity: nat)
    requires Good(v, handlers, capacity) && CanDrain(v)
    ensures Good(Drain(v), handlers, capacity)
  {
    hide EncodeAll, ParseAll;
    assert (v.written + [v.tx[0]]) + v.tx[1..] == v.written + v.tx;
  }

  lemma ReceiveKeepsGood(v: Cpu, w: Word, handlers: seq<bool>, capacity: nat)
    requires Good(v, handlers, capacity) && CanReceive(v)
    ensures Good(Receive(v, w), handlers, capacity)
  {
    hide EncodeAll, ParseAll;
    assert v.consumed + (v.rx + [w]) == (v.consumed + v.rx) + [w];
  }

  // Beginning and ending an activation change nothing but who processes.
  lemma ControlKeepsGood(v: Cpu, handlers: seq<bool>, capacity: nat)
    requires Good(v, handlers, capacity)
    ensures v.control == Idle ==> Good(Begin(v), handlers, capacity)
    ensures CanEnd(v) ==> Good(End(v), handlers, capacity)
  {
    hide EncodeAll, ParseAll, Parse;
  }

  lemma DispatchReads(v: Cpu, handlers: seq<bool>)
    requires CanDispatch(v, handlers) && ReadInOrder(v)
    ensures ReadInOrder(Dispatch(v, handlers))
  {
    hide Parse, ParseAll, Payload, QueueOf, Deliverable;
    ParseAllStep(v.consumed, v.rx);
    var u, m, k := Dispatch(v, handlers), Parse(v.rx).message, Parse(v.rx).used;
    assert u.rx == v.rx[k..] && u.consumed == v.consumed + v.rx[..k] && u.handled == v.handled + [m] &&
      u.read == v.read;
    assert (v.consumed + v.rx[..k]) + v.rx[k..] == v.consumed + v.rx;
  }

  // What a dispatch does to the queues of the channels and to the callbacks.
  lemma DispatchIs(v: Cpu, handlers: seq<bool>)
    requires CanDispatch(v, handlers)
    ensures var u, m := Dispatch(v, handlers), Parse(v.rx).message; var q := QueueOf(m);
      && Deliverable(m) && q < QUEUES && (m.Data? <==> q >= DATA) && |u.pending| == |u.taken| == QUEUES
      && u.handled == v.handled + [m] && u.calls == v.calls
      && u.control == (if handlers[q] then Due(CallOf(m)) else Processing)
      && (forall r {:trigger u.pending[r]} :: 0 <= r < QUEUES && r != q ==>
            u.pending[r] == v.pending[r] && u.taken[r] == v.taken[r])
      && u.pending[q] == (if handlers[q] && !m.Data? then v.pending[q] else v.pending[q] + [m])
      && u.taken[q] == if handlers[q] && !m.Data? then v.taken[q] + [m] else v.taken[q]
  {
    hide Parse, Payload;
  }

  lemma HandledMore(ms: seq<Message>, m: Message, handlers: seq<bool>, q: nat)
    requires Deliverable(m) && |handlers| == QUEUES
    ensures For(ms + [m], q) == For(ms, q) + if QueueOf(m) == q then [m] else []
    ensures Announced(ms + [m], handlers) == Announced(ms, handlers) + if handlers[QueueOf(m)] then [CallOf(m)] else []
  {
    hide Deliverable, QueueOf, CallOf;
    assert (ms + [m])[..|ms|] == ms;
  }

  lemma DispatchQueues(v: Cpu, handlers: seq<bool>)
    requires CanDispatch(v, handlers) && QueuesInOrder(v) && CallbacksInOrder(v, handlers)
    ensures QueuesInOrder(Dispatch(v, handlers))
  {
    hide Dispatch, Parse, Payload, QueueOf, For, Announced;
    var u, m := Dispatch(v, handlers), Parse(v.rx).message;
    DispatchIs(v, handlers);
    forall q | 0 <= q < QUEUES ensures u.taken[q] + u.pending[q] == For(u.handled, q) {
      HandledMore(v.handled, m, handlers, q);
      assert v.taken[q] + v.pending[q] == For(v.handled, q);
      if q == QueueOf(m) {
        if handlers[q] && !m.Data? {
          assert v.pending[q] == [];
        } else {
          assert v.taken[q] + (v.pending[q] + [m]) == (v.taken[q] + v.pending[q]) + [m];
        }
      }
    }
  }

  lemma DispatchCallbacks(v: Cpu, handlers: seq<bool>)
    requires CanDispatch(v, handlers) && CallbacksInOrder(v, handlers)
    ensures CallbacksInOrder(Dispatch(v, handlers), handlers)
  {
    hide Dispatch, Parse, Payload, Deliverable, For, Announced;
    DispatchIs(v, handlers);
    HandledMore(v.handled, Parse(v.rx).message, handlers, 0);
  }

  lemma DispatchBlocks(v: Cpu, handlers: seq<bool>, capacity: nat)
    requires CanDispatch(v, handlers) && BlocksConserved(v, capacity)
    ensures BlocksConserved(Dispatch(v, handlers), capacity)
  {
    hide Parse;
    var m := Parse(v.rx).message;
    var q := QueueOf(m);
    BlocksUpdate(v.pending, q, v.pending[q] + [m]);
    PayloadsConcat(v.pending[q], [m]);
    assert Payloads([m]) == Payload(m) + [] == Payload(m);
  }

  lemma DispatchKeepsGood(v: Cpu, handlers: seq<bool>, capacity: nat)
    requires Good(v, handlers, capacity) && CanDispatch(v, handlers)
    ensures Good(Dispatch(v, handlers), handlers, capacity)
  {
    DispatchReads(v, handlers);
    DispatchQueues(v, handlers);
    DispatchCallbacks(v, handlers);
    DispatchBlocks(v, handlers, capacity);
    hide ReadInOrder, QueuesInOrder, CallbacksInOrder, BlocksConserved, Parse, EncodeAll;
  }

  lemma TakeKeepsGood(v: Cpu, q: nat, handlers: seq<bool>, capacity: nat)
    requires Good(v, handlers, capacity) && CanTake(v, q)
    ensures Good(Take(v, q), handlers, capacity)
  {
    hide Parse, ParseAll, EncodeAll, Payload, For;
    var m := v.pending[q][0];
    BlocksUpdate(v.pending, q, v.pending[q][1..]);
    assert v.pending[q] == [m] + v.pending[q][1..];
    assert (v.taken[q] + [m]) + v.pending[q][1..] == v.taken[q] + v.pending[q];
  }

  lemma EnterKeepsGood(v: Cpu, handlers: seq<bool>, capacity: nat)
    requires Good(v, handlers, capacity) && CanEnter(v)
    ensures Good(Enter(v), handlers, capacity)
  {
    hide Parse, ParseAll, EncodeAll, Payload, For, Blocks, Announced;
  }

  // The call tells the callback all of an address or a value, and how long a data message is.
  lemma CallTellsMessage(m: Message, n: Message)
    requires Deliverable(m) && Deliverable(n)
    ensures CallOf(m) == CallOf(n) <==>
      m == n || (m.Data? && n.Data? && m.channel == n.channel && m.length == n.length)
  {
  }

  lemma ReturnKeepsGood(v: Cpu, handlers: seq<bool>, capacity: nat)
    requires Good(v, handlers, capacity) && CanReturn(v)
    ensures Good(Return(v), handlers, capacity)
  {
    var q := v.control.call.q;
    if q >= DATA && v.pending[q] != [] {
      TakeKeepsGood(v, q, handlers, capacity);
    }
    hide Parse, ParseAll, EncodeAll, Payload, For, Blocks;
  }
}
