// How the state of a CPU may change over a whole call: relations between a value before and a
// value after, which compose.

module FifoProgress {
  import opened FifoLayout
  import opened FifoWire
  import opened Words
  import opened FifoProtocol

  // Nothing that happened is undone.
  ghost predicate Advanced(v: Cpu, u: Cpu) {
    && |v.taken| == QUEUES && |u.taken| == QUEUES
    && v.accepted <= u.accepted && v.written <= u.written && v.read <= u.read
    && v.consumed <= u.consumed && v.handled <= u.handled && v.calls <= u.calls
    && (forall q {:trigger u.taken[q]} :: 0 <= q < QUEUES ==> v.taken[q] <= u.taken[q])
  }

  // `d` is what is left of chain `c` after some blocks were taken from its front.
  predicate Suffix(c: seq<nat>, d: seq<nat>) {
    |d| <= |c| && d == c[|c| - |d|..]
  }

  // No message was processed: words were only added to the RX queue, and the queues of the
  // channels only lost blocks at the front.
  ghost predicate Untouched(l: Layout, v: Cpu, k: Layout, u: Cpu) {
    && Advanced(v, u)
    && u.control == v.control && u.consumed == v.consumed && u.handled == v.handled && u.calls == v.calls
    && v.rx <= u.rx
    && |l.chain| == QUEUES + 1 && |k.chain| == QUEUES + 1
    && (forall q {:trigger k.chain[q]} :: ADDRESS <= q < QUEUES ==> Suffix(l.chain[q], k.chain[q]))
  }

  // A send changes only what concerns the TX queue.
  lemma UntouchedBySend(l: Layout, v: Cpu, k: Layout, u: Cpu)
    requires |v.taken| == QUEUES && |l.chain| == QUEUES + 1 && |k.chain| == QUEUES + 1
    requires u == v.(free := u.free, tx := u.tx, accepted := u.accepted, written := u.written)
    requires v.accepted <= u.accepted && v.written <= u.written
    requires forall q {:trigger k.chain[q]} :: ADDRESS <= q < QUEUES ==> k.chain[q] == l.chain[q]
    ensures Untouched(l, v, k, u)
  {
  }

  lemma AdvancedRefl(v: Cpu)
    requires |v.taken| == QUEUES
    ensures Advanced(v, v)
  {
  }

  lemma UntouchedAdvances(l: Layout, v: Cpu, k: Layout, u: Cpu)
    requires Untouched(l, v, k, u)
    ensures Advanced(v, u) && u.control == v.control
  {
  }

  // An activation: what happens between its begin and its end is progress.
  lemma ControlAdvances(v: Cpu, u: Cpu, w: Cpu)
    requires Advanced(v, u) && u.control == Idle && Advanced(Begin(u), w)
    ensures Advanced(v, w) && (CanEnd(w) ==> Advanced(v, End(w)))
  {
    hide Parse;
    assert Advanced(u, w);
    AdvancedCompose(v, u, w);
  }

  lemma AdvancedCompose(v: Cpu, u: Cpu, w: Cpu)
    requires Advanced(v, u) && Advanced(u, w)
    ensures Advanced(v, w)
  {
    forall q | 0 <= q < QUEUES ensures v.taken[q] <= w.taken[q] {
      assert v.taken[q] <= u.taken[q];
    }
  }

  lemma SuffixCompose(c: seq<nat>, d: seq<nat>, e: seq<nat>)
    requires Suffix(c, d) && Suffix(d, e)
    ensures Suffix(c, e)
  {
  }

  lemma UntouchedCompose(l: Layout, v: Cpu, k: Layout, u: Cpu, j: Layout, w: Cpu)
    requires Untouched(l, v, k, u) && Untouched(k, u, j, w)
    ensures Untouched(l, v, j, w)
  {
    hide Advanced;
    AdvancedCompose(v, u, w);
    forall q | ADDRESS <= q < QUEUES ensures Suffix(l.chain[q], j.chain[q]) {
      assert Suffix(l.chain[q], k.chain[q]);
      SuffixCompose(l.chain[q], k.chain[q], j.chain[q]);
    }
  }

  // The message at the front of the RX queue is one of those on the tape it was read from.
  lemma NextIsOnTape(v: Cpu, later: seq<Word>, tape: seq<Word>)
    requires ReadInOrder(v) && v.read + later == tape && Parse(v.rx).Got?
    ensures |v.handled| < |ParseAll(tape).0| && ParseAll(tape).0[|v.handled|] == Parse(v.rx).message
  {
    hide Parse, ParseAll;
    var k, m := Parse(v.rx).used, Parse(v.rx).message;
    ParseAllStep(v.consumed, v.rx);
    assert v.rx[..k] + v.rx[k..] == v.rx;
    assert tape == (v.consumed + v.rx[..k]) + (v.rx[k..] + later);
    ParseAllConcat(v.consumed + v.rx[..k], v.rx[k..] + later);
    assert (v.handled + [m])[|v.handled|] == m;
  }

  // A dispatch goes forward.
  lemma DispatchAdvances(v: Cpu, handlers: seq<bool>)
    requires CanDispatch(v, handlers)
    ensures Advanced(v, Dispatch(v, handlers)) && |Dispatch(v, handlers).consumed| > |v.consumed|
  {
    hide Parse, Payload;
  }

  // What a dispatch leaves as it is, and where it goes.
  lemma DispatchKeeps(v: Cpu, handlers: seq<bool>)
    requires CanDispatch(v, handlers)
    ensures Parse(v.rx).Got? && Deliverable(Parse(v.rx).message)
    ensures var u := Dispatch(v, handlers); var q := QueueOf(Parse(v.rx).message);
      && u.written == v.written && u.read == v.read && |u.pending| == |u.taken| == QUEUES
      && q < QUEUES && u.calls == v.calls
      && u.handled == v.handled + [Parse(v.rx).message]
      && u.control == if handlers[q] then Due(CallOf(Parse(v.rx).message)) else Processing
  {
    hide Parse, Payload;
  }

  // So does the call of a callback.
  lemma EnterAdvances(v: Cpu)
    requires CanEnter(v) && |v.taken| == QUEUES
    ensures Advanced(v, Enter(v)) && Enter(v).consumed == v.consumed
  {
  }

  // So does the return from a callback.
  lemma ReturnAdvances(v: Cpu)
    requires CanReturn(v)
    ensures Advanced(v, Return(v)) && Return(v).consumed == v.consumed
  {
    hide Payload;
  }

  // A message that was taken from the queue of a channel leaves the other queues alone.
  lemma UntouchedByTake(l: Layout, v: Cpu, k: Layout, q: nat)
    requires CanTake(v, q) && q >= ADDRESS && |l.chain| == |k.chain| == QUEUES + 1
    requires Suffix(l.chain[q], k.chain[q])
    requires forall r {:trigger k.chain[r]} :: 0 <= r <= QUEUES && r != FREE && r != q ==> k.chain[r] == l.chain[r]
    ensures Untouched(l, v, k, Take(v, q))
  {
    hide Payload;
  }

  // Words that were read from the hardware are only added to the RX queue.
  lemma UntouchedByFill(l: Layout, v: Cpu, k: Layout, u: Cpu)
    requires |v.taken| == QUEUES && |l.chain| == |k.chain| == QUEUES + 1
    requires u == v.(free := u.free, rx := u.rx, read := u.read) && v.rx <= u.rx && v.read <= u.read
    requires forall r {:trigger k.chain[r]} :: 0 <= r <= QUEUES && r != FREE && r != RX ==> k.chain[r] == l.chain[r]
    ensures Untouched(l, v, k, u)
  {
  }

  // What a call does: one that is made while nobody processes may process messages; one that is
  // made in a callback leaves them alone.
  ghost predicate Progress(l: Layout, v: Cpu, k: Layout, u: Cpu) {
    if v.control == Idle then u.control == Idle && Advanced(v, u) else Untouched(l, v, k, u)
  }

  lemma UntouchedIsProgress(l: Layout, v: Cpu, k: Layout, u: Cpu)
    requires Untouched(l, v, k, u)
    ensures Progress(l, v, k, u) && u.control == v.control
  {
    hide Advanced;
  }

  lemma ProgressCompose(l: Layout, v: Cpu, k: Layout, u: Cpu, j: Layout, w: Cpu)
    requires Progress(l, v, k, u) && Progress(k, u, j, w)
    ensures Progress(l, v, j, w)
  {
    hide Advanced, Untouched;
    if v.control == Idle {
      AdvancedCompose(v, u, w);
    } else {
      UntouchedAdvances(l, v, k, u);
      UntouchedCompose(l, v, k, u, j, w);
    }
  }

  lemma NoProgress(l: Layout, v: Cpu)
    requires |v.taken| == QUEUES && |l.chain| == QUEUES + 1
    ensures Progress(l, v, l, v)
  {
    UntouchedBySend(l, v, l, v);
  }

  lemma ProgressInCallback(l: Layout, v: Cpu, k: Layout, u: Cpu)
    requires Progress(l, v, k, u) && v.control.Callback?
    ensures Untouched(l, v, k, u)
  {
  }

  // What left a queue does not come back.
  lemma ProgressTaken(l: Layout, v: Cpu, k: Layout, u: Cpu, q: nat)
    requires Progress(l, v, k, u) && q < QUEUES
    ensures |v.taken| == |u.taken| == QUEUES && v.taken[q] <= u.taken[q]
  {
    assert Advanced(v, u);
  }

  lemma AdvancedReads(v: Cpu, u: Cpu)
    requires Advanced(v, u)
    ensures v.read <= u.read
  {
  }

  lemma ProgressReads(l: Layout, v: Cpu, k: Layout, u: Cpu)
    requires Progress(l, v, k, u)
    ensures v.read <= u.read
  {
  }

  lemma UntouchedQueue(l: Layout, v: Cpu, k: Layout, u: Cpu, q: nat)
    requires Untouched(l, v, k, u) && ADDRESS <= q < QUEUES
    ensures |l.chain| == |k.chain| == QUEUES + 1 && Suffix(l.chain[q], k.chain[q])
    ensures u.control == v.control && u.handled == v.handled && u.consumed == v.consumed && u.calls == v.calls
  {
    hide Advanced, Suffix;
    assert k.chain[q] == k.chain[q];
  }

  // A message that goes to a callback through a queue is in that queue.
  lemma DispatchLeavesData(v: Cpu, handlers: seq<bool>)
    requires CanDispatch(v, handlers)
    ensures var u := Dispatch(v, handlers); var q := QueueOf(Parse(v.rx).message);
      |u.pending| == QUEUES && q < QUEUES && (q >= DATA ==> u.pending[q] != [])
  {
    hide Parse, Payload;
  }

  lemma ProgressControl(l: Layout, v: Cpu, k: Layout, u: Cpu)
    requires Progress(l, v, k, u)
    ensures u.control == v.control
  {
  }

  // After the callback, when no data message is left in its queue.
  lemma ReturnsEmpty(v: Cpu, u: Cpu, q: nat)
    requires Advanced(v, u) && u.control.Callback? && u.control.call.q == q < QUEUES
    requires |u.pending| == |u.taken| == QUEUES
    requires q >= DATA ==> u.pending[q] == []
    ensures Return(u) == u.(control := Processing) && Advanced(v, Return(u))
  {
    hide Advanced;
    ReturnAdvances(u);
    AdvancedCompose(v, u, Return(u));
  }
}
