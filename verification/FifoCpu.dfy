// One CPU's global variables and functions of source/common/fifosystem.c.
//
// The pool and the queues are arrays that the methods change in place. The ghost layout `l` and
// the ghost value `v` say what they mean. The hardware FIFOs are word sequences that the other CPU
// empties and fills at any moment (Interference); `future` is all it will ever send.

module FifoCpu {
  import opened FifoLayout
  import opened FifoWire
  import opened Words
  import opened FifoProtocol
  import opened FifoStore
  import opened FifoUpdates
  import opened FifoProgress
  import opened FifoBytes
  import opened Options

  // The length of a data message has 16 bits in a block. FIFO_BUFFER_ENTRIES is 256; in a pool of up to this
  // size all lengths fit.
  const MAX_POOL := 0x4000

  // All messages of a stream can be put in a queue.
  ghost predicate OnlyDeliverable(words: seq<Word>) {
    forall i {:trigger ParseAll(words).0[i]} :: 0 <= i < |ParseAll(words).0| ==> Deliverable(ParseAll(words).0[i])
  }

  class Fifo {
    const next: array<nat>
    const extra: array<Half>
    const data: array<Word>
    const head: array<nat>
    const tail: array<nat>
    var freeWords: nat
    var rxProcessing: bool

    // Queues whose channel has a callback for that kind of message.
    const handlers: seq<bool>

    // The hardware: FIFO contents, their depth, and the send-empty interrupt enable bit.
    const depth: nat
    var hwOut: seq<Word>
    var hwIn: seq<Word>
    var sendEmptyIrq: bool

    // The other CPU: what it took from hwOut and what it will put in hwIn; `tape` is all that it
    // ever puts there.
    var peerTook: seq<Word>
    var future: seq<Word>
    ghost const tape: seq<Word>

    // The calls that the application's callbacks got.
    var called: seq<Call>

    ghost var l: Layout
    ghost var v: Cpu

    ghost predicate Shape() {
      && 0 < next.Length <= MAX_POOL && extra.Length == next.Length && data.Length == next.Length
      && head.Length == QUEUES && tail.Length == QUEUES && |handlers| == QUEUES
      && next != head && next != tail && head != tail
      && extra as object != next && extra as object != head && extra as object != tail
      && data as object != next && data as object != extra && data as object != head && data as object != tail
    }

    ghost function Snap(): Store
      reads this`freeWords, next, extra, data, head, tail
    {
      Store(next[..], extra[..], data[..], head[..], tail[..], freeWords)
    }

    ghost function Pending(q: nat): seq<Message>
      reads this`v
    {
      if q < |v.pending| then v.pending[q] else []
    }

    ghost function Taken(q: nat): seq<Message>
      reads this`v
    {
      if q < |v.taken| then v.taken[q] else []
    }

    // No word is left in the software TX queue, or the hardware FIFO is full; the send-empty interrupt is
    // enabled in the second case only.
    ghost predicate Flushed()
      reads this`hwOut, this`sendEmptyIrq, this`v
    {
      (sendEmptyIrq <==> v.tx != []) && (v.tx != [] ==> |hwOut| >= depth)
    }

    // The words in the hardware FIFO that the pool has room for.
    ghost function Readable(): seq<Word>
      reads this`hwIn, this`v
    {
      hwIn[..if v.free < |hwIn| then v.free else |hwIn|]
    }

    // These words were read, and then no whole message is left in the RX queue, unless a callback runs.
    twostate predicate Polled()
      reads this
    {
      old(v.read + Readable()) <= v.read && (v.control == Idle ==> Parse(v.rx).Incomplete?)
    }

    // Hardware, callbacks and history agree.
    ghost predicate Wired()
      reads this`hwOut, this`hwIn, this`peerTook, this`future, this`called, this`v
    {
      && |hwOut| <= depth && |hwIn| <= depth
      && v.written == peerTook + hwOut
      && v.read + (hwIn + future) == tape && called == v.calls
      && OnlyDeliverable(tape)
    }

    ghost predicate Valid()
      reads this, next, extra, data, head, tail
    {
      && Shape()
      && |l.chain| == QUEUES + 1 && |v.pending| == QUEUES && |v.taken| == QUEUES
      && Represents(Snap(), head[..], l, v) && l.chain[HELD] == []
      && Good(v, handlers, next.Length - 1)
      && Wired()
      && (rxProcessing <==> v.control != Idle)
    }

    // fifoInit, for a pool of the given size (FIFO_BUFFER_ENTRIES) and hardware FIFOs of the given
    // depth. The callbacks are installed before any traffic.
    constructor (size: nat, depth: nat, handlers: seq<bool>, incoming: seq<Word>)
      requires 0 < size <= MAX_POOL && |handlers| == QUEUES
      requires OnlyDeliverable(incoming)
      ensures Valid() && v == Initial(size - 1) && this.handlers == handlers && this.depth == depth && tape == incoming
      ensures next.Length == size && freeWords == size - 1
      ensures fresh(next) && fresh(extra) && fresh(data) && fresh(head) && fresh(tail)
    {
      hide Represents, Good, Parse, ParseAll, FirstLayout, OnlyDeliverable;
      next := new nat[size];
      extra := new Half[size];
      data := new Word[size];
      head := new nat[QUEUES];
      tail := new nat[QUEUES];
      this.depth := depth;
      this.handlers := handlers;
      hwOut, hwIn, peerTook, future, tape := [], [], [], incoming, incoming;
      sendEmptyIrq, rxProcessing, called := false, false, [];
      freeWords := size - 1;
      v := Initial(size - 1);
      l := FirstLayout(size);
      new;
      InitQueues();
      InitialIsGood(handlers, size - 1);
      InitialRepresents(Snap());
    }

    // The loops of fifoInit.
    method InitQueues()
      requires Shape()
      modifies next, extra, data, head, tail
      ensures forall k {:trigger next[k]} :: 0 <= k < next.Length - 1 ==> next[k] == k + 1
      ensures next[next.Length - 1] == TERMINATE && head[FREE] == 0 && tail[FREE] == next.Length - 1
      ensures forall q {:trigger head[q]} :: TX <= q < QUEUES ==> head[q] == TERMINATE
    {
      var i := 0;
      while i < CHANNELS
        invariant 0 <= i <= CHANNELS
        invariant forall k {:trigger head[k]} :: ADDRESS <= k < ADDRESS + i ==> head[k] == TERMINATE
        invariant forall k {:trigger head[k]} :: VALUE <= k < VALUE + i ==> head[k] == TERMINATE
        invariant forall k {:trigger head[k]} :: DATA <= k < DATA + i ==> head[k] == TERMINATE
        modifies head, tail
      {
        head[ADDRESS + i], tail[ADDRESS + i] := TERMINATE, TERMINATE;
        head[DATA + i], tail[DATA + i] := TERMINATE, TERMINATE;
        head[VALUE + i], tail[VALUE + i] := TERMINATE, TERMINATE;
        i := i + 1;
      }
      i := 0;
      while i < next.Length - 1
        invariant 0 <= i <= next.Length - 1
        invariant forall k {:trigger next[k]} :: 0 <= k < i ==> next[k] == k + 1
        modifies next, extra, data
      {
        data[i], next[i], extra[i] := 0, i + 1, 0;
        i := i + 1;
      }
      data[i], next[i], extra[i] := 0, TERMINATE, 0;
      head[FREE], tail[FREE] := 0, i;
      head[TX], tail[TX] := TERMINATE, TERMINATE;
      head[RX], tail[RX] := TERMINATE, TERMINATE;
    }

    // The other CPU takes words that were sent to it and sends words of its own.
    method Interference()
      requires |hwIn| <= depth
      modifies this`hwOut, this`hwIn, this`peerTook, this`future
      ensures peerTook + hwOut == old(peerTook + hwOut) && |hwOut| <= old(|hwOut|)
      ensures hwIn + future == old(hwIn + future) && old(|hwIn|) <= |hwIn| <= depth
    {
      var taken: int := *;
      if 0 <= taken <= |hwOut| {
        peerTook := peerTook + hwOut[..taken];
        hwOut := hwOut[taken..];
      }
      var sent: int := *;
      if 0 <= sent <= |future| && |hwIn| + sent <= depth {
        hwIn := hwIn + future[..sent];
        future := future[sent..];
      }
    }

    // The queues other than the free one, and the held blocks, are the same.
    twostate predicate SameQueues()
      reads this
    {
      && |l.chain| == QUEUES + 1 && |old(l.chain)| == QUEUES + 1
      && forall q {:trigger l.chain[q]} :: TX <= q < QUEUES ==> l.chain[q] == old(l.chain[q])
    }

    // fifo_buffer_alloc_block
    method AllocBlock() returns (entry: nat)
      requires Shape() && Represents(Snap(), head[..], l, v) && l.chain[HELD] == []
      modifies this`freeWords, this`l, next, head
      ensures old(freeWords) == 0 ==> entry == TERMINATE && l == old(l) && Snap() == old(Snap())
      ensures old(freeWords) > 0 ==> Represents(Snap(), head[..], l, v) && SameQueues() && l.chain[HELD] == [entry]
      ensures old(freeWords) > 0 ==> entry < next.Length && freeWords == old(freeWords) - 1
    {
      hide Represents, Sound, Placed, Covered, Move, OnlyDeliverable;
      if freeWords == 0 {
        entry := TERMINATE;
        return;
      }
      AllocateRepresents(Snap(), l, v);
      RepresentsIs(Snap(), head[..], l, v);
      SoundIsPartition(Snap(), head[..], l);
      LayoutShape(next.Length, l);
      MoveChains(l, FREE, 1, HELD);
      ghost var s := Snap();
      freeWords := freeWords - 1;
      entry := head[FREE];
      head[FREE] := next[entry];
      next[entry] := TERMINATE;
      assert Snap() == Allocated(s);
      l := Move(l, FREE, 1, HELD);
    }

    // fifo_buffer_free_block
    method FreeBlock(index: nat)
      requires Shape() && index < next.Length && tail[FREE] < next.Length
      modifies this`freeWords, next, extra, tail
      ensures Snap() == Freed(old(Snap()), index)
    {
      next[index] := TERMINATE;
      extra[index] := 0;
      next[tail[FREE]] := index;
      tail[FREE] := index;
      freeWords := freeWords + 1;
    }

    // fifo_queue_append_list, on the queue with number q
    method AppendList(q: nat, first: nat, last: nat)
      requires Shape() && q < QUEUES && last < next.Length && (head[q] != TERMINATE ==> tail[q] < next.Length)
      modifies next, head, tail
      ensures Snap() == Appended(old(Snap()), q, first, last)
    {
      next[last] := TERMINATE;
      if head[q] == TERMINATE {
        head[q] := first;
        tail[q] := last;
      } else {
        next[tail[q]] := first;
        tail[q] := last;
      }
    }

    // fifo_buffer_wait_block. The source retries, after a wait with interrupts enabled, as long as
    // there is no free block; no caller ever gets there.
    method WaitBlock() returns (block: nat)
      requires Shape() && Represents(Snap(), head[..], l, v) && l.chain[HELD] == [] && freeWords > 0
      modifies this`freeWords, this`l, next, head
      ensures Represents(Snap(), head[..], l, v) && SameQueues() && l.chain[HELD] == [block]
      ensures block < next.Length && freeWords == old(freeWords) - 1
    {
      block := AllocBlock();
      assert block != TERMINATE;
    }

    // The body of the loop of fifoFillTxFifoFromBuffer: one word goes to the hardware FIFO. The
    // loop keeps the head of the queue in a local variable.
    method DrainWord(first: nat) returns (following: nat)
      requires Shape() && |l.chain| == QUEUES + 1
      requires Represents(Snap(), head[..][TX := first], l, v) && Wired() && l.chain[HELD] == []
      requires first != TERMINATE && |hwOut| < depth
      modifies this`freeWords, this`hwOut, this`l, this`v, next, extra, tail
      ensures |l.chain| == QUEUES + 1
      ensures Represents(Snap(), head[..][TX := following], l, v) && Wired() && l.chain[HELD] == []
      ensures old(CanDrain(v)) && v == old(Drain(v))
      ensures forall q {:trigger l.chain[q]} :: 0 <= q <= QUEUES && q != FREE && q != TX ==>
        l.chain[q] == old(l.chain[q])
    {
      hide Represents, Payloads, Sound, OnlyDeliverable;
      ghost var s, heads := Snap(), head[..][TX := first];
      HeadTellsWords(s, heads, l, v, TX);
      DrainRepresents(s, heads, l, v);
      following := next[first];
      hwOut := hwOut + [data[first]];
      FreeBlock(first);
      l := Move(l, TX, 1, FREE);
      v := Drain(v);
      assert heads[TX := following] == head[..][TX := following];
    }

    // fifoFillTxFifoFromBuffer
    method FillTxFifoFromBuffer()
      requires Valid()
      modifies this`freeWords, this`hwOut, this`hwIn, this`peerTook, this`future, this`sendEmptyIrq, this`l, this`v,
               next, extra, head, tail
      ensures Valid()
      ensures v == old(v).(free := v.free, tx := v.tx, written := v.written)
      ensures old(v.written) <= v.written && v.written + v.tx == old(v.written + v.tx)
      ensures Flushed()
      ensures forall q {:trigger l.chain[q]} :: 0 <= q <= QUEUES && q != FREE && q != TX ==>
        l.chain[q] == old(l.chain[q])
    {
      hide Represents, Good, Payloads, OnlyDeliverable;
      var first := head[TX];
      assert head[..][TX := first] == head[..];
      while true
        invariant Shape() && |l.chain| == QUEUES + 1
        invariant Represents(Snap(), head[..][TX := first], l, v) && l.chain[HELD] == []
        invariant Good(v, handlers, next.Length - 1) && Wired()
        invariant head[..] == old(head[..]) && |v.pending| == QUEUES
        invariant v == old(v).(free := v.free, tx := v.tx, written := v.written)
        invariant old(v.written) <= v.written && v.written + v.tx == old(v.written + v.tx)
        invariant forall q {:trigger l.chain[q]} :: 0 <= q <= QUEUES && q != FREE && q != TX ==>
          l.chain[q] == old(l.chain[q])
        decreases |v.tx|
      {
        HeadTellsWords(Snap(), head[..][TX := first], l, v, TX);
        if first == TERMINATE {
          sendEmptyIrq := false;
          break;
        }
        Interference();
        if |hwOut| >= depth {
          sendEmptyIrq := true;
          break;
        }
        DrainKeepsGood(v, handlers, next.Length - 1);
        assert (v.written + [v.tx[0]]) + v.tx[1..] == v.written + v.tx;
        first := DrainWord(first);
      }
      RepresentsHeads(Snap(), head[..][TX := first], l, v, head[..][TX := first]);
      head[TX] := first;
    }

    // The body of the loop of fifoFillBufferFromRxFifo: one word comes from the hardware FIFO,
    // unless the pool is full.
    method ReceiveOne() returns (full: bool)
      requires Shape() && |l.chain| == QUEUES + 1 && |v.pending| == QUEUES
      requires Represents(Snap(), head[..], l, v) && Wired() && l.chain[HELD] == [] && hwIn != []
      modifies this`freeWords, this`hwIn, this`l, this`v, next, data, head, tail
      ensures |l.chain| == QUEUES + 1
      ensures Represents(Snap(), head[..], l, v) && Wired() && l.chain[HELD] == []
      ensures full <==> old(v.free) == 0
      ensures full ==> v == old(v) && l == old(l) && hwIn == old(hwIn)
      ensures !full ==> old(CanReceive(v)) && v == Receive(old(v), old(hwIn[0])) && hwIn == old(hwIn[1..])
      ensures forall q {:trigger l.chain[q]} :: 0 <= q <= QUEUES && q != FREE && q != RX ==>
        l.chain[q] == old(l.chain[q])
    {
      hide Represents, Payloads, Sound, Move, Allocated, Appended, Partition, OnlyDeliverable, Links, Ends;
      RepresentsIs(Snap(), head[..], l, v);
      SoundIsPartition(Snap(), head[..], l);
      var block := AllocBlock();
      full := block == TERMINATE;
      if full {
        return;
      }
      RepresentsIs(Snap(), head[..], l, v);
      SoundIsPartition(Snap(), head[..], l);
      LayoutShape(|Snap().next|, l);
      var w := hwIn[0];
      PutRepresents(Snap(), l, v, RX, block, w);
      MoveChains(l, HELD, 1, RX);
      ghost var s := Snap();
      data[block] := w;
      hwIn := hwIn[1..];
      assert Snap() == s.(data := s.data[block := w]);
      AppendList(RX, block, block);
      RepresentsSame(Snap(), head[..], Move(l, HELD, 1, RX), Put(v, RX, w), Receive(v, w));
      l := Move(l, HELD, 1, RX);
      v := Receive(v, w);
    }

    // fifoFillBufferFromRxFifo
    method FillBufferFromRxFifo()
      requires Valid()
      modifies this`freeWords, this`hwOut, this`hwIn, this`peerTook, this`future, this`l, this`v,
               next, data, head, tail
      ensures Valid()
      ensures v == old(v).(free := v.free, rx := v.rx, read := v.read)
      ensures old(v.rx) <= v.rx && old(v.read) <= v.read
      ensures (hwIn == [] || v.free == 0) && old(v.read + Readable()) <= v.read
      ensures forall q {:trigger l.chain[q]} :: 0 <= q <= QUEUES && q != FREE && q != RX ==>
        l.chain[q] == old(l.chain[q])
    {
      hide Represents, Good, Payloads, OnlyDeliverable;
      while true
        invariant Valid()
        invariant v == old(v).(free := v.free, rx := v.rx, read := v.read)
        invariant old(v.rx) <= v.rx && old(v.read) <= v.read
        invariant |future| <= old(|future|) && v.free + |v.read| == old(v.free + |v.read|)
        invariant forall q {:trigger l.chain[q]} :: 0 <= q <= QUEUES && q != FREE && q != RX ==>
          l.chain[q] == old(l.chain[q])
        decreases |hwIn| + |future|
      {
        Interference();
        if hwIn == [] {
          break;
        }
        if v.free > 0 {
          ReceiveKeepsGood(v, hwIn[0], handlers, next.Length - 1);
        }
        var full := ReceiveOne();
        if full {
          break;
        }
      }
      PrefixesOf(tape, old(v.read + Readable()), v.read);
    }

    lemma PrefixesOf(all: seq<Word>, a: seq<Word>, b: seq<Word>)
      requires a <= all && b <= all && |a| <= |b|
      ensures a <= b
    {
    }

    // One word is added to the software TX queue, as fifoInternalSend does it in two places.
    method AddTxWord(w: Word)
      requires Shape() && |l.chain| == QUEUES + 1 && |v.pending| == QUEUES
      requires Represents(Snap(), head[..], l, v) && l.chain[HELD] == [] && v.free > 0
      modifies this`freeWords, this`l, this`v, next, data, head, tail
      ensures |l.chain| == QUEUES + 1
      ensures Represents(Snap(), head[..], l, v) && l.chain[HELD] == []
      ensures v == Put(old(v), TX, w)
      ensures forall q {:trigger l.chain[q]} :: 0 <= q <= QUEUES && q != FREE && q != TX ==>
        l.chain[q] == old(l.chain[q])
    {
      hide Represents, Payloads, Sound, Move, Partition, OnlyDeliverable;
      RepresentsIs(Snap(), head[..], l, v);
      SoundIsPartition(Snap(), head[..], l);
      var block := WaitBlock();
      RepresentsIs(Snap(), head[..], l, v);
      SoundIsPartition(Snap(), head[..], l);
      LayoutShape(|Snap().next|, l);
      HeldIsTerminated(Snap(), head[..], l, block);
      PutRepresents(Snap(), l, v, TX, block, w);
      MoveChains(l, HELD, 1, TX);
      ghost var s := Snap();
      assert s.next[block := TERMINATE] == s.next;
      if head[TX] == TERMINATE {
        head[TX] := block;
      } else {
        next[tail[TX]] := block;
      }
      data[block] := w;
      tail[TX] := block;
      assert Snap() == Appended(s.(data := s.data[block := w]), TX, block, block);
      l := Move(l, HELD, 1, TX);
      v := Put(v, TX, w);
    }

    // The part of fifoInternalSend that adds the words: there is room for all of them.
    method EnqueueMessage(first: Word, wordlist: seq<Word>, ghost m: Message)
      requires Valid() && v.free > |wordlist|
      requires Sendable(m) && Encode(m) == [first] + wordlist
      modifies this`freeWords, this`l, this`v, next, data, head, tail
      ensures Valid() && old(CanAccept(v, m)) && v == Accept(old(v), m)
      ensures forall q {:trigger l.chain[q]} :: 0 <= q <= QUEUES && q != FREE && q != TX ==>
        l.chain[q] == old(l.chain[q])
    {
      hide Represents, Good, Payloads, Encode, Sendable, OnlyDeliverable;
      ghost var v0 := v;
      AcceptKeepsGood(v, m, handlers, next.Length - 1);
      AddTxWord(first);
      var count := 0;
      while count < |wordlist|
        invariant count <= |wordlist|
        invariant Shape() && |l.chain| == QUEUES + 1 && |v.pending| == QUEUES
        invariant Represents(Snap(), head[..], l, v) && l.chain[HELD] == []
        invariant v == v0.(free := v0.free - 1 - count, tx := v0.tx + ([first] + wordlist[..count]))
        invariant forall q {:trigger l.chain[q]} :: 0 <= q <= QUEUES && q != FREE && q != TX ==>
          l.chain[q] == old(l.chain[q])
      {
        assert wordlist[..count + 1] == wordlist[..count] + [wordlist[count]];
        AddTxWord(wordlist[count]);
        count := count + 1;
      }
      assert wordlist[..count] == wordlist;
      RepresentsSame(Snap(), head[..], l, v, Accept(v0, m));
      v := Accept(v0, m);
    }

    // fifoInternalSend, for the words of message m. (If there are too many extra words there is
    // no such message.)
    method InternalSend(first: Word, wordlist: seq<Word>, ghost m: Message) returns (ok: bool)
      requires Valid()
      requires |wordlist| <= MAX_DATA_BYTES / 4 ==> Sendable(m) && Encode(m) == [first] + wordlist
      modifies this`freeWords, this`hwOut, this`hwIn, this`peerTook, this`future, this`sendEmptyIrq, this`l, this`v,
               next, extra, data, head, tail
      ensures Valid() && Untouched(old(l), old(v), l, v)
      ensures ok ==> |wordlist| <= MAX_DATA_BYTES / 4 && v.accepted == old(v.accepted) + [m]
                     && v.written + v.tx == old(v.written + v.tx) + ([first] + wordlist)
      ensures !ok ==> v.accepted == old(v.accepted) && v.written + v.tx == old(v.written + v.tx)
      ensures !ok ==> |wordlist| > MAX_DATA_BYTES / 4 || v.free < |wordlist| + 1
      ensures old(v.free) > |wordlist| && |wordlist| <= MAX_DATA_BYTES / 4 ==> ok
      ensures |wordlist| <= MAX_DATA_BYTES / 4 ==> Flushed()
    {
      hide Represents, Good, Payloads, Encode, Sendable, Untouched, OnlyDeliverable;
      ok := false;
      UntouchedBySend(l, v, l, v);
      if |wordlist| > MAX_DATA_BYTES / 4 {
        return;
      }
      FreeIsFree();
      if freeWords < |wordlist| + 1 {
        FillTxFifoFromBuffer();
        FreeIsFree();
        if freeWords < |wordlist| + 1 {
          UntouchedBySend(old(l), old(v), l, v);
          return;
        }
      }
      ghost var v0 := v;
      EnqueueMessage(first, wordlist, m);
      assert v0.written + (v0.tx + Encode(m)) == (v0.written + v0.tx) + Encode(m);
      FillTxFifoFromBuffer();
      UntouchedBySend(old(l), old(v), l, v);
      ok := true;
    }

    lemma FreeIsFree()
      requires Valid()
      ensures freeWords == v.free
    {
      hide Good, OnlyDeliverable;
    }

    // One block of queue q is freed while the head of the queue is kept in a local variable.
    method FreeFirst(block: nat, ghost q: nat, ghost s0: Store, ghost heads0: seq<nat>, ghost l0: Layout, ghost i: nat)
      returns (following: nat)
      requires Shape() && Represents(s0, heads0, l0, v)
      requires ADDRESS <= q < QUEUES && Partly(s0, l0, Snap(), head[..][q := block], l, v, q, i) && i < |l0.chain[q]|
      modifies this`freeWords, this`l, next, extra, tail
      ensures Partly(s0, l0, Snap(), head[..][q := following], l, v, q, i + 1) && block == l0.chain[q][i]
    {
      hide Represents, Partly, Move, OnlyDeliverable;
      ghost var s, heads := Snap(), head[..][q := block];
      PartlyStep(s0, heads0, l0, s, heads, l, v, q, i);
      following := next[block];
      FreeBlock(block);
      l := Move(l, q, 1, FREE);
      assert heads[q := following] == head[..][q := following];
    }

    // The new head is stored: the message is out of the queue.
    method FinishTake(block: nat, q: nat, ghost s0: Store, ghost heads0: seq<nat>, ghost l0: Layout, ghost i: nat)
      requires Shape() && Represents(s0, heads0, l0, v) && l0.chain[HELD] == []
      requires ADDRESS <= q < QUEUES && Partly(s0, l0, Snap(), head[..][q := block], l, v, q, i)
      requires CanTake(v, q) && i == |Payload(v.pending[q][0])|
      requires Good(v, handlers, next.Length - 1) && Wired() && (rxProcessing <==> v.control != Idle)
      modifies this`v, head
      ensures Valid() && v == old(Take(v, q)) && Suffix(l0.chain[q], l.chain[q])
      ensures forall r {:trigger l.chain[r]} :: 0 <= r <= QUEUES && r != FREE && r != q ==> l.chain[r] == l0.chain[r]
    {
      hide Represents, Opened, Good, OnlyDeliverable;
      PartlyEnd(s0, heads0, l0, Snap(), head[..][q := block], l, v, q, i);
      RepresentsHeads(Snap(), head[..][q := block], l, Take(v, q), head[..][q := block]);
      TakeKeepsGood(v, q, handlers, next.Length - 1);
      v := Take(v, q);
      head[q] := block;
    }

    // The critical part of fifoGetAddress and fifoGetValue32, on the queue with number q.
    method TakeWord(q: nat) returns (word: Word)
      requires Valid() && ADDRESS <= q < DATA && head[q] != TERMINATE
      modifies this`freeWords, this`l, this`v, next, extra, head, tail
      ensures Valid() && old(CanTake(v, q)) && v == old(Take(v, q)) && [word] == old(Payload(v.pending[q][0]))
      ensures Suffix(old(l.chain[q]), l.chain[q])
      ensures forall r {:trigger l.chain[r]} :: 0 <= r <= QUEUES && r != FREE && r != q ==>
        l.chain[r] == old(l.chain[r])
    {
      hide Represents, Partly, QueuesInOrder, SentInOrder, ReadInOrder, CallbacksInOrder, BlocksConserved,
        OnlyDeliverable;
      HeadTellsMessages(Snap(), head[..], l, v, q);
      ghost var s0, heads0, l0 := Snap(), head[..], l;
      var block := head[q];
      assert heads0[q := block] == heads0;
      PartlyStart(s0, heads0, l0, v, q);
      word := data[block];
      assert word == Payload(v.pending[q][0])[0];
      var following := FreeFirst(block, q, s0, heads0, l0, 0);
      FinishTake(following, q, s0, heads0, l0, 1);
    }

    // The critical part of fifoGetDatamsg, on the queue with number q: as many bytes as fit are
    // copied, and all blocks of the message are freed.
    method TakeDatamsg(q: nat, buffersize: int) returns (bytes: seq<Byte>)
      requires Valid() && DATA <= q < QUEUES && head[q] != TERMINATE
      modifies this`freeWords, this`l, this`v, next, extra, head, tail
      ensures Valid() && old(CanTake(v, q)) && v == old(Take(v, q))
      ensures IsCopy(old(Payload(v.pending[q][0])), buffersize, bytes)
      ensures Suffix(old(l.chain[q]), l.chain[q])
      ensures forall r {:trigger l.chain[r]} :: 0 <= r <= QUEUES && r != FREE && r != q ==>
        l.chain[r] == old(l.chain[r])
    {
      hide Represents, Partly, QueuesInOrder, SentInOrder, ReadInOrder, CallbacksInOrder, BlocksConserved,
        WordBytes, Bytes, Shifted, OnlyDeliverable;
      HeadTellsMessages(Snap(), head[..], l, v, q);
      ghost var s0, heads0, l0 := Snap(), head[..], l;
      ghost var words := Payload(v.pending[q][0]);
      var block := head[q];
      assert heads0[q := block] == heads0;
      PartlyStart(s0, heads0, l0, v, q);
      PartlyHead(s0, l0, s0, heads0, l0, v, q, 0);
      var numWords := WordCount(extra[block]);
      bytes := [];
      var i := 0;
      BytesLength(words);
      BytesLength(words[..0]);
      while i < numWords
        invariant 0 <= i <= numWords == |words| <= |l0.chain[q]| && (i < numWords ==> block == l0.chain[q][i])
        invariant Partly(s0, l0, Snap(), head[..][q := block], l, v, q, i) && head[..] == heads0
        invariant v == old(v) && data[..] == s0.data
        invariant |Bytes(words[..i])| == 4 * i && bytes == Bytes(words[..i])[..Clamp(buffersize, 4 * i)]
      {
        assert data[block] == words[i];
        var some := CopyWord(data[block], buffersize - |bytes|);
        CopyStep(words, i, buffersize);
        bytes := bytes + some;
        block := FreeFirst(block, q, s0, heads0, l0, i);
        i := i + 1;
        PartlyHead(s0, l0, Snap(), head[..][q := block], l, v, q, i);
        if block == TERMINATE {
          break;
        }
      }
      assert words[..i] == words;
      FinishTake(block, q, s0, heads0, l0, i);
    }

    // ----- receiving

    // An address or a value is handed on: the end of two branches of fifoProcessRxBuffer. The block
    // at the front of the RX queue is freed for the callback, or is moved to the queue.
    method HandOnBlock(block: nat, q: nat, word: Word)
      requires Shape() && block < next.Length && tail[FREE] < next.Length
      requires CanPassOn(Snap(), head[..][RX := block], q)
      modifies this`freeWords, next, extra, data, head, tail
      ensures var s, heads := old(Snap()), old(head[..])[RX := block];
        && CanPassOn(s, heads, q)
        && Snap() == if handlers[q] then Freed(s, block).(head := heads[RX := s.next[block]])
                     else PassedOn(s, heads, q, word)
    {
      ghost var s, heads := Snap(), head[..][RX := block];
      head[RX] := next[block];
      assert head[..] == heads[RX := s.next[block]];
      if handlers[q] {
        FreeBlock(block);
        FreedHeads(s, block, head[..]);
      } else {
        data[block] := word;
        assert Snap() == s.(data := s.data[block := word], head := head[..]);
        AppendList(q, block, block);
      }
    }

    // The block stands for message m; v0 is the state before the message.
    method HandOn(block: nat, q: nat, word: Word, ghost m: Message, ghost v0: Cpu)
      requires Shape() && |l.chain| == QUEUES + 1 && Represents(Snap(), head[..][RX := block], l, v) &&
        l.chain[HELD] == []
      requires Wired() && rxProcessing && v.rx != []
      requires v.written == v0.written && v.read == v0.read && v.calls == v0.calls
      requires Good(v0, handlers, next.Length - 1) && CanDispatch(v0, handlers) && Parse(v0.rx).message == m
      requires !m.Data? && Payload(m) == [word] && q == QueueOf(m)
      requires |v.pending| == QUEUES
      requires SameStored(if handlers[q] then Drop(v, RX) else Queued(v, 1, m), Dispatch(v0, handlers))
      modifies this`freeWords, this`l, this`v, next, extra, data, head, tail
      ensures Valid() && v == Dispatch(v0, handlers)
    {
      hide Represents, Sound, Good, Payloads, Move, Freed, PassedOn, CanPassOn, CanDispatch, Payload, Dispatch, Drop,
        Queued, OnlyDeliverable;
      ghost var s, heads := Snap(), head[..][RX := block];
      RepresentsIs(s, heads, l, v);
      SoundIsPartition(s, heads, l);
      LayoutShape(|s.next|, l);
      DispatchKeepsGood(v0, handlers, next.Length - 1);
      DispatchKeeps(v0, handlers);
      HeadTellsWords(s, heads, l, v, RX);
      DropRepresents(s, heads, l, v, RX);
      PassOnRepresents(s, heads, l, v, m, word);
      MoveChains(l, RX, 1, FREE);
      MoveChains(l, RX, 1, q);
      HandOnBlock(block, q, word);
      if handlers[q] {
        RepresentsHeads(Freed(s, block), head[..], Move(l, RX, 1, FREE), Drop(v, RX), head[..]);
        l := Move(l, RX, 1, FREE);
        RepresentsSame(Snap(), head[..], l, Drop(v, RX), Dispatch(v0, handlers));
      } else {
        l := Move(l, RX, 1, q);
        RepresentsSame(Snap(), head[..], l, Queued(v, 1, m), Dispatch(v0, handlers));
      }
      v := Dispatch(v0, handlers);
    }

    // A whole data message goes to the queue of its channel: the end of the last branch of
    // fifoProcessRxBuffer. `end` is the last block of the message.
    method FileBlocks(block: nat, end: nat, q: nat, numBytes: Half)
      requires Shape() && block == head[RX] && block < next.Length && next[block] < next.Length
      requires CanFile(Snap(), head[..], q, next[block], end)
      modifies this`freeWords, next, extra, head, tail
      ensures old(next[block]) < next.Length && CanFile(old(Snap()), old(head[..]), q, old(next[block]), end)
      ensures Snap() == Filed(old(Snap()), old(head[..]), q, old(next[block]), end, numBytes)
    {
      ghost var s, h := Snap(), head[..][RX := next[end]];
      FreedKeepsOthers(s.(head := h), block, q);
      head[RX] := next[end];
      assert head[..] == h;
      var tmp := next[block];
      FreeBlock(block);
      extra[tmp] := numBytes;
      assert Snap() == Freed(s.(head := h), block).(extra := Freed(s.(head := h), block).extra[tmp := numBytes]);
      AppendList(q, tmp, end);
    }

    lemma RxIsBounded()
      requires Valid()
      ensures |v.rx| < next.Length
    {
      hide Represents, Parse, OnlyDeliverable, SentInOrder, ReadInOrder, QueuesInOrder, CallbacksInOrder;
    }

    method FileData(block: nat, end: nat, q: nat, numBytes: nat, ghost n: nat)
      requires Valid() && CanDispatch(v, handlers)
      requires Parse(v.rx).message.Data? && Parse(v.rx).message.length == numBytes && q == QueueOf(Parse(v.rx).message)
      requires n == |Parse(v.rx).message.words| && n < |v.rx| && v.rx[1..n + 1] == Parse(v.rx).message.words
      requires Parse(v.rx).used == n + 1 && n == WordCount(numBytes)
      requires block == head[RX] && n < |l.chain[RX]| && end == l.chain[RX][n]
      modifies this`freeWords, this`l, this`v, next, extra, head, tail
      ensures Valid() && v == old(Dispatch(v, handlers))
    {
      hide Represents, Good, Dispatch, Parse, QueueOf, Filed, CanFile, FiledLayout, Deliverable, OnlyDeliverable;
      ghost var v0 := v;
      FileDispatches(Snap(), head[..], l, v, n, Parse(v.rx).message, handlers);
      DispatchKeepsGood(v, handlers, next.Length - 1);
      DispatchKeeps(v, handlers);
      RxIsBounded();
      FileBlocks(block, end, q, numBytes);
      l := FiledLayout(l, n, q);
      v := Dispatch(v0, handlers);
    }

    // ----- one round of the loop of fifoProcessRxBuffer, up to the callback

    // The blocks of the RX queue follow each other.
    lemma RxBlock(i: nat)
      requires Valid() && i < |v.rx|
      ensures |l.chain[RX]| == |v.rx| && l.chain[RX][i] < next.Length && data[l.chain[RX][i]] == v.rx[i]
      ensures next[l.chain[RX][i]] == if i + 1 < |v.rx| then l.chain[RX][i + 1] else TERMINATE
      ensures i + 1 < |v.rx| ==> l.chain[RX][i + 1] < next.Length
      ensures head[RX] == l.chain[RX][0] && tail[FREE] < next.Length
    {
      hide Represents, Good, Sound, Placed, Covered, OnlyDeliverable;
      var s := Snap();
      RepresentsIs(s, head[..], l, v);
      SoundIsPartition(s, head[..], l);
      HeadTellsWords(s, head[..], l, v, RX);
      HeadTells(s, head[..], l, FREE);
      ChainIsBounded(s, head[..], l, RX);
      CutPoint(s, head[..], l, RX, i + 1);
      StoresOf(s, head[..], l, v, RX);
      assert Contents(s.data, l.chain[RX])[i] == v.rx[i];
    }

    // The next whole message can be delivered.
    lemma NextIsDeliverable()
      requires Valid() && v.control == Processing && Parse(v.rx).Got?
      ensures CanDispatch(v, handlers)
    {
      hide Represents, Parse, ParseAll, For, Announced;
      NextIsOnTape(v, hwIn + future, tape);
    }

    method DispatchAddress(block: nat, word: Word) returns (address: Word)
      requires Valid() && v.control == Processing && v.rx != [] && block == head[RX] && word == v.rx[0]
      requires IsAddress(word) && !IsSpecial(word)
      modifies this`freeWords, this`l, this`v, next, extra, data, head, tail
      ensures Valid() && Parse(old(v.rx)).Got? && CanDispatch(old(v), handlers) && v == Dispatch(old(v), handlers)
      ensures Parse(old(v.rx)).message == Address(Channel(word), address)
    {
      hide Represents, Good, Parse, IsAddress, IsSpecial, IsValue32, HasExtra, UnpackAddress, UnpackLength,
        Deliverable, OnlyDeliverable;
      ParseByHeader(v.rx);
      NextIsDeliverable();
      var channel := Channel(word);
      address := UnpackAddress(word);
      assert head[..][RX := block] == head[..];
      StoredByDispatch(v, handlers);
      HandOn(block, ADDRESS + channel, address, Address(channel, address), v);
    }

    method DispatchValue(block: nat, word: Word) returns (done: bool, value: Word)
      requires Valid() && v.control == Processing && v.rx != [] && block == head[RX] && word == v.rx[0]
      requires !IsAddress(word) && IsValue32(word)
      modifies this`freeWords, this`l, this`v, next, extra, data, head, tail
      ensures Valid()
      ensures !done ==> v == old(v) && Parse(v.rx).Incomplete?
      ensures done ==> Parse(old(v.rx)).Got? && CanDispatch(old(v), handlers) && v == Dispatch(old(v), handlers)
      ensures done ==> Parse(old(v.rx)).message == Value32(Channel(word), value)
    {
      hide Represents, Good, Parse, IsAddress, IsSpecial, IsValue32, HasExtra, UnpackValue32, UnpackLength, Deliverable,
        Move, Freed, OnlyDeliverable;
      ParseByHeader(v.rx);
      RxBlock(0);
      var channel := Channel(word);
      ghost var v0 := v;
      assert head[..][RX := block] == head[..];
      if HasExtra(word) {
        var following := next[block];
        if following == TERMINATE {
          done, value := false, 0;
          return;
        }
        RxBlock(1);
        NextIsDeliverable();
        StoredByDispatch(v, handlers);
        DropRepresents(Snap(), head[..], l, v, RX);
        RxShape();
        MoveChains(l, RX, 1, FREE);
        ghost var heads := head[..][RX := following];
        FreeBlock(block);
        l := Move(l, RX, 1, FREE);
        v := Drop(v, RX);
        value := data[following];
        HandOn(following, VALUE + channel, value, Value32(channel, value), v0);
      } else {
        NextIsDeliverable();
        StoredByDispatch(v, handlers);
        value := UnpackValue32(word);
        HandOn(block, VALUE + channel, value, Value32(channel, value), v);
      }
      done := true;
    }

    lemma RxShape()
      requires Valid()
      ensures |l.base| == QUEUES + 1 && |l.rank| == |l.where|
    {
      hide Represents, Good, Sound, OnlyDeliverable;
      RepresentsIs(Snap(), head[..], l, v);
      SoundIsPartition(Snap(), head[..], l);
    }

    method DispatchData(block: nat, word: Word) returns (done: bool, numBytes: nat)
      requires Valid() && v.control == Processing && v.rx != [] && block == head[RX] && word == v.rx[0]
      requires !IsAddress(word) && !IsValue32(word)
      modifies this`freeWords, this`l, this`v, next, extra, data, head, tail
      ensures Valid()
      ensures !done ==> v == old(v) && Parse(v.rx).Incomplete?
      ensures done ==> Parse(old(v.rx)).Got? && CanDispatch(old(v), handlers) && v == Dispatch(old(v), handlers)
      ensures done ==> var m := Parse(old(v.rx)).message; m.Data? && m.channel == Channel(word) && m.length == numBytes
    {
      hide Represents, Good, Parse, IsAddress, IsSpecial, IsValue32, HasExtra, UnpackLength, Deliverable,
        OnlyDeliverable;
      ParseByHeader(v.rx);
      RxBlock(0);
      var channel := Channel(word);
      numBytes := UnpackLength(word);
      var numWords := WordCount(numBytes);
      var count, end := 0, block;
      while count < numWords && next[end] != TERMINATE
        invariant 0 <= count <= numWords && count < |v.rx| == |l.chain[RX]| && end == l.chain[RX][count]
        invariant end < next.Length && next[end] == if count + 1 < |v.rx| then l.chain[RX][count + 1] else TERMINATE
        invariant count + 1 < |v.rx| ==> l.chain[RX][count + 1] < next.Length
        modifies {}
      {
        RxBlock(count + 1);
        end := next[end];
        count := count + 1;
      }
      if count != numWords {
        done := false;
        return;
      }
      NextIsDeliverable();
      FileData(block, end, DATA + channel, numBytes, numWords);
      done := true;
    }

    // The calls that a message makes: if there is a callback, one, with the address, the value or the number
    // of bytes.
    function Announcement(m: Message): seq<Call>
      requires |handlers| == QUEUES && Deliverable(m)
    {
      match m
      case Address(c, a) => if handlers[ADDRESS + c] then [Call(ADDRESS + c, a)] else []
      case Value32(c, w) => if handlers[VALUE + c] then [Call(VALUE + c, w)] else []
      case Data(c, n, _) => if handlers[DATA + c] then [Call(DATA + c, n)] else []
    }

    // One round of the loop of fifoProcessRxBuffer. It ends the loop when the next message is
    // incomplete. Callbacks run with interrupts enabled.
    method ProcessMessage() returns (done: bool)
      requires Valid() && v.control == Processing && head[RX] != TERMINATE
      modifies this`freeWords, this`rxProcessing, this`called, this`hwOut, this`hwIn, this`peerTook, this`future,
               this`sendEmptyIrq, this`l, this`v, next, extra, data, head, tail
      ensures Valid() && v.control == Processing && Advanced(old(v), v)
      ensures !done ==> Parse(v.rx).Incomplete? && v == old(v) && called == old(called)
      ensures done ==> |v.consumed| > |old(v.consumed)| && Parse(old(v.rx)).Got?
      ensures done ==>
        var m := Parse(old(v.rx)).message;
        v.handled == old(v.handled) + [m] && Deliverable(m) && called == old(called) + Announcement(m)
      decreases 3, 0
    {
      hide Represents, Good, Parse, IsAddress, IsSpecial, IsValue32, HasExtra, Deliverable, Advanced, Dispatch,
        OnlyDeliverable;
      ghost var v0 := v;
      AdvancedRefl(v);
      RxHead();
      var block := head[RX];
      RxBlock(0);
      var word := data[block];
      var channel := Channel(word);
      var q: nat;
      var argument: nat;
      ParseByHeader(v.rx);
      if IsSpecial(word) {
        // The source resets or crashes. The other CPU sends no special commands here.
        NextIsDeliverable();
        SpecialIsUndeliverable(v.rx);
        assert false;
      } else if IsAddress(word) {
        q := ADDRESS + channel;
        argument := DispatchAddress(block, word);
        done := true;
      } else if IsValue32(word) {
        q := VALUE + channel;
        done, argument := DispatchValue(block, word);
      } else {
        q := DATA + channel;
        done, argument := DispatchData(block, word);
      }
      if done {
        DispatchAdvances(v0, handlers);
        DispatchKeeps(v0, handlers);
        if handlers[q] {
          ghost var v1 := v;
          DispatchLeavesData(v0, handlers);
          CallbackPhase(q, argument);
          AdvancedCompose(v0, v1, v);
        }
      }
    }

    lemma RxHead()
      requires Valid()
      ensures head[RX] == TERMINATE <==> v.rx == []
    {
      hide Represents, Good, Sound, OnlyDeliverable;
      HeadTellsWords(Snap(), head[..], l, v, RX);
    }

    // The callback of a message runs. If it was for a data message that it did not fetch, the
    // message is deleted; no other message is.
    method CallbackPhase(q: nat, argument: nat)
      requires Valid() && v.control == Due(Call(q, argument)) && q < QUEUES && (q >= DATA ==> v.pending[q] != [])
      modifies this`freeWords, this`rxProcessing, this`called, this`hwOut, this`hwIn, this`peerTook, this`future,
               this`sendEmptyIrq, this`l, this`v, next, extra, data, head, tail
      ensures Valid() && v.control == Processing && Advanced(old(v), v)
      ensures v.consumed == old(v.consumed) && v.handled == old(v.handled)
      ensures called == old(called) + [Call(q, argument)]
      ensures q >= DATA ==> v.pending[q] == [] && old(v.taken[q]) + old(v.pending[q]) <= v.taken[q]
      decreases 2, 2
    {
      hide Represents, Good, Parse, Untouched, Advanced, Return, OnlyDeliverable;
      ghost var v0 := v;
      if q >= DATA {
        DataCallback(q, argument);
      } else {
        RunCallback(q, argument);
        EnterAdvances(v0);
        UntouchedAdvances(old(l), Enter(v0), l, v);
        UntouchedQueue(old(l), Enter(v0), l, v, ADDRESS);
        AdvancedCompose(v0, Enter(v0), v);
      }
      ReturnsEmpty(v0, v, q);
      ReturnKeepsGood(v, handlers, next.Length - 1);
      RepresentsSame(Snap(), head[..], l, v, Return(v));
      v := Return(v);
    }

    // The callback for a data message, and then the check whether it was fetched: the head of the
    // queue is still the same block.
    method DataCallback(q: nat, numBytes: nat)
      requires Valid() && v.control == Due(Call(q, numBytes)) && DATA <= q < QUEUES && v.pending[q] != []
      modifies this`freeWords, this`rxProcessing, this`called, this`hwOut, this`hwIn, this`peerTook, this`future,
               this`sendEmptyIrq, this`l, this`v, next, extra, data, head, tail
      ensures Valid() && v.control == Callback(Call(q, numBytes)) && Advanced(old(v), v)
      ensures v.consumed == old(v.consumed) && v.handled == old(v.handled)
      ensures called == old(called) + [Call(q, numBytes)]
      ensures v.pending[q] == [] && old(v.taken[q]) + old(v.pending[q]) <= v.taken[q]
      decreases 2, 1
    {
      hide Represents, SentInOrder, ReadInOrder, QueuesInOrder, CallbacksInOrder, BlocksConserved, Parse, Untouched,
        Advanced,
        Progress, Bytes, OnlyDeliverable;
      ghost var s0, heads0, l0, v0 := Snap(), head[..], l, v;
      var block := head[q];
      RunCallback(q, numBytes);
      EnterAdvances(v0);
      UntouchedAdvances(l0, Enter(v0), l, v);
      UntouchedQueue(l0, Enter(v0), l, v, q);
      AdvancedCompose(v0, Enter(v0), v);
      UnfetchedIsSame(s0, heads0, l0, v0, Snap(), head[..], l, v, handlers, q);
      if block == head[q] {
        // It is the announced message that is deleted, no other.
        assert v.pending[q] == v0.pending[q];
        ghost var l1, v1 := l, v;
        var copied, bytes := GetDatamsg(q - DATA, 0);
        ProgressInCallback(l1, v1, l, v);
        UntouchedAdvances(l1, v1, l, v);
        UntouchedQueue(l1, v1, l, v, q);
        AdvancedCompose(v0, v1, v);
      }
      assert v.pending[q] == [];
      EmptyWasTaken(v0, v, q);
    }

    // The callback of queue q is called. It does anything that it may do, any number of times, and interrupts
    // come at any time: it sends, it gets, it checks, and the hardware FIFO is read and filled.
    method RunCallback(q: nat, argument: nat)
      requires Valid() && v.control == Due(Call(q, argument))
      modifies this`freeWords, this`rxProcessing, this`called, this`hwOut, this`hwIn, this`peerTook, this`future,
               this`sendEmptyIrq, this`l, this`v, next, extra, data, head, tail
      ensures Valid() && v.control == Callback(Call(q, argument)) && called == old(called) + [Call(q, argument)]
      ensures Untouched(old(l), Enter(old(v)), l, v)
      decreases 2, 0
    {
      hide Represents, Good, Untouched, Progress, OnlyDeliverable;
      ghost var v0 := Enter(v);
      EnterKeepsGood(v, handlers, next.Length - 1);
      called := called + [Call(q, argument)];
      RepresentsSame(Snap(), head[..], l, v, v0);
      v := v0;
      UntouchedBySend(l, v, l, v);
      var n: int := *;
      while n > 0
        invariant Valid() && v.control == v0.control && Untouched(old(l), v0, l, v)
      {
        ghost var l1, v1 := l, v;
        AnyCall();
        ProgressInCallback(l1, v1, l, v);
        UntouchedAdvances(l1, v1, l, v);
        UntouchedCompose(old(l), v0, l1, v1, l, v);
        n := n - 1;
      }
      UntouchedQueue(old(l), v0, l, v, ADDRESS);
    }

    // Any function that may be called, with any arguments, or an interrupt.
    method AnyCall()
      requires Valid() && v.control.Callback?
      modifies this`freeWords, this`rxProcessing, this`called, this`hwOut, this`hwIn, this`peerTook, this`future,
               this`sendEmptyIrq, this`l, this`v, next, extra, data, head, tail
      ensures Valid() && Progress(old(l), old(v), l, v)
      decreases 1, 3
    {
      hide Represents, Good, Untouched, Progress, OnlyDeliverable;
      var action: int := *;
      var channel: nat := *;
      var word: Word := *;
      var bytes: seq<Byte> := *;
      var size: int := *;
      var ok: bool;
      if action == 0 {
        RecvInterrupt();
      } else if action == 1 {
        SendInterrupt();
      } else if action == 2 {
        ok := SendAddress(channel, word);
      } else if action == 3 {
        ok := SendValue32(channel, word);
      } else if action == 4 {
        ok := SendDatamsg(channel, |bytes|, Some(bytes));
      } else if action == 5 {
        ok := SendSpecialCommand(word);
      } else if action == 6 {
        var w := GetAddress(channel);
      } else if action == 7 {
        var w := GetValue32(channel);
      } else if action == 8 {
        var copied, got := GetDatamsg(channel, size);
      } else if action == 9 {
        ok := CheckAddress(channel);
      } else if action == 10 {
        ok := CheckValue32(channel);
      } else if action == 11 {
        ok := CheckDatamsg(channel);
      } else {
        var length := CheckDatamsgLength(channel);
      }
    }

    // fifoInternalRecvInterrupt
    method RecvInterrupt()
      requires Valid() && v.control != Processing
      modifies this`freeWords, this`rxProcessing, this`called, this`hwOut, this`hwIn, this`peerTook, this`future,
               this`sendEmptyIrq, this`l, this`v, next, extra, data, head, tail
      ensures Valid() && Progress(old(l), old(v), l, v) && Polled()
      decreases if rxProcessing then 1 else 5, 0
    {
      ReadRxFifoAndProcessBuffer();
    }

    // fifoInternalSendInterrupt
    method SendInterrupt()
      requires Valid() && v.control != Processing
      modifies this`freeWords, this`rxProcessing, this`called, this`hwOut, this`hwIn, this`peerTook, this`future,
               this`sendEmptyIrq, this`l, this`v, next, extra, data, head, tail
      ensures Valid() && Progress(old(l), old(v), l, v) && Flushed()
    {
      hide Represents, Good, Untouched, Progress, OnlyDeliverable;
      FillTxFifoFromBuffer();
      UntouchedBySend(old(l), old(v), l, v);
      UntouchedIsProgress(old(l), old(v), l, v);
    }

    // fifoReadRxFifoAndProcessBuffer. Only the outermost activation processes messages; one that is
    // nested in a callback only reads words.
    method ReadRxFifoAndProcessBuffer()
      requires Valid() && v.control != Processing
      modifies this`freeWords, this`rxProcessing, this`called, this`hwOut, this`hwIn, this`peerTook, this`future,
               this`sendEmptyIrq, this`l, this`v, next, extra, data, head, tail
      ensures Valid() && Progress(old(l), old(v), l, v) && Polled()
      ensures old(v.control) != Idle ==> v == old(v).(free := v.free, rx := v.rx, read := v.read)
      decreases if rxProcessing then 0 else 4, 0
    {
      hide Represents, Good, Untouched, Advanced, Parse, OnlyDeliverable;
      FillBufferFromRxFifo();
      UntouchedByFill(old(l), old(v), l, v);
      if rxProcessing {
        return;
      }
      UntouchedAdvances(old(l), old(v), l, v);
      ghost var v1 := v;
      ControlKeepsGood(v, handlers, next.Length - 1);
      RepresentsSame(Snap(), head[..], l, v, Begin(v));
      v := Begin(v);
      rxProcessing := true;
      ProcessRxBuffer();
      ControlAdvances(old(v), v1, v);
      AdvancedReads(Begin(v1), v);
      ControlKeepsGood(v, handlers, next.Length - 1);
      RepresentsSame(Snap(), head[..], l, v, End(v));
      v := End(v);
      rxProcessing := false;
    }

    // fifoProcessRxBuffer
    method ProcessRxBuffer()
      requires Valid() && v.control == Processing
      modifies this`freeWords, this`rxProcessing, this`called, this`hwOut, this`hwIn, this`peerTook, this`future,
               this`sendEmptyIrq, this`l, this`v, next, extra, data, head, tail
      ensures Valid() && v.control == Processing && Advanced(old(v), v) && Parse(v.rx).Incomplete?
      decreases 3, 1
    {
      hide Represents, Good, Advanced, Parse, OnlyDeliverable;
      AdvancedRefl(v);
      RxHead();
      NothingToParse();
      while head[RX] != TERMINATE
        invariant Valid() && v.control == Processing && Advanced(old(v), v)
        invariant head[RX] == TERMINATE <==> v.rx == []
        decreases |tape| - |v.consumed|
      {
        ghost var v1 := v;
        var done := ProcessMessage();
        AdvancedCompose(old(v), v1, v);
        RxHead();
        ConsumedIsOnTape();
        if !done {
          break;
        }
      }
    }

    lemma ConsumedIsOnTape()
      requires Valid()
      ensures |v.consumed| <= |tape|
    {
      hide Represents, SentInOrder, QueuesInOrder, CallbacksInOrder, BlocksConserved, ParseAll, OnlyDeliverable;
    }

    // ----- the functions for applications: sending

    // fifoSendSpecialCommand
    method SendSpecialCommand(command: Word) returns (ok: bool)
      requires Valid() && v.control != Processing
      modifies this`freeWords, this`rxProcessing, this`called, this`hwOut, this`hwIn, this`peerTook, this`future,
               this`sendEmptyIrq, this`l, this`v, next, extra, data, head, tail
      ensures Valid() && Progress(old(l), old(v), l, v)
      ensures v.accepted == if ok then old(v.accepted) + [Special(command % TWO24)] else old(v.accepted)
      ensures old(v.free) > 0 ==> ok
      ensures Flushed() && (!ok ==> v.free == 0)
    {
      hide Represents, Good, Untouched, Progress, OnlyDeliverable;
      PackedSpecial(command);
      ok := InternalSend(PackSpecial(command), [], Special(command % TWO24));
      UntouchedIsProgress(old(l), old(v), l, v);
    }

    // fifoSendAddress
    method SendAddress(channel: nat, address: Word) returns (ok: bool)
      requires Valid() && v.control != Processing
      modifies this`freeWords, this`rxProcessing, this`called, this`hwOut, this`hwIn, this`peerTook, this`future,
               this`sendEmptyIrq, this`l, this`v, next, extra, data, head, tail
      ensures Valid() && Progress(old(l), old(v), l, v)
      ensures v.accepted == if ok then old(v.accepted) + [Address(channel, address)] else old(v.accepted)
      ensures ok ==> channel < NUM_CHANNELS && IsValidAddress(address)
      ensures channel < NUM_CHANNELS && IsValidAddress(address) && old(v.free) > 0 ==> ok
      ensures channel < NUM_CHANNELS && IsValidAddress(address) ==> Flushed() && (!ok ==> v.free == 0)
    {
      hide Represents, Good, Untouched, Progress, OnlyDeliverable;
      ok := false;
      NoProgress(l, v);
      if channel >= NUM_CHANNELS {
        return;
      }
      if !IsValidAddress(address) {
        return;
      }
      ok := InternalSend(PackAddress(channel, address), [], Address(channel, address));
      UntouchedIsProgress(old(l), old(v), l, v);
    }

    // fifoSendValue32
    method SendValue32(channel: nat, value: Word) returns (ok: bool)
      requires Valid() && v.control != Processing
      modifies this`freeWords, this`rxProcessing, this`called, this`hwOut, this`hwIn, this`peerTook, this`future,
               this`sendEmptyIrq, this`l, this`v, next, extra, data, head, tail
      ensures Valid() && Progress(old(l), old(v), l, v)
      ensures v.accepted == if ok then old(v.accepted) + [Value32(channel, value)] else old(v.accepted)
      ensures ok ==> channel < NUM_CHANNELS
      ensures channel < NUM_CHANNELS && old(v.free) > (if NeedsExtra(value) then 1 else 0) ==> ok
      ensures channel < NUM_CHANNELS ==> Flushed() && (!ok ==> v.free <= if NeedsExtra(value) then 1 else 0)
    {
      hide Represents, Good, Untouched, Progress, OnlyDeliverable;
      ok := false;
      NoProgress(l, v);
      if channel >= NUM_CHANNELS {
        return;
      }
      if NeedsExtra(value) {
        ok := InternalSend(PackValue32Extra(channel), [value], Value32(channel, value));
      } else {
        ok := InternalSend(PackValue32(channel, value), [], Value32(channel, value));
      }
      UntouchedIsProgress(old(l), old(v), l, v);
    }

    // fifoSendDatamsg. No source stands for a null pointer.
    method SendDatamsg(channel: nat, numBytes: nat, source: Option<seq<Byte>>) returns (ok: bool)
      requires source.Some? ==> |source.value| >= numBytes
      requires Valid() && v.control != Processing
      modifies this`freeWords, this`rxProcessing, this`called, this`hwOut, this`hwIn, this`peerTook, this`future,
               this`sendEmptyIrq, this`l, this`v, next, extra, data, head, tail
      ensures Valid() && Progress(old(l), old(v), l, v)
      ensures ok ==> channel < NUM_CHANNELS && numBytes <= MAX_DATA_BYTES && (numBytes > 0 ==> source.Some?)
      ensures v.accepted == if !ok then old(v.accepted)
        else old(v.accepted) + [Data(channel, numBytes, if numBytes == 0 then [] else Packed(source.value[..numBytes]))]
      // With bytes to send, the early check decides; without, a fill may make room for the header.
      ensures numBytes > 0 ==>
        (ok <==> channel < NUM_CHANNELS && numBytes <= MAX_DATA_BYTES && source.Some?
                 && old(v.free) > WordCount(numBytes))
      ensures numBytes == 0 && channel < NUM_CHANNELS && old(v.free) > 0 ==> ok
      ensures numBytes == 0 && channel < NUM_CHANNELS && !ok ==> v.free == 0
      ensures ok || (numBytes == 0 && channel < NUM_CHANNELS) ==> Flushed()
    {
      hide Represents, Good, Untouched, Progress, Packed, OnlyDeliverable;
      ok := false;
      NoProgress(l, v);
      if channel >= NUM_CHANNELS {
        return;
      }
      if numBytes == 0 {
        ok := InternalSend(PackDataHeader(channel, 0), [], Data(channel, 0, []));
        UntouchedIsProgress(old(l), old(v), l, v);
        return;
      }
      if source.None? {
        return;
      }
      if numBytes > MAX_DATA_BYTES {
        return;
      }
      var numWords := WordCount(numBytes);
      FreeIsFree();
      if freeWords < numWords + 1 {
        return;
      }
      var words := Packed(source.value[..numBytes]);
      ok := InternalSend(PackDataHeader(channel, numBytes), words, Data(channel, numBytes, words));
      UntouchedIsProgress(old(l), old(v), l, v);
    }

    // ----- the functions for applications: getting

    // fifoGetAddress. Zero stands for a null pointer.
    method GetAddress(channel: nat) returns (address: Word)
      requires Valid() && v.control != Processing
      modifies this`freeWords, this`rxProcessing, this`called, this`hwOut, this`hwIn, this`peerTook, this`future,
               this`sendEmptyIrq, this`l, this`v, next, extra, data, head, tail
      ensures Valid() && Progress(old(l), old(v), l, v)
      ensures channel >= NUM_CHANNELS || old(Pending(ADDRESS + channel)) == [] ==> address == 0 && v == old(v)
      ensures channel < NUM_CHANNELS && old(Pending(ADDRESS + channel)) != [] ==>
        var q := ADDRESS + channel; var m := old(Pending(q))[0];
        m == Address(channel, address) && old(Taken(q)) + [m] <= Taken(q) && Polled()
      decreases if rxProcessing then 1 else 5, 1
    {
      hide Represents, Good, Wired, Progress, OnlyDeliverable;
      if channel >= NUM_CHANNELS {
        NoProgress(l, v);
        return 0;
      }
      address := GetWord(ADDRESS + channel);
    }

    // fifoGetValue32
    method GetValue32(channel: nat) returns (value: Word)
      requires Valid() && v.control != Processing
      modifies this`freeWords, this`rxProcessing, this`called, this`hwOut, this`hwIn, this`peerTook, this`future,
               this`sendEmptyIrq, this`l, this`v, next, extra, data, head, tail
      ensures Valid() && Progress(old(l), old(v), l, v)
      ensures channel >= NUM_CHANNELS || old(Pending(VALUE + channel)) == [] ==> value == 0 && v == old(v)
      ensures channel < NUM_CHANNELS && old(Pending(VALUE + channel)) != [] ==>
        var q := VALUE + channel; var m := old(Pending(q))[0];
        m == Value32(channel, value) && old(Taken(q)) + [m] <= Taken(q) && Polled()
      decreases if rxProcessing then 1 else 5, 1
    {
      hide Represents, Good, Wired, Progress, OnlyDeliverable;
      if channel >= NUM_CHANNELS {
        NoProgress(l, v);
        return 0;
      }
      value := GetWord(VALUE + channel);
    }

    // What fifoGetAddress and fifoGetValue32 do alike, on the queue with number q.
    method GetWord(q: nat) returns (word: Word)
      requires Valid() && v.control != Processing && ADDRESS <= q < DATA
      modifies this`freeWords, this`rxProcessing, this`called, this`hwOut, this`hwIn, this`peerTook, this`future,
               this`sendEmptyIrq, this`l, this`v, next, extra, data, head, tail
      ensures Valid() && Progress(old(l), old(v), l, v)
      ensures old(Pending(q)) == [] ==> word == 0 && v == old(v)
      ensures old(Pending(q)) != [] ==>
        var m := old(Pending(q))[0];
        && m == (if q < VALUE then Address(q - ADDRESS, word) else Value32(q - VALUE, word))
        && old(Taken(q)) + [m] <= Taken(q) && Polled()
      decreases if rxProcessing then 1 else 5, 0
    {
      hide Represents, SentInOrder, ReadInOrder, QueuesInOrder, CallbacksInOrder, BlocksConserved, Untouched,
        Progress, OnlyDeliverable;
      QueueHead(q);
      if head[q] == TERMINATE {
        NoProgress(l, v);
        return 0;
      }
      PendingBelongs(v, q);
      word := TakeWord(q);
      UntouchedByTake(old(l), old(v), l, q);
      UntouchedIsProgress(old(l), old(v), l, v);
      ghost var l1, v1 := l, v;
      ReadRxFifoAndProcessBuffer();
      ProgressCompose(old(l), old(v), l1, v1, l, v);
      ProgressTaken(l1, v1, l, v, q);
    }

    // fifoGetDatamsg. The bytes are those written to the buffer; -1 stands for no message.
    method GetDatamsg(channel: nat, buffersize: int) returns (copied: int, bytes: seq<Byte>)
      requires Valid() && v.control != Processing
      modifies this`freeWords, this`rxProcessing, this`called, this`hwOut, this`hwIn, this`peerTook, this`future,
               this`sendEmptyIrq, this`l, this`v, next, extra, data, head, tail
      ensures Valid() && Progress(old(l), old(v), l, v)
      ensures channel >= NUM_CHANNELS || old(Pending(DATA + channel)) == [] ==>
        copied == -1 && bytes == [] && v == old(v)
      ensures channel < NUM_CHANNELS && old(Pending(DATA + channel)) != [] ==>
        var q := DATA + channel; var m := old(Pending(q))[0];
        && m.Data? && m.channel == channel && |m.words| == WordCount(m.length)
        && copied == |bytes| == Clamp(buffersize, 4 * |m.words|) && IsCopy(m.words, buffersize, bytes)
        && old(Taken(q)) + [m] <= Taken(q) && Polled()
        && (old(v.control) != Idle ==> v.pending[q] == old(Pending(q))[1..])
      decreases if rxProcessing then 1 else 5, 0
    {
      hide Represents, SentInOrder, ReadInOrder, QueuesInOrder, CallbacksInOrder, BlocksConserved, Untouched,
        Progress, IsCopy, OnlyDeliverable;
      NoProgress(l, v);
      copied, bytes := -1, [];
      if channel >= NUM_CHANNELS {
        return;
      }
      var q := DATA + channel;
      QueueHead(q);
      if head[q] == TERMINATE {
        return;
      }
      PendingBelongs(v, q);
      bytes := TakeDatamsg(q, buffersize);
      copied := |bytes|;
      CopyLength(old(Payload(v.pending[q][0])), buffersize, bytes);
      UntouchedByTake(old(l), old(v), l, q);
      UntouchedIsProgress(old(l), old(v), l, v);
      ghost var l1, v1 := l, v;
      ReadRxFifoAndProcessBuffer();
      ProgressCompose(old(l), old(v), l1, v1, l, v);
      ProgressTaken(l1, v1, l, v, q);
    }

    // fifoCheckAddress
    method CheckAddress(channel: nat) returns (some: bool)
      requires Valid() && v.control != Processing
      modifies this`freeWords, this`rxProcessing, this`called, this`hwOut, this`hwIn, this`peerTook, this`future,
               this`sendEmptyIrq, this`l, this`v, next, extra, data, head, tail
      ensures Valid() && Progress(old(l), old(v), l, v)
      ensures some <==> channel < NUM_CHANNELS && Pending(ADDRESS + channel) != []
      ensures channel < NUM_CHANNELS ==> Polled()
      decreases if rxProcessing then 1 else 5, 0
    {
      hide Represents, Good, Untouched, Advanced, Parse, OnlyDeliverable;
      NoProgress(l, v);
      if channel >= NUM_CHANNELS {
        return false;
      }
      ReadRxFifoAndProcessBuffer();
      QueueHead(ADDRESS + channel);
      return head[ADDRESS + channel] != TERMINATE;
    }

    // fifoCheckValue32
    method CheckValue32(channel: nat) returns (some: bool)
      requires Valid() && v.control != Processing
      modifies this`freeWords, this`rxProcessing, this`called, this`hwOut, this`hwIn, this`peerTook, this`future,
               this`sendEmptyIrq, this`l, this`v, next, extra, data, head, tail
      ensures Valid() && Progress(old(l), old(v), l, v)
      ensures some <==> channel < NUM_CHANNELS && Pending(VALUE + channel) != []
      ensures channel < NUM_CHANNELS ==> Polled()
      decreases if rxProcessing then 1 else 5, 0
    {
      hide Represents, Good, Untouched, Advanced, Parse, OnlyDeliverable;
      NoProgress(l, v);
      if channel >= NUM_CHANNELS {
        return false;
      }
      ReadRxFifoAndProcessBuffer();
      QueueHead(VALUE + channel);
      return head[VALUE + channel] != TERMINATE;
    }

    // fifoCheckDatamsg
    method CheckDatamsg(channel: nat) returns (some: bool)
      requires Valid() && v.control != Processing
      modifies this`freeWords, this`rxProcessing, this`called, this`hwOut, this`hwIn, this`peerTook, this`future,
               this`sendEmptyIrq, this`l, this`v, next, extra, data, head, tail
      ensures Valid() && Progress(old(l), old(v), l, v)
      ensures some <==> channel < NUM_CHANNELS && Pending(DATA + channel) != []
      ensures channel < NUM_CHANNELS ==> Polled()
      decreases if rxProcessing then 1 else 5, 0
    {
      hide Represents, Good, Untouched, Advanced, Parse, OnlyDeliverable;
      NoProgress(l, v);
      if channel >= NUM_CHANNELS {
        return false;
      }
      ReadRxFifoAndProcessBuffer();
      QueueHead(DATA + channel);
      return head[DATA + channel] != TERMINATE;
    }

    // fifoCheckDatamsgLength
    method CheckDatamsgLength(channel: nat) returns (length: int)
      requires Valid() && v.control != Processing
      modifies this`freeWords, this`rxProcessing, this`called, this`hwOut, this`hwIn, this`peerTook, this`future,
               this`sendEmptyIrq, this`l, this`v, next, extra, data, head, tail
      ensures Valid() && Progress(old(l), old(v), l, v)
      ensures channel >= NUM_CHANNELS || Pending(DATA + channel) == [] ==> length == -1
      ensures channel < NUM_CHANNELS && Pending(DATA + channel) != [] ==>
        v.pending[DATA + channel][0].Data? && length == v.pending[DATA + channel][0].length
      ensures channel < NUM_CHANNELS ==> Polled()
      decreases if rxProcessing then 1 else 5, 1
    {
      hide Represents, SentInOrder, ReadInOrder, QueuesInOrder, CallbacksInOrder, BlocksConserved, Progress,
        OnlyDeliverable;
      NoProgress(l, v);
      if channel >= NUM_CHANNELS {
        return -1;
      }
      ReadRxFifoAndProcessBuffer();
      ghost var l1, v1 := l, v;
      ProgressControl(old(l), old(v), l, v);
      var some := CheckDatamsg(channel);
      ProgressCompose(old(l), old(v), l1, v1, l, v);
      ProgressReads(l1, v1, l, v);
      if !some {
        return -1;
      }
      QueueHead(DATA + channel);
      PendingBelongs(v, DATA + channel);
      return extra[head[DATA + channel]];
    }

    // The head of the queue of a channel says whether it has messages.
    lemma QueueHead(q: nat)
      requires Valid() && ADDRESS <= q < QUEUES
      ensures head[q] == TERMINATE <==> Pending(q) == []
      ensures Pending(q) != [] ==> CanTake(v, q) && head[q] < next.Length
      ensures v.pending[q] != [] && q >= DATA ==> Pending(q)[0].Data? && extra[head[q]] == Pending(q)[0].length
    {
      hide Represents, SentInOrder, ReadInOrder, QueuesInOrder, CallbacksInOrder, BlocksConserved, Payload,
        OnlyDeliverable;
      HeadTellsMessages(Snap(), head[..], l, v, q);
      if v.pending[q] != [] {
        QueueRange(v.pending[q][0]);
      }
    }
  }
}
