// What the class promises about two CPUs: a sender, a receiver, and the wire between them.

module FifoEndToEnd {
  import opened FifoLayout
  import opened FifoWire
  import opened Words
  import opened FifoProtocol
  import opened FifoStore
  import opened FifoUpdates
  import opened FifoCpu
  import opened FifoSystem
  import opened FifoBytes

  // `got` is all that came out of the wire at the receiver, in its hardware FIFO or further; the
  // wire gives a prefix of what the sender wrote. After any calls on both sides, the receiver has
  // handled a prefix of the accepted messages, each of its queues got its share of them once and in
  // order, and its callbacks were called for a prefix of theirs.
  lemma ReceiverGetsPrefix(a: Fifo, b: Fifo, got: seq<Word>, q: nat)
    requires a.Valid() && b.Valid() && q < QUEUES
    requires b.v.read <= got <= a.v.written
    ensures b.v.handled <= a.v.accepted
    ensures b.v.taken[q] + b.v.pending[q] <= For(a.v.accepted, q)
    ensures b.called <= Announced(a.v.accepted, b.handlers)
  {
    hide Represents, For, Announced, AllSendable, EncodeAll, ParseAll, Parse;
    assert SentInOrder(a.v) && ReadInOrder(b.v) && QueuesInOrder(b.v) && CallbacksInOrder(b.v, b.handlers);
    var rest := b.v.rx + (a.v.written[|b.v.read|..] + a.v.tx);
    assert b.v.consumed + rest == b.v.read + (a.v.written[|b.v.read|..] + a.v.tx) == a.v.written + a.v.tx;
    PrefixIsHandled(a.v.accepted, b.v.consumed, rest, b.v.handled);
    assert b.v.taken[q] + b.v.pending[q] == For(b.v.handled, q);
    ForPrefix(b.v.handled, a.v.accepted, q);
    AnnouncedPrefix(b.v.handled, a.v.accepted, b.handlers);
  }

  // When the sender has no word left to write, and the receiver has read all that was written and has no
  // whole message left, all accepted messages have arrived, and the callbacks got all their calls.
  lemma AllArrives(a: Fifo, b: Fifo, q: nat)
    requires a.Valid() && b.Valid() && q < QUEUES
    requires a.v.tx == [] && b.v.read == a.v.written && b.v.control == Idle && Parse(b.v.rx).Incomplete?
    ensures b.v.handled == a.v.accepted && b.v.rx == []
    ensures b.v.taken[q] + b.v.pending[q] == For(a.v.accepted, q)
    ensures b.called == Announced(a.v.accepted, b.handlers)
  {
    hide Represents, For, Announced, AllSendable, EncodeAll, ParseAll, Parse;
    assert SentInOrder(a.v) && ReadInOrder(b.v) && QueuesInOrder(b.v) && CallbacksInOrder(b.v, b.handlers);
    assert a.v.written + a.v.tx == a.v.written;
    PrefixIsHandled(a.v.accepted, b.v.consumed, b.v.rx, b.v.handled);
    assert b.v.taken[q] + b.v.pending[q] == For(b.v.handled, q);
  }

  // In every reachable state the pool is partitioned, the free queue holds one block more than
  // the counter says, so it is never empty, and no block is lost.
  lemma PoolIsSound(a: Fifo)
    requires a.Valid()
    ensures Total(a.l.chain) == a.next.Length && |a.l.chain[FREE]| == a.freeWords + 1
    ensures a.head[FREE] != TERMINATE && a.head[FREE] == a.l.chain[FREE][0]
    ensures a.freeWords + |a.v.tx| + |a.v.rx| + Blocks(a.v.pending) == a.next.Length - 1
  {
    hide Represents, Sound, SentInOrder, ReadInOrder, QueuesInOrder, CallbacksInOrder;
    RepresentsIs(a.Snap(), a.head[..], a.l, a.v);
    SoundIsPartition(a.Snap(), a.head[..], a.l);
    HeadTells(a.Snap(), a.head[..], a.l, FREE);
    AllPlaced(a.next.Length, a.l);
  }

  // A data message of 1 to 128 bytes arrives as it was sent: what fifoGetDatamsg copies to a buffer of any size
  // is the bytes that fit, and then zeros up to a whole word if they fit too.
  lemma DataRoundTrip(channel: nat, bytes: seq<Byte>, room: int, copied: seq<Byte>)
    requires channel < NUM_CHANNELS && 0 < |bytes| <= MAX_DATA_BYTES
    requires IsCopy(Packed(bytes), room, copied)
    ensures var m := Data(channel, |bytes|, Packed(bytes));
      && Sendable(m) && Deliverable(m) && Parse(Encode(m)) == Got(m, 1 + WordCount(|bytes|))
    ensures var top := (|bytes| + 3) / 4 * 4;
      |copied| == if room < 0 then 0 else if room < top then room else top
    ensures forall i {:trigger copied[i]} :: 0 <= i < |copied| ==> copied[i] == if i < |bytes| then bytes[i] else 0
  {
    hide Parse, Header, Bytes, Packed;
    var m := Data(channel, |bytes|, Packed(bytes));
    ParseEncode(m, []);
    assert Encode(m) + [] == Encode(m);
    BytesOfWords(bytes);
    var all := Bytes(Packed(bytes));
    assert forall i {:trigger all[i]} :: 0 <= i < |bytes| ==> all[i] == all[..|bytes|][i];
  }
}
