// A data message of no bytes is accepted by fifoSendDatamsg, but the receiver does not survive it:
// it has no first block to put the length in, and its only block is freed before it is queued.

module FifoEmptyData {
  import opened FifoLayout
  import opened FifoWire
  import opened FifoProtocol
  import opened FifoStore
  import opened FifoUpdates

  // The words of such a message are its header alone.
  lemma EmptyDataIsSent(channel: nat)
    requires channel < NUM_CHANNELS
    ensures var m := Data(channel, 0, []);
      Sendable(m) && |Encode(m)| == 1 && Parse(Encode(m)) == Got(m, 1) && !Deliverable(m)
  {
    var m := Data(channel, 0, []);
    ParseEncode(m, []);
    assert Encode(m) + [] == Encode(m);
  }

  // With no words of data, the last block of the message is its header. When another word follows,
  // that block is filed as the last of the channel's queue and is the last free block too:
  // whatever the blocks are thought to hold, the pool is no longer a set of disjoint chains.
  lemma EmptyDataBreaksPool(s: Store, l: Layout, v: Cpu, q: nat, k: Layout)
    requires WellShaped(s) && Represents(s, s.head, l, v) && |v.rx| >= 2 && DATA <= q < QUEUES
    ensures |s.head| == QUEUES && s.head[RX] < |s.next|
    ensures CanFile(s, s.head, q, s.next[s.head[RX]], s.head[RX])
    ensures var t := Filed(s, s.head, q, s.next[s.head[RX]], s.head[RX], 0);
      !FifoLayout.Linked(t.next, t.head, t.tail, k)
  {
    hide Represents, Sound, Placed, Covered, Links;
    RepresentsIs(s, s.head, l, v);
    SoundIsPartition(s, s.head, l);
    HeadTellsWords(s, s.head, l, v, RX);
    HeadTells(s, s.head, l, FREE);
    HeadTells(s, s.head, l, q);
    ChainIsBounded(s, s.head, l, RX);
    CutPoint(s, s.head, l, RX, 1);
    var t := Filed(s, s.head, q, s.next[s.head[RX]], s.head[RX], 0);
    if FifoLayout.Linked(t.next, t.head, t.tail, k) {
      assert Ends(k.chain[q], t.head[q], t.tail[q]) && Ends(k.chain[FREE], t.head[FREE], t.tail[FREE]);
      ChainsAreDisjoint(|t.next|, k, q, |k.chain[q]| - 1, FREE, |k.chain[FREE]| - 1);
    }
  }

  // When no other word follows, the length would be written outside the pool.
  lemma EmptyDataWritesOutside(s: Store, l: Layout, v: Cpu)
    requires Represents(s, s.head, l, v) && |v.rx| == 1
    ensures |s.head| == QUEUES && s.head[RX] < |s.next| && s.next[s.head[RX]] == TERMINATE && |s.extra| < TERMINATE
  {
    hide Represents, Sound, Placed, Covered;
    RepresentsIs(s, s.head, l, v);
    SoundIsPartition(s, s.head, l);
    HeadTellsWords(s, s.head, l, v, RX);
    CutPoint(s, s.head, l, RX, 1);
  }
}
