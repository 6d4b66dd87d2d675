// What the pool operations mean for the queues: each lemma takes a snapshot that represents a Cpu
// value through the operations of one piece of fifosystem.c to one that represents the next value.

module FifoUpdates {
  import opened FifoLayout
  import opened FifoWire
  import opened Words
  import opened FifoProtocol
  import opened FifoStore

  lemma MoveRepresents(s: Store, heads: seq<nat>, l: Layout, v: Cpu, q: nat, k: nat, p: nat,
                       t: Store, heads': seq<nat>, u: Cpu)
    requires Represents(s, heads, l, v) && q <= QUEUES && p <= QUEUES && q != p && 0 < k <= |l.chain[q]|
    requires Moved(s, heads, l, q, k, p, t, heads') && Sound(t, heads', Move(l, q, k, p))
    requires |u.pending| == QUEUES
    requires |v.pending| == QUEUES
    requires forall r {:trigger Holds(v, r)} :: TX <= r < QUEUES && r != q && r != p ==>
               Holds(u, r) == Holds(v, r) && u.pending[r] == v.pending[r]
    requires TX <= q < QUEUES ==> StoresQueue(t, Move(l, q, k, p), u, q)
    requires TX <= p < QUEUES ==> StoresQueue(t, Move(l, q, k, p), u, p)
    requires u.free == t.freeWords + |Move(l, q, k, p).chain[HELD]|
    ensures Represents(t, heads', Move(l, q, k, p), u)
  {
    var m := Move(l, q, k, p);
    assert |v.pending| == QUEUES && Sound(s, heads, l);
    forall r | TX <= r < QUEUES && r != q && r != p ensures StoresQueue(s, l, v, r) {
      StoresOf(s, heads, l, v, r);
    }
    hide Represents, Sound, Moved, Holds, StoresQueue, Move;
    forall r | TX <= r < QUEUES ensures StoresQueue(t, m, u, r) {
      if r != q && r != p {
        assert Holds(u, r) == Holds(v, r);
        MoveStoresOther(s, heads, l, q, k, p, t, heads', v, u, r);
      }
    }
    RepresentsBy(t, heads', m, u);
  }

  lemma StoresOf(s: Store, heads: seq<nat>, l: Layout, v: Cpu, q: nat)
    requires Represents(s, heads, l, v) && TX <= q < QUEUES
    ensures StoresQueue(s, l, v, q)
  {
    SoundIsPartition(s, heads, l);
    hide Sound, Placed, Covered;
    assert StoresQueue(s, l, v, q);
  }

  lemma RepresentsIs(s: Store, heads: seq<nat>, l: Layout, v: Cpu)
    requires Represents(s, heads, l, v)
    ensures Sound(s, heads, l) && |v.pending| == QUEUES && |l.chain| == QUEUES + 1
    ensures v.free == s.freeWords + |l.chain[HELD]|
  {
    hide Placed, Covered, Links, Ends, StoresQueue;
  }

  lemma ChainIsBounded(s: Store, heads: seq<nat>, l: Layout, q: nat)
    requires Sound(s, heads, l) && q <= QUEUES
    ensures |l.chain| == QUEUES + 1 && |s.data| == |s.next|
    ensures forall i {:trigger l.chain[q][i]} :: 0 <= i < |l.chain[q]| ==> l.chain[q][i] < |s.next|
  {
    hide Covered, Links, Ends;
  }

  lemma ChainIsDistinct(s: Store, heads: seq<nat>, l: Layout, q: nat)
    requires Sound(s, heads, l) && q <= QUEUES
    ensures |l.chain| == QUEUES + 1 && Distinct(l.chain[q])
  {
    hide Links, Ends, Distinct;
    ChainsAreDistinct(|s.next|, l, q, q);
  }

  lemma RepresentsBy(s: Store, heads: seq<nat>, l: Layout, v: Cpu)
    requires Sound(s, heads, l) && |v.pending| == QUEUES && v.free == s.freeWords + |l.chain[HELD]|
    requires forall q :: TX <= q < QUEUES ==> StoresQueue(s, l, v, q)
    ensures Represents(s, heads, l, v)
  {
    hide StoresQueue, Sound;
  }

  lemma MoveChains(l: Layout, q: nat, k: nat, p: nat)
    requires |l.chain| == |l.base| == QUEUES + 1 && |l.rank| == |l.where|
    requires q <= QUEUES && p <= QUEUES && q != p && k <= |l.chain[q]|
    ensures var m := Move(l, q, k, p);
      && |m.chain| == QUEUES + 1 && m.chain[q] == l.chain[q][k..] && m.chain[p] == l.chain[p] + l.chain[q][..k]
      && forall r {:trigger m.chain[r]} :: 0 <= r <= QUEUES && r != q && r != p ==> m.chain[r] == l.chain[r]
  {
  }

  // A move between two queues, with everything there is to say about it.
  lemma Moves(s: Store, heads: seq<nat>, l: Layout, q: nat, k: nat, p: nat, t: Store, heads': seq<nat>)
    requires Sound(s, heads, l) && q <= QUEUES && p <= QUEUES && q != p && 0 < k <= |l.chain[q]|
    requires Moved(s, heads, l, q, k, p, t, heads')
    ensures var m := Move(l, q, k, p);
      && Sound(t, heads', m) && Partition(|t.next|, m) && |t.data| == |t.next| == |t.extra| == |s.next|
      && |m.chain[FREE]| == t.freeWords + 1
      && m.chain[q] == l.chain[q][k..] && m.chain[p] == l.chain[p] + l.chain[q][..k]
      && (forall r {:trigger m.chain[r]} :: 0 <= r <= QUEUES && r != q && r != p ==> m.chain[r] == l.chain[r])
      && Contents(t.data, m.chain[q]) == Contents(s.data, l.chain[q])[k..]
      && Contents(t.data, m.chain[p]) == Contents(s.data, l.chain[p]) + Contents(t.data, l.chain[q][..k])
  {
    hide Placed, Covered, Sound, Moved, Move, Links, Ends, Contents;
    StoreMove(s, heads, l, q, k, p, t, heads');
    SoundIsPartition(s, heads, l);
    SoundIsPartition(t, heads', Move(l, q, k, p));
    MovedShape(s, heads, l, q, k, p, t, heads');
    MoveChains(l, q, k, p);
    MoveContents(s, heads, l, q, k, p, t, heads');
  }

  // fifo_buffer_alloc_block: the block is held by the caller and counts as still free.
  lemma AllocateRepresents(s: Store, l: Layout, v: Cpu)
    requires WellShaped(s) && Represents(s, s.head, l, v) && l.chain[HELD] == [] && s.freeWords > 0
    ensures s.head[FREE] < |s.next|
    ensures var m := Move(l, FREE, 1, HELD);
      Represents(Allocated(s), Allocated(s).head, m, v) && m.chain[HELD] == [s.head[FREE]]
  {
    SoundIsPartition(s, s.head, l);
    assert v.free == s.freeWords && |v.pending| == QUEUES;
    hide Represents, Sound, Moved, Holds, StoresQueue, Placed, Covered;
    AllocateMoves(s, l);
    StoreMove(s, s.head, l, FREE, 1, HELD, Allocated(s), Allocated(s).head);
    MoveRepresents(s, s.head, l, v, FREE, 1, HELD, Allocated(s), Allocated(s).head, v);
  }

  function Put(v: Cpu, q: nat, w: Word): Cpu
    requires v.free > 0
  {
    if q == TX then v.(free := v.free - 1, tx := v.tx + [w]) else v.(free := v.free - 1, rx := v.rx + [w])
  }

  lemma HeldIsTerminated(s: Store, heads: seq<nat>, l: Layout, b: nat)
    requires Sound(s, heads, l) && l.chain[HELD] == [b]
    ensures b < |s.next| && s.next[b] == TERMINATE
  {
    hide Placed, Covered, Ends;
    CutPoint(s, heads, l, HELD, 1);
  }

  lemma HeldIsCutOff(s: Store, l: Layout, b: nat, w: Word)
    requires WellShaped(s) && Sound(s, s.head, l) && l.chain[HELD] == [b]
    ensures b < |s.data|
    ensures CutOff(s, s.head, l, HELD, 1, s.(data := s.data[b := w]))
    ensures Contents(s.(data := s.data[b := w]).data, [b]) == [w]
  {
    hide Placed, Covered, Links, Ends;
    CutPoint(s, s.head, l, HELD, 1);
    assert l.chain[HELD][0] == b && l.chain[HELD][..1] == [b];
  }

  // The held block gets a word and is appended to the TX or to the RX queue.
  lemma PutRepresents(s: Store, l: Layout, v: Cpu, q: nat, b: nat, w: Word)
    requires WellShaped(s) && Represents(s, s.head, l, v) && l.chain[HELD] == [b] && (q == TX || q == RX)
    ensures b < |s.data| && (s.head[q] != TERMINATE ==> s.tail[q] < |s.next|) && v.free > 0
    ensures var t := Appended(s.(data := s.data[b := w]), q, b, b);
      Represents(t, t.head, Move(l, HELD, 1, q), Put(v, q, w))
  {
    hide Represents, Sound, Moved, Move, Framed, CutOff, Placed, Covered;
    RepresentsIs(s, s.head, l, v);
    SoundIsPartition(s, s.head, l);
    StoresOf(s, s.head, l, v, q);
    HeldIsCutOff(s, l, b, w);
    var s1 := s.(data := s.data[b := w]);
    assert l.chain[HELD][0] == b && l.chain[HELD][..1] == [b];
    AppendMoves(s, s.head, l, HELD, 1, q, s1);
    var t := Appended(s1, q, b, b);
    Moves(s, s.head, l, HELD, 1, q, t, t.head);
    PutHolds(v, q, w);
    MoveRepresents(s, s.head, l, v, HELD, 1, q, t, t.head, Put(v, q, w));
  }

  function Drop(v: Cpu, q: nat): Cpu
    requires if q == TX then v.tx != [] else v.rx != []
  {
    if q == TX then v.(free := v.free + 1, tx := v.tx[1..]) else v.(free := v.free + 1, rx := v.rx[1..])
  }

  lemma PutHolds(v: Cpu, q: nat, w: Word)
    requires |v.pending| == QUEUES && v.free > 0 && (q == TX || q == RX)
    ensures forall r {:trigger Holds(v, r)} :: TX <= r < QUEUES && r != q ==> Holds(Put(v, q, w), r) == Holds(v, r)
    ensures Holds(Put(v, q, w), q) == Holds(v, q) + [w] && Put(v, q, w).pending == v.pending
  {
    hide Payloads;
  }

  lemma DropHolds(v: Cpu, q: nat)
    requires |v.pending| == QUEUES && (q == TX || q == RX) && Holds(v, q) != []
    ensures forall r {:trigger Holds(v, r)} :: TX <= r < QUEUES && r != q ==> Holds(Drop(v, q), r) == Holds(v, r)
    ensures Holds(Drop(v, q), q) == Holds(v, q)[1..] && Drop(v, q).pending == v.pending
  {
    hide Payloads;
  }

  // The first block of the TX or of the RX queue is freed.
  lemma DropRepresents(s: Store, heads: seq<nat>, l: Layout, v: Cpu, q: nat)
    requires WellShaped(s) && Represents(s, heads, l, v) && (q == TX || q == RX) && l.chain[q] != []
    ensures |heads| == QUEUES && heads[q] < |s.next| && s.tail[FREE] < |s.next| && heads[q] == l.chain[q][0]
    ensures if q == TX then v.tx != [] && v.tx[0] == s.data[heads[q]] else v.rx != [] && v.rx[0] == s.data[heads[q]]
    ensures Represents(Freed(s, heads[q]), heads[q := s.next[heads[q]]], Move(l, q, 1, FREE), Drop(v, q))
  {
    hide Represents, Sound, Moved, Move, Framed, Placed, Covered;
    RepresentsIs(s, heads, l, v);
    SoundIsPartition(s, heads, l);
    StoresOf(s, heads, l, v, q);
    FreeMoves(s, heads, l, q);
    ChainIsBounded(s, heads, l, q);
    assert Contents(s.data, l.chain[q])[0] == s.data[heads[q]];
    var t, heads' := Freed(s, heads[q]), heads[q := s.next[heads[q]]];
    Moves(s, heads, l, q, 1, FREE, t, heads');
    DropHolds(v, q);
    MoveRepresents(s, heads, l, v, q, 1, FREE, t, heads', Drop(v, q));
  }

  // The head of the TX or of the RX queue says whether it has words.
  lemma HeadTellsWords(s: Store, heads: seq<nat>, l: Layout, v: Cpu, q: nat)
    requires Represents(s, heads, l, v) && (q == TX || q == RX)
    ensures |heads| == QUEUES && |v.pending| == QUEUES && |l.chain| == QUEUES + 1
    ensures |l.chain[q]| == |Holds(v, q)|
    ensures heads[q] == TERMINATE <==> Holds(v, q) == []
    ensures Holds(v, q) != [] ==> l.chain[q] != [] && heads[q] == l.chain[q][0] && heads[q] < |s.next| == |s.data|
                                  && Holds(v, q)[0] == s.data[heads[q]]
  {
    hide Represents, Sound, Placed, Covered;
    RepresentsIs(s, heads, l, v);
    SoundIsPartition(s, heads, l);
    HeadTells(s, heads, l, q);
    StoresOf(s, heads, l, v, q);
    assert Contents(s.data, l.chain[q]) == Holds(v, q);
  }

  // One word of the TX queue went to the hardware and its block is freed.
  lemma DrainRepresents(s: Store, heads: seq<nat>, l: Layout, v: Cpu)
    requires WellShaped(s) && Represents(s, heads, l, v) && v.tx != []
    ensures |heads| == QUEUES && heads[TX] < |s.next| && s.tail[FREE] < |s.next| && v.tx[0] == s.data[heads[TX]]
    ensures |l.chain| == |l.base| == QUEUES + 1 && |l.rank| == |l.where| && 0 < |l.chain[TX]|
    ensures Represents(Freed(s, heads[TX]), heads[TX := s.next[heads[TX]]], Move(l, TX, 1, FREE), Drain(v))
    ensures forall q {:trigger Move(l, TX, 1, FREE).chain[q]} :: 0 <= q <= QUEUES && q != FREE && q != TX ==>
              Move(l, TX, 1, FREE).chain[q] == l.chain[q]
  {
    hide Represents, Sound, Move, Placed, Covered, Payloads, Freed;
    HeadTellsWords(s, heads, l, v, TX);
    RepresentsIs(s, heads, l, v);
    SoundIsPartition(s, heads, l);
    DropRepresents(s, heads, l, v, TX);
    MoveChains(l, TX, 1, FREE);
    RepresentsSame(Freed(s, heads[TX]), heads[TX := s.next[heads[TX]]], Move(l, TX, 1, FREE), Drop(v, TX), Drain(v));
  }

  function Queued(v: Cpu, n: nat, m: Message): Cpu
    requires |v.pending| == QUEUES && n <= |v.rx| && Deliverable(m)
  {
    v.(rx := v.rx[n..], pending := v.pending[QueueOf(m) := v.pending[QueueOf(m)] + [m]])
  }

  // A data queue that takes no blocks away keeps its framing.
  lemma FramedOther(s: Store, heads: seq<nat>, l: Layout, v: Cpu, q: nat, k: nat, p: nat, t: Store)
    requires Sound(s, heads, l) && q <= QUEUES && k <= |l.chain[q]| && DATA <= p < QUEUES && p != q
    requires SameElsewhere(s, t, l.chain[q][..k])
    requires |v.pending| == QUEUES && StoresQueue(s, l, v, p)
    ensures Framed(t.extra, l.chain[p], v.pending[p])
  {
    SoundIsPartition(s, heads, l);
    hide Sound, Links, Ends, Contents;
    NotInFront(|s.next|, l, q, k, p);
    var c := l.chain[p];
    assert forall i {:trigger c[i]} :: 0 <= i < |c| ==> l.chain[p][i] == c[i] && c[i] < |s.next|;
    FramedElsewhere(s.extra, t.extra, c, v.pending[p]);
  }

  lemma QueueRange(m: Message)
    requires Deliverable(m)
    ensures ADDRESS <= QueueOf(m) < QUEUES && (QueueOf(m) >= DATA <==> m.Data?)
  {
  }

  lemma CutOffIs(s: Store, heads: seq<nat>, l: Layout, n: nat, t: Store)
    requires Sound(s, heads, l) && 0 < n <= |l.chain[RX]| && CutOff(s, heads, l, RX, n, t)
    ensures WellShaped(s) && WellShaped(t) && SameElsewhere(s, t, l.chain[RX][..n])
    ensures |t.next| == |s.next| && t.freeWords == s.freeWords
    ensures forall i {:trigger l.chain[RX][i]} :: 0 <= i < |l.chain[RX]| ==> l.chain[RX][i] < |s.next|
  {
    SoundIsPartition(s, heads, l);
  }

  lemma QueuedStores(s: Store, heads: seq<nat>, l: Layout, v: Cpu, n: nat, m: Message, t: Store)
    requires Sound(s, heads, l) && |v.pending| == QUEUES && 0 < n <= |l.chain[RX]| && Deliverable(m)
    requires SameElsewhere(s, t, l.chain[RX][..n]) && Partition(|t.next|, Move(l, RX, n, QueueOf(m)))
    requires StoresQueue(s, l, v, QueueOf(m))
    requires forall i {:trigger l.chain[RX][i]} :: 0 <= i < |l.chain[RX]| ==> l.chain[RX][i] < |t.next|
    requires Contents(t.data, l.chain[RX][..n]) == Payload(m)
    requires m.Data? ==> t.extra[l.chain[RX][0]] == m.length
    requires Contents(t.data, Move(l, RX, n, QueueOf(m)).chain[QueueOf(m)])
          == Contents(s.data, l.chain[QueueOf(m)]) + Payload(m)
    ensures n <= |v.rx| ==> StoresQueue(t, Move(l, RX, n, QueueOf(m)), Queued(v, n, m), QueueOf(m))
  {
    var q, c := QueueOf(m), l.chain[RX];
    SoundIsPartition(s, heads, l);
    PayloadsConcat(v.pending[q], [m]);
    assert Payloads([m]) == Payload(m) + [] == Payload(m);
    if m.Data? {
      FramedOther(s, heads, l, v, RX, n, q, t);
      hide Sound, Placed, Covered, Framed;
      assert |c[..n]| == |m.words| && c[..n][0] == c[0];
      FramedConcat(t.extra, l.chain[q], v.pending[q], c[..n], m);
    }
  }

  // The first n blocks of the RX queue were cut off and hold the payload of a message; they are
  // appended to the queue of its channel.
  lemma QueueRepresents(s: Store, heads: seq<nat>, l: Layout, v: Cpu, n: nat, m: Message, s1: Store)
    requires Represents(s, heads, l, v) && 0 < n <= |l.chain[RX]| && CutOff(s, heads, l, RX, n, s1)
    requires Deliverable(m) && |l.chain[RX][..n]| == |Payload(m)|
    requires forall i {:trigger l.chain[RX][i]} :: 0 <= i < n ==>
               l.chain[RX][i] < |s1.data| && s1.data[l.chain[RX][i]] == Payload(m)[i]
    requires m.Data? ==> l.chain[RX][0] < |s1.extra| && s1.extra[l.chain[RX][0]] == m.length
    ensures var q := QueueOf(m); s1.head[q] != TERMINATE ==> s1.tail[q] < |s1.next|
    ensures n <= |v.rx|
    ensures var t := Appended(s1, QueueOf(m), l.chain[RX][0], l.chain[RX][n - 1]);
      Represents(t, t.head, Move(l, RX, n, QueueOf(m)), Queued(v, n, m))
  {
    hide Represents, Sound, Moved, Move, Framed, CutOff, Placed, Covered, SameElsewhere, Payload, QueueOf;
    RepresentsIs(s, heads, l, v);
    var q, c := QueueOf(m), l.chain[RX];
    QueueRange(m);
    SoundIsPartition(s, heads, l);
    StoresOf(s, heads, l, v, q);
    StoresOf(s, heads, l, v, RX);
    CutOffIs(s, heads, l, n, s1);
    AppendMoves(s, heads, l, RX, n, q, s1);
    var t := Appended(s1, q, c[0], c[n - 1]);
    SameWhenRelinked(s, s1, t, c[..n]);
    Moves(s, heads, l, RX, n, q, t, t.head);
    assert Contents(t.data, c[..n]) == Payload(m);
    QueuedStores(s, heads, l, v, n, m, t);
    MoveRepresents(s, heads, l, v, RX, n, q, t, t.head, Queued(v, n, m));
  }

  // The first n blocks of the RX queue are cut off; `data` and `extra` may change in them.
  lemma CutOffRx(s: Store, heads: seq<nat>, l: Layout, n: nat, data: seq<Word>, extra: seq<nat>, following: nat)
    requires WellShaped(s) && Sound(s, heads, l) && 0 < n <= |l.chain[RX]|
    requires |data| == |s.data| && |extra| == |s.extra|
    requires forall b {:trigger data[b]} :: 0 <= b < |data| && b !in l.chain[RX][..n] ==> data[b] == s.data[b]
    requires forall b {:trigger extra[b]} :: 0 <= b < |extra| && b !in l.chain[RX][..n] ==> extra[b] == s.extra[b]
    requires following == if n < |l.chain[RX]| then l.chain[RX][n] else TERMINATE
    ensures |heads| == QUEUES
    ensures CutOff(s, heads, l, RX, n, s.(data := data, extra := extra, head := heads[RX := following]))
  {
    hide Placed, Covered, Links, Ends;
    CutPoint(s, heads, l, RX, n);
    SoundIsPartition(s, heads, l);
  }

  // The block at the head of the RX queue gets a word and goes to the end of queue q.
  predicate CanPassOn(s: Store, heads: seq<nat>, q: nat) {
    && WellShaped(s) && |heads| == QUEUES && RX < q < QUEUES
    && heads[RX] < |s.next| && (heads[q] != TERMINATE ==> s.tail[q] < |s.next|)
  }

  function PassedOn(s: Store, heads: seq<nat>, q: nat, word: Word): Store
    requires CanPassOn(s, heads, q)
  {
    Appended(s.(data := s.data[heads[RX] := word], head := heads[RX := s.next[heads[RX]]]), q, heads[RX], heads[RX])
  }

  lemma PassOnRepresents(s: Store, heads: seq<nat>, l: Layout, v: Cpu, m: Message, word: Word)
    requires WellShaped(s) && Represents(s, heads, l, v) && v.rx != []
    requires Deliverable(m) && !m.Data? && Payload(m) == [word]
    ensures |v.pending| == QUEUES && |l.chain| == |l.base| == QUEUES + 1 && |l.rank| == |l.where| && 1 <= |l.chain[RX]|
    ensures CanPassOn(s, heads, QueueOf(m))
    ensures var t := PassedOn(s, heads, QueueOf(m), word);
      Represents(t, t.head, Move(l, RX, 1, QueueOf(m)), Queued(v, 1, m))
  {
    hide Represents, Sound, Move, Placed, Covered, Payloads, Freed, Appended, Payload, QueueOf, CutOff;
    RepresentsIs(s, heads, l, v);
    SoundIsPartition(s, heads, l);
    LayoutShape(|s.next|, l);
    QueueRange(m);
    HeadTellsWords(s, heads, l, v, RX);
    HeadTells(s, heads, l, QueueOf(m));
    CutPoint(s, heads, l, RX, 1);
    assert l.chain[RX][..1] == [heads[RX]];
    CutOffRx(s, heads, l, 1, s.data[heads[RX] := word], s.extra, s.next[heads[RX]]);
    var cut := s.(data := s.data[heads[RX] := word], head := heads[RX := s.next[heads[RX]]]);
    QueueRepresents(s, heads, l, v, 1, m, cut);
  }

  // A whole data message is at the front of the RX queue: `first` is its first block of data and
  // `last` its last. The header is freed, the length is put in the first block, and the blocks of
  // data go to the end of queue q.
  predicate CanFile(s: Store, heads: seq<nat>, q: nat, first: nat, last: nat) {
    && WellShaped(s) && |heads| == QUEUES && RX < q < QUEUES && s.tail[FREE] < |s.next|
    && heads[RX] < |s.next| && first < |s.next| && last < |s.next| && (heads[q] != TERMINATE ==> s.tail[q] < |s.next|)
  }

  function Filed(s: Store, heads: seq<nat>, q: nat, first: nat, last: nat, length: nat): Store
    requires CanFile(s, heads, q, first, last)
  {
    var t := Freed(s.(head := heads[RX := s.next[last]]), heads[RX]);
    Appended(t.(extra := t.extra[first := length]), q, first, last)
  }

  // The same, after the header was freed.
  function FiledRest(t: Store, heads: seq<nat>, q: nat, first: nat, last: nat, length: nat): Store
    requires WellShaped(t) && |heads| == QUEUES && RX < q < QUEUES && first < |t.next| && last < |t.next|
    requires heads[q] != TERMINATE ==> t.tail[q] < |t.next|
  {
    Appended(t.(extra := t.extra[first := length], head := heads[RX := t.next[last]]), q, first, last)
  }

  lemma FileRest(t: Store, heads: seq<nat>, l: Layout, v: Cpu, n: nat, m: Message)
    requires WellShaped(t) && Represents(t, heads, l, v)
    requires Deliverable(m) && m.Data? && n == |m.words| && n <= |v.rx| && v.rx[..n] == m.words
    ensures |v.pending| == QUEUES && |l.chain| == |l.base| == QUEUES + 1 && |l.rank| == |l.where|
    ensures 0 < n <= |l.chain[RX]| && |heads| == QUEUES && l.chain[RX][0] < |t.next| && l.chain[RX][n - 1] < |t.next|
    ensures heads[QueueOf(m)] != TERMINATE ==> t.tail[QueueOf(m)] < |t.next|
    ensures t.next[l.chain[RX][n - 1]] == if n < |l.chain[RX]| then l.chain[RX][n] else TERMINATE
    ensures var u := FiledRest(t, heads, QueueOf(m), l.chain[RX][0], l.chain[RX][n - 1], m.length);
      Represents(u, u.head, Move(l, RX, n, QueueOf(m)), Queued(v, n, m))
  {
    hide Represents, Sound, Move, Placed, Covered, Payloads, Appended, QueueOf, CutOff;
    RepresentsIs(t, heads, l, v);
    SoundIsPartition(t, heads, l);
    LayoutShape(|t.next|, l);
    QueueRange(m);
    HeadTellsWords(t, heads, l, v, RX);
    HeadTells(t, heads, l, QueueOf(m));
    ChainIsBounded(t, heads, l, RX);
    StoresOf(t, heads, l, v, RX);
    var c := l.chain[RX];
    assert Contents(t.data, c) == v.rx;
    CutPoint(t, heads, l, RX, n);
    assert c[0] in c[..n] by { assert c[..n][0] == c[0]; }
    CutOffRx(t, heads, l, n, t.data, t.extra[c[0] := m.length], t.next[c[n - 1]]);
    forall i | 0 <= i < n ensures t.data[c[i]] == Payload(m)[i] {
      assert Contents(t.data, c)[i] == v.rx[i] == m.words[i];
    }
    var cut := t.(extra := t.extra[c[0] := m.length], head := heads[RX := t.next[c[n - 1]]]);
    QueueRepresents(t, heads, l, v, n, m, cut);
  }

  lemma FileRepresents(s: Store, heads: seq<nat>, l: Layout, v: Cpu, n: nat, m: Message)
    requires WellShaped(s) && Represents(s, heads, l, v)
    requires Deliverable(m) && m.Data? && n == |m.words| && n < |v.rx| && v.rx[1..n + 1] == m.words
    ensures |v.pending| == QUEUES && |l.chain| == |l.base| == QUEUES + 1 && |l.rank| == |l.where|
    ensures n < |l.chain[RX]| && CanFile(s, heads, QueueOf(m), l.chain[RX][1], l.chain[RX][n])
    ensures var t := Filed(s, heads, QueueOf(m), l.chain[RX][1], l.chain[RX][n], m.length);
      Represents(t, t.head, Move(Move(l, RX, 1, FREE), RX, n, QueueOf(m)), Queued(Drop(v, RX), n, m))
  {
    hide Represents, Sound, Move, Placed, Covered, Payloads, Appended, QueueOf, CutOff;
    RepresentsIs(s, heads, l, v);
    SoundIsPartition(s, heads, l);
    LayoutShape(|s.next|, l);
    QueueRange(m);
    HeadTellsWords(s, heads, l, v, RX);
    var q, c := QueueOf(m), l.chain[RX];
    HeadTells(s, heads, l, q);
    DropRepresents(s, heads, l, v, RX);
    ChainIsBounded(s, heads, l, RX);
    CutPoint(s, heads, l, RX, 1);
    var t, h, k := Freed(s, heads[RX]), heads[RX := s.next[heads[RX]]], Move(l, RX, 1, FREE);
    MoveChains(l, RX, 1, FREE);
    assert k.chain[RX] == c[1..];
    CutPoint(s, heads, l, RX, n + 1);
    FileRest(t, h, k, Drop(v, RX), n, m);
    assert h[RX := t.next[c[n]]] == heads[RX := s.next[c[n]]];
    assert Freed(s.(head := heads[RX := s.next[c[n]]]), heads[RX]) == t.(head := heads[RX := s.next[c[n]]]);
    assert Filed(s, heads, q, c[1], c[n], m.length) == FiledRest(t, h, q, c[1], c[n], m.length);
  }

  lemma FreedKeepsOthers(s: Store, b: nat, q: nat)
    requires WellShaped(s) && b < |s.next| && s.tail[FREE] < |s.next| && FREE < q < QUEUES
    ensures WellShaped(Freed(s, b)) && Freed(s, b).head == s.head && Freed(s, b).tail[q] == s.tail[q]
    ensures |Freed(s, b).next| == |s.next| && Freed(s, b).data == s.data
  {
  }

  // Filing a data message is what a dispatch does to the stored parts.
  lemma FiledStored(v: Cpu, handlers: seq<bool>, n: nat, m: Message)
    requires CanDispatch(v, handlers) && m == Parse(v.rx).message && m.Data? && n == |m.words| && n < |v.rx|
    requires Parse(v.rx).used == n + 1
    ensures |v.pending| == QUEUES && v.rx != []
    ensures SameStored(Queued(Drop(v, RX), n, m), Dispatch(v, handlers))
  {
    hide Parse;
    assert v.rx[1..][n..] == v.rx[n + 1..];
  }

  // The layout after a data message was filed.
  ghost function FiledLayout(l: Layout, n: nat, q: nat): Layout
    requires |l.chain| == |l.base| == QUEUES + 1 && |l.rank| == |l.where| && n < |l.chain[RX]| && RX < q <= QUEUES
  {
    Move(Move(l, RX, 1, FREE), RX, n, q)
  }

  lemma FileDispatches(s: Store, heads: seq<nat>, l: Layout, v: Cpu, n: nat, m: Message, handlers: seq<bool>)
    requires WellShaped(s) && Represents(s, heads, l, v) && l.chain[HELD] == []
    requires CanDispatch(v, handlers) && m == Parse(v.rx).message && Parse(v.rx).used == n + 1
    requires m.Data? && n == |m.words| && n < |v.rx| && v.rx[1..n + 1] == m.words
    ensures |l.chain| == |l.base| == QUEUES + 1 && |l.rank| == |l.where| && n < |l.chain[RX]|
    ensures Deliverable(m) && RX < QueueOf(m) < QUEUES
    ensures |heads| == QUEUES && heads[RX] < |s.next| && s.next[heads[RX]] == l.chain[RX][1] < |s.next|
    ensures CanFile(s, heads, QueueOf(m), l.chain[RX][1], l.chain[RX][n])
    ensures FiledLayout(l, n, QueueOf(m)).chain[HELD] == [] && |FiledLayout(l, n, QueueOf(m)).chain| == QUEUES + 1
    ensures var t := Filed(s, heads, QueueOf(m), l.chain[RX][1], l.chain[RX][n], m.length);
      Represents(t, t.head, FiledLayout(l, n, QueueOf(m)), Dispatch(v, handlers))
  {
    hide Represents, Sound, Payloads, Move, Dispatch, Parse, Filed, CanFile, Placed, Covered;
    RepresentsIs(s, heads, l, v);
    SoundIsPartition(s, heads, l);
    LayoutShape(|s.next|, l);
    FileRepresents(s, heads, l, v, n, m);
    HeadTellsWords(s, heads, l, v, RX);
    ChainIsBounded(s, heads, l, RX);
    CutPoint(s, heads, l, RX, 1);
    MoveChains(l, RX, 1, FREE);
    MoveShape(|s.next|, l, RX, 1, FREE);
    MoveChains(Move(l, RX, 1, FREE), RX, n, QueueOf(m));
    FiledStored(v, handlers, n, m);
    var t := Filed(s, heads, QueueOf(m), l.chain[RX][1], l.chain[RX][n], m.length);
    RepresentsSame(t, t.head, FiledLayout(l, n, QueueOf(m)), Queued(Drop(v, RX), n, m), Dispatch(v, handlers));
  }

  // What a dispatch does to the stored parts for an address, and for a value in one or two words.
  lemma StoredByDispatch(v: Cpu, handlers: seq<bool>)
    requires CanDispatch(v, handlers) && !Parse(v.rx).message.Data?
    requires Parse(v.rx).used == 1 || Parse(v.rx).used == 2
    ensures var m := Parse(v.rx).message; var q := QueueOf(m);
      var u := if Parse(v.rx).used == 1 then v else Drop(v, RX);
      SameStored(if handlers[q] then Drop(u, RX) else Queued(u, 1, m), Dispatch(v, handlers))
  {
    hide Parse;
    if Parse(v.rx).used == 2 {
      assert v.rx[1..][1..] == v.rx[2..];
    }
  }

  lemma SpecialIsUndeliverable(rx: seq<Word>)
    requires rx != [] && IsSpecial(rx[0])
    ensures Parse(rx).Got? && !Deliverable(Parse(rx).message)
  {
    hide HasBit;
    ParseByHeader(rx);
  }

  // ----- taking a message out of the queue of a channel, one block at a time

  // Everything is stored as it should be, except perhaps queue q.
  ghost predicate Opened(s: Store, heads: seq<nat>, l: Layout, v: Cpu, q: nat) {
    && Sound(s, heads, l)
    && |v.pending| == QUEUES && |l.chain| == QUEUES + 1
    && (forall r {:trigger StoresQueue(s, l, v, r)} :: TX <= r < QUEUES && r != q ==> StoresQueue(s, l, v, r))
  }

  lemma RepresentsOpened(s: Store, heads: seq<nat>, l: Layout, v: Cpu, q: nat)
    requires Represents(s, heads, l, v)
    ensures Opened(s, heads, l, v, q)
  {
    hide StoresQueue, Placed, Covered, Links, Ends;
  }

  lemma OpenedStores(s: Store, heads: seq<nat>, l: Layout, v: Cpu, q: nat, r: nat)
    requires Opened(s, heads, l, v, q) && TX <= r < QUEUES && r != q
    ensures |v.pending| == QUEUES && |l.chain| == QUEUES + 1 && StoresQueue(s, l, v, r)
  {
    hide StoresQueue, Sound;
    assert StoresQueue(s, l, v, r);
  }

  lemma OpenedIs(s: Store, heads: seq<nat>, l: Layout, v: Cpu, q: nat)
    requires Opened(s, heads, l, v, q)
    ensures Sound(s, heads, l) && |v.pending| == QUEUES && |l.chain| == QUEUES + 1
  {
    hide StoresQueue, Sound;
  }

  lemma OpenedHead(s: Store, heads: seq<nat>, l: Layout, v: Cpu, q: nat)
    requires Opened(s, heads, l, v, q) && q < QUEUES
    ensures |heads| == QUEUES && |l.chain| == QUEUES + 1
    ensures heads[q] == TERMINATE <==> l.chain[q] == []
    ensures l.chain[q] != [] ==> heads[q] == l.chain[q][0]
  {
    hide StoresQueue, Sound;
    HeadTells(s, heads, l, q);
  }

  lemma FreeKeepsOpened(s: Store, heads: seq<nat>, l: Layout, v: Cpu, q: nat)
    requires WellShaped(s) && Opened(s, heads, l, v, q) && TX <= q < QUEUES && l.chain[q] != []
    ensures |heads| == QUEUES && heads[q] < |s.next| && s.tail[FREE] < |s.next| && heads[q] == l.chain[q][0]
    ensures |l.base| == QUEUES + 1 && |l.rank| == |l.where|
    ensures var m := Move(l, q, 1, FREE);
      && Opened(Freed(s, heads[q]), heads[q := s.next[heads[q]]], m, v, q)
      && m.chain[q] == l.chain[q][1..]
      && forall r {:trigger m.chain[r]} :: 0 <= r <= QUEUES && r != q && r != FREE ==> m.chain[r] == l.chain[r]
  {
    hide Opened, Sound, Moved, Move, Framed, Placed, Covered, Holds, StoresQueue, Freed;
    OpenedIs(s, heads, l, v, q);
    SoundIsPartition(s, heads, l);
    FreeMoves(s, heads, l, q);
    var t, heads', m := Freed(s, heads[q]), heads[q := s.next[heads[q]]], Move(l, q, 1, FREE);
    Moves(s, heads, l, q, 1, FREE, t, heads');
    forall r | TX <= r < QUEUES && r != q ensures StoresQueue(t, m, v, r) {
      OpenedStores(s, heads, l, v, q, r);
      MoveStoresOther(s, heads, l, q, 1, FREE, t, heads', v, v, r);
    }
    OpenedBy(t, heads', m, v, q);
  }

  lemma OpenedBy(s: Store, heads: seq<nat>, l: Layout, v: Cpu, q: nat)
    requires Sound(s, heads, l) && |v.pending| == QUEUES && |l.chain| == QUEUES + 1
    requires forall r :: TX <= r < QUEUES && r != q ==> StoresQueue(s, l, v, r)
    ensures Opened(s, heads, l, v, q)
  {
    hide StoresQueue, Sound;
  }

  // When the blocks of the first message of queue q are gone, the message is.
  lemma TakeRepresents(s0: Store, heads0: seq<nat>, l0: Layout, s: Store, heads: seq<nat>, l: Layout, v: Cpu, q: nat)
    requires Represents(s0, heads0, l0, v) && CanTake(v, q) && q >= ADDRESS && |v.taken| == QUEUES
    requires Opened(s, heads, l, v, q)
    requires |Payload(v.pending[q][0])| <= |l0.chain[q]|
    requires l.chain[q] == l0.chain[q][|Payload(v.pending[q][0])|..] && l.chain[HELD] == l0.chain[HELD]
    requires s.data == s0.data && |s.extra| == |s0.extra|
    requires forall i {:trigger l.chain[q][i]} :: 0 <= i < |l.chain[q]| ==>
               l.chain[q][i] < |s.extra| && s.extra[l.chain[q][i]] == s0.extra[l.chain[q][i]]
    requires s.freeWords == s0.freeWords + |Payload(v.pending[q][0])|
    ensures Represents(s, heads, l, Take(v, q))
  {
    hide Opened, Represents, Sound, Payload, Deliverable;
    RepresentsIs(s0, heads0, l0, v);
    OpenedIs(s, heads, l, v, q);
    StoresOf(s0, heads0, l0, v, q);
    var m, u, k := v.pending[q][0], Take(v, q), |Payload(v.pending[q][0])|;
    forall r | TX <= r < QUEUES ensures StoresQueue(s, l, u, r) {
      if r != q {
        OpenedStores(s, heads, l, v, q, r);
      } else {
        ContentsOfRest(s.data, l0.chain[q], k);
        assert Payloads(v.pending[q])[k..] == Payloads(u.pending[q]);
        if q >= DATA {
          FramedRest(s0, l0, v, q);
          FramedElsewhere(s0.extra, s.extra, l.chain[q], u.pending[q]);
        }
      }
    }
    RepresentsBy(s, heads, l, u);
  }

  lemma FramedRest(s: Store, l: Layout, v: Cpu, q: nat)
    requires |v.pending| == QUEUES && |l.chain| == QUEUES + 1 && DATA <= q < QUEUES && v.pending[q] != []
    requires Framed(s.extra, l.chain[q], v.pending[q])
    ensures |Payload(v.pending[q][0])| <= |l.chain[q]|
    ensures Framed(s.extra, l.chain[q][|Payload(v.pending[q][0])|..], v.pending[q][1..])
  {
  }

  // From s0, i blocks of the first message of queue q were freed.
  ghost predicate Partly(s0: Store, l0: Layout, s: Store, heads: seq<nat>, l: Layout, v: Cpu, q: nat, i: nat) {
    && |l0.chain| == QUEUES + 1 && |l.chain| == QUEUES + 1 && ADDRESS <= q < QUEUES && i <= |l0.chain[q]|
    && Opened(s, heads, l, v, q)
    && l.chain[q] == l0.chain[q][i..]
    && (forall r {:trigger l.chain[r]} :: 0 <= r <= QUEUES && r != FREE && r != q ==> l.chain[r] == l0.chain[r])
    && s.data == s0.data && |s.extra| == |s0.extra| && s.freeWords == s0.freeWords + i
    && (forall k {:trigger l0.chain[q][k]} :: i <= k < |l0.chain[q]| ==>
          l0.chain[q][k] < |s.extra| && s.extra[l0.chain[q][k]] == s0.extra[l0.chain[q][k]])
  }

  lemma PartlyStart(s: Store, heads: seq<nat>, l: Layout, v: Cpu, q: nat)
    requires Represents(s, heads, l, v) && ADDRESS <= q < QUEUES
    ensures Partly(s, l, s, heads, l, v, q, 0)
  {
    hide Represents, Opened, Sound, StoresQueue;
    RepresentsIs(s, heads, l, v);
    SoundIsPartition(s, heads, l);
    ChainIsBounded(s, heads, l, q);
    RepresentsOpened(s, heads, l, v, q);
  }

  lemma PartlyStep(s0: Store, heads0: seq<nat>, l0: Layout, s: Store, heads: seq<nat>, l: Layout, v: Cpu, q: nat,
      i: nat)
    requires Represents(s0, heads0, l0, v) && WellShaped(s)
    requires Partly(s0, l0, s, heads, l, v, q, i) && i < |l0.chain[q]|
    ensures |heads| == QUEUES && heads[q] == l0.chain[q][i] && heads[q] < |s.next| && s.tail[FREE] < |s.next|
    ensures |l.chain| == |l.base| == QUEUES + 1 && |l.rank| == |l.where| && 1 <= |l.chain[q]|
    ensures Partly(s0, l0, Freed(s, heads[q]), heads[q := s.next[heads[q]]], Move(l, q, 1, FREE), v, q, i + 1)
  {
    hide Represents, Opened, Sound, StoresQueue, Move;
    RepresentsIs(s0, heads0, l0, v);
    ChainIsDistinct(s0, heads0, l0, q);
    FreeKeepsOpened(s, heads, l, v, q);
    MoveChains(l, q, 1, FREE);
    assert l.chain[q][0] == l0.chain[q][i];
    assert l.chain[q][1..] == l0.chain[q][i + 1..];
  }

  lemma PartlyEnd(s0: Store, heads0: seq<nat>, l0: Layout, s: Store, heads: seq<nat>, l: Layout, v: Cpu, q: nat, i: nat)
    requires Represents(s0, heads0, l0, v) && Partly(s0, l0, s, heads, l, v, q, i)
    requires CanTake(v, q) && i == |Payload(v.pending[q][0])|
    ensures Represents(s, heads, l, Take(v, q))
  {
    hide Represents, Opened, Sound, StoresQueue, Payload;
    assert forall k {:trigger l.chain[q][k]} :: 0 <= k < |l.chain[q]| ==> l.chain[q][k] == l0.chain[q][i + k];
    TakeRepresents(s0, heads0, l0, s, heads, l, v, q);
  }

  lemma PartlyHead(s0: Store, l0: Layout, s: Store, heads: seq<nat>, l: Layout, v: Cpu, q: nat, i: nat)
    requires Partly(s0, l0, s, heads, l, v, q, i)
    ensures |heads| == QUEUES && |l0.chain| == QUEUES + 1 && i <= |l0.chain[q]|
    ensures heads[q] == TERMINATE <==> i == |l0.chain[q]|
    ensures i < |l0.chain[q]| ==> heads[q] == l0.chain[q][i]
  {
    hide Opened;
    OpenedHead(s, heads, l, v, q);
  }

  lemma {:induction false} ForMembers(ms: seq<Message>, q: nat, i: nat)
    requires i < |For(ms, q)|
    ensures Deliverable(For(ms, q)[i]) && QueueOf(For(ms, q)[i]) == q
  {
    var n := |ms| - 1;
    if i < |For(ms[..n], q)| {
      ForMembers(ms[..n], q, i);
    }
  }

  // The messages in a queue are messages for that queue.
  lemma PendingBelongs(v: Cpu, q: nat)
    requires QueuesInOrder(v) && q < QUEUES && v.pending[q] != []
    ensures Deliverable(v.pending[q][0]) && QueueOf(v.pending[q][0]) == q
    ensures 0 < |Payload(v.pending[q][0])|
  {
    hide For;
    assert v.taken[q] + v.pending[q] == For(v.handled, q);
    var i := |v.taken[q]|;
    assert For(v.handled, q)[i] == v.pending[q][0];
    ForMembers(v.handled, q, i);
  }

  // The head of the queue of a channel says whether it has messages, and its blocks hold the first.
  lemma HeadTellsMessages(s: Store, heads: seq<nat>, l: Layout, v: Cpu, q: nat)
    requires Represents(s, heads, l, v) && QueuesInOrder(v) && ADDRESS <= q < QUEUES
    ensures |heads| == QUEUES && |l.chain| == QUEUES + 1 && |v.pending| == QUEUES && |s.data| == |s.extra| == |s.next|
    ensures heads[q] == TERMINATE <==> v.pending[q] == []
    ensures forall i {:trigger l.chain[q][i]} :: 0 <= i < |l.chain[q]| ==> l.chain[q][i] < |s.next|
    ensures v.pending[q] != [] ==>
      var m := v.pending[q][0];
      && Deliverable(m) && QueueOf(m) == q && 0 < |Payload(m)| <= |l.chain[q]|
      && heads[q] == l.chain[q][0] && heads[q] < |s.next|
      && (forall i {:trigger Payload(m)[i]} :: 0 <= i < |Payload(m)| ==> s.data[l.chain[q][i]] == Payload(m)[i])
      && (m.Data? ==> s.extra[heads[q]] == m.length)
  {
    hide Represents, Sound, Placed, Covered, Payload, Deliverable, QueuesInOrder;
    RepresentsIs(s, heads, l, v);
    SoundIsPartition(s, heads, l);
    HeadTells(s, heads, l, q);
    StoresOf(s, heads, l, v, q);
    ChainIsBounded(s, heads, l, q);
    assert Contents(s.data, l.chain[q]) == Payloads(v.pending[q]);
    if v.pending[q] != [] {
      PendingBelongs(v, q);
      var m := v.pending[q][0];
      QueueRange(m);
      assert |Payloads(v.pending[q])| == |l.chain[q]|;
      forall i | 0 <= i < |Payload(m)| ensures s.data[l.chain[q][i]] == Payload(m)[i] {
        assert Contents(s.data, l.chain[q])[i] == s.data[l.chain[q][i]];
      }
    }
  }

  // While a callback runs, the queue of its channel holds the announced message or nothing.
  lemma FlightIsAlone(v: Cpu, u: Cpu, handlers: seq<bool>, q: nat)
    requires QueuesInOrder(v) && QueuesInOrder(u) && CallbacksInOrder(v, handlers) && CallbacksInOrder(u, handlers)
    requires InCallback(v.control, q) && InCallback(u.control, q) && u.handled == v.handled
    requires q < QUEUES && v.pending[q] != []
    ensures |v.pending[q]| == 1 && (u.pending[q] != [] ==> u.pending[q] == v.pending[q])
  {
    hide For, Announced, Deliverable;
    assert v.taken[q] + v.pending[q] == For(v.handled, q);
    assert u.taken[q] + u.pending[q] == For(v.handled, q);
    assert handlers[q];
    if u.pending[q] != [] {
      assert |u.pending[q]| == 1;
      assert (u.taken[q] + u.pending[q])[|u.taken[q]|] == u.pending[q][0];
      assert (v.taken[q] + v.pending[q])[|v.taken[q]|] == v.pending[q][0];
    }
  }

  // After the callback for a data message, the head of the queue is the block it was before exactly
  // when the message was not fetched; what is in the queue then is that message.
  lemma UnfetchedIsSame(s: Store, heads: seq<nat>, l: Layout, v: Cpu, t: Store, heads': seq<nat>, k: Layout, u: Cpu,
                        handlers: seq<bool>, q: nat)
    requires Represents(s, heads, l, v) && Represents(t, heads', k, u)
    requires QueuesInOrder(v) && QueuesInOrder(u) && CallbacksInOrder(v, handlers) && CallbacksInOrder(u, handlers)
    requires InCallback(v.control, q) && InCallback(u.control, q) && u.handled == v.handled
    requires DATA <= q < QUEUES && v.pending[q] != []
    requires |l.chain| == |k.chain| == QUEUES + 1 && |k.chain[q]| <= |l.chain[q]|
    requires k.chain[q] == l.chain[q][|l.chain[q]| - |k.chain[q]|..]
    ensures |heads| == |heads'| == QUEUES
    ensures |v.pending| == |u.pending| == QUEUES && |v.pending[q]| == 1
    ensures heads'[q] == heads[q] <==> u.pending[q] != []
    ensures u.pending[q] != [] ==> u.pending[q] == v.pending[q]
  {
    hide Represents, QueuesInOrder, CallbacksInOrder, Payload, Contents, Deliverable;
    InOrderShape(v);
    InOrderShape(u);
    FlightIsAlone(v, u, handlers, q);
    HeadTellsMessages(s, heads, l, v, q);
    HeadTellsMessages(t, heads', k, u, q);
    if u.pending[q] != [] {
      QueueLength(s, heads, l, v, q);
      QueueLength(t, heads', k, u, q);
      assert k.chain[q] == l.chain[q];
    }
  }

  lemma InOrderShape(v: Cpu)
    requires QueuesInOrder(v)
    ensures |v.pending| == |v.taken| == QUEUES
  {
  }

  lemma QueueLength(s: Store, heads: seq<nat>, l: Layout, v: Cpu, q: nat)
    requires Represents(s, heads, l, v) && ADDRESS <= q < QUEUES
    ensures |l.chain| == QUEUES + 1 && |v.pending| == QUEUES && |l.chain[q]| == |Payloads(v.pending[q])|
  {
    hide Represents, Sound;
    RepresentsIs(s, heads, l, v);
    StoresOf(s, heads, l, v, q);
    assert Contents(s.data, l.chain[q]) == Payloads(v.pending[q]);
  }

  lemma EmptyWasTaken(v: Cpu, u: Cpu, q: nat)
    requires QueuesInOrder(v) && QueuesInOrder(u) && u.handled == v.handled && q < QUEUES && u.pending[q] == []
    ensures v.taken[q] + v.pending[q] <= u.taken[q]
  {
    hide For, Deliverable;
    assert v.taken[q] + v.pending[q] == For(v.handled, q);
    assert u.taken[q] + u.pending[q] == For(v.handled, q);
  }

  // All blocks are in the free queue, in order.
  ghost function FirstLayout(size: nat): Layout {
    Layout(seq(QUEUES + 1, q => if q == FREE then seq(size, i => i) else []),
           seq(size, b => FREE), seq(size, b => b), seq(QUEUES + 1, q => 0))
  }

  lemma FirstLinked(next: seq<nat>, head: seq<nat>, tail: seq<nat>)
    requires 0 < |next| < TERMINATE && |head| == |tail| == QUEUES
    requires forall k {:trigger next[k]} :: 0 <= k < |next| - 1 ==> next[k] == k + 1
    requires next[|next| - 1] == TERMINATE && head[FREE] == 0 && tail[FREE] == |next| - 1
    requires forall q {:trigger head[q]} :: TX <= q < QUEUES ==> head[q] == TERMINATE
    ensures FifoLayout.Linked(next, head, tail, FirstLayout(|next|))
  {
    hide Links, Ends, FirstLayout;
    FirstPartition(|next|);
    var l := FirstLayout(|next|);
    forall q | 0 <= q <= QUEUES ensures Links(next, l.chain[q]) {
      FirstChain(|next|, q);
      LinksOfFirst(next, l.chain[q]);
    }
    forall q | 0 <= q < QUEUES ensures Ends(l.chain[q], head[q], tail[q]) {
      FirstChain(|next|, q);
      EndsOfFirst(l.chain[q], head[q], tail[q]);
    }
  }

  lemma FirstPartition(n: nat)
    ensures Partition(n, FirstLayout(n))
  {
  }

  lemma FirstChain(n: nat, q: nat)
    requires q <= QUEUES
    ensures |FirstLayout(n).chain| == QUEUES + 1
    ensures FirstLayout(n).chain[q] == if q == FREE then seq(n, i => i) else []
  {
  }

  lemma LinksOfFirst(next: seq<nat>, c: seq<nat>)
    requires c == [] || c == seq(|next|, i => i)
    requires 0 < |next| && forall k {:trigger next[k]} :: 0 <= k < |next| - 1 ==> next[k] == k + 1
    requires next[|next| - 1] == TERMINATE
    ensures Links(next, c)
  {
  }

  lemma EndsOfFirst(c: seq<nat>, head: nat, tail: nat)
    requires c == [] ==> head == TERMINATE
    requires c != [] ==> c == seq(|c|, i => i) && head == 0 && tail == |c| - 1
    ensures Ends(c, head, tail)
  {
  }

  lemma InitialRepresents(s: Store)
    requires WellShaped(s) && 0 < |s.next| && s.freeWords == |s.next| - 1
    requires forall k {:trigger s.next[k]} :: 0 <= k < |s.next| - 1 ==> s.next[k] == k + 1
    requires s.next[|s.next| - 1] == TERMINATE && s.head[FREE] == 0 && s.tail[FREE] == |s.next| - 1
    requires forall q {:trigger s.head[q]} :: TX <= q < QUEUES ==> s.head[q] == TERMINATE
    ensures Represents(s, s.head, FirstLayout(|s.next|), Initial(|s.next| - 1))
    ensures |FirstLayout(|s.next|).chain| == QUEUES + 1 && FirstLayout(|s.next|).chain[HELD] == []
  {
    hide FifoLayout.Linked, FirstLayout;
    FirstLinked(s.next, s.head, s.tail);
    FirstChain(|s.next|, FREE);
    FirstChain(|s.next|, HELD);
    var l, v := FirstLayout(|s.next|), Initial(|s.next| - 1);
    forall q | TX <= q < QUEUES ensures StoresQueue(s, l, v, q) {
      FirstChain(|s.next|, q);
    }
    RepresentsBy(s, s.head, l, v);
  }
}
