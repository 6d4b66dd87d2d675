// How the pool of source/common/fifosystem.c stores the queues of FifoProtocol.
//
// A Store is a snapshot of the global variables. Represents says which Cpu value it stands for;
// StoreMove is the one argument behind every operation that moves blocks between queues.

module FifoStore {
  import opened FifoLayout
  import opened FifoWire
  import opened Words
  import opened FifoProtocol

  datatype Store = Store(next: seq<nat>, extra: seq<nat>, data: seq<Word>,
                         head: seq<nat>, tail: seq<nat>, freeWords: nat)

  // The words in a chain of blocks.
  ghost function Contents(data: seq<Word>, c: seq<nat>): seq<Word> {
    seq(|c|, i requires 0 <= i < |c| => if c[i] < |data| then data[c[i]] else 0)
  }

  // The blocks of the messages of a data queue come one message after the other, and the first
  // block of each message has its length in `extra`.
  ghost predicate Framed(extra: seq<nat>, c: seq<nat>, ms: seq<Message>) {
    if ms == [] then c == []
    else
      && ms[0].Data? && Deliverable(ms[0]) && |ms[0].words| <= |c|
      && c[0] < |extra| && extra[c[0]] == ms[0].length
      && Framed(extra, c[|ms[0].words|..], ms[1..])
  }

  // The words that a queue holds.
  function Holds(v: Cpu, q: nat): seq<Word>
    requires |v.pending| == QUEUES && q < QUEUES
  {
    if q == TX then v.tx else if q == RX then v.rx else Payloads(v.pending[q])
  }

  ghost predicate Sound(s: Store, heads: seq<nat>, l: Layout) {
    && |s.extra| == |s.next| && |s.data| == |s.next|
    && FifoLayout.Linked(s.next, heads, s.tail, l)
    && |l.chain[FREE]| == s.freeWords + 1
  }

  ghost predicate StoresQueue(s: Store, l: Layout, v: Cpu, q: nat)
    requires |v.pending| == QUEUES && q < QUEUES && |l.chain| == QUEUES + 1
  {
    Contents(s.data, l.chain[q]) == Holds(v, q) && (q >= DATA ==> Framed(s.extra, l.chain[q], v.pending[q]))
  }

  // `heads` are the heads of the queues; a loop that keeps the head of one queue in a local
  // variable passes that one instead of the stale one in the Store.
  ghost predicate Represents(s: Store, heads: seq<nat>, l: Layout, v: Cpu) {
    && Sound(s, heads, l)
    && |v.pending| == QUEUES
    && v.free == s.freeWords + |l.chain[HELD]|
    && (forall q {:trigger StoresQueue(s, l, v, q)} :: TX <= q < QUEUES ==> StoresQueue(s, l, v, q))
  }

  // s and t differ only in the blocks of the given list and in how blocks are linked.
  ghost predicate SameElsewhere(s: Store, t: Store, blocks: seq<nat>) {
    && |t.next| == |s.next| && |t.data| == |s.data| && |t.extra| == |s.extra|
    && (forall b {:trigger t.data[b]} :: 0 <= b < |s.data| && b !in blocks ==> t.data[b] == s.data[b])
    && (forall b {:trigger t.extra[b]} :: 0 <= b < |s.extra| && b !in blocks ==> t.extra[b] == s.extra[b])
  }

  lemma {:induction false} FramedElsewhere(extra: seq<nat>, extra': seq<nat>, c: seq<nat>, ms: seq<Message>)
    requires |extra'| == |extra|
    requires forall i {:trigger c[i]} :: 0 <= i < |c| ==> c[i] < |extra| && extra'[c[i]] == extra[c[i]]
    requires Framed(extra, c, ms)
    ensures Framed(extra', c, ms)
  {
    if ms != [] {
      FramedElsewhere(extra, extra', c[|ms[0].words|..], ms[1..]);
    }
  }

  lemma {:induction false} FramedConcat(extra: seq<nat>, c: seq<nat>, ms: seq<Message>, d: seq<nat>, m: Message)
    requires Framed(extra, c, ms)
    requires m.Data? && Deliverable(m) && |m.words| == |d| && d[0] < |extra| && extra[d[0]] == m.length
    ensures Framed(extra, c + d, ms + [m])
  {
    if ms == [] {
      assert c + d == d && ms + [m] == [m] && d[|d|..] == [] && [m][1..] == [];
    } else {
      var k := |ms[0].words|;
      assert (c + d)[k..] == c[k..] + d && (ms + [m])[1..] == ms[1..] + [m];
      FramedConcat(extra, c[k..], ms[1..], d, m);
    }
  }

  lemma ContentsOfRest(data: seq<Word>, c: seq<nat>, k: nat)
    requires k <= |c|
    ensures Contents(data, c[k..]) == Contents(data, c)[k..]
  {
  }

  lemma ContentsOfJoin(data: seq<Word>, c: seq<nat>, d: seq<nat>)
    ensures Contents(data, c + d) == Contents(data, c) + Contents(data, d)
  {
  }

  lemma ContentsElsewhere(data: seq<Word>, data': seq<Word>, c: seq<nat>)
    requires |data'| == |data|
    requires forall i {:trigger c[i]} :: 0 <= i < |c| ==> c[i] < |data| && data'[c[i]] == data[c[i]]
    ensures Contents(data', c) == Contents(data, c)
  {
  }

  // What s, with the given heads, becomes when the first k blocks of queue q go to queue p.
  ghost predicate Moved(s: Store, heads: seq<nat>, l: Layout, q: nat, k: nat, p: nat, t: Store, heads': seq<nat>)
    requires Sound(s, heads, l) && q <= QUEUES && p <= QUEUES && q != p && 0 < k <= |l.chain[q]|
  {
    && t.next == MovedLinks(s.next, l, q, k, p)
    && Rehung(heads, s.tail, l, q, k, p, heads', t.tail)
    && SameElsewhere(s, t, l.chain[q][..k])
    && t.freeWords + 1 == |Move(l, q, k, p).chain[FREE]|
  }

  lemma StoreMove(s: Store, heads: seq<nat>, l: Layout, q: nat, k: nat, p: nat, t: Store, heads': seq<nat>)
    requires Sound(s, heads, l) && q <= QUEUES && p <= QUEUES && q != p && 0 < k <= |l.chain[q]|
    requires Moved(s, heads, l, q, k, p, t, heads')
    ensures Sound(t, heads', Move(l, q, k, p))
  {
    hide MovedLinks, Rehung, Linked, SameElsewhere;
    MoveKeepsLinked(s.next, heads, s.tail, l, q, k, p, t.next, heads', t.tail);
    assert |t.next| == |s.next| && |t.data| == |s.data| && |t.extra| == |s.extra| by {
      MovedShape(s, heads, l, q, k, p, t, heads');
    }
  }

  lemma MovedShape(s: Store, heads: seq<nat>, l: Layout, q: nat, k: nat, p: nat, t: Store, heads': seq<nat>)
    requires Sound(s, heads, l) && q <= QUEUES && p <= QUEUES && q != p && 0 < k <= |l.chain[q]|
    requires Moved(s, heads, l, q, k, p, t, heads')
    ensures |t.next| == |s.next| && |t.data| == |s.data| && |t.extra| == |s.extra|
  {
  }

  // A queue that takes no part in the move still stores what it stored.
  lemma MoveStoresOther(s: Store, heads: seq<nat>, l: Layout, q: nat, k: nat, p: nat, t: Store, heads': seq<nat>,
                        v: Cpu, u: Cpu, r: nat)
    requires Sound(s, heads, l) && q <= QUEUES && p <= QUEUES && q != p && 0 < k <= |l.chain[q]|
    requires Moved(s, heads, l, q, k, p, t, heads')
    requires Sound(t, heads', Move(l, q, k, p))
    requires r < QUEUES && r != q && r != p && |v.pending| == |u.pending| == QUEUES
    requires StoresQueue(s, l, v, r) && Holds(u, r) == Holds(v, r) && u.pending[r] == v.pending[r]
    ensures StoresQueue(t, Move(l, q, k, p), u, r)
  {
    hide MovedLinks, Rehung, Holds, Links, Ends;
    var c := l.chain[r];
    assert Move(l, q, k, p).chain[r] == c;
    assert Partition(|s.next|, l);
    NotInFront(|s.next|, l, q, k, r);
    assert forall i {:trigger c[i]} :: 0 <= i < |c| ==> l.chain[r][i] == c[i] && c[i] < |s.next|;
    ContentsElsewhere(s.data, t.data, c);
    if r >= DATA {
      FramedElsewhere(s.extra, t.extra, c, v.pending[r]);
    }
  }

  // The words that are left in queue q, and the words that queue p has then.
  lemma MoveContents(s: Store, heads: seq<nat>, l: Layout, q: nat, k: nat, p: nat, t: Store, heads': seq<nat>)
    requires Sound(s, heads, l) && q <= QUEUES && p <= QUEUES && q != p && 0 < k <= |l.chain[q]|
    requires Moved(s, heads, l, q, k, p, t, heads')
    requires Sound(t, heads', Move(l, q, k, p))
    ensures var m := Move(l, q, k, p);
      && m.chain[q] == l.chain[q][k..] && m.chain[p] == l.chain[p] + l.chain[q][..k]
      && Contents(t.data, m.chain[q]) == Contents(s.data, l.chain[q])[k..]
      && Contents(t.data, m.chain[p]) == Contents(s.data, l.chain[p]) + Contents(t.data, l.chain[q][..k])
  {
    hide MovedLinks, Rehung, Links, Ends;
    var c, d := l.chain[q], l.chain[p];
    assert Partition(|s.next|, l);
    NotInFront(|s.next|, l, q, k, q);
    NotInFront(|s.next|, l, q, k, p);
    assert forall i {:trigger c[k..][i]} :: 0 <= i < |c| - k ==> c[k..][i] == l.chain[q][k + i];
    assert forall i {:trigger d[i]} :: 0 <= i < |d| ==> d[i] == l.chain[p][i];
    ContentsOfRest(s.data, c, k);
    ContentsElsewhere(s.data, t.data, c[k..]);
    ContentsElsewhere(s.data, t.data, d);
    ContentsOfJoin(t.data, d, c[..k]);
  }

  // ----- the pool operations of the source, on snapshots

  predicate WellShaped(s: Store) {
    && |s.next| < TERMINATE && |s.extra| == |s.next| && |s.data| == |s.next| && |s.head| == QUEUES && |s.tail| == QUEUES
  }

  // fifo_buffer_alloc_block, when there is a free block to give.
  function Allocated(s: Store): Store
    requires WellShaped(s) && s.freeWords > 0 && s.head[FREE] < |s.next|
  {
    var entry := s.head[FREE];
    s.(freeWords := s.freeWords - 1, head := s.head[FREE := s.next[entry]], next := s.next[entry := TERMINATE])
  }

  // fifo_buffer_free_block
  function Freed(s: Store, b: nat): Store
    requires WellShaped(s) && b < |s.next| && s.tail[FREE] < |s.next|
  {
    s.(next := s.next[b := TERMINATE][s.tail[FREE] := b], extra := s.extra[b := 0],
       tail := s.tail[FREE := b], freeWords := s.freeWords + 1)
  }

  lemma FreedHeads(s: Store, b: nat, heads: seq<nat>)
    requires WellShaped(s) && b < |s.next| && s.tail[FREE] < |s.next| && |heads| == QUEUES
    ensures Freed(s.(head := heads), b) == Freed(s, b).(head := heads)
  {
  }

  // fifo_queue_append_list
  function Appended(s: Store, q: nat, first: nat, last: nat): Store
    requires WellShaped(s) && q < QUEUES && last < |s.next| && (s.head[q] != TERMINATE ==> s.tail[q] < |s.next|)
  {
    if s.head[q] == TERMINATE then
      s.(next := s.next[last := TERMINATE], head := s.head[q := first], tail := s.tail[q := last])
    else
      s.(next := s.next[last := TERMINATE][s.tail[q] := first], tail := s.tail[q := last])
  }

  // The parts of a Cpu that are stored in the pool.
  predicate SameStored(v: Cpu, u: Cpu) {
    v.free == u.free && v.tx == u.tx && v.rx == u.rx && v.pending == u.pending
  }

  lemma RepresentsSame(s: Store, heads: seq<nat>, l: Layout, v: Cpu, u: Cpu)
    requires Represents(s, heads, l, v) && SameStored(v, u)
    ensures Represents(s, heads, l, u)
  {
    hide Sound, Framed, Contents, Payloads;
    SoundIsPartition(s, heads, l);
    forall q | TX <= q < QUEUES ensures StoresQueue(s, l, u, q) {
      assert StoresQueue(s, l, v, q);
    }
  }

  // Only the given heads count, not those of the snapshot.
  lemma RepresentsHeads(s: Store, heads: seq<nat>, l: Layout, v: Cpu, h: seq<nat>)
    requires Represents(s, heads, l, v)
    ensures Represents(s.(head := h), heads, l, v)
  {
    hide Placed, Covered, Links, Ends, Contents, Framed;
    forall q | TX <= q < QUEUES ensures StoresQueue(s.(head := h), l, v, q) {
      assert StoresQueue(s, l, v, q);
    }
  }

  lemma SoundIsPartition(s: Store, heads: seq<nat>, l: Layout)
    requires Sound(s, heads, l)
    ensures Partition(|s.next|, l) && |s.extra| == |s.next| && |s.data| == |s.next| && |s.next| < TERMINATE
    ensures |l.chain[FREE]| == s.freeWords + 1 && |heads| == |s.tail| == QUEUES
  {
  }

  lemma SoundEnds(s: Store, heads: seq<nat>, l: Layout, q: nat)
    requires Sound(s, heads, l) && q < QUEUES
    ensures |heads| == |s.tail| == QUEUES && |l.chain| == QUEUES + 1
    ensures Ends(l.chain[q], heads[q], s.tail[q]) && Links(s.next, l.chain[q])
  {
    hide Placed, Covered;
    assert Ends(l.chain[q], heads[q], s.tail[q]);
  }

  // The blocks that follow the first k of a chain begin where the k-th block points.
  lemma CutPoint(s: Store, heads: seq<nat>, l: Layout, q: nat, k: nat)
    requires Sound(s, heads, l) && q <= QUEUES && 0 < k <= |l.chain[q]|
    ensures l.chain[q][k - 1] < |s.next|
    ensures s.next[l.chain[q][k - 1]] == if k < |l.chain[q]| then l.chain[q][k] else TERMINATE
  {
    hide Placed, Covered;
    assert Links(s.next, l.chain[q]);
    assert l.chain[q][k - 1] < |s.next|;
  }

  // The head of a queue says whether it is empty, and a tail is a block when it is not.
  lemma HeadTells(s: Store, heads: seq<nat>, l: Layout, p: nat)
    requires Sound(s, heads, l) && p < QUEUES
    ensures |heads| == |s.tail| == QUEUES && |l.chain| == QUEUES + 1
    ensures heads[p] == TERMINATE <==> l.chain[p] == []
    ensures l.chain[p] != [] ==> heads[p] == l.chain[p][0] && heads[p] < |s.next|
    ensures l.chain[p] != [] ==> s.tail[p] == l.chain[p][|l.chain[p]| - 1] && s.tail[p] < |s.next|
  {
    hide Placed, Covered;
    SoundEnds(s, heads, l, p);
    var c := l.chain[p];
    if c != [] {
      assert c[0] < |s.next| && c[|c| - 1] < |s.next|;
    }
  }

  lemma AllocateMoves(s: Store, l: Layout)
    requires WellShaped(s) && Sound(s, s.head, l) && s.freeWords > 0 && l.chain[HELD] == []
    ensures s.head[FREE] == l.chain[FREE][0] && s.head[FREE] < |s.next|
    ensures Moved(s, s.head, l, FREE, 1, HELD, Allocated(s), Allocated(s).head)
  {
    hide Sound, Placed, Covered;
    SoundIsPartition(s, s.head, l);
    HeadTells(s, s.head, l, FREE);
    CutPoint(s, s.head, l, FREE, 1);
  }

  // MovedLinks in terms of the head and the tail of the queue that grows.
  lemma LinksByEnds(next: seq<nat>, l: Layout, q: nat, k: nat, p: nat, head: nat, tail: nat)
    requires Partition(|next|, l) && q <= QUEUES && p <= QUEUES && q != p && 0 < k <= |l.chain[q]|
    requires l.chain[q][k - 1] < |next|
    requires head == TERMINATE <==> l.chain[p] == []
    requires l.chain[p] != [] ==> tail == l.chain[p][|l.chain[p]| - 1] && tail < |next|
    ensures MovedLinks(next, l, q, k, p) ==
            if head == TERMINATE then next[l.chain[q][k - 1] := TERMINATE]
            else next[l.chain[q][k - 1] := TERMINATE][tail := l.chain[q][0]]
  {
    hide Placed, Covered;
  }

  lemma HungByEnds(head: seq<nat>, tail: seq<nat>, l: Layout, q: nat, k: nat, p: nat, head': seq<nat>, tail': seq<nat>)
    requires |head| == |tail| == QUEUES && |l.chain| == QUEUES + 1
    requires q <= QUEUES && p < QUEUES && q != p && 0 < k <= |l.chain[q]|
    requires head[p] == TERMINATE <==> l.chain[p] == []
    requires var cut := if q < QUEUES then head[q := if k < |l.chain[q]| then l.chain[q][k] else TERMINATE] else head;
      head' == if head[p] == TERMINATE then cut[p := l.chain[q][0]] else cut
    requires tail' == tail[p := l.chain[q][k - 1]]
    ensures Rehung(head, tail, l, q, k, p, head', tail')
  {
  }

  // The first block of queue q is freed; `heads` says where q begins.
  lemma FreeMoves(s: Store, heads: seq<nat>, l: Layout, q: nat)
    requires WellShaped(s) && Sound(s, heads, l) && TX <= q < QUEUES && l.chain[q] != []
    ensures |heads| == QUEUES && |l.chain| == QUEUES + 1
    ensures heads[q] == l.chain[q][0] && heads[q] < |s.next| && s.tail[FREE] < |s.next|
    ensures Moved(s, heads, l, q, 1, FREE, Freed(s, heads[q]), heads[q := s.next[heads[q]]])
  {
    hide Sound, Partition, MovedLinks, Rehung, SameElsewhere;
    SoundIsPartition(s, heads, l);
    HeadTells(s, heads, l, q);
    HeadTells(s, heads, l, FREE);
    CutPoint(s, heads, l, q, 1);
    var t := Freed(s, heads[q]);
    LinksByEnds(s.next, l, q, 1, FREE, heads[FREE], s.tail[FREE]);
    HungByEnds(heads, s.tail, l, q, 1, FREE, heads[q := s.next[heads[q]]], t.tail);
    assert l.chain[q][..1] == [heads[q]];
    FreedElsewhere(s, heads[q]);
  }

  lemma FreedElsewhere(s: Store, b: nat)
    requires WellShaped(s) && b < |s.next| && s.tail[FREE] < |s.next|
    ensures SameElsewhere(s, Freed(s, b), [b])
  {
  }

  // t is s after the head of q moved past the first k blocks of its chain, and after changes to
  // what those blocks hold.
  ghost predicate CutOff(s: Store, heads: seq<nat>, l: Layout, q: nat, k: nat, t: Store)
    requires Sound(s, heads, l) && RX <= q <= HELD && 0 < k <= |l.chain[q]|
  {
    && WellShaped(s) && WellShaped(t)
    && SameElsewhere(s, t, l.chain[q][..k]) && t.next == s.next && t.tail == s.tail && t.freeWords == s.freeWords
    && l.chain[q][k - 1] < |s.next|
    && t.head == if q < QUEUES then heads[q := s.next[l.chain[q][k - 1]]] else heads
  }

  lemma AppendRelinks(s: Store, heads: seq<nat>, l: Layout, q: nat, k: nat, p: nat, t: Store)
    requires Sound(s, heads, l) && RX <= q <= HELD && TX <= p < QUEUES && q != p && 0 < k <= |l.chain[q]|
    requires CutOff(s, heads, l, q, k, t)
    ensures t.head[p] != TERMINATE ==> t.tail[p] < |t.next|
    ensures Appended(t, p, l.chain[q][0], l.chain[q][k - 1]).next == MovedLinks(s.next, l, q, k, p)
  {
    hide Sound, Partition, MovedLinks, SameElsewhere;
    HeadTells(s, heads, l, p);
    SoundIsPartition(s, heads, l);
    assert t.head[p] == heads[p];
    LinksByEnds(s.next, l, q, k, p, heads[p], s.tail[p]);
  }

  lemma AppendRehangs(s: Store, heads: seq<nat>, l: Layout, q: nat, k: nat, p: nat, t: Store)
    requires Sound(s, heads, l) && RX <= q <= HELD && TX <= p < QUEUES && q != p && 0 < k <= |l.chain[q]|
    requires CutOff(s, heads, l, q, k, t) && (t.head[p] != TERMINATE ==> t.tail[p] < |t.next|)
    ensures var u := Appended(t, p, l.chain[q][0], l.chain[q][k - 1]);
      Rehung(heads, s.tail, l, q, k, p, u.head, u.tail)
  {
    hide Sound, Partition, SameElsewhere, Rehung;
    HeadTells(s, heads, l, p);
    CutPoint(s, heads, l, q, k);
    var u := Appended(t, p, l.chain[q][0], l.chain[q][k - 1]);
    assert t.head[p] == heads[p];
    HungByEnds(heads, s.tail, l, q, k, p, u.head, u.tail);
  }

  // The blocks that were cut off queue q are appended to queue p.
  lemma AppendMoves(s: Store, heads: seq<nat>, l: Layout, q: nat, k: nat, p: nat, t: Store)
    requires Sound(s, heads, l) && RX <= q <= HELD && TX <= p < QUEUES && q != p && 0 < k <= |l.chain[q]|
    requires CutOff(s, heads, l, q, k, t)
    ensures t.head[p] != TERMINATE ==> t.tail[p] < |t.next|
    ensures var u := Appended(t, p, l.chain[q][0], l.chain[q][k - 1]);
      Moved(s, heads, l, q, k, p, u, u.head)
  {
    hide Sound, Placed, Covered, MovedLinks, Rehung, SameElsewhere;
    AppendRelinks(s, heads, l, q, k, p, t);
    AppendRehangs(s, heads, l, q, k, p, t);
    SoundIsPartition(s, heads, l);
    var u := Appended(t, p, l.chain[q][0], l.chain[q][k - 1]);
    SameWhenRelinked(s, t, u, l.chain[q][..k]);
  }

  lemma SameWhenRelinked(s: Store, t: Store, u: Store, blocks: seq<nat>)
    requires SameElsewhere(s, t, blocks) && u.data == t.data && u.extra == t.extra && |u.next| == |t.next|
    ensures SameElsewhere(s, u, blocks)
  {
  }
}
