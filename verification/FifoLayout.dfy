// The shared pool of blocks of source/common/fifosystem.c, seen as index-linked chains.
//
// A block is an index into the pool; `next` links blocks into queues, and every queue has a
// head and a tail. A Layout is the ghost account of which blocks each queue holds, in order.

module FifoLayout {

  const CHANNELS := 16

  // Value of a link or of a head that means "no more blocks" (0xFFFF).
  const TERMINATE := 0xFFFF

  // Queue numbers. The three per-channel families hold 16 queues each.
  const FREE := 0
  const TX := 1
  const RX := 2
  const ADDRESS := 3
  const VALUE := 19
  const DATA := 35
  const QUEUES := 51

  // Blocks that were taken from the free queue and are not yet in another queue.
  const HELD := 51

  // chain[q] lists the blocks of queue q from head to tail. Block b is at place
  // rank[b] - base[where[b]] of chain[where[b]]; base[q] counts the blocks that left queue q.
  datatype Layout = Layout(chain: seq<seq<nat>>, where: seq<nat>, rank: seq<int>, base: seq<int>)

  ghost predicate Shaped(n: nat, l: Layout) {
    |l.chain| == QUEUES + 1 && |l.base| == QUEUES + 1 && |l.where| == n && |l.rank| == n
  }

  // Every entry of a chain is a block of the pool, and its bookkeeping says where it is.
  ghost predicate Placed(n: nat, l: Layout)
    requires Shaped(n, l)
  {
    forall q, i {:trigger l.chain[q][i]} :: 0 <= q <= QUEUES && 0 <= i < |l.chain[q]| ==>
      l.chain[q][i] < n && l.where[l.chain[q][i]] == q && l.rank[l.chain[q][i]] == l.base[q] + i
  }

  // Every block of the pool is in a chain.
  ghost predicate Covered(n: nat, l: Layout)
    requires Shaped(n, l)
  {
    forall b {:trigger l.where[b]} :: 0 <= b < n ==>
      var q := l.where[b];
      q <= QUEUES && 0 <= l.rank[b] - l.base[q] < |l.chain[q]| && l.chain[q][l.rank[b] - l.base[q]] == b
  }

  ghost predicate Partition(n: nat, l: Layout) {
    Shaped(n, l) && Placed(n, l) && Covered(n, l)
  }

  // Consecutive blocks of a chain are linked, and the last one is terminated.
  ghost predicate Links(next: seq<nat>, c: seq<nat>) {
    && (forall i {:trigger c[i]} :: 0 <= i < |c| ==> c[i] < |next|)
    && (forall i {:trigger c[i]} :: 0 <= i < |c| - 1 ==> next[c[i]] == c[i + 1])
    && (c != [] ==> next[c[|c| - 1]] == TERMINATE)
  }

  ghost predicate Ends(c: seq<nat>, head: nat, tail: nat) {
    if c == [] then head == TERMINATE else head == c[0] && tail == c[|c| - 1]
  }

  // The pool is a set of disjoint terminated chains that cover all blocks, and the head and the
  // tail of each queue are the ends of its chain.
  ghost predicate Linked(next: seq<nat>, head: seq<nat>, tail: seq<nat>, l: Layout) {
    && |next| < TERMINATE && |head| == QUEUES && |tail| == QUEUES
    && Partition(|next|, l)
    && (forall q {:trigger l.chain[q]} :: 0 <= q <= QUEUES ==> Links(next, l.chain[q]))
    && (forall q {:trigger l.chain[q]} :: 0 <= q < QUEUES ==> Ends(l.chain[q], head[q], tail[q]))
  }

  // The first k blocks of queue q move to the end of queue p.
  ghost function Move(l: Layout, q: nat, k: nat, p: nat): Layout
    requires |l.chain| == QUEUES + 1 && |l.base| == QUEUES + 1 && |l.rank| == |l.where|
    requires q <= QUEUES && p <= QUEUES && q != p && k <= |l.chain[q]|
  {
    var moved := b requires 0 <= b < |l.where| => l.where[b] == q && l.rank[b] - l.base[q] < k;
    Layout(l.chain[q := l.chain[q][k..]][p := l.chain[p] + l.chain[q][..k]],
           seq(|l.where|, b requires 0 <= b < |l.where| => if moved(b) then p else l.where[b]),
           seq(|l.rank|, b requires 0 <= b < |l.where| =>
             if moved(b) then l.rank[b] - l.base[q] + l.base[p] + |l.chain[p]| else l.rank[b]),
           l.base[q := l.base[q] + k])
  }

  lemma LayoutShape(n: nat, l: Layout)
    requires Partition(n, l)
    ensures |l.chain| == |l.base| == QUEUES + 1 && |l.rank| == |l.where| == n
  {
  }

  lemma MoveKeepsPlaced(n: nat, l: Layout, q: nat, k: nat, p: nat, r: nat, i: nat)
    requires Partition(n, l)
    requires q <= QUEUES && p <= QUEUES && q != p && k <= |l.chain[q]|
    requires r <= QUEUES && i < |Move(l, q, k, p).chain[r]|
    ensures var m := Move(l, q, k, p);
      m.chain[r][i] < n && m.where[m.chain[r][i]] == r && m.rank[m.chain[r][i]] == m.base[r] + i
  {
    var b := Move(l, q, k, p).chain[r][i];
    if r == q {
      assert b == l.chain[q][k + i];
    } else if r == p && i >= |l.chain[p]| {
      assert b == l.chain[q][i - |l.chain[p]|];
    } else {
      assert b == l.chain[r][i];
    }
  }

  lemma MoveKeepsCovered(n: nat, l: Layout, q: nat, k: nat, p: nat, b: nat)
    requires Partition(n, l)
    requires q <= QUEUES && p <= QUEUES && q != p && k <= |l.chain[q]| && b < n
    ensures var m := Move(l, q, k, p); var r := m.where[b];
      r <= QUEUES && 0 <= m.rank[b] - m.base[r] < |m.chain[r]| && m.chain[r][m.rank[b] - m.base[r]] == b
  {
    var r := l.where[b];
    assert l.chain[r][l.rank[b] - l.base[r]] == b;
  }

  lemma MoveShape(n: nat, l: Layout, q: nat, k: nat, p: nat)
    requires Shaped(n, l) && q <= QUEUES && p <= QUEUES && q != p && k <= |l.chain[q]|
    ensures Shaped(n, Move(l, q, k, p))
  {
  }

  lemma MoveKeepsPartition(n: nat, l: Layout, q: nat, k: nat, p: nat)
    requires Partition(n, l)
    requires q <= QUEUES && p <= QUEUES && q != p && k <= |l.chain[q]|
    ensures Partition(n, Move(l, q, k, p))
  {
    hide Move;
    MoveShape(n, l, q, k, p);
    var m := Move(l, q, k, p);
    forall r, i | 0 <= r <= QUEUES && 0 <= i < |m.chain[r]|
      ensures m.chain[r][i] < n && m.where[m.chain[r][i]] == r && m.rank[m.chain[r][i]] == m.base[r] + i
    {
      MoveKeepsPlaced(n, l, q, k, p, r, i);
    }
    forall b | 0 <= b < n
      ensures var r := m.where[b];
        r <= QUEUES && 0 <= m.rank[b] - m.base[r] < |m.chain[r]| && m.chain[r][m.rank[b] - m.base[r]] == b
    {
      MoveKeepsCovered(n, l, q, k, p, b);
    }
  }

  // Two places of the layout that hold the same block are the same place.
  lemma ChainsAreDisjoint(n: nat, l: Layout, q: nat, i: nat, p: nat, j: nat)
    requires Partition(n, l)
    requires q <= QUEUES && i < |l.chain[q]| && p <= QUEUES && j < |l.chain[p]|
    requires l.chain[q][i] == l.chain[p][j]
    ensures q == p && i == j
  {
  }

  ghost predicate Distinct(c: seq<nat>) {
    forall i, j :: 0 <= i < j < |c| ==> c[i] != c[j]
  }

  lemma ChainsAreDistinct(n: nat, l: Layout, q: nat, p: nat)
    requires Partition(n, l) && q <= QUEUES && p <= QUEUES
    ensures Distinct(l.chain[q])
    ensures q != p ==> forall b {:trigger b in l.chain[q]} :: b in l.chain[q] ==> b !in l.chain[p]
  {
  }

  lemma NotInFront(n: nat, l: Layout, q: nat, k: nat, r: nat)
    requires Partition(n, l) && q <= QUEUES && r <= QUEUES && k <= |l.chain[q]|
    ensures forall i {:trigger l.chain[r][i]} :: 0 <= i < |l.chain[r]| && (r == q ==> k <= i) ==>
      l.chain[r][i] !in l.chain[q][..k]
  {
  }

  // The links after a move: the moved part is terminated and hooked to the last block of queue p.
  ghost function MovedLinks(next: seq<nat>, l: Layout, q: nat, k: nat, p: nat): seq<nat>
    requires Partition(|next|, l) && q <= QUEUES && p <= QUEUES && q != p && 0 < k <= |l.chain[q]|
  {
    var c := l.chain[p];
    var cut := next[l.chain[q][k - 1] := TERMINATE];
    if c == [] then cut else cut[c[|c| - 1] := l.chain[q][0]]
  }

  // What a move does to the heads and tails of the queues.
  ghost predicate Rehung(head: seq<nat>, tail: seq<nat>, l: Layout, q: nat, k: nat, p: nat,
                         head': seq<nat>, tail': seq<nat>)
    requires |head| == |tail| == QUEUES && |l.chain| == QUEUES + 1
    requires q <= QUEUES && p <= QUEUES && q != p && 0 < k <= |l.chain[q]|
  {
    var s, c := l.chain[q], l.chain[p];
    && |head'| == |tail'| == QUEUES
    && (forall r {:trigger head'[r]} :: 0 <= r < QUEUES && r != q && r != p ==> head'[r] == head[r])
    && (forall r {:trigger tail'[r]} :: 0 <= r < QUEUES && r != p ==> tail'[r] == tail[r])
    && (q < QUEUES ==> head'[q] == if k < |s| then s[k] else TERMINATE)
    && (p < QUEUES ==> head'[p] == (if c == [] then s[0] else head[p]) && tail'[p] == s[k - 1])
  }

  lemma LinksElsewhere(next: seq<nat>, c: seq<nat>, b: nat, v: nat)
    requires Links(next, c) && b < |next| && b !in c
    ensures Links(next[b := v], c)
  {
  }

  lemma LinksOfRest(next: seq<nat>, c: seq<nat>, k: nat)
    requires Links(next, c) && k <= |c|
    ensures Links(next, c[k..])
  {
    assert forall i :: 0 <= i < |c| - k ==> c[k..][i] == c[k + i];
  }

  lemma LinksOfFront(next: seq<nat>, c: seq<nat>, k: nat)
    requires Links(next, c) && 0 < k <= |c| && Distinct(c)
    ensures Links(next[c[k - 1] := TERMINATE], c[..k])
  {
    assert forall i :: 0 <= i < k ==> c[..k][i] == c[i];
  }

  lemma DistinctAt(c: seq<nat>, i: nat, j: nat)
    requires Distinct(c) && i < |c| && j < |c| && i != j
    ensures c[i] != c[j]
  {
  }

  lemma LinksOfJoin(next: seq<nat>, c: seq<nat>, d: seq<nat>)
    requires Links(next, c) && Links(next, d) && c != [] && d != [] && Distinct(c + d)
    ensures Links(next[c[|c| - 1] := d[0]], c + d)
  {
    hide Distinct;
    var e, last, joined := c + d, |c| - 1, next[c[|c| - 1] := d[0]];
    assert e[last] == c[last];
    forall i | 0 <= i < |e| && i != last ensures e[i] < |next| && e[i] != c[last] && joined[e[i]] == next[e[i]] {
      DistinctAt(e, i, last);
      assert e[i] == if i < |c| then c[i] else d[i - |c|];
    }
    forall i | 0 <= i < |e| - 1 ensures joined[e[i]] == e[i + 1] {
      if i > last {
        assert e[i] == d[i - |c|] && e[i + 1] == d[i - |c| + 1];
      } else if i < last {
        assert e[i] == c[i] && e[i + 1] == c[i + 1];
      }
    }
    assert e[|e| - 1] == d[|d| - 1];
  }

  lemma MovedChain(l: Layout, q: nat, k: nat, p: nat, r: nat)
    requires |l.chain| == |l.base| == QUEUES + 1 && |l.rank| == |l.where|
    requires q <= QUEUES && p <= QUEUES && q != p && 0 < k <= |l.chain[q]| && r <= QUEUES
    ensures Move(l, q, k, p).chain[r]
         == if r == q then l.chain[q][k..] else if r == p then l.chain[p] + l.chain[q][..k] else l.chain[r]
  {
  }

  lemma MoveKeepsLinks(next: seq<nat>, head: seq<nat>, tail: seq<nat>, l: Layout, q: nat, k: nat, p: nat, r: nat)
    requires Linked(next, head, tail, l) && q <= QUEUES && p <= QUEUES && q != p && 0 < k <= |l.chain[q]|
    requires r <= QUEUES
    ensures Links(MovedLinks(next, l, q, k, p), Move(l, q, k, p).chain[r])
  {
    hide Partition, Links, Distinct, Move;
    LayoutShape(|next|, l);
    MoveKeepsPartition(|next|, l, q, k, p);
    ChainsAreDistinct(|next|, l, q, r);
    ChainsAreDistinct(|next|, l, p, r);
    ChainsAreDistinct(|next|, l, q, q);
    ChainsAreDistinct(|next|, l, q, p);
    ChainsAreDistinct(|next|, l, p, q);
    ChainsAreDistinct(|next|, Move(l, q, k, p), p, p);
    var c, s, d := l.chain[p], l.chain[q], l.chain[r];
    assert Links(next, c) && Links(next, s) && Links(next, d);
    MovedChain(l, q, k, p, r);
    MovedChain(l, q, k, p, p);
    assert s[k - 1] in s && (c != [] ==> c[|c| - 1] in c);
    LinksAfterMove(next, s, c, d, k, r == q, r == p);
  }

  lemma LinksAfterMove(next: seq<nat>, s: seq<nat>, c: seq<nat>, d: seq<nat>, k: nat, source: bool, target: bool)
    requires Links(next, s) && Links(next, c) && Links(next, d) && 0 < k <= |s|
    requires Distinct(s) && Distinct(c + s[..k]) && s[k - 1] !in c && (c != [] ==> c[|c| - 1] !in s)
    requires !(source && target) && (source ==> d == s) && (target ==> d == c)
    requires !source ==> s[k - 1] !in d
    requires !target && c != [] ==> c[|c| - 1] !in d
    ensures var cut := next[s[k - 1] := TERMINATE];
      Links(if c == [] then cut else cut[c[|c| - 1] := s[0]],
            if source then s[k..] else if target then c + s[..k] else d)
  {
    var cut := next[s[k - 1] := TERMINATE];
    if source {
      LinksOfRest(next, s, k);
      LinksElsewhere(next, s[k..], s[k - 1], TERMINATE);
      if c != [] { LinksElsewhere(cut, s[k..], c[|c| - 1], s[0]); }
    } else if target {
      LinksOfFront(next, s, k);
      LinksElsewhere(next, c, s[k - 1], TERMINATE);
      if c != [] {
        LinksOfJoin(cut, c, s[..k]);
      } else {
        assert c + s[..k] == s[..k];
      }
    } else {
      LinksElsewhere(next, d, s[k - 1], TERMINATE);
      if c != [] { LinksElsewhere(cut, d, c[|c| - 1], s[0]); }
    }
  }

  lemma MoveKeepsEnds(head: seq<nat>, tail: seq<nat>, l: Layout, q: nat, k: nat, p: nat,
                      head': seq<nat>, tail': seq<nat>, r: nat)
    requires |head| == |tail| == QUEUES && |l.chain| == |l.base| == QUEUES + 1 && |l.rank| == |l.where|
    requires q <= QUEUES && p <= QUEUES && q != p && 0 < k <= |l.chain[q]|
    requires r < QUEUES && Ends(l.chain[r], head[r], tail[r])
    requires Rehung(head, tail, l, q, k, p, head', tail')
    ensures Ends(Move(l, q, k, p).chain[r], head'[r], tail'[r])
  {
  }

  lemma RehungShape(next: seq<nat>, head: seq<nat>, tail: seq<nat>, l: Layout, q: nat, k: nat, p: nat,
                    next': seq<nat>, head': seq<nat>, tail': seq<nat>)
    requires Partition(|next|, l) && |head| == |tail| == QUEUES
    requires q <= QUEUES && p <= QUEUES && q != p && 0 < k <= |l.chain[q]|
    requires next' == MovedLinks(next, l, q, k, p) && Rehung(head, tail, l, q, k, p, head', tail')
    ensures |next'| == |next| && |head'| == |tail'| == QUEUES
  {
  }

  lemma MoveKeepsLinked(next: seq<nat>, head: seq<nat>, tail: seq<nat>, l: Layout, q: nat, k: nat, p: nat,
                        next': seq<nat>, head': seq<nat>, tail': seq<nat>)
    requires Linked(next, head, tail, l) && q <= QUEUES && p <= QUEUES && q != p && 0 < k <= |l.chain[q]|
    requires next' == MovedLinks(next, l, q, k, p) && Rehung(head, tail, l, q, k, p, head', tail')
    ensures Linked(next', head', tail', Move(l, q, k, p))
  {
    hide Partition, Links, Ends, Move, MovedLinks, Rehung;
    LayoutShape(|next|, l);
    MoveShape(|next|, l, q, k, p);
    RehungShape(next, head, tail, l, q, k, p, next', head', tail');
    MoveKeepsPartition(|next|, l, q, k, p);
    forall r | 0 <= r <= QUEUES ensures Links(next', Move(l, q, k, p).chain[r]) {
      MoveKeepsLinks(next, head, tail, l, q, k, p, r);
    }
    forall r | 0 <= r < QUEUES ensures Ends(Move(l, q, k, p).chain[r], head'[r], tail'[r]) {
      MoveKeepsEnds(head, tail, l, q, k, p, head', tail', r);
    }
  }

  // ----- what the partition means, without its bookkeeping

  // The length of all chains together.
  function Total(chain: seq<seq<nat>>): nat {
    if chain == [] then 0 else Total(chain[..|chain| - 1]) + |chain[|chain| - 1]|
  }

  ghost function Elements(c: seq<nat>): set<nat> {
    if c == [] then {} else Elements(c[..|c| - 1]) + {c[|c| - 1]}
  }

  ghost function Union(chain: seq<seq<nat>>): set<nat> {
    if chain == [] then {} else Union(chain[..|chain| - 1]) + Elements(chain[|chain| - 1])
  }

  ghost function Upto(n: nat): set<nat> {
    if n == 0 then {} else Upto(n - 1) + {n - 1}
  }

  lemma {:induction false} InElements(c: seq<nat>, b: nat)
    ensures b in Elements(c) <==> b in c
  {
    if c != [] {
      InElements(c[..|c| - 1], b);
      assert c == c[..|c| - 1] + [c[|c| - 1]];
    }
  }

  lemma {:induction false} InUpto(n: nat, b: nat)
    ensures b in Upto(n) <==> b < n
  {
    if n > 0 {
      InUpto(n - 1, b);
    }
  }

  lemma {:induction false} UptoSize(n: nat)
    ensures |Upto(n)| == n
  {
    if n > 0 {
      UptoSize(n - 1);
      InUpto(n - 1, n - 1);
    }
  }

  lemma {:induction false} ElementsSize(c: seq<nat>)
    requires Distinct(c)
    ensures |Elements(c)| == |c|
  {
    if c != [] {
      var d, b := c[..|c| - 1], c[|c| - 1];
      assert Distinct(d);
      ElementsSize(d);
      InElements(d, b);
      assert b !in d;
    }
  }

  lemma {:induction false} InUnion(n: nat, l: Layout, q: nat, b: nat)
    requires Partition(n, l) && q <= QUEUES + 1
    ensures b in Union(l.chain[..q]) <==> b < n && l.where[b] < q
  {
    hide Placed, Covered;
    if q > 0 {
      assert l.chain[..q][..q - 1] == l.chain[..q - 1];
      InUnion(n, l, q - 1, b);
      InElements(l.chain[q - 1], b);
      InChain(n, l, q - 1, b);
    }
  }

  lemma InChain(n: nat, l: Layout, q: nat, b: nat)
    requires Partition(n, l) && q <= QUEUES
    ensures b in l.chain[q] <==> b < n && l.where[b] == q
  {
    if b < n && l.where[b] == q {
      assert l.chain[q][l.rank[b] - l.base[q]] == b;
    }
  }

  lemma {:induction false} UnionSize(n: nat, l: Layout, q: nat)
    requires Partition(n, l) && q <= QUEUES + 1
    ensures |Union(l.chain[..q])| == Total(l.chain[..q])
  {
    hide Placed, Covered, Distinct;
    if q > 0 {
      assert l.chain[..q][..q - 1] == l.chain[..q - 1];
      UnionSize(n, l, q - 1);
      var below, here := Union(l.chain[..q - 1]), Elements(l.chain[q - 1]);
      forall b: nat | b in here ensures b !in below {
        InElements(l.chain[q - 1], b);
        InChain(n, l, q - 1, b);
        InUnion(n, l, q - 1, b);
      }
      ChainsAreDistinct(n, l, q - 1, q - 1);
      ElementsSize(l.chain[q - 1]);
      assert |below + here| == |below| + |here|;
    }
  }

  // The pool theorem: a block is in exactly one chain, no chain goes through a block twice, and
  // the chains together have as many places as there are blocks.
  lemma PoolPartition(n: nat, l: Layout, b: nat)
    requires Partition(n, l) && b < n
    ensures l.where[b] <= QUEUES
    ensures forall q {:trigger l.chain[q]} :: 0 <= q <= QUEUES ==>
      Distinct(l.chain[q]) && (b in l.chain[q] <==> q == l.where[b])
    ensures Total(l.chain) == n
  {
    hide Placed, Distinct, Covered;
    InUnion(n, l, QUEUES + 1, b);
    forall q | 0 <= q <= QUEUES ensures Distinct(l.chain[q]) && (b in l.chain[q] <==> q == l.where[b]) {
      ChainsAreDistinct(n, l, q, q);
      InChain(n, l, q, b);
    }
    AllPlaced(n, l);
    assert l.where[b] <= QUEUES by { WhereIsQueue(n, l, b); }
  }

  lemma WhereIsQueue(n: nat, l: Layout, b: nat)
    requires Partition(n, l) && b < n
    ensures l.where[b] <= QUEUES
  {
  }

  lemma AllPlaced(n: nat, l: Layout)
    requires Partition(n, l)
    ensures Total(l.chain) == n
  {
    hide Placed, Covered;
    assert l.chain[..QUEUES + 1] == l.chain;
    UnionSize(n, l, QUEUES + 1);
    forall b: nat ensures b in Union(l.chain) <==> b in Upto(n) {
      InUnion(n, l, QUEUES + 1, b);
      InUpto(n, b);
      if b < n {
        WhereIsQueue(n, l, b);
      }
    }
    assert Union(l.chain) == Upto(n);
    UptoSize(n);
  }
}
