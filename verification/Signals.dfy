// The lists of waiting threads of source/common/cothread/threads.c: one for the threads that wait for a
// signal (cothread_yield_signal, cothread_send_signal), and one for each interrupt (cothread_yield_irq, and
// the end of the dispatcher in source/common/interruptDispatcher.s). All are linked through one field of
// the threads, which include/nds/cothread.h gives two names, next_irq and next_signal. The documentation
// says that a signal or an interrupt wakes every thread that waits for it. This module proves that it does,
// on lists that are sound, and says exactly when the functions leave the lists sound: they do not always.

module Signals {
  import opened Words

  const NULL := -1

  // ----- a chain of threads

  // Following `next` from `head` meets the threads of q in this order, none twice, and then ends.
  ghost predicate Chain(next: seq<int>, head: int, q: seq<nat>)
    decreases |q|
  {
    if q == [] then head == NULL
    else
      head == q[0] && q[0] < |next| && q[0] !in q[1..] && Chain(next, next[q[0]], q[1..])
  }

  function First(q: seq<nat>): int { if q == [] then NULL else q[0] }

  lemma {:induction false} ChainIsInRange(next: seq<int>, head: int, q: seq<nat>, t: nat)
    requires Chain(next, head, q) && t in q
    ensures t < |next|
    decreases |q|
  {
    if t != q[0] {
      ChainIsInRange(next, next[q[0]], q[1..], t);
    }
  }

  // The part of a chain behind the threads that are kept.
  lemma {:induction false} ChainBehind(next: seq<int>, head: int, kept: seq<nat>, rest: seq<nat>)
    requires Chain(next, head, kept + rest)
    ensures Chain(next, First(rest), rest)
    ensures kept != [] ==> kept[|kept| - 1] < |next| && next[kept[|kept| - 1]] == First(rest)
    ensures rest != [] ==> rest[0] !in kept
    decreases |kept|
  {
    var q := kept + rest;
    if kept == [] {
      assert q == rest;
    } else {
      assert q[1..] == kept[1..] + rest;
      ChainBehind(next, next[q[0]], kept[1..], rest);
      if rest != [] {
        assert rest[0] in q[1..];
      }
      if |kept| == 1 {
        assert q[1..] == rest;
      }
    }
  }

  lemma {:induction false} ChainIsUnique(next: seq<int>, head: int, q: seq<nat>, r: seq<nat>)
    requires Chain(next, head, q) && Chain(next, head, r)
    ensures q == r
    decreases |q|
  {
    if q != [] && r != [] {
      ChainIsUnique(next, next[q[0]], q[1..], r[1..]);
      assert q == [q[0]] + q[1..] && r == [r[0]] + r[1..];
    }
  }

  lemma {:induction false} OtherLinksDoNotMatter(next: seq<int>, head: int, q: seq<nat>, t: nat, v: int)
    requires Chain(next, head, q) && t < |next| && t !in q
    ensures Chain(next[t := v], head, q)
    decreases |q|
  {
    if q != [] {
      OtherLinksDoNotMatter(next, next[q[0]], q[1..], t, v);
    }
  }

  // A chain is a matter of the links of its threads alone.
  lemma {:induction false} KeepsChain(next: seq<int>, after: seq<int>, head: int, q: seq<nat>)
    requires Chain(next, head, q) && |after| == |next|
    requires forall t :: t in q && t < |next| ==> after[t] == next[t]
    ensures Chain(after, head, q)
    decreases |q|
  {
    if q != [] {
      KeepsChain(next, after, next[q[0]], q[1..]);
    }
  }

  // Linking the last thread that is kept past the next one.
  lemma {:induction false} Unlink(next: seq<int>, head: int, kept: seq<nat>, rest: seq<nat>)
    requires kept != [] && rest != [] && Chain(next, head, kept + rest)
    requires kept[|kept| - 1] < |next| && rest[0] < |next|
    ensures Chain(next[kept[|kept| - 1] := next[rest[0]]], head, kept + rest[1..])
    decreases |kept|
  {
    var q := kept + rest;
    var last := kept[|kept| - 1];
    var after := next[last := next[rest[0]]];
    ChainBehind(next, head, kept, rest);
    assert (kept + rest[1..])[1..] == kept[1..] + rest[1..];
    assert q[1..] == kept[1..] + rest;
    if |kept| == 1 {
      assert q[1..] == rest;
      OtherLinksDoNotMatter(next, next[rest[0]], rest[1..], last, next[rest[0]]);
      assert kept[1..] + rest[1..] == rest[1..];
    } else {
      assert kept[1..][|kept[1..]| - 1] == last;
      assert last in q[1..];
      Unlink(next, next[q[0]], kept[1..], rest);
    }
  }

  // ----- what a signal keeps in the list

  // What the loop's `previous` pointer stands for: nothing is kept yet, the last thread that is kept, or
  // a thread that has just been unlinked.
  datatype Previous = Nothing | Kept | Unlinked

  predicate WaitsFor(id: seq<Word>, t: nat, signal: Word) { t < |id| && id[t] == signal }

  // The threads the loop leaves in the list.
  function Left(q: seq<nat>, id: seq<Word>, signal: Word, previous: Previous): (r: seq<nat>)
    ensures forall t :: t in r ==> t in q
    ensures forall t :: t in q && !WaitsFor(id, t, signal) ==> t in r
  {
    if q == [] then []
    else if !WaitsFor(id, q[0], signal) then [q[0]] + Left(q[1..], id, signal, Kept)
    else match previous
      case Nothing => Left(q[1..], id, signal, Nothing)
      case Kept => Left(q[1..], id, signal, Unlinked)
      case Unlinked => [q[0]] + Left(q[1..], id, signal, Kept)
  }

  // Two threads in a row wait for the signal, behind one that does not (or, with `behind`, anywhere).
  predicate PairBehind(q: seq<nat>, id: seq<Word>, signal: Word, behind: bool) {
    q != [] &&
    if !WaitsFor(id, q[0], signal) then PairBehind(q[1..], id, signal, true)
    else (behind && |q| >= 2 && WaitsFor(id, q[1], signal)) || PairBehind(q[1..], id, signal, behind)
  }

  ghost predicate AllWoken(left: seq<nat>, id: seq<Word>, signal: Word) {
    forall t :: t in left ==> !WaitsFor(id, t, signal)
  }

  // The loop removes all the threads it wakes up exactly when there is no such pair.
  lemma {:induction false} LeftAreOthers(q: seq<nat>, id: seq<Word>, signal: Word, previous: Previous)
    ensures AllWoken(Left(q, id, signal, previous), id, signal) <==>
      !PairBehind(q, id, signal, previous != Nothing) &&
      (previous == Unlinked && q != [] ==> !WaitsFor(id, q[0], signal))
  {
    if q != [] {
      var left := Left(q, id, signal, previous);
      if !WaitsFor(id, q[0], signal) {
        LeftAreOthers(q[1..], id, signal, Kept);
      } else {
        match previous
        case Nothing => LeftAreOthers(q[1..], id, signal, Nothing);
        case Kept => LeftAreOthers(q[1..], id, signal, Unlinked);
        case Unlinked => assert q[0] in left;
      }
    }
  }

  // How many threads a signal wakes.
  function Waiters(q: seq<nat>, id: seq<Word>, signal: Word): nat {
    if q == [] then 0 else (if WaitsFor(id, q[0], signal) then 1 else 0) + Waiters(q[1..], id, signal)
  }

  // ----- the loop of cothread_send_signal

  // Its variables, and the fields it changes: next_signal and COTHREAD_WAITING of the threads, and
  // cothread_list_signal.
  datatype Loop = Loop(next: seq<int>, waiting: seq<bool>, head: int, previous: int, t: int, woken: nat)

  predicate InRange(l: Loop) {
    |l.waiting| == |l.next| && 0 <= l.t < |l.next| && (l.previous == NULL || 0 <= l.previous < |l.next|)
  }

  // One turn. (The assignments come in the order of the source: a link is read after the one before it
  // is changed.)
  function Turn(l: Loop, id: seq<Word>, signal: Word): Loop {
    if !InRange(l) then l
    else if !WaitsFor(id, l.t, signal) then l.(previous := l.t, t := l.next[l.t])
    else if l.previous == NULL then
      l.(waiting := l.waiting[l.t := false], head := l.next[l.t], t := l.next[l.t], woken := l.woken + 1)
    else
      var next := l.next[l.previous := l.next[l.t]];
      l.(waiting := l.waiting[l.t := false], next := next, previous := l.t, t := next[l.t], woken := l.woken + 1)
  }

  function Turns(l: Loop, id: seq<Word>, signal: Word, k: nat): Loop
    decreases k
  {
    if k == 0 then l else Turns(Turn(l, id, signal), id, signal, k - 1)
  }

  // The threads that are kept are linked to the rest of the list, and `previous` is what p says.
  ghost predicate Passing(l: Loop, kept: seq<nat>, rest: seq<nat>, p: Previous) {
    |l.waiting| == |l.next| && l.t == First(rest) && Chain(l.next, l.head, kept + rest) &&
    match p
    case Nothing => kept == [] && l.previous == NULL
    case Kept => kept != [] && l.previous == kept[|kept| - 1]
    case Unlinked => kept != [] && 0 <= l.previous < |l.next| && l.previous !in kept + rest
  }

  // What a turn does to the threads that are kept, and to p.
  function KeptThen(kept: seq<nat>, c: nat, matches: bool, p: Previous): seq<nat> {
    if !matches || p == Unlinked then kept + [c] else kept
  }

  function PreviousThen(matches: bool, p: Previous): Previous {
    if !matches || p == Unlinked then Kept else if p == Nothing then Nothing else Unlinked
  }

  lemma PassingInRange(l: Loop, kept: seq<nat>, rest: seq<nat>, p: Previous)
    requires Passing(l, kept, rest, p) && rest != []
    ensures InRange(l) && l.t == rest[0] && l.next[l.t] == First(rest[1..]) && rest[0] !in kept + rest[1..]
    ensures p != Nothing ==> l.previous != l.t
  {
    ChainBehind(l.next, l.head, kept, rest);
  }

  lemma TurnPasses(l: Loop, kept: seq<nat>, rest: seq<nat>, p: Previous, id: seq<Word>, signal: Word)
    requires Passing(l, kept, rest, p) && rest != []
    ensures var c, m := rest[0], WaitsFor(id, rest[0], signal);
      Passing(Turn(l, id, signal), KeptThen(kept, c, m, p), rest[1..], PreviousThen(m, p))
  {
    hide Chain;
    PassingInRange(l, kept, rest, p);
    var c := rest[0];
    assert (kept + [c]) + rest[1..] == kept + rest;
    if WaitsFor(id, c, signal) {
      if p == Nothing {
        ChainBehind(l.next, l.head, [], rest);
        HeadOfChain(l.next, rest);
        assert kept + rest[1..] == rest[1..] && kept + rest == rest;
      } else if p == Kept {
        ChainBehind(l.next, l.head, kept, rest);
        Unlink(l.next, l.head, kept, rest);
      } else {
        OtherLinksDoNotMatter(l.next, l.head, kept + rest, l.previous, l.next[l.t]);
      }
    }
  }

  lemma HeadOfChain(next: seq<int>, rest: seq<nat>)
    requires rest != [] && Chain(next, First(rest), rest)
    ensures rest[0] < |next| && Chain(next, next[rest[0]], rest[1..])
  {
  }

  // Which threads wait after the loop.
  ghost predicate WokenIn(was: seq<bool>, now: seq<bool>, q: seq<nat>, id: seq<Word>, signal: Word) {
    |now| == |was| &&
    forall t :: 0 <= t < |now| ==> now[t] == (was[t] && !(t in q && WaitsFor(id, t, signal)))
  }

  // The whole loop, from any point on: it passes every thread of the list once and comes to the end; it
  // wakes those that wait for the signal, and leaves the threads of Left linked.
  lemma {:induction false} TurnsPass(l: Loop, kept: seq<nat>, rest: seq<nat>, p: Previous, id: seq<Word>, signal: Word)
    requires Passing(l, kept, rest, p)
    ensures var m := Turns(l, id, signal, |rest|);
      m.t == NULL && |m.next| == |l.next| && Chain(m.next, m.head, kept + Left(rest, id, signal, p)) &&
      WokenIn(l.waiting, m.waiting, rest, id, signal) && m.woken == l.woken + Waiters(rest, id, signal)
    decreases |rest|
  {
    hide Chain, Left, Passing, WokenIn, KeptThen, PreviousThen, Turn;
    if rest == [] {
      NothingLeft(l, kept, p, id, signal);
    } else {
      var c, m, n := rest[0], WaitsFor(id, rest[0], signal), Turn(l, id, signal);
      TurnPasses(l, kept, rest, p, id, signal);
      PassingInRange(l, kept, rest, p);
      TurnsPass(n, KeptThen(kept, c, m, p), rest[1..], PreviousThen(m, p), id, signal);
      LeftTurn(kept, rest, id, signal, p);
      WokenTurn(l, n, Turns(n, id, signal, |rest| - 1).waiting, rest, id, signal);
    }
  }

  // The loop changes the links of threads of the list alone.
  lemma {:induction false} TurnsTouch(l: Loop, kept: seq<nat>, rest: seq<nat>, p: Previous, id: seq<Word>,
      signal: Word, q: seq<nat>, u: nat)
    requires Passing(l, kept, rest, p) && u < |l.next| && u !in q
    requires (forall t :: t in rest ==> t in q) && (l.previous >= 0 ==> l.previous in q)
    ensures |Turns(l, id, signal, |rest|).next| == |l.next| && Turns(l, id, signal, |rest|).next[u] == l.next[u]
    decreases |rest|
  {
    hide Chain, Left, Passing, KeptThen, PreviousThen;
    if rest != [] {
      var c, m := rest[0], WaitsFor(id, rest[0], signal);
      TurnPasses(l, kept, rest, p, id, signal);
      PassingInRange(l, kept, rest, p);
      TurnsTouch(Turn(l, id, signal), KeptThen(kept, c, m, p), rest[1..], PreviousThen(m, p), id, signal, q, u);
    }
  }

  lemma NothingLeft(l: Loop, kept: seq<nat>, p: Previous, id: seq<Word>, signal: Word)
    requires Passing(l, kept, [], p)
    ensures l.t == NULL && Chain(l.next, l.head, kept + Left([], id, signal, p))
    ensures WokenIn(l.waiting, l.waiting, [], id, signal)
  {
  }

  lemma WokenTurn(l: Loop, n: Loop, last: seq<bool>, rest: seq<nat>, id: seq<Word>, signal: Word)
    requires rest != [] && InRange(l) && l.t == rest[0] && n == Turn(l, id, signal)
    requires WokenIn(n.waiting, last, rest[1..], id, signal)
    ensures WokenIn(l.waiting, last, rest, id, signal) && |n.next| == |l.next|
    ensures n.woken == l.woken + if WaitsFor(id, rest[0], signal) then 1 else 0
  {
    assert rest == [rest[0]] + rest[1..];
  }

  lemma LeftTurn(kept: seq<nat>, rest: seq<nat>, id: seq<Word>, signal: Word, p: Previous)
    requires rest != []
    ensures var c, m := rest[0], WaitsFor(id, rest[0], signal);
      kept + Left(rest, id, signal, p) == KeptThen(kept, c, m, p) + Left(rest[1..], id, signal, PreviousThen(m, p))
  {
    var c, m := rest[0], WaitsFor(id, rest[0], signal);
    var after := Left(rest[1..], id, signal, PreviousThen(m, p));
    assert (kept + [c]) + after == kept + ([c] + after);
  }

  // ----- the dispatcher's loop

  // Its registers, and what it changes: the links, COTHREAD_WAITING and the head of the list. The slot is
  // where the next thread is read from: the head, or the link of a thread.
  datatype Clearing = Clearing(next: seq<int>, waiting: seq<bool>, head: int, slot: int, woken: nat)

  function InSlot(l: Clearing): int {
    if 0 <= l.slot < |l.next| then l.next[l.slot] else l.head
  }

  predicate AtThread(l: Clearing) { 0 <= InSlot(l) < |l.next| == |l.waiting| }

  // One turn: the slot is cleared, the thread is woken, and its link is the next slot.
  function ClearTurn(l: Clearing): Clearing
    requires AtThread(l)
  {
    var t := InSlot(l);
    Clearing(if 0 <= l.slot < |l.next| then l.next[l.slot := NULL] else l.next, l.waiting[t := false],
             if 0 <= l.slot < |l.next| then l.head else NULL, t, l.woken + 1)
  }

  // The links that are set.
  function LinksSet(next: seq<int>): nat {
    if next == [] then 0 else (if next[0] == NULL then 0 else 1) + LinksSet(next[1..])
  }

  lemma {:induction false} OneLinkLess(next: seq<int>, t: nat)
    requires t < |next| && next[t] != NULL
    ensures LinksSet(next[t := NULL]) < LinksSet(next)
  {
    if t == 0 {
      assert next[t := NULL][1..] == next[1..];
    } else {
      assert next[t := NULL][1..] == next[1..][t - 1 := NULL];
      OneLinkLess(next[1..], t - 1);
    }
  }

  function SlotsSet(l: Clearing): nat { LinksSet(l.next) + if l.head == NULL then 0 else 1 }

  lemma OneSlotLess(l: Clearing)
    requires AtThread(l)
    ensures SlotsSet(ClearTurn(l)) < SlotsSet(l)
  {
    if 0 <= l.slot < |l.next| {
      OneLinkLess(l.next, l.slot);
    }
  }

  // The whole loop. It comes to an end on any links, also on a circle, as it clears them.
  function ClearAll(l: Clearing): Clearing
    decreases SlotsSet(l)
  {
    if AtThread(l) then
      OneSlotLess(l);
      ClearAll(ClearTurn(l))
    else l
  }

  // On a chain the loop wakes its threads, and changes no other links than theirs.
  lemma {:induction false} ClearsChain(l: Clearing, rest: seq<nat>)
    requires |l.waiting| == |l.next|
    requires l.slot == NULL || (0 <= l.slot < |l.next| && l.slot !in rest && l.head == NULL)
    requires InSlot(l) == First(rest) && Chain(l.next, First(rest), rest)
    ensures var m := ClearAll(l);
      |m.next| == |m.waiting| == |l.next| && m.head == NULL && m.woken == l.woken + |rest| &&
      (forall u :: 0 <= u < |l.next| && u !in rest && u != l.slot ==> m.next[u] == l.next[u]) &&
      (forall u :: 0 <= u < |l.next| ==> m.waiting[u] == (l.waiting[u] && u !in rest)) &&
      (forall u :: 0 <= u < |l.next| && (u in rest || u == l.slot) ==> m.next[u] == NULL)
    decreases |rest|
  {
    if rest != [] {
      var c, n := rest[0], ClearTurn(l);
      assert Chain(l.next, First(rest[1..]), rest[1..]) && l.next[c] == First(rest[1..]) by {
        HeadOfChain(l.next, rest);
        HeadIsFirst(l.next, l.next[c], rest[1..]);
      }
      KeepsChain(l.next, n.next, First(rest[1..]), rest[1..]);
      ClearsChain(n, rest[1..]);
      assert rest == [c] + rest[1..];
    }
  }

  // ----- taking a thread out of a list

  // The place of a thread in a list, or behind its end.
  function IndexOf(q: seq<nat>, t: nat): (j: nat)
    ensures j <= |q| && (j < |q| <==> t in q) && (j < |q| ==> q[j] == t)
    ensures t !in q[..j]
  {
    if q == [] then 0 else if q[0] == t then 0
    else
      assert q == [q[0]] + q[1..];
      1 + IndexOf(q[1..], t)
  }

  function Without(q: seq<nat>, t: nat): seq<nat>
    requires t in q
  {
    q[..IndexOf(q, t)] + q[IndexOf(q, t) + 1..]
  }

  // *list = (*list)->next_irq, where *list is the head or the link of the thread before t.
  function HeadWithout(next: seq<int>, head: int, q: seq<nat>, t: nat): int
    requires t in q && t < |next|
  {
    if IndexOf(q, t) == 0 then next[t] else head
  }

  function NextWithout(next: seq<int>, q: seq<nat>, t: nat): seq<int>
    requires t in q && t < |next|
  {
    var j := IndexOf(q, t);
    if j == 0 || q[j - 1] >= |next| then next else next[q[j - 1] := next[t]]
  }

  lemma WithoutIsChain(next: seq<int>, head: int, q: seq<nat>, t: nat)
    requires Chain(next, head, q) && t in q
    ensures t < |next| && Chain(NextWithout(next, q, t), HeadWithout(next, head, q, t), Without(q, t))
    ensures forall u :: u in Without(q, t) <==> u in q && u != t
    ensures forall u :: 0 <= u < |next| && u !in q ==> NextWithout(next, q, t)[u] == next[u]
  {
    var j := IndexOf(q, t);
    var kept, rest := q[..j], q[j..];
    assert q == kept + rest && rest[0] == t && rest[1..] == q[j + 1..];
    ChainBehind(next, head, kept, rest);
    HeadOfChain(next, rest);
    assert rest == [t] + rest[1..] && t !in rest[1..];
    if j == 0 {
      assert Without(q, t) == rest[1..];
    } else {
      assert kept[|kept| - 1] == q[j - 1];
      Unlink(next, head, kept, rest);
    }
  }

  // ----- the lists as a value

  // The fields of all threads, and the heads of the lists: the list with number 0 is that of the signals,
  // number i + 1 that of interrupt i. Besides, for each list the threads that are meant to be in it, and for
  // each thread the list that it was last put in and whether it has been deleted.
  datatype List = List(
    next: seq<int>, id: seq<Word>, waiting: seq<bool>, heads: seq<int>,
    queues: seq<seq<nat>>, on: seq<nat>, gone: seq<bool>)

  const SIGNALS := 0

  function FreshList(threads: nat, interrupts: nat): List {
    List(seq(threads, _ => NULL), seq(threads, _ => 0), seq(threads, _ => false), seq(1 + interrupts, _ => NULL),
         seq(1 + interrupts, _ => []), seq(threads, _ => 0), seq(threads, _ => false))
  }

  predicate Sized(s: List) {
    |s.next| == |s.id| == |s.waiting| == |s.on| == |s.gone| && |s.heads| == |s.queues| > 0
  }

  predicate WaitsOn(s: List, t: nat, k: nat)
    requires Sized(s) && t < |s.next|
  {
    s.waiting[t] && !s.gone[t] && s.on[t] == k
  }

  // Each list meets the threads of its queue.
  ghost predicate Linked(s: List) {
    Sized(s) && forall k :: 0 <= k < |s.heads| ==> Chain(s.next, s.heads[k], s.queues[k])
  }

  // Each list meets exactly the threads that wait there, in the order qs.
  ghost predicate Lists(s: List, qs: seq<seq<nat>>) {
    Sized(s) && |qs| == |s.heads| &&
    (forall k :: 0 <= k < |qs| ==> Chain(s.next, s.heads[k], qs[k])) &&
    (forall k, t :: 0 <= k < |qs| && 0 <= t < |s.next| ==> (t in qs[k] <==> WaitsOn(s, t, k))) &&
    forall t :: 0 <= t < |s.next| && s.waiting[t] ==> s.on[t] < |qs|
  }

  // So no thread is in two lists.
  ghost predicate Sound(s: List) { Lists(s, s.queues) }

  predicate Runs(s: List, t: nat) { Sized(s) && t < |s.next| && !s.waiting[t] && !s.gone[t] }

  // cothread_yield_signal and cothread_yield_irq, up to the switch to another thread.
  function Yielded(s: List, t: nat, k: nat, signal: Word): List
    requires Runs(s, t) && k < |s.heads|
  {
    s.(next := if s.heads[k] != NULL then s.next[t := s.heads[k]] else s.next,
       id := if k == SIGNALS then s.id[t := signal] else s.id, waiting := s.waiting[t := true],
       heads := s.heads[k := t], queues := s.queues[k := [t] + s.queues[k]], on := s.on[t := k])
  }

  function LoopStart(s: List): Loop
    requires Sized(s)
  {
    Loop(s.next, s.waiting, s.heads[SIGNALS], NULL, s.heads[SIGNALS], 0)
  }

  // The loop of a signal comes to its end.
  ghost predicate Returns(s: List, signal: Word)
    requires Sized(s)
  {
    exists n: nat :: Turns(LoopStart(s), s.id, signal, n).t == NULL
  }

  ghost function LoopEnd(s: List, signal: Word): (l: Loop)
    requires Sized(s)
    ensures Returns(s, signal) ==> l.t == NULL
  {
    if Returns(s, signal) then
      var n: nat :| Turns(LoopStart(s), s.id, signal, n).t == NULL;
      Turns(LoopStart(s), s.id, signal, n)
    else LoopStart(s)
  }

  // cothread_send_signal
  ghost function Sent(s: List, signal: Word): List
    requires Sized(s)
  {
    var l := LoopEnd(s, signal);
    s.(next := l.next, waiting := l.waiting, heads := s.heads[SIGNALS := l.head],
       queues := s.queues[SIGNALS := Left(s.queues[SIGNALS], s.id, signal, Nothing)])
  }

  function ClearingStart(s: List, k: nat): Clearing
    requires Sized(s) && k < |s.heads|
  {
    Clearing(s.next, s.waiting, s.heads[k], NULL, 0)
  }

  // The dispatcher, when the interrupt of list k has come.
  function Interrupted(s: List, k: nat): List
    requires Sized(s) && k < |s.heads|
  {
    var l := ClearAll(ClearingStart(s, k));
    s.(next := l.next, waiting := l.waiting, heads := s.heads[k := l.head], queues := s.queues[k := []])
  }

  // The first list of an interrupt, from number k on, that the thread is in.
  function FirstWith(queues: seq<seq<nat>>, t: nat, k: nat): (j: nat)
    requires k <= |queues|
    ensures k <= j <= |queues| && (j < |queues| ==> t in queues[j])
    ensures forall i :: k <= i < j ==> t !in queues[i]
    decreases |queues| - k
  {
    if k == |queues| || t in queues[k] then k else FirstWith(queues, t, k + 1)
  }

  // The threads that a list meets, when it has an end.
  ghost predicate Ends(s: List, k: nat)
    requires k < |s.heads|
  {
    exists q :: Chain(s.next, s.heads[k], q)
  }

  ghost function Met(s: List, k: nat): (q: seq<nat>)
    requires k < |s.heads|
    ensures Ends(s, k) ==> Chain(s.next, s.heads[k], q)
  {
    if Ends(s, k) then var q :| Chain(s.next, s.heads[k], q); q else []
  }

  ghost function AllMet(s: List): (m: seq<seq<nat>>)
    ensures |m| == |s.heads| && forall k :: 0 <= k < |m| ==> m[k] == Met(s, k)
  {
    seq(|s.heads|, k requires 0 <= k < |s.heads| => Met(s, k))
  }

  // The search of cothread_delete, through the lists of all interrupts, comes to its end.
  ghost predicate SearchEnds(s: List) { forall k :: 1 <= k < |s.heads| ==> Ends(s, k) }

  // cothread_delete: the thread is taken out of the list of an interrupt, but not out of that of the signals.
  ghost function Deleted(s: List, t: nat): List
    requires Sized(s) && t < |s.next|
  {
    var m := AllMet(s);
    var k, n := FirstWith(m, t, 1), s.(gone := s.gone[t := true]);
    if k == |m| then n
    else
      n.(next := NextWithout(s.next, m[k], t), queues := s.queues[k := Without(m[k], t)],
         heads := s.heads[k := HeadWithout(s.next, s.heads[k], m[k], t)])
  }

  // ----- what each function means for the lists

  // After a change of list k alone.
  lemma SoundAfter(s: List, n: List, k: nat)
    requires Sound(s) && Sized(n) && |n.next| == |s.next| && |n.heads| == |s.heads| && k < |s.heads|
    requires Chain(n.next, n.heads[k], n.queues[k])
    requires forall t :: 0 <= t < |n.next| ==> (t in n.queues[k] <==> WaitsOn(n, t, k))
    requires forall j :: 0 <= j < |s.heads| && j != k ==> n.heads[j] == s.heads[j] && n.queues[j] == s.queues[j]
    requires forall j, t :: 0 <= j < |s.heads| && j != k && 0 <= t < |s.next| ==> WaitsOn(n, t, j) == WaitsOn(s, t, j)
    requires forall j, t :: 0 <= j < |s.heads| && j != k && t in s.queues[j] && t < |s.next| ==> n.next[t] == s.next[t]
    requires forall t :: 0 <= t < |n.next| && n.waiting[t] ==> n.on[t] < |n.heads|
    ensures Sound(n)
  {
    hide Chain;
    forall j | 0 <= j < |n.heads| ensures Chain(n.next, n.heads[j], n.queues[j]) {
      if j != k {
        KeepsChain(s.next, n.next, s.heads[j], s.queues[j]);
      }
    }
  }

  // The thread is linked still from an earlier wait, and nothing overwrites the link.
  predicate IsStale(s: List, t: nat, k: nat) {
    t < |s.next| && k < |s.heads| && s.heads[k] == NULL && s.next[t] != NULL
  }

  // A yield keeps the lists sound exactly when the thread is not stale; and if it is, the list meets threads
  // that do not wait there, or does not end.
  lemma YieldKeepsSound(s: List, t: nat, k: nat, signal: Word)
    requires Sound(s) && Runs(s, t) && k < |s.heads|
    ensures !IsStale(s, t, k) ==> Sound(Yielded(s, t, k, signal))
    ensures IsStale(s, t, k) ==> forall qs :: !Lists(Yielded(s, t, k, signal), qs)
  {
    var n := Yielded(s, t, k, signal);
    if !IsStale(s, t, k) {
      assert n.queues[k][1..] == s.queues[k];
      OtherLinksDoNotMatter(s.next, s.heads[k], s.queues[k], t, n.next[t]);
      assert s.next[t := n.next[t]] == n.next;
      SoundAfter(s, n, k);
    } else {
      EmptyQueue(s, k);
      assert forall u :: 0 <= u < |n.next| && u != t ==> WaitsOn(n, u, k) == (u in s.queues[k]);
      forall qs | Lists(n, qs) ensures false {
        SleeperIsNotAlone(n.next, n.heads[k], qs[k], t);
      }
    }
  }

  lemma EmptyQueue(s: List, k: nat)
    requires Sound(s) && k < |s.heads| && s.heads[k] == NULL
    ensures s.queues[k] == []
  {
    HeadIsFirst(s.next, s.heads[k], s.queues[k]);
  }

  // A list that goes on behind its first thread has another thread in it.
  lemma SleeperIsNotAlone(next: seq<int>, head: int, q: seq<nat>, t: nat)
    requires Chain(next, head, q) && head == t && t < |next| && next[t] != NULL
    ensures exists u :: u in q && u != t && u < |next|
  {
    var rest := q[1..];
    assert Chain(next, next[t], rest);
    assert rest[0] in q && rest[0] in rest;
    ChainIsInRange(next, head, q, rest[0]);
  }

  lemma HeadIsFirst(next: seq<int>, head: int, q: seq<nat>)
    requires Chain(next, head, q)
    ensures head == First(q)
  {
  }

  // A signal wakes exactly the threads of the list that wait for it, and changes no links of others.
  lemma SendWakes(s: List, signal: Word)
    requires Sized(s) && Chain(s.next, s.heads[SIGNALS], s.queues[SIGNALS])
    ensures var n, q := Sent(s, signal), s.queues[SIGNALS];
      Sized(n) && |n.next| == |s.next| && Chain(n.next, n.heads[SIGNALS], n.queues[SIGNALS]) &&
      WokenIn(s.waiting, n.waiting, q, s.id, signal) &&
      forall u :: 0 <= u < |s.next| && u !in q ==> n.next[u] == s.next[u]
  {
    var q, l := s.queues[SIGNALS], LoopStart(s);
    LoopEndIs(s, signal);
    StartPasses(s);
    TurnsPass(l, [], q, Nothing, s.id, signal);
    assert [] + Left(q, s.id, signal, Nothing) == Left(q, s.id, signal, Nothing);
    forall u | 0 <= u < |s.next| && u !in q ensures Sent(s, signal).next[u] == s.next[u] {
      TurnsTouch(l, [], q, Nothing, s.id, signal, q, u);
    }
  }

  lemma {:induction false} StaysAtEnd(l: Loop, id: seq<Word>, signal: Word, n: nat)
    requires !InRange(l)
    ensures Turns(l, id, signal, n) == l
    decreases n
  {
    if n > 0 {
      StaysAtEnd(l, id, signal, n - 1);
    }
  }

  lemma {:induction false} OneEnd(l: Loop, id: seq<Word>, signal: Word, m: nat, n: nat)
    requires Turns(l, id, signal, m).t == NULL && Turns(l, id, signal, n).t == NULL
    ensures Turns(l, id, signal, m) == Turns(l, id, signal, n)
    decreases n
  {
    if m == 0 || n == 0 {
      StaysAtEnd(l, id, signal, m);
      StaysAtEnd(l, id, signal, n);
    } else {
      OneEnd(Turn(l, id, signal), id, signal, m - 1, n - 1);
    }
  }

  lemma LoopEndsAfter(s: List, signal: Word, n: nat)
    requires Sized(s) && Turns(LoopStart(s), s.id, signal, n).t == NULL
    ensures Returns(s, signal) && LoopEnd(s, signal) == Turns(LoopStart(s), s.id, signal, n)
  {
    hide Turns;
    var m := TurnsToEnd(s, signal);
    OneEnd(LoopStart(s), s.id, signal, m, n);
  }

  // On a list with an end, the loop takes one turn for each thread.
  lemma LoopEndIs(s: List, signal: Word)
    requires Sized(s) && Chain(s.next, s.heads[SIGNALS], s.queues[SIGNALS])
    ensures var n := |s.queues[SIGNALS]|;
      Returns(s, signal) && LoopEnd(s, signal) == Turns(LoopStart(s), s.id, signal, n)
    ensures LoopEnd(s, signal).woken == Waiters(s.queues[SIGNALS], s.id, signal)
  {
    hide Chain, Turns, Passing;
    StartPasses(s);
    TurnsPass(LoopStart(s), [], s.queues[SIGNALS], Nothing, s.id, signal);
    LoopEndsAfter(s, signal, |s.queues[SIGNALS]|);
  }

  lemma StartPasses(s: List)
    requires Sized(s) && Chain(s.next, s.heads[SIGNALS], s.queues[SIGNALS])
    ensures Passing(LoopStart(s), [], s.queues[SIGNALS], Nothing)
  {
    assert [] + s.queues[SIGNALS] == s.queues[SIGNALS];
    HeadIsFirst(s.next, s.heads[SIGNALS], s.queues[SIGNALS]);
  }

  // A signal keeps the lists sound exactly when no two threads in a row waited for it behind one that waited
  // for another; and if they did, the list meets a thread that does not wait.
  lemma SendKeepsSound(s: List, signal: Word)
    requires Sound(s)
    ensures !PairBehind(s.queues[SIGNALS], s.id, signal, false) ==> Sound(Sent(s, signal))
    ensures PairBehind(s.queues[SIGNALS], s.id, signal, false) ==> forall qs :: !Lists(Sent(s, signal), qs)
  {
    hide PairBehind, Turns, Left, Chain;
    var n, q := Sent(s, signal), s.queues[SIGNALS];
    SendWakes(s, signal);
    LeftAreOthers(q, s.id, signal, Nothing);
    LeftIsPart(q, s.id, signal, Nothing);
    QueueIsInRange(s, SIGNALS);
    if !PairBehind(q, s.id, signal, false) {
      SoundAfter(s, n, SIGNALS);
    } else {
      forall qs | Lists(n, qs) ensures false {
        ChainIsUnique(n.next, n.heads[SIGNALS], qs[SIGNALS], n.queues[SIGNALS]);
      }
    }
  }

  lemma LeftIsPart(q: seq<nat>, id: seq<Word>, signal: Word, p: Previous)
    ensures forall t :: t in Left(q, id, signal, p) ==> t in q
    ensures forall t :: t in q && !WaitsFor(id, t, signal) ==> t in Left(q, id, signal, p)
  {
  }

  lemma QueueIsInRange(s: List, k: nat)
    requires Linked(s) && k < |s.heads|
    ensures forall t :: t in s.queues[k] ==> t < |s.next|
  {
    forall t | t in s.queues[k] ensures t < |s.next| {
      ChainIsInRange(s.next, s.heads[k], s.queues[k], t);
    }
  }

  // An interrupt wakes exactly the threads that wait for it, and always keeps the lists sound.
  lemma InterruptKeepsSound(s: List, k: nat)
    requires Sound(s) && k < |s.heads|
    ensures var n := Interrupted(s, k);
      Sound(n) && |n.next| == |s.next| &&
      forall t :: 0 <= t < |s.next| ==> n.waiting[t] == (s.waiting[t] && t !in s.queues[k])
  {
    hide Chain;
    var n, q := Interrupted(s, k), s.queues[k];
    HeadIsFirst(s.next, s.heads[k], q);
    ClearsChain(ClearingStart(s, k), q);
    EmptyChain(n.next);
    SoundAfter(s, n, k);
  }

  lemma EmptyChain(next: seq<int>)
    ensures Chain(next, NULL, [])
  {
  }

  lemma MetIsQueues(s: List)
    requires Linked(s)
    ensures AllMet(s) == s.queues && SearchEnds(s)
  {
    hide Chain;
    forall k | 0 <= k < |s.heads| ensures Ends(s, k) && Met(s, k) == s.queues[k] {
      assert Chain(s.next, s.heads[k], s.queues[k]);
      ChainIsUnique(s.next, s.heads[k], Met(s, k), s.queues[k]);
    }
  }

  // Deleting a thread keeps the lists sound exactly when it does not wait for a signal; and if it does, the
  // list meets a thread that is no more.
  lemma DeleteKeepsSound(s: List, t: nat)
    requires Sound(s) && t < |s.next|
    ensures |Deleted(s, t).next| == |s.next|
    ensures !WaitsOn(s, t, SIGNALS) ==> Sound(Deleted(s, t))
    ensures WaitsOn(s, t, SIGNALS) ==> forall qs :: !Lists(Deleted(s, t), qs)
  {
    hide Chain;
    MetIsQueues(s);
    var n, k := Deleted(s, t), FirstWith(s.queues, t, 1);
    if WaitsOn(s, t, SIGNALS) {
      assert k == |s.queues| && !WaitsOn(n, t, SIGNALS);
      forall qs | Lists(n, qs) ensures false {
        ChainIsUnique(n.next, n.heads[SIGNALS], qs[SIGNALS], s.queues[SIGNALS]);
      }
    } else if k == |s.queues| {
      assert forall j :: 0 <= j < |s.heads| ==> !WaitsOn(s, t, j);
    } else {
      var q := s.queues[k];
      WithoutIsChain(s.next, s.heads[k], q, t);
      forall u | 0 <= u < |n.next| ensures u in n.queues[k] <==> WaitsOn(n, u, k) {
        assert u in q <==> WaitsOn(s, u, k);
      }
      forall j, u | 0 <= j < |s.heads| && j != k && u in s.queues[j] && u < |s.next|
        ensures n.next[u] == s.next[u]
      {
        assert WaitsOn(s, u, j) && !WaitsOn(s, u, k);
      }
      SoundAfter(s, n, k);
    }
  }

  // ----- the scheduler

  class Scheduler {
    var next: seq<int>          // next_irq or next_signal of every thread
    var id: seq<Word>           // wait_signal_id
    var waiting: seq<bool>      // COTHREAD_WAITING
    var heads: seq<int>         // cothread_list_signal, and then cothread_list_irq
    var count: Word             // cothread_threads_waiting_count
    ghost var queues: seq<seq<nat>>
    ghost var on: seq<nat>
    ghost var gone: seq<bool>

    ghost function State(): List reads this { List(next, id, waiting, heads, queues, on, gone) }

    constructor (threads: nat, interrupts: nat)
      ensures State() == FreshList(threads, interrupts) && count == 0
    {
      next, id, waiting := seq(threads, _ => NULL), seq(threads, _ => 0), seq(threads, _ => false);
      heads, count := seq(1 + interrupts, _ => NULL), 0;
      queues, on, gone := seq(1 + interrupts, _ => []), seq(threads, _ => 0), seq(threads, _ => false);
    }

    method YieldSignal(t: nat, signal: Word)
      requires Runs(State(), t)
      modifies this
      ensures State() == Yielded(old(State()), t, SIGNALS, signal) && count == (old(count) + 1) % TWO32
      ensures old(Sound(State())) ==> (Sound(State()) <==> !IsStale(old(State()), t, SIGNALS))
    {
      hide Sound, IsStale;
      ghost var s := State();
      if heads[SIGNALS] != NULL {
        next := next[t := heads[SIGNALS]];
        heads := heads[SIGNALS := t];
      } else {
        heads := heads[SIGNALS := t];
      }
      id := id[t := signal];
      waiting := waiting[t := true];
      count := (count + 1) % TWO32;
      queues, on := queues[SIGNALS := [t] + queues[SIGNALS]], on[t := SIGNALS];
      if Sound(s) {
        YieldIsSoundIff(s, t, SIGNALS, signal);
      }
    }

    method YieldIrq(t: nat, i: nat)
      requires Runs(State(), t) && i + 1 < |heads|
      modifies this
      ensures State() == Yielded(old(State()), t, i + 1, 0) && count == (old(count) + 1) % TWO32
      ensures old(Sound(State())) ==> (Sound(State()) <==> !IsStale(old(State()), t, i + 1))
    {
      hide Sound, IsStale;
      ghost var s := State();
      if heads[i + 1] != NULL {
        next := next[t := heads[i + 1]];
        heads := heads[i + 1 := t];
      } else {
        heads := heads[i + 1 := t];
      }
      waiting := waiting[t := true];
      count := (count + 1) % TWO32;
      queues, on := queues[i + 1 := [t] + queues[i + 1]], on[t := i + 1];
      if Sound(s) {
        YieldIsSoundIff(s, t, i + 1, 0);
      }
    }

    method SendSignal(signal: Word)
      requires Sized(State()) && Returns(State(), signal)
      modifies this
      ensures State() == Sent(old(State()), signal)
      ensures count == (old(count) - LoopEnd(old(State()), signal).woken) % TWO32
      ensures old(Linked(State())) ==>
        WokenIn(old(waiting), waiting, old(queues)[SIGNALS], id, signal) &&
        count == (old(count) - Waiters(old(queues)[SIGNALS], id, signal)) % TWO32
      ensures old(Sound(State())) ==> (Sound(State()) <==> !PairBehind(old(queues)[SIGNALS], id, signal, false))
    {
      hide Chain, Left, Waiters, PairBehind, Turns, Lists, WokenIn, Returns, LoopEnd;
      ghost var s := State();
      ghost var left := TurnsToEnd(s, signal);
      var woken := 0;
      var previous := NULL;
      var t := heads[SIGNALS];
      while t != NULL
        invariant id == s.id && queues == s.queues && on == s.on && gone == s.gone && count == old(count)
        invariant |next| == |s.next| && |heads| == |s.heads| && heads == s.heads[SIGNALS := heads[SIGNALS]]
        invariant Turns(Loop(next, waiting, heads[SIGNALS], previous, t, woken), id, signal, left)
          == LoopEnd(s, signal)
        decreases left
      {
        ghost var l := Loop(next, waiting, heads[SIGNALS], previous, t, woken);
        GoesOn(l, id, signal, left);
        var c: nat := t;
        if id[c] != signal {
          previous := t;
          t := next[c];
        } else {
          waiting := waiting[c := false];
          if previous == NULL {
            heads := heads[SIGNALS := next[c]];
            t := next[c];
          } else {
            next := next[previous := next[c]];
            previous := t;
            t := next[c];
          }
          woken := woken + 1;
        }
        assert Loop(next, waiting, heads[SIGNALS], previous, t, woken) == Turn(l, id, signal);
        left := left - 1;
      }
      StaysAtEnd(Loop(next, waiting, heads[SIGNALS], previous, t, woken), id, signal, left);
      assert count == count % TWO32;
      if woken > 0 {
        count := (count - woken) % TWO32;
      }
      queues := queues[SIGNALS := Left(queues[SIGNALS], id, signal, Nothing)];
      if Linked(s) {
        SendWakes(s, signal);
        LoopEndIs(s, signal);
      }
      if Sound(s) {
        SendIsSoundIff(s, signal);
      }
    }

    // The end of the interrupt dispatcher: it terminates whatever the links are.
    method Interrupt(i: nat)
      requires Sized(State()) && i + 1 < |heads|
      modifies this
      ensures State() == Interrupted(old(State()), i + 1)
      ensures old(Sound(State())) ==>
        Sound(State()) && count == (old(count) - |old(queues)[i + 1]|) % TWO32 && |next| == |old(next)| &&
        forall t :: 0 <= t < |next| ==> waiting[t] == (old(waiting)[t] && t !in old(queues)[i + 1])
    {
      hide ClearAll, Sound;
      ghost var s := State();
      var k := i + 1;
      var woken, slot := 0, NULL;
      while 0 <= (if slot == NULL then heads[k] else next[slot]) < |next|
        invariant slot == NULL || 0 <= slot < |next|
        invariant id == s.id && queues == s.queues && on == s.on && gone == s.gone && count == old(count)
        invariant |next| == |waiting| == |id| && |heads| == |s.heads| && heads == s.heads[k := heads[k]]
        invariant ClearAll(Clearing(next, waiting, heads[k], slot, woken)) == ClearAll(ClearingStart(s, k))
        decreases SlotsSet(Clearing(next, waiting, heads[k], slot, woken))
      {
        ghost var l := Clearing(next, waiting, heads[k], slot, woken);
        OneSlotLess(l);
        ClearsFirst(l);
        var t: nat := if slot == NULL then heads[k] else next[slot];
        if slot == NULL {
          heads := heads[k := NULL];
        } else {
          next := next[slot := NULL];
        }
        waiting := waiting[t := false];
        slot := t;
        woken := woken + 1;
        assert Clearing(next, waiting, heads[k], slot, woken) == ClearTurn(l);
      }
      ClearsNothing(Clearing(next, waiting, heads[k], slot, woken));
      assert count == count % TWO32;
      if woken != 0 {
        count := (count - woken) % TWO32;
      }
      queues := queues[k := []];
      if Sound(s) {
        InterruptKeepsSound(s, k);
        InterruptCounts(s, k);
      }
    }

    // cothread_delete. The lists of the interrupts are searched in turn; that of the signals is not.
    method Delete(t: nat)
      requires Sized(State()) && SearchEnds(State()) && t < |next|
      modifies this
      ensures State() == Deleted(old(State()), t)
      ensures count == (old(count) - if FirstWith(old(AllMet(State())), t, 1) < |heads| then 1 else 0) % TWO32
      ensures old(Sound(State())) ==> (Sound(State()) <==> !WaitsOn(old(State()), t, SIGNALS))
    {
      hide Sound, Chain, Met;
      ghost var s, m := State(), AllMet(State());
      var k := 1;
      assert count == count % TWO32;
      while k < |heads|
        invariant 1 <= k <= |heads| && State() == s && count == old(count)
        invariant FirstWith(m, t, k) == FirstWith(m, t, 1)
      {
        var found, slot := Search(k, t);
        if found {
          if slot == NULL {
            heads := heads[k := next[t]];
          } else {
            next := next[slot := next[t]];
          }
          count := (count - 1) % TWO32;
          queues := queues[k := Without(m[k], t)];
          break;
        }
        k := k + 1;
      }
      gone := gone[t := true];
      if Sound(s) {
        DeleteIsSoundIff(s, t);
      }
    }

    // Where a list links to a thread: at its head (NULL), or at the thread before.
    method Search(k: nat, t: nat) returns (found: bool, slot: int)
      requires Sized(State()) && k < |heads| && Ends(State(), k) && t < |next|
      ensures found <==> t in Met(State(), k)
      ensures found ==> var q := Met(State(), k); slot == if IndexOf(q, t) == 0 then NULL else q[IndexOf(q, t) - 1]
      ensures found && slot != NULL ==> 0 <= slot < |next|
    {
      hide Chain;
      ghost var q, j := Met(State(), k), 0;
      slot := NULL;
      ChainAt(next, heads[k], q, 0);
      while (if slot == NULL then heads[k] else next[slot]) != NULL
        invariant j <= |q| && slot == (if j == 0 then NULL else q[j - 1]) && slot < |next|
        invariant (if slot == NULL then heads[k] else next[slot]) == First(q[j..])
        invariant t !in q[..j]
        decreases |q| - j
      {
        ChainAt(next, heads[k], q, j);
        var u: nat := if slot == NULL then heads[k] else next[slot];
        if u == t {
          FirstIndex(q, t, j);
          return true, slot;
        }
        slot := u;
        j := j + 1;
      }
      assert q[..j] == q;
      return false, slot;
    }
  }

  lemma ChainAt(next: seq<int>, head: int, q: seq<nat>, j: nat)
    requires Chain(next, head, q) && j <= |q|
    ensures head == First(q)
    ensures j < |q| ==> q[j] < |next| && next[q[j]] == First(q[j + 1..])
  {
    HeadIsFirst(next, head, q);
    if j < |q| {
      assert q == q[..j + 1] + q[j + 1..];
      ChainBehind(next, head, q[..j + 1], q[j + 1..]);
    }
  }

  lemma {:induction false} FirstIndex(q: seq<nat>, t: nat, j: nat)
    requires j < |q| && q[j] == t && t !in q[..j]
    ensures IndexOf(q, t) == j
    decreases j
  {
    if j > 0 {
      assert q[0] == q[..j][0] && q[1..][..j - 1] == q[..j][1..];
      FirstIndex(q[1..], t, j - 1);
    }
  }

  lemma TurnsFirst(l: Loop, id: seq<Word>, signal: Word, k: nat)
    requires k > 0
    ensures Turns(l, id, signal, k) == Turns(Turn(l, id, signal), id, signal, k - 1)
  {
  }

  lemma TurnsToEnd(s: List, signal: Word) returns (n: nat)
    requires Sized(s) && Returns(s, signal)
    ensures Turns(LoopStart(s), s.id, signal, n) == LoopEnd(s, signal) && LoopEnd(s, signal).t == NULL
  {
    n :| Turns(LoopStart(s), s.id, signal, n) == LoopEnd(s, signal);
  }

  lemma GoesOn(l: Loop, id: seq<Word>, signal: Word, left: nat)
    requires l.t != NULL && Turns(l, id, signal, left).t == NULL
    ensures left > 0 && InRange(l) && Turns(l, id, signal, left) == Turns(Turn(l, id, signal), id, signal, left - 1)
  {
    if !InRange(l) {
      StaysAtEnd(l, id, signal, left);
    }
  }

  lemma ClearsFirst(l: Clearing)
    requires AtThread(l)
    ensures ClearAll(l) == ClearAll(ClearTurn(l)) && AtThread(l)
  {
    OneSlotLess(l);
  }

  lemma ClearsNothing(l: Clearing)
    requires !AtThread(l)
    ensures ClearAll(l) == l
  {
  }

  lemma InterruptCounts(s: List, k: nat)
    requires Sound(s) && k < |s.heads|
    ensures ClearAll(ClearingStart(s, k)).woken == |s.queues[k]|
  {
    hide ClearAll;
    HeadIsFirst(s.next, s.heads[k], s.queues[k]);
    ClearsChain(ClearingStart(s, k), s.queues[k]);
  }

  lemma YieldIsSoundIff(s: List, t: nat, k: nat, signal: Word)
    requires Sound(s) && Runs(s, t) && k < |s.heads|
    ensures Sound(Yielded(s, t, k, signal)) <==> !IsStale(s, t, k)
  {
    hide Lists, Yielded, IsStale;
    YieldKeepsSound(s, t, k, signal);
  }

  lemma SendIsSoundIff(s: List, signal: Word)
    requires Sound(s)
    ensures Sound(Sent(s, signal)) <==> !PairBehind(s.queues[SIGNALS], s.id, signal, false)
  {
    hide PairBehind, Sent, Lists;
    SendKeepsSound(s, signal);
  }

  lemma DeleteIsSoundIff(s: List, t: nat)
    requires Sound(s) && t < |s.next|
    ensures Sound(Deleted(s, t)) <==> !WaitsOn(s, t, SIGNALS)
  {
    hide Lists, Deleted, WaitsOn;
    DeleteKeepsSound(s, t);
  }

  // ----- what an unsound list does

  // On a circle of one or two threads that wait for the same signal, the loop goes on for ever, whatever the
  // signal is that it sends.
  lemma {:induction false} CircleNeverEnds(l: Loop, id: seq<Word>, a: nat, b: nat, signal: Word, k: nat)
    requires a < |l.next| == |l.waiting| == |id| && b < |l.next| && l.next[a] == b && l.next[b] == a
    requires id[a] == id[b] && l.t in {a, b}
    requires if id[a] == signal then l.previous == NULL else l.previous in {NULL, a, b}
    ensures Turns(l, id, signal, k).t in {a, b}
    decreases k
  {
    if k > 0 {
      CircleNeverEnds(Turn(l, id, signal), id, a, b, signal, k - 1);
    }
  }
}
