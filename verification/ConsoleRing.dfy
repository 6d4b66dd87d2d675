// The ring buffer that takes the ARM7's characters to the console of the ARM9: the producer is
// consolePrintChar of source/arm7/console.c, the consumer consoleArm7Flush of source/arm9/console.c. Each
// index belongs to one CPU, which advances it with two stores: an increment, and the wrap to 0. The step
// system below has every access to shared memory as a step of its own, in any order of the two CPUs.

module ConsoleRing {
  const U16 := 0x1_0000

  // Where consolePrintChar is: about to test for room; about to store; about to increment write_index;
  // about to test for its wrap.
  datatype Producer = Ready | Storing(c: char) | Stored(c: char) | Bumped

  // Where the loop of consoleArm7Flush is: about to compare the indices (or not running); about to load
  // a character; about to increment read_index; about to test for its wrap.
  datatype Consumer = Testing | Loading | Loaded(c: char) | Past(c: char)

  // The shared memory, the two CPUs, and the history: the characters that were put into the buffer and
  // the characters that were printed.
  datatype Ring = Ring(
    buffer: seq<char>, read: nat, write: nat,
    producer: Producer, consumer: Consumer,
    accepted: seq<char>, printed: seq<char>)

  function FreshRing(buffer: seq<char>): Ring { Ring(buffer, 0, 0, Ready, Testing, [], []) }

  datatype Step =
    | CheckRoom(c: char) | Store | BumpWrite | WrapWrite
    | Compare | Load | BumpRead | WrapRead

  function NextWriteIndex(write: nat, size: nat): nat { if write + 1 >= size then 0 else write + 1 }

  predicate Can(r: Ring, s: Step) {
    match s
    case CheckRoom(_) => r.producer.Ready?
    case Store => r.producer.Storing? && r.write < |r.buffer|
    case BumpWrite => r.producer.Stored?
    case WrapWrite => r.producer.Bumped?
    case Compare => r.consumer.Testing?
    case Load => r.consumer.Loading? && r.read < |r.buffer|
    case BumpRead => r.consumer.Loaded?
    case WrapRead => r.consumer.Past?
  }

  function Next(r: Ring, s: Step): Ring
    requires Can(r, s)
  {
    var size := |r.buffer|;
    match s
    case CheckRoom(c) => if NextWriteIndex(r.write, size) == r.read then r else r.(producer := Storing(c))
    case Store => r.(buffer := r.buffer[r.write := r.producer.c], producer := Stored(r.producer.c))
    case BumpWrite => r.(write := r.write + 1, producer := Bumped, accepted := r.accepted + [r.producer.c])
    case WrapWrite => r.(write := if r.write == size then 0 else r.write, producer := Ready)
    case Compare => if r.read != r.write then r.(consumer := Loading) else r
    case Load => r.(consumer := Loaded(r.buffer[r.read]))
    case BumpRead => r.(read := r.read + 1, consumer := Past(r.consumer.c))
    case WrapRead =>
      r.(read := if r.read == size then 0 else r.read, consumer := Testing, printed := r.printed + [r.consumer.c])
  }

  ghost predicate IsRun(r: Ring, steps: seq<Step>, last: Ring)
    decreases |steps|
  {
    if steps == [] then last == r else Can(r, steps[0]) && IsRun(Next(r, steps[0]), steps[1..], last)
  }

  // ----- what is in the buffer

  // An index once its wrap is done.
  function Settled(index: nat, size: nat): nat { if index == size then 0 else index }

  function Place(start: nat, k: nat, size: nat): int { if start + k < size then start + k else start + k - size }

  function Occupancy(r: Ring): int {
    var d := Settled(r.write, |r.buffer|) - Settled(r.read, |r.buffer|);
    if d < 0 then d + |r.buffer| else d
  }

  ghost predicate InRange(r: Ring) {
    1 <= |r.buffer| < U16 && r.read <= |r.buffer| && r.write <= |r.buffer| &&
    (r.read == |r.buffer| ==> r.consumer.Past?) && (r.write == |r.buffer| ==> r.producer.Bumped?) &&
    (r.consumer.Past? ==> r.read > 0) && (r.producer.Bumped? ==> r.write > 0)
  }

  // The characters between the indices, oldest first.
  ghost function Unread(r: Ring): seq<char>
    requires InRange(r)
  {
    var start := Settled(r.read, |r.buffer|);
    seq(Occupancy(r), k requires 0 <= k < Occupancy(r) => r.buffer[Place(start, k, |r.buffer|)])
  }

  // Between its increment and the print, the consumer has a character in hand.
  function InHand(r: Ring): seq<char> { if r.consumer.Past? then [r.consumer.c] else [] }

  // Every character accepted is printed, in hand, or unread, in this order; and the CPUs are right about
  // what they have tested.
  ghost predicate Good(r: Ring) {
    InRange(r) &&
    r.accepted == r.printed + InHand(r) + Unread(r) &&
    (r.consumer.Loading? || r.consumer.Loaded? ==> Occupancy(r) > 0) &&
    (r.consumer.Loaded? ==> r.consumer.c == r.buffer[r.read]) &&
    (r.producer.Storing? || r.producer.Stored? ==> Occupancy(r) < |r.buffer| - 1) &&
    (r.producer.Stored? ==> r.buffer[r.write] == r.producer.c)
  }

  // A test that looks at the other CPU's index between its two stores, at the place where that matters.
  predicate IsBlind(r: Ring, s: Step) {
    (s.Compare? && r.write == |r.buffer| && r.read == 0) ||
    (s.CheckRoom? && r.read == |r.buffer| && r.write + 1 == |r.buffer|)
  }

  // ----- one step

  lemma StoreKeepsUnread(r: Ring)
    requires InRange(r) && Can(r, Store) && Occupancy(r) < |r.buffer| - 1
    ensures InRange(Next(r, Store)) && Unread(Next(r, Store)) == Unread(r)
    ensures Occupancy(Next(r, Store)) == Occupancy(r)
    ensures r.consumer.Loaded? && Occupancy(r) > 0 ==> Next(r, Store).buffer[r.read] == r.buffer[r.read]
  {
  }

  lemma BumpWriteAdds(r: Ring)
    requires InRange(r) && Can(r, BumpWrite) && Occupancy(r) < |r.buffer| - 1
    ensures InRange(Next(r, BumpWrite)) && Unread(Next(r, BumpWrite)) == Unread(r) + [r.buffer[r.write]]
    ensures Occupancy(Next(r, BumpWrite)) == Occupancy(r) + 1
  {
    var n := Next(r, BumpWrite);
    assert Occupancy(n) == Occupancy(r) + 1;
  }

  lemma BumpReadTakes(r: Ring)
    requires InRange(r) && Can(r, BumpRead) && Occupancy(r) > 0
    ensures InRange(Next(r, BumpRead)) && [r.buffer[r.read]] + Unread(Next(r, BumpRead)) == Unread(r)
    ensures Occupancy(Next(r, BumpRead)) == Occupancy(r) - 1
  {
    var n := Next(r, BumpRead);
    assert Occupancy(n) == Occupancy(r) - 1;
    assert Unread(r)[0] == r.buffer[r.read];
    assert forall k :: 0 <= k < Occupancy(n) ==> Unread(n)[k] == Unread(r)[1..][k];
  }

  // Both tests, against what is in the buffer: a blind comparison finds a character where there is none,
  // and a blind check finds room where there is none.
  lemma TestsAreRight(r: Ring)
    requires InRange(r)
    ensures r.consumer.Testing? ==>
      (if r.write == |r.buffer| && r.read == 0 then Occupancy(r) == 0
       else (r.read != r.write <==> Occupancy(r) > 0))
    ensures r.producer.Ready? ==>
      (if r.read == |r.buffer| && r.write + 1 == |r.buffer| then Occupancy(r) == |r.buffer| - 1
       else (NextWriteIndex(r.write, |r.buffer|) != r.read <==> Occupancy(r) < |r.buffer| - 1))
    ensures 0 <= Occupancy(r) < |r.buffer|
  {
  }

  lemma UnreadDependsOn(r: Ring, n: Ring)
    requires InRange(r) && InRange(n) && n.buffer == r.buffer
    requires Settled(n.read, |r.buffer|) == Settled(r.read, |r.buffer|)
    requires Settled(n.write, |r.buffer|) == Settled(r.write, |r.buffer|)
    ensures Unread(n) == Unread(r) && Occupancy(n) == Occupancy(r)
  {
  }

  // A step keeps the ring good exactly when it is not blind.
  lemma StepKeepsGood(r: Ring, s: Step)
    requires Good(r) && Can(r, s)
    ensures Good(Next(r, s)) <==> !IsBlind(r, s)
  {
    hide Unread, Occupancy;
    var n := Next(r, s);
    match s
    case Store => StoreKeepsUnread(r);
    case BumpWrite =>
      BumpWriteAdds(r);
      assert n.accepted == n.printed + InHand(n) + Unread(n);
    case BumpRead =>
      BumpReadTakes(r);
      assert n.accepted == n.printed + InHand(n) + Unread(n);
    case _ =>
      TestsAreRight(r);
      UnreadDependsOn(r, n);
  }

  // ----- runs

  ghost predicate NeverBlind(r: Ring, steps: seq<Step>)
    decreases |steps|
  {
    steps == [] || (Can(r, steps[0]) && !IsBlind(r, steps[0]) && NeverBlind(Next(r, steps[0]), steps[1..]))
  }

  ghost predicate AlwaysGood(r: Ring, steps: seq<Step>)
    decreases |steps|
  {
    Good(r) && (steps == [] || (Can(r, steps[0]) && AlwaysGood(Next(r, steps[0]), steps[1..])))
  }

  // Every state of a run is good if and only if none of its steps is blind.
  lemma {:induction false} GoodIffNeverBlind(r: Ring, steps: seq<Step>, last: Ring)
    requires Good(r) && IsRun(r, steps, last)
    ensures AlwaysGood(r, steps) <==> NeverBlind(r, steps)
    ensures NeverBlind(r, steps) ==> Good(last)
    decreases |steps|
  {
    if steps != [] {
      StepKeepsGood(r, steps[0]);
      if !IsBlind(r, steps[0]) {
        GoodIffNeverBlind(Next(r, steps[0]), steps[1..], last);
      } else {
        assert !AlwaysGood(Next(r, steps[0]), steps[1..]);
      }
    }
  }

  // What is printed is a prefix of what was put in, the rest is still there in order, and one place stays
  // empty.
  lemma RingIsSafe(buffer: seq<char>, steps: seq<Step>, last: Ring)
    requires 1 <= |buffer| < U16
    requires IsRun(FreshRing(buffer), steps, last) && NeverBlind(FreshRing(buffer), steps)
    ensures InRange(last) && Occupancy(last) <= |last.buffer| - 1
    ensures last.printed + InHand(last) + Unread(last) == last.accepted
    ensures last.printed <= last.accepted
  {
    GoodIffNeverBlind(FreshRing(buffer), steps, last);
  }

  // Each index is advanced at one stroke: no step of the other CPU comes between its two stores.
  ghost predicate IsPaired(steps: seq<Step>) {
    steps != [] ==> match steps[0]
      case BumpWrite => |steps| >= 2 && steps[1] == WrapWrite && IsPaired(steps[2..])
      case BumpRead => |steps| >= 2 && steps[1] == WrapRead && IsPaired(steps[2..])
      case _ => IsPaired(steps[1..])
  }

  // With that, no step is blind, in any order of the CPUs.
  lemma {:induction false} PairedIsNeverBlind(r: Ring, steps: seq<Step>, last: Ring)
    requires Good(r) && r.read < |r.buffer| && r.write < |r.buffer|
    requires IsRun(r, steps, last) && IsPaired(steps)
    ensures NeverBlind(r, steps)
    decreases |steps|
  {
    if steps != [] {
      var s, n := steps[0], Next(r, steps[0]);
      StepKeepsGood(r, s);
      if s.BumpWrite? || s.BumpRead? {
        var m := Next(n, steps[1]);
        StepKeepsGood(n, steps[1]);
        assert steps[1..][1..] == steps[2..];
        PairedIsNeverBlind(m, steps[2..], last);
        assert NeverBlind(n, steps[1..]);
      } else {
        PairedIsNeverBlind(n, steps[1..], last);
      }
    }
  }

  // ----- what goes wrong otherwise

  function Run(r: Ring, steps: seq<Step>): (last: Ring)
    requires Runs(r, steps)
    ensures IsRun(r, steps, last)
    decreases |steps|
  {
    if steps == [] then r else Run(Next(r, steps[0]), steps[1..])
  }

  predicate Runs(r: Ring, steps: seq<Step>)
    decreases |steps|
  {
    steps == [] || (Can(r, steps[0]) && Runs(Next(r, steps[0]), steps[1..]))
  }

  function Put(c: char): seq<Step> { [CheckRoom(c), Store, BumpWrite, WrapWrite] }

  const GET := [Compare, Load, BumpRead, WrapRead]

  lemma {:induction false} RunsInTwo(r: Ring, first: seq<Step>, second: seq<Step>)
    requires Runs(r, first) && Runs(Run(r, first), second)
    ensures Runs(r, first + second) && Run(r, first + second) == Run(Run(r, first), second)
    decreases |first|
  {
    if first == [] {
      assert [] + second == second;
    } else {
      assert (first + second)[1..] == first[1..] + second;
      RunsInTwo(Next(r, first[0]), first[1..], second);
    }
  }

  lemma RunsThree(r: Ring, a: Step, b: Step, c: Step)
    requires Can(r, a) && Can(Next(r, a), b) && Can(Next(Next(r, a), b), c)
    ensures Runs(r, [a, b, c]) && Run(r, [a, b, c]) == Next(Next(Next(r, a), b), c)
  {
    assert [a, b, c][1..] == [b, c] && [b, c][1..] == [c] && [c][1..] == [];
    var r2 := Next(Next(r, a), b);
    RunsOne(r2, c);
    assert Runs(Next(r, a), [b, c]) && Run(Next(r, a), [b, c]) == Run(r2, [c]);
  }

  lemma RunsOne(r: Ring, a: Step)
    requires Can(r, a)
    ensures Runs(r, [a]) && Run(r, [a]) == Next(r, a)
  {
    assert [a][1..] == [];
  }

  // The first three stores of a put, and of a get, alone.
  function PutPart(c: char): seq<Step> { [CheckRoom(c), Store, BumpWrite] }

  const GETPART := [Compare, Load, BumpRead]

  lemma PutsPart(r: Ring, c: char)
    requires r.producer.Ready? && r.write < |r.buffer| && NextWriteIndex(r.write, |r.buffer|) != r.read
    ensures Runs(r, PutPart(c)) && Run(r, PutPart(c)) ==
      r.(buffer := r.buffer[r.write := c], write := r.write + 1, producer := Bumped, accepted := r.accepted + [c])
  {
    RunsThree(r, CheckRoom(c), Store, BumpWrite);
  }

  lemma Puts(r: Ring, c: char)
    requires r.producer.Ready? && r.write < |r.buffer| && NextWriteIndex(r.write, |r.buffer|) != r.read
    ensures Runs(r, Put(c)) && Run(r, Put(c)) ==
      r.(buffer := r.buffer[r.write := c], write := Settled(r.write + 1, |r.buffer|), accepted := r.accepted + [c])
  {
    PutsPart(r, c);
    RunsOne(Run(r, PutPart(c)), WrapWrite);
    RunsInTwo(r, PutPart(c), [WrapWrite]);
    assert Put(c) == PutPart(c) + [WrapWrite];
  }

  lemma GetsPart(r: Ring)
    requires r.consumer.Testing? && r.read < |r.buffer| && r.read != r.write
    ensures Runs(r, GETPART) && Run(r, GETPART) == r.(read := r.read + 1, consumer := Past(r.buffer[r.read]))
  {
    RunsThree(r, Compare, Load, BumpRead);
  }

  lemma Gets(r: Ring)
    requires r.consumer.Testing? && r.read < |r.buffer| && r.read != r.write
    ensures Runs(r, GET) && Run(r, GET) ==
      r.(read := Settled(r.read + 1, |r.buffer|), printed := r.printed + [r.buffer[r.read]])
  {
    GetsPart(r);
    RunsOne(Run(r, GETPART), WrapRead);
    RunsInTwo(r, GETPART, [WrapRead]);
    assert GET == GETPART + [WrapRead];
  }

  // The consumer looks while the producer is between its stores: it prints an old character again.
  lemma ConsumerPrintsTwice(r: Ring, a: char, b: char) returns (steps: seq<Step>)
    requires r == FreshRing(['-', '-'])
    ensures Runs(r, steps) && Run(r, steps).accepted == [a, b] && Run(r, steps).printed == [a, b, a]
  {
    hide Runs, Run;
    steps := Put(a);
    Puts(r, a);
    var s := Run(r, steps);
    Gets(s);
    RunsInTwo(r, steps, GET);
    steps, s := steps + GET, Run(s, GET);
    PutsPart(s, b);
    RunsInTwo(r, steps, PutPart(b));
    steps, s := steps + PutPart(b), Run(s, PutPart(b));
    Gets(s);
    RunsInTwo(r, steps, GET);
    steps, s := steps + GET, Run(s, GET);
    Gets(s);
    RunsInTwo(r, steps, GET);
    steps, s := steps + GET, Run(s, GET);
  }

  // The producer looks while the consumer is between its stores: it fills the last free place, the
  // indices are equal, and the characters in the buffer are never printed.
  lemma ProducerLosesAll(r: Ring, a: char, b: char, c: char, d: char) returns (steps: seq<Step>)
    requires r == FreshRing(['-', '-'])
    ensures Runs(r, steps) && Run(r, steps).accepted == [a, b, c, d] && Run(r, steps).printed == [a, b]
    ensures Run(r, steps).read == Run(r, steps).write && Run(r, steps).consumer == Testing
  {
    hide Runs, Run;
    steps := Put(a);
    Puts(r, a);
    var s := Run(r, steps);
    Gets(s);
    RunsInTwo(r, steps, GET);
    steps, s := steps + GET, Run(s, GET);
    Puts(s, b);
    RunsInTwo(r, steps, Put(b));
    steps, s := steps + Put(b), Run(s, Put(b));
    GetsPart(s);
    RunsInTwo(r, steps, GETPART);
    steps, s := steps + GETPART, Run(s, GETPART);
    Puts(s, c);
    RunsInTwo(r, steps, Put(c));
    steps, s := steps + Put(c), Run(s, Put(c));
    Puts(s, d);
    RunsInTwo(r, steps, Put(d));
    steps, s := steps + Put(d), Run(s, Put(d));
    RunsOne(s, WrapRead);
    RunsInTwo(r, steps, [WrapRead]);
    steps, s := steps + [WrapRead], Run(s, [WrapRead]);
  }

  // ----- the two functions, while the other CPU is not in the buffer

  lemma PutIsWhole(r: Ring, c: char)
    requires Good(r) && r.producer.Ready? && r.consumer.Testing? && Occupancy(r) < |r.buffer| - 1
    ensures var n := r.(buffer := r.buffer[r.write := c], write := Settled(r.write + 1, |r.buffer|),
      accepted := r.accepted + [c]);
      Good(n) && Unread(n) == Unread(r) + [c]
  {
    hide Unread, Occupancy;
    TestsAreRight(r);
    StepKeepsGood(r, CheckRoom(c));
    var r1 := Next(r, CheckRoom(c));
    UnreadDependsOn(r, r1);
    StoreKeepsUnread(r1);
    StepKeepsGood(r1, Store);
    var r2 := Next(r1, Store);
    BumpWriteAdds(r2);
    StepKeepsGood(r2, BumpWrite);
    var r3 := Next(r2, BumpWrite);
    StepKeepsGood(r3, WrapWrite);
    UnreadDependsOn(r3, Next(r3, WrapWrite));
  }

  lemma GetIsWhole(r: Ring)
    requires Good(r) && r.producer.Ready? && r.consumer.Testing? && r.read != r.write
    ensures var n := r.(read := Settled(r.read + 1, |r.buffer|), printed := r.printed + [r.buffer[r.read]]);
      Good(n) && [r.buffer[r.read]] + Unread(n) == Unread(r) && Occupancy(n) == Occupancy(r) - 1 >= 0
  {
    hide Unread, Occupancy;
    TestsAreRight(r);
    StepKeepsGood(r, Compare);
    var r1 := Next(r, Compare);
    StepKeepsGood(r1, Load);
    var r2 := Next(r1, Load);
    UnreadDependsOn(r, r2);
    BumpReadTakes(r2);
    StepKeepsGood(r2, BumpRead);
    var r3 := Next(r2, BumpRead);
    StepKeepsGood(r3, WrapRead);
    UnreadDependsOn(r3, Next(r3, WrapRead));
  }

  lemma EmptyIsEmpty(r: Ring)
    requires InRange(r) && Occupancy(r) == 0
    ensures Unread(r) == []
  {
  }

  class Console {
    var buffer: seq<char>
    var read: nat
    var write: nat
    ghost var accepted: seq<char>
    var screen: seq<char>       // what consolePrintChar of the ARM9 has been given

    ghost function State(): Ring reads this { Ring(buffer, read, write, Ready, Testing, accepted, screen) }

    // consoleArm7Setup
    constructor (size: nat)
      requires 1 <= size < U16
      ensures Good(State()) && State() == FreshRing(buffer) && |buffer| == size
    {
      buffer, read, write, accepted, screen := seq(size, _ => '\0'), 0, 0, [], [];
    }

    method IsFull() returns (full: bool)
      requires Good(State())
      ensures full <==> Occupancy(State()) == |buffer| - 1
    {
      var next := NextWriteIndex(write, |buffer|);
      full := next == read;
    }

    // Without the loop that waits for room: when there is none, nothing is stored.
    method PrintChar(c: char) returns (stored: bool)
      requires Good(State())
      modifies this
      ensures Good(State()) && |buffer| == |old(buffer)| && screen == old(screen)
      ensures stored <==> old(Occupancy(State())) < |buffer| - 1
      ensures Unread(State()) == if stored then old(Unread(State())) + [c] else old(Unread(State()))
    {
      hide Unread, Occupancy;
      TestsAreRight(State());
      var full := IsFull();
      if full {
        return false;
      }
      TestsAreRight(State());
      PutIsWhole(State(), c);
      buffer := buffer[write := c];
      write := write + 1;
      accepted := accepted + [c];
      if write == |buffer| {
        write := 0;
      }
      return true;
    }

    method Flush()
      requires Good(State())
      modifies this
      ensures Good(State()) && buffer == old(buffer) && write == old(write)
      ensures screen == old(screen) + old(Unread(State())) && Unread(State()) == []
    {
      hide Unread, Occupancy;
      while read != write
        invariant Good(State()) && buffer == old(buffer) && write == old(write)
        invariant screen + Unread(State()) == old(screen) + old(Unread(State()))
        decreases Occupancy(State())
      {
        GetIsWhole(State());
        var c := buffer[read];
        read := read + 1;
        if read == |buffer| {
          read := 0;
        }
        screen := screen + [c];
      }
      TestsAreRight(State());
      EmptyIsEmpty(State());
    }
  }
}
