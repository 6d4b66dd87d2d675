// A sound request of the ARM9 and its reply: the sequence acquire, send, wait, get, release of
// source/arm9/sound.c, for any number of threads, and soundDataHandler of source/arm7/audio.c at the
// other end. That the FIFO channel brings messages in order, each once, is the subject of FifoSystem.

module SoundRequest {
  import opened Words
  import Locks
  import FifoWire

  type S8 = c: int | -128 <= c < 128

  // The messages that the handler tells apart, as far as they matter to the reply.
  datatype Request =
    | Play(channel: S8)
    | Psg(channel: S8)
    | Noise(channel: S8)
    | CaptureStart(unit: Byte)
    | MicRecord
    | Unknown

  const CHANNELS := 16
  const NONE := -1
  const MIC := 17

  type Enabled = e: seq<bool> | |e| == 16 witness seq(16, _ => false)

  // ----- the handler

  // The channels a kind of sound can use.
  function Lowest(r: Request): nat { match r case Psg(_) => 8 case Noise(_) => 14 case _ => 0 }

  function Limit(r: Request): nat { if r.Psg? then 14 else 16 }

  predicate IsSound(r: Request) { r.Play? || r.Psg? || r.Noise? }

  // c is the free channel that a search upwards from `from` finds, or there is none.
  ghost predicate IsFirstFree(enabled: Enabled, from: nat, limit: nat, c: int)
    requires limit <= 16
  {
    if c == NONE then forall i :: from <= i < limit ==> enabled[i]
    else from <= c < limit && !enabled[c] && forall i :: from <= i < c ==> enabled[i]
  }

  // What the reply to a request is, told from outside.
  ghost predicate IsReply(r: Request, enabled: Enabled, c: int) {
    match r
    case CaptureStart(unit) => c == if unit <= 1 then unit else NONE
    case MicRecord => c == MIC
    case Unknown => c == NONE
    case _ =>
      if r.channel < 0 then IsFirstFree(enabled, Lowest(r), Limit(r), c)
      else c == if Lowest(r) <= r.channel < Limit(r) then r.channel else NONE
  }

  // The channels afterwards: the one that plays is on, and no other has changed.
  function After(r: Request, enabled: Enabled, c: int): Enabled {
    if IsSound(r) && 0 <= c < CHANNELS then enabled[c := true] else enabled
  }

  lemma OneReply(r: Request, enabled: Enabled, c: int, d: int)
    requires IsReply(r, enabled, c) && IsReply(r, enabled, d)
    ensures c == d
  {
  }

  class Arm7Sound {
    var enabled: Enabled        // SOUNDXCNT_ENABLE of each channel
    var sent: seq<Word>         // the values sent on the FIFO channel

    constructor ()
      ensures enabled == seq(16, _ => false) && sent == []
    {
      enabled, sent := seq(16, _ => false), [];
    }

    method GetFreeChannel() returns (channel: int)
      ensures IsFirstFree(enabled, 0, 16, channel)
    {
      for i := 0 to 16
        invariant forall k :: 0 <= k < i ==> enabled[k]
      {
        if !enabled[i] {
          return i;
        }
      }
      return NONE;
    }

    method GetFreePSGChannel() returns (channel: int)
      ensures IsFirstFree(enabled, 8, 14, channel)
    {
      for i := 8 to 14
        invariant forall k :: 8 <= k < i ==> enabled[k]
      {
        if !enabled[i] {
          return i;
        }
      }
      return NONE;
    }

    method GetFreeNoiseChannel() returns (channel: int)
      ensures IsFirstFree(enabled, 14, 16, channel)
    {
      for i := 14 to 16
        invariant forall k :: 14 <= k < i ==> enabled[k]
      {
        if !enabled[i] {
          return i;
        }
      }
      return NONE;
    }

    method SendValue32(value: Word)
      modifies this`sent
      ensures sent == old(sent) + [value]
    {
      sent := sent + [value];
    }

    // Whatever the message is, there is one reply, and it is the right one.
    method SoundDataHandler(msg: Request) returns (channel: int)
      modifies this
      ensures IsReply(msg, old(enabled), channel)
      ensures enabled == After(msg, old(enabled), channel)
      ensures sent == old(sent) + [channel % TWO32]
    {
      channel := -1;
      match msg {
        case Play(c) =>
          channel := c;
          if channel < 0 {
            channel := GetFreeChannel();
          }
          if channel > 15 {
            channel := -1;
          }
          if channel >= 0 {
            enabled := enabled[channel := true];
          }
        case Psg(c) =>
          channel := c;
          if channel < 0 {
            channel := GetFreePSGChannel();
          }
          if channel < 8 || channel > 13 {
            channel := -1;
          }
          if channel >= 0 {
            enabled := enabled[channel := true];
          }
        case Noise(c) =>
          channel := c;
          if channel < 0 {
            channel := GetFreeNoiseChannel();
          }
          if channel < 14 || channel > 15 {
            channel := -1;
          }
          if channel >= 0 {
            enabled := enabled[channel := true];
          }
        case CaptureStart(unit) =>
          if unit == 0 {
            channel := 0;
          } else if unit == 1 {
            channel := 1;
          }
        case MicRecord =>
          channel := 17;
        case Unknown =>
      }
      SendValue32(channel % TWO32);
    }
  }

  // A sound never gets a channel of another kind; one that lets the ARM7 choose never takes a channel in
  // use, and is turned away only when all of its kind are in use.
  lemma ReplyIsPlayable(r: Request, enabled: Enabled, c: int)
    requires IsSound(r) && IsReply(r, enabled, c)
    ensures c == NONE || Lowest(r) <= c < Limit(r)
    ensures c != NONE ==> After(r, enabled, c)[c]
    ensures forall i :: 0 <= i < 16 && i != c ==> After(r, enabled, c)[i] == enabled[i]
    ensures r.channel < 0 ==>
      (c == NONE <==> forall i :: Lowest(r) <= i < Limit(r) ==> enabled[i]) && (c != NONE ==> !enabled[c])
  {
  }

  // A caller that asks for a channel of its kind, or for a capture unit, gets the one it asked for, and for no
  // other; the microphone's reply is no channel; and what is no sound changes no channel.
  lemma ReplyIsAskedFor(r: Request, enabled: Enabled, c: int)
    requires IsReply(r, enabled, c)
    ensures match r
      case Play(asked) => asked >= 0 ==> c == if asked <= 15 then asked else -1
      case Psg(asked) => asked >= 0 ==> c == if 8 <= asked <= 13 then asked else -1
      case Noise(asked) => asked >= 0 ==> c == if 14 <= asked <= 15 then asked else -1
      case CaptureStart(unit) => (unit == 0 ==> c == 0) && (unit == 1 ==> c == 1) && (unit > 1 ==> c == -1)
      case MicRecord => c == 17 && !(0 <= c < CHANNELS)
      case Unknown => c == -1
    ensures !IsSound(r) ==> After(r, enabled, c) == enabled
  {
  }

  // A chosen channel is the first one of its kind that is free.
  lemma ChosenIsFirst(r: Request, enabled: Enabled, c: int, other: nat)
    requires IsSound(r) && r.channel < 0 && IsReply(r, enabled, c) && other < 16 && !enabled[other]
    requires match r case Play(_) => true case Psg(_) => 8 <= other <= 13 case Noise(_) => 14 <= other
    ensures 0 <= c <= other && !enabled[c] && (r.Psg? ==> 8 <= c) && (r.Noise? ==> 14 <= c)
  {
  }

  // ----- many threads and one channel

  // A reply on its way, with the request it answers and the channels the ARM7 found then.
  datatype Reply = Reply(value: Word, request: Request, enabled: Enabled)

  // Where a thread is in one of the functions.
  datatype Phase =
    | Idle
    | Calling(request: Request)                 // up to the send
    | Waiting(request: Request)                 // for the reply
    | Answered(request: Request, reply: Reply)  // fifoGetValue32 has returned reply.value

  datatype Sound = Sound(
    mutex: Locks.Mutex, phase: seq<Phase>,
    requests: seq<Request>, replies: seq<Reply>, enabled: Enabled,
    room9: nat, room7: nat)   // global_pool_free_words of the two CPUs

  // The bytes of a FifoMessage: a type, and the largest member of the union.
  const REQUEST_BYTES := 24

  // The words of the two messages, headers included. A value that uses the high bits takes two words; of
  // the replies only -1 does.
  function RequestWords(): nat { 1 + FifoWire.WordCount(REQUEST_BYTES) }

  function ReplyWords(channel: int): nat { if FifoWire.NeedsExtra(channel % TWO32) then 2 else 1 }

  // The early check of fifoSendDatamsg, and the check of fifoInternalSend: if there is no room, words that
  // the hardware takes (`drained`) make some, and then the send gives up. The callers do not look at that.
  predicate HasRoomForRequest(s: Sound) { s.room9 >= RequestWords() }

  predicate HasRoomForReply(s: Sound, channel: int, drained: nat) { s.room7 + drained >= ReplyWords(channel) }

  datatype Step =
    | Call(t: nat, request: Request)
    | Turn(t: nat)
    | Send(t: nat)
    | Handle(channel: int, drained: nat)
    | Get(t: nat)
    | Release(t: nat)
    | Other(now: Enabled)     // a channel ends, or a command without a reply changes channels
    | Traffic(room9: nat, room7: nat)   // other messages come, go, and are taken out of queues

  function Fresh(threads: nat, enabled: Enabled, room9: nat, room7: nat): Sound {
    Sound(Locks.FreshMutex(threads), seq(threads, _ => Idle), [], [], enabled, room9, room7)
  }

  ghost predicate Can(s: Sound, step: Step) {
    |s.phase| == |s.mutex.place| && match step
      case Call(t, _) => t < |s.phase| && s.phase[t] == Idle && Locks.CanStep(s.mutex, Locks.Call(t))
      case Turn(t) => Locks.CanStep(s.mutex, Locks.Turn(t))
      case Send(t) => t < |s.phase| && s.mutex.place[t] == Locks.Holding && s.phase[t].Calling?
      case Handle(c, _) => s.requests != [] && IsReply(s.requests[0], s.enabled, c)
      case Get(t) => t < |s.phase| && s.phase[t].Waiting? && s.replies != []
      case Release(t) => t < |s.phase| && s.phase[t].Answered? && Locks.CanStep(s.mutex, Locks.Release(t))
      case Other(_) => true
      case Traffic(_, _) => true
  }

  ghost function Next(s: Sound, step: Step): Sound
    requires Can(s, step)
  {
    match step
    case Call(t, r) => s.(mutex := Locks.Step(s.mutex, Locks.Call(t)), phase := s.phase[t := Calling(r)])
    case Turn(t) => s.(mutex := Locks.Step(s.mutex, Locks.Turn(t)))
    case Send(t) =>
      var r := s.phase[t].request;
      if HasRoomForRequest(s) then
        s.(phase := s.phase[t := Waiting(r)], requests := s.requests + [r], room9 := s.room9 - RequestWords())
      else s.(phase := s.phase[t := Waiting(r)])
    case Handle(c, drained) =>
      var r := s.requests[0];
      var u := s.(requests := s.requests[1..], enabled := After(r, s.enabled, c));
      if HasRoomForReply(s, c, drained) then
        u.(replies := s.replies + [Reply(c % TWO32, r, s.enabled)], room7 := s.room7 + drained - ReplyWords(c))
      else u.(room7 := s.room7 + drained)
    case Get(t) =>
      s.(phase := s.phase[t := Answered(s.phase[t].request, s.replies[0])], replies := s.replies[1..])
    case Release(t) => s.(mutex := Locks.Step(s.mutex, Locks.Release(t)), phase := s.phase[t := Idle])
    case Other(now) => s.(enabled := now)
    case Traffic(room9, room7) => s.(room9 := room9, room7 := room7)
  }

  ghost predicate IsRun(s: Sound, steps: seq<Step>, last: Sound)
    decreases |steps|
  {
    if steps == [] then last == s else Can(s, steps[0]) && IsRun(Next(s, steps[0]), steps[1..], last)
  }

  // The reply was computed from its request.
  ghost predicate IsHonest(reply: Reply) {
    exists c :: IsReply(reply.request, reply.enabled, c) && reply.value == c % TWO32
  }

  // A thread past the acquire, and only such a thread, holds the mutex.
  predicate PhaseFits(place: Locks.Place, phase: Phase) {
    match place
    case Outside => phase == Idle
    case Holding => phase != Idle
    case _ => phase.Calling?
  }

  // What is under way is of the one thread that waits.
  ghost predicate UnderWay(s: Sound) {
    |s.requests| + |s.replies| <= 1 &&
    (forall r :: r in s.requests ==> exists t :: 0 <= t < |s.phase| && s.phase[t] == Waiting(r)) &&
    (forall p :: p in s.replies ==> IsHonest(p) && exists t :: 0 <= t < |s.phase| && s.phase[t] == Waiting(p.request))
  }

  ghost predicate Good(s: Sound) {
    Locks.GoodMutex(s.mutex) && |s.phase| == |s.mutex.place| &&
    (forall t :: 0 <= t < |s.phase| ==> PhaseFits(s.mutex.place[t], s.phase[t])) &&
    UnderWay(s) &&
    (forall t :: 0 <= t < |s.phase| && s.phase[t].Answered? ==>
      s.phase[t].reply.request == s.phase[t].request && IsHonest(s.phase[t].reply))
  }

  // Only one thread is between its send and its release.
  lemma OneWaits(s: Sound, t: nat, u: nat)
    requires Good(s) && t < |s.phase| && u < |s.phase|
    requires s.phase[t].Waiting? || s.phase[t].Answered? || s.mutex.place[t] == Locks.Holding
    requires s.phase[u].Waiting? || s.phase[u].Answered? || s.mutex.place[u] == Locks.Holding
    ensures t == u
  {
    assert PhaseFits(s.mutex.place[t], s.phase[t]) && PhaseFits(s.mutex.place[u], s.phase[u]);
  }

  lemma SendKeepsGood(s: Sound, t: nat)
    requires Good(s) && Can(s, Send(t))
    ensures Good(Next(s, Send(t)))
  {
    var n := Next(s, Send(t));
    SendFindsNothing(s, t);
    assert n.phase[t] == Waiting(s.phase[t].request);
  }

  lemma HandleKeepsGood(s: Sound, c: int, drained: nat)
    requires Good(s) && Can(s, Handle(c, drained))
    ensures Good(Next(s, Handle(c, drained)))
  {
    var n, r := Next(s, Handle(c, drained)), s.requests[0];
    assert r in s.requests && s.replies == [] && n.requests == [];
    var u :| 0 <= u < |s.phase| && s.phase[u] == Waiting(r);
    if HasRoomForReply(s, c, drained) {
      var p := Reply(c % TWO32, r, s.enabled);
      assert n.replies == [p] && IsHonest(p) && n.phase[u] == Waiting(p.request);
    }
  }

  lemma GetKeepsGood(s: Sound, t: nat)
    requires Good(s) && Can(s, Get(t))
    ensures Good(Next(s, Get(t)))
  {
    var n, p := Next(s, Get(t)), s.replies[0];
    assert p in s.replies && s.requests == [] && n.replies == [];
    var u :| 0 <= u < |s.phase| && s.phase[u] == Waiting(p.request);
    OneWaits(s, t, u);
  }

  // The steps that leave the waiting threads and the channel alone.
  lemma OtherStepKeepsWaiting(s: Sound, step: Step)
    requires Good(s) && Can(s, step) && !step.Send? && !step.Handle? && !step.Get?
    ensures UnderWay(Next(s, step))
  {
    hide Locks.GoodMutex, Locks.CanStep, Locks.Step, IsHonest;
    var n := Next(s, step);
    assert forall t :: 0 <= t < |s.phase| && s.phase[t].Waiting? ==> n.phase[t] == s.phase[t];
    forall r | r in n.requests ensures exists t :: 0 <= t < |n.phase| && n.phase[t] == Waiting(r) {
      var u :| 0 <= u < |s.phase| && s.phase[u] == Waiting(r);
      assert n.phase[u] == Waiting(r);
    }
    forall p | p in n.replies ensures exists t :: 0 <= t < |n.phase| && n.phase[t] == Waiting(p.request) {
      var u :| 0 <= u < |s.phase| && s.phase[u] == Waiting(p.request);
      assert n.phase[u] == Waiting(p.request);
    }
  }

  lemma OtherStepKeepsGood(s: Sound, step: Step)
    requires Good(s) && Can(s, step) && !step.Send? && !step.Handle? && !step.Get?
    ensures Good(Next(s, step))
  {
    hide UnderWay;
    OtherStepKeepsWaiting(s, step);
    if step.Call? {
      Locks.StepKeepsMutex(s.mutex, Locks.Call(step.t));
    } else if step.Turn? {
      Locks.StepKeepsMutex(s.mutex, Locks.Turn(step.t));
    } else if step.Release? {
      Locks.StepKeepsMutex(s.mutex, Locks.Release(step.t));
    }
  }

  lemma StepKeepsGood(s: Sound, step: Step)
    requires Good(s) && Can(s, step)
    ensures Good(Next(s, step))
  {
    hide Good, Can, Next;
    match step
    case Send(t) => SendKeepsGood(s, t);
    case Handle(c, drained) => HandleKeepsGood(s, c, drained);
    case Get(t) => GetKeepsGood(s, t);
    case _ => OtherStepKeepsGood(s, step);
  }

  lemma {:induction false} RunKeepsGood(s: Sound, steps: seq<Step>, last: Sound)
    requires Good(s) && IsRun(s, steps, last)
    ensures Good(last)
    decreases |steps|
  {
    hide Good, Can, Next;
    if steps != [] {
      StepKeepsGood(s, steps[0]);
      RunKeepsGood(Next(s, steps[0]), steps[1..], last);
    }
  }

  // In every run of every number of threads, with lost messages or without: at most one request or reply
  // is under way, and what a thread gets is what the ARM7 answered to this thread's own request.
  lemma ReplyIsOnes(start: Sound, steps: seq<Step>, last: Sound, t: nat)
    requires start == Fresh(|start.phase|, start.enabled, start.room9, start.room7) && IsRun(start, steps, last)
    ensures |last.requests| + |last.replies| <= 1
    ensures t < |last.phase| && last.phase[t].Answered? ==>
      last.phase[t].reply.request == last.phase[t].request && IsHonest(last.phase[t].reply)
  {
    assert Good(start);
    RunKeepsGood(start, steps, last);
  }

  // ----- when a message is refused

  // The thread waits, and nothing is under way.
  predicate IsLost(s: Sound, t: nat) {
    t < |s.phase| && s.phase[t].Waiting? && s.requests == [] && s.replies == []
  }

  // Then it waits for ever, and keeps the mutex: no thread gets an answer any more.
  lemma {:induction false} LostIsForEver(s: Sound, t: nat, steps: seq<Step>, last: Sound)
    requires Good(s) && IsLost(s, t) && IsRun(s, steps, last)
    ensures Good(last) && IsLost(last, t) && last.phase[t] == s.phase[t] && last.mutex.place[t] == Locks.Holding
    decreases |steps|
  {
    if steps == [] {
      assert PhaseFits(s.mutex.place[t], s.phase[t]);
    } else {
      LostStaysLost(s, t, steps[0]);
      StepKeepsGood(s, steps[0]);
      LostIsForEver(Next(s, steps[0]), t, steps[1..], last);
    }
  }

  lemma LostStaysLost(s: Sound, t: nat, step: Step)
    requires Good(s) && IsLost(s, t) && Can(s, step)
    ensures IsLost(Next(s, step), t) && Next(s, step).phase[t] == s.phase[t]
  {
    if step.Send? {
      OneWaits(s, t, step.t);
    }
  }

  // A step loses a waiting thread's answer if and only if there is no room for its message in the pool.
  lemma LostOnlyWithoutRoom(s: Sound, step: Step)
    requires Good(s) && Can(s, step) && forall t :: !IsLost(s, t)
    ensures (exists t :: IsLost(Next(s, step), t)) <==>
      (step.Send? && !HasRoomForRequest(s)) || (step.Handle? && !HasRoomForReply(s, step.channel, step.drained))
  {
    var n := Next(s, step);
    if step.Send? && !HasRoomForRequest(s) {
      SendFindsNothing(s, step.t);
      assert IsLost(n, step.t);
    } else if step.Handle? && !HasRoomForReply(s, step.channel, step.drained) {
      var r := s.requests[0];
      assert r in s.requests;
      var u :| 0 <= u < |s.phase| && s.phase[u] == Waiting(r);
      assert IsLost(n, u);
    } else {
      forall t ensures !IsLost(n, t) {
        assert !IsLost(s, t);
        if step.Get? && IsLost(n, t) {
          OneWaits(s, step.t, t);
        }
      }
    }
  }

  // So nothing is lost while the ARM9 has room for a request, and the ARM7 two free words.
  ghost predicate AlwaysRoom(s: Sound, steps: seq<Step>)
    decreases |steps|
  {
    steps == [] ||
    (Can(s, steps[0]) && (steps[0].Send? ==> s.room9 >= 7) && (steps[0].Handle? ==> s.room7 >= 2) &&
     AlwaysRoom(Next(s, steps[0]), steps[1..]))
  }

  lemma {:induction false} RoomLosesNothing(s: Sound, steps: seq<Step>, last: Sound, t: nat)
    requires Good(s) && IsRun(s, steps, last) && AlwaysRoom(s, steps) && forall u :: !IsLost(s, u)
    ensures !IsLost(last, t)
    decreases |steps|
  {
    hide Good, Next, IsLost;
    if steps != [] {
      StepKeepsGood(s, steps[0]);
      LostOnlyWithoutRoom(s, steps[0]);
      RoomLosesNothing(Next(s, steps[0]), steps[1..], last, t);
    }
  }

  // A request that finds the pool of the ARM9 full. (FifoDeadlock.PoolFillsUp is how a pool gets full.)
  lemma FullPoolLosesRequest(start: Sound, r: Request) returns (steps: seq<Step>, last: Sound)
    requires start == Fresh(1, start.enabled, start.room9, start.room7)
    ensures IsRun(start, steps, last) && IsLost(last, 0) && last.phase == [Waiting(r)]
  {
    steps := [Traffic(0, start.room7), Call(0, r), Turn(0), Send(0)];
    var a := Next(start, steps[0]);
    var b := Next(a, steps[1]);
    var c := Next(b, steps[2]);
    last := Next(c, steps[3]);
    RunsFour(start, steps, a, b, c, last);
  }

  lemma RunsFour(start: Sound, s: seq<Step>, a: Sound, b: Sound, c: Sound, last: Sound)
    requires |s| == 4 && Can(start, s[0]) && a == Next(start, s[0]) && Can(a, s[1]) && b == Next(a, s[1])
    requires Can(b, s[2]) && c == Next(b, s[2]) && Can(c, s[3]) && last == Next(c, s[3])
    ensures IsRun(start, s, last)
  {
    hide Can, Next;
    assert s[1..][1..] == s[2..] && s[2..][1..] == s[3..] && s[3..][1..] == [];
    assert IsRun(c, s[3..], last);
    assert IsRun(b, s[2..], last);
    assert IsRun(a, s[1..], last);
  }

  // And a reply that finds the pool of the ARM7 full, and no room in the hardware.
  lemma FullPoolLosesReply(start: Sound, room: nat) returns (steps: seq<Step>, last: Sound)
    requires start == Fresh(1, start.enabled, RequestWords() + room, start.room7)
    ensures IsRun(start, steps, last) && IsLost(last, 0) && last.phase == [Waiting(MicRecord)]
  {
    steps, last := RequestIsSent(start, room);
    RunsOneMore(start, steps, last, Handle(MIC, 0));
    steps, last := steps + [Handle(MIC, 0)], Next(last, Handle(MIC, 0));
  }

  lemma RequestIsSent(start: Sound, room: nat) returns (steps: seq<Step>, last: Sound)
    requires start == Fresh(1, start.enabled, RequestWords() + room, start.room7)
    ensures IsRun(start, steps, last)
    ensures |last.mutex.place| == 1 && last.requests == [MicRecord] && last.replies == []
    ensures last.phase == [Waiting(MicRecord)] && last.room7 == 0
  {
    steps := [Call(0, MicRecord), Turn(0), Send(0), Traffic(0, 0)];
    var a := Next(start, steps[0]);
    var b := Next(a, steps[1]);
    var c := Next(b, steps[2]);
    last := Next(c, steps[3]);
    RunsFour(start, steps, a, b, c, last);
  }

  lemma {:induction false} RunsOneMore(start: Sound, s: seq<Step>, last: Sound, step: Step)
    requires IsRun(start, s, last) && Can(last, step)
    ensures IsRun(start, s + [step], Next(last, step))
    decreases |s|
  {
    hide Can, Next;
    var t := s + [step];
    if s == [] {
      assert t[1..] == [];
    } else {
      assert t[1..] == s[1..] + [step];
      RunsOneMore(Next(start, s[0]), s[1..], last, step);
    }
  }

  lemma SendFindsNothing(s: Sound, t: nat)
    requires Good(s) && Can(s, Send(t))
    ensures s.requests == [] && s.replies == []
  {
    if s.requests != [] {
      assert s.requests[0] in s.requests;
      var u :| 0 <= u < |s.phase| && s.phase[u] == Waiting(s.requests[0]);
      OneWaits(s, t, u);
    }
    if s.replies != [] {
      assert s.replies[0] in s.replies;
      var u :| 0 <= u < |s.phase| && s.phase[u] == Waiting(s.replies[0].request);
      OneWaits(s, t, u);
    }
  }
}
