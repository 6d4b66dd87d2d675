// The wire format of source/common/fifo_messages_helpers.h.
//
// A word is an unsigned 32-bit number. The fields of a header do not overlap, so the source's
// shifts, masks and ORs are written as multiplication, remainder and addition of powers of two:
//
//   31..28 channel | 27 address bit | 26 immediate bit | 25 extra bit | 24..0 data

module FifoWire {
  import opened Words

  // One more than the largest small immediate: the position of the extra bit.
  const EXTRABIT := 0x200_0000
  const IMMEDIATEBIT := 0x400_0000
  const ADDRESSBIT := 0x800_0000
  const CHANNELUNIT := 0x1000_0000

  const NUM_CHANNELS := 16
  const ADDRESSBASE := 0x200_0000
  const MAX_DATA_BYTES := 128

  predicate HasBit(w: Word, bit: int)
    requires bit > 0
  {
    (w / bit) % 2 == 1
  }

  function Channel(w: Word): nat { w / CHANNELUNIT }

  // Type tests, one per kind of message.

  predicate IsSpecial(w: Word) { HasBit(w, ADDRESSBIT) && HasBit(w, IMMEDIATEBIT) }

  predicate IsAddress(w: Word) { HasBit(w, ADDRESSBIT) }

  predicate IsValue32(w: Word) { !HasBit(w, ADDRESSBIT) && HasBit(w, IMMEDIATEBIT) }

  predicate IsData(w: Word) { !HasBit(w, ADDRESSBIT) && !HasBit(w, IMMEDIATEBIT) }

  predicate HasExtra(w: Word) { HasBit(w, EXTRABIT) }

  // Packing and unpacking.

  predicate NeedsExtra(value: Word) { value / EXTRABIT != 0 }

  function PackValue32(channel: nat, value: Word): Word
    requires channel < NUM_CHANNELS
  {
    channel * CHANNELUNIT + IMMEDIATEBIT + value % EXTRABIT
  }

  function PackValue32Extra(channel: nat): Word
    requires channel < NUM_CHANNELS
  {
    channel * CHANNELUNIT + IMMEDIATEBIT + EXTRABIT
  }

  function UnpackValue32(w: Word): Word { w % EXTRABIT }

  predicate IsValidAddress(address: Word) { address / TWO24 * TWO24 == ADDRESSBASE }

  function PackAddress(channel: nat, address: Word): Word
    requires channel < NUM_CHANNELS
  {
    channel * CHANNELUNIT + ADDRESSBIT + address % TWO24
  }

  function UnpackAddress(w: Word): Word { w % TWO24 + ADDRESSBASE }

  function PackDataHeader(channel: nat, numBytes: nat): Word
    requires channel < NUM_CHANNELS
  {
    channel * CHANNELUNIT + numBytes % EXTRABIT
  }

  function UnpackLength(w: Word): nat { w % EXTRABIT }

  function PackSpecial(command: Word): Word { ADDRESSBIT + IMMEDIATEBIT + command % TWO24 }

  function UnpackSpecial(w: Word): Word { w % TWO24 }

  // Words needed for a number of bytes: (n + 3) >> 2.
  function WordCount(bytes: nat): nat { (bytes + 3) / 4 }

  // A message as the receiver sees it. The words of a data message hold its bytes, four each,
  // low byte first.
  datatype Message =
    | Address(channel: nat, address: Word)
    | Value32(channel: nat, value: Word)
    | Data(channel: nat, length: nat, words: seq<Word>)
    | Special(command: Word)

  // The messages that the send functions accept. A data message of no bytes is also accepted by
  // fifoSendDatamsg; see Sendable and FifoEmptyData for what it does.
  predicate Sendable(m: Message) {
    match m
    case Address(c, a) => c < NUM_CHANNELS && IsValidAddress(a)
    case Value32(c, v) => c < NUM_CHANNELS
    case Data(c, n, ws) => c < NUM_CHANNELS && n <= MAX_DATA_BYTES && |ws| == WordCount(n)
    case Special(cmd) => cmd < TWO24
  }

  // The header of a message and the words that follow it.
  function Header(m: Message): Word
    requires Sendable(m)
  {
    match m
    case Address(c, a) => PackAddress(c, a)
    case Value32(c, v) => if NeedsExtra(v) then PackValue32Extra(c) else PackValue32(c, v)
    case Data(c, n, ws) => PackDataHeader(c, n)
    case Special(cmd) => PackSpecial(cmd)
  }

  function Extra(m: Message): seq<Word> {
    match m
    case Address(_, _) => []
    case Value32(_, v) => if NeedsExtra(v) then [v] else []
    case Data(_, _, ws) => ws
    case Special(_) => []
  }

  function Encode(m: Message): (ws: seq<Word>)
    requires Sendable(m)
  {
    [Header(m)] + Extra(m)
  }

  // What the receiver makes of the words it has: the first message and how many words it takes,
  // or nothing yet. The tests come in the order of fifoProcessRxBuffer.
  datatype Parsed = Incomplete | Got(message: Message, used: nat)

  function Parse(s: seq<Word>): (r: Parsed)
    ensures r.Got? ==> 0 < r.used <= |s|
  {
    if s == [] then Incomplete
    else
      var w := s[0];
      if IsSpecial(w) then Got(Special(UnpackSpecial(w)), 1)
      else if IsAddress(w) then Got(Address(Channel(w), UnpackAddress(w)), 1)
      else if IsValue32(w) then
        if HasExtra(w) then
          if |s| < 2 then Incomplete else Got(Value32(Channel(w), s[1]), 2)
        else Got(Value32(Channel(w), UnpackValue32(w)), 1)
      else
        var n := WordCount(UnpackLength(w));
        if |s| < 1 + n then Incomplete else Got(Data(Channel(w), UnpackLength(w), s[1..1 + n]), 1 + n)
  }

  // Each word passes exactly one of the tests: special; address and not special; value32; data.
  // The last branch of the receiver's dispatch is never taken.
  lemma DispatchIsExhaustive(w: Word)
    ensures IsSpecial(w) || IsAddress(w) || IsValue32(w) || IsData(w)
    ensures IsSpecial(w) ==> IsAddress(w) && !IsValue32(w) && !IsData(w)
    ensures IsAddress(w) ==> !IsValue32(w) && !IsData(w)
    ensures !(IsValue32(w) && IsData(w))
    ensures Channel(w) < NUM_CHANNELS
  {
  }

  lemma AboveExtra(w: nat, q: nat, r: nat)
    requires w == q * EXTRABIT + r && r < EXTRABIT
    ensures w / EXTRABIT == q && w % EXTRABIT == r && w % TWO24 == r % TWO24
  {
  }

  lemma AboveImmediate(w: nat, q: nat, r: nat)
    requires w == q * IMMEDIATEBIT + r && r < IMMEDIATEBIT
    ensures w / IMMEDIATEBIT == q
  {
  }

  lemma AboveAddress(w: nat, q: nat, r: nat)
    requires w == q * ADDRESSBIT + r && r < ADDRESSBIT
    ensures w / ADDRESSBIT == q
  {
  }

  lemma AboveChannel(w: nat, q: nat, r: nat)
    requires w == q * CHANNELUNIT + r && r < CHANNELUNIT
    ensures w / CHANNELUNIT == q
  {
  }

  lemma HeaderFields(c: nat, a: bool, i: bool, e: bool, low: nat)
    requires c < NUM_CHANNELS && low < EXTRABIT
    ensures var w := c * CHANNELUNIT + (if a then ADDRESSBIT else 0) + (if i then IMMEDIATEBIT else 0)
                     + (if e then EXTRABIT else 0) + low;
      0 <= w < TWO32 && Channel(w) == c && HasBit(w, ADDRESSBIT) == a && HasBit(w, IMMEDIATEBIT) == i
      && HasBit(w, EXTRABIT) == e && w % EXTRABIT == low && w % TWO24 == low % TWO24
  {
    var w := c * CHANNELUNIT + (if a then ADDRESSBIT else 0) + (if i then IMMEDIATEBIT else 0)
             + (if e then EXTRABIT else 0) + low;
    var a1, i1, e1 := if a then 1 else 0, if i then 1 else 0, if e then 1 else 0;
    AboveExtra(w, 8 * c + 4 * a1 + 2 * i1 + e1, low);
    AboveImmediate(w, 4 * c + 2 * a1 + i1, e1 * EXTRABIT + low);
    AboveAddress(w, 2 * c + a1, i1 * IMMEDIATEBIT + e1 * EXTRABIT + low);
    AboveChannel(w, c, a1 * ADDRESSBIT + i1 * IMMEDIATEBIT + e1 * EXTRABIT + low);
  }

  // A header tells the kind, the channel and the length or the value that were packed.
  lemma HeaderRoundTrip(m: Message)
    requires Sendable(m)
    ensures var w := Header(m);
      match m
      case Address(c, a) => IsAddress(w) && !IsSpecial(w) && Channel(w) == c && UnpackAddress(w) == a
      case Value32(c, v) => IsValue32(w) && Channel(w) == c && HasExtra(w) == NeedsExtra(v)
                            && (!NeedsExtra(v) ==> UnpackValue32(w) == v)
      case Data(c, n, _) => IsData(w) && Channel(w) == c && UnpackLength(w) == n
      case Special(cmd) => IsSpecial(w) && UnpackSpecial(w) == cmd
  {
    hide HasBit, Channel;
    match m
    case Address(c, a) => HeaderFields(c, true, false, false, a % TWO24);
    case Value32(c, v) => HeaderFields(c, false, true, NeedsExtra(v), if NeedsExtra(v) then 0 else v);
    case Data(c, n, _) => HeaderFields(c, false, false, false, n);
    case Special(cmd) => HeaderFields(0, true, true, false, cmd);
  }

  // The addresses that can be sent are those of 16 MB of main memory, and only they would survive.
  lemma ValidAddresses(channel: nat, address: Word)
    requires channel < NUM_CHANNELS
    ensures IsValidAddress(address) <==> 0x200_0000 <= address < 0x300_0000
    ensures IsValidAddress(address) <==> UnpackAddress(PackAddress(channel, address)) == address
  {
    hide HasBit, Channel;
    HeaderFields(channel, true, false, false, address % TWO24);
    assert address == TWO24 * (address / TWO24) + address % TWO24;
  }

  // The values that go into the header are those below 2^25.
  lemma SmallValues(channel: nat, value: Word)
    requires channel < NUM_CHANNELS
    ensures NeedsExtra(value) <==> value >= 0x200_0000
    ensures NeedsExtra(value) <==> UnpackValue32(PackValue32(channel, value)) != value
  {
    hide HasBit, Channel;
    HeaderFields(channel, false, true, false, value % EXTRABIT);
    assert value == EXTRABIT * (value / EXTRABIT) + value % EXTRABIT;
  }

  lemma PackedSpecial(command: Word)
    ensures Sendable(Special(command % TWO24)) && Header(Special(command % TWO24)) == PackSpecial(command)
  {
  }

  // Parsing undoes packing, whatever words follow.
  lemma ParseEncode(m: Message, rest: seq<Word>)
    requires Sendable(m)
    ensures Parse(Encode(m) + rest) == Got(m, |Encode(m)|)
  {
    HeaderRoundTrip(m);
    DispatchIsExhaustive(Header(m));
    var s := Encode(m) + rest;
    assert s[0] == Header(m);
    assert s[1..1 + |Extra(m)|] == Extra(m);
    if m.Value32? && NeedsExtra(m.value) {
      assert s[1] == Extra(m)[0];
    }
  }

  // A message that was cut anywhere is incomplete: no word of it is consumed.
  lemma CutMessageIsIncomplete(m: Message, k: nat)
    requires Sendable(m) && k < |Encode(m)|
    ensures Parse(Encode(m)[..k]) == Incomplete
  {
    HeaderRoundTrip(m);
    DispatchIsExhaustive(Header(m));
  }

  // What the receiver does with a header: the branches of the dispatch, in order.
  lemma ParseByHeader(s: seq<Word>)
    requires s != []
    ensures var w := s[0];
      && Channel(w) < NUM_CHANNELS
      && (IsSpecial(w) ==> Parse(s) == Got(Special(UnpackSpecial(w)), 1))
      && (!IsSpecial(w) && IsAddress(w) ==> Parse(s) == Got(Address(Channel(w), UnpackAddress(w)), 1))
      && (!IsAddress(w) && IsValue32(w) && !HasExtra(w) ==> Parse(s) == Got(Value32(Channel(w), UnpackValue32(w)), 1))
      && (!IsAddress(w) && IsValue32(w) && HasExtra(w) ==>
            Parse(s) == if |s| < 2 then Incomplete else Got(Value32(Channel(w), s[1]), 2))
      && (!IsAddress(w) && !IsValue32(w) ==>
            IsData(w)
            && var n := WordCount(UnpackLength(w));
               Parse(s) == if |s| < 1 + n then Incomplete
                           else Got(Data(Channel(w), UnpackLength(w), s[1..1 + n]), 1 + n))
  {
    DispatchIsExhaustive(s[0]);
    hide HasBit, Channel, UnpackLength, UnpackAddress, UnpackSpecial, UnpackValue32;
  }

  // Words that arrive later never change how the first message is read.
  lemma ParseIsStable(s: seq<Word>, t: seq<Word>)
    requires Parse(s).Got?
    ensures Parse(s + t) == Parse(s)
  {
    hide HasBit, Channel, UnpackLength, UnpackAddress, UnpackSpecial, UnpackValue32;
    var w := s[0];
    assert (s + t)[0] == w;
    if !IsSpecial(w) && !IsAddress(w) {
      if IsValue32(w) {
        assert HasExtra(w) ==> (s + t)[1] == s[1];
      } else {
        var n := WordCount(UnpackLength(w));
        assert (s + t)[1..1 + n] == s[1..1 + n];
      }
    }
  }

  lemma NothingToParse()
    ensures Parse([]) == Incomplete
  {
  }

  // The messages of a stream, and the words that are left over.
  function ParseAll(s: seq<Word>): (r: (seq<Message>, seq<Word>))
    ensures Parse(r.1) == Incomplete
    decreases |s|
  {
    match Parse(s)
    case Incomplete => ([], s)
    case Got(m, k) => var (ms, rest) := ParseAll(s[k..]); ([m] + ms, rest)
  }

  predicate AllSendable(ms: seq<Message>) {
    forall i {:trigger ms[i]} :: 0 <= i < |ms| ==> Sendable(ms[i])
  }

  function EncodeAll(ms: seq<Message>): seq<Word>
    requires AllSendable(ms)
  {
    if ms == [] then [] else Encode(ms[0]) + EncodeAll(ms[1..])
  }

  lemma {:induction false} EncodeAllConcat(a: seq<Message>, b: seq<Message>)
    requires AllSendable(a) && AllSendable(b)
    ensures AllSendable(a + b) && EncodeAll(a + b) == EncodeAll(a) + EncodeAll(b)
  {
    hide Encode, Sendable;
    if a == [] {
      assert a + b == b;
    } else {
      assert (a + b)[1..] == a[1..] + b;
      EncodeAllConcat(a[1..], b);
    }
  }

  // Parsing in two instalments: what the first one leaves over is read together with the second.
  lemma {:induction false} ParseAllConcat(s: seq<Word>, t: seq<Word>)
    ensures var (ms, rest) := ParseAll(s);
      ParseAll(s + t) == (ms + ParseAll(rest + t).0, ParseAll(rest + t).1)
    decreases |s|
  {
    hide Parse;
    match Parse(s)
    case Incomplete =>
      assert [] + ParseAll(s + t).0 == ParseAll(s + t).0;
    case Got(m, k) =>
      ParseIsStable(s, t);
      assert (s + t)[k..] == s[k..] + t;
      ParseAllConcat(s[k..], t);
      var later := ParseAll(ParseAll(s).1 + t).0;
      assert [m] + (ParseAll(s[k..]).0 + later) == ([m] + ParseAll(s[k..]).0) + later;
  }

  // Any words consumed by whole messages are a prefix that parses without remainder.
  lemma ParseAllStep(s: seq<Word>, t: seq<Word>)
    requires ParseAll(s).1 == [] && Parse(t).Got?
    ensures ParseAll(s + t[..Parse(t).used]) == (ParseAll(s).0 + [Parse(t).message], [])
  {
    hide Parse;
    NothingToParse();
    var k := Parse(t).used;
    ParseAllConcat(s, t[..k]);
    assert [] + t[..k] == t[..k];
    ParsePrefix(t);
    assert t[..k][k..] == [];
    assert [Parse(t).message] + [] == [Parse(t).message];
  }

  lemma ParsePrefix(t: seq<Word>)
    requires Parse(t).Got?
    ensures Parse(t[..Parse(t).used]) == Parse(t)
  {
    var k := Parse(t).used;
    assert t[..k][0] == t[0];
    if k > 1 {
      assert t[..k][1] == t[1];
      assert t[..k][1..k] == t[1..k];
    }
  }

  lemma ParseAllOfMessage(m: Message, rest: seq<Word>)
    requires Sendable(m)
    ensures ParseAll(Encode(m) + rest) == ([m] + ParseAll(rest).0, ParseAll(rest).1)
  {
    hide Encode, Sendable, Parse;
    ParseEncode(m, rest);
    assert (Encode(m) + rest)[|Encode(m)|..] == rest;
  }

  lemma {:induction false} ParseEncodeAll(ms: seq<Message>)
    requires AllSendable(ms)
    ensures ParseAll(EncodeAll(ms)) == (ms, [])
  {
    hide Encode, Sendable, Parse;
    NothingToParse();
    if ms != [] {
      ParseEncodeAll(ms[1..]);
      ParseAllOfMessage(ms[0], EncodeAll(ms[1..]));
      assert [ms[0]] + ms[1..] == ms;
    }
  }

  // A stream cut at any word boundary gives a prefix of the messages; the words of the message
  // that was cut are left over.
  lemma {:induction false} ParseCutStream(ms: seq<Message>, k: nat)
    requires AllSendable(ms) && k <= |EncodeAll(ms)|
    ensures var got := ParseAll(EncodeAll(ms)[..k]).0; var rest := ParseAll(EncodeAll(ms)[..k]).1;
      got <= ms && EncodeAll(got) + rest == EncodeAll(ms)[..k]
      && (|got| < |ms| ==> |rest| < |Encode(ms[|got|])|)
  {
    hide Encode, Sendable, Parse;
    NothingToParse();
    var s := EncodeAll(ms)[..k];
    if ms == [] {
      assert s == [];
    } else {
      var e := Encode(ms[0]);
      if k < |e| {
        assert s == e[..k];
        CutMessageIsIncomplete(ms[0], k);
      } else {
        var t := EncodeAll(ms[1..])[..k - |e|];
        assert s == e + t;
        ParseCutStream(ms[1..], k - |e|);
        ParseAllOfMessage(ms[0], t);
        CutStreamStep(ms, ParseAll(t).0, ParseAll(t).1);
      }
    }
  }

  lemma CutStreamStep(ms: seq<Message>, got: seq<Message>, rest: seq<Word>)
    requires AllSendable(ms) && ms != [] && got <= ms[1..]
    ensures [ms[0]] + got <= ms && AllSendable([ms[0]] + got)
    ensures EncodeAll([ms[0]] + got) + rest == Encode(ms[0]) + (EncodeAll(got) + rest)
    ensures |got| < |ms| - 1 ==> ms[1..][|got|] == ms[|got| + 1]
  {
    hide Encode, Sendable;
    assert ([ms[0]] + got)[1..] == got;
  }
}
