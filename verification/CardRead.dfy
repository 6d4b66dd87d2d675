// cardRead of source/common/card.c: any bytes of the card's ROM, from transfers of whole blocks.

module CardRead {
  import opened Words

  const BLOCK := 0x200
  const PAGE := 0x1000

  // What the card answers: its bytes by address, also where a block goes on behind the last byte asked
  // for.
  type Rom = Word -> Byte

  datatype Transfer = Transfer(offset: nat, len: nat)

  // The card is only ever asked for whole blocks at block addresses, inside one page. (A transfer of no
  // blocks is possible, after the last byte.)
  predicate IsAligned(t: Transfer) {
    t.offset % BLOCK == 0 && t.len in {0, BLOCK} && t.offset % PAGE + t.len <= PAGE
  }

  ghost predicate AllAligned(transfers: seq<Transfer>) { forall t :: t in transfers ==> IsAligned(t) }

  // The k-th address from start on: addresses are 32 bits wide.
  function Address(start: nat, k: nat): Word { (start + k) % TWO32 }

  // Up to p, dest holds the ROM from start.
  ghost predicate Filled(rom: Rom, dest: seq<Byte>, start: nat, p: nat)
    requires p <= |dest|
  {
    forall k :: 0 <= k < p ==> dest[k] == rom(Address(start, k))
  }

  // The byte at an address is in a transfer.
  predicate Brings(t: Transfer, address: nat) { t.offset <= address < t.offset + t.len }

  ghost predicate IsBrought(transfers: seq<Transfer>, address: nat) {
    exists i :: 0 <= i < |transfers| && Brings(transfers[i], address)
  }

  // It has one of the bytes that are wanted.
  ghost predicate IsWanted(t: Transfer, start: nat, want: nat) {
    exists k :: 0 <= k < want && Brings(t, Address(start, k))
  }

  // The first p of the bytes from `start` have been brought, and nothing else was transferred but blocks with
  // a byte of the `want` that are wanted.
  ghost predicate Serves(transfers: seq<Transfer>, start: nat, p: nat, want: nat) {
    (forall k :: 0 <= k < p ==> IsBrought(transfers, Address(start, k))) &&
    (forall i :: 0 <= i < |transfers| && transfers[i].len > 0 ==> IsWanted(transfers[i], start, want))
  }

  // One more transfer brings n more bytes, of which there is one unless it is a transfer of no blocks.
  lemma ServesMore(transfers: seq<Transfer>, start: nat, p: nat, want: nat, t: Transfer, n: nat)
    requires Serves(transfers, start, p, want) && p + n <= want && (t.len > 0 ==> n > 0)
    requires Address(start, p) + n <= TWO32
    requires n > 0 ==> t.offset <= Address(start, p) && Address(start, p) + n <= t.offset + t.len
    ensures Serves(transfers + [t], start, p + n, want)
  {
    hide Address;
    var all := transfers + [t];
    forall k | 0 <= k < p + n ensures IsBrought(all, Address(start, k)) {
      if k < p {
        assert IsBrought(transfers, Address(start, k));
        var i :| 0 <= i < |transfers| && Brings(transfers[i], Address(start, k));
        assert Brings(all[i], Address(start, k));
      } else {
        SameAddress(start, p, k - p);
        assert Brings(all[|transfers|], Address(start, k));
      }
    }
    if t.len > 0 {
      assert Brings(t, Address(start, p));
    }
  }

  // The hardware: what it holds, and the transfers that it has been asked for.
  class Card {
    const rom: Rom
    var transfers: seq<Transfer>

    constructor (rom: Rom)
      ensures this.rom == rom && transfers == []
    {
      this.rom, transfers := rom, [];
    }
  }

  method CardReadInternal(card: Card, dest: array<Byte>, at: nat, offset: Word, len: nat)
    requires at + len <= dest.Length && offset + len <= TWO32
    modifies dest, card
    ensures card.transfers == old(card.transfers) + [Transfer(offset, len)]
    ensures forall k :: 0 <= k < dest.Length ==>
      dest[k] == if at <= k < at + len then card.rom(offset + (k - at)) else old(dest[k])
  {
    card.transfers := card.transfers + [Transfer(offset, len)];
    forall k | at <= k < at + len {
      dest[k] := card.rom(offset + (k - at));
    }
  }

  method Memcpy(dest: array<Byte>, at: nat, source: array<Byte>, start: nat, len: nat)
    requires dest != source && at + len <= dest.Length && start + len <= source.Length
    modifies dest
    ensures forall k :: 0 <= k < dest.Length ==>
      dest[k] == if at <= k < at + len then source[start + (k - at)] else old(dest[k])
  {
    forall k | at <= k < at + len {
      dest[k] := source[start + (k - at)];
    }
  }

  // ((offset | 0xFFF) + 1) - offset: the rest of the page. (On the last page of all, the sum wraps to 0,
  // and the difference comes out right.)
  function RestOfPage(offset: nat): nat { PAGE - offset % PAGE }

  lemma BlockInPage(offset: Word)
    requires offset % BLOCK == 0
    ensures RestOfPage(offset) >= BLOCK
    ensures IsAligned(Transfer(offset, BLOCK)) && IsAligned(Transfer(offset, 0)) && offset + BLOCK <= TWO32
  {
    var q := offset / BLOCK;
    assert offset == BLOCK * q && q == 8 * (q / 8) + q % 8;
    assert offset == PAGE * (q / 8) + BLOCK * (q % 8);
    assert offset % PAGE == BLOCK * (q % 8);
  }

  lemma FilledMore(rom: Rom, before: seq<Byte>, after: seq<Byte>, start: nat, p: nat, n: nat, offset: Word)
    requires p + n <= |after| == |before| && Filled(rom, before, start, p)
    requires offset == Address(start, p) && offset + n <= TWO32
    requires forall k :: 0 <= k < |after| ==>
      after[k] == if p <= k < p + n then rom(offset + (k - p)) else before[k]
    ensures Filled(rom, after, start, p + n)
    ensures after[p + n..] == before[p + n..]
    ensures (offset + n) % TWO32 == Address(start, p + n)
  {
    hide Address;
    forall k | p <= k < p + n ensures after[k] == rom(Address(start, k)) {
      SameAddress(start, p, k - p);
    }
    SameAddress(start, p, n);
  }

  lemma SameAddress(start: nat, p: nat, k: nat)
    ensures (Address(start, p) + k) % TWO32 == Address(start, p + k)
    ensures Address(start, p) + k < TWO32 ==> Address(start, p) + k == Address(start, p + k)
  {
    var a := start + p;
    assert a + k == TWO32 * (a / TWO32) + (a % TWO32 + k);
  }

  // How far the bytes still wanted reach past the start of their block only gets less.
  lemma ReachesLess(start: nat, p: nat)
    ensures Address(start, p) % BLOCK <= start % BLOCK + p
  {
    var a := start + p;
    assert a == BLOCK * (0x80_0000 * (a / TWO32) + a % TWO32 / BLOCK) + a % TWO32 % BLOCK;
    assert a == BLOCK * (start / BLOCK) + (start % BLOCK + p);
    var m := 0x80_0000 * (a / TWO32) + a % TWO32 / BLOCK - start / BLOCK;
    assert BLOCK * m == start % BLOCK + p - a % TWO32 % BLOCK;
    assert m >= 0;
  }

  lemma SameBehind(before: seq<Byte>, after: seq<Byte>, from: nat, want: nat)
    requires |before| == |after| && from <= want <= |after| && after[from..] == before[from..]
    ensures after[want..] == before[want..]
  {
    assert after[want..] == after[from..][want - from..];
  }

  // How far a read has come: p bytes of `want` are in place, the rest is as it was, and the transfers so far
  // were all right.
  ghost predicate IsRead(rom: Rom, before: seq<Byte>, dest: seq<Byte>, transfers: seq<Transfer>, start: nat, p: nat,
      want: nat) {
    p <= want <= |dest| == |before| && Filled(rom, dest, start, p) && dest[want..] == before[want..] &&
    AllAligned(transfers) && Serves(transfers, start, p, want)
  }

  lemma IsReadMore(rom: Rom, before: seq<Byte>, dest: seq<Byte>, transfers: seq<Transfer>, start: nat, p: nat,
      want: nat, t: Transfer, n: nat, offset: Word, after: seq<Byte>)
    requires IsRead(rom, before, dest, transfers, start, p, want) && p + n <= want && |after| == |dest|
    requires offset == Address(start, p) && offset + n <= TWO32
    requires IsAligned(t) && (t.len > 0 ==> n > 0) && (n > 0 ==> t.offset <= offset && offset + n <= t.offset + t.len)
    requires forall k :: 0 <= k < |after| ==> after[k] == if p <= k < p + n then rom(offset + (k - p)) else dest[k]
    ensures IsRead(rom, before, after, transfers + [t], start, p + n, want)
    ensures (offset + n) % TWO32 == Address(start, p + n)
  {
    hide Filled, Serves, IsAligned, Address;
    FilledMore(rom, dest, after, start, p, n, offset);
    SameBehind(dest, after, p + n, want);
    ServesMore(transfers, start, p, want, t, n);
  }

  // The block of an address; but none, when no bytes are wanted from its start on.
  function BufferedTransfer(offset: Word, len: nat): Transfer {
    Transfer(offset - offset % BLOCK, if offset % BLOCK + len == 0 then 0 else BLOCK)
  }

  // The slow half of the loop: one block through the buffer, of which dest_block_len bytes are wanted.
  method ReadBuffered(card: Card, dest: array<Byte>, p: nat, offset: Word, len: Word)
    returns (next: Word, dest_block_len: nat)
    requires p + len <= dest.Length && offset % BLOCK + len < TWO32
    modifies dest, card
    ensures card.transfers == old(card.transfers) + [BufferedTransfer(offset, len)]
    ensures IsAligned(BufferedTransfer(offset, len))
    ensures offset % BLOCK + dest_block_len <= BLOCK
    ensures dest_block_len <= len && offset + dest_block_len <= TWO32
    ensures next == (offset + dest_block_len) % TWO32
    ensures dest_block_len == 0 <==> len == 0
    ensures forall k :: 0 <= k < dest.Length ==>
      dest[k] == if p <= k < p + dest_block_len then card.rom(offset + (k - p)) else old(dest[k])
  {
    hide IsAligned, RestOfPage;
    var buffer := new Byte[BLOCK](_ => 0);
    var block_offset := offset % BLOCK;
    var block_len: Word := len;
    next := offset;
    StartOfBlock(offset);
    if block_offset != 0 {
      block_len := block_len + block_offset;
      next := next - block_offset;
    }
    BlockInPage(next);
    if block_len > BLOCK {
      block_len := BLOCK;
    }
    var block_len_masked: nat := RestOfPage(next);
    block_len := Min(block_len, block_len_masked);
    var block_len_aligned := RoundUp(block_len);
    dest_block_len := block_len - block_offset;

    CardReadInternal(card, buffer, 0, next, block_len_aligned);
    Memcpy(dest, p, buffer, block_offset, dest_block_len);
    next := (next + block_len) % TWO32;
  }

  // The check whether a block stays in its page.
  function Min(n: nat, rest: nat): (r: nat)
    ensures r <= n
  {
    if n > rest then rest else n
  }

  // dest is the memory at `address`; `want` bytes from `start` are asked for, up to the end of the
  // addresses or past it. (block_len += block_offset does not wrap, as it would for a buffer that takes
  // all of memory but the last bytes.)
  method CardRead(card: Card, dest: array<Byte>, address: Word, start: Word, want: Word)
    requires want <= dest.Length && address + want <= TWO32 && start % BLOCK + want < TWO32
    modifies dest, card
    ensures Filled(card.rom, dest[..], start, want)
    ensures dest[want..] == old(dest[want..])
    ensures old(card.transfers) <= card.transfers
    ensures var transfers := card.transfers[|old(card.transfers)|..];
      AllAligned(transfers) && Serves(transfers, start, want, want)
  {
    hide IsRead, IsAligned, RestOfPage, Address, BufferedTransfer;
    ghost var earlier, transfers, before := card.transfers, [], dest[..];
    NothingYet(card.rom, before, start, want);
    var p: nat, offset: Word, len: Word := 0, start, want;
    while len != 0
      invariant p + len == want && offset == Address(start, p)
      invariant IsRead(card.rom, before, dest[..], transfers, start, p, want)
      invariant card.transfers == earlier + transfers
      decreases len
    {
      while offset % BLOCK == 0 && (address + p) % BLOCK == 0 && len >= BLOCK
        invariant p + len == want && offset == Address(start, p) && (len == 0 ==> offset % BLOCK == 0)
        invariant IsRead(card.rom, before, dest[..], transfers, start, p, want)
        invariant card.transfers == earlier + transfers
        decreases len
      {
        var len_aligned := BLOCK;
        BlockInPage(offset);
        var len_masked: nat := RestOfPage(offset);
        len_aligned := Min(len_aligned, len_masked);
        ghost var was := dest[..];
        CardReadInternal(card, dest, p, offset, len_aligned);
        IsReadMore(card.rom, before, was, transfers, start, p, want, Transfer(offset, len_aligned), len_aligned, offset,
                   dest[..]);
        transfers := transfers + [Transfer(offset, len_aligned)];
        p := p + len_aligned;
        offset := (offset + len_aligned) % TWO32;
        len := len - len_aligned;
        if len == 0 {
          break;
        }
      }

      ghost var was, from, transfer := dest[..], offset, BufferedTransfer(offset, len);
      var dest_block_len: nat;
      ReachesLess(start, p);
      BufferedIs(offset, len);
      offset, dest_block_len := ReadBuffered(card, dest, p, offset, len);
      IsReadMore(card.rom, before, was, transfers, start, p, want, transfer, dest_block_len, from, dest[..]);
      transfers := transfers + [transfer];
      p := p + dest_block_len;
      len := len - dest_block_len;
    }
    ReadIsAll(card.rom, before, dest[..], transfers, start, want);
    assert card.transfers[|earlier|..] == transfers;
  }

  lemma BufferedIs(offset: Word, len: nat)
    ensures var t := BufferedTransfer(offset, len);
      t.offset == offset - offset % BLOCK && (t.len == 0 || t.len == BLOCK) &&
      (t.len == 0 <==> offset % BLOCK == 0 && len == 0)
  {
  }

  lemma ReadIsAll(rom: Rom, before: seq<Byte>, dest: seq<Byte>, transfers: seq<Transfer>, start: nat, want: nat)
    requires IsRead(rom, before, dest, transfers, start, want, want)
    ensures want <= |dest| == |before| && Filled(rom, dest, start, want) && dest[want..] == before[want..]
    ensures AllAligned(transfers) && Serves(transfers, start, want, want)
  {
  }

  lemma NothingYet(rom: Rom, dest: seq<Byte>, start: Word, want: nat)
    requires want <= |dest|
    ensures IsRead(rom, dest, dest, [], start, 0, want) && Address(start, 0) == start
  {
  }

  // (n + 0x1FF) & ~0x1FF
  function RoundUp(n: nat): (r: nat)
    ensures n == 0 ==> r == 0
    ensures 0 < n <= BLOCK ==> r == BLOCK
  {
    (n + BLOCK - 1) / BLOCK * BLOCK
  }

  lemma StartOfBlock(offset: nat)
    ensures (offset - offset % BLOCK) % BLOCK == 0 && offset >= offset % BLOCK
  {
  }
}
