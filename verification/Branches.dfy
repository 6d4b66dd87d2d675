// The branch instructions that source/arm9/dlfcn.c patches, and what they mean to the CPU: sections
// A4.1.5 (B, BL), A4.1.8 (BLX) and A7.1.17 (Thumb BL, BLX) of ARM DDI 0100, and section 5.6 of
// AAELF32 for the relocations.

module Branches {
  import opened Words

  // ----- what the CPU does

  // Where a branch goes: an address and the instruction set there. `always` tells that it has no
  // condition, `link` that it leaves a return address.
  datatype Branch = Branch(target: Word, thumb: bool, always: bool, link: bool)

  datatype Decoded = NoBranch | Jumps(branch: Branch)

  // The condition field of an ARM instruction. 14 is "always"; 15 marks unconditional instructions.
  const ALWAYS := 14
  const UNCONDITIONAL := 15

  function Condition(w: Word): nat { w / 0x1000_0000 }

  predicate IsArmBranch(w: Word) { Low(w / 0x200_0000, 8) == 5 }

  // Bit 24: the link bit of B and BL, the halfword bit of BLX.
  function Bit24(w: Word): nat { Low(w / TWO24, 2) }

  function ArmOffset(w: Word): int { SignExtend(Low(w, TWO24), TWO24) * 4 }

  // An ARM instruction at address `site`.
  function DecodeArm(w: Word, site: Word): Decoded {
    if !IsArmBranch(w) then NoBranch
    else if Condition(w) == UNCONDITIONAL then
      Jumps(Branch(Low(site + 8 + ArmOffset(w) + 2 * Bit24(w), TWO32), true, true, true))
    else
      Jumps(Branch(Low(site + 8 + ArmOffset(w), TWO32), false, Condition(w) == ALWAYS, Bit24(w) == 1))
  }

  // Two Thumb halfwords at address `site`, the first one low in the word.
  function DecodeThumb(w: Word, site: Word): Decoded {
    var first, second := Low(w, TWO16), w / TWO16;
    var base := site + 4 + SignExtend(Low(first, 0x800), 0x800) * 0x1000;
    var target := Low(base + Low(second, 0x800) * 2, TWO32);
    if first / 0x800 != 0x1E then NoBranch
    else if second / 0x800 == 0x1F then Jumps(Branch(target, true, true, true))
    else if second / 0x800 == 0x1D && Low(second, 2) == 0 then Jumps(Branch(target - Low(target, 4), false, true, true))
    else NoBranch
  }

  // Where a function is, for a symbol value whose lowest bit means Thumb.
  function Entry(value: Word): Word { value - Low(value, 2) }

  predicate IsThumb(value: Word) { Low(value, 2) == 1 }

  // ----- what the loader writes

  // Distance as the source computes it: the difference wraps and is then a signed number.
  function Distance(target: Word, site: Word): int { Signed(Low(target - site, TWO32)) }

  datatype Patch = Keep | Put(word: Word) | OutOfRange

  // R_ARM_THM_CALL
  function ThumbCall(value: Word, site: Word): Patch {
    var jump := Distance(value, site) - (if IsThumb(value) then 4 else 2);
    if jump > 0x3F_FFFF || jump <= -0x3F_FFFF then OutOfRange
    else
      var first := 0xF000 + Low(jump / 0x1000, 0x800);
      var half := Low(jump / 2, 0x800);
      var second := if IsThumb(value) then 0xF800 + half else 0xE800 + (half - Low(half, 2));
      Put(first + TWO16 * second)
  }

  // R_ARM_JUMP24; the target is an ARM address.
  function ArmJump(insn: Word, target: Word, site: Word): Patch {
    var jump := Distance(target, site) - 6;
    if jump > 0x7F_FFFF || jump <= -0x7F_FFFF then OutOfRange
    else Put((insn - Low(insn, TWO24)) + Low(jump / 4, TWO24))
  }

  // R_ARM_CALL
  function ArmCall(insn: Word, value: Word, site: Word): Patch {
    var jump := Distance(value, site) - (if IsThumb(value) then 8 else 6);
    if jump > 0x7F_FFFF || jump <= -0x7F_FFFF then OutOfRange
    else if IsThumb(value) then Put(0xFA00_0000 + Low(jump / 4, TWO24) + Low(jump / 2, 2) * TWO24)
    else Put((insn - Low(insn, TWO24)) + Low(jump / 4, TWO24))
  }

  // The veneer for a jump to Thumb code: LDR pc, [pc, #-4], and then the address to load.
  const LDR_PC := 0xE51F_F004

  // LDR pc, [pc, #-n] at address `site`: the address that it loads from. The value that it loads is
  // where it jumps, in Thumb state if the lowest bit is set.
  function LoadsPcFrom(w: Word, site: Word): Word {
    if w / 0x1000 == 0xE51FF then Low(site + 8 - Low(w, 0x1000), TWO32) else 0
  }

  // ----- the patched instruction reaches the symbol

  lemma DistanceWraps(target: Word, site: Word)
    ensures Low(site + Distance(target, site), TWO32) == target
    ensures Low(Distance(target, site) - (target - site), TWO32) == 0
  {
    var d := target - site;
    var wraps := if Low(d, TWO32) < TWO31 then (if d < 0 then 1 else 0) else (if d < 0 then 0 else -1);
    assert Distance(target, site) == d + TWO32 * wraps;
  }

  lemma LowIs(x: int, unit: int, q: int, r: int)
    requires unit == TWO32 || unit == TWO24 || unit == 0x800 || unit == 4 || unit == 2
    requires x == q * unit + r && 0 <= r < unit
    ensures Low(x, unit) == r
  {
  }

  // A number that fits in a field with its sign comes out of it.
  lemma SignedField(x: int, unit: int)
    requires (unit == TWO24 || unit == 0x800) && -unit / 2 <= x < unit / 2
    ensures SignExtend(Low(x, unit), unit) == x
  {
    if x >= 0 {
      LowIs(x, unit, 0, x);
    } else {
      LowIs(x, unit, -1, x + unit);
    }
  }

  // Eleven and eleven bits hold every accepted Thumb distance, rounded down to a halfword.
  lemma ThumbFields(jump: int)
    requires -0x3F_FFFF < jump <= 0x3F_FFFF
    ensures SignExtend(Low(jump / 0x1000, 0x800), 0x800) * 0x1000 + Low(jump / 2, 0x800) * 2 == jump - Low(jump, 2)
    ensures var half := Low(jump / 2, 0x800);
      SignExtend(Low(jump / 0x1000, 0x800), 0x800) * 0x1000 + (half - Low(half, 2)) * 2 == jump - Low(jump, 4)
  {
    hide Low, SignExtend;
    var high, low := jump / 0x1000, jump % 0x1000;
    var half, bit := low / 2, low % 2;
    SignedField(high, 0x800);
    assert jump == 2 * (high * 0x800 + half) + bit;
    LowIs(jump, 2, high * 0x800 + half, bit);
    LowIs(jump / 2, 0x800, high, half);
    LowIs(half, 2, half / 2, half % 2);
    LowIs(jump, 4, high * 0x400 + half / 2, 2 * (half % 2) + bit);
  }

  // Twenty-four bits hold every accepted ARM distance, rounded down to a word.
  lemma ArmField(jump: int)
    requires -0x7F_FFFF < jump <= 0x7F_FFFF
    ensures SignExtend(Low(jump / 4, TWO24), TWO24) * 4 == jump - Low(jump, 4)
  {
    SignedField(jump / 4, TWO24);
  }

  // The parts of two patched halfwords.
  lemma ThumbParts(first: Word, second: Word, high: int, low: int, kind: int)
    requires 0 <= high < 0x800 && 0 <= low < 0x800 && first == 0xF000 + high && second == kind * 0x800 + low
    requires 0 <= kind < 0x20
    ensures var w := first + TWO16 * second;
      && 0 <= w < TWO32 && Low(w, TWO16) == first && w / TWO16 == second
      && first / 0x800 == 0x1E && Low(first, 0x800) == high && second / 0x800 == kind && Low(second, 0x800) == low
      && Low(second, 2) == Low(low, 2)
  {
  }

  lemma DecodeBl(jump: int, site: Word)
    requires -0x3F_FFFF < jump <= 0x3F_FFFF
    ensures DecodeThumb(0xF000 + Low(jump / 0x1000, 0x800) + TWO16 * (0xF800 + Low(jump / 2, 0x800)), site)
         == Jumps(Branch(Low(site + 4 + jump - Low(jump, 2), TWO32), true, true, true))
  {
    hide SignExtend;
    ThumbFields(jump);
    var high, half := Low(jump / 0x1000, 0x800), Low(jump / 2, 0x800);
    ThumbParts(0xF000 + high, 0xF800 + half, high, half, 0x1F);
  }

  lemma DecodeBlx(jump: int, site: Word)
    requires -0x3F_FFFF < jump <= 0x3F_FFFF
    ensures var half := Low(jump / 2, 0x800); var target := Low(site + 4 + jump - Low(jump, 4), TWO32);
      DecodeThumb(0xF000 + Low(jump / 0x1000, 0x800) + TWO16 * (0xE800 + (half - Low(half, 2))), site)
      == Jumps(Branch(target - Low(target, 4), false, true, true))
  {
    hide SignExtend;
    ThumbFields(jump);
    var high, half := Low(jump / 0x1000, 0x800), Low(jump / 2, 0x800);
    ThumbParts(0xF000 + high, 0xE800 + (half - Low(half, 2)), high, half - Low(half, 2), 0x1D);
  }

  // The distance of a target from a site has the same low bits as their difference.
  lemma DistanceLow(target: Word, site: Word)
    ensures Low(Distance(target, site), 4) == Low(target - site, 4)
  {
    hide Distance, Low;
    var d := Distance(target, site);
    DistanceWraps(target, site);
    var q := (d - (target - site)) / TWO32;
    WholeTurns(d - (target - site), q);
    WordParts(target - site);
    LowIs(d, 4, (target - site) / 4 + 0x4000_0000 * q, Low(target - site, 4));
  }

  lemma WholeTurns(x: int, q: int)
    requires Low(x, TWO32) == 0 && q == x / TWO32
    ensures x == TWO32 * q
  {
  }

  lemma BlxLands(value: Word, site: Word, d: int)
    requires Low(site + d, TWO32) == value && Low(d, 4) == Low(value - site, 4) && Low(site, 2) == 0 &&
      Low(value, 2) == 0
    ensures var target := Low(site + 4 + (d - 2) - Low(d - 2, 4), TWO32);
      target - Low(target, 4) == value <==> Low(value, 4) == 0
  {
    hide Low;
    var target := Low(site + 4 + (d - 2) - Low(d - 2, 4), TWO32);
    RoundedDown(target);
    if Low(value, 4) == 0 {
      HalfOff(value, site, d);
      var odd := Low(site, 4);
      AddLow(value, odd);
      FitsAbove(value, odd);
      LowShift(site + d, odd, value);
    }
  }

  lemma AddLow(x: int, k: int)
    requires Low(x, 4) == 0 && 0 <= k < 4
    ensures Low(x + k, 4) == k
  {
  }

  lemma FitsAbove(x: Word, k: int)
    requires Low(x, 4) == 0 && 0 <= k < 4
    ensures x + k < TWO32
  {
  }

  lemma HalfOff(value: Word, site: Word, d: int)
    requires Low(value, 4) == 0 && Low(site, 2) == 0 && Low(d, 4) == Low(value - site, 4)
    ensures Low(d - 2, 4) == 2 - Low(site, 4)
  {
    hide Low;
    var r := Low(site, 4);
    WordParts(site);
    WordParts(value);
    WordParts(d);
    WordParts(value - site);
    EvenRest(site);
    var k := d / 4 - (value - site) / 4;
    LowIs(d - 2, 4, value / 4 - site / 4 + k - 1, 2 - r);
  }

  lemma EvenRest(x: int)
    requires Low(x, 2) == 0
    ensures Low(x, 4) == 0 || Low(x, 4) == 2
  {
    hide Low;
    var r := Low(x, 4);
    WordParts(x);
    LowIs(x, 2, 2 * (x / 4) + r / 2, r % 2);
  }

  lemma RoundedDown(x: int)
    ensures Low(x - Low(x, 4), 4) == 0
  {
  }

  // R_ARM_THM_CALL: BL and BLX reach the symbol in the right state; an ARM symbol must be at a
  // word address.
  lemma ThumbCallReaches(value: Word, site: Word)
    requires Low(site, 2) == 0 && ThumbCall(value, site).Put?
    ensures DecodeThumb(ThumbCall(value, site).word, site) == Jumps(Branch(Entry(value), IsThumb(value), true, true))
       <==> IsThumb(value) || Low(value, 4) == 0
  {
    if IsThumb(value) {
      ToThumbReaches(value, site);
    } else {
      ToArmReaches(value, site);
    }
  }

  lemma ToThumbReaches(value: Word, site: Word)
    requires Low(site, 2) == 0 && ThumbCall(value, site).Put? && IsThumb(value)
    ensures DecodeThumb(ThumbCall(value, site).word, site) == Jumps(Branch(Entry(value), true, true, true))
  {
    hide Distance, SignExtend, DecodeThumb;
    var d := Distance(value, site);
    DistanceWraps(value, site);
    DistanceLow(value, site);
    DecodeBl(d - 4, site);
    OddDistance(value, site, d);
    LowShift(site + d, -1, value);
  }

  lemma ToArmReaches(value: Word, site: Word)
    requires Low(site, 2) == 0 && ThumbCall(value, site).Put? && !IsThumb(value)
    ensures DecodeThumb(ThumbCall(value, site).word, site) == Jumps(Branch(value, false, true, true)) <==>
      Low(value, 4) == 0
  {
    hide Distance, SignExtend, DecodeThumb;
    DistanceWraps(value, site);
    DistanceLow(value, site);
    DecodeBlx(Distance(value, site) - 2, site);
    BlxLands(value, site, Distance(value, site));
  }

  lemma LowShift(x: int, k: int, value: Word)
    requires Low(x, TWO32) == value && 0 <= value + k < TWO32
    ensures Low(x + k, TWO32) == value + k
  {
  }

  // The parts of a patched ARM instruction.
  lemma ArmParts(top: int, low: int)
    requires 0 <= top < 0x100 && 0 <= low < TWO24
    ensures var w := top * TWO24 + low;
      && 0 <= w < TWO32 && Low(w, TWO24) == low && Condition(w) == top / 0x10
      && Low(w / 0x200_0000, 8) == Low(top / 2, 8) && Bit24(w) == Low(top, 2)
  {
    var w := top * TWO24 + low;
    assert w / TWO24 == top;
    assert w / 0x200_0000 == top / 2;
    assert w / 0x1000_0000 == top / 0x10;
  }

  lemma Top(w: Word)
    ensures var top := w / TWO24; 0 <= top < 0x100 && w == top * TWO24 + Low(w, TWO24)
  {
  }

  // A distance to a word address, as the ARM branches round it.
  lemma ArmDistance(target: Word, site: Word)
    requires Low(site, 4) == 0 && -0x7F_FFFF < Distance(target, site) - 6 <= 0x7F_FFFF
    ensures Low(target, 4) == 0 ==>
      Low(site + 8 + SignExtend(Low((Distance(target, site) - 6) / 4, TWO24), TWO24) * 4, TWO32) == target
    ensures Low(site + 8 + SignExtend(Low((Distance(target, site) - 6) / 4, TWO24), TWO24) * 4, 4) == 0
  {
    hide Distance, SignExtend, Low;
    var d := Distance(target, site);
    var field := SignExtend(Low((d - 6) / 4, TWO24), TWO24);
    DistanceWraps(target, site);
    ArmField(d - 6);
    WordParts(site);
    LowIs(site + 8 + field * 4, 4, site / 4 + 2 + field, 0);
    if Low(target, 4) == 0 {
      DistanceLow(target, site);
      WordParts(target);
      LowIs(target - site, 4, target / 4 - site / 4, 0);
      WordParts(d);
      LowIs(d - 6, 4, d / 4 - 2, 2);
    }
  }

  lemma WordParts(x: int)
    ensures x == 4 * (x / 4) + Low(x, 4)
  {
  }

  // R_ARM_JUMP24: the condition and the link bit of the branch stay, and it reaches the target,
  // which must be a word address. (The instruction is a B or a BL with a condition.)
  lemma ArmJumpReaches(insn: Word, target: Word, site: Word)
    requires Low(site, 4) == 0 && IsArmBranch(insn) && Condition(insn) != UNCONDITIONAL
    requires ArmJump(insn, target, site).Put?
    ensures DecodeArm(ArmJump(insn, target, site).word, site)
         == Jumps(Branch(target, false, Condition(insn) == ALWAYS, Bit24(insn) == 1))
       <==> Low(target, 4) == 0
  {
    hide Distance, SignExtend;
    Top(insn);
    var low := Low((Distance(target, site) - 6) / 4, TWO24);
    ArmParts(insn / TWO24, low);
    ArmParts(insn / TWO24, Low(insn, TWO24));
    ArmDistance(target, site);
    LowOfLow(site + 8 + SignExtend(low, TWO24) * 4);
  }

  lemma LowOfLow(x: int)
    ensures Low(Low(x, TWO32), 4) == Low(x, 4)
  {
    var y := Low(x, TWO32);
    assert x == 4 * (0x4000_0000 * (x / TWO32) + y / 4) + Low(y, 4);
    LowIs(x, 4, 0x4000_0000 * (x / TWO32) + y / 4, Low(y, 4));
  }

  // R_ARM_CALL: the instruction calls the symbol in the right state, unconditionally if it did so
  // before, exactly when a Thumb symbol replaces an unconditional call, or an ARM symbol at a word
  // address replaces a BL. A BLX to Thumb is not turned back into a BL to ARM, and a condition is
  // lost when BL becomes BLX.
  lemma ArmCallReaches(insn: Word, value: Word, site: Word)
    requires Low(site, 4) == 0 && IsArmBranch(insn) && (Condition(insn) != UNCONDITIONAL ==> Bit24(insn) == 1)
    requires ArmCall(insn, value, site).Put?
    ensures var always := Condition(insn) >= ALWAYS;
      DecodeArm(ArmCall(insn, value, site).word, site) == Jumps(Branch(Entry(value), IsThumb(value), always, true))
      <==> if IsThumb(value) then always else Low(value, 4) == 0 && Condition(insn) != UNCONDITIONAL
  {
    if IsThumb(value) {
      ThumbTargetReaches(value, site);
    } else {
      ArmTargetReaches(insn, value, site);
    }
  }

  // Both ways to fail. A BLX stays one, and enters ARM code in Thumb state; a call with a condition (here
  // EQ) becomes a BLX, and is made always.
  lemma BlxIsNotTurnedBack()
    ensures ArmCall(0xFA00_0000, MAIN_RAM + 0x1000, MAIN_RAM).Put?
    ensures DecodeArm(ArmCall(0xFA00_0000, MAIN_RAM + 0x1000, MAIN_RAM).word, MAIN_RAM)
      == Jumps(Branch(MAIN_RAM + 0x1000, true, true, true))
  {
  }

  lemma ConditionIsLost()
    ensures ArmCall(0x0B00_0000, MAIN_RAM + 0x1001, MAIN_RAM).Put? && Condition(0x0B00_0000) == 0
    ensures DecodeArm(ArmCall(0x0B00_0000, MAIN_RAM + 0x1001, MAIN_RAM).word, MAIN_RAM)
      == Jumps(Branch(MAIN_RAM + 0x1000, true, true, true))
  {
  }

  lemma ThumbTargetReaches(value: Word, site: Word)
    requires Low(site, 4) == 0 && IsThumb(value) && ArmCall(0, value, site).Put?
    ensures DecodeArm(ArmCall(0, value, site).word, site) == Jumps(Branch(Entry(value), true, true, true))
  {
    hide Distance, SignExtend, DecodeArm;
    var d := Distance(value, site);
    DistanceWraps(value, site);
    DistanceLow(value, site);
    WordIsEven(site);
    OddDistance(value, site, d);
    DecodeArmBlx(d - 8, site);
    LowShift(site + d, -1, value);
  }

  lemma OddDistance(value: Word, site: Word, d: int)
    requires Low(site, 2) == 0 && IsThumb(value) && Low(d, 4) == Low(value - site, 4)
    ensures Low(d - 8, 2) == 1 && Low(d - 4, 2) == 1
  {
    var k := d / 4 - (value - site) / 4;
    assert d == value - site + 4 * k;
    var h := value / 2 - site / 2 + 2 * k;
    assert value == 2 * (value / 2) + 1 && site == 2 * (site / 2);
    LowIs(d - 8, 2, h - 4, 1);
    LowIs(d - 4, 2, h - 2, 1);
  }

  lemma DecodeArmBlx(jump: int, site: Word)
    requires -0x7F_FFFF < jump <= 0x7F_FFFF && Low(jump, 2) == 1
    ensures var w := 0xFA00_0000 + Low(jump / 4, TWO24) + Low(jump / 2, 2) * TWO24;
      0 <= w < TWO32 && DecodeArm(w, site) == Jumps(Branch(Low(site + 8 + jump - 1, TWO32), true, true, true))
  {
    hide SignExtend;
    ArmField(jump);
    ArmParts(0xFA + Low(jump / 2, 2), Low(jump / 4, TWO24));
    HalfwordBit(jump);
  }

  lemma WordIsEven(x: int)
    requires Low(x, 4) == 0
    ensures Low(x, 2) == 0
  {
    assert x == 2 * (2 * (x / 4));
  }

  lemma HalfwordBit(jump: int)
    requires Low(jump, 2) == 1
    ensures Low(jump, 4) == 2 * Low(jump / 2, 2) + 1
  {
  }

  lemma ArmTargetReaches(insn: Word, value: Word, site: Word)
    requires Low(site, 4) == 0 && IsArmBranch(insn) && (Condition(insn) != UNCONDITIONAL ==> Bit24(insn) == 1)
    requires !IsThumb(value) && ArmCall(insn, value, site).Put?
    ensures DecodeArm(ArmCall(insn, value, site).word, site)
         == Jumps(Branch(value, false, Condition(insn) >= ALWAYS, true))
       <==> Low(value, 4) == 0 && Condition(insn) != UNCONDITIONAL
  {
    hide Distance, SignExtend;
    Top(insn);
    var low := Low((Distance(value, site) - 6) / 4, TWO24);
    ArmParts(insn / TWO24, low);
    ArmParts(insn / TWO24, Low(insn, TWO24));
    ArmDistance(value, site);
    LowOfLow(site + 8 + SignExtend(low, TWO24) * 4);
  }

  // The veneer at a word address loads pc from the word after it.
  lemma VeneerLoads(veneer: Word)
    requires Low(veneer, 4) == 0 && veneer <= TWO32 - 8
    ensures LoadsPcFrom(LDR_PC, veneer) == veneer + 4
  {
  }

  // ----- which distances are accepted

  const MAIN_RAM := 0x200_0000

  // Within 4 MB of main memory a Thumb call is accepted except at the far end of a backward jump.
  lemma ThumbCallInMainRam(value: Word, site: Word)
    requires MAIN_RAM <= value < MAIN_RAM + 0x40_0000 && MAIN_RAM <= site < MAIN_RAM + 0x40_0000
    ensures ThumbCall(value, site).Put? <==> site - value < (if IsThumb(value) then 0x3F_FFFB else 0x3F_FFFD)
  {
    NearDistance(value, site);
    hide Distance;
  }

  // Within 8 MB an ARM call and a jump are accepted, except at that end.
  lemma ArmCallInMainRam(insn: Word, value: Word, site: Word)
    requires MAIN_RAM <= value < MAIN_RAM + 0x80_0000 && MAIN_RAM <= site < MAIN_RAM + 0x80_0000
    ensures ArmCall(insn, value, site).Put? <==> site - value < (if IsThumb(value) then 0x7F_FFF7 else 0x7F_FFF9)
    ensures ArmJump(insn, value, site).Put? <==> site - value < 0x7F_FFF9
  {
    NearDistance(value, site);
    hide Distance;
  }

  lemma NearDistance(value: Word, site: Word)
    requires -TWO31 <= value - site < TWO31
    ensures Distance(value, site) == value - site
  {
    var d := value - site;
    LowIs(d, TWO32, if d < 0 then -1 else 0, if d < 0 then d + TWO32 else d);
  }

  // The field of BL reaches 32 MB, but the source gives up at 8: this call in the 16 MB of main
  // memory of a DSi is refused although there is a BL that makes it.
  lemma FarArmCallIsRefused()
    ensures ArmCall(0xEB00_0000, MAIN_RAM + 0x90_0000, MAIN_RAM).OutOfRange?
    ensures DecodeArm(0xEB00_0000 + 0x24_0000 - 2, MAIN_RAM) == Jumps(Branch(MAIN_RAM + 0x90_0000, false, true, true))
  {
  }

  // ----- branches inside the library

  // The same branch, with its target further on by d.
  predicate IsMoved(before: Decoded, after: Decoded, d: int) {
    match before
    case NoBranch => after == NoBranch
    case Jumps(b) => after == Jumps(b.(target := Low(b.target + d, TWO32)))
  }

  lemma LowSum(x: int, d: int)
    ensures Low(Low(x, TWO32) + d, TWO32) == Low(x + d, TWO32)
  {
    var q := x / TWO32;
    var y := Low(x, TWO32) + d;
    assert x + d == TWO32 * q + y;
    LowIs(x + d, TWO32, q + y / TWO32, Low(y, TWO32));
  }

  lemma MovedArmTarget(x: int, d: int)
    requires Low(d, 4) == 0
    ensures var before, after := Low(x, TWO32), Low(x + d, TWO32);
      Low(before - Low(before, 4) + d, TWO32) == after - Low(after, 4)
  {
    var before, after := Low(x, TWO32), Low(x + d, TWO32);
    LowSum(x, d);
    LowOfLow(x);
    LowOfLow(x + d);
    var r := Low(x, 4);
    LowIs(x + d, 4, x / 4 + d / 4, r);
    LowIs(after, 4, after / 4, r);
    var q := (before + d) / TWO32;
    assert before + d == TWO32 * q + after;
    LowIs(before - r + d, TWO32, q, after - r);
  }

  // A branch that the loader leaves alone moves with the code: wherever the library is loaded, at a word
  // address, it reaches the same place in the library in the same state.
  lemma BranchMovesWithCode(w: Word, site: Word, d: int)
    requires 0 <= site + d < TWO32 && Low(d, 4) == 0
    ensures IsMoved(DecodeArm(w, site), DecodeArm(w, site + d), d)
    ensures IsMoved(DecodeThumb(w, site), DecodeThumb(w, site + d), d)
  {
    hide Low, SignExtend, ArmOffset, Bit24;
    LowSum(site + 8 + ArmOffset(w) + 2 * Bit24(w), d);
    LowSum(site + 8 + ArmOffset(w), d);
    var first, second := Low(w, TWO16), w / TWO16;
    var x := site + 4 + SignExtend(Low(first, 0x800), 0x800) * 0x1000 + Low(second, 0x800) * 2;
    LowSum(x, d);
    MovedArmTarget(x, d);
  }
}
