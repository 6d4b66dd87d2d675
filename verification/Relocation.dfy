// The relocation loop of dlopen_FILE in source/arm9/dlfcn.c: it patches a loaded library in place,
// for the one relocation section of the file.

module Relocation {
  import opened Words
  import opened Branches
  import opened Options

  const R_ARM_ABS32 := 2
  const R_ARM_THM_CALL := 10
  const R_ARM_CALL := 28
  const R_ARM_JUMP24 := 29
  const R_ARM_TARGET1 := 38
  const R_ARM_V4BX := 40
  const R_ARM_TLS_LE32 := 108

  const TCB_SIZE := 8
  const VENEER_SIZE := 8

  // Elf32_Rel: the place to patch, and the type and the symbol.
  datatype Rel = Rel(offset: nat, info: Word)

  function Type(r: Rel): nat { Low(r.info, TWO8) }

  function Symbol(r: Rel): nat { r.info / TWO8 }

  datatype Error =
    | ResolverFailed
    | ThumbCallOutsideOfRange
    | JumpOutsideOfRange
    | CallOutsideOfRange
    | NoSpaceForVeneer
    | UnknownRelocation

  // What does not change: where the library is loaded, the size of its address space (the veneers
  // come after it), the attributes of the symbols, and the resolver of the application, which gives
  // a new value for a symbol or fails.
  datatype Library = Library(
    base: Word, space: nat, attributes: seq<nat>, resolver: Option<(nat, Word) -> Option<Word>>)

  // The loaded memory, the values of the symbols, and how many veneers were made.
  datatype State = State(mem: seq<Byte>, values: seq<Word>, veneers: nat)

  datatype Outcome = Failed(error: Error) | Done(state: State)

  // dsl_symbol_is_external
  predicate IsExternal(attributes: nat) {
    Low(attributes / 2, 2) == 1 || Low(attributes / 4, 2) == 1
  }

  // The attributes are flags: a symbol is external if it is in the main binary, or unresolved.
  lemma ExternalByFlags(public: nat, mainBinary: nat, unresolved: nat, others: nat)
    requires public < 2 && mainBinary < 2 && unresolved < 2
    ensures IsExternal(public + 2 * mainBinary + 4 * unresolved + 8 * others) <==> mainBinary == 1 || unresolved == 1
  {
    var attributes := public + 2 * mainBinary + 4 * unresolved + 8 * others;
    assert attributes / 2 == mainBinary + 2 * unresolved + 4 * others;
    assert attributes / 4 == unresolved + 2 * others;
  }

  predicate Fits(lib: Library, st: State, relocations: nat) {
    && |st.values| == |lib.attributes|
    && lib.base + |st.mem| <= TWO32 && lib.space + VENEER_SIZE * relocations <= |st.mem|
  }

  // A relocation of a well-formed file: a place in the library, and a symbol of the table.
  predicate WellFormed(lib: Library, r: Rel) {
    r.offset + 4 <= lib.space && Symbol(r) < |lib.attributes|
  }

  function WordAt(mem: seq<Byte>, offset: nat): Word
    requires offset + 4 <= |mem|
  {
    WordOf(mem[offset], mem[offset + 1], mem[offset + 2], mem[offset + 3])
  }

  function SetWord(mem: seq<Byte>, offset: nat, w: Word): (r: seq<Byte>)
    requires offset + 4 <= |mem|
    ensures |r| == |mem|
  {
    var b := WordBytes(w);
    mem[offset := b[0]][offset + 1 := b[1]][offset + 2 := b[2]][offset + 3 := b[3]]
  }

  // What one relocation does: nothing, a new word, or a new word and a veneer for `value`.
  datatype Plan =
    | Nothing
    | Write(word: Word)
    | WriteAndVeneer(word: Word, value: Word)
    | Fail(error: Error)

  // `insn` is the word at the place, `site` its address, `veneer` the address of the next veneer
  // and `room` tells whether there is space for it.
  function PlanFor(kind: nat, insn: Word, site: Word, base: Word, value: Word, external: bool, veneer: Word,
      room: bool): Plan {
    if kind == R_ARM_ABS32 || kind == R_ARM_TARGET1 then
      Write(if external then value else Low(insn + base, TWO32))
    else if kind == R_ARM_THM_CALL then
      if !external then Nothing
      else
        var p := ThumbCall(value, site);
        if p.Put? then Write(p.word) else Fail(ThumbCallOutsideOfRange)
    else if kind == R_ARM_JUMP24 then
      if !external then Nothing
      else if IsThumb(value) then
        if !room then Fail(NoSpaceForVeneer)
        else
          var p := ArmJump(insn, veneer, site);
          if p.Put? then WriteAndVeneer(p.word, value) else Fail(JumpOutsideOfRange)
      else
        var p := ArmJump(insn, value, site);
        if p.Put? then Write(p.word) else Fail(JumpOutsideOfRange)
    else if kind == R_ARM_CALL then
      if !external then Nothing
      else
        var p := ArmCall(insn, value, site);
        if p.Put? then Write(p.word) else Fail(CallOutsideOfRange)
    else if kind == R_ARM_TLS_LE32 then Write(Low(value + TCB_SIZE, TWO32))
    else if kind == R_ARM_V4BX then Nothing
    else Fail(UnknownRelocation)
  }

  // The value of a symbol when a relocation for it is applied.
  function Resolved(lib: Library, values: seq<Word>, symbol: nat): Option<Word>
    requires symbol < |values|
  {
    if lib.resolver.None? then Some(values[symbol]) else lib.resolver.value(symbol, values[symbol])
  }

  function VeneerOffset(lib: Library, veneers: nat): nat { lib.space + VENEER_SIZE * veneers }

  // What the relocation r does in state st, when the word at its place is `insn`.
  function PlanIn(lib: Library, st: State, r: Rel, insn: Word): Plan
    requires Fits(lib, st, 0) && WellFormed(lib, r)
  {
    match Resolved(lib, st.values, Symbol(r))
    case None => Fail(ResolverFailed)
    case Some(value) =>
      PlanFor(Type(r), insn, Low(lib.base + r.offset, TWO32), lib.base, value, IsExternal(lib.attributes[Symbol(r)]),
              Low(lib.base + VeneerOffset(lib, st.veneers), TWO32), VeneerOffset(lib, st.veneers + 1) <= |st.mem|)
  }

  function Veneered(mem: seq<Byte>, offset: nat, value: Word): (r: seq<Byte>)
    requires offset + 8 <= |mem|
    ensures |r| == |mem|
  {
    SetWord(SetWord(mem, offset, LDR_PC), offset + 4, value)
  }

  // One round of the loop.
  function Step(lib: Library, st: State, r: Rel): (out: Outcome)
    requires Fits(lib, st, 0) && WellFormed(lib, r)
    ensures out.Done? ==> Fits(lib, out.state, 0) && |out.state.mem| == |st.mem|
    ensures out.Done? ==> st.veneers <= out.state.veneers <= st.veneers + 1
  {
    var value := Resolved(lib, st.values, Symbol(r));
    match PlanIn(lib, st, r, WordAt(st.mem, r.offset))
    case Fail(e) => Failed(e)
    case Nothing => Done(st.(values := st.values[Symbol(r) := value.value]))
    case Write(w) => Done(State(SetWord(st.mem, r.offset, w), st.values[Symbol(r) := value.value], st.veneers))
    case WriteAndVeneer(w, target) =>
      Done(State(SetWord(Veneered(st.mem, VeneerOffset(lib, st.veneers), target), r.offset, w),
                 st.values[Symbol(r) := value.value], st.veneers + 1))
  }

  // The whole loop.
  function Run(lib: Library, st: State, rels: seq<Rel>): (out: Outcome)
    requires Fits(lib, st, 0) && forall i {:trigger rels[i]} :: 0 <= i < |rels| ==> WellFormed(lib, rels[i])
    ensures out.Done? ==> Fits(lib, out.state, 0) && |out.state.mem| == |st.mem|
    ensures out.Done? ==> out.state.veneers <= st.veneers + |rels|
  {
    if rels == [] then Done(st)
    else
      match Run(lib, st, rels[..|rels| - 1])
      case Failed(e) => Failed(e)
      case Done(s) => Step(lib, s, rels[|rels| - 1])
  }

  method StoreWord(mem: array<Byte>, offset: nat, w: Word)
    requires offset + 4 <= mem.Length
    modifies mem
    ensures mem[..] == SetWord(old(mem[..]), offset, w)
  {
    var b := WordBytes(w);
    mem[offset] := b[0];
    mem[offset + 1] := b[1];
    mem[offset + 2] := b[2];
    mem[offset + 3] := b[3];
  }

  // Two halfwords, as for a Thumb call.
  method StoreHalfwords(mem: array<Byte>, offset: nat, first: Word, second: Word)
    requires offset + 4 <= mem.Length && first < TWO16 && second < TWO16
    modifies mem
    ensures mem[..] == SetWord(old(mem[..]), offset, first + TWO16 * second)
  {
    HalfwordBytes(first, second);
    mem[offset] := Low(first, TWO8);
    mem[offset + 1] := first / TWO8;
    mem[offset + 2] := Low(second, TWO8);
    mem[offset + 3] := second / TWO8;
  }

  lemma HalfwordBytes(first: Word, second: Word)
    requires first < TWO16 && second < TWO16
    ensures var w := first + TWO16 * second;
      0 <= w < TWO32 && WordBytes(w) == [Low(first, TWO8), first / TWO8, Low(second, TWO8), second / TWO8]
  {
    hide WordBytes;
    assert first == first / TWO8 * TWO8 + Low(first, TWO8) && second == second / TWO8 * TWO8 + Low(second, TWO8);
    assert WordOf(Low(first, TWO8), first / TWO8, Low(second, TWO8), second / TWO8) == first + TWO16 * second;
    WordBytesUndo(Low(first, TWO8), first / TWO8, Low(second, TWO8), second / TWO8);
  }

  // The body of the loop: one relocation. The memory and the symbol table are changed in place.
  method RelocateOne(mem: array<Byte>, values: array<Word>, lib: Library, rel: Rel, veneer: nat, ghost veneers: nat)
    returns (error: Option<Error>, nextVeneer: nat)
    requires values as object != mem && Fits(lib, State(mem[..], values[..], veneers), 0) && WellFormed(lib, rel)
    requires veneer == VeneerOffset(lib, veneers)
    modifies mem, values
    ensures match Step(lib, State(old(mem[..]), old(values[..]), veneers), rel)
            case Failed(e) => error == Some(e)
            case Done(st) =>
              error == None && mem[..] == st.mem && values[..] == st.values &&
                nextVeneer == VeneerOffset(lib, st.veneers)
  {
    hide SetWord, WordAt, WordOf, WordBytes, ThumbCall, ArmJump, ArmCall, IsThumb, IsExternal;
    ghost var st := State(mem[..], values[..], veneers);
    error, nextVeneer := None, veneer;
    var kind, symbol := Type(rel), Symbol(rel);
    if lib.resolver.Some? {
      var found := lib.resolver.value(symbol, values[symbol]);
      if found.None? {
        error := Some(ResolverFailed);
        return;
      }
      values[symbol] := found.value;
    }
    var value, external := values[symbol], IsExternal(lib.attributes[symbol]);
    assert values[..] == st.values[symbol := value];
    var insn, site := WordAt(mem[..], rel.offset), Low(lib.base + rel.offset, TWO32);
    if kind == R_ARM_ABS32 || kind == R_ARM_TARGET1 {
      if external {
        StoreWord(mem, rel.offset, value);
      } else {
        StoreWord(mem, rel.offset, Low(insn + lib.base, TWO32));
      }
    } else if kind == R_ARM_THM_CALL {
      if external {
        var patch := ThumbCall(value, site);
        if patch.OutOfRange? {
          error := Some(ThumbCallOutsideOfRange);
          return;
        }
        ThumbCallPuts(value, site);
        var first, second := Low(patch.word, TWO16), patch.word / TWO16;
        StoreHalfwords(mem, rel.offset, first, second);
      }
    } else if kind == R_ARM_JUMP24 {
      if external {
        var target := value;
        if IsThumb(value) {
          if veneer + VENEER_SIZE > mem.Length {
            error := Some(NoSpaceForVeneer);
            return;
          }
          StoreWord(mem, veneer, LDR_PC);
          StoreWord(mem, veneer + 4, value);
          target := Low(lib.base + veneer, TWO32);
          nextVeneer := veneer + VENEER_SIZE;
        }
        var patch := ArmJump(insn, target, site);
        if !patch.Put? {
          error := Some(JumpOutsideOfRange);
          return;
        }
        StoreWord(mem, rel.offset, patch.word);
      }
    } else if kind == R_ARM_CALL {
      if external {
        var patch := ArmCall(insn, value, site);
        if !patch.Put? {
          error := Some(CallOutsideOfRange);
          return;
        }
        StoreWord(mem, rel.offset, patch.word);
      }
    } else if kind == R_ARM_TLS_LE32 {
      StoreWord(mem, rel.offset, Low(value + TCB_SIZE, TWO32));
    } else if kind == R_ARM_V4BX {
    } else {
      error := Some(UnknownRelocation);
      return;
    }
  }

  lemma ThumbCallPuts(value: Word, site: Word)
    ensures ThumbCall(value, site).Put? || ThumbCall(value, site).OutOfRange?
  {
  }

  lemma {:induction false} RunFails(lib: Library, st: State, rels: seq<Rel>, k: nat)
    requires Fits(lib, st, 0) && forall i {:trigger rels[i]} :: 0 <= i < |rels| ==> WellFormed(lib, rels[i])
    requires k <= |rels| && Run(lib, st, rels[..k]).Failed?
    ensures Run(lib, st, rels) == Run(lib, st, rels[..k])
  {
    if k < |rels| {
      var shorter := rels[..|rels| - 1];
      assert shorter[..k] == rels[..k];
      RunFails(lib, st, shorter, k);
    } else {
      assert rels[..k] == rels;
    }
  }

  // The loop, over all relocations of the section. An error leaves the memory as it is then; the
  // source frees it.
  method Relocate(mem: array<Byte>, values: array<Word>, lib: Library, rels: seq<Rel>) returns (error: Option<Error>)
    requires values as object != mem && Fits(lib, State(mem[..], values[..], 0), |rels|)
    requires forall i {:trigger rels[i]} :: 0 <= i < |rels| ==> WellFormed(lib, rels[i])
    modifies mem, values
    ensures match Run(lib, State(old(mem[..]), old(values[..]), 0), rels)
            case Failed(e) => error == Some(e)
            case Done(st) => error == None && mem[..] == st.mem && values[..] == st.values
  {
    hide Step;
    var veneer := lib.space;
    ghost var veneers := 0;
    ghost var st0 := State(mem[..], values[..], 0);
    var r := 0;
    assert rels[..0] == [];
    while r < |rels|
      invariant 0 <= r <= |rels| && veneer == VeneerOffset(lib, veneers)
      invariant Run(lib, st0, rels[..r]) == Done(State(mem[..], values[..], veneers))
    {
      assert rels[..r + 1][..r] == rels[..r] && rels[..r + 1][r] == rels[r];
      ghost var out := Step(lib, State(mem[..], values[..], veneers), rels[r]);
      error, veneer := RelocateOne(mem, values, lib, rels[r], veneer, veneers);
      if error.Some? {
        RunFails(lib, st0, rels, r + 1);
        return;
      }
      veneers := out.state.veneers;
      r := r + 1;
    }
    assert rels[..r] == rels;
    error := None;
  }

  // ----- failures

  // The distance, less what the CPU adds, is in the range that the source accepts.
  predicate InReach(target: Word, site: Word, ahead: int, limit: int) {
    -limit < Distance(target, site) - ahead <= limit
  }

  // One round fails exactly when the resolver does, the type is not known, or an external branch is out of
  // range. The branch of a jump to Thumb code goes to the veneer, for which there must be space.
  lemma StepFails(lib: Library, st: State, r: Rel, value: Word)
    requires Fits(lib, st, 0) && WellFormed(lib, r)
    requires value == match lib.resolver
      case None => st.values[Symbol(r)]
      case Some(resolver) => resolver(Symbol(r), st.values[Symbol(r)]).GetOr(0)
    ensures var kind, site := Type(r), lib.base + r.offset; var at := VeneerOffset(lib, st.veneers);
      var external, thumb := IsExternal(lib.attributes[Symbol(r)]), IsThumb(value);
      match Step(lib, st, r)
      case Failed(ResolverFailed) =>
        lib.resolver.Some? && lib.resolver.value(Symbol(r), st.values[Symbol(r)]) == None
      case Failed(UnknownRelocation) => kind !in {2, 10, 28, 29, 38, 40, 108}
      case Failed(ThumbCallOutsideOfRange) =>
        kind == 10 && external && !InReach(value, site, if thumb then 4 else 2, 0x3F_FFFF)
      case Failed(CallOutsideOfRange) =>
        kind == 28 && external && !InReach(value, site, if thumb then 8 else 6, 0x7F_FFFF)
      case Failed(NoSpaceForVeneer) => kind == 29 && external && thumb && at + 8 > |st.mem|
      case Failed(JumpOutsideOfRange) =>
        kind == 29 && external && (thumb ==> at + 8 <= |st.mem|) &&
        !InReach(if thumb then lib.base + at else value, site, 6, 0x7F_FFFF)
      case Done(_) =>
        && (lib.resolver.Some? ==> lib.resolver.value(Symbol(r), st.values[Symbol(r)]) != None)
        && kind in {2, 10, 28, 29, 38, 40, 108}
        && (kind == 10 && external ==> InReach(value, site, if thumb then 4 else 2, 0x3F_FFFF))
        && (kind == 28 && external ==> InReach(value, site, if thumb then 8 else 6, 0x7F_FFFF))
        && (kind == 29 && external ==>
              (thumb ==> at + 8 <= |st.mem|) &&
              InReach(if thumb then lib.base + at else value, site, 6, 0x7F_FFFF))
  {
    hide IsExternal, SetWord, WordAt, WordOf, IsThumb, Distance;
    SmallWord(lib.base + r.offset);
    if lib.base + VeneerOffset(lib, st.veneers) < TWO32 {
      SmallWord(lib.base + VeneerOffset(lib, st.veneers));
    }
  }

  lemma SmallWord(x: nat)
    requires x < TWO32
    ensures Low(x, TWO32) == x
  {
  }

  // ----- the resolver

  // What the resolver makes of a symbol when it is asked again and again, each time with its last answer.
  function Asked(resolver: (nat, Word) -> Option<Word>, symbol: nat, value: Word, times: nat): Option<Word> {
    if times == 0 then Some(value)
    else
      match Asked(resolver, symbol, value, times - 1)
      case None => None
      case Some(w) => resolver(symbol, w)
  }

  // The relocations for a symbol.
  function Uses(rels: seq<Rel>, symbol: nat): nat {
    if rels == [] then 0
    else Uses(rels[..|rels| - 1], symbol) + if Symbol(rels[|rels| - 1]) == symbol then 1 else 0
  }

  // The value of the symbol of relocation i: the one in the file, or what the resolver says when it is asked
  // for each relocation of that symbol up to this one.
  function ValueFor(lib: Library, values: seq<Word>, rels: seq<Rel>, i: nat): Option<Word>
    requires i < |rels| && Symbol(rels[i]) < |values|
  {
    var symbol := Symbol(rels[i]);
    match lib.resolver
    case None => Some(values[symbol])
    case Some(resolver) => Asked(resolver, symbol, values[symbol], Uses(rels[..i + 1], symbol))
  }

  // One round asks the resolver for the symbol of its relocation, and keeps the answer.
  lemma StepAsks(lib: Library, st: State, r: Rel)
    requires Fits(lib, st, 0) && WellFormed(lib, r)
    ensures match lib.resolver
      case None => Step(lib, st, r) != Failed(ResolverFailed) &&
        (Step(lib, st, r).Done? ==> Step(lib, st, r).state.values == st.values)
      case Some(resolver) =>
        match resolver(Symbol(r), st.values[Symbol(r)])
        case None => Step(lib, st, r) == Failed(ResolverFailed)
        case Some(w) =>
          Step(lib, st, r) != Failed(ResolverFailed) &&
          (Step(lib, st, r).Done? ==> Step(lib, st, r).state.values == st.values[Symbol(r) := w])
  {
    hide ThumbCall, ArmJump, ArmCall, IsExternal, SetWord, WordAt;
  }

  // After the loop the symbol table holds what the resolver said last.
  lemma {:induction false} ValuesAreAsked(lib: Library, st: State, rels: seq<Rel>, symbol: nat)
    requires Fits(lib, st, 0) && AllWellFormed(lib, rels) && Run(lib, st, rels).Done? && symbol < |st.values|
    ensures |Run(lib, st, rels).state.values| == |st.values|
    ensures match lib.resolver
      case None => Run(lib, st, rels).state.values == st.values
      case Some(resolver) =>
        Asked(resolver, symbol, st.values[symbol], Uses(rels, symbol)) == Some(Run(lib, st, rels).state.values[symbol])
  {
    hide Step;
    if rels != [] {
      var n := |rels| - 1;
      RunSplits(lib, st, rels);
      ValuesAreAsked(lib, st, rels[..n], symbol);
      StepAsks(lib, Before(lib, st, rels, n), rels[n]);
    }
  }

  // So each relocation is applied with that value.
  lemma SymbolIsResolved(lib: Library, st: State, rels: seq<Rel>, i: nat)
    requires Fits(lib, st, 0) && AllWellFormed(lib, rels) && i < |rels| && Run(lib, st, rels[..i]).Done?
    ensures Symbol(rels[i]) < |Before(lib, st, rels, i).values| == |st.values|
    ensures Resolved(lib, Before(lib, st, rels, i).values, Symbol(rels[i])) == ValueFor(lib, st.values, rels, i)
  {
    hide Run, Step;
    var symbol := Symbol(rels[i]);
    assert WellFormed(lib, rels[i]) && rels[..i + 1][..i] == rels[..i] && rels[..i + 1][i] == rels[i];
    ValuesAreAsked(lib, st, rels[..i], symbol);
    assert Uses(rels[..i + 1], symbol) == Uses(rels[..i], symbol) + 1;
  }

  // The loop ends with the resolver's failure exactly when it gets to a relocation for which the resolver fails.
  lemma {:induction false} ResolverFails(lib: Library, st: State, rels: seq<Rel>)
    requires Fits(lib, st, 0) && AllWellFormed(lib, rels)
    ensures Run(lib, st, rels) == Failed(ResolverFailed) <==>
      exists i :: 0 <= i < |rels| && Symbol(rels[i]) < |st.values| && Run(lib, st, rels[..i]).Done? &&
        ValueFor(lib, st.values, rels, i) == None
  {
    hide Step, ValueFor;
    forall i | 0 <= i < |rels| && Run(lib, st, rels[..i]).Done? ensures
        Run(lib, st, rels[..i + 1]) == Failed(ResolverFailed) <==> ValueFor(lib, st.values, rels, i) == None {
      RoundFails(lib, st, rels, i);
    }
    if i :| 0 <= i < |rels| && Symbol(rels[i]) < |st.values| && Run(lib, st, rels[..i]).Done? &&
            ValueFor(lib, st.values, rels, i) == None {
      RunFails(lib, st, rels, i + 1);
    }
    if Run(lib, st, rels) == Failed(ResolverFailed) {
      var i := FailingRound(lib, st, rels);
    }
  }

  lemma RoundFails(lib: Library, st: State, rels: seq<Rel>, i: nat)
    requires Fits(lib, st, 0) && AllWellFormed(lib, rels) && i < |rels| && Run(lib, st, rels[..i]).Done?
    ensures Symbol(rels[i]) < |st.values|
    ensures Run(lib, st, rels[..i + 1]) == Failed(ResolverFailed) <==> ValueFor(lib, st.values, rels, i) == None
  {
    hide Step, ValueFor;
    assert rels[..i + 1][..i] == rels[..i] && rels[..i + 1][i] == rels[i];
    SymbolIsResolved(lib, st, rels, i);
    StepAsks(lib, Before(lib, st, rels, i), rels[i]);
  }

  // The round in which a loop fails.
  lemma {:induction false} FailingRound(lib: Library, st: State, rels: seq<Rel>) returns (i: nat)
    requires Fits(lib, st, 0) && AllWellFormed(lib, rels) && Run(lib, st, rels).Failed?
    ensures i < |rels| && Run(lib, st, rels[..i]).Done? && Run(lib, st, rels[..i + 1]) == Run(lib, st, rels)
  {
    hide Step;
    var n := |rels| - 1;
    if Run(lib, st, rels[..n]).Done? {
      i := n;
      assert rels[..n + 1] == rels;
    } else {
      i := FailingRound(lib, st, rels[..n]);
      assert rels[..n][..i] == rels[..i] && rels[..n][..i + 1] == rels[..i + 1];
    }
  }

  // ----- the image after the loop

  predicate Apart(a: nat, b: nat) { a + 4 <= b || b + 4 <= a }

  // No two relocations patch the same bytes.
  predicate DisjointSites(rels: seq<Rel>) {
    forall i, j {:trigger rels[i], rels[j]} :: 0 <= i < j < |rels| ==> Apart(rels[i].offset, rels[j].offset)
  }

  lemma DisjointPrefix(rels: seq<Rel>, n: nat)
    requires DisjointSites(rels) && n <= |rels|
    ensures DisjointSites(rels[..n])
  {
    forall i, j | 0 <= i < j < n ensures Apart(rels[..n][i].offset, rels[..n][j].offset) {
      assert rels[..n][i] == rels[i] && rels[..n][j] == rels[j];
    }
  }

  predicate AllWellFormed(lib: Library, rels: seq<Rel>) {
    forall i {:trigger rels[i]} :: 0 <= i < |rels| ==> WellFormed(lib, rels[i])
  }

  lemma WordAtSame(mem: seq<Byte>, offset: nat, w: Word)
    requires offset + 4 <= |mem|
    ensures WordAt(SetWord(mem, offset, w), offset) == w
  {
    hide WordBytes, WordOf;
    WordOfUndo(w);
  }

  lemma WordAtOther(mem: seq<Byte>, offset: nat, w: Word, other: nat)
    requires offset + 4 <= |mem| && other + 4 <= |mem| && Apart(offset, other)
    ensures WordAt(SetWord(mem, offset, w), other) == WordAt(mem, other)
  {
    hide WordBytes, WordOf;
  }

  // The state in which relocation i is applied.
  function Before(lib: Library, st: State, rels: seq<Rel>, i: nat): State
    requires Fits(lib, st, 0) && AllWellFormed(lib, rels) && i <= |rels|
  {
    match Run(lib, st, rels[..i])
    case Done(s) => s
    case Failed(_) => st
  }

  // What relocation i does, by the original word at its place.
  function PlanAt(lib: Library, st: State, rels: seq<Rel>, i: nat): Plan
    requires Fits(lib, st, 0) && AllWellFormed(lib, rels) && i < |rels|
  {
    PlanIn(lib, Before(lib, st, rels, i), rels[i], WordAt(st.mem, rels[i].offset))
  }

  // What a plan makes of the word at its place.
  function NewWord(p: Plan, insn: Word): Word {
    match p
    case Write(w) => w
    case WriteAndVeneer(w, _) => w
    case _ => insn
  }

  lemma VeneerHasRoom(lib: Library, st: State, r: Rel, insn: Word)
    requires Fits(lib, st, 0) && WellFormed(lib, r) && PlanIn(lib, st, r, insn).WriteAndVeneer?
    ensures VeneerOffset(lib, st.veneers) + VENEER_SIZE <= |st.mem|
  {
    hide ThumbCall, ArmJump, ArmCall;
  }

  // One step changes the bytes at its place, and those of its veneer if it makes one.
  lemma StepChanges(lib: Library, st: State, r: Rel, b: nat)
    requires Fits(lib, st, 0) && WellFormed(lib, r) && Step(lib, st, r).Done? && b < |st.mem|
    requires b < r.offset || r.offset + 4 <= b
    requires b < VeneerOffset(lib, st.veneers)
    ensures Step(lib, st, r).state.mem[b] == st.mem[b]
  {
    hide PlanFor, WordBytes, WordOf, Resolved;
    if PlanIn(lib, st, r, WordAt(st.mem, r.offset)).WriteAndVeneer? {
      VeneerHasRoom(lib, st, r, WordAt(st.mem, r.offset));
    }
  }

  lemma StepWrites(lib: Library, st: State, r: Rel)
    requires Fits(lib, st, 0) && WellFormed(lib, r) && Step(lib, st, r).Done?
    ensures var p := PlanIn(lib, st, r, WordAt(st.mem, r.offset));
      && !p.Fail? && WordAt(Step(lib, st, r).state.mem, r.offset) == NewWord(p, WordAt(st.mem, r.offset))
  {
    hide PlanFor, WordBytes, WordOf;
    match PlanIn(lib, st, r, WordAt(st.mem, r.offset))
    case Write(w) => WordAtSame(st.mem, r.offset, w);
    case WriteAndVeneer(w, v) =>
      VeneerHasRoom(lib, st, r, WordAt(st.mem, r.offset));
      WordAtSame(Veneered(st.mem, VeneerOffset(lib, st.veneers), v), r.offset, w);
    case _ =>
  }

  lemma RunSplits(lib: Library, st: State, rels: seq<Rel>)
    requires Fits(lib, st, 0) && AllWellFormed(lib, rels) && rels != [] && Run(lib, st, rels).Done?
    ensures var n := |rels| - 1;
      && WellFormed(lib, rels[n]) && Run(lib, st, rels[..n]).Done? &&
        Before(lib, st, rels, n) == Run(lib, st, rels[..n]).state
      && Run(lib, st, rels) == Step(lib, Before(lib, st, rels, n), rels[n])
  {
  }

  // Bytes of the library outside the places of the relocations are unchanged.
  lemma {:induction false} OtherBytesUnchanged(lib: Library, st: State, rels: seq<Rel>, b: nat)
    requires Fits(lib, st, 0) && AllWellFormed(lib, rels) && Run(lib, st, rels).Done? && b < lib.space <= |st.mem|
    requires forall i {:trigger rels[i]} :: 0 <= i < |rels| ==> b < rels[i].offset || rels[i].offset + 4 <= b
    ensures Run(lib, st, rels).state.mem[b] == st.mem[b]
  {
    hide Step, Fits;
    if rels != [] {
      var n := |rels| - 1;
      RunSplits(lib, st, rels);
      OtherBytesUnchanged(lib, st, rels[..n], b);
      StepChanges(lib, Before(lib, st, rels, n), rels[n], b);
    }
  }

  // Until relocation i is applied, its place holds the original word.
  lemma WordIsOriginal(lib: Library, st: State, rels: seq<Rel>, offset: nat)
    requires Fits(lib, st, 0) && AllWellFormed(lib, rels) && Run(lib, st, rels).Done?
    requires offset + 4 <= lib.space <= |st.mem|
    requires forall i {:trigger rels[i]} :: 0 <= i < |rels| ==> Apart(rels[i].offset, offset)
    ensures WordAt(Run(lib, st, rels).state.mem, offset) == WordAt(st.mem, offset)
  {
    hide Run, WordOf;
    OtherBytesUnchanged(lib, st, rels, offset);
    OtherBytesUnchanged(lib, st, rels, offset + 1);
    OtherBytesUnchanged(lib, st, rels, offset + 2);
    OtherBytesUnchanged(lib, st, rels, offset + 3);
  }

  // The image theorem: if the loop ends well, each place holds what its own relocation makes of the
  // word that was there in the file.
  lemma {:induction false} EachPlaceIsRelocated(lib: Library, st: State, rels: seq<Rel>, i: nat)
    requires Fits(lib, st, 0) && AllWellFormed(lib, rels) && DisjointSites(rels) && lib.space <= |st.mem|
    requires Run(lib, st, rels).Done? && i < |rels|
    ensures !PlanAt(lib, st, rels, i).Fail?
    ensures WordAt(Run(lib, st, rels).state.mem, rels[i].offset)
         == NewWord(PlanAt(lib, st, rels, i), WordAt(st.mem, rels[i].offset))
  {
    hide Step, Run, PlanIn, WordOf, Fits;
    var n := |rels| - 1;
    DisjointPrefix(rels, n);
    RunSplits(lib, st, rels);
    var s := Before(lib, st, rels, n);
    if i == n {
      WordIsOriginal(lib, st, rels[..n], rels[i].offset);
      StepWrites(lib, s, rels[n]);
    } else {
      assert rels[..n][..i] == rels[..i];
      EachPlaceIsRelocated(lib, st, rels[..n], i);
      StepLeavesWord(lib, s, rels[n], rels[i].offset);
    }
  }

  lemma StepLeavesWord(lib: Library, st: State, r: Rel, offset: nat)
    requires Fits(lib, st, 0) && WellFormed(lib, r) && Step(lib, st, r).Done?
    requires offset + 4 <= lib.space <= |st.mem| && Apart(r.offset, offset)
    ensures WordAt(Step(lib, st, r).state.mem, offset) == WordAt(st.mem, offset)
  {
    hide Step, WordOf;
    StepChanges(lib, st, r, offset);
    StepChanges(lib, st, r, offset + 1);
    StepChanges(lib, st, r, offset + 2);
    StepChanges(lib, st, r, offset + 3);
  }

  // The pool of veneers has room for one veneer for each relocation, so it is never exhausted.
  lemma {:induction false} VeneersNeverRunOut(lib: Library, st: State, rels: seq<Rel>)
    requires Fits(lib, st, |rels|) && st.veneers == 0 && AllWellFormed(lib, rels)
    ensures Run(lib, st, rels) != Failed(NoSpaceForVeneer)
  {
    if rels != [] {
      var n := |rels| - 1;
      VeneersNeverRunOut(lib, st, rels[..n]);
      if Run(lib, st, rels[..n]).Done? {
        var s := Run(lib, st, rels[..n]).state;
        assert VeneerOffset(lib, s.veneers + 1) <= |s.mem|;
        RoomIsEnough(lib, s, rels[n]);
      }
    }
  }

  lemma RoomIsEnough(lib: Library, st: State, r: Rel)
    requires Fits(lib, st, 0) && WellFormed(lib, r) && VeneerOffset(lib, st.veneers + 1) <= |st.mem|
    ensures Step(lib, st, r) != Failed(NoSpaceForVeneer)
  {
    hide SetWord, WordAt, ThumbCall, ArmJump, ArmCall;
  }

  // A veneer stays as it was made.
  lemma {:induction false} VeneersStay(lib: Library, st: State, rels: seq<Rel>, i: nat)
    requires Fits(lib, st, |rels|) && st.veneers == 0 && AllWellFormed(lib, rels) && DisjointSites(rels)
    requires Run(lib, st, rels).Done? && i < |rels| && PlanAt(lib, st, rels, i).WriteAndVeneer?
    ensures var at := VeneerOffset(lib, Before(lib, st, rels, i).veneers); var mem := Run(lib, st, rels).state.mem;
      && at + VENEER_SIZE <= |mem| && Before(lib, st, rels, i).veneers < Run(lib, st, rels).state.veneers
      && WordAt(mem, at) == LDR_PC && WordAt(mem, at + 4) == PlanAt(lib, st, rels, i).value
  {
    hide Step, Run, PlanIn, WordAt, Fits;
    var n := |rels| - 1;
    FitsLess(lib, st, rels);
    DisjointPrefix(rels, n);
    RunSplits(lib, st, rels);
    var s := Before(lib, st, rels, n);
    if i == n {
      WordIsOriginal(lib, st, rels[..n], rels[i].offset);
      MakesVeneer(lib, s, rels[n]);
    } else {
      assert rels[..n][..i] == rels[..i];
      VeneersStay(lib, st, rels[..n], i);
      var at := VeneerOffset(lib, Before(lib, st, rels, i).veneers);
      LeavesVeneer(lib, s, rels[n], at);
      LeavesVeneer(lib, s, rels[n], at + 4);
    }
  }

  lemma FitsLess(lib: Library, st: State, rels: seq<Rel>)
    requires Fits(lib, st, |rels|) && rels != []
    ensures Fits(lib, st, |rels| - 1) && Fits(lib, st, 0) && lib.space <= |st.mem|
  {
  }

  lemma MakesVeneer(lib: Library, st: State, r: Rel)
    requires Fits(lib, st, 0) && WellFormed(lib, r) && Step(lib, st, r).Done?
    requires PlanIn(lib, st, r, WordAt(st.mem, r.offset)).WriteAndVeneer?
    ensures var at := VeneerOffset(lib, st.veneers); var u := Step(lib, st, r).state;
      && at + VENEER_SIZE <= |u.mem| && u.veneers == st.veneers + 1
      && WordAt(u.mem, at) == LDR_PC && WordAt(u.mem, at + 4) == PlanIn(lib, st, r, WordAt(st.mem, r.offset)).value
  {
    hide SetWord, WordAt, ThumbCall, ArmJump, ArmCall;
    var at, p := VeneerOffset(lib, st.veneers), PlanIn(lib, st, r, WordAt(st.mem, r.offset));
    var once := SetWord(st.mem, at, LDR_PC);
    var twice := SetWord(once, at + 4, p.value);
    WordAtSame(st.mem, at, LDR_PC);
    WordAtOther(once, at + 4, p.value, at);
    WordAtSame(once, at + 4, p.value);
    WordAtOther(twice, r.offset, p.word, at);
    WordAtOther(twice, r.offset, p.word, at + 4);
  }

  lemma LeavesVeneer(lib: Library, st: State, r: Rel, offset: nat)
    requires Fits(lib, st, 0) && WellFormed(lib, r) && Step(lib, st, r).Done?
    requires lib.space <= offset && offset + 4 <= VeneerOffset(lib, st.veneers) && offset + 4 <= |st.mem|
    ensures WordAt(Step(lib, st, r).state.mem, offset) == WordAt(st.mem, offset)
  {
    hide Step, WordOf;
    StepChanges(lib, st, r, offset);
    StepChanges(lib, st, r, offset + 1);
    StepChanges(lib, st, r, offset + 2);
    StepChanges(lib, st, r, offset + 3);
  }

  // ----- what the patched code does

  // The instruction that relocation i leaves at its place, in the final image.
  function FinalWord(lib: Library, st: State, rels: seq<Rel>, i: nat): Word
    requires Fits(lib, st, 0) && AllWellFormed(lib, rels) && lib.space <= |st.mem| && i < |rels| &&
      Run(lib, st, rels).Done?
  {
    WordAt(Run(lib, st, rels).state.mem, rels[i].offset)
  }

  predicate Externally(lib: Library, st: State, rels: seq<Rel>, i: nat, kind: nat, value: Word)
    requires Fits(lib, st, 0) && AllWellFormed(lib, rels) && i < |rels|
  {
    && Type(rels[i]) == kind && IsExternal(lib.attributes[Symbol(rels[i])])
    && ValueFor(lib, st.values, rels, i) == Some(value)
  }

  // The relocation was applied with the value that it has from outside.
  lemma AppliedWith(lib: Library, st: State, rels: seq<Rel>, i: nat)
    requires Fits(lib, st, 0) && AllWellFormed(lib, rels) && i < |rels| && Run(lib, st, rels).Done?
    ensures Symbol(rels[i]) < |Before(lib, st, rels, i).values|
    ensures Resolved(lib, Before(lib, st, rels, i).values, Symbol(rels[i])) == ValueFor(lib, st.values, rels, i)
  {
    hide Run, Before, Resolved, ValueFor;
    if Run(lib, st, rels[..i]).Failed? {
      RunFails(lib, st, rels, i);
    }
    SymbolIsResolved(lib, st, rels, i);
  }

  // A Thumb call to an external symbol, in the final image: it reaches the symbol in its state.
  lemma ThumbCallsReach(lib: Library, st: State, rels: seq<Rel>, i: nat, value: Word)
    requires Fits(lib, st, |rels|) && AllWellFormed(lib, rels) && DisjointSites(rels)
    requires Run(lib, st, rels).Done? && i < |rels| && lib.space <= |st.mem|
    requires Externally(lib, st, rels, i, R_ARM_THM_CALL, value)
    requires Low(lib.base, 4) == 0 && Low(rels[i].offset, 2) == 0
    ensures DecodeThumb(FinalWord(lib, st, rels, i), lib.base + rels[i].offset)
         == Jumps(Branch(Entry(value), IsThumb(value), true, true))
       <==> IsThumb(value) || Low(value, 4) == 0
  {
    hide Run, Before, ThumbCall, DecodeThumb, IsThumb, Entry, Resolved, ValueFor, WordAt;
    EachPlaceIsRelocated(lib, st, rels, i);
    AppliedWith(lib, st, rels, i);
    var site := lib.base + rels[i].offset;
    LowIs(site, TWO32, 0, site);
    EvenSum(lib.base, rels[i].offset);
    ThumbCallReaches(value, site);
  }

  lemma EvenSum(a: int, b: int)
    requires Low(a, 4) == 0 && Low(b, 2) == 0
    ensures Low(a + b, 2) == 0
  {
    assert a == 4 * (a / 4) && b == 2 * (b / 2);
    LowIs(a + b, 2, 2 * (a / 4) + b / 2, 0);
  }

  lemma WordSum(a: int, b: int)
    requires Low(a, 4) == 0 && Low(b, 4) == 0
    ensures Low(a + b, 4) == 0
  {
    assert a == 4 * (a / 4) && b == 4 * (b / 4);
    LowIs(a + b, 4, a / 4 + b / 4, 0);
  }

  // An ARM call (a BL or a BLX in the file) to an external symbol, in the final image.
  lemma ArmCallsReach(lib: Library, st: State, rels: seq<Rel>, i: nat, value: Word)
    requires Fits(lib, st, |rels|) && AllWellFormed(lib, rels) && DisjointSites(rels)
    requires Run(lib, st, rels).Done? && i < |rels| && lib.space <= |st.mem|
    requires Externally(lib, st, rels, i, R_ARM_CALL, value)
    requires Low(lib.base, 4) == 0 && Low(rels[i].offset, 4) == 0
    requires var insn := WordAt(st.mem, rels[i].offset);
      IsArmBranch(insn) && (Condition(insn) != UNCONDITIONAL ==> Bit24(insn) == 1)
    ensures var insn := WordAt(st.mem, rels[i].offset); var always := Condition(insn) >= ALWAYS;
      DecodeArm(FinalWord(lib, st, rels, i), lib.base + rels[i].offset)
      == Jumps(Branch(Entry(value), IsThumb(value), always, true))
      <==> if IsThumb(value) then always else Low(value, 4) == 0 && Condition(insn) != UNCONDITIONAL
  {
    hide Run, Before, ArmCall, DecodeArm, IsThumb, Entry, Resolved, ValueFor, WordAt, IsArmBranch, Bit24, Condition;
    EachPlaceIsRelocated(lib, st, rels, i);
    AppliedWith(lib, st, rels, i);
    var site := lib.base + rels[i].offset;
    LowIs(site, TWO32, 0, site);
    WordSum(lib.base, rels[i].offset);
    ArmCallReaches(WordAt(st.mem, rels[i].offset), value, site);
  }

  // A jump to an external symbol in ARM code, in the final image.
  lemma JumpsToArmReach(lib: Library, st: State, rels: seq<Rel>, i: nat, value: Word)
    requires Fits(lib, st, |rels|) && AllWellFormed(lib, rels) && DisjointSites(rels)
    requires Run(lib, st, rels).Done? && i < |rels| && lib.space <= |st.mem|
    requires Externally(lib, st, rels, i, R_ARM_JUMP24, value) && !IsThumb(value)
    requires Low(lib.base, 4) == 0 && Low(rels[i].offset, 4) == 0
    requires var insn := WordAt(st.mem, rels[i].offset); IsArmBranch(insn) && Condition(insn) != UNCONDITIONAL
    ensures var insn := WordAt(st.mem, rels[i].offset);
      DecodeArm(FinalWord(lib, st, rels, i), lib.base + rels[i].offset)
      == Jumps(Branch(value, false, Condition(insn) == ALWAYS, Bit24(insn) == 1))
      <==> Low(value, 4) == 0
  {
    hide Run, Before, ArmJump, DecodeArm, Resolved, ValueFor, WordAt, IsArmBranch, Bit24, Condition, ThumbCall, ArmCall;
    EachPlaceIsRelocated(lib, st, rels, i);
    AppliedWith(lib, st, rels, i);
    var site := lib.base + rels[i].offset;
    LowIs(site, TWO32, 0, site);
    WordSum(lib.base, rels[i].offset);
    ArmJumpReaches(WordAt(st.mem, rels[i].offset), value, site);
  }

  // A branch to a symbol of the library itself, in the final image: it reaches the same place of the
  // library as in the file, where the library begins at address 0.
  lemma InternalBranchesReach(lib: Library, st: State, rels: seq<Rel>, i: nat)
    requires Fits(lib, st, |rels|) && AllWellFormed(lib, rels) && DisjointSites(rels)
    requires Run(lib, st, rels).Done? && i < |rels| && lib.space <= |st.mem| && Low(lib.base, 4) == 0
    requires Type(rels[i]) in {R_ARM_THM_CALL, R_ARM_CALL, R_ARM_JUMP24}
    requires !IsExternal(lib.attributes[Symbol(rels[i])])
    ensures var insn, offset, site := WordAt(st.mem, rels[i].offset), rels[i].offset, lib.base + rels[i].offset;
      && FinalWord(lib, st, rels, i) == insn
      && IsMoved(DecodeArm(insn, offset), DecodeArm(insn, site), lib.base)
      && IsMoved(DecodeThumb(insn, offset), DecodeThumb(insn, site), lib.base)
  {
    hide Run, Before, ThumbCall, ArmCall, ArmJump, Resolved, ValueFor, WordAt, DecodeArm, DecodeThumb;
    EachPlaceIsRelocated(lib, st, rels, i);
    AppliedWith(lib, st, rels, i);
    BranchMovesWithCode(WordAt(st.mem, rels[i].offset), rels[i].offset, lib.base);
  }

  // The words of data, in the final image: a pointer into the library is moved with it, a pointer
  // to an external symbol is its value, and a TLS offset is past the control block.
  lemma DataIsRelocated(lib: Library, st: State, rels: seq<Rel>, i: nat, value: Word)
    requires Fits(lib, st, |rels|) && AllWellFormed(lib, rels) && DisjointSites(rels)
    requires Run(lib, st, rels).Done? && i < |rels| && lib.space <= |st.mem|
    requires ValueFor(lib, st.values, rels, i) == Some(value)
    ensures Type(rels[i]) in {R_ARM_ABS32, R_ARM_TARGET1} ==>
      FinalWord(lib, st, rels, i) == if IsExternal(lib.attributes[Symbol(rels[i])]) then value
                                     else Low(WordAt(st.mem, rels[i].offset) + lib.base, TWO32)
    ensures Type(rels[i]) == R_ARM_TLS_LE32 ==> FinalWord(lib, st, rels, i) == Low(value + TCB_SIZE, TWO32)
    ensures Type(rels[i]) == R_ARM_V4BX ==> FinalWord(lib, st, rels, i) == WordAt(st.mem, rels[i].offset)
  {
    hide Run, Before, ThumbCall, ArmCall, ArmJump, Resolved, ValueFor, WordAt;
    EachPlaceIsRelocated(lib, st, rels, i);
    AppliedWith(lib, st, rels, i);
  }

  // A jump to an external symbol in Thumb code, in the final image: the branch reaches a veneer,
  // with its condition and link bit as they were, and the veneer loads the value of the symbol into
  // pc. This holds exactly when the address space of the library ends at a word address.
  lemma JumpsToThumbReach(lib: Library, st: State, rels: seq<Rel>, i: nat, value: Word)
    requires Fits(lib, st, |rels|) && st.veneers == 0 && AllWellFormed(lib, rels) && DisjointSites(rels)
    requires Run(lib, st, rels).Done? && i < |rels| && lib.space <= |st.mem|
    requires Externally(lib, st, rels, i, R_ARM_JUMP24, value) && IsThumb(value)
    requires Low(lib.base, 4) == 0 && Low(rels[i].offset, 4) == 0
    requires var insn := WordAt(st.mem, rels[i].offset); IsArmBranch(insn) && Condition(insn) != UNCONDITIONAL
    ensures var insn := WordAt(st.mem, rels[i].offset);
      var at := VeneerOffset(lib, Before(lib, st, rels, i).veneers); var mem := Run(lib, st, rels).state.mem;
      && lib.space <= at && at + VENEER_SIZE <= |mem|
      && (DecodeArm(FinalWord(lib, st, rels, i), lib.base + rels[i].offset)
          == Jumps(Branch(lib.base + at, false, Condition(insn) == ALWAYS, Bit24(insn) == 1))
          <==> Low(lib.space, 4) == 0)
      && WordAt(mem, at) == LDR_PC && WordAt(mem, at + 4) == value
      && (Low(lib.space, 4) == 0 ==> LoadsPcFrom(WordAt(mem, at), lib.base + at) == lib.base + (at + 4))
  {
    hide Run, Before, ArmJump, DecodeArm, Resolved, ValueFor, WordAt, IsArmBranch, Bit24, Condition, LoadsPcFrom;
    EachPlaceIsRelocated(lib, st, rels, i);
    AppliedWith(lib, st, rels, i);
    VeneersStay(lib, st, rels, i);
    var site, at := lib.base + rels[i].offset, VeneerOffset(lib, Before(lib, st, rels, i).veneers);
    LowIs(site, TWO32, 0, site);
    LowIs(lib.base + at, TWO32, 0, lib.base + at);
    WordSum(lib.base, rels[i].offset);
    VeneerIsAligned(lib, Before(lib, st, rels, i).veneers);
    ArmJumpReaches(WordAt(st.mem, rels[i].offset), lib.base + at, site);
    if Low(lib.space, 4) == 0 {
      VeneerLoads(lib.base + at);
    }
  }

  // A library of one instruction, a B (0xEA00_0000), that ends two bytes behind it.
  const CROOKED := Library(MAIN_RAM, 6, [2], None)

  const CROOKED_IMAGE: seq<Byte> := [0, 0, 0, 0xEA, 0, 0, 0, 0, 0, 0, 0, 0, 0, 0]

  const CROOKED_JUMP := [Rel(0, R_ARM_JUMP24)]

  // Its jump to a Thumb symbol is accepted, but does not reach the veneer.
  lemma CrookedJumpMisses(value: Word)
    requires IsThumb(value)
    ensures var st := State(CROOKED_IMAGE, [value], 0);
      Run(CROOKED, st, CROOKED_JUMP).Done? &&
      DecodeArm(FinalWord(CROOKED, st, CROOKED_JUMP, 0), MAIN_RAM) != Jumps(Branch(MAIN_RAM + 6, false, true, false))
  {
    hide SetWord, DecodeArm, LoadsPcFrom;
    var st, insn := State(CROOKED_IMAGE, [value], 0), 0xEA00_0000;
    assert CROOKED_JUMP[..0] == [] && WordAt(st.mem, 0) == insn;
    assert IsExternal(2) && Low(MAIN_RAM, TWO32) == MAIN_RAM && Low(MAIN_RAM + 6, TWO32) == MAIN_RAM + 6;
    assert Run(CROOKED, st, CROOKED_JUMP) == Step(CROOKED, st, CROOKED_JUMP[0]);
    JumpsToThumbReach(CROOKED, st, CROOKED_JUMP, 0, value);
  }

  lemma VeneerIsAligned(lib: Library, veneers: nat)
    requires Low(lib.base, 4) == 0
    ensures Low(lib.base + VeneerOffset(lib, veneers), 4) == 0 <==> Low(lib.space, 4) == 0
  {
    var k, r := lib.base / 4 + 2 * veneers + lib.space / 4, Low(lib.space, 4);
    assert lib.base == 4 * (lib.base / 4) && lib.space == 4 * (lib.space / 4) + r;
    LowIs(lib.base + VeneerOffset(lib, veneers), 4, k, r);
  }
}
