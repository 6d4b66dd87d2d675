// The bytes of a data message: fifoSendDatamsg packs them into words, fifoGetDatamsg takes them
// out again, low byte first.

module FifoBytes {
  import opened FifoWire
  import opened Words

  // A word after j shifts right by 8 bits.
  function Shifted(w: Word, j: nat): Word {
    if j == 0 then w else Shifted(w, j - 1) / 256
  }

  function Bytes(words: seq<Word>): seq<Byte> {
    if words == [] then [] else WordBytes(words[0]) + Bytes(words[1..])
  }

  // The byte at index i, or the zero that fills up the last word.
  function At(bytes: seq<Byte>, i: nat): Byte {
    if i < |bytes| then bytes[i] else 0
  }

  // memcpy of the bytes into words, after the last word was cleared.
  function Packed(bytes: seq<Byte>): (ws: seq<Word>)
    ensures |ws| == WordCount(|bytes|)
  {
    seq(WordCount(|bytes|), i requires 0 <= i =>
      WordOf(At(bytes, 4 * i), At(bytes, 4 * i + 1), At(bytes, 4 * i + 2), At(bytes, 4 * i + 3)))
  }

  function Clamp(n: int, top: nat): nat {
    if n < 0 then 0 else if n > top then top else n
  }

  // As many bytes of the words as fit a buffer of n.
  predicate IsCopy(words: seq<Word>, n: int, bytes: seq<Byte>) {
    |Bytes(words)| == 4 * |words| && bytes == Bytes(words)[..Clamp(n, 4 * |words|)]
  }

  lemma CopyLength(words: seq<Word>, n: int, bytes: seq<Byte>)
    requires IsCopy(words, n, bytes)
    ensures |bytes| == Clamp(n, 4 * |words|)
  {
  }

  lemma {:induction false} BytesLength(words: seq<Word>)
    ensures |Bytes(words)| == 4 * |words|
  {
    if words != [] {
      BytesLength(words[1..]);
    }
  }

  lemma {:induction false} BytesConcat(a: seq<Word>, b: seq<Word>)
    ensures Bytes(a + b) == Bytes(a) + Bytes(b)
  {
    if a == [] {
      assert a + b == b;
    } else {
      assert (a + b)[1..] == a[1..] + b;
      BytesConcat(a[1..], b);
    }
  }

  lemma {:induction false} BytesAt(words: seq<Word>, i: nat)
    requires i < 4 * |words|
    ensures |Bytes(words)| == 4 * |words| && Bytes(words)[i] == WordBytes(words[i / 4])[i % 4]
  {
    BytesLength(words);
    if i >= 4 {
      BytesAt(words[1..], i - 4);
    }
  }

  lemma ByteOfWords(bytes: seq<Byte>, i: nat)
    requires i < 4 * WordCount(|bytes|)
    ensures |Bytes(Packed(bytes))| == 4 * WordCount(|bytes|) && Bytes(Packed(bytes))[i] == At(bytes, i)
  {
    hide Bytes, WordBytes, WordOf, At;
    BytesAt(Packed(bytes), i);
    var k := i / 4;
    WordBytesUndo(At(bytes, 4 * k), At(bytes, 4 * k + 1), At(bytes, 4 * k + 2), At(bytes, 4 * k + 3));
    assert i % 4 == i - 4 * k;
  }

  // Every byte that was sent comes out again, and then zeros up to a whole number of words.
  lemma BytesOfWords(bytes: seq<Byte>)
    ensures |Bytes(Packed(bytes))| == 4 * WordCount(|bytes|)
    ensures Bytes(Packed(bytes))[..|bytes|] == bytes
    ensures forall i {:trigger Bytes(Packed(bytes))[i]} :: |bytes| <= i < 4 * WordCount(|bytes|) ==>
      Bytes(Packed(bytes))[i] == 0
  {
    hide Bytes, Packed;
    BytesLength(Packed(bytes));
    forall i | 0 <= i < 4 * WordCount(|bytes|) ensures Bytes(Packed(bytes))[i] == At(bytes, i) {
      ByteOfWords(bytes, i);
    }
  }

  // The inner loop of fifoGetDatamsg: the bytes of one word, as long as there is room for them.
  method CopyWord(word: Word, room: int) returns (bytes: seq<Byte>)
    ensures bytes == WordBytes(word)[..Clamp(room, 4)]
  {
    bytes := [];
    var data := word;
    var j := 0;
    while j < 4
      invariant 0 <= j <= 4
      invariant bytes == WordBytes(word)[..Clamp(room, j)]
      invariant j <= room ==> data == Shifted(word, j)
    {
      ShiftedIs(word, j);
      if |bytes| < room {
        bytes := bytes + [data % 256];
        data := data / 256;
      }
      j := j + 1;
    }
  }

  lemma ShiftedIs(w: Word, j: nat)
    requires j < 4
    ensures Shifted(w, j) % 256 == WordBytes(w)[j]
  {
    assert Shifted(w, 1) == Shifted(w, 0) / 256 == w / 0x100;
    assert Shifted(w, 2) == Shifted(w, 1) / 256 == w / 0x1_0000;
    assert Shifted(w, 3) == Shifted(w, 2) / 256 == w / 0x100_0000;
    assert w / 0x100_0000 < 256;
  }

  // What the bytes of one more word add to what was copied.
  lemma CopyStep(words: seq<Word>, i: nat, room: int)
    requires i < |words|
    ensures |Bytes(words[..i])| == 4 * i && |Bytes(words[..i + 1])| == 4 * (i + 1)
    ensures var done := Bytes(words[..i])[..Clamp(room, 4 * i)];
      done + WordBytes(words[i])[..Clamp(room - |done|, 4)] == Bytes(words[..i + 1])[..Clamp(room, 4 * (i + 1))]
  {
    BytesLength(words[..i]);
    BytesLength(words[..i + 1]);
    assert words[..i + 1] == words[..i] + [words[i]];
    BytesConcat(words[..i], [words[i]]);
    assert Bytes([words[i]]) == WordBytes(words[i]) + [] == WordBytes(words[i]);
  }
}
