/** The palette codec of a chunk section (src/world/mod.rs): a section's 4096 blocks are
    written as a palette of the distinct blocks, Air first, and a run of 64-bit words
    into which the palette indices are packed at a fixed width, never splitting an index
    across two words. Words are modelled by their unsigned bit pattern (the source stores
    them as `i64` and reads them back `as u64`), and bit operations by the arithmetic
    they amount to on non-negative integers. */
module Palette {

  import opened Common
  import opened WorldBlock

  /** Blocks in a section (16 * 16 * 16). */
  const SectionVolume: nat := 4096

  /** Bits in a packed word. */
  const WordBits: nat := 64

  /** 2^64: every word is below it. */
  const WordLimit: nat := 0x1_0000_0000_0000_0000

  // ---------------------------------------------------------------------------------------
  // Bit arithmetic, on the unsigned value of a word

  function Pow2(n: nat): (r: nat)
    ensures r >= 1
  {
    if n == 0 then 1 else 2 * Pow2(n - 1)
  }

  lemma {:induction false} Pow2Monotone(a: nat, b: nat)
    requires a <= b
    ensures Pow2(a) <= Pow2(b)
    decreases b
  {
    if a < b {
      Pow2Monotone(a, b - 1);
    }
  }

  lemma {:induction false} Pow2Add(a: nat, b: nat)
    ensures Pow2(a + b) == Pow2(a) * Pow2(b)
    decreases b
  {
    if b > 0 {
      Pow2Add(a, b - 1);
    }
  }

  lemma Pow2Of64()
    ensures Pow2(WordBits) == WordLimit
  {
    Pow2Add(32, 32);
    Pow2Of32();
  }

  lemma Pow2Of32()
    ensures Pow2(32) == 0x1_0000_0000
  {
    Pow2Add(16, 16);
    Pow2Of16();
  }

  lemma Pow2Of16()
    ensures Pow2(16) == 0x1_0000
  {
    Pow2Add(8, 8);
    assert Pow2(8) == 256;
  }

  /** `x << s`. */
  function Shl(x: nat, s: nat): nat {
    if s == 0 then x else 2 * Shl(x, s - 1)
  }

  /** `w >> s`. */
  function Shr(w: nat, s: nat): nat {
    if s == 0 then w else Shr(w / 2, s - 1)
  }

  /** `w % (1 << b)`: the low `b` bits of `w`. */
  function Low(w: nat, b: nat): (r: nat)
    ensures r < Pow2(b)
  {
    if b == 0 then 0 else w % 2 + 2 * Low(w / 2, b - 1)
  }

  /** `a | b`, bit by bit from the least significant end. */
  function BitOr(a: nat, b: nat): nat
    decreases a + b
  {
    if a == 0 then b
    else if b == 0 then a
    else (if a % 2 == 1 || b % 2 == 1 then 1 else 0) + 2 * BitOr(a / 2, b / 2)
  }

  /** `a | (x << s)` when `a` only has bits below `s`: the two do not overlap, so the or
      is an addition. */
  lemma {:induction false} BitOrShifted(a: nat, x: nat, s: nat)
    requires a < Pow2(s)
    ensures BitOr(a, Shl(x, s)) == a + Shl(x, s)
    decreases s
  {
    if s > 0 && a != 0 && Shl(x, s) != 0 {
      BitOrShifted(a / 2, x, s - 1);
    }
  }

  /** Shifting right by `t` past an addend shifted left by `s >= t`. */
  lemma {:induction false} ShrOfShifted(w: nat, x: nat, s: nat, t: nat)
    requires t <= s
    ensures Shr(w + Shl(x, s), t) == Shr(w, t) + Shl(x, s - t)
    decreases t
  {
    if t > 0 {
      assert (w + Shl(x, s)) / 2 == w / 2 + Shl(x, s - 1);
      ShrOfShifted(w / 2, x, s - 1, t - 1);
    }
  }

  /** A value below 2^s has nothing left after shifting right by `s`. */
  lemma {:induction false} ShrOfSmall(w: nat, s: nat)
    requires w < Pow2(s)
    ensures Shr(w, s) == 0
    decreases s
  {
    if s > 0 {
      ShrOfSmall(w / 2, s - 1);
    }
  }

  /** The low bits of a value that fits in them are the value. */
  lemma {:induction false} LowOfSmall(x: nat, b: nat)
    requires x < Pow2(b)
    ensures Low(x, b) == x
    decreases b
  {
    if b > 0 {
      LowOfSmall(x / 2, b - 1);
    }
  }

  /** Adding a multiple of 2^e with `e >= b` leaves the low `b` bits alone. */
  lemma {:induction false} LowOfShifted(c: nat, y: nat, e: nat, b: nat)
    requires b <= e
    ensures Low(c + Shl(y, e), b) == Low(c, b)
    decreases b
  {
    if b > 0 {
      assert (c + Shl(y, e)) % 2 == c % 2 && (c + Shl(y, e)) / 2 == c / 2 + Shl(y, e - 1);
      LowOfShifted(c / 2, y, e - 1, b - 1);
    }
  }

  /** Placing a `b`-bit field at bit `s` above a value below 2^s stays below 2^(s + b). */
  lemma {:induction false} FieldBound(w: nat, x: nat, s: nat, b: nat)
    requires w < Pow2(s) && x < Pow2(b)
    ensures w + Shl(x, s) < Pow2(s + b)
    decreases s
  {
    if s > 0 {
      FieldBound(w / 2, x, s - 1, b);
    }
  }

  /** The field `x` just placed at bit `s` reads back. */
  lemma FieldPlaced(w: nat, x: nat, s: nat, b: nat)
    requires w < Pow2(s) && x < Pow2(b)
    ensures Low(Shr(w + Shl(x, s), s), b) == x
  {
    ShrOfShifted(w, x, s, s);
    ShrOfSmall(w, s);
    LowOfSmall(x, b);
  }

  /** A field lying wholly below bit `s` is not disturbed by a field placed at `s`. */
  lemma FieldKept(w: nat, x: nat, s: nat, t: nat, b: nat)
    requires t + b <= s
    ensures Low(Shr(w + Shl(x, s), t), b) == Low(Shr(w, t), b)
  {
    ShrOfShifted(w, x, s, t);
    LowOfShifted(Shr(w, t), x, s - t, b);
  }

  // ---------------------------------------------------------------------------------------
  // Index width

  /** The least width from `b` upwards that addresses `len` entries. */
  function BitsFrom(len: nat, b: nat): nat
    decreases len - Pow2(b)
  {
    if len <= Pow2(b) then b else BitsFrom(len, b + 1)
  }

  /** The index width for a palette of `len` entries. */
  function BitsFor(len: nat): nat {
    BitsFrom(len, 4)
  }

  lemma {:induction false} BitsFromLeast(len: nat, b: nat)
    ensures BitsFrom(len, b) >= b && len <= Pow2(BitsFrom(len, b))
    ensures BitsFrom(len, b) > b ==> Pow2(BitsFrom(len, b) - 1) < len
    decreases len - Pow2(b)
  {
    if len > Pow2(b) {
      BitsFromLeast(len, b + 1);
    }
  }

  /** `bits_per_index` yields the least width of at least 4 bits such that the palette
      length is at most 2^width. */
  lemma BitsForLeast(len: nat)
    ensures BitsFor(len) >= 4 && len <= Pow2(BitsFor(len))
    ensures forall b :: 4 <= b < BitsFor(len) ==> Pow2(b) < len
  {
    BitsFromLeast(len, 4);
    forall b | 4 <= b < BitsFor(len)
      ensures Pow2(b) < len
    {
      Pow2Monotone(b, BitsFor(len) - 1);
    }
  }

  /** `bits_per_index`: counts up from 4 until `palette_len <= 1 << bits`. */
  method BitsPerIndex(paletteLen: nat) returns (bits: nat)
    ensures bits == BitsFor(paletteLen)
  {
    bits := 4;
    while paletteLen > Pow2(bits)
      invariant BitsFrom(paletteLen, bits) == BitsFor(paletteLen)
      decreases paletteLen - Pow2(bits)
    {
      bits := bits + 1;
    }
  }

  // ---------------------------------------------------------------------------------------
  // Palette

  /** The distinct elements of `s` in order of first occurrence. */
  function Dedup(s: seq<Block>): (d: seq<Block>)
    ensures forall x :: x in d <==> x in s
  {
    if s == [] then []
    else
      var init := Dedup(s[..|s| - 1]);
      if s[|s| - 1] in init then init else init + [s[|s| - 1]]
  }

  predicate Distinct(d: seq<Block>) {
    forall i, j :: 0 <= i < j < |d| ==> d[i] != d[j]
  }

  /** Index of the first occurrence of `x` in `s`. */
  function FirstIndex(s: seq<Block>, x: Block): (i: nat)
    requires x in s
    ensures i < |s| && s[i] == x && x !in s[..i]
  {
    if s[0] == x then 0 else 1 + FirstIndex(s[1..], x)
  }

  lemma FirstIndexOfPrefix(s: seq<Block>, n: nat, x: Block)
    requires n <= |s| && x in s[..n]
    ensures FirstIndex(s, x) == FirstIndex(s[..n], x)
  {
    var i := FirstIndex(s[..n], x);
    assert s[..n][..i] == s[..i];
  }

  /** The palette order is the order of first occurrence, and no block appears twice. */
  lemma {:induction false} DedupOrder(s: seq<Block>)
    ensures Distinct(Dedup(s))
    ensures forall i, j :: 0 <= i < j < |Dedup(s)| ==> FirstIndex(s, Dedup(s)[i]) < FirstIndex(s, Dedup(s)[j])
  {
    if s != [] {
      var n := |s| - 1;
      var init := Dedup(s[..n]);
      DedupOrder(s[..n]);
      forall x | x in init
        ensures FirstIndex(s, x) == FirstIndex(s[..n], x)
      {
        FirstIndexOfPrefix(s, n, x);
      }
      if s[n] !in init {
        assert s[n] !in s[..n];
        assert FirstIndex(s, s[n]) == n;
      }
    }
  }

  /** Builds the palette of a section: Air, then each block the first time it is met. The
      map sends each palette entry to its index. */
  method BuildPalette(blocks: seq<Block>) returns (palette: seq<Block>, indices: map<Block, nat>)
    ensures palette == Dedup([Air] + blocks)
    ensures forall b :: b in indices <==> b in palette
    ensures forall i :: 0 <= i < |palette| ==> palette[i] in indices && indices[palette[i]] == i
    ensures forall b :: b in indices ==> indices[b] < |palette| && palette[indices[b]] == b
  {
    var all := [Air] + blocks;
    palette := [];
    indices := map[];
    for n := 0 to |all|
      invariant palette == Dedup(all[..n])
      invariant forall b :: b in indices <==> b in palette
      invariant forall i :: 0 <= i < |palette| ==> palette[i] in indices && indices[palette[i]] == i
      invariant forall b :: b in indices ==> indices[b] < |palette| && palette[indices[b]] == b
    {
      assert all[..n + 1][..n] == all[..n];
      var block := all[n];
      if block !in indices {
        indices := indices[block := |palette|];
        palette := palette + [block];
      }
    }
    assert all[..|all|] == all;
  }

  /** Air is always index 0, and every block of the section has an index below the
      palette's length. */
  lemma PaletteShape(blocks: seq<Block>)
    ensures |Dedup([Air] + blocks)| >= 1 && Dedup([Air] + blocks)[0] == Air
    ensures |Dedup([Air] + blocks)| <= |blocks| + 1
    ensures Distinct(Dedup([Air] + blocks))
  {
    DedupPrefixHead([Air] + blocks);
    DedupLength([Air] + blocks);
    DedupOrder([Air] + blocks);
  }

  lemma {:induction false} DedupPrefixHead(s: seq<Block>)
    requires s != []
    ensures |Dedup(s)| >= 1 && Dedup(s)[0] == s[0]
  {
    if |s| > 1 {
      DedupPrefixHead(s[..|s| - 1]);
    }
  }

  lemma {:induction false} DedupLength(s: seq<Block>)
    ensures |Dedup(s)| <= |s|
  {
    if s != [] {
      DedupLength(s[..|s| - 1]);
    }
  }

  // ---------------------------------------------------------------------------------------
  // Packing

  /** Where the packing loops put block `i`: the word and the shift within it. Both loops
      start at word 0, shift 0, and after each block add `bits` to the shift, resetting it
      to 0 and moving to the next word when it passes `64 - bits`. */
  function Place(i: nat, bits: nat): (p: (nat, nat))
  {
    if i == 0 then (0, 0) else Step(Place(i - 1, bits), bits)
  }

  function Step(p: (nat, nat), bits: nat): (nat, nat) {
    if p.1 + bits > WordBits - bits then (p.0 + 1, 0) else (p.0, p.1 + bits)
  }

  /** The packed index of block `i`: the `bits`-wide field at its place. */
  function Field(words: seq<nat>, bits: nat, i: nat): nat
    requires Place(i, bits).0 < |words|
  {
    Low(Shr(words[Place(i, bits).0], Place(i, bits).1), bits)
  }

  /** No index straddles two words: every field ends by bit 64. */
  lemma {:induction false} PlaceFits(i: nat, bits: nat)
    requires 1 <= bits <= WordBits
    ensures Place(i, bits).1 + bits <= WordBits
  {
    if i > 0 {
      PlaceFits(i - 1, bits);
    }
  }

  /** Later blocks never go to an earlier word. */
  lemma {:induction false} PlaceMonotone(j: nat, i: nat, bits: nat)
    requires j <= i
    ensures Place(j, bits).0 <= Place(i, bits).0
    decreases i
  {
    if j < i {
      PlaceMonotone(j, i - 1, bits);
    }
  }

  /** Two blocks in the same word occupy disjoint fields, the earlier one lower. */
  lemma {:induction false} PlaceDisjoint(j: nat, i: nat, bits: nat)
    requires 1 <= bits && j < i && Place(j, bits).0 == Place(i, bits).0
    ensures Place(j, bits).1 + bits <= Place(i, bits).1
    decreases i
  {
    var prev := Place(i - 1, bits);
    PlaceMonotone(j, i - 1, bits);
    if prev.1 + bits <= WordBits - bits && j < i - 1 {
      PlaceDisjoint(j, i - 1, bits);
    }
  }

  /** `a * b`, by repeated addition. */
  function Times(a: nat, b: nat): nat {
    if a == 0 then 0 else Times(a - 1, b) + b
  }

  lemma {:induction false} TimesIsProduct(a: nat, b: nat)
    ensures Times(a, b) == a * b
  {
    if a > 0 {
      TimesIsProduct(a - 1, b);
    }
  }

  lemma {:induction false} TimesMonotone(a: nat, a': nat, b: nat)
    requires a <= a'
    ensures Times(a, b) <= Times(a', b)
    decreases a'
  {
    if a < a' {
      TimesMonotone(a, a' - 1, b);
    }
  }

  /** How many `bits`-wide fields fit in `room` bits. */
  function CountFit(room: nat, bits: nat): nat
    requires bits >= 1
    decreases room
  {
    if room < bits then 0 else 1 + CountFit(room - bits, bits)
  }

  lemma {:induction false} CountFitBounds(room: nat, bits: nat)
    requires bits >= 1
    ensures Times(CountFit(room, bits), bits) <= room < Times(CountFit(room, bits), bits) + bits
    decreases room
  {
    if room >= bits {
      CountFitBounds(room - bits, bits);
    }
  }

  /** Indices per word: as many whole fields as fit in 64 bits. */
  function PerWord(bits: nat): nat
    requires bits >= 1
  {
    CountFit(WordBits, bits)
  }

  /** Block `m` of word `q` sits at shift `m * bits`, for `m < PerWord(bits)`. */
  lemma {:induction false} PlaceInWord(q: nat, m: nat, bits: nat)
    requires 1 <= bits <= WordBits && m < PerWord(bits)
    ensures Place(Times(q, PerWord(bits)) + m, bits) == (q, Times(m, bits))
    decreases q, m
  {
    var k := PerWord(bits);
    CountFitBounds(WordBits, bits);
    if m > 0 {
      PlaceInWord(q, m - 1, bits);
      TimesMonotone(m + 1, k, bits);
    } else if q > 0 {
      PlaceInWord(q - 1, k - 1, bits);
    }
  }

  /** Words holding at least one index. */
  function NeededWords(bits: nat): nat {
    Place(SectionVolume, bits).0 + (if Place(SectionVolume, bits).1 == 0 then 0 else 1)
  }

  /** The number of words `save_chunk` writes: one to start, and one more after each reset
      except a reset after the last block when 64 is a multiple of the width. */
  function WrittenWords(bits: nat): nat
    requires 1 <= bits
  {
    Place(SectionVolume, bits).0
      + (if Place(SectionVolume, bits).1 == 0 && WordBits % bits == 0 then 0 else 1)
  }

  /** Words after `i` of the 4096 blocks: the current one is the last. At the end the last
      reset is followed by a fresh word only if `pushLast`. */
  function WordsAfter(i: nat, bits: nat, pushLast: bool): nat {
    if i == SectionVolume && Place(i, bits).1 == 0 && !pushLast then Place(i, bits).0
    else Place(i, bits).0 + 1
  }

  /** The palette index of each block. */
  function IndexSeq(blocks: seq<Block>, indices: map<Block, nat>): (r: seq<nat>)
    requires forall i :: 0 <= i < |blocks| ==> blocks[i] in indices
    ensures |r| == |blocks| && forall i :: 0 <= i < |blocks| ==> r[i] == indices[blocks[i]]
  {
    if blocks == [] then []
    else IndexSeq(blocks[..|blocks| - 1], indices) + [indices[blocks[|blocks| - 1]]]
  }

  /** The words once the first `i` indices of `idx` are packed. */
  function PackWords(idx: seq<nat>, bits: nat, i: nat, pushLast: bool): (w: seq<nat>)
    requires 1 <= bits && |idx| == SectionVolume && i <= |idx|
    ensures |w| == WordsAfter(i, bits, pushLast)
  {
    if i == 0 then [0]
    else PackNext(PackWords(idx, bits, i - 1, pushLast), idx, bits, i - 1, i < |idx| || pushLast)
  }

  /** One turn of the loop: index `i` is or-ed into the current word at the current
      shift, and after a reset a fresh word is pushed if `push`. */
  function PackNext(w: seq<nat>, idx: seq<nat>, bits: nat, i: nat, push: bool): seq<nat>
    requires i < |idx| && Place(i, bits).0 < |w|
  {
    var p := Place(i, bits);
    var w' := w[p.0 := BitOr(w[p.0], Shl(idx[i], p.1))];
    if p.1 + bits > WordBits - bits && push then w' + [0] else w'
  }

  /** Every index packed so far reads back. */
  ghost predicate ReadsBack(words: seq<nat>, idx: seq<nat>, bits: nat, i: nat)
    requires i <= |idx|
  {
    forall j :: 0 <= j < i ==> Place(j, bits).0 < |words| && Field(words, bits, j) == idx[j]
  }

  /** Every word is a 64-bit pattern. */
  ghost predicate WordsFit(words: seq<nat>) {
    forall j :: 0 <= j < |words| ==> words[j] < WordLimit
  }

  /** Nothing is set at or above the place of block `i`. */
  ghost predicate ClearFrom(words: seq<nat>, bits: nat, i: nat) {
    && (Place(i, bits).0 < |words| ==> words[Place(i, bits).0] < Pow2(Place(i, bits).1))
    && (forall j :: Place(i, bits).0 < j < |words| ==> words[j] == 0)
  }

  /** Adding a field at block `i`'s place keeps the fields of the earlier blocks. */
  lemma OrKeepsFields(words: seq<nat>, idx: seq<nat>, bits: nat, i: nat, x: nat)
    requires 1 <= bits && i < |idx| && Place(i, bits).0 < |words|
    requires ReadsBack(words, idx, bits, i)
    ensures ReadsBack(words[Place(i, bits).0 := words[Place(i, bits).0] + Shl(x, Place(i, bits).1)], idx, bits, i)
  {
    var p := Place(i, bits);
    var words' := words[p.0 := words[p.0] + Shl(x, p.1)];
    forall j | 0 <= j < i
      ensures Place(j, bits).0 < |words'| && Field(words', bits, j) == idx[j]
    {
      if Place(j, bits).0 == p.0 {
        PlaceDisjoint(j, i, bits);
        FieldKept(words[p.0], x, p.1, Place(j, bits).1, bits);
      }
    }
  }

  /** Or-ing block `i`'s index into its word: the index reads back, nothing earlier
      changes, and the word stays below bit `shift + bits`. */
  lemma PackStep(words: seq<nat>, idx: seq<nat>, bits: nat, i: nat)
    requires 1 <= bits <= WordBits && i < |idx| && idx[i] < Pow2(bits)
    requires Place(i, bits).0 < |words|
    requires ReadsBack(words, idx, bits, i) && WordsFit(words) && ClearFrom(words, bits, i)
    ensures var p := Place(i, bits);
      var words' := words[p.0 := BitOr(words[p.0], Shl(idx[i], p.1))];
      && ReadsBack(words', idx, bits, i + 1)
      && WordsFit(words')
      && words'[p.0] < Pow2(p.1 + bits)
      && (forall j :: p.0 < j < |words'| ==> words'[j] == 0)
  {
    var p := Place(i, bits);
    var w := words[p.0];
    PlaceFits(i, bits);
    OrInto(w, idx[i], p.1, bits);
    var v := BitOr(w, Shl(idx[i], p.1));
    var words' := words[p.0 := v];
    OrKeepsFields(words, idx, bits, i, idx[i]);
    assert Field(words', bits, i) == idx[i];
    ReadsBackNext(words', idx, bits, i);
    WordsFitUpdate(words, p.0, v);
  }

  /** Or-ing an index below `2^bits` into the free bits at `s` of a word adds it, keeps
      the word a 64-bit pattern below bit `s + bits`, and reads back. */
  lemma OrInto(w: nat, x: nat, s: nat, bits: nat)
    requires w < Pow2(s) && x < Pow2(bits) && s + bits <= WordBits
    ensures BitOr(w, Shl(x, s)) == w + Shl(x, s)
    ensures BitOr(w, Shl(x, s)) < Pow2(s + bits) && BitOr(w, Shl(x, s)) < WordLimit
    ensures Low(Shr(BitOr(w, Shl(x, s)), s), bits) == x
  {
    BitOrShifted(w, x, s);
    FieldBound(w, x, s, bits);
    Pow2Monotone(s + bits, WordBits);
    Pow2Of64();
    FieldPlaced(w, x, s, bits);
  }

  /** A field that reads back extends the run of those that do. */
  lemma ReadsBackNext(words: seq<nat>, idx: seq<nat>, bits: nat, i: nat)
    requires i < |idx| && ReadsBack(words, idx, bits, i)
    requires Place(i, bits).0 < |words| && Field(words, bits, i) == idx[i]
    ensures ReadsBack(words, idx, bits, i + 1)
  {
  }

  /** Storing a 64-bit pattern keeps every word a 64-bit pattern. */
  lemma WordsFitUpdate(words: seq<nat>, k: nat, v: nat)
    requires WordsFit(words) && k < |words| && v < WordLimit
    ensures WordsFit(words[k := v])
  {
  }

  /** The shift step after the or, without a fresh word. */
  lemma AdvanceInPlace(words: seq<nat>, idx: seq<nat>, bits: nat, i: nat)
    requires 1 <= bits && i < |idx| && Place(i, bits).0 == |words| - 1
    requires words[Place(i, bits).0] < Pow2(Place(i, bits).1 + bits)
    ensures ClearFrom(words, bits, i + 1)
  {
  }

  /** The shift step after the or, when the shift resets and a fresh word is pushed. */
  lemma AdvancePushed(words: seq<nat>, idx: seq<nat>, bits: nat, i: nat)
    requires 1 <= bits && i < |idx| && Place(i, bits).0 == |words| - 1
    requires Place(i, bits).1 + bits > WordBits - bits
    requires ReadsBack(words, idx, bits, i + 1) && WordsFit(words)
    ensures ReadsBack(words + [0], idx, bits, i + 1)
    ensures WordsFit(words + [0]) && ClearFrom(words + [0], bits, i + 1)
  {
    var words' := words + [0];
    forall j | 0 <= j < i + 1
      ensures Place(j, bits).0 < |words'| && Field(words', bits, j) == idx[j]
    {
      assert words'[Place(j, bits).0] == words[Place(j, bits).0];
    }
  }

  /** The state the packing loop keeps after `i` blocks: every index so far reads back,
      the words are 64-bit patterns, and nothing is set past the current place. */
  ghost predicate Packed(w: seq<nat>, idx: seq<nat>, bits: nat, i: nat)
    requires i <= |idx|
  {
    ReadsBack(w, idx, bits, i) && WordsFit(w) && ClearFrom(w, bits, i)
  }

  /** One turn of the loop keeps its state. */
  lemma PackNextPacked(w: seq<nat>, idx: seq<nat>, bits: nat, i: nat, push: bool)
    requires 1 <= bits <= WordBits && i < |idx| && idx[i] < Pow2(bits)
    requires Place(i, bits).0 == |w| - 1
    requires Packed(w, idx, bits, i)
    ensures Packed(PackNext(w, idx, bits, i, push), idx, bits, i + 1)
  {
    var p := Place(i, bits);
    PackStep(w, idx, bits, i);
    var w' := w[p.0 := BitOr(w[p.0], Shl(idx[i], p.1))];
    if p.1 + bits > WordBits - bits && push {
      AdvancePushed(w', idx, bits, i);
    } else {
      AdvanceInPlace(w', idx, bits, i);
    }
  }

  /** The packed words keep the loop's state. */
  lemma {:induction false} PackWordsPacked(idx: seq<nat>, bits: nat, i: nat, pushLast: bool)
    requires 1 <= bits <= WordBits && |idx| == SectionVolume && i <= |idx|
    requires forall j :: 0 <= j < |idx| ==> idx[j] < Pow2(bits)
    ensures Packed(PackWords(idx, bits, i, pushLast), idx, bits, i)
  {
    if i == 0 {
      assert Place(0, bits) == (0, 0);
    } else {
      var prev := PackWords(idx, bits, i - 1, pushLast);
      PackWordsPacked(idx, bits, i - 1, pushLast);
      assert |prev| == Place(i - 1, bits).0 + 1;
      PackNextPacked(prev, idx, bits, i - 1, i < |idx| || pushLast);
    }
  }

  /** Once all blocks are packed, the words past those holding an index are empty. */
  lemma PackedTail(idx: seq<nat>, bits: nat, pushLast: bool)
    requires 1 <= bits <= WordBits && |idx| == SectionVolume
    requires forall j :: 0 <= j < |idx| ==> idx[j] < Pow2(bits)
    ensures var w := PackWords(idx, bits, SectionVolume, pushLast);
      ReadsBack(w, idx, bits, SectionVolume) && WordsFit(w)
      && forall j :: NeededWords(bits) <= j < |w| ==> w[j] == 0
  {
    PackWordsPacked(idx, bits, SectionVolume, pushLast);
  }

  /** The packing loop of `save_chunk`, as written: block `i`'s palette index is or-ed
      into the current word at the current shift; when the shift passes `64 - bits` it
      resets, and a new word is pushed unless this was the last block and 64 is a
      multiple of the width. */
  method Pack(blocks: seq<Block>, indices: map<Block, nat>, bits: nat) returns (words: seq<nat>)
    requires 1 <= bits <= WordBits && |blocks| == SectionVolume
    requires forall i :: 0 <= i < |blocks| ==> blocks[i] in indices && indices[blocks[i]] < Pow2(bits)
    ensures words == PackWords(IndexSeq(blocks, indices), bits, SectionVolume, WordBits % bits != 0)
    ensures |words| == WrittenWords(bits)
    ensures forall i :: 0 <= i < SectionVolume ==>
      Place(i, bits).0 < |words| && Field(words, bits, i) == indices[blocks[i]]
    ensures forall j :: 0 <= j < |words| ==> words[j] < WordLimit
    ensures forall j :: NeededWords(bits) <= j < |words| ==> words[j] == 0
  {
    var idx := IndexSeq(blocks, indices);
    words := [0];
    var long := 0;
    var shift := 0;
    for i := 0 to SectionVolume
      invariant (long, shift) == Place(i, bits)
      invariant words == PackWords(idx, bits, i, WordBits % bits != 0)
    {
      words := words[long := BitOr(words[long], Shl(idx[i], shift))];
      shift := shift + bits;
      if shift > WordBits - bits {
        shift := 0;
        long := long + 1;
        if i < SectionVolume - 1 || WordBits % bits != 0 {
          words := words + [0];
        }
      }
    }
    PackedTail(idx, bits, WordBits % bits != 0);
  }

  /** The packing loop with the push condition as intended: a new word only when another
      block follows, so the data never ends with an empty word. */
  method PackIntended(blocks: seq<Block>, indices: map<Block, nat>, bits: nat) returns (words: seq<nat>)
    requires 1 <= bits <= WordBits && |blocks| == SectionVolume
    requires forall i :: 0 <= i < |blocks| ==> blocks[i] in indices && indices[blocks[i]] < Pow2(bits)
    ensures words == PackWords(IndexSeq(blocks, indices), bits, SectionVolume, false)
    ensures |words| == NeededWords(bits)
    ensures forall i :: 0 <= i < SectionVolume ==>
      Place(i, bits).0 < |words| && Field(words, bits, i) == indices[blocks[i]]
    ensures forall j :: 0 <= j < |words| ==> words[j] < WordLimit
  {
    var idx := IndexSeq(blocks, indices);
    words := [0];
    var long := 0;
    var shift := 0;
    for i := 0 to SectionVolume
      invariant (long, shift) == Place(i, bits)
      invariant words == PackWords(idx, bits, i, false)
    {
      words := words[long := BitOr(words[long], Shl(idx[i], shift))];
      shift := shift + bits;
      if shift > WordBits - bits {
        shift := 0;
        long := long + 1;
        if i < SectionVolume - 1 {
          words := words + [0];
        }
      }
    }
    PackedTail(idx, bits, false);
  }

  /** Where the loops stand after the 4096 blocks at each width a section can need: the
      written word count is the needed one, except at 13 bits (a palette of 4097 entries:
      Air and 4096 distinct other blocks), where the data ends with an empty word that the
      comment at the push says must not be written. */
  lemma TrailingEmptyWordAt13Bits()
    ensures BitsFor(SectionVolume + 1) == 13
    ensures NeededWords(13) == 1024 && WrittenWords(13) == 1025
    ensures forall bits :: 4 <= bits <= 12 ==> WrittenWords(bits) == NeededWords(bits)
  {
    WidthOfFullPalette();
    EndOfSection(13, 4, 1024, 0);
    forall bits | 4 <= bits <= 12
      ensures WrittenWords(bits) == NeededWords(bits)
    {
      NarrowerWidths(bits);
    }
  }

  /** Below 13 bits the section either ends inside a word or the width divides 64. */
  lemma NarrowerWidths(bits: nat)
    requires 4 <= bits <= 12
    ensures WrittenWords(bits) == NeededWords(bits)
  {
    if bits <= 6 {
      WidthsFourToSix(bits);
    } else if bits <= 9 {
      WidthsSevenToNine(bits);
    } else {
      WidthsTenToTwelve(bits);
    }
  }

  lemma WidthsFourToSix(bits: nat)
    requires 4 <= bits <= 6
    ensures WrittenWords(bits) == NeededWords(bits)
  {
    if bits == 4 { EndOfSection(4, 16, 256, 0); }
    else if bits == 5 { EndOfSection(5, 12, 341, 4); }
    else { EndOfSection(6, 10, 409, 6); }
  }

  lemma WidthsSevenToNine(bits: nat)
    requires 7 <= bits <= 9
    ensures WrittenWords(bits) == NeededWords(bits)
  {
    if bits == 7 { EndOfSection(7, 9, 455, 1); }
    else if bits == 8 { EndOfSection(8, 8, 512, 0); }
    else { EndOfSection(9, 7, 585, 1); }
  }

  lemma WidthsTenToTwelve(bits: nat)
    requires 10 <= bits <= 12
    ensures WrittenWords(bits) == NeededWords(bits)
  {
    if bits == 10 { EndOfSection(10, 6, 682, 4); }
    else if bits == 11 { EndOfSection(11, 5, 819, 1); }
    else { EndOfSection(12, 5, 819, 1); }
  }

  /** `k` fields of `bits` fit in a word, and no more. */
  lemma PerWordIs(bits: nat, k: nat)
    requires 1 <= bits && k * bits <= WordBits < k * bits + bits
    ensures PerWord(bits) == k
  {
    var c := PerWord(bits);
    CountFitBounds(WordBits, bits);
    TimesIsProduct(k, bits);
    if c < k {
      TimesMonotone(c + 1, k, bits);
    } else if c > k {
      TimesMonotone(k + 1, c, bits);
    }
  }

  /** The place after the last block, given 4096 = q * k + m with `k` fields per word. */
  lemma EndOfSection(bits: nat, k: nat, q: nat, m: nat)
    requires 1 <= bits <= WordBits && k * bits <= WordBits < k * bits + bits
    requires m < k && q * k + m == SectionVolume
    ensures Place(SectionVolume, bits) == (q, m * bits)
    ensures NeededWords(bits) == (if m == 0 then q else q + 1)
    ensures WrittenWords(bits) == (if m == 0 && WordBits % bits == 0 then q else q + 1)
  {
    PerWordIs(bits, k);
    TimesIsProduct(q, k);
    TimesIsProduct(m, bits);
    PlaceInWord(q, m, bits);
  }

  lemma WidthOfFullPalette()
    ensures BitsFor(SectionVolume + 1) == 13
  {
    var b := BitsFor(SectionVolume + 1);
    BitsForLeast(SectionVolume + 1);
    assert Pow2(12) == 4096;
    assert Pow2(13) == 8192;
    if b < 13 {
      Pow2Monotone(b, 12);
    }
  }

  // ---------------------------------------------------------------------------------------
  // Unpacking

  /** The first `n` blocks have their field in the data and name a palette entry. */
  ghost predicate Readable(palette: seq<Block>, words: seq<nat>, bits: nat, n: nat) {
    forall j :: 0 <= j < n ==> Place(j, bits).0 < |words| && Field(words, bits, j) < |palette|
  }

  /** The unpacking loop in `load_chunk`: block `i` is the palette entry at its packed index;
      the loop panics when the data runs out or an index is past the palette. */
  method Unpack(palette: seq<Block>, words: seq<nat>, bits: nat) returns (r: Result<seq<Block>>)
    ensures r.Ok? <==> Readable(palette, words, bits, SectionVolume)
    ensures r.Ok? ==> |r.value| == SectionVolume
    ensures r.Ok? ==> forall i :: 0 <= i < SectionVolume ==> r.value[i] == palette[Field(words, bits, i)]
  {
    var blocks: seq<Block> := [];
    var long := 0;
    var shift := 0;
    for i := 0 to SectionVolume
      invariant (long, shift) == Place(i, bits)
      invariant |blocks| == i
      invariant Readable(palette, words, bits, i)
      invariant forall j :: 0 <= j < i ==> blocks[j] == palette[Field(words, bits, j)]
    {
      if long >= |words| {
        assert !Readable(palette, words, bits, i + 1);
        return Panic("index out of bounds: packed block data");
      }
      var index := Low(Shr(words[long], shift), bits);
      assert index == Field(words, bits, i);
      if index >= |palette| {
        assert !Readable(palette, words, bits, i + 1);
        return Panic("index out of bounds: palette");
      }
      blocks := blocks + [palette[index]];
      shift := shift + bits;
      if shift > WordBits - bits {
        shift := 0;
        long := long + 1;
      }
    }
    r := Ok(blocks);
  }

  // ---------------------------------------------------------------------------------------
  // A section's round trip

  /** A section as written: its palette, the index width and the packed words. */
  datatype Encoded = Encoded(palette: seq<Block>, bits: nat, words: seq<nat>)

  /** Encodes a section's blocks the way `save_chunk` does, with its packing loop as
      written: at 13 bits the words end in one that holds no index. */
  method EncodeSection(blocks: seq<Block>) returns (e: Encoded)
    requires |blocks| == SectionVolume
    ensures e.palette == Dedup([Air] + blocks)
    ensures e.bits == BitsFor(|e.palette|) && 4 <= e.bits <= 13
    ensures |e.words| == WrittenWords(e.bits)
    ensures forall i :: 0 <= i < SectionVolume ==>
      && Place(i, e.bits).0 < |e.words|
      && Field(e.words, e.bits, i) < |e.palette|
      && e.palette[Field(e.words, e.bits, i)] == blocks[i]
  {
    var palette, indices := BuildPalette(blocks);
    DedupLength([Air] + blocks);
    var bits := BitsPerIndex(|palette|);
    BitsForLeast(|palette|);
    WidthAtMost13(|palette|);
    IndicesBelow(blocks, palette, indices, bits);
    var words := Pack(blocks, indices, bits);
    FieldsLookUp(blocks, palette, indices, words, bits);
    e := Encoded(palette, bits, words);
  }

  /** Each packed field, looked up in the palette, gives back its block. */
  lemma FieldsLookUp(blocks: seq<Block>, palette: seq<Block>, indices: map<Block, nat>, words: seq<nat>, bits: nat)
    requires |blocks| == SectionVolume
    requires forall b :: b in indices ==> indices[b] < |palette| && palette[indices[b]] == b
    requires forall i :: 0 <= i < |blocks| ==> blocks[i] in indices
    requires forall i :: 0 <= i < SectionVolume ==>
      Place(i, bits).0 < |words| && Field(words, bits, i) == indices[blocks[i]]
    ensures forall i :: 0 <= i < SectionVolume ==>
      && Place(i, bits).0 < |words|
      && Field(words, bits, i) < |palette|
      && palette[Field(words, bits, i)] == blocks[i]
  {
    forall i | 0 <= i < SectionVolume
      ensures Field(words, bits, i) < |palette| && palette[Field(words, bits, i)] == blocks[i]
    {
      assert Field(words, bits, i) == indices[blocks[i]];
    }
  }

  /** Every block of the section has an index, below `2^bits` once the palette fits. */
  lemma IndicesBelow(blocks: seq<Block>, palette: seq<Block>, indices: map<Block, nat>, bits: nat)
    requires forall b :: b in indices <==> b in Dedup([Air] + blocks)
    requires forall b :: b in indices ==> indices[b] < |palette|
    requires |palette| <= Pow2(bits)
    ensures forall i :: 0 <= i < |blocks| ==> blocks[i] in indices && indices[blocks[i]] < Pow2(bits)
  {
    forall i | 0 <= i < |blocks|
      ensures blocks[i] in indices
    {
      assert blocks[i] in [Air] + blocks;
    }
  }

  /** A palette of at most 4097 entries needs at most 13 bits. */
  lemma WidthAtMost13(len: nat)
    requires len <= SectionVolume + 1
    ensures BitsFor(len) <= 13
  {
    BitsForLeast(len);
    assert Pow2(13) == 8192;
  }

  /** `decode(encode(blocks)) == blocks`: unpacking the encoded words with the encoded
      palette gives back the section's blocks. */
  method SectionRoundTrip(blocks: seq<Block>) returns (decoded: Result<seq<Block>>)
    requires |blocks| == SectionVolume
    ensures decoded == Ok(blocks)
  {
    var e := EncodeSection(blocks);
    var bits := BitsPerIndex(|e.palette|);
    decoded := Unpack(e.palette, e.words, bits);
    assert decoded.Ok?;
    assert decoded.value == blocks;
  }
}
