/** MakeSequence: two counter samples expanded into 16 color codes.
    Bit i of each sample lands, bit-reversed, at index 15 - i; the two bit
    arrays are combined as a + 3 * b, so every code is 0, 1, 3 or 4. */
module SequenceBuilder {
  import opened Colors

  /** The bit pattern of a 16-bit word: TA1R and TA2R are 16-bit registers. */
  type Sample = x: int | 0 <= x < 0x1_0000

  /** The 16-bit word holding the value x. */
  function Word(x: int): (w: Sample)
    ensures (x - w) % 0x1_0000 == 0
  {
    x % 0x1_0000
  }

  /** x shifted right by k places, one halving at a time. Division rounds
      down, so for negative x this is the arithmetic shift `>>`. */
  function Shr(x: int, k: nat): (r: int)
    ensures x >= 0 ==> 0 <= r <= x
    ensures x < 0 ==> x <= r < 0
  {
    if k == 0 then x else Shr(x, k - 1) / 2
  }

  /** Bit i of x, `(x >> i) & 0x01`: the remainder is the lowest bit of the
      shifted value, also when it is negative. */
  function Bit(x: int, i: nat): (b: int)
    requires i < 16
    ensures b == 0 || b == 1
  {
    Shr(x, i) % 2
  }

  /** The sequence MakeSequence stores for the samples (first, second):
      element k combines bit 15 - k of each sample. */
  function Expand(first: int, second: int): (s: seq<int>)
    ensures |s| == 16
    ensures forall k :: 0 <= k < 16 ==> ValidCode(s[k])
  {
    seq(16, k requires 0 <= k < 16 => Bit(first, 15 - k) + 3 * Bit(second, 15 - k))
  }

  /** The colors of a built sequence; every element names one. */
  function ColorsOf(first: int, second: int): (cs: seq<Color>)
    ensures |cs| == 16
    ensures Codes(cs) == Expand(first, second)
  {
    var s := Expand(first, second);
    seq(16, k requires 0 <= k < 16 => ColorOf(s[k]).value)
  }

  /** Fills `sequence` in place. The first loop stores the bits of each sample
      bit-reversed into two scratch arrays, the second combines them. */
  method MakeSequence(sequence: array<int>, first: int, second: int)
    requires sequence.Length == 16
    modifies sequence
    ensures sequence[..] == Expand(first, second)
  {
    var firstArray := new int[16];
    var secondArray := new int[16];
    for i := 0 to 16
      invariant forall k :: 16 - i <= k < 16 ==>
        firstArray[k] == Bit(first, 15 - k) && secondArray[k] == Bit(second, 15 - k)
    {
      firstArray[15 - i] := Bit(first, i);
      secondArray[15 - i] := Bit(second, i);
    }
    for i := 0 to 16
      invariant forall k :: 0 <= k < 16 ==>
        firstArray[k] == Bit(first, 15 - k) && secondArray[k] == Bit(second, 15 - k)
      invariant forall k :: 0 <= k < i ==> sequence[k] == firstArray[k] + secondArray[k] * 3
    {
      sequence[i] := firstArray[i] + secondArray[i] * 3;
    }
  }

  /** Reads bits, most significant first, into a number. */
  function Pack(bits: seq<int>): (r: int)
    ensures 0 <= r <= AllOnes(|bits|)
  {
    if bits == [] then 0 else 2 * Pack(bits[..|bits| - 1]) + (if bits[|bits| - 1] == 1 then 1 else 0)
  }

  /** The samples a sequence was built from: a code c carries bit c % 3 of
      the first sample and bit c / 3 of the second. */
  function Recover(s: seq<int>): (r: (int, int))
    requires |s| == 16
    ensures 0 <= r.0 <= 0xFFFF && 0 <= r.1 <= 0xFFFF
  {
    AllOnesSixteen();
    (Pack(seq(16, k requires 0 <= k < 16 => s[k] % 3)),
     Pack(seq(16, k requires 0 <= k < 16 => s[k] / 3)))
  }

  /** The bits of x from bit 15 down to bit 16 - n. */
  function HighBits(x: Sample, n: nat): (bits: seq<int>)
    requires n <= 16
    ensures |bits| == n
  {
    seq(n, k requires 0 <= k < n => Bit(x, 15 - k))
  }

  /** 2^n - 1: n one bits. */
  function AllOnes(n: nat): nat
  {
    if n == 0 then 0 else 2 * AllOnes(n - 1) + 1
  }

  lemma AllOnesSixteen()
    ensures AllOnes(16) == 0xFFFF
  {
    assert AllOnes(4) == 0xF by {
      assert AllOnes(2) == 0x3;
    }
    assert AllOnes(8) == 0xFF by {
      assert AllOnes(6) == 0x3F;
    }
    assert AllOnes(12) == 0xFFF by {
      assert AllOnes(10) == 0x3FF;
    }
    assert AllOnes(14) == 0x3FFF;
  }

  /** Shifting n one bits right by k leaves n - k one bits. */
  lemma {:induction false} ShrAllOnes(n: nat, k: nat)
    requires k <= n
    ensures Shr(AllOnes(n), k) == AllOnes(n - k)
  {
    if k > 0 {
      ShrAllOnes(n, k - 1);
    }
  }

  /** Shifting is monotonic. */
  lemma {:induction false} ShrMonotonic(x: int, y: int, k: nat)
    requires 0 <= x <= y
    ensures 0 <= Shr(x, k) <= Shr(y, k)
  {
    if k > 0 {
      ShrMonotonic(x, y, k - 1);
    }
  }

  /** Every bit of a sample has been shifted out after 16 places. */
  lemma ShrSixteen(x: Sample)
    ensures Shr(x, 16) == 0
  {
    AllOnesSixteen();
    ShrAllOnes(16, 16);
    ShrMonotonic(x, 0xFFFF, 16);
  }

  /** 2^n, one more than n one bits, doubles with n. */
  lemma AllOnesStep(n: nat)
    requires n > 0
    ensures AllOnes(n) + 1 == 2 * (AllOnes(n - 1) + 1)
  {
  }

  /** Adding an even number keeps the lowest bit; halving then adds its half. */
  lemma EvenShift(a: int, m: int)
    ensures (a + 2 * m) % 2 == a % 2
    ensures (a + 2 * m) / 2 == a / 2 + m
  {
  }

  /** Adding 2^n to y adds 2^(n - i) to y shifted right by i <= n. */
  lemma {:induction false} ShrStep(y: int, n: nat, i: nat)
    requires i <= n
    ensures Shr(y + AllOnes(n) + 1, i) == Shr(y, i) + AllOnes(n - i) + 1
  {
    if i > 0 {
      ShrStep(y, n, i - 1);
      AllOnesStep(n - (i - 1));
    }
  }

  /** Adding 2^16 leaves bits 0 to 15 as they are. */
  lemma BitPeriod(y: int, i: nat)
    requires i < 16
    ensures Bit(y + 0x1_0000, i) == Bit(y, i)
  {
    AllOnesSixteen();
    assert y + 0x1_0000 == y + AllOnes(16) + 1;
    ShrStep(y, 16, i);
    AllOnesStep(16 - i);
    EvenShift(Shr(y, i), AllOnes(15 - i) + 1);
  }

  /** Bits 0 to 15 of x are those of its 16-bit word: a signed reading of a
      word from 0x8000 up and the unsigned one give the same bits. */
  lemma {:induction false} LowBitsOnly(x: int, i: nat)
    requires i < 16
    ensures Bit(x, i) == Bit(Word(x), i)
    decreases if x < 0 then 0x1_0000 - x else x
  {
    if x < 0 {
      assert Word(x + 0x1_0000) == Word(x);
      LowBitsOnly(x + 0x1_0000, i);
      BitPeriod(x, i);
    } else if x >= 0x1_0000 {
      assert Word(x - 0x1_0000) == Word(x);
      LowBitsOnly(x - 0x1_0000, i);
      BitPeriod(x - 0x1_0000, i);
    }
  }

  /** Only the low 16 bits of either sample affect the sequence. */
  lemma ExpandWords(first: int, second: int)
    ensures Expand(first, second) == Expand(Word(first), Word(second))
  {
    forall k | 0 <= k < 16
      ensures Expand(first, second)[k] == Expand(Word(first), Word(second))[k]
    {
      LowBitsOnly(first, 15 - k);
      LowBitsOnly(second, 15 - k);
    }
  }

  /** Packing the n highest bits of x gives x shifted right by 16 - n. */
  lemma {:induction false} PackHighBits(x: Sample, n: nat)
    requires n <= 16
    ensures Pack(HighBits(x, n)) == Shr(x, 16 - n)
  {
    if n == 0 {
      ShrSixteen(x);
    } else {
      var bits := HighBits(x, n);
      assert bits[..n - 1] == HighBits(x, n - 1);
      PackHighBits(x, n - 1);
      assert Shr(x, 16 - (n - 1)) == Shr(x, 16 - n) / 2;
    }
  }

  /** Round trip: the 16-bit words of the samples can be read back out of
      the sequence. */
  lemma RecoverExpand(first: int, second: int)
    ensures Recover(Expand(first, second)) == (Word(first), Word(second))
  {
    ExpandWords(first, second);
    var s := Expand(Word(first), Word(second));
    assert seq(16, k requires 0 <= k < 16 => s[k] % 3) == HighBits(Word(first), 16);
    assert seq(16, k requires 0 <= k < 16 => s[k] / 3) == HighBits(Word(second), 16);
    PackHighBits(Word(first), 16);
    PackHighBits(Word(second), 16);
  }

  /** Two sample pairs give the same sequence exactly when their 16-bit
      words agree. */
  lemma ExpandInjective(f1: int, s1: int, f2: int, s2: int)
    ensures Expand(f1, s1) == Expand(f2, s2) <==> Word(f1) == Word(f2) && Word(s1) == Word(s2)
  {
    RecoverExpand(f1, s1);
    RecoverExpand(f2, s2);
    ExpandWords(f1, s1);
    ExpandWords(f2, s2);
  }

  /** Element k depends on bit 15 - k of each sample and on nothing else. */
  lemma ExpandLocal(f1: int, s1: int, f2: int, s2: int, k: nat)
    requires k < 16
    ensures Expand(f1, s1)[k] == Expand(f2, s2)[k]
            <==> Bit(f1, 15 - k) == Bit(f2, 15 - k) && Bit(s1, 15 - k) == Bit(s2, 15 - k)
  {
  }

  lemma {:induction false} ShrZero(k: nat)
    ensures Shr(0, k) == 0
  {
    if k > 0 {
      ShrZero(k - 1);
    }
  }

  /** (0x5555 in binary is 0101...01: Alternating(8).) */
  function Alternating(n: nat): nat
  {
    if n == 0 then 0 else 4 * Alternating(n - 1) + 1
  }

  lemma AlternatingEight()
    ensures Alternating(8) == 0x5555
  {
    assert Alternating(4) == 0x55 by {
      assert Alternating(2) == 0x5;
    }
    assert Alternating(6) == 0x555;
  }

  /** Shifting n alternating pairs right by 2j leaves n - j pairs; by one more
      place leaves twice n - j - 1 pairs. */
  lemma {:induction false} ShrAlternating(n: nat, j: nat)
    requires j < n
    ensures Shr(Alternating(n), 2 * j) == Alternating(n - j)
    ensures Shr(Alternating(n), 2 * j + 1) == 2 * Alternating(n - j - 1)
  {
    if j > 0 {
      ShrAlternating(n, j - 1);
      assert Shr(Alternating(n), 2 * j) == Shr(Alternating(n), 2 * j - 1) / 2;
    }
  }

  /** Shifting a doubled number one place further undoes the doubling. */
  lemma {:induction false} ShrDouble(x: int, k: nat)
    ensures Shr(2 * x, k + 1) == Shr(x, k)
  {
    if k > 0 {
      ShrDouble(x, k - 1);
    }
  }

  /** Samples whose bits are all equal give one color throughout. */
  lemma UniformColors(first: int, second: int, f: int, g: int, c: Color)
    requires forall i: nat :: i < 16 ==> Bit(first, i) == f && Bit(second, i) == g
    requires f + 3 * g == Code(c)
    ensures ColorsOf(first, second) == seq(16, _ => c)
  {
    CodeInjective(c, c);
    var cs := ColorsOf(first, second);
    forall k | 0 <= k < 16
      ensures cs[k] == c
    {
      assert Expand(first, second)[k] == Code(c);
      CodeInjective(cs[k], c);
    }
  }

  /** The four uniform sequences: all red, all green, all blue, all yellow. */
  lemma UniformSequences()
    ensures ColorsOf(0x0000, 0x0000) == seq(16, _ => Red)
    ensures ColorsOf(0xFFFF, 0x0000) == seq(16, _ => Green)
    ensures ColorsOf(0x0000, 0xFFFF) == seq(16, _ => Blue)
    ensures ColorsOf(0xFFFF, 0xFFFF) == seq(16, _ => Yellow)
  {
    AllOnesSixteen();
    forall i: nat | i < 16
      ensures Bit(0x0000, i) == 0 && Bit(0xFFFF, i) == 1
    {
      ShrZero(i);
      ShrAllOnes(16, i);
    }
    UniformColors(0x0000, 0x0000, 0, 0, Red);
    UniformColors(0xFFFF, 0x0000, 1, 0, Green);
    UniformColors(0x0000, 0xFFFF, 0, 1, Blue);
    UniformColors(0xFFFF, 0xFFFF, 1, 1, Yellow);
  }

  /** Bits 2j and 2j + 1 of the two alternating samples. */
  lemma AlternatingPair(j: nat)
    requires j < 8
    ensures Bit(0x5555, 2 * j) == 1 && Bit(0x5555, 2 * j + 1) == 0
    ensures Bit(0xAAAA, 2 * j) == 0 && Bit(0xAAAA, 2 * j + 1) == 1
  {
    AlternatingEight();
    ShrAlternating(8, j);
    ShrDouble(0x5555, 2 * j);
    if j > 0 {
      ShrDouble(0x5555, 2 * j - 1);
      ShrAlternating(8, j - 1);
    }
  }

  lemma AlternatingBit(i: nat)
    requires i < 16
    ensures Bit(0x5555, i) == (if i % 2 == 0 then 1 else 0)
    ensures Bit(0xAAAA, i) == (if i % 2 == 0 then 0 else 1)
  {
    var j := i / 2;
    AlternatingPair(j);
    if i % 2 == 0 {
      assert i == 2 * j;
    } else {
      assert i == 2 * j + 1;
    }
  }

  /** Alternating samples give alternating blue and green. */
  lemma AlternatingSequence()
    ensures Expand(0x5555, 0xAAAA) == [3, 1, 3, 1, 3, 1, 3, 1, 3, 1, 3, 1, 3, 1, 3, 1]
  {
    var s := Expand(0x5555, 0xAAAA);
    forall k | 0 <= k < 16
      ensures s[k] == if k % 2 == 0 then 3 else 1
    {
      AlternatingBit(15 - k);
    }
  }
}
