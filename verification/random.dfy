/** RandomStringFromSource: letters cut from 63-bit random numbers, six bits at a time. */
module RandomString {
  import opened Common

  const DIGITS: string := "0123456789"
  const SYMBOLS: string := "!@#$%^&*()_+"
  const LOWER: string := "abcdefghijklmnopqrstuvwxyz"
  const UPPER: string := "ABCDEFGHIJKLMNOPQRSTUVWXYZ"

  /** letterBytes: 74 letters, of which a six-bit index can name the first 64. */
  const LETTER_BYTES: string := DIGITS + SYMBOLS + LOWER + UPPER
  const LETTER_IDX_MASK: nat := 63
  const LETTER_IDX_MAX: nat := 10

  type int63 = x: int | 0 <= x < 0x8000_0000_0000_0000

  function Pow64(k: nat): (p: nat)
    ensures p > 0
  {
    if k == 0 then 1 else 64 * Pow64(k - 1)
  }

  /** What is left of a draw after k shifts by six bits. */
  function Shifted(draw: nat, k: nat): nat
    decreases k
  {
    if k == 0 then draw else Shifted(draw / 64, k - 1)
  }

  /** The k-th group of six bits of a draw, the lowest first. */
  function Slice(draw: nat, k: nat): (idx: nat)
    ensures idx < 64
  {
    Shifted(draw, k) % 64
  }

  /** The string that the draws spell, written from its last letter backwards. */
  ghost function Spelled(stream: nat -> int63, from: nat, size: nat): (s: string)
    ensures |s| == size
  {
    seq(size, p requires 0 <= p < size => Spelling(stream, from, size - 1 - p))
  }

  /** The letter j places before the last one. */
  ghost function Spelling(stream: nat -> int63, from: nat, j: nat): char {
    LETTER_BYTES[Slice(stream(from + j / LETTER_IDX_MAX), j % LETTER_IDX_MAX)]
  }

  /** A rand.Source: Int63 yields the next number of a stream fixed by the seed. */
  class Source {
    const stream: nat -> int63
    var drawn: nat

    constructor (stream: nat -> int63)
      ensures this.stream == stream && drawn == 0
    {
      this.stream, drawn := stream, 0;
    }

    method Int63() returns (x: int63)
      modifies this
      ensures x == stream(old(drawn)) && drawn == old(drawn) + 1
    {
      x := stream(drawn);
      drawn := drawn + 1;
    }
  }

  lemma {:induction false} ShiftOnce(draw: nat, k: nat)
    ensures Shifted(draw, k) / 64 == Shifted(draw, k + 1)
    decreases k
  {
    if k > 0 { ShiftOnce(draw / 64, k - 1); }
  }

  /** Shifting is division by a power of 64. */
  lemma {:induction false} ShiftDivides(draw: nat, k: nat)
    ensures Shifted(draw, k) == draw / Pow64(k)
  {
    if k > 0 {
      ShiftDivides(draw, k - 1);
      ShiftOnce(draw, k - 1);
      DivideTwice(draw, Pow64(k - 1));
    }
  }

  lemma DivideTwice(draw: nat, p: nat)
    requires p > 0
    ensures draw / p / 64 == draw / (64 * p)
  {
    var q := draw / p;
    Regroup(p, q / 64, q % 64);
    BelowProduct(p, q % 64, draw % p);
    DivUnique(draw, 64 * p, q / 64, p * (q % 64) + draw % p);
  }

  lemma Regroup(p: nat, high: nat, low: nat)
    ensures p * (64 * high + low) == high * (64 * p) + p * low
  {
  }

  lemma BelowProduct(p: nat, low: nat, r: nat)
    requires low < 64 && r < p
    ensures p * low + r < 64 * p
  {
    assert p * low <= p * 63;
  }

  /** One turn: the loop's counters say which slice of which draw it looks at. */
  lemma TurnReads(stream: nat -> int63, from: nat, size: nat, draws: nat, turns: nat, remain: nat, cache: nat)
    requires turns < size && draws > 0 && 0 < remain <= 10 && remain == 10 * draws - turns
    requires cache == Shifted(stream(from + draws - 1), 10 - remain)
    ensures cache % 64 < |LETTER_BYTES| && LETTER_BYTES[cache % 64] == Spelled(stream, from, size)[size - 1 - turns]
    ensures cache / 64 == Shifted(stream(from + draws - 1), 10 - (remain - 1))
  {
    DivUnique(turns, 10, draws - 1, 10 - remain);
    ShiftOnce(stream(from + draws - 1), 10 - remain);
  }

  /** The loop writes one letter per turn, since a six-bit index always falls inside the
      alphabet; so it takes exactly `size` turns, and as many draws as ten letters per draw
      need, but at least one. */
  method RandomStringFromSource(size: nat, src: Source) returns (s: string, ghost turns: nat)
    modifies src
    ensures s == Spelled(src.stream, old(src.drawn), size)
    ensures turns == size
    ensures src.drawn - old(src.drawn) == if size == 0 then 1 else (size + 9) / 10
  {
    var b := new char[size];
    turns := 0;
    var i := size - 1;
    var cache: nat := src.Int63();
    var remain := LETTER_IDX_MAX;
    ghost var from := old(src.drawn);
    ghost var draws: nat := 1;
    ghost var spelled := Spelled(src.stream, from, size);
    while i >= 0
      invariant -1 <= i < size && turns == size - 1 - i
      invariant src.drawn == from + draws
      invariant 0 <= remain <= 10 && remain == 10 * draws - turns
      invariant draws > 1 ==> turns > 10 * (draws - 1)
      invariant cache == Shifted(src.stream(from + draws - 1), 10 - remain)
      invariant forall p :: i < p < size ==> b[p] == spelled[p]
    {
      if remain == 0 {
        cache := src.Int63();
        remain := LETTER_IDX_MAX;
        draws := draws + 1;
      }
      var idx := cache % (LETTER_IDX_MASK + 1);     // cache & letterIdxMask
      TurnReads(src.stream, from, size, draws, turns, remain, cache);
      if idx < |LETTER_BYTES| {
        b[i] := LETTER_BYTES[idx];
        i := i - 1;
      }
      cache := cache / 64;                          // cache >>= letterIdxBits
      remain := remain - 1;
      turns := turns + 1;
    }
    s := b[..];
  }

  // ---------------------------------------------------------------- what the letters tell

  /** The number that the first n slices spell in base 64. */
  function Value(draw: nat, n: nat): nat
    decreases n
  {
    if n == 0 then 0 else draw % 64 + 64 * Value(draw / 64, n - 1)
  }

  /** No bit is dropped or used twice: the first n letters of a draw are its lowest 6n bits. */
  lemma {:induction false} SlicesAreLowBits(draw: nat, n: nat)
    ensures Value(draw, n) == draw % Pow64(n)
    decreases n
  {
    if n > 0 {
      var q, p := draw / 64, Pow64(n - 1);
      SlicesAreLowBits(q, n - 1);
      SplitLow(q, p, draw % 64);
    }
  }

  lemma SplitLow(q: nat, p: nat, low: nat)
    requires p > 0 && low < 64
    ensures (64 * q + low) % (64 * p) == 64 * (q % p) + low
  {
    assert q == (q / p) * p + q % p;
    assert 64 * q == (q / p) * (64 * p) + 64 * (q % p);
    DivUnique(64 * q + low, 64 * p, q / p, 64 * (q % p) + low);
  }

  /** Equal slices, equal number, and the other way round. */
  lemma {:induction false} SlicesDecide(a: nat, b: nat, n: nat)
    ensures (forall k: nat :: k < n ==> Slice(a, k) == Slice(b, k)) <==> Value(a, n) == Value(b, n)
    decreases n
  {
    if n > 0 {
      SlicesDecide(a / 64, b / 64, n - 1);
      assert forall k: nat :: k < n - 1 ==> Slice(a / 64, k) == Slice(a, k + 1) && Slice(b / 64, k) == Slice(b, k + 1);
      assert Slice(a, 0) == a % 64 && Slice(b, 0) == b % 64;
      if Value(a, n) == Value(b, n) {
        forall k: nat | k < n ensures Slice(a, k) == Slice(b, k) {
          if k > 0 { assert Slice(a / 64, k - 1) == Slice(b / 64, k - 1); }
        }
      }
    }
  }

  /** Ten letters from two draws agree exactly when the draws agree in their lowest 60 bits:
      the top three of the 63 bits are never used. */
  lemma SameLetters(a: nat, b: nat)
    ensures (forall k: nat :: k < 10 ==> Slice(a, k) == Slice(b, k)) <==> a % Pow64(10) == b % Pow64(10)
  {
    SlicesAreLowBits(a, 10);
    SlicesAreLowBits(b, 10);
    SlicesDecide(a, b, 10);
  }

  /** Ten letters of the alphabet can never appear: an index has six bits and the alphabet has
      74 letters, so nothing from 'Q' to 'Z' is ever written. */
  lemma NeverWritten(stream: nat -> int63, from: nat, size: nat, p: nat)
    requires p < size
    ensures !('Q' <= Spelled(stream, from, size)[p] <= 'Z')
  {
    var idx := NamedBy(stream, from, size, p);
    FirstLetters(idx);
  }

  lemma NamedBy(stream: nat -> int63, from: nat, size: nat, p: nat) returns (idx: nat)
    requires p < size
    ensures idx < 64 && Spelled(stream, from, size)[p] == LETTER_BYTES[idx]
  {
    idx := Slice(stream(from + (size - 1 - p) / LETTER_IDX_MAX), (size - 1 - p) % LETTER_IDX_MAX);
  }

  lemma FirstLetters(idx: nat)
    requires idx < 64
    ensures !('Q' <= LETTER_BYTES[idx] <= 'Z')
  {
    if idx < 22 { EarlyLetters(idx); } else if idx < 48 { LowerLetters(idx - 22); } else { UpperLetters(idx - 48); }
  }

  lemma EarlyLetters(i: nat)
    requires i < 22
    ensures !('Q' <= LETTER_BYTES[i] <= 'Z')
  {
    assert LETTER_BYTES[i] == (DIGITS + SYMBOLS)[i];
    Low((DIGITS + SYMBOLS)[i]);
  }

  lemma LowerLetters(i: nat)
    requires i < 26
    ensures LETTER_BYTES[22 + i] >= 'a'
  {
    assert LETTER_BYTES[22 + i] == LOWER[i];
    High(LOWER[i]);
  }

  lemma UpperLetters(i: nat)
    requires i < 16
    ensures LETTER_BYTES[48 + i] < 'Q'
  {
    assert LETTER_BYTES[48 + i] == UPPER[i];
    EarlyUpper(i);
  }

  lemma Low(c: char)
    requires c in DIGITS || c in SYMBOLS
    ensures !('Q' <= c <= 'Z')
  {
  }

  lemma High(c: char)
    requires c in LOWER
    ensures c >= 'a'
  {
  }

  lemma EarlyUpper(i: nat)
    requires i < 16
    ensures UPPER[i] < 'Q'
  {
  }
}
