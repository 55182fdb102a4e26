/** Byte strings: fixed-width integers in both byte orders, decimal text, and the byte-wise order
    the storage engine sorts keys by. */
module Bytes {
  import opened Common

  type Byte = b: int | 0 <= b < 256
  type Text = seq<Byte>

  // ---------------------------------------------------------------- fixed-width integers

  function Pow256(k: nat): (p: nat)
    ensures p > 0
  {
    if k == 0 then 1 else 256 * Pow256(k - 1)
  }

  const U32: nat := 0x1_0000_0000
  const U64: nat := 0x1_0000_0000_0000_0000

  /** What an unsigned 32-bit integer keeps of n. */
  function Wrap32(n: nat): nat {
    if n < U32 then n else n % 0x1_0000_0000
  }

  function Wrap64(n: nat): nat {
    if n < U64 then n else n % 0x1_0000_0000_0000_0000
  }

  lemma Widths()
    ensures Pow256(1) == 256 && Pow256(4) == U32 && Pow256(8) == U64
  {
    assert Pow256(4) == 256 * Pow256(3);
    assert Pow256(6) == 256 * Pow256(5);
    assert Pow256(8) == 256 * Pow256(7);
  }

  /** Least significant byte first. */
  function Little(n: nat, k: nat): (bs: Text)
    ensures |bs| == k
  {
    if k == 0 then [] else [n % 256] + Little(n / 256, k - 1)
  }

  function FromLittle(bs: Text): nat {
    if bs == [] then 0 else bs[0] + 256 * FromLittle(bs[1..])
  }

  lemma {:induction false} FromLittleOfLittle(n: nat, k: nat)
    requires n < Pow256(k)
    ensures FromLittle(Little(n, k)) == n
  {
    if k > 0 {
      FromLittleOfLittle(n / 256, k - 1);
      assert Little(n, k)[1..] == Little(n / 256, k - 1);
    }
  }

  lemma {:induction false} FromLittleBound(bs: Text)
    ensures FromLittle(bs) < Pow256(|bs|)
  {
    if bs != [] {
      FromLittleBound(bs[1..]);
    }
  }

  lemma LowByte(b: Byte, n: nat)
    ensures (b + 256 * n) % 256 == b && (b + 256 * n) / 256 == n
  {
  }

  lemma {:induction false} LittleOfFromLittle(bs: Text)
    ensures Little(FromLittle(bs), |bs|) == bs
  {
    if bs != [] {
      LittleOfFromLittle(bs[1..]);
      var n := FromLittle(bs[1..]);
      LowByte(bs[0], n);
    }
  }

  /** Most significant byte first. */
  function Big(n: nat, k: nat): (bs: Text)
    ensures |bs| == k
  {
    if k == 0 then [] else Big(n / 256, k - 1) + [n % 256]
  }

  function FromBig(bs: Text): nat {
    if bs == [] then 0 else FromBig(bs[..|bs| - 1]) * 256 + bs[|bs| - 1]
  }

  lemma {:induction false} FromBigBound(bs: Text)
    ensures FromBig(bs) < Pow256(|bs|)
  {
    if bs != [] {
      FromBigBound(bs[..|bs| - 1]);
    }
  }

  lemma {:induction false} FromBigOfBig(n: nat, k: nat)
    requires n < Pow256(k)
    ensures FromBig(Big(n, k)) == n
  {
    if k > 0 {
      FromBigOfBig(n / 256, k - 1);
      assert Big(n, k)[..k - 1] == Big(n / 256, k - 1);
    }
  }

  function Reversed(bs: Text): (r: Text)
    ensures |r| == |bs|
  {
    if bs == [] then [] else Reversed(bs[1..]) + [bs[0]]
  }

  /** The number whose little-endian bytes are those of n backwards. */
  function Swap(n: nat, k: nat): nat {
    FromLittle(Reversed(Little(n, k)))
  }

  lemma {:induction false} ReversedIsBig(n: nat, k: nat)
    ensures Reversed(Little(n, k)) == Big(n, k)
  {
    if k > 0 {
      ReversedIsBig(n / 256, k - 1);
      assert Little(n, k)[1..] == Little(n / 256, k - 1);
    }
  }

  lemma {:induction false} FromLittleOfReversed(bs: Text)
    ensures FromLittle(Reversed(bs)) == FromBig(bs)
    decreases |bs|
  {
    if bs != [] {
      var n := |bs| - 1;
      FromLittleOfReversed(bs[..n]);
      ReversedLast(bs);
      assert ([bs[n]] + Reversed(bs[..n]))[1..] == Reversed(bs[..n]);
    }
  }

  lemma {:induction false} ReversedLast(bs: Text)
    requires bs != []
    ensures Reversed(bs) == [bs[|bs| - 1]] + Reversed(bs[..|bs| - 1])
  {
    if |bs| > 1 {
      ReversedLast(bs[1..]);
      assert bs[1..][..|bs| - 2] == bs[..|bs| - 1][1..];
    }
  }

  /** Swapped, a number is written and read most significant byte first. */
  lemma SwapIsBig(n: nat, bs: Text)
    ensures Little(Swap(n, |bs|), |bs|) == Big(n, |bs|)
    ensures Swap(FromLittle(bs), |bs|) == FromBig(bs)
  {
    ReversedIsBig(n, |bs|);
    LittleOfFromLittle(Big(n, |bs|));
    LittleOfFromLittle(bs);
    FromLittleOfReversed(bs);
  }

  // ---------------------------------------------------------------- signed 64-bit integers

  type Int64 = i: int | -0x8000_0000_0000_0000 <= i < 0x8000_0000_0000_0000

  function Unsigned(i: Int64): (n: nat)
    ensures n < U64
  {
    if i < 0 then i + U64 else i
  }

  function Signed(n: nat): (i: Int64)
    requires n < U64
    ensures Unsigned(i) == n
  {
    if n >= 0x8000_0000_0000_0000 then n - U64 else n
  }

  // ---------------------------------------------------------------- pieces of text

  const NEWLINE: Byte := 10

  /** The non-empty pieces of a text between separators. */
  function Split(t: Text, sep: Byte): seq<Text> {
    if t == [] then []
    else if t[0] == sep then Split(t[1..], sep)
    else
      var n := Piece(t, sep);
      [t[..n]] + Split(t[n..], sep)
  }

  function Piece(t: Text, sep: Byte): (n: nat)
    ensures n <= |t| && sep !in t[..n] && (n < |t| ==> t[n] == sep)
    ensures t != [] && t[0] != sep ==> n > 0
  {
    if t == [] || t[0] == sep then 0
    else
      var n := 1 + Piece(t[1..], sep);
      assert t[..n] == [t[0]] + t[1..][..n - 1];
      n
  }

  lemma {:induction false} PieceEnds(x: Text, rest: Text, sep: Byte)
    requires sep !in x
    ensures Piece(x + [sep] + rest, sep) == |x|
  {
    if x != [] {
      assert (x + [sep] + rest)[1..] == x[1..] + [sep] + rest;
      PieceEnds(x[1..], rest, sep);
    }
  }

  lemma {:induction false} PieceBefore(a: Text, b: Text, sep: Byte)
    ensures Piece(a + [sep] + b, sep) == Piece(a, sep)
  {
    if a != [] {
      assert (a + [sep] + b)[1..] == a[1..] + [sep] + b;
      PieceBefore(a[1..], b, sep);
    }
  }

  /** A text without separators is one piece. */
  lemma SplitOnePiece(a: Text, sep: Byte)
    requires sep !in a && a != []
    ensures Split(a, sep) == [a]
  {
    var n := Piece(a, sep);
    assert n == |a|;
    assert a[..n] == a && a[n..] == [];
  }

  /** The pieces before and after a separator. Together with `SplitOnePiece` this says what the pieces
      of any text are. */
  lemma {:induction false} SplitAtSeparator(a: Text, b: Text, sep: Byte)
    ensures Split(a + [sep] + b, sep) == Split(a, sep) + Split(b, sep)
    decreases a
  {
    var t := a + [sep] + b;
    if a == [] {
      assert t[1..] == b;
    } else if a[0] == sep {
      assert t[1..] == a[1..] + [sep] + b;
      SplitAtSeparator(a[1..], b, sep);
    } else {
      var n := Piece(a, sep);
      PieceBefore(a, b, sep);
      assert t[..n] == a[..n] && t[n..] == a[n..] + [sep] + b;
      SplitAtSeparator(a[n..], b, sep);
      Regroup([a[..n]], Split(a[n..], sep), Split(b, sep));
    }
  }

  // ---------------------------------------------------------------- decimal text

  const ZERO: Byte := 48  // '0'

  predicate IsDigit(b: Byte) { ZERO <= b < ZERO + 10 }

  function Decimal(n: nat): (t: Text)
    ensures |t| > 0 && forall i | 0 <= i < |t| :: IsDigit(t[i])
  {
    if n < 10 then [ZERO + n] else Decimal(n / 10) + [ZERO + n % 10]
  }

  function ParseDigits(t: Text): nat
    requires forall i | 0 <= i < |t| :: IsDigit(t[i])
  {
    if t == [] then 0
    else
      assert IsDigit(t[|t| - 1]);
      ParseDigits(t[..|t| - 1]) * 10 + (t[|t| - 1] - ZERO)
  }

  /** A non-empty run of digits below a bound. */
  function ParseBelow(t: Text, bound: nat): Option<nat> {
    if t != [] && (forall i | 0 <= i < |t| :: IsDigit(t[i])) && ParseDigits(t) < bound
    then Some(ParseDigits(t)) else None
  }

  predicate IsSpace(b: Byte) { b == 32 || 9 <= b <= 13 }

  function Trim(t: Text): Text
    decreases |t|
  {
    if t != [] && IsSpace(t[0]) then Trim(t[1..])
    else if t != [] && IsSpace(t[|t| - 1]) then Trim(t[..|t| - 1])
    else t
  }

  /** Blanks on both sides of a text that neither starts nor ends with one. */
  lemma {:induction false} TrimBlanks(before: Text, t: Text, after: Text)
    requires (forall i | 0 <= i < |before| :: IsSpace(before[i])) && (forall i | 0 <= i < |after| :: IsSpace(after[i]))
    requires t != [] && !IsSpace(t[0]) && !IsSpace(t[|t| - 1])
    ensures Trim(before + t + after) == t
    decreases |before| + |after|
  {
    var all := before + t + after;
    if before != [] {
      assert all[0] == before[0] && all[1..] == before[1..] + t + after;
      TrimBlanks(before[1..], t, after);
    } else if after != [] {
      var n := |after| - 1;
      assert all[0] == t[0] && all[|all| - 1] == after[n] && all[..|all| - 1] == before + t + after[..n];
      TrimBlanks(before, t, after[..n]);
    } else {
      assert all == t;
    }
  }

  /** An unsigned number below a bound: blanks around it are skipped. */
  function ParseUnsigned(t: Text, bound: nat): Option<nat> {
    ParseBelow(Trim(t), bound)
  }

  lemma ParseUnsignedOfDecimal(n: nat, bound: nat)
    requires n < bound
    ensures ParseUnsigned(Decimal(n), bound) == Some(n)
  {
    var t := Decimal(n);
    assert IsDigit(t[0]) && IsDigit(t[|t| - 1]);
    ParseOfDecimal(n);
  }

  lemma {:induction false} ParseOfDecimal(n: nat)
    ensures ParseDigits(Decimal(n)) == n
  {
    var t := Decimal(n);
    if n < 10 {
      assert t[..|t| - 1] == [];
    } else {
      ParseOfDecimal(n / 10);
      assert t[..|t| - 1] == Decimal(n / 10);
    }
  }

  lemma DecimalInjective(m: nat, n: nat)
    requires Decimal(m) == Decimal(n)
    ensures m == n
  {
    ParseOfDecimal(m);
    ParseOfDecimal(n);
  }

  lemma {:induction false} DecimalLength(m: nat, n: nat)
    requires m <= n
    ensures |Decimal(m)| <= |Decimal(n)|
    decreases n
  {
    if n >= 10 && m >= 10 {
      DecimalLength(m / 10, n / 10);
    }
  }

  function Pow10(k: nat): nat {
    if k == 0 then 1 else 10 * Pow10(k - 1)
  }

  lemma {:induction false} DecimalShort(n: nat, k: nat)
    requires k > 0 && n < Pow10(k)
    ensures |Decimal(n)| <= k
    decreases n
  {
    if n >= 10 {
      DecimalShort(n / 10, k - 1);
    }
  }

  lemma U64HasTwentyDigits(n: nat)
    requires n < U64
    ensures |Decimal(n)| <= 20
  {
    assert Pow10(6) == 10 * Pow10(5) == 1_000_000;
    assert Pow10(9) == 10 * Pow10(8) && Pow10(12) == 10 * Pow10(11) == 1_000_000_000_000;
    assert Pow10(15) == 10 * Pow10(14) && Pow10(18) == 10 * Pow10(17) == 1_000_000_000_000_000_000;
    DecimalShort(n, 20);
  }

  // ---------------------------------------------------------------- byte-wise order

  /** a sorts strictly before b. */
  predicate Before(a: Text, b: Text) {
    if b == [] then false
    else if a == [] then true
    else a[0] < b[0] || (a[0] == b[0] && Before(a[1..], b[1..]))
  }

  lemma {:induction false} BeforeSkip(p: Text, a: Text, b: Text)
    ensures Before(p + a, p + b) == Before(a, b)
  {
    if p == [] {
      assert p + a == a && p + b == b;
    } else {
      assert (p + a)[1..] == p[1..] + a && (p + b)[1..] == p[1..] + b;
      BeforeSkip(p[1..], a, b);
    }
  }

  /** Once two strings of equal length differ, what follows does not matter. */
  lemma {:induction false} BeforeExtend(a: Text, b: Text, x: Text, y: Text)
    requires |a| == |b| && a != b
    ensures Before(a + x, b + y) == Before(a, b)
  {
    assert (a + x)[0] == a[0] && (b + y)[0] == b[0];
    assert (a + x)[1..] == a[1..] + x && (b + y)[1..] == b[1..] + y;
    if a[0] == b[0] {
      assert a == [a[0]] + a[1..] && b == [b[0]] + b[1..];
      BeforeExtend(a[1..], b[1..], x, y);
    }
  }

  lemma BeforeIrreflexive(a: Text)
    ensures !Before(a, a)
  {
  }

  lemma {:induction false} BeforeLast(a: Text, b: Text, x: Byte, y: Byte)
    requires |a| == |b|
    ensures Before(a + [x], b + [y]) <==> Before(a, b) || (a == b && x < y)
  {
    if a == b {
      BeforeSkip(a, [x], [y]);
      BeforeIrreflexive(a);
    } else {
      BeforeExtend(a, b, [x], [y]);
    }
  }

  lemma {:induction false} BeforeTransitive(a: Text, b: Text, c: Text)
    requires Before(a, b) && Before(b, c)
    ensures Before(a, c)
  {
    if a != [] && a[0] == b[0] == c[0] {
      BeforeTransitive(a[1..], b[1..], c[1..]);
    }
  }

  /** Big-endian bytes sort like the numbers they encode. */
  lemma {:induction false} BigSorts(m: nat, n: nat, k: nat)
    requires m < Pow256(k) && n < Pow256(k)
    ensures Before(Big(m, k), Big(n, k)) <==> m < n
  {
    if k > 0 {
      BigSorts(m / 256, n / 256, k - 1);
      BeforeLast(Big(m / 256, k - 1), Big(n / 256, k - 1), m % 256, n % 256);
      if m / 256 != n / 256 && Big(m / 256, k - 1) == Big(n / 256, k - 1) {
        FromBigOfBig(m / 256, k - 1);
        FromBigOfBig(n / 256, k - 1);
      }
    }
  }

  /** Decimal texts of equal length sort like the numbers they denote. */
  lemma {:induction false} DecimalSorts(m: nat, n: nat)
    requires |Decimal(m)| == |Decimal(n)|
    ensures Before(Decimal(m), Decimal(n)) <==> m < n
    decreases m
  {
    if m >= 10 {
      DecimalSorts(m / 10, n / 10);
      BeforeLast(Decimal(m / 10), Decimal(n / 10), ZERO + m % 10, ZERO + n % 10);
      if Decimal(m / 10) == Decimal(n / 10) {
        DecimalInjective(m / 10, n / 10);
      }
    }
  }
}
