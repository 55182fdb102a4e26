/** List data keys (LaserKeyFormatListData, common/laser/format.h). Unlike a sorted-set key, a list key
    whose index cannot be read is accepted with index 0, so that a few keys with empty components
    survive a round trip: the lengths that were not written are read out of the zero index. */
module ListKeys {
  import opened Common
  import opened Bytes
  import opened KeyCodec

  /** The index at an offset, or the default of a fresh object. */
  function IndexOrZero(raw: Text, o: nat): Int64 {
    if |raw| < o + 8 then 0
    else
      FromBigBound(raw[o..o + 8]);
      Widths();
      Signed(FromBig(raw[o..o + 8]))
  }

  function DecodeListData(raw: Text): Read<Indexed> {
    var (k, o) :- DecodeKey(raw);
    Got(Indexed(k.key, IndexOrZero(raw, o)), if |raw| < o + 8 then o else Wrap32(o + 8))
  }

  // ---------------------------------------------------------------- zeros and prefixes

  function Zeros(n: nat): (z: Text)
    ensures |z| == n
  {
    seq(n, _ => 0)
  }

  lemma ZerosAdd(m: nat, n: nat)
    ensures Zeros(m) + Zeros(n) == Zeros(m + n)
  {
  }

  lemma {:induction false} LittleZero(k: nat)
    ensures Little(0, k) == Zeros(k)
  {
    if k > 0 {
      LittleZero(k - 1);
    }
  }

  lemma {:induction false} BigZero(k: nat)
    ensures Big(0, k) == Zeros(k)
  {
    if k > 0 {
      BigZero(k - 1);
    }
  }

  lemma OnlyZeroIsZero(n: nat)
    requires n < U32 && Little(n, 4) == Zeros(4)
    ensures n == 0
  {
    Widths();
    LittleZero(4);
    FromLittleOfLittle(n, 4);
    FromLittleOfLittle(0, 4);
  }

  lemma HeadsAgree(x: Text, y: Text, a: Text, b: Text)
    requires |x| == |y| && x + a <= y + b
    ensures x == y && a <= b
  {
    assert x == (x + a)[..|x|] == (y + b)[..|x|] == y;
    assert a == (x + a)[|x|..] && b == (y + b)[|x|..];
  }

  // ---------------------------------------------------------------- reading is exact

  lemma AtJoin(raw: Text, offset: nat, x: Text, y: Text)
    requires At(raw, offset, x) && At(raw, offset + |x|, y)
    ensures At(raw, offset, x + y)
  {
    AtIs(raw, offset, x);
    AtIs(raw, offset + |x|, y);
    assert raw[offset..offset + |x| + |y|] == raw[offset..offset + |x|] + raw[offset + |x|..offset + |x| + |y|];
    AtIs(raw, offset, x + y);
  }

  lemma IntIsAt(raw: Text, offset: nat)
    requires |raw| < U32 && ReadInt(raw, offset, 4).Got?
    ensures At(raw, offset, Little(ReadInt(raw, offset, 4).value, 4)) && ReadInt(raw, offset, 4).offset == offset + 4
  {
    LittleOfFromLittle(raw[offset..offset + 4]);
    AtIs(raw, offset, raw[offset..offset + 4]);
  }

  lemma StringIsAt(raw: Text, offset: nat)
    requires |raw| < U32 && ReadString(raw, offset).Got?
    ensures var r := ReadString(raw, offset);
      At(raw, offset, FullString(r.value)) && r.offset == offset + |FullString(r.value)|
  {
    var r := ReadString(raw, offset);
    IntIsAt(raw, offset);
    AtIs(raw, offset + 4, r.value);
    AtJoin(raw, offset, Little(|r.value|, 4), r.value);
  }

  lemma {:induction false} StringsAreAt(raw: Text, offset: nat, n: nat)
    requires |raw| < U32 && offset <= |raw| && ReadStrings(raw, offset, n).Got?
    ensures var r := ReadStrings(raw, offset, n);
      At(raw, offset, FullStrings(r.value)) && r.offset == offset + |FullStrings(r.value)|
    decreases n
  {
    var r := ReadStrings(raw, offset, n);
    if n == 0 {
      AtIs(raw, offset, []);
    } else {
      var s := ReadString(raw, offset);
      StringIsAt(raw, offset);
      StringsAreAt(raw, s.offset, n - 1);
      var ss := ReadStrings(raw, s.offset, n - 1).value;
      assert r.value[1..] == ss;
      AtJoin(raw, offset, FullString(s.value), FullStrings(ss));
    }
  }

  lemma ListIsAt(raw: Text, offset: nat)
    requires |raw| < U32 && ReadList(raw, offset).Got?
    ensures var r := ReadList(raw, offset);
      At(raw, offset, FullList(r.value)) && r.offset == offset + |FullList(r.value)|
  {
    var r := ReadList(raw, offset);
    IntIsAt(raw, offset);
    StringsAreAt(raw, offset + 4, ReadInt(raw, offset, 4).value);
    AtJoin(raw, offset, Little(|r.value|, 4), FullStrings(r.value));
  }

  /** A buffer is decoded to a key exactly from what decoding expects of that key. */
  lemma DecodedIsFull(raw: Text)
    requires |raw| < U32 && DecodeKey(raw).Got?
    ensures var r := DecodeKey(raw);
      var body := FullList(r.value.key.primary) + FullList(r.value.key.columns);
      raw != [] && body <= raw[1..] && r.offset == 1 + |body|
  {
    var r := DecodeKey(raw);
    var p, c := FullList(r.value.key.primary), FullList(r.value.key.columns);
    ListIsAt(raw, 1);
    ListIsAt(raw, 1 + |p|);
    AtJoin(raw, 1, p, c);
  }

  // ---------------------------------------------------------------- keys that end with empty components

  /** The last j components are empty and no others. */
  predicate Trailing(ss: seq<Text>, j: nat) {
    && j <= |ss| && NonEmpty(ss[..|ss| - j])
    && forall i | |ss| - j <= i < |ss| :: ss[i] == []
  }

  /** The last j components of the whole key are empty and no others. */
  predicate EmptyTail(k: Key, j: nat) {
    if k.columns == [] then Trailing(k.primary, j) else NonEmpty(k.primary) && Trailing(k.columns, j)
  }

  lemma TrailingTail(ss: seq<Text>, j: nat)
    requires ss != []
    ensures j < |ss| ==> (Trailing(ss, j) <==> ss[0] != [] && Trailing(ss[1..], j))
    ensures j == |ss| ==> (Trailing(ss, j) <==> ss[0] == [] && Trailing(ss[1..], j - 1))
  {
    var tail := ss[1..];
    assert forall i | 0 <= i < |tail| :: tail[i] == ss[i + 1];
    if j < |ss| {
      var init := ss[..|ss| - j];
      NonEmptySplit(init);
      assert init[1..] == tail[..|tail| - j];
      if Trailing(tail, j) {
        forall i | |ss| - j <= i < |ss|
          ensures ss[i] == []
        {
          assert ss[i] == tail[i - 1];
        }
      }
    } else if j == |ss| {
      if Trailing(tail, j - 1) && ss[0] == [] {
        forall i | 0 <= i < |ss|
          ensures ss[i] == []
        {
          assert i > 0 ==> ss[i] == tail[i - 1];
        }
      }
    }
  }

  lemma {:induction false} FullOfTrailing(ss: seq<Text>, j: nat)
    requires Trailing(ss, j) && |PackStrings(ss)| < U32
    ensures FullStrings(ss) == PackStrings(ss) + Zeros(4 * j)
  {
    if ss != [] {
      TrailingTail(ss, j);
      if j < |ss| {
        FullOfTrailing(ss[1..], j);
        Regroup(PackString(ss[0]), PackStrings(ss[1..]), Zeros(4 * j));
      } else {
        FullOfTrailing(ss[1..], j - 1);
        LittleZero(4);
        ZerosAdd(4, 4 * (j - 1));
        AllEmptyPacks(ss);
      }
    }
  }

  lemma {:induction false} AllEmptyPacks(ss: seq<Text>)
    requires Trailing(ss, |ss|)
    ensures PackStrings(ss) == []
  {
    if ss != [] {
      TrailingTail(ss, |ss|);
      AllEmptyPacks(ss[1..]);
    }
  }

  lemma FullListOfTrailing(ss: seq<Text>, j: nat)
    requires Trailing(ss, j) && |PackList(ss)| + 4 * j < U32
    ensures FullList(ss) == PackList(ss) + Zeros(4 * j)
  {
    FullOfTrailing(ss, j);
    FullStringsSize(ss);
    Regroup(Little(|ss|, 4), PackStrings(ss), Zeros(4 * j));
  }

  /** What decoding expects of such a key is its encoding and one zero length per empty component. */
  lemma FullOfEmptyTail(k: Key, j: nat)
    requires EmptyTail(k, j) && |EncodeKey(Composite, k)| + 4 * j < U32
    ensures FullKey(Composite, k) == EncodeKey(Composite, k) + Zeros(4 * j)
  {
    var p, c, z := PackList(k.primary), PackList(k.columns), Zeros(4 * j);
    if k.columns == [] {
      FullListOfTrailing(k.primary, j);
      LittleZero(4);
      assert FullList(k.columns) == Zeros(4) == c;
      ZerosAdd(4 * j, 4);
      ZerosAdd(4, 4 * j);
      Regroup(p, z, Zeros(4));
      Regroup(p, Zeros(4), z);
    } else {
      PackedListIsFull(k.primary);
      FullListOfTrailing(k.columns, j);
      Regroup(p, c, z);
    }
    Regroup([TypeByte(Composite)], p + c, z);
  }

  // ---------------------------------------------------------------- the converse

  lemma WordMoves(n: nat, ss: seq<Text>)
    requires ss != [] && ss[0] == []
    ensures Zeros(4 * n) + FullStrings(ss) == Zeros(4 * (n + 1)) + FullStrings(ss[1..])
    ensures PackStrings(ss) == PackStrings(ss[1..])
  {
    EmptyIsZeros();
    ZerosAdd(4 * n, 4);
    Regroup(Zeros(4 * n), Zeros(4), FullStrings(ss[1..]));
    assert FullStrings(ss) == Zeros(4) + FullStrings(ss[1..]);
  }

  lemma EmptyIsZeros()
    ensures FullString([]) == Zeros(4)
  {
    LittleZero(4);
  }

  /** Behind a pending zero length nothing but empty strings can follow. */
  lemma {:induction false} OnlyEmptyFollow(n: nat, ss: seq<Text>, x: Text, y: Text)
    requires n > 0 && Zeros(4 * n) + FullStrings(ss) + x <= PackStrings(ss) + y && |PackStrings(ss) + y| < U32
    ensures Trailing(ss, |ss|) && Zeros(4 * (n + |ss|)) + x <= y
    decreases ss
  {
    if ss == [] {
      assert Zeros(4 * n) + [] == Zeros(4 * n) && [] + y == y;
    } else {
      FirstWordIsZero(n, ss, x, y);
      WordMoves(n, ss);
      OnlyEmptyFollow(n + 1, ss[1..], x, y);
      TrailingTail(ss, |ss|);
    }
  }

  lemma FirstWordIsZero(n: nat, ss: seq<Text>, x: Text, y: Text)
    requires n > 0 && ss != [] && Zeros(4 * n) + FullStrings(ss) + x <= PackStrings(ss) + y
    requires |PackStrings(ss) + y| < U32
    ensures ss[0] == []
  {
    var s, tail := ss[0], ss[1..];
    if s != [] {
      var z, l := Zeros(4 * (n - 1)) + FullStrings(ss) + x, Little(|s|, 4);
      ZerosAdd(4, 4 * (n - 1));
      Regroup(Zeros(4), Zeros(4 * (n - 1)), FullStrings(ss));
      Regroup(Zeros(4), Zeros(4 * (n - 1)) + FullStrings(ss), x);
      assert PackString(s) == l + s;
      Regroup(l, s, PackStrings(tail));
      Regroup(l, s + PackStrings(tail), y);
      HeadsAgree(Zeros(4), l, z, s + PackStrings(tail) + y);
      OnlyZeroIsZero(|s|);
    }
  }

  lemma StripFirst(s: Text, a: Text, x: Text, b: Text, y: Text)
    requires s != [] && FullString(s) + a + x <= PackString(s) + b + y && |PackString(s) + b + y| < U32
    ensures a + x <= b + y && |b + y| < U32
  {
    Regroup(FullString(s), a, x);
    Regroup(FullString(s), b, y);
    HeadsAgree(FullString(s), FullString(s), a + x, b + y);
  }

  lemma StripEmpty(ss: seq<Text>, x: Text, y: Text)
    requires ss != [] && ss[0] == []
    requires FullStrings(ss) + x <= PackStrings(ss) + y && |PackStrings(ss) + y| < U32
    ensures Trailing(ss[1..], |ss| - 1) && Zeros(4 * |ss|) + x <= y
  {
    WordMoves(0, ss);
    assert Zeros(0) + FullStrings(ss) == FullStrings(ss);
    OnlyEmptyFollow(1, ss[1..], x, y);
  }

  /** A list agrees with its packed form up to empty components at its end. */
  lemma {:induction false} StripStrings(ss: seq<Text>, x: Text, y: Text) returns (j: nat)
    requires FullStrings(ss) + x <= PackStrings(ss) + y && |PackStrings(ss) + y| < U32
    ensures Trailing(ss, j) && Zeros(4 * j) + x <= y
    decreases ss
  {
    if ss == [] {
      j := 0;
      assert Zeros(0) + x == x && [] + x == x && [] + y == y;
    } else {
      if ss[0] == [] {
        StripEmpty(ss, x, y);
        j := |ss|;
      } else {
        StripFirst(ss[0], FullStrings(ss[1..]), x, PackStrings(ss[1..]), y);
        j := StripStrings(ss[1..], x, y);
      }
      TrailingTail(ss, j);
    }
  }

  lemma StripList(ss: seq<Text>, x: Text, y: Text) returns (j: nat)
    requires FullList(ss) + x <= PackList(ss) + y && |PackList(ss) + y| < U32
    ensures Trailing(ss, j) && Zeros(4 * j) + x <= y
  {
    FullStringsSize(ss);
    var l := Little(|ss|, 4);
    Regroup(l, FullStrings(ss), x);
    Regroup(l, PackStrings(ss), y);
    HeadsAgree(l, l, FullStrings(ss) + x, PackStrings(ss) + y);
    j := StripStrings(ss, x, y);
  }

  /** A key whose encoding, followed by eight bytes, begins with what decoding expects of it. */
  lemma StripKey(k: Key, b: Text) returns (j: nat)
    requires |PackList(k.primary) + PackList(k.columns) + b| < U32
    requires FullList(k.primary) + FullList(k.columns) <= PackList(k.primary) + PackList(k.columns) + b
    ensures EmptyTail(k, j) && Zeros(4 * j) <= b
  {
    var c := PackList(k.columns);
    Regroup(PackList(k.primary), c, b);
    j := StripList(k.primary, FullList(k.columns), c + b);
    if j > 0 {
      NoColumns(k.columns, j, b);
    } else {
      ZeroFirst(FullList(k.columns));
      j := StripColumns(k, b);
    }
  }

  lemma ZeroFirst(x: Text)
    ensures Zeros(0) + x == x
  {
  }

  lemma StripColumns(k: Key, b: Text) returns (j: nat)
    requires Trailing(k.primary, 0) && FullList(k.columns) <= PackList(k.columns) + b
    requires |PackList(k.columns) + b| < U32
    ensures EmptyTail(k, j) && Zeros(4 * j) <= b
  {
    assert k.primary[..|k.primary|] == k.primary;
    assert FullList(k.columns) + [] == FullList(k.columns);
    j := StripList(k.columns, [], b);
    assert Zeros(4 * j) + [] == Zeros(4 * j);
  }

  lemma NoColumns(columns: seq<Text>, j: nat, b: Text)
    requires j > 0 && Zeros(4 * j) + FullList(columns) <= PackList(columns) + b && |PackList(columns) + b| < U32
    ensures columns == [] && Zeros(4 * j) <= b
  {
    var n := |columns|;
    FullStringsSize(columns);
    ZerosAdd(4, 4 * (j - 1));
    Regroup(Zeros(4), Zeros(4 * (j - 1)), FullList(columns));
    Regroup(Little(n, 4), PackStrings(columns), b);
    HeadsAgree(Zeros(4), Little(n, 4), Zeros(4 * (j - 1)) + FullList(columns), PackStrings(columns) + b);
    OnlyZeroIsZero(n);
    assert FullList(columns) == Little(0, 4);
    LittleZero(4);
    ZerosAdd(4 * (j - 1), 4);
    assert [] + b == b;
  }

  // ---------------------------------------------------------------- the exact condition

  lemma ListDataOfEmptyTail(k: Key, j: nat)
    requires |EncodeIndexed(k, 0)| < U32 && 1 <= j <= 2 && EmptyTail(k, j)
    ensures DecodeKey(EncodeIndexed(k, 0)) == Got(TypedKey(Composite, k), |EncodeKey(Composite, k)| + 4 * j)
  {
    var e, raw := EncodeKey(Composite, k), EncodeIndexed(k, 0);
    BigZero(8);
    ZerosAdd(4 * j, 8 - 4 * j);
    Regroup(e, Zeros(4 * j), Zeros(8 - 4 * j));
    FullOfEmptyTail(k, j);
    DecodeOfFull(raw, Composite, k);
  }

  predicate ReadsAs(raw: Text, k: Key, index: Int64) {
    var r := DecodeKey(raw);
    r.Got? && r.value.key == k && IndexOrZero(raw, r.offset) == index
  }

  lemma EmptyTailReads(k: Key, j: nat)
    requires |EncodeIndexed(k, 0)| < U32 && 1 <= j <= 2 && EmptyTail(k, j)
    ensures ReadsAs(EncodeIndexed(k, 0), k, 0)
  {
    ListDataOfEmptyTail(k, j);
    IndexIsZero(k, 0, j);
  }

  lemma ImproperReads(k: Key, index: Int64) returns (j: nat)
    requires |EncodeIndexed(k, index)| < U32 && !Proper(k) && ReadsAs(EncodeIndexed(k, index), k, index)
    ensures index == 0 && 1 <= j <= 2 && EmptyTail(k, j)
  {
    j := ImproperKey(k, index);
    IndexIsZero(k, index, j);
  }

  /** A list data key is read back if and only if no component is empty, or the index is 0 and the one
      or two empty components are the last ones of the key. */
  lemma ListRoundTrip(k: Key, index: Int64)
    requires |EncodeIndexed(k, index)| < U32
    ensures (exists o :: DecodeListData(EncodeIndexed(k, index)) == Got(Indexed(k, index), o)) <==>
      Proper(k) || (index == 0 && exists j :: 1 <= j <= 2 && EmptyTail(k, j))
  {
    ListDataParts(EncodeIndexed(k, index), k, index);
    ReadsExactly(k, index);
  }

  lemma ReadsExactly(k: Key, index: Int64)
    requires |EncodeIndexed(k, index)| < U32
    ensures ReadsAs(EncodeIndexed(k, index), k, index) <==>
      Proper(k) || (index == 0 && exists j :: 1 <= j <= 2 && EmptyTail(k, j))
  {
    if Proper(k) {
      ProperParts(k, index);
    } else if ReadsAs(EncodeIndexed(k, index), k, index) {
      var j := ImproperReads(k, index);
    } else if j :| index == 0 && 1 <= j <= 2 && EmptyTail(k, j) {
      EmptyTailReads(k, j);
    }
  }

  lemma ProperParts(k: Key, index: Int64)
    requires |EncodeIndexed(k, index)| < U32 && Proper(k)
    ensures ReadsAs(EncodeIndexed(k, index), k, index)
  {
    var raw, o := EncodeIndexed(k, index), |EncodeKey(Composite, k)|;
    DecodeOfEncode(raw, Composite, k);
    IndexIs(k, index);
    ReadsIndex(raw, k, index, o);
  }

  lemma IndexIs(k: Key, index: Int64)
    ensures IndexOrZero(EncodeIndexed(k, index), |EncodeKey(Composite, k)|) == index
  {
    AtEnd(EncodeKey(Composite, k), Big(Unsigned(index), 8));
    IndexAt(EncodeIndexed(k, index), |EncodeKey(Composite, k)|, index);
  }

  lemma ReadsIndex(raw: Text, k: Key, index: Int64, o: nat)
    requires DecodeKey(raw) == Got(TypedKey(Composite, k), o) && IndexOrZero(raw, o) == index
    ensures ReadsAs(raw, k, index)
  {
  }

  lemma NoEmptyTailIsProper(k: Key)
    ensures EmptyTail(k, 0) <==> Proper(k)
  {
    assert k.primary[..|k.primary|] == k.primary && k.columns[..|k.columns|] == k.columns;
  }

  /** The decoder has used up the index, so it answers 0. */
  lemma IndexIsZero(k: Key, index: Int64, j: nat)
    requires |EncodeIndexed(k, index)| < U32 && 1 <= j <= 2 && EmptyTail(k, j)
    requires DecodeKey(EncodeIndexed(k, index)).Got? && DecodeKey(EncodeIndexed(k, index)).value.key == k
    ensures IndexOrZero(EncodeIndexed(k, index), DecodeKey(EncodeIndexed(k, index)).offset) == 0
  {
    DecodedIsFull(EncodeIndexed(k, index));
    FullOfEmptyTail(k, j);
  }

  lemma EncodedBody(k: Key, index: Int64)
    ensures EncodeIndexed(k, index)[1..] == PackList(k.primary) + PackList(k.columns) + Big(Unsigned(index), 8)
  {
    Regroup([TypeByte(Composite)], PackList(k.primary) + PackList(k.columns), Big(Unsigned(index), 8));
  }

  lemma ListDataParts(raw: Text, k: Key, index: Int64)
    ensures (exists o :: DecodeListData(raw) == Got(Indexed(k, index), o)) <==> ReadsAs(raw, k, index)
  {
  }

  lemma ImproperKey(k: Key, index: Int64) returns (j: nat)
    requires |EncodeIndexed(k, index)| < U32 && !Proper(k)
    requires DecodeKey(EncodeIndexed(k, index)).Got? && DecodeKey(EncodeIndexed(k, index)).value.key == k
    ensures 1 <= j <= 2 && EmptyTail(k, j)
  {
    DecodedIsFull(EncodeIndexed(k, index));
    EncodedBody(k, index);
    j := StripKey(k, Big(Unsigned(index), 8));
    NoEmptyTailIsProper(k);
  }
}
