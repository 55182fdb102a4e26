/** The binary key and value formats (common/laser/format.h, common/laser/format.cc): what encode
    writes, what decode reads back, and for which keys the two agree. */
module KeyCodec {
  import opened Common
  import opened Bytes

  datatype KeyType = Default | Composite | TtlSort

  datatype Key = Key(primary: seq<Text>, columns: seq<Text>)

  function TypeByte(t: KeyType): Byte {
    match t case Default => 1 case Composite => 2 case TtlSort => 3
  }

  function IntToKeyType(b: nat): KeyType {
    if b == 2 then Composite else Default
  }

  // ---------------------------------------------------------------- writing

  /** packString: an empty string leaves no trace at all. */
  function PackString(s: Text): Text {
    if s == [] then [] else Little(Wrap32(|s|), 4) + s
  }

  function PackStrings(ss: seq<Text>): Text {
    if ss == [] then [] else PackString(ss[0]) + PackStrings(ss[1..])
  }

  function PackList(ss: seq<Text>): Text {
    Little(Wrap32(|ss|), 4) + PackStrings(ss)
  }

  function EncodeKey(t: KeyType, k: Key): Text {
    [TypeByte(t)] + (PackList(k.primary) + PackList(k.columns))
  }

  /** A map or set member: the field-less prefix of its key, then the field. */
  function EncodeMember(k: Key, field: Text): Text {
    EncodeKey(Composite, k) + PackString(field)
  }

  /** A sorted-set score or list index under a key: big-endian two's complement. */
  function EncodeIndexed(k: Key, index: Int64): Text {
    EncodeKey(Composite, k) + Big(Unsigned(index), 8)
  }

  function EncodeTtl(k: Key, timestamp: nat): Text {
    [TypeByte(TtlSort)] + (PackString(Decimal(timestamp)) + PackString(EncodeKey(Default, k)))
  }

  // ---------------------------------------------------------------- reading

  /** Overrun: the 32-bit end offset wrapped around and the length check passed although the string
      reaches beyond the buffer. */
  datatype Read<+T> = Got(value: T, offset: nat) | Short | Overrun {
    predicate IsFailure() { !Got? }

    function PropagateFailure<U>(): Read<U>
      requires IsFailure()
    {
      if Short? then Short else Overrun
    }

    function Extract(): (T, nat)
      requires !IsFailure()
    {
      (value, offset)
    }
  }

  function ReadInt(raw: Text, offset: nat, width: nat): (r: Read<nat>)
    ensures r.Got? ==> r.offset <= |raw|
  {
    if |raw| < offset + width then Short
    else Got(FromLittle(raw[offset..offset + width]), Wrap32(offset + width))
  }

  function ReadString(raw: Text, offset: nat): (r: Read<Text>)
    ensures r.Got? ==> r.offset <= |raw|
  {
    var (size, start) :- ReadInt(raw, offset, 4);
    if |raw| < Wrap32(start + size) then Short
    else if |raw| < start + size then Overrun
    else Got(raw[start..start + size], Wrap32(start + size))
  }

  function ReadStrings(raw: Text, offset: nat, n: nat): (r: Read<seq<Text>>)
    ensures r.Got? ==> |r.value| == n && (offset <= |raw| ==> r.offset <= |raw|)
    decreases n
  {
    if n == 0 then Got([], offset)
    else
      var (s, o) :- ReadString(raw, offset);
      var (ss, o') :- ReadStrings(raw, o, n - 1);
      Got([s] + ss, o')
  }

  function ReadList(raw: Text, offset: nat): (r: Read<seq<Text>>)
    ensures r.Got? ==> r.offset <= |raw|
  {
    var (n, o) :- ReadInt(raw, offset, 4);
    ReadStrings(raw, o, n)
  }

  datatype TypedKey = TypedKey(keyType: KeyType, key: Key)

  function DecodeKey(raw: Text): (r: Read<TypedKey>)
    ensures r.Got? ==> r.offset <= |raw|
  {
    var (t, o1) :- ReadInt(raw, 0, 1);
    var (primary, o2) :- ReadList(raw, o1);
    var (columns, o3) :- ReadList(raw, o2);
    Got(TypedKey(IntToKeyType(t), Key(primary, columns)), o3)
  }

  datatype Member = Member(key: Key, field: Text)

  /** Map and set data keys: a field that cannot be read is an empty field. */
  function DecodeMember(raw: Text): Read<Member> {
    var (k, o) :- DecodeKey(raw);
    match ReadString(raw, o)
    case Short => Got(Member(k.key, []), o)
    case Overrun => Overrun
    case Got(field, o') => Got(Member(k.key, field), o')
  }

  datatype Indexed = Indexed(key: Key, index: Int64)

  /** Sorted-set data keys: without a score the key is refused. */
  function DecodeScored(raw: Text): Read<Indexed> {
    var (k, o) :- DecodeKey(raw);
    if |raw| < o + 8 then Short
    else
      FromBigBound(raw[o..o + 8]);
      Widths();
      Got(Indexed(k.key, Signed(FromBig(raw[o..o + 8]))), Wrap32(o + 8))
  }

  datatype Expiring = Expiring(key: Key, timestamp: nat)

  /** A timestamp that is no 64-bit number leaves the fresh object's zero. */
  function DecodeTtl(raw: Text): Read<Expiring> {
    var (_, o1) :- ReadInt(raw, 0, 1);
    var (stamp, o2) :- ReadString(raw, o1);
    var (inner, o3) :- ReadString(raw, o2);
    var (k, _) :- DecodeKey(inner);
    var parsed := ParseUnsigned(stamp, U64);
    Got(Expiring(k.key, if parsed.Some? then parsed.value else 0), o3)
  }

  // ---------------------------------------------------------------- values

  datatype ValueType = RawString | Counter | Map | List | Set | ZSet

  function ValueByte(t: ValueType): Byte {
    match t
    case RawString => 1 case Counter => 2 case Map => 3 case List => 4 case Set => 5 case ZSet => 6
  }

  function IntToValueType(b: nat): ValueType {
    if b == 2 then Counter else if b == 3 then Map else if b == 4 then List
    else if b == 5 then Set else if b == 6 then ZSet else RawString
  }

  function EncodeHeader(t: ValueType, timestamp: nat): Text {
    [ValueByte(t)] + Little(Wrap64(timestamp), 8)
  }

  function EncodeRawString(timestamp: nat, value: Text): Text {
    EncodeHeader(RawString, timestamp) + PackString(value)
  }

  function EncodeZSet(timestamp: nat, members: seq<Text>): Text {
    EncodeHeader(ZSet, timestamp) + PackList(members)
  }

  /** The type and timestamp every value starts with; the type must be the expected one. */
  function DecodeHeader(raw: Text, t: ValueType): Read<nat> {
    var (b, o1) :- ReadInt(raw, 0, 1);
    var (stamp, o2) :- ReadInt(raw, o1, 8);
    if IntToValueType(b) == t then Got(stamp, o2) else Short
  }

  function DecodeRawString(raw: Text): Read<(nat, Text)> {
    var (stamp, o1) :- DecodeHeader(raw, RawString);
    var (value, o2) :- ReadString(raw, o1);
    Got((stamp, value), o2)
  }

  function DecodeZSet(raw: Text): Read<(nat, seq<Text>)> {
    var (stamp, o1) :- DecodeHeader(raw, ZSet);
    var (members, o2) :- ReadList(raw, o1);
    Got((stamp, members), o2)
  }

  // ---------------------------------------------------------------- reading what was written

  predicate NonEmpty(ss: seq<Text>) {
    forall i | 0 <= i < |ss| :: ss[i] != []
  }

  /** A key every component of which leaves a trace in the encoding. */
  predicate Proper(k: Key) {
    NonEmpty(k.primary) && NonEmpty(k.columns)
  }

  /** The buffer holds x at an offset. */
  predicate At(raw: Text, offset: nat, x: Text)
    decreases offset
  {
    if offset == 0 then x <= raw else raw != [] && At(raw[1..], offset - 1, x)
  }

  lemma {:induction false} AtIs(raw: Text, offset: nat, x: Text)
    ensures At(raw, offset, x) <==> offset + |x| <= |raw| && raw[offset..offset + |x|] == x
    decreases offset
  {
    if offset == 0 {
      assert |x| <= |raw| ==> (x <= raw <==> raw[..|x|] == x);
    } else if raw != [] {
      AtIs(raw[1..], offset - 1, x);
      assert offset + |x| <= |raw| ==> raw[1..][offset - 1..offset - 1 + |x|] == raw[offset..offset + |x|];
    }
  }

  lemma AtEnd(a: Text, b: Text)
    ensures At(a + b, |a|, b)
  {
    AtIs(a + b, |a|, b);
  }

  lemma AtSplit(raw: Text, offset: nat, x: Text, y: Text)
    requires At(raw, offset, x + y)
    ensures At(raw, offset, x) && At(raw, offset + |x|, y)
  {
    var z := x + y;
    AtIs(raw, offset, z);
    assert raw[offset..offset + |x|] == raw[offset..offset + |z|][..|x|] == z[..|x|] == x;
    assert raw[offset + |x|..offset + |z|] == raw[offset..offset + |z|][|x|..] == z[|x|..] == y;
    AtIs(raw, offset, x);
    AtIs(raw, offset + |x|, y);
  }

  lemma ReadIntAt(raw: Text, offset: nat, n: nat, width: nat)
    requires |raw| < U32 && At(raw, offset, Little(n, width)) && n < Pow256(width)
    ensures ReadInt(raw, offset, width) == Got(n, offset + width)
  {
    AtIs(raw, offset, Little(n, width));
    FromLittleOfLittle(n, width);
  }

  lemma AtFits(raw: Text, offset: nat, x: Text)
    requires At(raw, offset, x)
    ensures offset + |x| <= |raw|
  {
    AtIs(raw, offset, x);
  }

  lemma ReadStringIs(raw: Text, offset: nat, s: Text)
    requires |raw| < U32 && offset + 4 + |s| <= |raw|
    requires ReadInt(raw, offset, 4) == Got(|s|, offset + 4) && raw[offset + 4..offset + 4 + |s|] == s
    ensures ReadString(raw, offset) == Got(s, offset + 4 + |s|)
  {
  }

  lemma SizeAt(raw: Text, offset: nat, n: nat)
    requires |raw| < U32 && At(raw, offset, Little(n, 4)) && n < U32
    ensures ReadInt(raw, offset, 4) == Got(n, offset + 4)
  {
    Widths();
    ReadIntAt(raw, offset, n, 4);
  }

  // ---------------------------------------------------------------- what reading expects

  /** A string as unpackString expects it: an empty one has a length too. */
  function FullString(s: Text): Text { Little(|s|, 4) + s }

  function FullStrings(ss: seq<Text>): Text {
    if ss == [] then [] else FullString(ss[0]) + FullStrings(ss[1..])
  }

  function FullList(ss: seq<Text>): Text { Little(|ss|, 4) + FullStrings(ss) }

  /** A key as decoding expects it. */
  function FullKey(t: KeyType, k: Key): Text {
    [TypeByte(t)] + (FullList(k.primary) + FullList(k.columns))
  }

  function FullSize(ss: seq<Text>): nat {
    if ss == [] then 0 else 4 + |ss[0]| + FullSize(ss[1..])
  }

  lemma NonEmptySplit(ss: seq<Text>)
    requires ss != []
    ensures NonEmpty(ss) <==> ss[0] != [] && NonEmpty(ss[1..])
  {
    assert forall i | 0 < i < |ss| :: ss[i] == ss[1..][i - 1];
  }

  lemma {:induction false} FullStringsSize(ss: seq<Text>)
    ensures |FullStrings(ss)| == FullSize(ss) && 4 * |ss| <= FullSize(ss)
  {
    if ss != [] {
      FullStringsSize(ss[1..]);
    }
  }

  lemma {:induction false} PackStringsSize(ss: seq<Text>)
    ensures |PackStrings(ss)| <= FullSize(ss)
    ensures |PackStrings(ss)| == FullSize(ss) <==> NonEmpty(ss)
    ensures 4 * |ss| <= FullSize(ss)
  {
    if ss != [] {
      PackStringsSize(ss[1..]);
      NonEmptySplit(ss);
    }
  }

  /** Packing writes what reading expects as long as nothing is empty. */
  lemma {:induction false} PackedIsFull(ss: seq<Text>)
    requires NonEmpty(ss) && |PackStrings(ss)| < U32
    ensures PackStrings(ss) == FullStrings(ss)
  {
    if ss != [] {
      NonEmptySplit(ss);
      PackedIsFull(ss[1..]);
    }
  }

  lemma PackedListIsFull(ss: seq<Text>)
    requires NonEmpty(ss) && |PackList(ss)| < U32
    ensures PackList(ss) == FullList(ss)
  {
    PackStringsSize(ss);
    PackedIsFull(ss);
  }

  lemma ReadFullAt(raw: Text, offset: nat, s: Text)
    requires |raw| < U32 && At(raw, offset, FullString(s))
    ensures ReadString(raw, offset) == Got(s, offset + 4 + |s|)
  {
    AtFits(raw, offset, FullString(s));
    AtSplit(raw, offset, Little(|s|, 4), s);
    AtIs(raw, offset + 4, s);
    SizeAt(raw, offset, |s|);
    ReadStringIs(raw, offset, s);
  }

  lemma ReadStringAt(raw: Text, offset: nat, s: Text)
    requires |raw| < U32 && At(raw, offset, PackString(s)) && s != []
    ensures ReadString(raw, offset) == Got(s, offset + 4 + |s|)
  {
    AtFits(raw, offset, PackString(s));
    assert PackString(s) == FullString(s);
    ReadFullAt(raw, offset, s);
  }

  lemma ReadOneMore(raw: Text, offset: nat, n: nat, s: Text, o: nat, ss: seq<Text>, o': nat)
    requires ReadString(raw, offset) == Got(s, o) && ReadStrings(raw, o, n) == Got(ss, o')
    ensures ReadStrings(raw, offset, n + 1) == Got([s] + ss, o')
  {
  }

  lemma TailAt(raw: Text, offset: nat, x: Text, n: nat, y: Text, z: Text)
    requires At(raw, offset, z) && z == x + y && |x| == n
    ensures At(raw, offset, x) && At(raw, offset + n, y)
  {
    AtSplit(raw, offset, x, y);
  }

  /** Strings that lie one behind the other. */
  predicate Laid(raw: Text, offset: nat, ss: seq<Text>)
    decreases ss
  {
    ss == [] || (At(raw, offset, FullString(ss[0])) && Laid(raw, offset + 4 + |ss[0]|, ss[1..]))
  }

  lemma {:induction false} LaidAt(raw: Text, offset: nat, ss: seq<Text>)
    requires At(raw, offset, FullStrings(ss))
    ensures Laid(raw, offset, ss)
    decreases ss
  {
    if ss != [] {
      TailAt(raw, offset, FullString(ss[0]), 4 + |ss[0]|, FullStrings(ss[1..]), FullStrings(ss));
      LaidAt(raw, offset + 4 + |ss[0]|, ss[1..]);
    }
  }

  lemma {:induction false} ReadLaid(raw: Text, offset: nat, ss: seq<Text>)
    requires |raw| < U32 && Laid(raw, offset, ss)
    ensures ReadStrings(raw, offset, |ss|) == Got(ss, offset + FullSize(ss))
    decreases ss
  {
    if ss != [] {
      var next := offset + 4 + |ss[0]|;
      ReadFullAt(raw, offset, ss[0]);
      ReadLaid(raw, next, ss[1..]);
      ReadOneMore(raw, offset, |ss| - 1, ss[0], next, ss[1..], next + FullSize(ss[1..]));
      assert ss == [ss[0]] + ss[1..];
    }
  }

  lemma ReadListAt(raw: Text, offset: nat, ss: seq<Text>)
    requires |raw| < U32 && At(raw, offset, FullList(ss))
    ensures ReadList(raw, offset) == Got(ss, offset + |FullList(ss)|)
  {
    FullStringsSize(ss);
    AtFits(raw, offset, FullList(ss));
    AtSplit(raw, offset, Little(|ss|, 4), FullStrings(ss));
    SizeAt(raw, offset, |ss|);
    LaidAt(raw, offset + 4, ss);
    ReadLaid(raw, offset + 4, ss);
  }

  lemma ReadByteAt(raw: Text, offset: nat, b: Byte)
    requires |raw| < U32 && At(raw, offset, [b])
    ensures ReadInt(raw, offset, 1) == Got(b, offset + 1)
  {
    Widths();
    assert Little(b, 1) == [b];
    ReadIntAt(raw, offset, b, 1);
  }

  /** A key is read back from the front of any buffer that starts with what decoding expects. */
  lemma DecodeOfFull(raw: Text, t: KeyType, k: Key)
    requires |raw| < U32 && FullKey(t, k) <= raw && t != TtlSort
    ensures DecodeKey(raw) == Got(TypedKey(t, k), |FullKey(t, k)|)
  {
    var p, c := FullList(k.primary), FullList(k.columns);
    PartsAt(raw, [TypeByte(t)], p, c);
    ReadByteAt(raw, 0, TypeByte(t));
    ReadListAt(raw, 1, k.primary);
    ReadListAt(raw, 1 + |p|, k.columns);
  }

  lemma EncodedIsFull(t: KeyType, k: Key)
    requires |EncodeKey(t, k)| < U32 && Proper(k)
    ensures EncodeKey(t, k) == FullKey(t, k)
  {
    PackedListIsFull(k.primary);
    PackedListIsFull(k.columns);
  }

  /** An encoded key is read back from the front of any buffer that starts with it. */
  lemma DecodeOfEncode(raw: Text, t: KeyType, k: Key)
    requires |raw| < U32 && EncodeKey(t, k) <= raw && Proper(k) && t != TtlSort
    ensures DecodeKey(raw) == Got(TypedKey(t, k), |EncodeKey(t, k)|)
  {
    EncodedIsFull(t, k);
    DecodeOfFull(raw, t, k);
  }

  lemma PartsAt(raw: Text, head: Text, p: Text, c: Text)
    requires head + (p + c) <= raw
    ensures At(raw, 0, head) && At(raw, |head|, p) && At(raw, |head| + |p|, c)
  {
    assert At(raw, 0, head + (p + c));
    AtSplit(raw, 0, head, p + c);
    AtSplit(raw, |head|, p, c);
  }

  // ---------------------------------------------------------------- how much reading consumes

  lemma ReadStringConsumes(raw: Text, offset: nat)
    requires |raw| < U32 && ReadString(raw, offset).Got?
    ensures var r := ReadString(raw, offset);
      r.offset == offset + 4 + |r.value|
  {
  }

  lemma {:induction false} ReadStringsConsumes(raw: Text, offset: nat, n: nat)
    requires |raw| < U32 && ReadStrings(raw, offset, n).Got?
    ensures var r := ReadStrings(raw, offset, n);
      r.offset == offset + FullSize(r.value)
    decreases n
  {
    if n > 0 {
      ReadStringConsumes(raw, offset);
      var r := ReadString(raw, offset);
      ReadStringsConsumes(raw, r.offset, n - 1);
      assert ReadStrings(raw, offset, n).value[1..] == ReadStrings(raw, r.offset, n - 1).value;
    }
  }

  lemma ReadListConsumes(raw: Text, offset: nat)
    requires |raw| < U32 && ReadList(raw, offset).Got?
    ensures var r := ReadList(raw, offset);
      r.offset == offset + 4 + FullSize(r.value)
  {
    ReadStringsConsumes(raw, offset + 4, ReadInt(raw, offset, 4).value);
  }

  lemma DecodeConsumes(raw: Text)
    requires |raw| < U32 && DecodeKey(raw).Got?
    ensures var r := DecodeKey(raw);
      r.offset == 9 + FullSize(r.value.key.primary) + FullSize(r.value.key.columns) <= |raw|
  {
    ReadListConsumes(raw, 1);
    ReadListConsumes(raw, ReadList(raw, 1).offset);
  }

  lemma EncodeSize(t: KeyType, k: Key)
    ensures |EncodeKey(t, k)| <= 9 + FullSize(k.primary) + FullSize(k.columns)
    ensures |EncodeKey(t, k)| == 9 + FullSize(k.primary) + FullSize(k.columns) <==> Proper(k)
  {
    PackStringsSize(k.primary);
    PackStringsSize(k.columns);
  }

  // ---------------------------------------------------------------- round trips, exactly

  /** Decoding undoes encoding of a base key exactly when no component is empty and the type is one
      that decoding knows. */
  lemma KeyRoundTrip(t: KeyType, k: Key)
    requires |EncodeKey(t, k)| < U32
    ensures (exists o :: DecodeKey(EncodeKey(t, k)) == Got(TypedKey(t, k), o)) <==> Proper(k) && t != TtlSort
  {
    var raw := EncodeKey(t, k);
    EncodeSize(t, k);
    if Proper(k) && t != TtlSort {
      DecodeOfEncode(raw, t, k);
    }
    if DecodeKey(raw).Got? && DecodeKey(raw).value == TypedKey(t, k) {
      DecodeConsumes(raw);
    }
  }

  /** The same for map and set data keys, whose field may be empty. */
  lemma MemberRoundTrip(k: Key, field: Text)
    requires |EncodeMember(k, field)| < U32
    ensures (exists o :: DecodeMember(EncodeMember(k, field)) == Got(Member(k, field), o)) <==> Proper(k)
  {
    var raw := EncodeMember(k, field);
    EncodeSize(Composite, k);
    if Proper(k) {
      DecodeOfEncode(raw, Composite, k);
      if field != [] {
        AtEnd(EncodeKey(Composite, k), PackString(field));
        ReadStringAt(raw, |EncodeKey(Composite, k)|, field);
      }
    }
    if DecodeMember(raw).Got? && DecodeMember(raw).value == Member(k, field) {
      DecodeConsumes(raw);
      var o := DecodeKey(raw).offset;
      if ReadString(raw, o).Got? {
        ReadStringConsumes(raw, o);
      }
    }
  }

  lemma IndexAt(raw: Text, offset: nat, index: Int64)
    requires At(raw, offset, Big(Unsigned(index), 8))
    ensures offset + 8 <= |raw|
    ensures FromBig(raw[offset..offset + 8]) == Unsigned(index) && Signed(Unsigned(index)) == index
  {
    Widths();
    AtIs(raw, offset, Big(Unsigned(index), 8));
    FromBigOfBig(Unsigned(index), 8);
  }

  lemma DecodeScoredOfEncode(k: Key, index: Int64)
    requires |EncodeIndexed(k, index)| < U32 && Proper(k)
    ensures DecodeScored(EncodeIndexed(k, index)) == Got(Indexed(k, index), |EncodeIndexed(k, index)|)
  {
    var raw, o := EncodeIndexed(k, index), |EncodeKey(Composite, k)|;
    DecodeOfEncode(raw, Composite, k);
    AtEnd(EncodeKey(Composite, k), Big(Unsigned(index), 8));
    ReadsScore(raw, k, index, o);
  }

  lemma ReadsScore(raw: Text, k: Key, index: Int64, o: nat)
    requires DecodeKey(raw) == Got(TypedKey(Composite, k), o) && At(raw, o, Big(Unsigned(index), 8))
    ensures DecodeScored(raw) == Got(Indexed(k, index), Wrap32(o + 8))
  {
    IndexAt(raw, o, index);
  }

  /** Sorted-set data keys. */
  lemma ScoredRoundTrip(k: Key, index: Int64)
    requires |EncodeIndexed(k, index)| < U32
    ensures (exists o :: DecodeScored(EncodeIndexed(k, index)) == Got(Indexed(k, index), o)) <==> Proper(k)
  {
    if Proper(k) {
      DecodeScoredOfEncode(k, index);
    } else {
      var raw := EncodeIndexed(k, index);
      EncodeSize(Composite, k);
      if DecodeScored(raw).Got? && DecodeScored(raw).value == Indexed(k, index) {
        DecodeConsumes(raw);
      }
    }
  }

  /** Expiry keys: a decimal timestamp, then a whole encoded key as one string. */
  lemma TtlRoundTrip(k: Key, timestamp: nat)
    requires |EncodeTtl(k, timestamp)| < U32 && timestamp < U64
    ensures (exists o :: DecodeTtl(EncodeTtl(k, timestamp)) == Got(Expiring(k, timestamp), o)) <==> Proper(k)
  {
    var raw := EncodeTtl(k, timestamp);
    var stamp, inner := Decimal(timestamp), EncodeKey(Default, k);
    assert At(raw, 0, raw);
    AtSplit(raw, 0, [TypeByte(TtlSort)], PackString(stamp) + PackString(inner));
    AtSplit(raw, 1, PackString(stamp), PackString(inner));
    ReadByteAt(raw, 0, TypeByte(TtlSort));
    ReadStringAt(raw, 1, stamp);
    ReadStringAt(raw, 5 + |stamp|, inner);
    ParseUnsignedOfDecimal(timestamp, U64);
    InnerRoundTrip(k);
  }

  // The nested key decides whether an expiry key can be read back.
  lemma InnerRoundTrip(k: Key)
    requires |EncodeKey(Default, k)| < U32
    ensures var r := DecodeKey(EncodeKey(Default, k));
      r.Got? && r.value.key == k <==> Proper(k)
  {
    var raw := EncodeKey(Default, k);
    EncodeSize(Default, k);
    if Proper(k) {
      DecodeOfEncode(raw, Default, k);
    }
    if DecodeKey(raw).Got? && DecodeKey(raw).value.key == k {
      DecodeConsumes(raw);
    }
  }

  lemma DecodeHeaderAt(raw: Text, t: ValueType, timestamp: nat)
    requires |raw| < U32 && EncodeHeader(t, timestamp) <= raw && timestamp < U64
    ensures DecodeHeader(raw, t) == Got(timestamp, 9)
  {
    Widths();
    assert At(raw, 0, EncodeHeader(t, timestamp));
    AtSplit(raw, 0, [ValueByte(t)], Little(timestamp, 8));
    ReadByteAt(raw, 0, ValueByte(t));
    ReadIntAt(raw, 1, timestamp, 8);
  }

  /** A stored string can be read back exactly when it is not empty. */
  lemma RawStringRoundTrip(timestamp: nat, value: Text)
    requires timestamp < U64 && 13 + |value| < U32
    ensures DecodeRawString(EncodeRawString(timestamp, value)).Got? <==> value != []
    ensures value != [] ==>
      exists o :: DecodeRawString(EncodeRawString(timestamp, value)) == Got((timestamp, value), o)
  {
    var raw := EncodeRawString(timestamp, value);
    DecodeHeaderAt(raw, RawString, timestamp);
    if value != [] {
      AtEnd(EncodeHeader(RawString, timestamp), PackString(value));
      ReadStringAt(raw, 9, value);
    }
  }

  /** The members of one score are read back exactly when none is empty; there may be none. */
  lemma ZSetRoundTrip(timestamp: nat, members: seq<Text>)
    requires timestamp < U64 && |EncodeZSet(timestamp, members)| < U32
    ensures (exists o :: DecodeZSet(EncodeZSet(timestamp, members)) == Got((timestamp, members), o)) <==>
      NonEmpty(members)
  {
    var raw := EncodeZSet(timestamp, members);
    DecodeHeaderAt(raw, ZSet, timestamp);
    PackStringsSize(members);
    if NonEmpty(members) {
      AtEnd(EncodeHeader(ZSet, timestamp), PackList(members));
      PackedListIsFull(members);
      ReadListAt(raw, 9, members);
    }
    if ReadList(raw, 9).Got? && ReadList(raw, 9).value == members {
      ReadListConsumes(raw, 9);
    }
  }

  // ---------------------------------------------------------------- prefix scans

  /** A scan for the field-less encoding of one key meets the data of that key and of no other. */
  lemma PrefixScanIsExact(k1: Key, k2: Key, data: Text)
    requires Proper(k1) && Proper(k2) && |EncodeKey(Composite, k2) + data| < U32
    ensures EncodeKey(Composite, k1) <= EncodeKey(Composite, k2) + data <==> k1 == k2
  {
    var raw := EncodeKey(Composite, k2) + data;
    if EncodeKey(Composite, k1) <= raw {
      DecodeOfEncode(raw, Composite, k1);
      DecodeOfEncode(raw, Composite, k2);
    }
  }

  lemma PackSingle(s: Text)
    ensures PackList([s]) == Little(1, 4) + PackString(s)
  {
    assert [s][1..] == [];
    assert PackStrings([s]) == PackString(s) + PackStrings([]);
  }

  lemma SharedStart(head: Text, one: Text, x: Text, y: Text)
    ensures head + ((one + []) + (one + [])) <= head + ((one + (one + x)) + y)
  {
    assert head + ((one + []) + (one + [])) == head + one + one;
    assert head + ((one + (one + x)) + y) == head + one + one + (x + y);
  }

  /** With an empty component the scan of one key runs into the data of another. */
  lemma EmptyComponentMixesScans(c: Byte, columns: seq<Text>, data: Text)
    ensures var k1, k2 := Key([[]], [[]]), Key([[c]], columns);
      k1 != k2 && EncodeKey(Composite, k1) <= EncodeKey(Composite, k2) + data
  {
    var k2 := Key([[c]], columns);
    PackSingle([]);
    PackSingle([c]);
    var one := Little(1, 4);
    assert PackString([c]) == one + [c];
    var y := PackList(columns) + data;
    SharedStart([2], one, [c], y);
    Regroup([2], PackList([[c]]) + PackList(columns), data);
    Regroup(PackList([[c]]), PackList(columns), data);
  }
}
