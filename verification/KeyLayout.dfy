/** Where the parts of encoded keys and values lie (common/laser/format.h, common/laser/format.cc),
    stated by offsets and bytes rather than by what encodes and decodes them. */
module KeyLayout {
  import opened Bytes
  import opened Common
  import opened KeyCodec

  // ---------------------------------------------------------------- lists of strings

  /** The room the first i strings take: four bytes of length and the string, or nothing at all. */
  function Room(ss: seq<Text>, i: nat): nat
    requires i <= |ss|
    decreases ss
  {
    if i == 0 then 0 else (if ss[0] == [] then 0 else 4 + |ss[0]|) + Room(ss[1..], i - 1)
  }

  lemma {:induction false} RoomOfAll(ss: seq<Text>)
    ensures |PackStrings(ss)| == Room(ss, |ss|)
  {
    if ss != [] {
      RoomOfAll(ss[1..]);
    }
  }

  lemma {:induction false} StringAt(raw: Text, offset: nat, ss: seq<Text>, i: nat)
    requires At(raw, offset, PackStrings(ss)) && i < |ss|
    ensures At(raw, offset + Room(ss, i), PackString(ss[i]))
    decreases ss
  {
    AtSplit(raw, offset, PackString(ss[0]), PackStrings(ss[1..]));
    if i > 0 {
      StringAt(raw, offset + |PackString(ss[0])|, ss[1..], i - 1);
    }
  }

  // ---------------------------------------------------------------- reading a string

  /** A string is read from within the buffer if and only if it lies there whole. A length that carries
      the end beyond 2^32 is compared after it has wrapped around: it is taken as lying in the buffer
      although it does not, unless even the wrapped end is outside. */
  lemma StringIsRead(raw: Text, offset: nat)
    requires |raw| < U32
    ensures var r := ReadString(raw, offset);
      var size := if offset + 4 <= |raw| then FromLittle(raw[offset..offset + 4]) else 0;
      var end := offset + 4 + size;
      && (r.Got? <==> end <= |raw|)
      && (r.Got? ==> r.value == raw[offset + 4..end] && r.offset == end)
      && (r.Overrun? <==> offset + 4 <= |raw| && U32 <= end && end - U32 <= |raw|)
  {
    if offset + 4 <= |raw| {
      LengthFits(raw, offset);
    }
  }

  lemma LengthFits(raw: Text, offset: nat)
    requires offset + 4 <= |raw|
    ensures FromLittle(raw[offset..offset + 4]) < U32
  {
    Widths();
    FromLittleBound(raw[offset..offset + 4]);
  }

  // ---------------------------------------------------------------- keys

  /** A key is its type (1, 2 or 3), the number of primary keys in four bytes, the primary keys, the
      number of columns and the columns. */
  lemma KeyParts(t: KeyType, k: Key)
    ensures var raw, n := EncodeKey(t, k), Room(k.primary, |k.primary|);
      && raw[0] == (if t == Default then 1 else if t == Composite then 2 else 3)
      && At(raw, 1, Little(Wrap32(|k.primary|), 4)) && At(raw, 5, PackStrings(k.primary))
      && At(raw, 5 + n, Little(Wrap32(|k.columns|), 4)) && At(raw, 9 + n, PackStrings(k.columns))
      && |raw| == 9 + n + Room(k.columns, |k.columns|)
  {
    var raw, n := EncodeKey(t, k), Room(k.primary, |k.primary|);
    RoomOfAll(k.primary);
    RoomOfAll(k.columns);
    assert At(raw, 0, raw);
    AtSplit(raw, 0, [TypeByte(t)], PackList(k.primary) + PackList(k.columns));
    AtSplit(raw, 1, PackList(k.primary), PackList(k.columns));
    AtSplit(raw, 1, Little(Wrap32(|k.primary|), 4), PackStrings(k.primary));
    AtSplit(raw, 5 + n, Little(Wrap32(|k.columns|), 4), PackStrings(k.columns));
  }

  lemma PrimaryAt(t: KeyType, k: Key)
    ensures At(EncodeKey(t, k), 5, PackStrings(k.primary))
  {
    KeyParts(t, k);
  }

  lemma ColumnsAt(t: KeyType, k: Key)
    ensures At(EncodeKey(t, k), 9 + Room(k.primary, |k.primary|), PackStrings(k.columns))
  {
    KeyParts(t, k);
  }

  lemma ComponentAt(raw: Text, offset: nat, ss: seq<Text>, i: nat)
    requires At(raw, offset, PackStrings(ss)) && i < |ss| && ss[i] != []
    ensures At(raw, offset + Room(ss, i), Little(Wrap32(|ss[i]|), 4) + ss[i])
  {
    StringAt(raw, offset, ss, i);
  }

  /** A component that is not empty stands, with its length in front, where the room of those before it
      ends; an empty one takes no room. */
  lemma PrimaryLies(t: KeyType, k: Key, i: nat)
    requires i < |k.primary| && k.primary[i] != []
    ensures At(EncodeKey(t, k), 5 + Room(k.primary, i), Little(Wrap32(|k.primary[i]|), 4) + k.primary[i])
  {
    PrimaryAt(t, k);
    ComponentAt(EncodeKey(t, k), 5, k.primary, i);
  }

  lemma ColumnLies(t: KeyType, k: Key, i: nat)
    requires i < |k.columns| && k.columns[i] != []
    ensures var n := 9 + Room(k.primary, |k.primary|);
      At(EncodeKey(t, k), n + Room(k.columns, i), Little(Wrap32(|k.columns[i]|), 4) + k.columns[i])
  {
    ColumnsAt(t, k);
    ComponentAt(EncodeKey(t, k), 9 + Room(k.primary, |k.primary|), k.columns, i);
  }

  /** Everything stored under a key starts with the key itself, type 2, and its field, score or index
      follows: a field with its length, a number as eight bytes with the most significant first. */
  lemma DataKeyParts(k: Key, field: Text, number: Int64)
    ensures var p := EncodeKey(Composite, k);
      && p <= EncodeMember(k, field) && p <= EncodeIndexed(k, number)
      && (field != [] ==> At(EncodeMember(k, field), |p|, Little(Wrap32(|field|), 4) + field))
      && |EncodeIndexed(k, number)| == |p| + 8 && FromBig(EncodeIndexed(k, number)[|p|..]) == Unsigned(number)
  {
    var p := EncodeKey(Composite, k);
    var big := Big(Unsigned(number), 8);
    assert (p + big)[|p|..] == big;
    Widths();
    FromBigOfBig(Unsigned(number), 8);
    AtEnd(p, PackString(field));
  }

  lemma TwoStrings(first: Byte, a: Text, b: Text)
    requires a != [] && b != []
    ensures var raw := [first] + (PackString(a) + PackString(b));
      && |raw| == 9 + |a| + |b| && raw[0] == first
      && At(raw, 1, Little(Wrap32(|a|), 4) + a) && At(raw, 5 + |a|, Little(Wrap32(|b|), 4) + b)
  {
    var raw := [first] + (PackString(a) + PackString(b));
    assert At(raw, 0, raw);
    AtSplit(raw, 0, [first], PackString(a) + PackString(b));
    AtSplit(raw, 1, PackString(a), PackString(b));
  }

  /** An expiry key is type 3, the decimal timestamp with its length, and then, with its length, byte
      for byte the key of the data that expires. */
  lemma TtlParts(k: Key, timestamp: nat)
    ensures var raw, stamp, data := EncodeTtl(k, timestamp), Decimal(timestamp), EncodeKey(Default, k);
      && |raw| == 9 + |stamp| + |data| && raw[0] == 3 && data[0] == 1
      && At(raw, 1, Little(Wrap32(|stamp|), 4) + stamp)
      && At(raw, 5 + |stamp|, Little(Wrap32(|data|), 4) + data)
  {
    TwoStrings(TypeByte(TtlSort), Decimal(timestamp), EncodeKey(Default, k));
  }

  // ---------------------------------------------------------------- values

  lemma HeaderParts(t: ValueType, timestamp: nat, body: Text)
    requires timestamp < U64
    ensures var raw := EncodeHeader(t, timestamp) + body;
      && |raw| == 9 + |body| && raw[0] == ValueByte(t) && FromLittle(raw[1..9]) == timestamp
      && At(raw, 9, body)
  {
    var raw := EncodeHeader(t, timestamp) + body;
    assert raw[1..9] == Little(timestamp, 8);
    Widths();
    FromLittleOfLittle(timestamp, 8);
    AtEnd(EncodeHeader(t, timestamp), body);
  }

  /** A value of another type is refused. */
  lemma OtherTypeIsRefused(t: ValueType, u: ValueType, timestamp: nat, body: Text)
    requires |body| + 9 < U32 && timestamp < U64
    ensures DecodeHeader(EncodeHeader(u, timestamp) + body, t).Got? <==> t == u
  {
    var raw := EncodeHeader(u, timestamp) + body;
    DecodeHeaderAt(raw, u, timestamp);
  }

  /** A stored string is type 1, the expiry time in eight bytes, and the string with its length. */
  lemma RawStringParts(timestamp: nat, value: Text)
    requires timestamp < U64
    ensures var raw := EncodeRawString(timestamp, value);
      && raw[0] == 1 && |raw| >= 9 && FromLittle(raw[1..9]) == timestamp
      && |raw| == (if value == [] then 9 else 13 + |value|)
      && (value != [] ==> At(raw, 9, Little(Wrap32(|value|), 4) + value))
  {
    HeaderParts(RawString, timestamp, PackString(value));
  }

  /** The members of a score are type 6, the expiry time, their number, and each with its length. */
  lemma ZSetParts(timestamp: nat, members: seq<Text>)
    requires timestamp < U64
    ensures var raw := EncodeZSet(timestamp, members);
      && |raw| == 13 + Room(members, |members|) && raw[0] == 6 && FromLittle(raw[1..9]) == timestamp
      && At(raw, 9, Little(Wrap32(|members|), 4)) && At(raw, 13, PackStrings(members))
  {
    HeaderParts(ZSet, timestamp, PackList(members));
    RoomOfAll(members);
    AtSplit(EncodeZSet(timestamp, members), 9, Little(Wrap32(|members|), 4), PackStrings(members));
  }

  lemma MemberLies(timestamp: nat, members: seq<Text>, i: nat)
    requires timestamp < U64 && i < |members| && members[i] != []
    ensures At(EncodeZSet(timestamp, members), 13 + Room(members, i), Little(Wrap32(|members[i]|), 4) + members[i])
  {
    ZSetParts(timestamp, members);
    ComponentAt(EncodeZSet(timestamp, members), 13, members, i);
  }
}
