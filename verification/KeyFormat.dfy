/** The serializer objects (common/laser/format.h): a buffer that grows, an offset that advances and
    member vectors that decoding appends to. Their methods compute what KeyCodec specifies. */
module KeyFormats {
  import opened Bytes
  import opened Common
  import Codec = KeyCodec
  import opened KeyCodec
  import ListKeys

  /** The strings read so far, followed by the rest of the reading. */
  function Prepend(done: seq<Text>, r: Read<seq<Text>>): Read<seq<Text>> {
    if r.Got? then Got(done + r.value, r.offset) else r
  }

  lemma PrependStep(raw: Text, offset: nat, n: nat, done: seq<Text>)
    requires n > 0
    ensures var r := ReadString(raw, offset);
      Prepend(done, ReadStrings(raw, offset, n)) ==
      if r.Got? then Prepend(done + [r.value], ReadStrings(raw, r.offset, n - 1)) else r.PropagateFailure()
  {
    var r := ReadString(raw, offset);
    if r.Got? && ReadStrings(raw, r.offset, n - 1).Got? {
      var rest := ReadStrings(raw, r.offset, n - 1).value;
      assert done + ([r.value] + rest) == done + [r.value] + rest;
    }
  }

  lemma PrependNothing(r: Read<seq<Text>>)
    ensures Prepend([], r) == r
  {
    if r.Got? {
      assert [] + r.value == r.value;
    }
  }

  lemma PackStringsStep(done: Text, ss: seq<Text>, i: nat)
    requires i < |ss|
    ensures done + PackStrings(ss[i..]) == done + Codec.PackString(ss[i]) + PackStrings(ss[i + 1..])
  {
    assert ss[i..][1..] == ss[i + 1..];
  }

  /** An integer in either byte order. */
  function ReadEndian(raw: Text, offset: nat, width: nat, little: bool): Read<nat> {
    if little then ReadInt(raw, offset, width)
    else if |raw| < offset + width then Short
    else Got(FromBig(raw[offset..offset + width]), Wrap32(offset + width))
  }

  function Endian(n: nat, width: nat, little: bool): Text {
    if little then Little(n, width) else Big(n, width)
  }

  lemma ReadsPacked(before: Text, n: nat, width: nat, little: bool)
    requires n < Pow256(width)
    ensures ReadEndian(before + Endian(n, width, little), |before|, width, little) ==
      Got(n, Wrap32(|before| + width))
  {
    var bytes := Endian(n, width, little);
    assert (before + bytes)[|before|..|before| + width] == bytes;
    FromLittleOfLittle(n, width);
    FromBigOfBig(n, width);
  }

  /** The strings that can be read one after the other, up to the first that cannot. */
  function StringsRead(raw: Text, offset: nat, n: nat): seq<Text>
    decreases n
  {
    if n == 0 || !ReadString(raw, offset).Got? then []
    else [ReadString(raw, offset).value] + StringsRead(raw, ReadString(raw, offset).offset, n - 1)
  }

  lemma StringsReadStep(raw: Text, offset: nat, n: nat, done: seq<Text>)
    requires n > 0 && ReadString(raw, offset).Got?
    ensures var r := ReadString(raw, offset);
      done + StringsRead(raw, offset, n) == done + [r.value] + StringsRead(raw, r.offset, n - 1)
  {
  }

  function ListRead(raw: Text, offset: nat): seq<Text> {
    var size := ReadInt(raw, offset, 4);
    if size.Got? then StringsRead(raw, size.offset, size.value) else []
  }

  /** What a decode has read when it stops: the first list, and the second only behind a whole first. */
  function PrimaryRead(raw: Text): seq<Text> {
    var t := ReadInt(raw, 0, 1);
    if t.Got? then ListRead(raw, t.offset) else []
  }

  function ColumnsRead(raw: Text): seq<Text> {
    var t := ReadInt(raw, 0, 1);
    if t.Got? && ReadList(raw, t.offset).Got? then ListRead(raw, ReadList(raw, t.offset).offset) else []
  }

  class LaserSerializer {
    var raw: Text
    var offset: nat

    constructor (data: Text)
      ensures raw == data && offset == 0
    {
      raw, offset := data, 0;
    }

    /** The value is brought into the wanted byte order and its memory appended, on a machine that
        keeps the least significant byte first. */
    method PackInt(n: nat, width: nat, little: bool := true)
      modifies `raw
      ensures raw == old(raw) + Endian(n, width, little)
      ensures n < Pow256(width) ==>
        ReadEndian(raw, |old(raw)|, width, little) == Got(n, Wrap32(|old(raw)| + width))
    {
      var value := n;
      if !little {
        value := Swap(n, width);
        SwapIsBig(n, Little(n, width));
      }
      if n < Pow256(width) {
        ReadsPacked(raw, n, width, little);
      }
      raw := raw + Little(value, width);
    }

    method PackString(s: Text)
      modifies `raw
      ensures raw == old(raw) + Codec.PackString(s)
    {
      if s == [] {
        return;
      }
      PackInt(Wrap32(|s|), 4);
      raw := raw + s;
    }

    method PackList(ss: seq<Text>)
      modifies `raw
      ensures raw == old(raw) + Codec.PackList(ss)
    {
      PackInt(Wrap32(|ss|), 4);
      PackAll(ss);
      Regroup(old(raw), Little(Wrap32(|ss|), 4), PackStrings(ss));
    }

    method PackAll(ss: seq<Text>)
      modifies `raw
      ensures raw == old(raw) + PackStrings(ss)
    {
      for i := 0 to |ss|
        invariant raw + PackStrings(ss[i..]) == old(raw) + PackStrings(ss)
      {
        PackStringsStep(raw, ss, i);
        PackString(ss[i]);
      }
      assert ss[|ss|..] == [];
    }

    method UnpackInt(width: nat, little: bool := true) returns (r: Read<nat>)
      modifies `offset
      ensures r == ReadEndian(raw, old(offset), width, little)
      ensures offset == if r.Got? then r.offset else old(offset)
    {
      if |raw| < offset + width {
        return Short;
      }
      var bytes := raw[offset..offset + width];
      var value := FromLittle(bytes);
      offset := Wrap32(offset + width);
      if !little {
        SwapIsBig(value, bytes);
        value := Swap(value, width);
      }
      return Got(value, offset);
    }

    method UnpackString() returns (r: Read<Text>)
      modifies `offset
      ensures r == ReadString(raw, old(offset))
      ensures r.Got? ==> offset == r.offset
    {
      var size := UnpackInt(4);
      if !size.Got? {
        return Short;
      }
      if |raw| < Wrap32(offset + size.value) {
        return Short;
      }
      if |raw| < offset + size.value {
        return Overrun;
      }
      var value := raw[offset..offset + size.value];
      offset := Wrap32(offset + size.value);
      return Got(value, offset);
    }

    method UnpackList() returns (r: Read<seq<Text>>, read: seq<Text>)
      modifies `offset
      ensures r == ReadList(raw, old(offset)) && read == ListRead(raw, old(offset))
      ensures r.Got? ==> offset == r.offset && read == r.value
    {
      var size := UnpackInt(4);
      if !size.Got? {
        return Short, [];
      }
      r, read := UnpackAll(size.value);
    }

    method UnpackAll(n: nat) returns (r: Read<seq<Text>>, read: seq<Text>)
      modifies `offset
      ensures r == ReadStrings(raw, old(offset), n) && read == StringsRead(raw, old(offset), n)
      ensures r.Got? ==> offset == r.offset && read == r.value
    {
      read := [];
      PrependNothing(ReadStrings(raw, offset, n));
      for i := 0 to n
        invariant ReadStrings(raw, old(offset), n) == Prepend(read, ReadStrings(raw, offset, n - i))
        invariant StringsRead(raw, old(offset), n) == read + StringsRead(raw, offset, n - i)
      {
        PrependStep(raw, offset, n - i, read);
        ghost var o := offset;
        var s := UnpackString();
        if !s.Got? {
          assert StringsRead(raw, o, n - i) == [];
          return s.PropagateFailure(), read;
        }
        StringsReadStep(raw, o, n - i, read);
        read := read + [s.value];
      }
      assert read + [] == read;
      return Got(read, offset), read;
    }
  }

  class LaserKeyFormat {
    const buffer: LaserSerializer
    var keyType: KeyType
    var primary: seq<Text>
    var columns: seq<Text>

    /** A key to be encoded. */
    constructor (keyType: KeyType, key: Key)
      ensures fresh(buffer) && buffer.raw == EncodeKey(keyType, key)
      ensures this.keyType == keyType && Key(primary, columns) == key
    {
      this.keyType, primary, columns := keyType, key.primary, key.columns;
      buffer := new LaserSerializer([]);
      new;
      Encode();
    }

    /** A fresh object around received bytes. */
    constructor FromBuffer(data: Text)
      ensures fresh(buffer) && buffer.raw == data
      ensures keyType == Default && primary == [] && columns == []
    {
      keyType, primary, columns := Default, [], [];
      buffer := new LaserSerializer(data);
    }

    method Encode()
      modifies buffer
      ensures buffer.raw == EncodeKey(keyType, Key(primary, columns))
    {
      buffer.raw := [];
      assert Little(TypeByte(keyType), 1) == [TypeByte(keyType)];
      buffer.PackInt(TypeByte(keyType), 1);
      buffer.PackList(primary);
      buffer.PackList(columns);
    }

    /** Decoding appends to what the object already holds, also when it fails half way. */
    method Decode() returns (r: Read<TypedKey>)
      modifies this, buffer
      ensures buffer.raw == old(buffer.raw) && r == DecodeKey(buffer.raw)
      ensures primary == old(primary) + PrimaryRead(buffer.raw) && columns == old(columns) + ColumnsRead(buffer.raw)
      ensures var t := ReadInt(buffer.raw, 0, 1);
        keyType == if t.Got? then IntToKeyType(t.value) else old(keyType)
      ensures r.Got? ==>
        && buffer.offset == r.offset && keyType == r.value.keyType
        && Key(PrimaryRead(buffer.raw), ColumnsRead(buffer.raw)) == r.value.key
    {
      buffer.offset := 0;
      var t := buffer.UnpackInt(1);
      if !t.Got? {
        return t.PropagateFailure();
      }
      keyType := IntToKeyType(t.value);
      var ps, readPrimary := buffer.UnpackList();
      primary := primary + readPrimary;
      if !ps.Got? {
        return ps.PropagateFailure();
      }
      var cs, readColumns := buffer.UnpackList();
      columns := columns + readColumns;
      if !cs.Got? {
        return cs.PropagateFailure();
      }
      return Got(TypedKey(keyType, Key(ps.value, cs.value)), buffer.offset);
    }
  }

  /** The number of a data key behind the encoded key: a score or an index, eight bytes with the most
      significant first. */
  function EncodeNumber(number: Option<Int64>): Text {
    if number.Some? then Big(Unsigned(number.value), 8) else []
  }

  class LaserKeyFormatZSetData {
    const base: LaserKeyFormat
    var score: Option<Int64>

    constructor (key: Key, score: Option<Int64>)
      ensures fresh(base) && fresh(base.buffer) && this.score == score
      ensures base.buffer.raw == EncodeKey(Composite, key) + EncodeNumber(score)
      ensures score.Some? ==> base.buffer.raw == EncodeIndexed(key, score.value)
    {
      base := new LaserKeyFormat(Composite, key);
      this.score := score;
      new;
      PackNumber(base.buffer, score);
    }

    constructor FromBuffer(data: Text)
      ensures fresh(base) && fresh(base.buffer) && base.buffer.raw == data && score == Some(0)
      ensures base.primary == [] && base.columns == []
    {
      base := new LaserKeyFormat.FromBuffer(data);
      score := Some(0);
    }

    method Decode() returns (r: Read<Indexed>)
      modifies this, base, base.buffer
      ensures base.buffer.raw == old(base.buffer.raw) && r == DecodeScored(base.buffer.raw)
      ensures score == if r.Got? then Some(r.value.index) else old(score)
    {
      var k := base.Decode();
      if !k.Got? {
        return k.PropagateFailure();
      }
      var n := base.buffer.UnpackInt(8, false);
      if !n.Got? {
        return Short;
      }
      NumberFits(base.buffer.raw, k.offset);
      score := Some(Signed(n.value));
      return Got(Indexed(k.value.key, Signed(n.value)), n.offset);
    }
  }

  class LaserKeyFormatListData {
    const base: LaserKeyFormat
    var index: Option<Int64>

    constructor (key: Key, index: Option<Int64>)
      ensures fresh(base) && fresh(base.buffer) && this.index == index
      ensures base.buffer.raw == EncodeKey(Composite, key) + EncodeNumber(index)
      ensures index.Some? ==> base.buffer.raw == EncodeIndexed(key, index.value)
    {
      base := new LaserKeyFormat(Composite, key);
      this.index := index;
      new;
      PackNumber(base.buffer, index);
    }

    constructor FromBuffer(data: Text)
      ensures fresh(base) && fresh(base.buffer) && base.buffer.raw == data && index == Some(0)
      ensures base.primary == [] && base.columns == []
    {
      base := new LaserKeyFormat.FromBuffer(data);
      index := Some(0);
    }

    /** The key is accepted without an index; the object then keeps the one it has, 0 if fresh. */
    method Decode() returns (r: Read<TypedKey>)
      modifies this, base, base.buffer
      ensures base.buffer.raw == old(base.buffer.raw) && r == DecodeKey(base.buffer.raw)
      ensures index ==
        if r.Got? && r.offset + 8 <= |base.buffer.raw|
        then Some(ListKeys.IndexOrZero(base.buffer.raw, r.offset)) else old(index)
      ensures r.Got? && old(index) == Some(0) ==>
        index.Some? &&
        ListKeys.DecodeListData(base.buffer.raw) == Got(Indexed(r.value.key, index.value), base.buffer.offset)
    {
      r := base.Decode();
      if !r.Got? {
        return;
      }
      var n := base.buffer.UnpackInt(8, false);
      if n.Got? {
        NumberFits(base.buffer.raw, r.offset);
        index := Some(Signed(n.value));
      }
    }
  }

  lemma NumberFits(raw: Text, offset: nat)
    requires offset + 8 <= |raw|
    ensures FromBig(raw[offset..offset + 8]) < U64
  {
    FromBigBound(raw[offset..offset + 8]);
    Widths();
  }

  method PackNumber(buffer: LaserSerializer, number: Option<Int64>)
    modifies buffer
    ensures buffer.raw == old(buffer.raw) + EncodeNumber(number)
  {
    if number.Some? {
      buffer.PackInt(Unsigned(number.value), 8, false);
    }
  }

  /** What one object encodes, a fresh object decodes to the same key; a second decode of the same
      object holds every component twice. */
  method EncodeThenDecode(keyType: KeyType, key: Key) returns (once: Key, twice: Key)
    requires Proper(key) && keyType != TtlSort && |EncodeKey(keyType, key)| < U32
    ensures once == key
    ensures twice == Key(key.primary + key.primary, key.columns + key.columns)
  {
    var sender := new LaserKeyFormat(keyType, key);
    var receiver := new LaserKeyFormat.FromBuffer(sender.buffer.raw);
    DecodeOfEncode(receiver.buffer.raw, keyType, key);
    var first := receiver.Decode();
    assert [] + key.primary == key.primary && [] + key.columns == key.columns;
    once := Key(receiver.primary, receiver.columns);
    var second := receiver.Decode();
    twice := Key(receiver.primary, receiver.columns);
  }

  /** A fresh object reads back the score that another object wrote, if and only if no component of the
      key is empty. */
  method ScoreThenDecode(key: Key, score: Int64) returns (r: Read<Indexed>)
    requires |EncodeIndexed(key, score)| < U32
    ensures r.Got? && r.value == Indexed(key, score) <==> Proper(key)
  {
    var sender := new LaserKeyFormatZSetData(key, Some(score));
    var receiver := new LaserKeyFormatZSetData.FromBuffer(sender.base.buffer.raw);
    ScoredRoundTrip(key, score);
    r := receiver.Decode();
  }

  /** And the index of a list element, also with a few empty components. */
  method IndexThenDecode(key: Key, index: Int64) returns (r: Read<TypedKey>, read: Option<Int64>)
    requires |EncodeIndexed(key, index)| < U32
    ensures r.Got? && r.value.key == key && read == Some(index) <==>
      Proper(key) || (index == 0 && exists j :: 1 <= j <= 2 && ListKeys.EmptyTail(key, j))
  {
    var sender := new LaserKeyFormatListData(key, Some(index));
    var receiver := new LaserKeyFormatListData.FromBuffer(sender.base.buffer.raw);
    ListKeys.ListRoundTrip(key, index);
    r := receiver.Decode();
    read := receiver.index;
  }
}
