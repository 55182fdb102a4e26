/** The proxy's printer of replies (proxy/redis.cc), against an independent reader written from the
    sections "Arrays", "Bulk strings" and "Integers" of the Redis serialization protocol. */
module RedisReplies {
  import opened Bytes
  import opened Common
  import opened RedisProtocols

  const COLON: Byte := 58
  const NULL: Text := [DOLLAR, MINUS, 49, CR, NEWLINE]  // "$-1\r\n"

  datatype Value = Null | Bulk(data: Text)

  // ---------------------------------------------------------------- reading

  function ParseSigned(t: Text): Option<int> {
    if t != [] && t[0] == MINUS then
      if t[1..] != [] && AllDigits(t[1..]) then Some(0 - ParseDigits(t[1..])) else None
    else if t != [] && AllDigits(t) then Some(ParseDigits(t)) else None
  }

  predicate AllDigits(t: Text) {
    forall i | 0 <= i < |t| :: IsDigit(t[i])
  }

  datatype Parsed<+T> = Bad | Good(value: T, rest: Text)

  /** A number and the end of its line. */
  function ReadNumber(bs: Text): Parsed<int> {
    var k := Piece(bs, CR);
    if k + 1 < |bs| && bs[k + 1] == NEWLINE && ParseSigned(bs[..k]).Some?
    then Good(ParseSigned(bs[..k]).value, bs[k + 2..])
    else Bad
  }

  /** A length, that many bytes of any kind, and the end of the line; or no value at all. */
  function ReadBulk(bs: Text): Parsed<Value> {
    if bs == [] || bs[0] != DOLLAR then Bad
    else
      var size := ReadNumber(bs[1..]);
      if size.Bad? then Bad
      else if size.value == -1 then Good(Null, size.rest)
      else if size.value < 0 || |size.rest| < size.value + 2 then Bad
      else if size.rest[size.value..size.value + 2] != CRLF then Bad
      else Good(Bulk(size.rest[..size.value]), size.rest[size.value + 2..])
  }

  function ReadBulks(n: nat, bs: Text): (r: Parsed<seq<Value>>)
    ensures r.Good? ==> |r.value| == n
    decreases n
  {
    if n == 0 then Good([], bs)
    else
      var first := ReadBulk(bs);
      if first.Bad? then Bad
      else
        var others := ReadBulks(n - 1, first.rest);
        if others.Bad? then Bad else Good([first.value] + others.value, others.rest)
  }

  function ReadArray(bs: Text): Parsed<seq<Value>> {
    if bs == [] || bs[0] != STAR then Bad
    else
      var n := ReadNumber(bs[1..]);
      if n.Bad? || n.value < 0 then Bad else ReadBulks(n.value, n.rest)
  }

  function ReadInteger(bs: Text): Parsed<int> {
    if bs == [] || bs[0] != COLON then Bad else ReadNumber(bs[1..])
  }

  // ---------------------------------------------------------------- printing

  function Show(n: int): Text {
    if n < 0 then [MINUS] + Decimal(-n) else Decimal(n)
  }

  /** What a signed 32-bit integer makes of a size. */
  function Int32(n: nat): int {
    var w := Wrap32(n);
    if w < I32 then w else w - U32
  }

  function BulkText(data: Text): Text {
    [DOLLAR] + Show(Int32(|data|)) + CRLF + data + CRLF
  }

  function Print(v: Value): Text {
    match v
    case Null => NULL
    case Bulk(data) => BulkText(data)
  }

  function PrintAll(vs: seq<Value>): Text
    decreases vs
  {
    if vs == [] then [] else PrintAll(vs[..|vs| - 1]) + Print(vs[|vs| - 1])
  }

  function ArrayText(size: nat, vs: seq<Value>): Text {
    [STAR] + Decimal(size) + CRLF + PrintAll(vs)
  }

  function IntegerText(n: int): Text { [COLON] + Show(n) + CRLF }

  /** The length of the data fits into the printer's 32 bits. */
  predicate Short(v: Value) { v.Bulk? ==> |v.data| < I32 }

  predicate AllShort(vs: seq<Value>) {
    forall i | 0 <= i < |vs| :: Short(vs[i])
  }

  // ---------------------------------------------------------------- numbers

  lemma ParseOfShow(n: int)
    ensures ParseSigned(Show(n)) == Some(n)
  {
    if n < 0 {
      assert Show(n)[1..] == Decimal(-n);
      ParseOfDecimal(-n);
    } else {
      assert IsDigit(Show(n)[0]);
      ParseOfDecimal(n);
    }
  }

  lemma ReadOfShow(n: int, rest: Text)
    ensures ReadNumber(Show(n) + CRLF + rest) == Good(n, rest)
  {
    var t := Show(n) + CRLF + rest;
    assert CR !in Show(n);
    assert t == Show(n) + [CR] + ([NEWLINE] + rest);
    PieceEnds(Show(n), [NEWLINE] + rest, CR);
    var k := |Show(n)|;
    assert t[..k] == Show(n) && t[k + 1] == NEWLINE && t[k + 2..] == rest;
    ParseOfShow(n);
  }

  /** Every integer is read back as it was printed. */
  lemma IntegerRoundTrip(n: int, rest: Text)
    ensures ReadInteger(IntegerText(n) + rest) == Good(n, rest)
  {
    assert (IntegerText(n) + rest)[1..] == Show(n) + CRLF + rest;
    ReadOfShow(n, rest);
  }

  // ---------------------------------------------------------------- bulk strings

  lemma BulkParts(header: Text, data: Text, rest: Text)
    ensures ([DOLLAR] + header + CRLF + data + CRLF + rest)[1..] == header + CRLF + (data + CRLF + rest)
  {
  }

  lemma BulkStarts(data: Text, rest: Text)
    ensures var bs := BulkText(data) + rest;
      bs != [] && bs[0] == DOLLAR && ReadNumber(bs[1..]) == Good(Int32(|data|), data + CRLF + rest)
  {
    BulkParts(Show(Int32(|data|)), data, rest);
    ReadOfShow(Int32(|data|), data + CRLF + rest);
  }

  /** A string of arbitrary bytes is read back if and only if its length fits into 32 bits. */
  lemma BulkRoundTrip(data: Text, rest: Text)
    ensures |data| < I32 ==> ReadBulk(BulkText(data) + rest) == Good(Bulk(data), rest)
    ensures |data| >= I32 ==> forall r :: ReadBulk(BulkText(data) + rest) != Good(Bulk(data), r)
  {
    BulkStarts(data, rest);
    var body := data + CRLF + rest;
    if |data| < I32 {
      assert Int32(|data|) == |data|;
      assert body[|data|..|data| + 2] == CRLF && body[..|data|] == data && body[|data| + 2..] == rest;
    } else {
      assert Int32(|data|) < I32;
    }
  }

  lemma NullRoundTrip(rest: Text)
    ensures ReadBulk(NULL + rest) == Good(Null, rest)
  {
    assert Show(-1) == [MINUS] + Decimal(1) == [MINUS, 49];
    assert (NULL + rest)[1..] == Show(-1) + CRLF + rest;
    ReadOfShow(-1, rest);
  }

  lemma ReadOfPrint(v: Value, rest: Text)
    ensures Short(v) ==> ReadBulk(Print(v) + rest) == Good(v, rest)
    ensures !Short(v) ==> forall r :: ReadBulk(Print(v) + rest) != Good(v, r)
  {
    match v
    case Null => NullRoundTrip(rest);
    case Bulk(data) => BulkRoundTrip(data, rest);
  }

  // ---------------------------------------------------------------- arrays

  lemma {:induction false} PrintFirst(vs: seq<Value>)
    requires vs != []
    ensures PrintAll(vs) == Print(vs[0]) + PrintAll(vs[1..])
    decreases vs
  {
    var k := |vs| - 1;
    if k == 0 {
      assert PrintAll(vs[..0]) == [];
    } else {
      PrintFirst(vs[..k]);
      assert vs[..k][1..] == vs[1..][..k - 1];
      Regroup(Print(vs[0]), PrintAll(vs[1..][..k - 1]), Print(vs[k]));
    }
  }

  lemma ReadFirst(n: nat, bs: Text, vs: seq<Value>, rest: Text)
    requires |vs| == n + 1
    ensures ReadBulks(n + 1, bs) == Good(vs, rest) <==>
      var first := ReadBulk(bs);
      first.Good? && first.value == vs[0] && ReadBulks(n, first.rest) == Good(vs[1..], rest)
  {
    assert vs == [vs[0]] + vs[1..];
    var first := ReadBulk(bs);
    if first.Good? && ReadBulks(n, first.rest).Good? {
      var others := ReadBulks(n, first.rest).value;
      assert ([first.value] + others)[0] == first.value && ([first.value] + others)[1..] == others;
    }
  }

  lemma {:induction false} BulksRoundTrip(vs: seq<Value>, rest: Text)
    ensures ReadBulks(|vs|, PrintAll(vs) + rest) == Good(vs, rest) <==> AllShort(vs)
    decreases vs
  {
    if vs == [] {
      assert PrintAll(vs) + rest == rest;
    } else {
      var others := PrintAll(vs[1..]) + rest;
      PrintFirst(vs);
      Regroup(Print(vs[0]), PrintAll(vs[1..]), rest);
      ReadFirst(|vs| - 1, Print(vs[0]) + others, vs, rest);
      ReadOfPrint(vs[0], others);
      BulksRoundTrip(vs[1..], rest);
      ShortFirst(vs);
    }
  }

  lemma ShortFirst(vs: seq<Value>)
    requires vs != []
    ensures AllShort(vs) <==> Short(vs[0]) && AllShort(vs[1..])
  {
    assert vs == [vs[0]] + vs[1..];
  }

  lemma HeaderThen(size: nat, body: Text)
    ensures ReadArray([STAR] + Decimal(size) + CRLF + body) == ReadBulks(size, body)
  {
    var bs := [STAR] + Decimal(size) + CRLF + body;
    assert bs[1..] == Show(size) + CRLF + body;
    ReadOfShow(size, body);
  }

  lemma ArrayStarts(size: nat, vs: seq<Value>, rest: Text)
    ensures ReadArray(ArrayText(size, vs) + rest) == ReadBulks(size, PrintAll(vs) + rest)
  {
    Regroup([STAR] + Decimal(size) + CRLF, PrintAll(vs), rest);
    HeaderThen(size, PrintAll(vs) + rest);
  }

  /** An array is read back as printed if and only if its header is the number of its elements and
      every string in it is short. */
  lemma ArrayRoundTrip(size: nat, vs: seq<Value>, rest: Text)
    ensures ReadArray(ArrayText(size, vs) + rest) == Good(vs, rest) <==> size == |vs| && AllShort(vs)
  {
    ArrayStarts(size, vs, rest);
    if size == |vs| {
      BulksRoundTrip(vs, rest);
    }
  }

  /** The text that stands for a missing value is not printed as a string. */
  function Meaning(text: Text): Value { if text == NULL then Null else Bulk(text) }

  function Meanings(texts: seq<Text>): seq<Value> {
    seq(|texts|, i requires 0 <= i < |texts| => Meaning(texts[i]))
  }

  method AppendString(res: Text, len: int, data: Text) returns (out: Text)
    requires len == Int32(|data|)
    ensures out == res + BulkText(data)
  {
    out := res + [DOLLAR];
    out := out + Show(len);
    out := out + CRLF;
    out := out + data;
    out := out + CRLF;
  }

  method AppendValues(res: Text, values: seq<Text>) returns (out: Text)
    ensures out == res + PrintAll(Meanings(values))
  {
    out := res;
    ghost var vs := Meanings(values);
    for i := 0 to |values|
      invariant out == res + PrintAll(vs[..i])
    {
      PrintNext(vs, i);
      Regroup(res, PrintAll(vs[..i]), Print(vs[i]));
      if values[i] != NULL {
        out := AppendString(out, Int32(|values[i]|), values[i]);
      } else {
        out := out + NULL;
      }
    }
    assert vs[..|values|] == vs;
  }

  /** The reply is read back as the values given, with no value exactly where the null text was, if
      and only if every value is shorter than two gigabytes. */
  method AppendArray(res: Text, values: seq<Text>) returns (out: Text)
    ensures out == res + ArrayText(|values|, Meanings(values))
    ensures forall rest ::
      ReadArray(out[|res|..] + rest) == Good(Meanings(values), rest) <==> AllShort(Meanings(values))
    ensures |Meanings(values)| == |values|
    ensures forall i | 0 <= i < |values| :: Meanings(values)[i] == if values[i] == NULL then Null else Bulk(values[i])
  {
    out := res + ([STAR] + Decimal(|values|) + CRLF);
    out := AppendValues(out, values);
    ghost var vs := Meanings(values);
    Regroup(res, [STAR] + Decimal(|values|) + CRLF, PrintAll(vs));
    TailOf(res, ArrayText(|values|, vs));
    forall rest: Text
      ensures ReadArray(out[|res|..] + rest) == Good(vs, rest) <==> AllShort(vs)
    {
      ArrayRoundTrip(|vs|, vs, rest);
    }
  }

  lemma TailOf(a: Text, b: Text)
    ensures a <= a + b && (a + b)[|a|..] == b
  {
  }

  lemma PrintNext(vs: seq<Value>, i: nat)
    requires i < |vs|
    ensures PrintAll(vs[..i + 1]) == PrintAll(vs[..i]) + Print(vs[i])
  {
    assert vs[..i + 1][..i] == vs[..i];
  }

  method AppendInteger(res: Text, value: Int64) returns (out: Text)
    ensures out == res + IntegerText(value)
    ensures forall rest :: ReadInteger(out[|res|..] + rest) == Good(value, rest)
  {
    out := res + [COLON];
    out := out + Show(value);
    out := out + CRLF;
    assert out == res + IntegerText(value);
    assert out[|res|..] == IntegerText(value);
    forall rest: Text
      ensures ReadInteger(out[|res|..] + rest) == Good(value as int, rest)
    {
      IntegerRoundTrip(value, rest);
    }
  }

  // ---------------------------------------------------------------- members with scores

  datatype ScoreMember = ScoreMember(member: Text, score: real)

  /** A range of scores; a bound may be excluded from it. */
  datatype Range = Range(withMin: bool, withMax: bool, min: real, max: real)

  predicate Skipped(m: ScoreMember, r: Range) {
    (!r.withMin && r.min == m.score) || (!r.withMax && r.max == m.score)
  }

  function Kept(ms: seq<ScoreMember>, r: Range): seq<ScoreMember>
    decreases ms
  {
    if ms == [] then []
    else
      var k := |ms| - 1;
      if Skipped(ms[k], r) then Kept(ms[..k], r) else Kept(ms[..k], r) + [ms[k]]
  }

  /** A member, followed by its score when scores are asked for. */
  function ScoreValues(ms: seq<ScoreMember>, withScore: bool, show: real -> Text): seq<Value>
    decreases ms
  {
    if ms == [] then []
    else
      var k := |ms| - 1;
      ScoreValues(ms[..k], withScore, show) +
      if withScore then [Bulk(ms[k].member), Bulk(show(ms[k].score))] else [Bulk(ms[k].member)]
  }

  /** Members one after the other, each directly followed by its score when scores are asked for. */
  lemma {:induction false} ScoreValuesAt(ms: seq<ScoreMember>, withScore: bool, show: real -> Text, i: nat)
    requires i < |ms|
    ensures var vs := ScoreValues(ms, withScore, show);
      if withScore
      then |vs| == 2 * |ms| && vs[2 * i] == Bulk(ms[i].member) && vs[2 * i + 1] == Bulk(show(ms[i].score))
      else |vs| == |ms| && vs[i] == Bulk(ms[i].member)
    decreases ms
  {
    var k := |ms| - 1;
    ValueCount(ms[..k], withScore, show);
    if i < k {
      ScoreValuesAt(ms[..k], withScore, show, i);
    }
  }

  lemma {:induction false} KeptPlus(xs: seq<ScoreMember>, ys: seq<ScoreMember>, r: Range)
    ensures Kept(xs + ys, r) == Kept(xs, r) + Kept(ys, r)
    decreases ys
  {
    if ys == [] {
      assert xs + ys == xs;
    } else {
      var k := |ys| - 1;
      KeptPlus(xs, ys[..k], r);
      assert (xs + ys)[..|xs + ys| - 1] == xs + ys[..k];
    }
  }

  /** Of one member nothing is kept if and only if it lies on an excluded bound. Together with
      `KeptPlus` this says what is kept of any list. */
  lemma KeptOne(m: ScoreMember, r: Range)
    ensures Kept([m], r) ==
      if (m.score == r.min && !r.withMin) || (m.score == r.max && !r.withMax) then [] else [m]
  {
    assert [m][..0] == [];
    assert Kept([m][..0], r) == [];
  }

  /** Unsigned 32-bit subtraction of one. */
  function Less(n: nat): nat
  {
    if n == 0 then U32 - 1 else n - 1
  }

  /** The number of members as the header counts them: one fewer for an excluded bound on which the
      first or the last member lies. */
  function MemberCount(ms: seq<ScoreMember>, r: Range): nat
    requires ms != []
  {
    var n := Wrap32(|ms|);
    var n' := if !r.withMin && r.min == ms[0].score then Less(n) else n;
    if !r.withMax && r.max == ms[|ms| - 1].score then Less(n') else n'
  }

  function HeaderSize(ms: seq<ScoreMember>, r: Range, withScore: bool): nat
    requires ms != []
  {
    if withScore then Wrap32(MemberCount(ms, r) * 2) else MemberCount(ms, r)
  }

  /** A reply is made exactly when a member survives the bounds. */
  method AppendScoreMember(res: Text, ms: seq<ScoreMember>, withScore: bool, r: Range, show: real -> Text)
    returns (out: Text, ret: bool)
    ensures |ms| < U32 ==> (ret <==> Kept(ms, r) != [])
    ensures ret ==> ms != [] && Kept(ms, r) != []
    ensures ret ==> out == res + ArrayText(HeaderSize(ms, r, withScore), ScoreValues(Kept(ms, r), withScore, show))
  {
    out, ret := res + [STAR], false;
    if ms == [] {
      return;
    }
    var size := CountMembers(ms, r);
    if size <= 0 {
      if |ms| < U32 {
        NoneLeft(ms, r);
      }
      return;
    }
    size := if withScore then Wrap32(size * 2) else size;
    HeadIs(res, Decimal(size), PrintAll(ScoreValues(Kept(ms, r), withScore, show)));
    out := out + Decimal(size);
    out := out + CRLF;
    out, ret := AppendMembers(out, ms, withScore, r, show);
  }

  method CountMembers(ms: seq<ScoreMember>, r: Range) returns (size: nat)
    requires ms != []
    ensures size == MemberCount(ms, r)
  {
    size := Wrap32(|ms|);
    if !r.withMin && r.min == ms[0].score {
      size := Less(size);
    }
    if !r.withMax && r.max == ms[|ms| - 1].score {
      size := Less(size);
    }
  }

  method AppendMembers(head: Text, ms: seq<ScoreMember>, withScore: bool, r: Range, show: real -> Text)
    returns (out: Text, ret: bool)
    ensures out == head + PrintAll(ScoreValues(Kept(ms, r), withScore, show))
    ensures ret <==> Kept(ms, r) != []
  {
    out, ret := head, false;
    for i := 0 to |ms|
      invariant out == head + PrintAll(ScoreValues(Kept(ms[..i], r), withScore, show))
      invariant ret <==> Kept(ms[..i], r) != []
    {
      assert ms[..i + 1][..i] == ms[..i];
      if Skipped(ms[i], r) {
        continue;
      }
      ret := true;
      OneMember(Kept(ms[..i], r), ms[i], withScore, show, head);
      out := AppendString(out, Int32(|ms[i].member|), ms[i].member);
      if withScore {
        out := AppendString(out, Int32(|show(ms[i].score)|), show(ms[i].score));
      }
    }
    assert ms[..|ms|] == ms;
  }

  lemma HeadIs(res: Text, size: Text, body: Text)
    ensures res + [STAR] + size + CRLF + body == res + ([STAR] + size + CRLF + body)
  {
  }

  lemma OneMember(ms: seq<ScoreMember>, m: ScoreMember, withScore: bool, show: real -> Text, head: Text)
    ensures head + PrintAll(ScoreValues(ms + [m], withScore, show)) ==
            if withScore
            then head + PrintAll(ScoreValues(ms, withScore, show)) + BulkText(m.member) + BulkText(show(m.score))
            else head + PrintAll(ScoreValues(ms, withScore, show)) + BulkText(m.member)
  {
    assert (ms + [m])[..|ms|] == ms;
    var vs := ScoreValues(ms, withScore, show);
    var b, c := Bulk(m.member), Bulk(show(m.score));
    PrintPlus(vs, b);
    Regroup(head, PrintAll(vs), Print(b));
    if withScore {
      assert vs + [b, c] == vs + [b] + [c];
      PrintPlus(vs + [b], c);
      Regroup(head, PrintAll(vs + [b]), Print(c));
    }
  }

  lemma PrintPlus(vs: seq<Value>, v: Value)
    ensures PrintAll(vs + [v]) == PrintAll(vs) + Print(v)
  {
    assert (vs + [v])[..|vs|] == vs;
  }

  lemma NoneLeft(ms: seq<ScoreMember>, r: Range)
    requires ms != [] && |ms| < U32 && MemberCount(ms, r) == 0
    ensures Kept(ms, r) == []
  {
    var first := ms[..1];
    assert first[..0] == [] && Kept(first[..0], r) == [];
    if |ms| == 1 {
      assert ms == first;
    } else {
      assert |ms| == 2;
      assert ms[..1] == first;
      assert Kept(ms[..1], r) == [];
    }
  }

  // ---------------------------------------------------------------- when the header is right

  ghost predicate Sorted(ms: seq<ScoreMember>) {
    forall i, j | 0 <= i < j < |ms| :: ms[i].score <= ms[j].score
  }

  ghost predicate InRange(ms: seq<ScoreMember>, r: Range) {
    forall i | 0 <= i < |ms| :: r.min <= ms[i].score <= r.max
  }

  /** How many members have this score. */
  function OnBound(ms: seq<ScoreMember>, x: real): nat
    decreases ms
  {
    if ms == [] then 0 else OnBound(ms[..|ms| - 1], x) + if ms[|ms| - 1].score == x then 1 else 0
  }

  predicate AtMostOneOnEachBound(ms: seq<ScoreMember>, r: Range) {
    (r.withMin || OnBound(ms, r.min) <= 1) && (r.withMax || OnBound(ms, r.max) <= 1)
  }

  lemma {:induction false} KeptCount(ms: seq<ScoreMember>, r: Range)
    requires r.min != r.max || (r.withMin && r.withMax)
    ensures |Kept(ms, r)| ==
      |ms| - (if r.withMin then 0 else OnBound(ms, r.min)) - (if r.withMax then 0 else OnBound(ms, r.max))
    decreases ms
  {
    if ms != [] {
      KeptCount(ms[..|ms| - 1], r);
    }
  }

  lemma {:induction false} OnBoundWitness(ms: seq<ScoreMember>, x: real)
    ensures OnBound(ms, x) > 0 <==> exists i | 0 <= i < |ms| :: ms[i].score == x
    decreases ms
  {
    if ms != [] {
      var k := |ms| - 1;
      OnBoundWitness(ms[..k], x);
      if i :| 0 <= i < |ms| && ms[i].score == x {
        assert i < k ==> ms[..k][i].score == x;
      }
      if i :| 0 <= i < k && ms[..k][i].score == x {
        assert ms[i].score == x;
      }
      if ms[k].score == x {
        assert 0 <= k < |ms|;
      }
    }
  }

  lemma FirstAndLast(ms: seq<ScoreMember>, r: Range)
    requires ms != [] && Sorted(ms) && InRange(ms, r)
    ensures OnBound(ms, r.min) > 0 <==> ms[0].score == r.min
    ensures OnBound(ms, r.max) > 0 <==> ms[|ms| - 1].score == r.max
  {
    OnBoundWitness(ms, r.min);
    OnBoundWitness(ms, r.max);
    var k := |ms| - 1;
    forall i | 0 <= i < |ms|
      ensures ms[0].score <= ms[i].score <= ms[k].score
    {
    }
    assert r.min <= ms[0].score && ms[k].score <= r.max;
  }

  lemma {:induction false} KeptIsEmpty(ms: seq<ScoreMember>, r: Range)
    requires r.min == r.max && !(r.withMin && r.withMax) && InRange(ms, r)
    ensures Kept(ms, r) == []
    decreases ms
  {
    if ms != [] {
      KeptIsEmpty(ms[..|ms| - 1], r);
    }
  }

  lemma {:induction false} ValueCount(ms: seq<ScoreMember>, withScore: bool, show: real -> Text)
    ensures |ScoreValues(ms, withScore, show)| == if withScore then 2 * |ms| else |ms|
    decreases ms
  {
    if ms != [] {
      ValueCount(ms[..|ms| - 1], withScore, show);
    }
  }

  lemma HeaderIsRight(ms: seq<ScoreMember>, r: Range)
    requires ms != [] && Sorted(ms) && InRange(ms, r) && |ms| < I32 && Kept(ms, r) != []
    ensures MemberCount(ms, r) < I32
    ensures MemberCount(ms, r) == |Kept(ms, r)| <==> AtMostOneOnEachBound(ms, r)
  {
    FirstAndLast(ms, r);
    if r.min == r.max && !(r.withMin && r.withMax) {
      KeptIsEmpty(ms, r);
    } else {
      KeptCount(ms, r);
    }
  }

  /** For sorted members in range, the reply is read back as the members kept if and only if at most
      one member lies on each excluded bound and every string is short. */
  lemma ScoreReplyReadsBack(ms: seq<ScoreMember>, withScore: bool, r: Range, show: real -> Text, rest: Text)
    requires ms != [] && Sorted(ms) && InRange(ms, r) && |ms| < I32 && Kept(ms, r) != []
    ensures var vs := ScoreValues(Kept(ms, r), withScore, show);
      ReadArray(ArrayText(HeaderSize(ms, r, withScore), vs) + rest) == Good(vs, rest) <==>
      AtMostOneOnEachBound(ms, r) && AllShort(vs)
  {
    HeaderIsRight(ms, r);
    ValueCount(Kept(ms, r), withScore, show);
    ArrayRoundTrip(HeaderSize(ms, r, withScore), ScoreValues(Kept(ms, r), withScore, show), rest);
  }

  /** Two members on the excluded lower bound: the header announces one more than is sent. */
  lemma TwoOnExcludedBound()
    ensures var a, b, c := ScoreMember([97], 1.0), ScoreMember([98], 1.0), ScoreMember([99], 2.0);
      var r := Range(false, true, 1.0, 3.0);
      MemberCount([a, b, c], r) == 2 && Kept([a, b, c], r) == [c]
  {
    var a, b, c := ScoreMember([97], 1.0), ScoreMember([98], 1.0), ScoreMember([99], 2.0);
    var r := Range(false, true, 1.0, 3.0);
    var ms := [a, b, c];
    assert ms[..2] == [a, b] && [a, b][..1] == [a] && [a][..0] == [];
    assert Kept([a][..0], r) == [] && Kept([a, b][..1], r) == [] && Kept(ms[..2], r) == [];
  }
}
