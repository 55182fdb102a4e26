/** The proxy's reader of the Redis serialization protocol (proxy/redis.cc). A request arrives line by
    line: an array header, then for every argument a length line and a data line. The lengths are not
    looked at; the machine counts lines and takes every second one as an argument. */
module RedisProtocols {
  import opened Bytes
  import opened Common

  type Command = seq<Text>

  const CR: Byte := 13
  const STAR: Byte := 42
  const DOLLAR: Byte := 36
  const MINUS: Byte := 45
  const PLUS: Byte := 43
  const CRLF: Text := [CR, NEWLINE]
  const I32: int := 0x8000_0000

  datatype Phase = StartState | ContinueState

  /** The reader's fields, and what it has handed on so far: the commands dispatched, the format errors
      answered and the exceptions thrown for a header that is not a number. */
  datatype Reader = Reader(
    phase: Phase,
    cmdNum: int,
    cmdSeq: nat,
    cmdInfo: seq<Text>,
    dispatched: seq<Command>,
    errors: nat,
    thrown: nat)

  const IDLE := Reader(StartState, -1, 0, [], [], 0, 0)

  // ---------------------------------------------------------------- numbers and letters

  /** A signed 32-bit number: blanks around it are skipped, one sign may stand before the digits. */
  function ParseInt32(t: Text): (r: Option<int>)
    ensures r.Some? ==> -I32 <= r.value < I32
  {
    var s := Trim(t);
    if s != [] && s[0] == MINUS then
      var n := ParseBelow(s[1..], I32 + 1);
      if n.Some? then Some(0 - n.value) else None
    else
      var n := ParseBelow(if s != [] && s[0] == PLUS then s[1..] else s, I32);
      if n.Some? then Some(n.value) else None
  }

  /** Every number that fits is read, with or without a sign and with blanks around it; nothing that
      does not fit is. */
  lemma ParseOfSigned(n: nat, before: Text, after: Text)
    requires (forall i | 0 <= i < |before| :: IsSpace(before[i])) && (forall i | 0 <= i < |after| :: IsSpace(after[i]))
    ensures ParseInt32(before + Decimal(n) + after) == if n < I32 then Some(n) else None
    ensures ParseInt32(before + ([PLUS] + Decimal(n)) + after) == if n < I32 then Some(n) else None
    ensures var negative: int := 0 - n;
      ParseInt32(before + ([MINUS] + Decimal(n)) + after) == if n <= I32 then Some(negative) else None
  {
    var t := Decimal(n);
    assert IsDigit(t[0]) && IsDigit(t[|t| - 1]);
    ParseOfDecimal(n);
    TrimBlanks(before, t, after);
    TrimBlanks(before, [PLUS] + t, after);
    TrimBlanks(before, [MINUS] + t, after);
    assert ([PLUS] + t)[1..] == t && ([MINUS] + t)[1..] == t;
  }

  lemma ParseOfCount(n: nat)
    requires n < I32
    ensures ParseInt32(Decimal(n)) == Some(n)
  {
    var t := Decimal(n);
    assert IsDigit(t[0]) && IsDigit(t[|t| - 1]);
    ParseOfDecimal(n);
  }

  function Lower(t: Text): (r: Text)
    ensures |r| == |t|
    ensures NEWLINE in r <==> NEWLINE in t
  {
    if t == [] then []
    else
      var b: Byte := if 65 <= t[0] <= 90 then t[0] + 32 else t[0];
      [b] + Lower(t[1..])
  }

  predicate IsUpper(b: Byte) { 65 <= b <= 90 }

  /** Capital letters become small ones and nothing else changes. */
  lemma {:induction false} LowerBytes(t: Text, i: nat)
    requires i < |t|
    ensures !IsUpper(Lower(t)[i])
    ensures !IsUpper(t[i]) ==> Lower(t)[i] == t[i]
    ensures IsUpper(t[i]) ==> Lower(t)[i] == t[i] + 32
  {
    if i > 0 {
      LowerBytes(t[1..], i - 1);
    }
  }

  /** Two texts differ in case only. */
  predicate SameLetters(a: Text, b: Text) {
    && |a| == |b|
    && forall i | 0 <= i < |a| ::
      a[i] == b[i] || (IsUpper(a[i]) && b[i] == a[i] + 32) || (IsUpper(b[i]) && a[i] == b[i] + 32)
  }

  lemma LowerOfSame(a: Text, b: Text)
    requires SameLetters(a, b)
    ensures Lower(a) == Lower(b)
  {
    forall i | 0 <= i < |a|
      ensures Lower(a)[i] == Lower(b)[i]
    {
      LowerBytes(a, i);
      LowerBytes(b, i);
    }
  }

  lemma LowerIsSame(a: Text)
    ensures SameLetters(a, Lower(a)) && forall i | 0 <= i < |a| :: !IsUpper(Lower(a)[i])
  {
    forall i | 0 <= i < |a|
      ensures !IsUpper(Lower(a)[i])
      ensures Lower(a)[i] == a[i] || (IsUpper(a[i]) && Lower(a)[i] == a[i] + 32)
    {
      LowerBytes(a, i);
    }
  }

  lemma LowerOfLower(a: Text)
    requires forall i | 0 <= i < |a| :: !IsUpper(a[i])
    ensures Lower(a) == a
  {
    forall i | 0 <= i < |a|
      ensures Lower(a)[i] == a[i]
    {
      LowerBytes(a, i);
    }
  }

  /** The name of a command is not case sensitive; its arguments are. */
  function Lowered(c: Command): (r: Command)
    ensures |r| == |c|
    ensures forall i | 0 <= i < |c| :: NEWLINE in r[i] <==> NEWLINE in c[i]
  {
    if c == [] then [] else [Lower(c[0])] + c[1..]
  }

  function AllLowered(cs: seq<Command>): seq<Command> {
    seq(|cs|, i requires 0 <= i < |cs| => Lowered(cs[i]))
  }

  // ---------------------------------------------------------------- one line

  function OnStart(r: Reader, line: Text): Reader {
    if line == [] || line[0] != STAR then r.(errors := r.errors + 1)
    else
      var n := ParseInt32(line[1..]);
      if n.None? then r.(thrown := r.thrown + 1)
      else r.(phase := ContinueState, cmdNum := n.value, cmdInfo := [])
  }

  /** The count of stored arguments is compared as an unsigned number, so a count below zero is never
      reached. */
  function OnStore(r: Reader, line: Text): Reader {
    var r' := r.(cmdSeq := Wrap32(r.cmdSeq + 1));
    if r'.cmdSeq % 2 != 0 then r'
    else
      var full := r'.(cmdInfo := r.cmdInfo + [line]);
      if |full.cmdInfo| == full.cmdNum then OnEnd(full) else full
  }

  function OnEnd(r: Reader): Reader {
    var c := Lowered(r.cmdInfo);
    r.(phase := StartState, cmdNum := -1, cmdSeq := 0, cmdInfo := c, dispatched := r.dispatched + [c])
  }

  function OnLine(r: Reader, line: Text): Reader {
    if r.phase == StartState then OnStart(r, line) else OnStore(r, line)
  }

  function Feed(r: Reader, lines: seq<Text>): Reader
    decreases lines
  {
    if lines == [] then r else Feed(OnLine(r, lines[0]), lines[1..])
  }

  // ---------------------------------------------------------------- bytes

  function StripCr(line: Text): Text {
    if line != [] && line[|line| - 1] == CR then line[..|line| - 1] else line
  }

  /** The complete lines of a stream of bytes; a line ends with a newline, before which one carriage
      return is dropped. */
  function Lines(bs: Text): seq<Text> {
    var k := Piece(bs, NEWLINE);
    if k == |bs| then [] else [StripCr(bs[..k])] + Lines(bs[k + 1..])
  }

  lemma {:induction false} LinesHaveNoNewline(bs: Text)
    ensures forall i | 0 <= i < |Lines(bs)| :: NEWLINE !in Lines(bs)[i]
    decreases bs
  {
    var k := Piece(bs, NEWLINE);
    if k < |bs| {
      LinesHaveNoNewline(bs[k + 1..]);
    }
  }

  lemma NextLine(line: Text, rest: Text)
    requires NEWLINE !in line
    ensures Lines(line + CRLF + rest) == [line] + Lines(rest)
  {
    var x := line + [CR];
    var t := line + CRLF + rest;
    assert t == x + [NEWLINE] + rest;
    PieceEnds(x, rest, NEWLINE);
    assert t[..|x|] == x && t[|x| + 1..] == rest;
    assert StripCr(x) == line;
  }

  /** A line may also end without a carriage return. */
  lemma NextBareLine(line: Text, rest: Text)
    requires NEWLINE !in line && (line == [] || line[|line| - 1] != CR)
    ensures Lines(line + [NEWLINE] + rest) == [line] + Lines(rest)
  {
    var t := line + [NEWLINE] + rest;
    PieceEnds(line, rest, NEWLINE);
    assert t[..|line|] == line && t[|line| + 1..] == rest;
  }

  // ---------------------------------------------------------------- requests

  function Size(a: Text): Text { [DOLLAR] + Decimal(|a|) }

  function EncodeArg(a: Text): Text { Size(a) + CRLF + a + CRLF }

  function EncodeArgs(c: Command): Text {
    if c == [] then [] else EncodeArg(c[0]) + EncodeArgs(c[1..])
  }

  function Encode(c: Command): Text { [STAR] + Decimal(|c|) + CRLF + EncodeArgs(c) }

  function EncodeAll(cs: seq<Command>): Text {
    if cs == [] then [] else Encode(cs[0]) + EncodeAll(cs[1..])
  }

  /** What the line machine can carry: commands with a name, a 32-bit count and no newline inside. */
  predicate Sendable(c: Command) {
    0 < |c| < I32 && forall i | 0 <= i < |c| :: NEWLINE !in c[i]
  }

  // ---------------------------------------------------------------- counting lines

  /** While a command is read, the line counter is twice the arguments stored, plus one when a length
      line has just been read; a positive count is never passed. A count of zero or less is never met,
      and then the counter only stays a 32-bit number. */
  predicate Counted(r: Reader) {
    match r.phase
    case StartState => r.cmdSeq == 0 && r.cmdNum == -1
    case ContinueState =>
      && r.cmdNum < I32
      && (if r.cmdNum <= 0 then r.cmdSeq < U32
          else |r.cmdInfo| < r.cmdNum && 2 * |r.cmdInfo| <= r.cmdSeq <= 2 * |r.cmdInfo| + 1)
  }

  lemma LineKeepsCounted(r: Reader, line: Text)
    requires Counted(r)
    ensures Counted(OnLine(r, line))
  {
    if r.phase == ContinueState && r.cmdNum > 0 {
      assert r.cmdSeq + 1 < U32;
    }
  }

  /** Only what could have been sent is ever dispatched. */
  ghost predicate Clean(r: Reader) {
    && (r.phase == ContinueState ==> forall i | 0 <= i < |r.cmdInfo| :: NEWLINE !in r.cmdInfo[i])
    && (forall i | 0 <= i < |r.dispatched| :: Sendable(r.dispatched[i]))
  }

  lemma LineKeepsClean(r: Reader, line: Text)
    requires Counted(r) && Clean(r) && NEWLINE !in line
    ensures Clean(OnLine(r, line))
  {
    LineKeepsCounted(r, line);
  }

  lemma {:induction false} FeedKeepsClean(r: Reader, lines: seq<Text>)
    requires Counted(r) && Clean(r) && forall i | 0 <= i < |lines| :: NEWLINE !in lines[i]
    ensures Counted(Feed(r, lines)) && Clean(Feed(r, lines))
    decreases lines
  {
    if lines != [] {
      LineKeepsCounted(r, lines[0]);
      LineKeepsClean(r, lines[0]);
      FeedKeepsClean(OnLine(r, lines[0]), lines[1..]);
    }
  }

  /** Whatever bytes arrive, every command dispatched has a name, a 32-bit count and no newline. */
  lemma OnlySendableDispatched(bs: Text)
    ensures forall i | 0 <= i < |Feed(IDLE, Lines(bs)).dispatched| :: Sendable(Feed(IDLE, Lines(bs)).dispatched[i])
    ensures Counted(Feed(IDLE, Lines(bs)))
  {
    LinesHaveNoNewline(bs);
    FeedKeepsClean(IDLE, Lines(bs));
  }

  // ---------------------------------------------------------------- lines of a request

  function ArgLines(c: Command): seq<Text> {
    if c == [] then [] else [Size(c[0]), c[0]] + ArgLines(c[1..])
  }

  function CommandLines(c: Command): seq<Text> { [[STAR] + Decimal(|c|)] + ArgLines(c) }

  lemma DecimalHasNoNewline(n: nat)
    ensures NEWLINE !in Decimal(n)
  {
  }

  lemma TwoLines(x: Text, y: Text, rest: Text)
    requires NEWLINE !in x && NEWLINE !in y
    ensures Lines(x + CRLF + y + CRLF + rest) == [x] + ([y] + Lines(rest))
  {
    Regroup(x + CRLF, y, CRLF);
    Regroup(x + CRLF, y + CRLF, rest);
    NextLine(x, y + CRLF + rest);
    NextLine(y, rest);
  }

  lemma LinesOfArg(a: Text, rest: Text)
    requires NEWLINE !in a
    ensures Lines(EncodeArg(a) + rest) == [Size(a), a] + Lines(rest)
  {
    DecimalHasNoNewline(|a|);
    TwoLines(Size(a), a, rest);
  }

  lemma {:induction false} LinesOfArgs(c: Command, rest: Text)
    requires forall i | 0 <= i < |c| :: NEWLINE !in c[i]
    ensures Lines(EncodeArgs(c) + rest) == ArgLines(c) + Lines(rest)
    decreases c
  {
    if c == [] {
      assert EncodeArgs(c) + rest == rest;
    } else {
      Regroup(EncodeArg(c[0]), EncodeArgs(c[1..]), rest);
      LinesOfArg(c[0], EncodeArgs(c[1..]) + rest);
      LinesOfArgs(c[1..], rest);
      Regroup([Size(c[0]), c[0]], ArgLines(c[1..]), Lines(rest));
    }
  }

  lemma LinesOfCommand(c: Command, rest: Text)
    requires forall i | 0 <= i < |c| :: NEWLINE !in c[i]
    ensures Lines(Encode(c) + rest) == CommandLines(c) + Lines(rest)
  {
    var header := [STAR] + Decimal(|c|);
    DecimalHasNoNewline(|c|);
    Regroup(header + CRLF, EncodeArgs(c), rest);
    NextLine(header, EncodeArgs(c) + rest);
    LinesOfArgs(c, rest);
    Regroup([header], ArgLines(c), Lines(rest));
  }

  // ---------------------------------------------------------------- reading requests

  lemma {:induction false} FeedConcat(r: Reader, xs: seq<Text>, ys: seq<Text>)
    ensures Feed(r, xs + ys) == Feed(Feed(r, xs), ys)
    decreases xs
  {
    if xs == [] {
      assert xs + ys == ys;
    } else {
      assert (xs + ys)[1..] == xs[1..] + ys;
      FeedConcat(OnLine(r, xs[0]), xs[1..], ys);
    }
  }

  lemma FeedTwo(r: Reader, x: Text, y: Text, rest: seq<Text>)
    ensures Feed(r, [x, y] + rest) == Feed(OnLine(OnLine(r, x), y), rest)
  {
    var lines := [x, y] + rest;
    assert lines[1..] == [y] + rest && lines[1..][1..] == rest;
  }

  function Stored(r: Reader, a: Text): Reader {
    r.(cmdSeq := r.cmdSeq + 2, cmdInfo := r.cmdInfo + [a])
  }

  /** The reader after the last argument of a command. */
  function Ended(r: Reader, c: Command): Reader {
    Reader(StartState, -1, 0, Lowered(c), r.dispatched + [Lowered(c)], r.errors, r.thrown)
  }

  /** Length line and data line of one argument. */
  lemma StoreArg(r: Reader, size: Text, a: Text)
    requires r.phase == ContinueState
    requires r.cmdSeq == 2 * |r.cmdInfo| && |r.cmdInfo| < r.cmdNum < I32
    ensures OnLine(OnLine(r, size), a) ==
            if |r.cmdInfo| + 1 == r.cmdNum then Ended(r, r.cmdInfo + [a]) else Stored(r, a)
  {
    Parity(|r.cmdInfo|);
    assert OnLine(r, size) == r.(cmdSeq := r.cmdSeq + 1);
  }

  lemma Parity(n: nat)
    ensures (2 * n + 1) % 2 == 1 && (2 * n + 2) % 2 == 0
  {
  }

  lemma FeedOneArg(r: Reader, a: Text, rest: seq<Text>)
    requires r.phase == ContinueState
    requires r.cmdSeq == 2 * |r.cmdInfo| && |r.cmdInfo| < r.cmdNum < I32
    ensures Feed(r, [Size(a), a] + rest) ==
            Feed(if |r.cmdInfo| + 1 == r.cmdNum then Ended(r, r.cmdInfo + [a]) else Stored(r, a), rest)
  {
    FeedTwo(r, Size(a), a, rest);
    StoreArg(r, Size(a), a);
  }

  lemma {:induction false} FeedArgs(r: Reader, c: Command)
    requires r.phase == ContinueState && c != []
    requires r.cmdSeq == 2 * |r.cmdInfo| && |r.cmdInfo| + |c| == r.cmdNum < I32
    ensures Feed(r, ArgLines(c)) == Ended(r, r.cmdInfo + c)
    decreases c
  {
    FeedOneArg(r, c[0], ArgLines(c[1..]));
    if |c| == 1 {
      assert c == [c[0]];
    } else {
      FeedArgs(Stored(r, c[0]), c[1..]);
      assert r.cmdInfo + [c[0]] + c[1..] == r.cmdInfo + c;
    }
  }

  function Dispatch(r: Reader, c: Command): Reader {
    r.(cmdInfo := Lowered(c), dispatched := r.dispatched + [Lowered(c)])
  }

  lemma FeedCommand(r: Reader, c: Command)
    requires r.phase == StartState && Counted(r) && Sendable(c)
    ensures Feed(r, CommandLines(c)) == Dispatch(r, c)
  {
    var header := [STAR] + Decimal(|c|);
    assert header[1..] == Decimal(|c|);
    ParseOfCount(|c|);
    var reading := r.(phase := ContinueState, cmdNum := |c|, cmdInfo := []);
    assert OnLine(r, header) == reading;
    FeedArgs(reading, c);
    assert [] + c == c;
    assert CommandLines(c)[1..] == ArgLines(c);
  }

  lemma FeedNext(r: Reader, c: Command, rest: Text)
    requires r.phase == StartState && Counted(r) && Sendable(c)
    ensures Feed(r, Lines(Encode(c) + rest)) == Feed(Dispatch(r, c), Lines(rest))
  {
    LinesOfCommand(c, rest);
    FeedConcat(r, CommandLines(c), Lines(rest));
    FeedCommand(r, c);
  }

  function DispatchAll(r: Reader, cs: seq<Command>): Reader
    decreases cs
  {
    if cs == [] then r else DispatchAll(Dispatch(r, cs[0]), cs[1..])
  }

  lemma {:induction false} FeedAll(r: Reader, cs: seq<Command>)
    requires r.phase == StartState && Counted(r) && forall i | 0 <= i < |cs| :: Sendable(cs[i])
    ensures Feed(r, Lines(EncodeAll(cs))) == DispatchAll(r, cs)
    decreases cs
  {
    if cs != [] {
      FeedNext(r, cs[0], EncodeAll(cs[1..]));
      FeedAll(Dispatch(r, cs[0]), cs[1..]);
    }
  }

  lemma {:induction false} DispatchesInOrder(r: Reader, cs: seq<Command>)
    ensures DispatchAll(r, cs).dispatched == r.dispatched + AllLowered(cs)
    ensures DispatchAll(r, cs).(cmdInfo := r.cmdInfo, dispatched := r.dispatched) == r
    decreases cs
  {
    if cs == [] {
      assert AllLowered(cs) == [];
    } else {
      DispatchesInOrder(Dispatch(r, cs[0]), cs[1..]);
      assert AllLowered(cs) == [Lowered(cs[0])] + AllLowered(cs[1..]);
    }
  }

  predicate AllSendable(cs: seq<Command>) {
    forall i | 0 <= i < |cs| :: Sendable(cs[i])
  }

  lemma OnlySendableArrives(cs: seq<Command>)
    requires Feed(IDLE, Lines(EncodeAll(cs))).dispatched == AllLowered(cs)
    ensures AllSendable(cs)
  {
    OnlySendableDispatched(EncodeAll(cs));
    forall i | 0 <= i < |cs|
      ensures Sendable(cs[i])
    {
      assert AllLowered(cs)[i] == Lowered(cs[i]);
    }
  }

  /** Feeding the encoding of a list of commands dispatches exactly those commands, in order and with
      their names in lower case, if and only if every command has an argument, their number fits into
      32 bits and no argument contains a newline. The reader is then idle again. */
  lemma RequestsRoundTrip(cs: seq<Command>)
    ensures Feed(IDLE, Lines(EncodeAll(cs))).dispatched == AllLowered(cs) <==> AllSendable(cs)
    ensures AllSendable(cs) ==>
      var r := Feed(IDLE, Lines(EncodeAll(cs)));
      r.phase == StartState && r.cmdNum == -1 && r.cmdSeq == 0 && r.errors == 0 && r.thrown == 0
  {
    if AllSendable(cs) {
      FeedAll(IDLE, cs);
      DispatchesInOrder(IDLE, cs);
    }
    if Feed(IDLE, Lines(EncodeAll(cs))).dispatched == AllLowered(cs) {
      OnlySendableArrives(cs);
    }
  }

  lemma OneRequest(c: Command)
    requires Sendable(c)
    ensures Feed(IDLE, Lines(Encode(c))).dispatched == [Lowered(c)]
  {
    FeedNext(IDLE, c, []);
    assert Encode(c) + [] == Encode(c);
  }

  /** Requests whose names differ in case only dispatch equal commands. */
  lemma NamesIgnoreCase(c: Command, d: Command)
    requires Sendable(c) && Sendable(d) && SameLetters(c[0], d[0]) && c[1..] == d[1..]
    ensures Feed(IDLE, Lines(Encode(c))).dispatched == Feed(IDLE, Lines(Encode(d))).dispatched
  {
    OneRequest(c);
    OneRequest(d);
    LowerOfSame(c[0], d[0]);
  }

  /** A request arrives unchanged if and only if its name has no capital letter; its arguments always
      do. */
  lemma ArrivesUnchanged(c: Command)
    requires Sendable(c)
    ensures var arrived := Feed(IDLE, Lines(Encode(c))).dispatched;
      && |arrived| == 1 && |arrived[0]| == |c| && arrived[0][1..] == c[1..]
      && (arrived[0] == c <==> forall i | 0 <= i < |c[0]| :: !IsUpper(c[0][i]))
  {
    OneRequest(c);
    if forall i | 0 <= i < |c[0]| :: !IsUpper(c[0][i]) {
      LowerOfLower(c[0]);
      assert c == [c[0]] + c[1..];
    } else {
      var i :| 0 <= i < |c[0]| && IsUpper(c[0][i]);
      LowerBytes(c[0], i);
    }
  }

  // ---------------------------------------------------------------- out of step

  /** A header with a count of zero or less swallows everything that follows. */
  lemma {:induction false} NoCountNoCommand(r: Reader, lines: seq<Text>)
    requires Counted(r) && r.phase == ContinueState && r.cmdNum <= 0
    ensures var r' := Feed(r, lines);
      r'.phase == ContinueState && r'.cmdNum == r.cmdNum && r'.dispatched == r.dispatched &&
      r'.errors == r.errors && r'.thrown == r.thrown
    decreases lines
  {
    if lines != [] {
      LineKeepsCounted(r, lines[0]);
      NoCountNoCommand(OnLine(r, lines[0]), lines[1..]);
    }
  }

  /** So after an empty array not even a correct request is answered. */
  lemma EmptyArraySilences(bs: Text)
    ensures Feed(IDLE, Lines(Encode([]) + bs)).dispatched == []
  {
    var header := [STAR] + Decimal(0);
    LinesOfCommand([], bs);
    assert header[1..] == Decimal(0);
    ParseOfCount(0);
    var lines := CommandLines([]) + Lines(bs);
    assert lines[0] == header && lines[1..] == Lines(bs);
    NoCountNoCommand(OnLine(IDLE, header), Lines(bs));
  }

  function Complained(r: Reader, e: nat, t: nat): Reader {
    r.(errors := r.errors + e, thrown := r.thrown + t)
  }

  lemma {:induction false} ComplaintsDoNotMatter(r: Reader, e: nat, t: nat, lines: seq<Text>)
    ensures Feed(Complained(r, e, t), lines) == Complained(Feed(r, lines), e, t)
    decreases lines
  {
    if lines != [] {
      OneLineComplained(r, e, t, lines[0]);
      ComplaintsDoNotMatter(OnLine(r, lines[0]), e, t, lines[1..]);
    }
  }

  lemma OneLineComplained(r: Reader, e: nat, t: nat, line: Text)
    ensures OnLine(Complained(r, e, t), line) == Complained(OnLine(r, line), e, t)
  {
  }

  /** Between commands a line that is no header, or no number, is complained about once; everything
      after it is read as if it had not been there. */
  lemma BadLineIsSkipped(r: Reader, line: Text, lines: seq<Text>)
    requires r.phase == StartState && (line == [] || line[0] != STAR || ParseInt32(line[1..]).None?)
    ensures Feed(r, [line] + lines) ==
            if line == [] || line[0] != STAR then Complained(Feed(r, lines), 1, 0)
            else Complained(Feed(r, lines), 0, 1)
  {
    var all := [line] + lines;
    assert all[0] == line && all[1..] == lines;
    ComplaintsDoNotMatter(r, 1, 0, lines);
    ComplaintsDoNotMatter(r, 0, 1, lines);
  }

  // ---------------------------------------------------------------- the object

  class RedisProtocol {
    var phase: Phase
    var cmdNum: int
    var cmdSeq: nat
    var cmdInfo: seq<Text>
    var dispatched: seq<Command>
    var errors: nat
    var thrown: nat

    ghost function View(): Reader
      reads this
    {
      Reader(phase, cmdNum, cmdSeq, cmdInfo, dispatched, errors, thrown)
    }

    constructor ()
      ensures View() == IDLE
    {
      phase := StartState;
      cmdNum := -1;
      cmdSeq := 0;
      cmdInfo := [];
      dispatched := [];
      errors := 0;
      thrown := 0;
    }

    method Process(msg: Text)
      modifies this
      ensures View() == OnLine(old(View()), msg)
    {
      if phase == StartState {
        Start(msg);
      } else if phase == ContinueState {
        Store(msg);
      }
    }

    method Start(msg: Text)
      modifies this`phase, this`cmdNum, this`cmdInfo, this`errors, this`thrown
      ensures View() == OnStart(old(View()), msg)
    {
      if msg == [] || msg[0] != STAR {
        errors := errors + 1;
        return;
      }
      var t := ParseInt32(msg[1..]);
      if t.None? {
        thrown := thrown + 1;
        return;
      }
      cmdNum := t.value;
      cmdInfo := [];
      phase := ContinueState;
    }

    method Store(msg: Text)
      modifies this
      ensures View() == OnStore(old(View()), msg)
    {
      cmdSeq := Wrap32(cmdSeq + 1);
      if cmdSeq % 2 == 0 {
        cmdInfo := cmdInfo + [msg];
      } else {
        return;
      }
      if |cmdInfo| == cmdNum {
        End();
        cmdNum := -1;
        cmdSeq := 0;
      }
    }

    method End()
      modifies this`phase, this`cmdInfo, this`dispatched
      ensures cmdInfo == Lowered(old(cmdInfo)) && dispatched == old(dispatched) + [cmdInfo]
      ensures |cmdInfo| == |old(cmdInfo)| && forall i | 0 < i < |cmdInfo| :: cmdInfo[i] == old(cmdInfo)[i]
      ensures cmdInfo != [] ==> forall i | 0 <= i < |cmdInfo[0]| :: !IsUpper(cmdInfo[0][i])
      ensures cmdInfo != [] ==> SameLetters(old(cmdInfo)[0], cmdInfo[0])
      ensures phase == StartState
    {
      if cmdInfo != [] {
        LowerIsSame(cmdInfo[0]);
      }
      cmdInfo := Lowered(cmdInfo);
      dispatched := dispatched + [cmdInfo];
      phase := StartState;
    }
  }
}
