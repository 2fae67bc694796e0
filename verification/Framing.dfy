/** Content-Length framing: a writer, a reader that accepts more than the writer
    produces, and their round trip. */
module Framing {
  import opened Texts
  import opened Spaces

  const LF: byte := 10
  const CR: byte := 13
  const COLON: byte := 58
  const ZERO: byte := 48
  const MAX_FRAME_SIZE := 512 * 1024 * 1024
  const MAX_INT := 0x7FFF_FFFF_FFFF_FFFF

  /** "Content-Length" and its lower-case form. */
  const KEY: Text := [67, 111, 110, 116, 101, 110, 116, 45, 76, 101, 110, 103, 116, 104]
  const FOLDED_KEY: Text := [99, 111, 110, 116, 101, 110, 116, 45, 108, 101, 110, 103, 116, 104]
  const HEADER: Text := KEY + [COLON, 32]

  // --- decimals --------------------------------------------------------------

  /** strconv.AppendInt for a length. */
  function Decimal(n: nat): (s: Text)
    ensures s != []
  {
    (if n < 10 then [] else Decimal(n / 10)) + [ZERO + n % 10]
  }

  predicate IsDigit(b: byte) { ZERO <= b <= ZERO + 9 }

  predicate AllDigits(s: Text) { forall i | 0 <= i < |s| :: IsDigit(s[i]) }

  function Digits(s: Text): nat
    requires AllDigits(s)
  {
    if s == [] then 0 else 10 * Digits(s[..|s| - 1]) + (s[|s| - 1] - ZERO)
  }

  /** strconv.Atoi: an optional sign and digits, in the range of a 64-bit int. */
  function Atoi(s: Text): Option<int> {
    if s == [] then None
    else
      var negative := s[0] == 45;
      var digits := if negative || s[0] == 43 then s[1..] else s;
      if digits == [] || !AllDigits(digits) then None
      else
        var m: int := Digits(digits);
        var n := if negative then 0 - m else m;
        if -MAX_INT - 1 <= n <= MAX_INT then Some(n) else None
  }

  lemma {:induction false} DecimalDigits(n: nat)
    ensures AllDigits(Decimal(n)) && Digits(Decimal(n)) == n
  {
    var s := Decimal(n);
    if n >= 10 {
      DecimalDigits(n / 10);
      assert s[..|s| - 1] == Decimal(n / 10);
    } else {
      assert s[..|s| - 1] == [];
    }
  }

  lemma AtoiOfDecimal(n: nat)
    requires n <= MAX_INT
    ensures Atoi(Decimal(n)) == Some(n)
  {
    DecimalDigits(n);
    assert IsDigit(Decimal(n)[0]);
  }

  // --- header lines ----------------------------------------------------------

  /** The position after the first LF, or None. */
  function LineEnd(s: Text): Option<nat> {
    if s == [] then None
    else if s[0] == LF then Some(1)
    else
      match LineEnd(s[1..])
      case None => None
      case Some(n) => Some(n + 1)
  }

  /** strings.TrimRight of "\\r\\n". */
  function TrimLine(s: Text): Text {
    if s != [] && (s[|s| - 1] == LF || s[|s| - 1] == CR) then TrimLine(s[..|s| - 1]) else s
  }

  function Lower(b: byte): byte { if 65 <= b <= 90 then b + 32 else b }

  /** strings.EqualFold with an ASCII text in which no letter folds beyond ASCII. */
  predicate EqualFold(s: Text, t: Text) {
    |s| == |t| && forall i | 0 <= i < |s| :: Lower(s[i]) == Lower(t[i])
  }

  /** strings.Cut at the first colon. */
  function Cut(s: Text): Option<(Text, Text)> {
    if s == [] then None
    else if s[0] == COLON then Some(([], s[1..]))
    else
      match Cut(s[1..])
      case None => None
      case Some((key, value)) => Some(([s[0]] + key, value))
  }

  predicate IsLength(key: Text) { EqualFold(TrimSpace(key), FOLDED_KEY) }

  datatype ReadError = EOF | UnexpectedEOF | InvalidLength | MissingLength | TooLong

  datatype Reading = Payload(bytes: Text) | Failed(error: ReadError)

  /** What a header line does to the length seen so far, -1 if none. */
  datatype Line = Length(n: int) | Malformed

  function ReadLine(trimmed: Text, length: int): Line {
    match Cut(trimmed)
    case None => Length(length)
    case Some((key, value)) =>
      if !IsLength(key) then Length(length)
      else
        match Atoi(TrimSpace(value))
        case None => Malformed
        case Some(n) => if n < 0 then Malformed else Length(n)
  }

  function ReadBody(s: Text, length: int): (Reading, Text) {
    if length < 0 then (Failed(MissingLength), s)
    else if length > MAX_FRAME_SIZE then (Failed(TooLong), s)
    else if |s| < length then (Failed(UnexpectedEOF), [])
    else (Payload(s[..length]), s[length..])
  }

  lemma {:induction false} LineEndBound(s: Text)
    ensures LineEnd(s).Some? ==> 1 <= LineEnd(s).value <= |s|
  {
    if s != [] && s[0] != LF {
      LineEndBound(s[1..]);
    }
  }

  /** One frame read from a stream, with what is left of it. */
  function ReadFrom(s: Text, length: int, sawHeader: bool): (Reading, Text)
    decreases |s|
  {
    LineEndBound(s);
    match LineEnd(s)
    case None => (Failed(if !sawHeader && s == [] then EOF else UnexpectedEOF), [])
    case Some(n) =>
      var trimmed := TrimLine(s[..n]);
      if trimmed == [] then
        if !sawHeader then ReadFrom(s[n..], length, sawHeader) else ReadBody(s[n..], length)
      else
        match ReadLine(trimmed, length)
        case Malformed => (Failed(InvalidLength), s[n..])
        case Length(m) => ReadFrom(s[n..], m, true)
  }

  function ReadFrame(s: Text): (Reading, Text) { ReadFrom(s, -1, false) }

  function Frame(payload: Text): Text { HEADER + Decimal(|payload|) + [CR, LF, CR, LF] + payload }

  function Frames(payloads: seq<Text>): Text {
    if payloads == [] then [] else Frame(payloads[0]) + Frames(payloads[1..])
  }

  // --- round trip ------------------------------------------------------------

  predicate OneLine(s: Text) { forall i | 0 <= i < |s| :: s[i] != LF }

  lemma {:induction false} LineEndAt(front: Text, rest: Text)
    requires OneLine(front)
    ensures LineEnd(front + [LF] + rest) == Some(|front| + 1)
  {
    if front != [] {
      LineEndAt(front[1..], rest);
      assert (front + [LF] + rest)[1..] == front[1..] + [LF] + rest;
    }
  }

  lemma {:induction false} NoLineEnd(s: Text)
    requires OneLine(s)
    ensures LineEnd(s) == None
  {
    if s != [] {
      NoLineEnd(s[1..]);
    }
  }

  lemma {:induction false} CutAt(key: Text, value: Text)
    requires forall i | 0 <= i < |key| :: key[i] != COLON
    ensures Cut(key + [COLON] + value) == Some((key, value))
  {
    if key != [] {
      CutAt(key[1..], value);
      assert (key + [COLON] + value)[1..] == key[1..] + [COLON] + value;
      assert [key[0]] + key[1..] == key;
    } else {
      assert (key + [COLON] + value)[1..] == value;
    }
  }

  /** A text that begins and ends with bytes that are no part of a space. */
  predicate Trimmed(s: Text) {
    s != [] && !Space(s[0]) && s[0] < 0x80 && !Space(s[|s| - 1]) && s[|s| - 1] < 0x80
  }

  lemma TrimmedStays(s: Text)
    requires Trimmed(s)
    ensures TrimSpace(s) == s && TrimSpace([32] + s) == s
  {
    assert Leading(s) == 0 && Trailing(s) == 0;
    assert TrimLeft(s) == s && TrimRight(s) == s;
    assert ([32] + s)[1..] == s;
    assert TrimLeft([32] + s) == TrimLeft(s);
  }

  lemma KeyFacts()
    ensures Trimmed(KEY) && EqualFold(KEY, FOLDED_KEY)
    ensures forall i | 0 <= i < |KEY| :: KEY[i] != COLON && KEY[i] != LF
  {
  }

  /** The header line of a frame, without its line end. */
  function LengthLine(n: nat): Text { HEADER + Decimal(n) }

  lemma LengthLineIsOneLine(n: nat)
    ensures OneLine(LengthLine(n)) && LengthLine(n) != []
    ensures LengthLine(n)[|LengthLine(n)| - 1] >= ZERO
  {
    DecimalDigits(n);
    KeyFacts();
    var s, d := LengthLine(n), Decimal(n);
    assert IsDigit(d[|d| - 1]);
    forall i | 0 <= i < |s|
      ensures s[i] != LF
    {
      if i >= |HEADER| {
        assert IsDigit(d[i - |HEADER|]);
      } else if i < |KEY| {
        assert s[i] == KEY[i];
      }
    }
  }

  /** Any spelling of the key in upper and lower case would do. */
  lemma LengthReads(key: Text, n: nat)
    requires Trimmed(key) && EqualFold(key, FOLDED_KEY) && n <= MAX_INT
    requires forall i | 0 <= i < |key| :: key[i] != COLON
    ensures ReadLine(key + [COLON] + ([32] + Decimal(n)), -1) == Length(n)
  {
    var d := Decimal(n);
    DecimalDigits(n);
    assert IsDigit(d[0]) && IsDigit(d[|d| - 1]);
    TrimmedStays(key);
    TrimmedStays(d);
    CutAt(key, [32] + d);
    AtoiOfDecimal(n);
  }

  lemma Regroup(key: Text, d: Text)
    ensures key + [COLON, 32] + d == key + [COLON] + ([32] + d)
  {
  }

  lemma LengthLineReads(n: nat)
    requires n <= MAX_INT
    ensures ReadLine(LengthLine(n), -1) == Length(n)
  {
    KeyFacts();
    LengthReads(KEY, n);
    Regroup(KEY, Decimal(n));
  }

  lemma TrimmedLine(s: Text)
    requires s == [] || (s[|s| - 1] != LF && s[|s| - 1] != CR)
    ensures TrimLine(s + [CR, LF]) == s
  {
    var t, u := s + [CR, LF], s + [CR];
    assert t[..|t| - 1] == u && u[..|u| - 1] == s;
    assert TrimLine(t) == TrimLine(u) == TrimLine(s);
  }

  /** One step of the reader over a line that ends in CRLF. */
  lemma LineReads(line: Text, more: Text, length: int, sawHeader: bool)
    requires OneLine(line) && line != [] && line[|line| - 1] != CR && ReadLine(line, length).Length?
    ensures ReadFrom(line + [CR, LF] + more, length, sawHeader) == ReadFrom(more, ReadLine(line, length).n, true)
  {
    var s := line + [CR, LF] + more;
    LineEndAt(line + [CR], more);
    assert s == (line + [CR]) + [LF] + more;
    assert s[..|line| + 2] == line + [CR, LF] && s[|line| + 2..] == more;
    TrimmedLine(line);
  }

  lemma BlankReads(more: Text, length: int)
    ensures ReadFrom([CR, LF] + more, length, true) == ReadBody(more, length)
  {
    var s := [CR, LF] + more;
    LineEndAt([CR], more);
    assert s == [CR] + [LF] + more;
    assert s[..2] == [] + [CR, LF] && s[2..] == more;
    TrimmedLine([]);
  }

  /** After its header lines, a frame is down to its body. */
  lemma HeadersRead(n: nat, rest: Text)
    requires n <= MAX_FRAME_SIZE
    ensures ReadFrame(LengthLine(n) + [CR, LF] + ([CR, LF] + rest)) == ReadBody(rest, n)
  {
    LengthLineIsOneLine(n);
    LengthLineReads(n);
    LineReads(LengthLine(n), [CR, LF] + rest, -1, false);
    BlankReads(rest, n);
  }

  lemma FrameParts(payload: Text, rest: Text)
    ensures Frame(payload) + rest == LengthLine(|payload|) + [CR, LF] + ([CR, LF] + (payload + rest))
  {
  }

  /** Reading takes exactly one frame off a stream, whatever bytes its payload has. */
  lemma FrameReads(payload: Text, rest: Text)
    requires |payload| <= MAX_FRAME_SIZE
    ensures ReadFrame(Frame(payload) + rest) == (Payload(payload), rest)
  {
    FrameParts(payload, rest);
    HeadersRead(|payload|, payload + rest);
    assert (payload + rest)[..|payload|] == payload && (payload + rest)[|payload|..] == rest;
  }

  lemma CutInLine(line: Text, tail: Text, k: nat)
    requires OneLine(line) && 0 < k <= |line| + 1
    ensures ReadFrame((line + [CR, LF] + tail)[..k]).0 == Failed(UnexpectedEOF)
  {
    NoLineEnd((line + [CR, LF] + tail)[..k]);
  }

  lemma CutInBlank(line: Text, part: Text)
    requires OneLine(line) && line != [] && line[|line| - 1] != CR && ReadLine(line, -1).Length? && OneLine(part)
    ensures ReadFrame(line + [CR, LF] + part).0 == Failed(UnexpectedEOF)
  {
    LineReads(line, part, -1, false);
    NoLineEnd(part);
  }

  lemma CutText(line: Text, payload: Text, k: nat)
    requires |line| + 2 <= k <= |line| + 4 + |payload|
    ensures var s := (line + [CR, LF] + ([CR, LF] + payload))[..k];
            && (k < |line| + 4 ==> s == line + [CR, LF] + [CR, LF][..k - |line| - 2])
            && (k >= |line| + 4 ==> s == line + [CR, LF] + ([CR, LF] + payload[..k - |line| - 4]))
  {
  }

  /** A frame that is cut short is an unexpected end. */
  lemma CutFrameFails(payload: Text, k: nat)
    requires |payload| <= MAX_FRAME_SIZE && 0 < k < |Frame(payload)|
    ensures ReadFrame(Frame(payload)[..k]).0 == Failed(UnexpectedEOF)
  {
    var n := |payload|;
    var line := LengthLine(n);
    FrameParts(payload, []);
    assert Frame(payload) + [] == Frame(payload) && payload + [] == payload;
    LengthLineIsOneLine(n);
    LengthLineReads(n);
    if k <= |line| + 1 {
      CutInLine(line, [CR, LF] + payload, k);
    } else {
      CutText(line, payload, k);
      if k < |line| + 4 {
        CutInBlank(line, [CR, LF][..k - |line| - 2]);
      } else {
        HeadersRead(n, payload[..k - |line| - 4]);
      }
    }
  }

  lemma {:induction false} ReadConsumes(s: Text, length: int, sawHeader: bool)
    ensures |ReadFrom(s, length, sawHeader).1| <= |s|
    ensures ReadFrom(s, length, sawHeader).0.Payload? ==> |ReadFrom(s, length, sawHeader).1| < |s|
    decreases |s|
  {
    LineEndBound(s);
    match LineEnd(s)
    case None =>
    case Some(n) =>
      var trimmed := TrimLine(s[..n]);
      if trimmed == [] {
        if !sawHeader {
          ReadConsumes(s[n..], length, sawHeader);
        }
      } else {
        match ReadLine(trimmed, length)
        case Malformed =>
        case Length(m) => ReadConsumes(s[n..], m, true);
      }
  }

  /** All frames of a stream, and how it ends. */
  function ReadFrames(s: Text): (seq<Text>, ReadError)
    decreases |s|
  {
    ReadConsumes(s, -1, false);
    match ReadFrame(s)
    case (Failed(error), _) => ([], error)
    case (Payload(bytes), rest) =>
      var (more, error) := ReadFrames(rest);
      ([bytes] + more, error)
  }

  predicate AllFit(payloads: seq<Text>) { forall i | 0 <= i < |payloads| :: |payloads[i]| <= MAX_FRAME_SIZE }

  /** The frames that are complete in the first k bytes. */
  function Complete(payloads: seq<Text>, k: nat): nat {
    if payloads == [] || k < |Frame(payloads[0])| then 0
    else 1 + Complete(payloads[1..], k - |Frame(payloads[0])|)
  }

  lemma {:induction false} CompleteIs(payloads: seq<Text>, k: nat)
    ensures var n := Complete(payloads, k);
            && n <= |payloads| && |Frames(payloads[..n])| <= k
            && (n < |payloads| ==> k < |Frames(payloads[..n])| + |Frame(payloads[n])|)
  {
    if payloads != [] && k >= |Frame(payloads[0])| {
      CompleteIs(payloads[1..], k - |Frame(payloads[0])|);
      var n := Complete(payloads, k);
      assert payloads[..n][1..] == payloads[1..][..n - 1];
    } else {
      assert payloads[..0] == [];
    }
  }

  /** Reading a stream that broke off anywhere gives exactly the frames that had been
      written completely; it ends cleanly if and only if it broke off between frames. */
  lemma {:induction false} BrokenStream(payloads: seq<Text>, k: nat)
    requires AllFit(payloads) && k <= |Frames(payloads)|
    ensures var n := Complete(payloads, k);
            && n <= |payloads|
            && ReadFrames(Frames(payloads)[..k])
               == (payloads[..n], if k == |Frames(payloads[..n])| then EOF else UnexpectedEOF)
  {
    CompleteIs(payloads, k);
    var n := Complete(payloads, k);
    if k == 0 {
      assert payloads[..0] == [] && Frames(payloads)[..0] == [];
      assert Frame([]) != [];
    } else {
      var frame, rest := Frame(payloads[0]), Frames(payloads[1..]);
      var s := Frames(payloads)[..k];
      if k < |frame| {
        assert s == frame[..k];
        CutFrameFails(payloads[0], k);
        assert payloads[..0] == [];
      } else {
        assert s == frame + rest[..k - |frame|];
        FrameReads(payloads[0], rest[..k - |frame|]);
        BrokenStream(payloads[1..], k - |frame|);
        assert payloads[..n] == [payloads[0]] + payloads[1..][..n - 1];
        assert payloads[..n][1..] == payloads[1..][..n - 1];
      }
    }
  }

  /** Reading everything that was written yields exactly the payloads, and then the end. */
  lemma RoundTrip(payloads: seq<Text>)
    requires AllFit(payloads)
    ensures ReadFrames(Frames(payloads)) == (payloads, EOF)
  {
    var all := Frames(payloads);
    BrokenStream(payloads, |all|);
    AllComplete(payloads);
    assert all[..|all|] == all && payloads[..|payloads|] == payloads;
  }

  lemma {:induction false} AllComplete(payloads: seq<Text>)
    ensures Complete(payloads, |Frames(payloads)|) == |payloads|
  {
    if payloads != [] {
      AllComplete(payloads[1..]);
    }
  }

  // --- the reader and the writer ---------------------------------------------

  class FrameReader {
    /** The bytes the reader has not consumed. */
    var stream: Text

    constructor (s: Text)
      ensures stream == s
    {
      stream := s;
    }

    /** bufio's ReadString: up to and including the next LF, or all that is left. */
    method ReadString() returns (line: Text, ended: bool)
      modifies this
      ensures match LineEnd(old(stream))
              case None => ended && line == old(stream) && stream == []
              case Some(n) => !ended && n <= |old(stream)| && line == old(stream)[..n] && stream == old(stream)[n..]
    {
      LineEndBound(stream);
      match LineEnd(stream)
      case None =>
        line, ended := stream, true;
        stream := [];
      case Some(n) =>
        line, ended := stream[..n], false;
        stream := stream[n..];
    }

    method Read() returns (result: Reading)
      modifies this
      ensures (result, stream) == ReadFrame(old(stream))
    {
      var length := -1;
      var sawHeader := false;
      while true
        invariant ReadFrom(stream, length, sawHeader) == ReadFrame(old(stream))
        decreases |stream|
      {
        LineEndBound(stream);
        var line, ended := ReadString();
        if ended {
          return Failed(if !sawHeader && line == [] then EOF else UnexpectedEOF);
        }
        var trimmed := TrimLine(line);
        if trimmed == [] {
          if !sawHeader {
            continue;
          }
          break;
        }
        sawHeader := true;
        var cut := Cut(trimmed);
        if cut.None? || !IsLength(cut.value.0) {
          continue;
        }
        var parsed := Atoi(TrimSpace(cut.value.1));
        if parsed.None? || parsed.value < 0 {
          return Failed(InvalidLength);
        }
        length := parsed.value;
      }
      if length < 0 {
        return Failed(MissingLength);
      }
      if length > MAX_FRAME_SIZE {
        return Failed(TooLong);
      }
      if |stream| < length {
        stream := [];
        return Failed(UnexpectedEOF);
      }
      result := Payload(stream[..length]);
      stream := stream[length..];
    }
  }

  class FrameWriter {
    var written: Text

    constructor ()
      ensures written == []
    {
      written := [];
    }

    method Write(payload: Text)
      modifies this
      ensures written == old(written) + Frame(payload)
    {
      var frame := HEADER;
      frame := frame + Decimal(|payload|);
      frame := frame + [CR, LF, CR, LF];
      frame := frame + payload;
      written := written + frame;
    }
  }
}
