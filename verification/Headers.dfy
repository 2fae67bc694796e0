/** What the frame reader makes of headers the writer does not write: other names, other
    spellings and spacing, several lengths, lengths that are none. */
module Headers {
  import opened Texts
  import opened Spaces
  import opened Framing

  /** A header line that can be sent: not blank, and without a line end of its own. */
  predicate HeaderLine(line: Text) { line != [] && OneLine(line) && line[|line| - 1] != CR }

  predicate Lines(lines: seq<Text>) { forall i | 0 <= i < |lines| :: HeaderLine(lines[i]) }

  /** The lines, each with its line end. */
  function Block(lines: seq<Text>): Text {
    if lines == [] then [] else lines[0] + [CR, LF] + Block(lines[1..])
  }

  lemma KeyText()
    ensures KEY == Ascii("Content-Length")
  {
    var t := Ascii("Content-Length");
    assert t[0] == 67 && t[1] == 111 && t[2] == 110 && t[3] == 116 && t[4] == 101 && t[5] == 110 && t[6] == 116;
    assert t[7] == 45 && t[8] == 76 && t[9] == 101 && t[10] == 110 && t[11] == 103 && t[12] == 116 && t[13] == 104;
  }

  lemma EndsText()
    ensures Ascii(": ") == [COLON, 32] && Ascii("\r\n\r\n") == [CR, LF, CR, LF]
  {
    var t := Ascii("\r\n\r\n");
    assert t[0] == CR && t[1] == LF && t[2] == CR && t[3] == LF;
  }

  /** What the writer sends, spelled out. */
  lemma FrameText(payload: Text)
    ensures Frame(payload)
            == Ascii("Content-Length") + Ascii(": ") + Decimal(|payload|) + Ascii("\r\n\r\n") + payload
  {
    KeyText();
    EndsText();
  }

  // --- a single line ---------------------------------------------------------

  /** Blanks and tabs around a name or a value. */
  predicate Pad(s: Text) { forall i | 0 <= i < |s| :: s[i] == 32 || s[i] == 9 }

  lemma {:induction false} TrimFront(pad: Text, s: Text)
    requires Pad(pad)
    ensures TrimLeft(pad + s) == TrimLeft(s)
  {
    if pad == [] {
      assert pad + s == s;
    } else {
      assert Leading(pad + s) == 1 && (pad + s)[1..] == pad[1..] + s;
      TrimFront(pad[1..], s);
    }
  }

  lemma {:induction false} TrimBack(s: Text, pad: Text)
    requires Pad(pad)
    ensures TrimRight(s + pad) == TrimRight(s)
  {
    if pad == [] {
      assert s + pad == s;
    } else {
      var n := |pad| - 1;
      assert Trailing(s + pad) == 1 && (s + pad)[..|s + pad| - 1] == s + pad[..n];
      TrimBack(s, pad[..n]);
    }
  }

  lemma TrimPads(front: Text, s: Text, back: Text)
    requires Pad(front) && Pad(back) && Trimmed(s)
    ensures TrimSpace(front + s + back) == s
  {
    assert front + s + back == front + (s + back);
    TrimFront(front, s + back);
    LeadsWithNone(s + back);
    TrimBack(s, back);
    EndsWithNone(s);
  }

  lemma LeadsWithNone(s: Text)
    requires s != [] && !Space(s[0]) && s[0] < 0x80
    ensures TrimLeft(s) == s
  {
    assert Leading(s) == 0;
  }

  lemma EndsWithNone(s: Text)
    requires s != [] && !Space(s[|s| - 1]) && s[|s| - 1] < 0x80
    ensures TrimRight(s) == s
  {
    assert Trailing(s) == 0;
  }

  /** A name and a value, each with padding around it. */
  function Header(f: Text, name: Text, g: Text, h: Text, value: Text, k: Text): Text {
    f + name + g + [COLON] + (h + value + k)
  }

  lemma HeaderCuts(f: Text, name: Text, g: Text, h: Text, value: Text, k: Text)
    requires Pad(f) && Pad(g) && forall i | 0 <= i < |name| :: name[i] != COLON
    ensures Framing.Cut(Header(f, name, g, h, value, k)) == Some((f + name + g, h + value + k))
  {
    CutAt(f + name + g, h + value + k);
  }

  /** "Content-Length" in upper and lower case. */
  predicate Spelled(name: Text) {
    |name| == 14 && forall i | 0 <= i < 14 ::
      name[i] == FOLDED_KEY[i] || (97 <= FOLDED_KEY[i] <= 122 && name[i] == FOLDED_KEY[i] - 32)
  }

  lemma SpelledFolds(name: Text)
    requires Spelled(name)
    ensures Trimmed(name) && EqualFold(name, FOLDED_KEY) && forall i | 0 <= i < |name| :: name[i] != COLON
  {
    assert FOLDED_KEY[0] == 99 && FOLDED_KEY[13] == 104;
  }

  /** What a length header says: its digits with or without a plus; a minus is refused
      before anything but zero, and so is a number past the 64-bit range. */
  function Said(sign: Text, digits: Text): Line
    requires AllDigits(digits)
  {
    var n := Digits(digits);
    if sign == [45] then (if n == 0 then Length(0) else Malformed)
    else if n < 0x8000_0000_0000_0000 then Length(n) else Malformed
  }

  lemma SignedReads(sign: Text, digits: Text)
    requires (sign == [] || sign == [43] || sign == [45]) && digits != [] && AllDigits(digits)
    ensures Trimmed(sign + digits)
    ensures match Said(sign, digits)
            case Length(n) => Atoi(sign + digits) == Some(n)
            case Malformed => Atoi(sign + digits).Some? ==> Atoi(sign + digits).value < 0
  {
    var s := sign + digits;
    assert IsDigit(digits[0]) && IsDigit(digits[|digits| - 1]);
    assert s[|s| - 1] == digits[|digits| - 1];
    if sign == [] {
      assert s == digits;
    } else {
      assert s[1..] == digits;
    }
  }

  /** A length header in any case and spacing, whatever was said before. */
  lemma LengthHeaderReads(f: Text, name: Text, g: Text, h: Text, sign: Text, digits: Text, k: Text, length: int)
    requires Pad(f) && Pad(g) && Pad(h) && Pad(k) && Spelled(name)
    requires (sign == [] || sign == [43] || sign == [45]) && digits != [] && AllDigits(digits)
    ensures ReadLine(Header(f, name, g, h, sign + digits, k), length) == Said(sign, digits)
  {
    SpelledFolds(name);
    HeaderCuts(f, name, g, h, sign + digits, k);
    TrimPads(f, name, g);
    SignedReads(sign, digits);
    TrimPads(h, sign + digits, k);
  }

  /** Any other header, and a line that is none, is passed over. */
  lemma OtherHeaderReads(f: Text, name: Text, g: Text, value: Text, length: int)
    requires Pad(f) && Pad(g) && Trimmed(name) && (forall i | 0 <= i < |name| :: name[i] != COLON)
    requires !EqualFold(name, FOLDED_KEY)
    ensures ReadLine(f + name + g + [COLON] + value, length) == Length(length)
  {
    CutAt(f + name + g, value);
    TrimPads(f, name, g);
  }

  lemma {:induction false} NoColonReads(line: Text, length: int)
    requires COLON !in line
    ensures ReadLine(line, length) == Length(length)
  {
    NoCut(line);
  }

  lemma {:induction false} NoCut(line: Text)
    requires COLON !in line
    ensures Framing.Cut(line) == None
  {
    if line != [] {
      NoCut(line[1..]);
    }
  }

  /** A line feed alone ends a line as well, and blank lines before the headers are passed
      over. */
  lemma LineFeedReads(line: Text, more: Text, length: int, sawHeader: bool)
    requires HeaderLine(line)
    ensures ReadFrom(line + [LF] + more, length, sawHeader) == ReadFrom(line + [CR, LF] + more, length, sawHeader)
    ensures ReadFrame([LF] + more) == ReadFrame(more) == ReadFrame([CR, LF] + more)
  {
    LineEndAt(line, more);
    LineEndAt(line + [CR], more);
    assert line + [CR, LF] + more == (line + [CR]) + [LF] + more;
    assert (line + [LF] + more)[..|line| + 1] == line + [LF] && (line + [LF] + more)[|line| + 1..] == more;
    assert (line + [CR, LF] + more)[..|line| + 2] == line + [CR, LF] && (line + [CR, LF] + more)[|line| + 2..] == more;
    TrimmedLine(line);
    BareLine(line);
    BlankSkips(more);
  }

  lemma BareLine(line: Text)
    requires HeaderLine(line)
    ensures TrimLine(line + [LF]) == line
  {
    assert (line + [LF])[..|line|] == line;
    assert TrimLine(line) == line;
  }

  lemma BlankSkips(more: Text)
    ensures ReadFrame([LF] + more) == ReadFrame(more) == ReadFrame([CR, LF] + more)
  {
    LineEndAt([], more);
    assert [] + [LF] + more == [LF] + more && ([LF] + more)[..1] == [LF] && ([LF] + more)[1..] == more;
    BlankTrims();
    LineEndAt([CR], more);
    assert [CR] + [LF] + more == [CR, LF] + more;
    assert ([CR, LF] + more)[..2] == [] + [CR, LF] && ([CR, LF] + more)[2..] == more;
    TrimmedLine([]);
  }

  lemma BlankTrims()
    ensures TrimLine([LF]) == []
  {
    var blank: Text := [LF];
    assert blank[..0] == [];
    assert TrimLine(blank) == TrimLine(blank[..0]);
  }

  // --- a whole block ---------------------------------------------------------

  /** The line says nothing about the length. */
  ghost predicate Silent(line: Text) { forall length :: ReadLine(line, length) == Length(length) }

  /** The line says this, whatever was said before. */
  ghost predicate Says(line: Text, said: Line) { forall length :: ReadLine(line, length) == said }

  ghost predicate Accepted(line: Text) { Silent(line) || exists n :: Says(line, Length(n)) }

  lemma BlockFirst(lines: seq<Text>, more: Text)
    requires lines != []
    ensures Block(lines) + more == lines[0] + [CR, LF] + (Block(lines[1..]) + more)
  {
  }

  lemma {:induction false} SilentBlock(lines: seq<Text>, more: Text, length: int)
    requires Lines(lines) && forall i | 0 <= i < |lines| :: Silent(lines[i])
    ensures ReadFrom(Block(lines) + more, length, true) == ReadFrom(more, length, true)
  {
    if lines == [] {
      assert Block(lines) + more == more;
    } else {
      var rest := Block(lines[1..]) + more;
      assert Block(lines) + more == lines[0] + [CR, LF] + rest;
      assert Silent(lines[0]);
      LineReads(lines[0], rest, length, true);
      SilentBlock(lines[1..], more, length);
    }
  }

  lemma {:induction false} AcceptedBlock(lines: seq<Text>, more: Text, length: int, sawHeader: bool) returns (n: int)
    requires Lines(lines) && forall i | 0 <= i < |lines| :: Accepted(lines[i])
    ensures ReadFrom(Block(lines) + more, length, sawHeader) == ReadFrom(more, n, sawHeader || lines != [])
  {
    if lines == [] {
      assert Block(lines) + more == more;
      n := length;
    } else {
      var rest := Block(lines[1..]) + more;
      assert Block(lines) + more == lines[0] + [CR, LF] + rest;
      assert Accepted(lines[0]);
      assert ReadLine(lines[0], length).Length?;
      LineReads(lines[0], rest, length, sawHeader);
      n := AcceptedBlock(lines[1..], more, ReadLine(lines[0], length).n, true);
    }
  }

  /** Whatever other headers there are, the last length counts: the payload of that length is
      read, and a length over the limit is refused. */
  lemma LastLengthCounts(before: seq<Text>, line: Text, n: int, after: seq<Text>, rest: Text)
    requires Lines(before) && HeaderLine(line) && Lines(after) && Says(line, Length(n)) && n >= 0
    requires (forall i | 0 <= i < |before| :: Accepted(before[i])) && forall i | 0 <= i < |after| :: Silent(after[i])
    ensures var read := ReadFrame(Block(before) + (line + [CR, LF] + (Block(after) + ([CR, LF] + rest))));
            if n > 512 * 1024 * 1024 then read == (Failed(TooLong), rest)
            else if |rest| < n then read == (Failed(UnexpectedEOF), [])
            else read == (Payload(rest[..n]), rest[n..])
  {
    var tail := Block(after) + ([CR, LF] + rest);
    var m := AcceptedBlock(before, line + [CR, LF] + tail, -1, false);
    LineReads(line, tail, m, before != []);
    SilentBlock(after, [CR, LF] + rest, n);
    BlankReads(rest, n);
  }

  /** Headers without a length are refused. */
  lemma NoLengthFails(lines: seq<Text>, rest: Text)
    requires Lines(lines) && lines != [] && forall i | 0 <= i < |lines| :: Silent(lines[i])
    ensures ReadFrame(Block(lines) + ([CR, LF] + rest)) == (Failed(MissingLength), rest)
  {
    var more := [CR, LF] + rest;
    BlockFirst(lines, more);
    assert Silent(lines[0]);
    LineReads(lines[0], Block(lines[1..]) + more, -1, false);
    SilentBlock(lines[1..], more, -1);
    BlankReads(rest, -1);
  }

  lemma MalformedReads(line: Text, more: Text, length: int, sawHeader: bool)
    requires HeaderLine(line) && ReadLine(line, length) == Malformed
    ensures ReadFrom(line + [CR, LF] + more, length, sawHeader) == (Failed(InvalidLength), more)
  {
    var s := line + [CR, LF] + more;
    LineEndAt(line + [CR], more);
    assert s == (line + [CR]) + [LF] + more;
    assert s[..|line| + 2] == line + [CR, LF] && s[|line| + 2..] == more;
    TrimmedLine(line);
  }

  /** A length that is none is refused where it stands. */
  lemma MalformedFails(before: seq<Text>, line: Text, rest: Text)
    requires Lines(before) && HeaderLine(line) && Says(line, Malformed)
    requires forall i | 0 <= i < |before| :: Accepted(before[i])
    ensures ReadFrame(Block(before) + (line + [CR, LF] + rest)) == (Failed(InvalidLength), rest)
  {
    var m := AcceptedBlock(before, line + [CR, LF] + rest, -1, false);
    MalformedReads(line, rest, m, before != []);
  }
}
