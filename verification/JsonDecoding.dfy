/** What the encoded strings mean: a decoder gives the text back, nothing in them can be
    taken for HTML or for a line end of JavaScript, and their size is exactly known. */
module JsonDecoding {
  import opened Texts
  import opened Utf8
  import opened Scalars
  import opened JsonText
  import Budget = MailBudget

  // --- a decoder -------------------------------------------------------------

  function HexValue(b: byte): Option<nat> {
    if 0x30 <= b <= 0x39 then Some(b - 0x30)
    else if 0x61 <= b <= 0x66 then Some(b - 0x61 + 10)
    else if 0x41 <= b <= 0x46 then Some(b - 0x41 + 10)
    else None
  }

  /** Four hexadecimal digits. */
  function CodeUnit(t: Text): Option<nat>
    requires |t| == 4
  {
    var h, i, j, k := HexValue(t[0]), HexValue(t[1]), HexValue(t[2]), HexValue(t[3]);
    if h.None? || i.None? || j.None? || k.None? then None
    else Some(h.value * 0x1000 + i.value * 0x100 + j.value * 16 + k.value)
  }

  /** The two-character escapes of section 7 of RFC 8259. */
  function Unescaped(b: byte): Option<byte> {
    if b == 0x22 || b == 0x5C || b == 0x2F then Some(b)
    else if b == 0x62 then Some(0x08)
    else if b == 0x66 then Some(0x0C)
    else if b == 0x6E then Some(0x0A)
    else if b == 0x72 then Some(0x0D)
    else if b == 0x74 then Some(0x09)
    else None
  }

  function Prepend(front: Text, rest: Option<Text>): Option<Text> {
    match rest
    case None => None
    case Some(t) => Some(front + t)
  }

  /** The text between the quotes of a JSON string: control bytes and bare quotes are
      refused, and so are the surrogates, of which the encoder writes none. */
  function Unescape(t: Text): Option<Text> {
    if t == [] then Some([])
    else if t[0] == 0x22 || t[0] < 0x20 then None
    else if t[0] != 0x5C then Prepend([t[0]], Unescape(t[1..]))
    else if |t| >= 2 && Unescaped(t[1]).Some? then Prepend([Unescaped(t[1]).value], Unescape(t[2..]))
    else if |t| >= 6 && t[1] == 0x75 && CodeUnit(t[2..6]).Some? && !(0xD800 <= CodeUnit(t[2..6]).value < 0xE000) then
      HexIsSmall(t[2..6]);
      Prepend(EncodeScalar(CodeUnit(t[2..6]).value), Unescape(t[6..]))
    else None
  }

  function Decode(t: Text): Option<Text> {
    if |t| >= 2 && t[0] == 0x22 && t[|t| - 1] == 0x22 then Unescape(t[1..|t| - 1]) else None
  }

  lemma HexIsSmall(t: Text)
    requires |t| == 4 && CodeUnit(t).Some?
    ensures CodeUnit(t).value < 0x1_0000
  {
  }

  // --- the round trip --------------------------------------------------------

  /** The text with each invalid byte replaced by U+FFFD. */
  function Replaced(s: Text): Text {
    if s == [] then []
    else if RuneSize(s) == 0 then Replacement + Replaced(s[1..])
    else s[..RuneSize(s)] + Replaced(s[RuneSize(s)..])
  }

  lemma {:induction false} ReplacedKeepsValid(s: Text)
    requires Valid(s)
    ensures Replaced(s) == s
  {
    if s != [] {
      ReplacedKeepsValid(s[RuneSize(s)..]);
      assert s == s[..RuneSize(s)] + s[RuneSize(s)..];
    }
  }

  lemma HexDigit(digit: nat)
    requires digit < 16
    ensures HexValue(Hex(digit)) == Some(digit)
  {
  }

  lemma Digits(code: nat)
    requires code < 0x1_0000
    ensures code / 0x1000 * 0x1000 + code / 0x100 % 16 * 0x100 + code / 16 % 16 * 16 + code % 16 == code
  {
    var a := code / 16;
    var b := a / 16;
    assert code == 16 * a + code % 16 && a == 16 * b + a % 16;
    assert code / 0x100 == b && code / 0x1000 == b / 16;
    assert b == 16 * (b / 16) + b % 16;
  }

  lemma HexRoundTrip(code: nat)
    requires code < 0x1_0000
    ensures CodeUnit(UnicodeEscape(code)[2..6]) == Some(code)
  {
    HexDigit(code / 0x1000);
    HexDigit(code / 0x100 % 16);
    HexDigit(code / 16 % 16);
    HexDigit(code % 16);
    Digits(code);
  }

  lemma UnescapeUnicode(code: nat, rest: Text)
    requires code < 0x1_0000 && !(0xD800 <= code < 0xE000)
    ensures Unescape(UnicodeEscape(code) + rest) == Prepend(EncodeScalar(code), Unescape(rest))
  {
    var t := UnicodeEscape(code) + rest;
    HexRoundTrip(code);
    assert t[2..6] == UnicodeEscape(code)[2..6] && t[6..] == rest;
  }

  lemma UnescapePair(b: byte, rest: Text)
    requires Unescaped(b).Some?
    ensures Unescape([0x5C, b] + rest) == Prepend([Unescaped(b).value], Unescape(rest))
  {
    assert ([0x5C, b] + rest)[2..] == rest;
  }

  /** A byte that stands for itself. */
  predicate Bare(b: byte) { b >= 0x20 && b != 0x22 && b != 0x5C }

  lemma {:induction false} UnescapeBare(r: Text, rest: Text)
    requires forall i | 0 <= i < |r| :: Bare(r[i])
    ensures Unescape(r + rest) == Prepend(r, Unescape(rest))
  {
    if r == [] {
      assert r + rest == rest;
      assert Unescape(rest).Some? ==> [] + Unescape(rest).value == Unescape(rest).value;
    } else {
      assert (r + rest)[1..] == r[1..] + rest;
      UnescapeBare(r[1..], rest);
      assert Unescape(rest).Some? ==> [r[0]] + (r[1..] + Unescape(rest).value) == r + Unescape(rest).value;
    }
  }

  /** A rune in its escaped form is decoded to itself. */
  lemma UnescapeRune(r: Text, rest: Text)
    requires RuneSize(r) == |r| > 0
    ensures Unescape(EscapeRune(r) + rest) == Prepend(r, Unescape(rest))
  {
    if EscapeRune(r) == r {
      UnescapeBare(r, rest);
    } else if |r| == 1 && |EscapeRune(r)| == 2 {
      assert EscapeRune(r) == [0x5C, EscapeRune(r)[1]] && Unescaped(EscapeRune(r)[1]) == Some(r[0]) && r == [r[0]];
      UnescapePair(EscapeRune(r)[1], rest);
    } else if |r| == 1 {
      assert EscapeRune(r) == UnicodeEscape(r[0]) && EncodeScalar(r[0]) == r;
      UnescapeUnicode(r[0], rest);
    } else {
      UnescapeUnicode(if r[2] == 0xA8 then 0x2028 else 0x2029, rest);
    }
  }

  lemma UnescapeInvalid(s: Text)
    requires s != [] && RuneSize(s) == 0 && Unescape(Escape(s[1..])) == Some(Replaced(s[1..]))
    ensures Unescape(Escape(s)) == Some(Replaced(s))
  {
    UnescapeUnicode(0xFFFD, Escape(s[1..]));
    assert EncodeScalar(0xFFFD) == Replacement;
  }

  lemma UnescapeValid(s: Text)
    requires RuneSize(s) > 0 && Unescape(Escape(s[RuneSize(s)..])) == Some(Replaced(s[RuneSize(s)..]))
    ensures Unescape(Escape(s)) == Some(Replaced(s))
  {
    RunePrefixValid(s);
    UnescapeRune(s[..RuneSize(s)], Escape(s[RuneSize(s)..]));
  }

  lemma {:induction false} UnescapeEscape(s: Text)
    ensures Unescape(Escape(s)) == Some(Replaced(s))
  {
    if s == [] {
    } else if RuneSize(s) == 0 {
      UnescapeEscape(s[1..]);
      UnescapeInvalid(s);
    } else {
      UnescapeEscape(s[RuneSize(s)..]);
      UnescapeValid(s);
    }
  }

  /** Decoding what was encoded gives the text, with each invalid byte replaced. */
  lemma DecodeEncode(s: Text)
    ensures Decode(Encode(s)) == Some(Replaced(s))
    ensures Valid(s) ==> Decode(Encode(s)) == Some(s)
  {
    UnescapeEscape(s);
    assert Encode(s)[1..|Encode(s)| - 1] == Escape(s);
    if Valid(s) {
      ReplacedKeepsValid(s);
    }
  }

  // --- what is not in an encoded text ----------------------------------------

  /** U+2028 or U+2029 begins at i. */
  predicate LineSeparatorAt(t: Text, i: nat) {
    i + 3 <= |t| && t[i] == 0xE2 && t[i + 1] == 0x80 && (t[i + 2] == 0xA8 || t[i + 2] == 0xA9)
  }

  predicate HtmlByte(b: byte) { b == 0x3C || b == 0x3E || b == 0x26 }

  ghost predicate Harmless(t: Text) {
    && (forall i | 0 <= i < |t| :: t[i] >= 0x20 && !HtmlByte(t[i]))
    && forall i | 0 <= i < |t| :: !LineSeparatorAt(t, i)
  }

  /** A piece of an encoded text: plain ASCII, or a rune of several bytes. */
  predicate Piece(p: Text) {
    || (forall i | 0 <= i < |p| :: 0x20 <= p[i] < 0x80 && !HtmlByte(p[i]))
    || (RuneSize(p) == |p| > 1 && !LineSeparatorAt(p, 0))
  }

  lemma HarmlessConcat(p: Text, t: Text)
    requires Piece(p) && Harmless(t)
    ensures Harmless(p + t)
  {
    forall i | 0 <= i < |p + t|
      ensures !LineSeparatorAt(p + t, i) && (p + t)[i] >= 0x20 && !HtmlByte((p + t)[i])
    {
      if i >= |p| {
        assert !LineSeparatorAt(t, i - |p|);
      } else if 0 < i && p[0] >= 0x80 {
        assert Tail(p[i]);
      }
    }
  }

  lemma RuneIsPiece(r: Text)
    requires RuneSize(r) == |r| > 0
    ensures Piece(EscapeRune(r))
  {
    if |r| == 1 {
      HexIsPlain(r[0]);
    } else if EscapeRune(r) != r {
      HexIsPlain(0x2028);
      HexIsPlain(0x2029);
    }
  }

  lemma HexIsPlain(code: nat)
    requires code < 0x1_0000
    ensures Piece(UnicodeEscape(code))
  {
  }

  /** An encoded text has no control byte, no "<", ">" or "&" and no U+2028 or U+2029. */
  lemma {:induction false} EscapeIsHarmless(s: Text)
    ensures Harmless(Escape(s))
  {
    if s == [] {
    } else if RuneSize(s) == 0 {
      EscapeIsHarmless(s[1..]);
      HexIsPlain(0xFFFD);
      HarmlessConcat(UnicodeEscape(0xFFFD), Escape(s[1..]));
    } else {
      var n := RuneSize(s);
      EscapeIsHarmless(s[n..]);
      RunePrefixValid(s);
      RuneIsPiece(s[..n]);
      HarmlessConcat(EscapeRune(s[..n]), Escape(s[n..]));
    }
  }

  // --- the exact size --------------------------------------------------------

  /** The seven bytes with an escape of two: quote, backslash, BS, FF, LF, CR and HT. */
  const ShortEscapes: set<byte> := {0x22, 0x5C, 0x08, 0x0C, 0x0A, 0x0D, 0x09}

  function RuneCost(r: Text): nat {
    if |r| == 1 && r[0] in ShortEscapes then 2
    else if (|r| == 1 && (r[0] < 0x20 || HtmlByte(r[0]))) || LineSeparatorAt(r, 0) then 6
    else |r|
  }

  /** What each rune and each invalid byte adds. */
  function Costs(s: Text): nat {
    if s == [] then 0
    else if RuneSize(s) == 0 then 6 + Costs(s[1..])
    else RuneCost(s[..RuneSize(s)]) + Costs(s[RuneSize(s)..])
  }

  lemma {:induction false} EncodedSize(s: Text)
    ensures |Encode(s)| == 2 + Costs(s)
  {
    if s == [] {
    } else if RuneSize(s) == 0 {
      EncodedSize(s[1..]);
    } else {
      var n := RuneSize(s);
      EncodedSize(s[n..]);
      RunePrefixValid(s);
      RuneCosts(s[..n]);
    }
  }

  lemma RuneCosts(r: Text)
    requires RuneSize(r) == |r| > 0
    ensures |EscapeRune(r)| == RuneCost(r)
  {
  }

  // --- the size of a mail ----------------------------------------------------

  function Sum(ns: seq<nat>): nat { if ns == [] then 0 else ns[0] + Sum(ns[1..]) }

  function Strings(mail: Budget.Parts): seq<Text> {
    [mail.senderId, mail.senderName, mail.senderKind, mail.recipientId, mail.subject, mail.body, mail.kind,
     mail.agentId, mail.runId]
  }

  function CostsOf(ts: seq<Text>): (ns: seq<nat>)
    ensures |ns| == |ts|
  {
    seq(|ts|, i requires 0 <= i < |ts| => Costs(ts[i]))
  }

  lemma {:induction false} TwiceCosts(ts: seq<Text>)
    ensures Budget.SumTwice(ts) == 4 * |ts| + 2 * Sum(CostsOf(ts))
  {
    if ts != [] {
      EncodedSize(ts[0]);
      TwiceCosts(ts[1..]);
      assert CostsOf(ts)[1..] == CostsOf(ts[1..]);
    }
  }

  /** A mail takes 1,060 bytes and twice what the runes of its nine strings take. */
  lemma MailCosts(mail: Budget.Parts)
    ensures Budget.ReadBytes(mail) == 1_060 + 2 * Sum(CostsOf(Strings(mail)))
  {
    TwiceCosts(Strings(mail));
    Budget.SumOfNine(Strings(mail));
  }

  /** Printable ASCII without quote, backslash, "<", ">" and "&". */
  predicate Unchanged(t: Text) {
    forall i | 0 <= i < |t| :: 0x20 <= t[i] < 0x80 && t[i] != 0x22 && t[i] != 0x5C && !HtmlByte(t[i])
  }

  lemma {:induction false} UnchangedCosts(t: Text)
    requires Unchanged(t)
    ensures Costs(t) == |t|
  {
    if t != [] {
      UnchangedCosts(t[1..]);
    }
  }

  lemma {:induction false} HtmlCosts(t: Text)
    requires forall i | 0 <= i < |t| :: HtmlByte(t[i])
    ensures Costs(t) == 6 * |t|
  {
    if t != [] {
      HtmlCosts(t[1..]);
    }
  }

  function Sizes(ts: seq<Text>): (ns: seq<nat>)
    ensures |ns| == |ts|
  {
    seq(|ts|, i requires 0 <= i < |ts| => |ts[i]|)
  }

  /** A mail of nothing but such texts can be read if and only if they have no more than
      17,470 bytes together. */
  lemma PlainMailFits(mail: Budget.Parts)
    requires forall i | 0 <= i < 9 :: Unchanged(Strings(mail)[i])
    ensures Budget.Fits(mail, mail.body) <==> Sum(Sizes(Strings(mail))) <= 17_470
  {
    forall i | 0 <= i < 9
      ensures Costs(Strings(mail)[i]) == |Strings(mail)[i]|
    {
      UnchangedCosts(Strings(mail)[i]);
    }
    assert CostsOf(Strings(mail)) == Sizes(Strings(mail));
    MailCosts(mail);
    assert mail.(body := mail.body) == mail;
  }
}
