/** The JSON string encoding of json.Marshal: section 7 of RFC 8259 with the
    HTML escapes of the Go encoder. Only sizes matter to the mail budget, but the
    sizes are those of the encoded bytes themselves. */
module JsonText {
  import opened Texts
  import opened Utf8

  function Hex(digit: nat): byte
    requires digit < 16
  {
    if digit < 10 then 0x30 + digit else 0x61 + digit - 10
  }

  function UnicodeEscape(code: nat): (t: Text)
    requires code < 0x1_0000
    ensures |t| == 6
  {
    [0x5C, 0x75, Hex(code / 0x1000), Hex(code / 0x100 % 16), Hex(code / 16 % 16), Hex(code % 16)]
  }

  /** One valid rune. */
  function EscapeRune(r: Text): (t: Text)
    requires |r| > 0
    ensures 0 < |t| && |t| <= 6 * |r|
  {
    if |r| == 1 then
      var b := r[0];
      if b == 0x22 || b == 0x5C then [0x5C, b]
      else if b == 0x08 then [0x5C, 0x62]
      else if b == 0x0C then [0x5C, 0x66]
      else if b == 0x0A then [0x5C, 0x6E]
      else if b == 0x0D then [0x5C, 0x72]
      else if b == 0x09 then [0x5C, 0x74]
      else if b < 0x20 || b == 0x3C || b == 0x3E || b == 0x26 then UnicodeEscape(b)
      else r
    else if r == [0xE2, 0x80, 0xA8] then UnicodeEscape(0x2028)
    else if r == [0xE2, 0x80, 0xA9] then UnicodeEscape(0x2029)
    else r
  }

  function Escape(s: Text): Text {
    if s == [] then []
    else if RuneSize(s) == 0 then UnicodeEscape(0xFFFD) + Escape(s[1..])
    else EscapeRune(s[..RuneSize(s)]) + Escape(s[RuneSize(s)..])
  }

  function Encode(s: Text): Text { [0x22] + Escape(s) + [0x22] }

  /** The worst case is six bytes of output for one byte of input. */
  lemma {:induction false} EscapeBound(s: Text)
    ensures |Escape(s)| <= 6 * |s|
  {
    if s == [] {
    } else if RuneSize(s) == 0 {
      EscapeBound(s[1..]);
    } else {
      EscapeBound(s[RuneSize(s)..]);
    }
  }

  lemma {:induction false} EscapeConcat(a: Text, b: Text)
    requires Valid(a)
    ensures Escape(a + b) == Escape(a) + Escape(b)
  {
    if a == [] {
      assert a + b == b;
    } else {
      var n := RuneSize(a);
      RuneSizeExtends(a, b);
      assert (a + b)[..n] == a[..n] && (a + b)[n..] == a[n..] + b;
      EscapeConcat(a[n..], b);
    }
  }

  /** Cutting a valid text later never shrinks its escaped form. */
  lemma EscapeMonotone(s: Text, i: nat, j: nat)
    requires i <= j <= |s| && Valid(s[..i])
    ensures |Escape(s[..i])| <= |Escape(s[..j])|
  {
    assert s[..j] == s[..i] + s[i..j];
    EscapeConcat(s[..i], s[i..j]);
  }
}
