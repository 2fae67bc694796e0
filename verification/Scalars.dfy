/** UTF-8 as an encoding: the valid texts are exactly the encodings of sequences of Unicode
    scalar values, by the table of section 3 of RFC 3629. */
module Scalars {
  import opened Texts
  import opened Utf8

  /** Any code point but the surrogates. */
  type Scalar = c: nat | c < 0xD800 || 0xE000 <= c < 0x11_0000

  function EncodeScalar(c: Scalar): (t: Text)
    ensures 1 <= |t| <= 4
  {
    if c < 0x80 then [c]
    else if c < 0x800 then [0xC0 + c / 64, 0x80 + c % 64]
    else if c < 0x1_0000 then [0xE0 + c / 64 / 64, 0x80 + c / 64 % 64, 0x80 + c % 64]
    else [0xF0 + c / 64 / 64 / 64, 0x80 + c / 64 / 64 % 64, 0x80 + c / 64 % 64, 0x80 + c % 64]
  }

  function EncodeAll(cs: seq<Scalar>): Text { if cs == [] then [] else EncodeScalar(cs[0]) + EncodeAll(cs[1..]) }

  lemma EncodedIsRune(c: Scalar, rest: Text)
    ensures RuneSize(EncodeScalar(c) + rest) == |EncodeScalar(c)|
  {
    var s := EncodeScalar(c) + rest;
    if c >= 0x1_0000 {
      assert s[0] == 0xF0 + c / 64 / 64 / 64 && s[1] == 0x80 + c / 64 / 64 % 64;
      assert Tail(s[2]) && Tail(s[3]) && Second(s[0], s[1]);
    } else if c >= 0x800 {
      assert s[0] == 0xE0 + c / 64 / 64 && s[1] == 0x80 + c / 64 % 64;
      assert Tail(s[2]) && Second(s[0], s[1]);
    } else if c >= 0x80 {
      assert s[0] == 0xC0 + c / 64 && Tail(s[1]);
    }
  }

  /** What a byte carries beyond its mark. */
  function Bits(b: byte, mark: nat): nat
    requires mark <= b
  {
    b - mark
  }

  /** The code point of the rune a text begins with. */
  function DecodeRune(s: Text): (c: nat)
    requires RuneSize(s) > 0
  {
    var n := RuneSize(s);
    if n == 1 then s[0]
    else if n == 2 then Bits(s[0], 0xC0) * 64 + Bits(s[1], 0x80)
    else if n == 3 then Bits(s[0], 0xE0) * 0x1000 + Bits(s[1], 0x80) * 64 + Bits(s[2], 0x80)
    else Bits(s[0], 0xF0) * 0x4_0000 + Bits(s[1], 0x80) * 0x1000 + Bits(s[2], 0x80) * 64 + Bits(s[3], 0x80)
  }

  lemma Quotient(high: nat, low: nat)
    requires low < 64
    ensures (high * 64 + low) / 64 == high && (high * 64 + low) % 64 == low
  {
  }

  lemma FourIsEncoded(s: Text)
    requires RuneSize(s) == 4
    ensures var c := DecodeRune(s); 0x1_0000 <= c < 0x11_0000 && EncodeScalar(c) == s[..4]
  {
    var top := Bits(s[0], 0xF0) * 64 + Bits(s[1], 0x80);
    var high := top * 64 + Bits(s[2], 0x80);
    assert DecodeRune(s) == high * 64 + Bits(s[3], 0x80);
    Quotient(high, Bits(s[3], 0x80));
    Quotient(top, Bits(s[2], 0x80));
    Quotient(Bits(s[0], 0xF0), Bits(s[1], 0x80));
  }

  lemma RuneIsEncoded(s: Text)
    requires RuneSize(s) > 0
    ensures var c := DecodeRune(s); (c < 0xD800 || 0xE000 <= c < 0x11_0000) && EncodeScalar(c) == s[..RuneSize(s)]
  {
    var n, c := RuneSize(s), DecodeRune(s);
    if n == 2 {
      Quotient(Bits(s[0], 0xC0), Bits(s[1], 0x80));
    } else if n == 3 {
      var high := Bits(s[0], 0xE0) * 64 + Bits(s[1], 0x80);
      assert c == high * 64 + Bits(s[2], 0x80);
      Quotient(high, Bits(s[2], 0x80));
      Quotient(Bits(s[0], 0xE0), Bits(s[1], 0x80));
    } else if n == 4 {
      FourIsEncoded(s);
    }
  }

  lemma {:induction false} EncodedIsValid(cs: seq<Scalar>)
    ensures Valid(EncodeAll(cs))
  {
    if cs != [] {
      EncodedIsValid(cs[1..]);
      EncodedIsRune(cs[0], EncodeAll(cs[1..]));
      assert EncodeAll(cs)[|EncodeScalar(cs[0])|..] == EncodeAll(cs[1..]);
    }
  }

  lemma {:induction false} ValidIsEncoded(s: Text) returns (cs: seq<Scalar>)
    requires Valid(s)
    ensures EncodeAll(cs) == s
  {
    if s == [] {
      cs := [];
    } else {
      var n := RuneSize(s);
      var rest := ValidIsEncoded(s[n..]);
      RuneIsEncoded(s);
      cs := [DecodeRune(s)] + rest;
      assert cs[1..] == rest && s == s[..n] + s[n..];
    }
  }

  /** A text is valid UTF-8 if and only if it encodes some Unicode scalar values. */
  lemma ValidIffEncoded(s: Text)
    ensures Valid(s) <==> exists cs :: EncodeAll(cs) == s
  {
    if Valid(s) {
      var cs := ValidIsEncoded(s);
    }
    if cs :| EncodeAll(cs) == s {
      EncodedIsValid(cs);
    }
  }
}
