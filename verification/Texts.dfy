/** Go strings are byte sequences. Every text of the model is one, so that sizes
    are the byte sizes the program compares with its limits. */
module Texts {

  type byte = b: int | 0 <= b < 0x100

  type Text = seq<byte>

  function AsciiByte(c: char): (b: byte)
    ensures b < 0x80
  {
    if c < 128 as char then c as int else 0x3F
  }

  /** The bytes of an ASCII literal. */
  function Ascii(s: string): (t: Text)
    ensures |t| == |s| && forall i | 0 <= i < |t| :: t[i] < 0x80
  {
    seq(|s|, i requires 0 <= i < |s| => AsciiByte(s[i]))
  }

  datatype Option<+T> = None | Some(value: T)
}

/** UTF-8 as in section 4 of RFC 3629, with the program's three uses of it:
    validity, rune starts and strings.ToValidUTF8. */
module Utf8 {
  import opened Texts

  predicate Tail(b: byte) { 0x80 <= b < 0xC0 }

  /** utf8.RuneStart: any byte that does not continue an encoded rune. */
  predicate RuneStart(b: byte) { !Tail(b) }

  /** The size of the encoded rune s begins with, or 0 when s begins with none. */
  function RuneSize(s: Text): (n: nat)
    ensures n <= 4 && n <= |s|
    ensures n > 0 ==> RuneStart(s[0]) && forall i | 1 <= i < n :: Tail(s[i])
  {
    if s == [] then 0
    else if s[0] < 0x80 then 1
    else if 0xC2 <= s[0] <= 0xDF && |s| > 1 && Tail(s[1]) then 2
    else if 0xE0 <= s[0] <= 0xEF && |s| > 2 && Second(s[0], s[1]) && Tail(s[2]) then 3
    else if 0xF0 <= s[0] <= 0xF4 && |s| > 3 && Second(s[0], s[1]) && Tail(s[2]) && Tail(s[3]) then 4
    else 0
  }

  /** The second byte excludes overlong forms, surrogates and runes past U+10FFFF. */
  predicate Second(first: byte, b: byte) {
    if first == 0xE0 then 0xA0 <= b < 0xC0
    else if first == 0xED then 0x80 <= b < 0xA0
    else if first == 0xF0 then 0x90 <= b < 0xC0
    else if first == 0xF4 then 0x80 <= b < 0x90
    else Tail(b)
  }

  predicate Valid(s: Text) {
    s == [] || (RuneSize(s) > 0 && Valid(s[RuneSize(s)..]))
  }

  /** U+FFFD, which strings.ToValidUTF8 puts in place of each run of invalid bytes. */
  const Replacement: Text := [0xEF, 0xBF, 0xBD]

  function ToValid(s: Text, inRun: bool := false): Text {
    if s == [] then []
    else if RuneSize(s) == 0 then (if inRun then [] else Replacement) + ToValid(s[1..], true)
    else s[..RuneSize(s)] + ToValid(s[RuneSize(s)..])
  }

  lemma RuneSizeExtends(a: Text, b: Text)
    requires RuneSize(a) > 0
    ensures RuneSize(a + b) == RuneSize(a)
  {
  }

  lemma {:induction false} ValidConcat(a: Text, b: Text)
    requires Valid(a)
    ensures Valid(a + b) <==> Valid(b)
  {
    if a == [] {
      assert a + b == b;
    } else {
      var n := RuneSize(a);
      RuneSizeExtends(a, b);
      assert (a + b)[n..] == a[n..] + b;
      ValidConcat(a[n..], b);
    }
  }

  lemma {:induction false} AsciiValid(s: Text)
    requires forall i | 0 <= i < |s| :: s[i] < 0x80
    ensures Valid(s)
  {
    if s != [] {
      AsciiValid(s[1..]);
    }
  }

  lemma {:induction false} ToValidIsValid(s: Text, inRun: bool)
    ensures Valid(ToValid(s, inRun))
  {
    if s == [] {
    } else if RuneSize(s) == 0 {
      ToValidIsValid(s[1..], true);
      assert Valid(Replacement);
      assert Valid([]);
      ValidConcat(if inRun then [] else Replacement, ToValid(s[1..], true));
    } else {
      var n := RuneSize(s);
      ToValidIsValid(s[n..], false);
      RunePrefixValid(s);
      ValidConcat(s[..n], ToValid(s[n..]));
    }
  }

  lemma RunePrefixValid(s: Text)
    requires RuneSize(s) > 0
    ensures RuneSize(s[..RuneSize(s)]) == RuneSize(s) && Valid(s[..RuneSize(s)])
  {
    var r := s[..RuneSize(s)];
    assert RuneSize(r) == |r|;
    assert r[|r|..] == [];
  }

  lemma {:induction false} ToValidKeepsValid(s: Text, inRun: bool)
    requires Valid(s)
    ensures ToValid(s, inRun) == s
  {
    if s != [] {
      var n := RuneSize(s);
      ToValidKeepsValid(s[n..], false);
      assert s == s[..n] + s[n..];
    }
  }

  /** No byte of the run begins a rune, whatever follows the run. */
  ghost predicate InvalidRun(run: Text, after: Text) {
    forall i | 0 <= i < |run| :: RuneSize((run + after)[i..]) == 0
  }

  lemma {:induction false} ToValidConcat(before: Text, s: Text)
    requires Valid(before)
    ensures ToValid(before + s) == before + ToValid(s)
  {
    if before == [] {
      assert before + s == s;
    } else {
      var n := RuneSize(before);
      RuneSizeExtends(before, s);
      assert (before + s)[n..] == before[n..] + s && (before + s)[..n] == before[..n];
      ToValidConcat(before[n..], s);
      assert before == before[..n] + before[n..];
    }
  }

  /** A run of invalid bytes between two valid texts is replaced as a whole, by one U+FFFD. */
  lemma RunIsReplacedOnce(before: Text, run: Text, after: Text)
    requires Valid(before) && Valid(after) && run != [] && InvalidRun(run, after)
    ensures ToValid(before + run + after) == before + Replacement + after
  {
    assert before + run + after == before + (run + after);
    ToValidConcat(before, run + after);
    RestOfRun(run, after, false);
    assert before + (Replacement + after) == before + Replacement + after;
  }

  lemma ToValidStep(s: Text, inRun: bool)
    requires s != [] && RuneSize(s) == 0
    ensures ToValid(s, inRun) == (if inRun then [] else Replacement) + ToValid(s[1..], true)
  {
  }

  lemma InvalidTail(run: Text, after: Text)
    requires run != [] && InvalidRun(run, after)
    ensures RuneSize(run + after) == 0 && InvalidRun(run[1..], after) && (run + after)[1..] == run[1..] + after
  {
    assert (run + after)[0..] == run + after && (run + after)[1..] == run[1..] + after;
    forall i | 0 <= i < |run[1..]|
      ensures RuneSize((run[1..] + after)[i..]) == 0
    {
      assert (run[1..] + after)[i..] == (run + after)[i + 1..];
    }
  }

  lemma {:induction false} RestOfRun(run: Text, after: Text, inRun: bool)
    requires Valid(after) && InvalidRun(run, after) && (run != [] || inRun)
    ensures ToValid(run + after, inRun) == (if inRun then [] else Replacement) + after
  {
    if run == [] {
      assert run + after == after;
      ToValidKeepsValid(after, inRun);
    } else {
      InvalidTail(run, after);
      ToValidStep(run + after, inRun);
      RestOfRun(run[1..], after, true);
    }
  }

  /** In valid UTF-8 the rune starts are exactly the places where the text can be
      cut into two valid halves: a scan back to a rune start repairs any cut. */
  lemma {:induction false} CutAtRuneStart(s: Text, i: nat)
    requires Valid(s) && i < |s|
    ensures RuneStart(s[i]) <==> Valid(s[..i])
    ensures RuneStart(s[i]) ==> Valid(s[i..])
    decreases |s|
  {
    var n := RuneSize(s);
    if i == 0 {
      assert s[..0] == [] && s[0..] == s;
    } else if i < n {
      CutInsideRune(s, i);
    } else {
      CutAfterRune(s, n, i);
      CutAtRuneStart(s[n..], i - n);
    }
  }

  /** Cutting behind the first rune is cutting what follows it. */
  lemma CutAfterRune(s: Text, n: nat, i: nat)
    requires n == RuneSize(s) > 0 && n <= i < |s|
    ensures s[n..][i - n] == s[i] && s[n..][i - n..] == s[i..]
    ensures Valid(s[..i]) <==> Valid(s[n..][..i - n])
  {
    RunePrefixValid(s);
    assert s[n..][..i - n] == s[n..i];
    assert s[..i] == s[..n] + s[n..i];
    ValidConcat(s[..n], s[n..i]);
  }

  lemma CutInsideRune(s: Text, i: nat)
    requires 0 < i < RuneSize(s)
    ensures !Valid(s[..i]) && !RuneStart(s[i])
  {
    assert RuneSize(s[..i]) == 0;
  }
}
