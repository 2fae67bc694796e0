/** White space as Go trims it. */
module Spaces {
  import opened Texts

  predicate Space(b: byte) { b == 32 || 9 <= b <= 13 }

  /** The Unicode spaces beyond ASCII, in UTF-8. */
  predicate Wide2(b: byte, c: byte) { b == 0xC2 && (c == 0x85 || c == 0xA0) }

  predicate Wide3(b: byte, c: byte, d: byte) {
    || (b == 0xE1 && c == 0x9A && d == 0x80)
    || (b == 0xE2 && c == 0x80 && (0x80 <= d <= 0x8A || d == 0xA8 || d == 0xA9 || d == 0xAF))
    || (b == 0xE2 && c == 0x81 && d == 0x9F)
    || (b == 0xE3 && c == 0x80 && d == 0x80)
  }

  /** How many bytes of white space a text begins with: one rune of it. */
  function Leading(s: Text): (n: nat)
    ensures n <= |s|
  {
    if s != [] && Space(s[0]) then 1
    else if |s| >= 2 && Wide2(s[0], s[1]) then 2
    else if |s| >= 3 && Wide3(s[0], s[1], s[2]) then 3
    else 0
  }

  function Trailing(s: Text): (n: nat)
    ensures n <= |s|
  {
    var k := |s|;
    if s != [] && Space(s[k - 1]) then 1
    else if k >= 2 && Wide2(s[k - 2], s[k - 1]) then 2
    else if k >= 3 && Wide3(s[k - 3], s[k - 2], s[k - 1]) then 3
    else 0
  }

  function TrimLeft(s: Text): (t: Text)
    ensures |t| <= |s|
  {
    if Leading(s) > 0 then TrimLeft(s[Leading(s)..]) else s
  }

  function TrimRight(s: Text): Text {
    if Trailing(s) > 0 then TrimRight(s[..|s| - Trailing(s)]) else s
  }

  /** strings.TrimSpace. */
  function TrimSpace(s: Text): Text { TrimRight(TrimLeft(s)) }
}

/** What the store asks of its inputs before it opens a transaction. */
module Inputs {
  import opened Texts
  import opened Types
  import opened Utf8
  import opened Scalars
  import Budget = MailBudget

  const MAX_STEERING_RUNES := 10_000
  const HYPHEN: byte := 45

  /** utf8.RuneCountInString: an invalid byte counts as one rune. */
  function RuneCount(s: Text): nat {
    if s == [] then 0
    else if RuneSize(s) > 0 then 1 + RuneCount(s[RuneSize(s)..])
    else 1 + RuneCount(s[1..])
  }

  /** The words between the hyphens. */
  function Words(s: Text): (words: seq<Text>)
    ensures words != []
  {
    if s == [] then [[]]
    else if s[0] == HYPHEN then [[]] + Words(s[1..])
    else
      var rest := Words(s[1..]);
      [[s[0]] + rest[0]] + rest[1..]
  }

  predicate Letter(b: byte) { 97 <= b <= 122 }

  predicate LetterOrDigit(b: byte) { Letter(b) || 48 <= b <= 57 }

  predicate Plain(word: Text) { word != [] && forall i | 0 <= i < |word| :: LetterOrDigit(word[i]) }

  /** One to three lowercase kebab-case words, the first of them beginning with a letter. */
  predicate KebabCase(name: Text) {
    && |Words(name)| <= 3
    && (forall i | 0 <= i < |Words(name)| :: Plain(Words(name)[i]))
    && name != [] && Letter(name[0])
  }

  predicate ValidName(name: Text) { name != [] && RuneCount(name) <= MAX_NAME_BYTES && KebabCase(name) }

  predicate ValidSteering(message: Text) { message != [] && RuneCount(message) <= MAX_STEERING_RUNES }

  predicate ValidLetter(subject: Text, body: Text) {
    && subject != [] && body != [] && Valid(subject) && Valid(body)
    && |subject| <= Budget.MAX_MAIL_SUBJECT_BYTES && |body| <= Budget.MAX_MAIL_BODY_BYTES
  }

  lemma {:induction false} WordsAreAscii(s: Text)
    requires forall i | 0 <= i < |Words(s)| :: forall k | 0 <= k < |Words(s)[i]| :: LetterOrDigit(Words(s)[i][k])
    ensures forall i | 0 <= i < |s| :: s[i] < 0x80
  {
    if s != [] {
      var rest := Words(s[1..]);
      if s[0] == HYPHEN {
        assert forall i | 0 <= i < |rest| :: rest[i] == Words(s)[i + 1];
      } else {
        assert Words(s)[0][0] == s[0];
        forall i, k | 0 <= i < |rest| && 0 <= k < |rest[i]|
          ensures LetterOrDigit(rest[i][k])
        {
          assert rest[i][k] == if i == 0 then Words(s)[0][k + 1] else Words(s)[i][k];
        }
      }
      WordsAreAscii(s[1..]);
      assert forall i | 1 <= i < |s| :: s[i] == s[1..][i - 1];
    }
  }

  lemma {:induction false} AsciiCount(s: Text)
    requires forall i | 0 <= i < |s| :: s[i] < 0x80
    ensures RuneCount(s) == |s|
  {
    if s != [] {
      AsciiCount(s[1..]);
    }
  }

  /** A valid name has no more bytes than it may have characters. */
  lemma ValidNameIsShort(name: Text)
    requires ValidName(name)
    ensures |name| <= MAX_NAME_BYTES
  {
    WordsAreAscii(name);
    AsciiCount(name);
  }

  // --- what the checks accept ------------------------------------------------

  function Hyphenated(words: seq<Text>): Text
    requires words != []
  {
    if |words| == 1 then words[0] else words[0] + ([HYPHEN] + Hyphenated(words[1..]))
  }

  lemma {:induction false} WordsThenMore(word: Text, rest: Text)
    requires HYPHEN !in word
    ensures Words(word + ([HYPHEN] + rest)) == [word] + Words(rest)
  {
    var s := word + ([HYPHEN] + rest);
    if word == [] {
      assert s == [HYPHEN] + rest && s[1..] == rest;
    } else {
      assert s[1..] == word[1..] + ([HYPHEN] + rest);
      WordsThenMore(word[1..], rest);
      assert [word[0]] + word[1..] == word;
    }
  }

  lemma {:induction false} OneWord(word: Text)
    requires HYPHEN !in word
    ensures Words(word) == [word]
  {
    if word != [] {
      OneWord(word[1..]);
      assert [word[0]] + word[1..] == word;
    }
  }

  lemma {:induction false} WordsOf(words: seq<Text>)
    requires words != [] && forall i | 0 <= i < |words| :: HYPHEN !in words[i]
    ensures Words(Hyphenated(words)) == words
  {
    if |words| == 1 {
      OneWord(words[0]);
    } else {
      WordsOf(words[1..]);
      WordsThenMore(words[0], Hyphenated(words[1..]));
    }
  }

  lemma HyphenFirst(rest: seq<Text>)
    requires rest != []
    ensures Hyphenated([[]] + rest) == [HYPHEN] + Hyphenated(rest)
  {
    var all := [[]] + rest;
    assert all[1..] == rest && |all| > 1;
    assert Hyphenated(all) == all[0] + ([HYPHEN] + Hyphenated(rest));
  }

  lemma LetterFirst(c: byte, rest: seq<Text>)
    requires rest != []
    ensures Hyphenated([[c] + rest[0]] + rest[1..]) == [c] + Hyphenated(rest)
  {
    var all := [[c] + rest[0]] + rest[1..];
    assert all[1..] == rest[1..] && |all| == |rest|;
    if |rest| > 1 {
      assert [c] + rest[0] + ([HYPHEN] + Hyphenated(rest[1..])) == [c] + (rest[0] + ([HYPHEN] + Hyphenated(rest[1..])));
    }
  }

  lemma {:induction false} HyphenatedWords(s: Text)
    ensures Hyphenated(Words(s)) == s
  {
    if s != [] {
      HyphenatedWords(s[1..]);
      assert s == [s[0]] + s[1..];
      if s[0] == HYPHEN {
        HyphenFirst(Words(s[1..]));
      } else {
        LetterFirst(s[0], Words(s[1..]));
      }
    }
  }

  /** A name as the pattern has it: one to three words of lower-case letters and digits with
      single hyphens between them, the first beginning with a letter. */
  ghost predicate Canonical(name: Text, words: seq<Text>) {
    && 1 <= |words| <= 3 && name == Hyphenated(words)
    && (forall i | 0 <= i < |words| :: words[i] != [] && forall k | 0 <= k < |words[i]| :: LetterOrDigit(words[i][k]))
    && 97 <= words[0][0] <= 122
  }

  /** A name is valid if and only if it is such a name of at most 48 bytes. */
  lemma ValidNames(name: Text)
    ensures ValidName(name) <==> |name| <= 48 && exists words :: Canonical(name, words)
  {
    if ValidName(name) {
      ValidNameIsShort(name);
      HyphenatedWords(name);
      FirstLetter(Words(name));
      assert Canonical(name, Words(name));
    }
    if words :| |name| <= 48 && Canonical(name, words) {
      forall i | 0 <= i < |words|
        ensures HYPHEN !in words[i]
      {
      }
      WordsOf(words);
      FirstLetter(words);
      WordsAreAscii(name);
      AsciiCount(name);
    }
  }

  lemma FirstLetter(words: seq<Text>)
    requires words != [] && words[0] != []
    ensures Hyphenated(words) != [] && Hyphenated(words)[0] == words[0][0]
  {
  }

  function Starts(s: Text): nat { if s == [] then 0 else (if RuneStart(s[0]) then 1 else 0) + Starts(s[1..]) }

  lemma {:induction false} StartsConcat(a: Text, b: Text)
    ensures Starts(a + b) == Starts(a) + Starts(b)
  {
    if a == [] {
      assert a + b == b;
    } else {
      assert (a + b)[1..] == a[1..] + b;
      StartsConcat(a[1..], b);
    }
  }

  lemma {:induction false} TailsDoNotStart(s: Text)
    requires forall i | 0 <= i < |s| :: Tail(s[i])
    ensures Starts(s) == 0
  {
    if s != [] {
      TailsDoNotStart(s[1..]);
    }
  }

  /** The characters of a valid text are counted by the bytes at which they start. */
  lemma {:induction false} RunesAreStarts(s: Text)
    requires Valid(s)
    ensures RuneCount(s) == Starts(s)
  {
    if s != [] {
      var n := RuneSize(s);
      RunesAreStarts(s[n..]);
      assert s == s[..n] + s[n..] && s[..n][1..] == s[1..n];
      StartsConcat(s[..n], s[n..]);
      TailsDoNotStart(s[1..n]);
    }
  }

  /** A steering message of valid text has one to ten thousand characters. */
  lemma ValidSteerings(message: Text)
    requires Valid(message)
    ensures ValidSteering(message) <==> 1 <= Starts(message) <= 10_000
  {
    RunesAreStarts(message);
    if message != [] {
      assert RuneSize(message) > 0;
    }
  }

  ghost predicate Characters(t: Text) { exists cs :: cs != [] && EncodeAll(cs) == t }

  lemma SomeCharacters(t: Text)
    ensures Characters(t) <==> t != [] && Valid(t)
  {
    if cs :| cs != [] && EncodeAll(cs) == t {
      EncodedIsValid(cs);
      assert |EncodeAll(cs)| >= |EncodeScalar(cs[0])|;
    }
    if t != [] && Valid(t) {
      var cs := ValidIsEncoded(t);
    }
  }

  /** A letter is two texts of at least one character, of at most 256 and 16,000 bytes. */
  lemma ValidLetters(subject: Text, body: Text)
    ensures ValidLetter(subject, body) <==> Characters(subject) && Characters(body) && |subject| <= 256 && |body| <= 16_000
  {
    SomeCharacters(subject);
    SomeCharacters(body);
  }
}
