/** The size of a mail in a tool reply, and the cuts that keep lifecycle mail
    inside the budget of a single read. */
module MailBudget {
  import opened Texts
  import opened Utf8
  import opened JsonText

  const MAX_MAIL_SUBJECT_BYTES := 256
  const MAX_MAIL_BODY_BYTES := 16_000
  const MAX_MAIL_READ_BYTES := 36_000

  const Suffix: Text := Ascii("\n[Truncated; full text remains in the stored run.]")

  /** The nine strings of a mail that are counted. */
  datatype Parts = Parts(
    senderId: Text, senderName: Text, senderKind: Text, recipientId: Text,
    subject: Text, body: Text, kind: Text, agentId: Text, runId: Text)

  function Twice(t: Text): nat { 2 * |Encode(t)| }

  /** Every string is counted twice, once per copy in the reply. */
  function ReadBytes(mail: Parts): nat {
    1_024 + Twice(mail.senderId) + Twice(mail.senderName) + Twice(mail.senderKind)
    + Twice(mail.recipientId) + Twice(mail.subject) + Twice(mail.body)
    + Twice(mail.kind) + Twice(mail.agentId) + Twice(mail.runId)
  }

  predicate Fits(mail: Parts, body: Text) {
    ReadBytes(mail.(body := body)) <= MAX_MAIL_READ_BYTES
  }

  function SumTwice(ts: seq<Text>): nat {
    if ts == [] then 0 else Twice(ts[0]) + SumTwice(ts[1..])
  }

  method MailReadBytes(mail: Parts) returns (total: nat)
    ensures total == ReadBytes(mail)
  {
    total := 1_024;
    var texts := [mail.senderId, mail.senderName, mail.senderKind, mail.recipientId,
                  mail.subject, mail.body, mail.kind, mail.agentId, mail.runId];
    ghost var whole := 1_024 + SumTwice(texts);
    for i := 0 to |texts|
      invariant total + SumTwice(texts[i..]) == whole
    {
      total := total + 2 * |Encode(texts[i])|;
      assert texts[i..][1..] == texts[i + 1..];
    }
    SumOfNine(texts);
  }

  lemma SumOfNine(ts: seq<Text>)
    requires |ts| == 9
    ensures SumTwice(ts) == Twice(ts[0]) + Twice(ts[1]) + Twice(ts[2]) + Twice(ts[3]) + Twice(ts[4])
            + Twice(ts[5]) + Twice(ts[6]) + Twice(ts[7]) + Twice(ts[8])
  {
    SumOfThree(ts, 0);
    SumOfThree(ts, 3);
    SumOfThree(ts, 6);
    assert ts[0..] == ts;
  }

  lemma SumOfThree(ts: seq<Text>, i: nat)
    requires i + 3 <= |ts|
    ensures SumTwice(ts[i..]) == Twice(ts[i]) + Twice(ts[i + 1]) + Twice(ts[i + 2]) + SumTwice(ts[i + 3..])
  {
    SumOfOne(ts, i);
    SumOfOne(ts, i + 1);
    SumOfOne(ts, i + 2);
  }

  lemma SumOfOne(ts: seq<Text>, i: nat)
    requires i < |ts|
    ensures SumTwice(ts[i..]) == Twice(ts[i]) + SumTwice(ts[i + 1..])
  {
    assert ts[i..][1..] == ts[i + 1..];
  }

  // --- boundedMailText -------------------------------------------------------

  /** The last rune start at or before i. */
  function RuneFloor(s: Text, i: nat): (e: nat)
    requires Valid(s) && i < |s|
    ensures e <= i && RuneStart(s[e]) && forall k | e < k <= i :: Tail(s[k])
  {
    if RuneStart(s[i]) then i
    else
      CutAtRuneStart(s, 0);
      assert s[..0] == [] && Valid([]);
      RuneFloor(s, i - 1)
  }

  /** A text shortened to limit bytes, suffix included, at a rune boundary. */
  function Bounded(text: Text, limit: nat): Text
    requires |Suffix| <= limit
  {
    ToValidIsValid(text, false);
    var s := ToValid(text);
    if |s| <= limit then s else s[..RuneFloor(s, limit - |Suffix|)] + Suffix
  }

  method BoundedMailText(text: Text, limit: nat) returns (r: Text)
    requires |Suffix| <= limit
    ensures r == Bounded(text, limit)
  {
    ToValidIsValid(text, false);
    var s := ToValid(text);
    if |s| <= limit {
      return s;
    }
    var end := limit - |Suffix|;
    assert s[..0] == [] && Valid(s[..0]);
    CutAtRuneStart(s, 0);
    while !RuneStart(s[end])
      invariant 0 <= end < |s| && RuneFloor(s, end) == RuneFloor(s, limit - |Suffix|)
      decreases end
    {
      end := end - 1;
    }
    r := s[..end] + Suffix;
  }

  /** A cut text is valid UTF-8, within the limit, and unchanged when it already fits. */
  lemma BoundedText(text: Text, limit: nat)
    requires |Suffix| <= limit
    ensures Valid(Bounded(text, limit))
    ensures |Bounded(text, limit)| <= limit
    ensures Valid(text) && |text| <= limit ==> Bounded(text, limit) == text
  {
    ToValidIsValid(text, false);
    var s := ToValid(text);
    if |s| > limit {
      var e := RuneFloor(s, limit - |Suffix|);
      CutAtRuneStart(s, e);
      AsciiValid(Suffix);
      ValidConcat(s[..e], Suffix);
    }
    if Valid(text) {
      ToValidKeepsValid(text, false);
    }
  }

  // --- boundedMailBody -------------------------------------------------------

  /** body cut to e bytes and marked as cut. */
  function Cut(body: Text, e: nat): Text
    requires e <= |body|
  {
    body[..e] + Suffix
  }

  /** A cut the search considers: at a rune boundary and shorter than the body. */
  predicate IsCut(body: Text, e: nat) {
    e + |Suffix| < |body| && Valid(body[..e])
  }

  lemma BoundedIsCut(body: Text, limit: nat)
    requires Valid(body) && |Suffix| <= limit < |body|
    ensures var e := RuneFloor(body, limit - |Suffix|);
            Bounded(body, limit) == Cut(body, e) && IsCut(body, e)
            && forall k | e < k <= limit - |Suffix| :: !IsCut(body, k)
  {
    ToValidKeepsValid(body, false);
    var e := RuneFloor(body, limit - |Suffix|);
    CutAtRuneStart(body, e);
    forall k | e < k <= limit - |Suffix|
      ensures !IsCut(body, k)
    {
      CutAtRuneStart(body, k);
    }
  }

  lemma CutMonotone(mail: Parts, body: Text, e: nat, f: nat)
    requires e <= f <= |body| && Valid(body[..e]) && Valid(body[..f])
    requires Fits(mail, Cut(body, f))
    ensures Fits(mail, Cut(body, e))
  {
    EscapeMonotone(body, e, f);
    EscapeConcat(body[..e], Suffix);
    EscapeConcat(body[..f], Suffix);
  }

  /** The largest limit up to high that fits, or low when none above it does. */
  function Largest(fits: nat -> bool, low: nat, high: nat): (best: nat)
    requires low <= high
    ensures low <= best <= high && (best == low || fits(best))
    ensures forall k | best < k <= high :: !fits(k)
    decreases high
  {
    if low == high || fits(high) then high else Largest(fits, low, high - 1)
  }

  predicate FitsAt(mail: Parts, body: Text, limit: nat) {
    |Suffix| <= limit && Fits(mail, Bounded(body, limit))
  }

  /** The limit the search starts above: the suffix alone takes this much. */
  function Top(body: Text): (top: nat)
    ensures |Suffix| <= top
  {
    if |body| > |Suffix| then |body| - 1 else |Suffix|
  }

  function BestLimit(mail: Parts, body: Text): (best: nat)
    ensures |Suffix| <= best <= Top(body)
  {
    Largest((k: nat) => FitsAt(mail, body, k), |Suffix|, Top(body))
  }

  /** The body when it fits, otherwise its longest cut that fits. */
  function BoundedBody(mail: Parts): Text {
    var body := Bounded(mail.body, MAX_MAIL_BODY_BYTES);
    if Fits(mail, body) then body else Bounded(body, BestLimit(mail, body))
  }

  lemma BestLimitIsLargest(mail: Parts, body: Text, best: nat)
    requires |Suffix| <= best <= Top(body)
    requires best == |Suffix| || FitsAt(mail, body, best)
    requires forall k | best < k <= Top(body) :: !FitsAt(mail, body, k)
    ensures best == BestLimit(mail, body)
  {
    LargestIsUnique((k: nat) => FitsAt(mail, body, k), |Suffix|, Top(body), best);
  }

  lemma LargestIsUnique(fits: nat -> bool, low: nat, high: nat, best: nat)
    requires low <= best <= high && (best == low || fits(best))
    requires forall k | best < k <= high :: !fits(k)
    ensures best == Largest(fits, low, high)
  {
  }

  lemma LimitMonotone(mail: Parts, body: Text, low: nat, high: nat)
    requires Valid(body) && |Suffix| <= low <= high < |body|
    requires FitsAt(mail, body, high)
    ensures FitsAt(mail, body, low)
  {
    BoundedIsCut(body, low);
    BoundedIsCut(body, high);
    var e, f := RuneFloor(body, low - |Suffix|), RuneFloor(body, high - |Suffix|);
    CutMonotone(mail, body, e, f);
  }

  /** The binary search: it terminates and finds the same limit as the downward search. */
  method BoundedMailBody(mail: Parts) returns (r: Text)
    ensures r == BoundedBody(mail)
  {
    var body := BoundedMailText(mail.body, MAX_MAIL_BODY_BYTES);
    BoundedText(mail.body, MAX_MAIL_BODY_BYTES);
    var size := MailReadBytes(mail.(body := body));
    if size <= MAX_MAIL_READ_BYTES {
      return body;
    }
    var low, high := |Suffix|, |body| - 1;
    while low < high
      invariant |Suffix| <= low <= Top(body) && high <= Top(body)
      invariant low <= high || low == Top(body) == |Suffix|
      invariant low == |Suffix| || FitsAt(mail, body, low)
      invariant forall k | high < k <= Top(body) && |Suffix| < k :: !FitsAt(mail, body, k)
      decreases high - low
    {
      var mid := low + (high - low + 1) / 2;
      var cut := BoundedMailText(body, mid);
      size := MailReadBytes(mail.(body := cut));
      if size <= MAX_MAIL_READ_BYTES {
        low := mid;
      } else {
        LimitsAboveFail(mail, body, mid);
        high := mid - 1;
      }
    }
    BestLimitIsLargest(mail, body, low);
    r := BoundedMailText(body, low);
  }

  lemma LimitsAboveFail(mail: Parts, body: Text, limit: nat)
    requires Valid(body) && |Suffix| <= limit < |body| && !FitsAt(mail, body, limit)
    ensures forall k | limit <= k < |body| :: !FitsAt(mail, body, k)
  {
    forall k | limit <= k < |body|
      ensures !FitsAt(mail, body, k)
    {
      if FitsAt(mail, body, k) {
        LimitMonotone(mail, body, limit, k);
      }
    }
  }

  /** What the search achieves for a body that is over budget: a valid text no longer
      than the body, which fits exactly when the body is longer than the suffix and
      the suffix alone fits; and then it is the longest cut that does. */
  lemma SearchFindsLongest(mail: Parts)
    requires !Fits(mail, Bounded(mail.body, 16_000))
    ensures var body := Bounded(mail.body, 16_000);
            && Valid(BoundedBody(mail))
            && |BoundedBody(mail)| <= |body|
            && (Fits(mail, BoundedBody(mail)) <==> |body| > |Suffix| && Fits(mail, Suffix))
            && (Fits(mail, BoundedBody(mail)) ==>
                  exists e :: IsCut(body, e) && BoundedBody(mail) == Cut(body, e)
                    && forall f | f > e && IsCut(body, f) :: !Fits(mail, Cut(body, f)))
  {
    var body := Bounded(mail.body, 16_000);
    var best := BestLimit(mail, body);
    BoundedText(mail.body, 16_000);
    BoundedText(body, best);
    if |body| > |Suffix| {
      BestCutIsLongest(mail, body);
    }
  }

  lemma BestCutIsLongest(mail: Parts, body: Text)
    requires Valid(body) && |body| > |Suffix|
    ensures LongestCut(mail, body, Bounded(body, BestLimit(mail, body)))
  {
    BestIsLastFit(mail, body);
    LastFitIsLongest(mail, body, BestLimit(mail, body));
  }

  /** The text is a cut of the body; it fits if and only if the suffix does, and then no
      longer cut fits. */
  ghost predicate LongestCut(mail: Parts, body: Text, cut: Text) {
    && |cut| <= |body|
    && (Fits(mail, cut) <==> Fits(mail, Suffix))
    && exists e :: IsCut(body, e) && cut == Cut(body, e)
         && (Fits(mail, cut) ==> forall f | f > e && IsCut(body, f) :: !Fits(mail, Cut(body, f)))
  }

  /** The last limit that fits, or the first of all if none does. */
  ghost predicate LastFit(mail: Parts, body: Text, best: nat) {
    && |Suffix| <= best <= Top(body)
    && (best == |Suffix| || FitsAt(mail, body, best))
    && forall k | best < k <= Top(body) :: !FitsAt(mail, body, k)
  }

  lemma BestIsLastFit(mail: Parts, body: Text)
    ensures LastFit(mail, body, BestLimit(mail, body))
  {
    var fits := (k: nat) => FitsAt(mail, body, k);
    assert BestLimit(mail, body) == |Suffix| || fits(BestLimit(mail, body));
    forall k | BestLimit(mail, body) < k <= Top(body)
      ensures !FitsAt(mail, body, k)
    {
      AboveBestFails(mail, body, k);
    }
  }

  lemma LastFitIsLongest(mail: Parts, body: Text, best: nat)
    requires Valid(body) && |body| > |Suffix| && LastFit(mail, body, best)
    ensures LongestCut(mail, body, Bounded(body, best))
  {
    BoundedIsCut(body, best);
    var e := RuneFloor(body, best - |Suffix|);
    SuffixFitsFirst(mail, body, best);
    forall f | f > e && IsCut(body, f)
      ensures !Fits(mail, Cut(body, f))
    {
      assert f + |Suffix| > best;
      CutIsBelowTop(body, f);
      CutFails(mail, body, f);
    }
    assert IsCut(body, e) && Bounded(body, best) == Cut(body, e);
  }

  lemma SuffixFitsFirst(mail: Parts, body: Text, best: nat)
    requires Valid(body) && |body| > |Suffix| && LastFit(mail, body, best)
    ensures Fits(mail, Bounded(body, best)) <==> Fits(mail, Suffix)
  {
    BoundedIsCut(body, best);
    var e := RuneFloor(body, best - |Suffix|);
    assert Cut(body, 0) == Suffix && Valid(body[..0]);
    if Fits(mail, Cut(body, e)) {
      CutMonotone(mail, body, 0, e);
    }
  }

  lemma CutFails(mail: Parts, body: Text, f: nat)
    requires Valid(body) && IsCut(body, f) && !FitsAt(mail, body, f + |Suffix|)
    ensures !Fits(mail, Cut(body, f))
  {
    CutHere(body, f);
  }

  lemma CutIsBelowTop(body: Text, f: nat)
    requires IsCut(body, f)
    ensures f + |Suffix| <= Top(body)
  {
  }

  lemma AboveBestFails(mail: Parts, body: Text, limit: nat)
    requires BestLimit(mail, body) < limit <= Top(body)
    ensures !FitsAt(mail, body, limit)
  {
    var fits := (k: nat) => FitsAt(mail, body, k);
    assert !fits(limit);
  }

  lemma CutHere(body: Text, f: nat)
    requires Valid(body) && IsCut(body, f)
    ensures Bounded(body, f + |Suffix|) == Cut(body, f)
  {
    BoundedIsCut(body, f + |Suffix|);
  }
}
