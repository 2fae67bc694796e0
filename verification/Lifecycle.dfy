/** Lifecycle mail always fits the read budget: names, ids and the 1000-byte cuts
    bound its texts, and escaping multiplies a text by at most six. */
module Lifecycle {
  import opened Texts
  import opened Types
  import opened Notices
  import opened JsonText
  import opened Utf8
  import Budget = MailBudget

  const MAX_BODY := 2_300

  predicate Short(p: Budget.Parts) {
    && |p.senderId| <= 16 && |p.senderName| <= 16 && |p.senderKind| <= 16 && |p.recipientId| <= ID_BYTES
    && |p.subject| <= 64 && |p.body| <= MAX_BODY && |p.kind| <= 16
    && |p.agentId| <= ID_BYTES && |p.runId| <= ID_BYTES
  }

  lemma NoticeIsShort(m: MailRow)
    requires m.sender.FromSystem? && !m.content.Message? && |m.content.name| <= MAX_NAME_BYTES
    requires |m.agent| <= ID_BYTES && |m.run| <= ID_BYTES && |PartyText(m.recipient)| <= ID_BYTES
    ensures Short(RawParts(m))
  {
    Budget.BoundedText(m.content.task, TASK_BYTES);
    if m.content.TerminalNotice? {
      TerminalBodyIsShort(m.agent, m.content.name, m.run, m.content.status, m.content.task, m.content.error);
    } else {
      JoinedBodyIsShort(m.agent, m.content.name, m.content.task);
    }
  }

  lemma TerminalBodyIsShort(a: Text, name: Text, r: Text, status: RunStatus, task: Text, error: Option<Text>)
    requires |a| <= ID_BYTES && |r| <= ID_BYTES && |name| <= MAX_NAME_BYTES
    ensures |TerminalBody(a, name, r, status, task, error)| <= MAX_BODY
  {
    Budget.BoundedText(task, TASK_BYTES);
    if error.Some? {
      Budget.BoundedText(error.value, TASK_BYTES);
    }
  }

  lemma JoinedBodyIsShort(a: Text, name: Text, task: Text)
    requires |a| <= ID_BYTES && |name| <= MAX_NAME_BYTES
    ensures |JoinedBody(a, name, task)| <= MAX_BODY
  {
    Budget.BoundedText(task, TASK_BYTES);
  }

  /** Replacing invalid bytes may lengthen a text, but not past the worst escape. */
  lemma {:induction false} ToValidBounds(s: Text, inRun: bool)
    ensures |ToValid(s, inRun)| <= 3 * |s|
    ensures |Escape(ToValid(s, inRun))| <= 6 * |s|
  {
    if s == [] {
    } else if RuneSize(s) == 0 {
      ToValidBounds(s[1..], true);
      if !inRun {
        var rest := ToValid(s[1..], true);
        ReplacementFacts();
        EscapeConcat(Replacement, rest);
      } else {
        assert [] + ToValid(s[1..], true) == ToValid(s[1..], true);
      }
    } else {
      var n := RuneSize(s);
      ToValidBounds(s[n..], false);
      RunePrefixValid(s);
      EscapeConcat(s[..n], ToValid(s[n..]));
      EscapeBound(s[..n]);
    }
  }

  lemma ReplacementFacts()
    ensures Valid(Replacement) && |Escape(Replacement)| == 3
  {
    assert RuneSize(Replacement) == 3 && Replacement[3..] == [] && Replacement[..3] == Replacement;
    assert EscapeRune(Replacement) == Replacement;
  }

  lemma TwiceBound(t: Text)
    ensures Budget.Twice(t) <= 12 * |t| + 4
  {
    EscapeBound(t);
  }

  /** The body of a notice is stored whole: neither its own cut nor the search applies,
      and the notice can always be read. */
  lemma NoticeWithinBudget(m: MailRow)
    requires m.sender.FromSystem? && !m.content.Message? && |m.content.name| <= MAX_NAME_BYTES
    requires |m.agent| <= ID_BYTES && |m.run| <= ID_BYTES && |PartyText(m.recipient)| <= ID_BYTES
    ensures StoredBody(m) == ToValid(RawBody(m))
    ensures Budget.ReadBytes(PartsOf(m)) <= Budget.MAX_MAIL_READ_BYTES
  {
    NoticeIsShort(m);
    ShortIsWhole(RawParts(m));
  }

  lemma ShortIsWhole(p: Budget.Parts)
    requires Short(p)
    ensures Budget.BoundedBody(p) == ToValid(p.body) && Budget.Fits(p, ToValid(p.body))
  {
    ToValidBounds(p.body, false);
    assert Budget.Bounded(p.body, Budget.MAX_MAIL_BODY_BYTES) == ToValid(p.body);
    HeadersBound(p.(body := ToValid(p.body)));
  }

  lemma HeadersBound(p: Budget.Parts)
    ensures Budget.ReadBytes(p) <= 1_024 + Budget.Twice(p.body) + 32
              + 12 * (|p.senderId| + |p.senderName| + |p.senderKind| + |p.recipientId| + |p.subject| + |p.kind| + |p.agentId| + |p.runId|)
  {
    TwiceBound(p.senderId);
    TwiceBound(p.senderName);
    TwiceBound(p.senderKind);
    TwiceBound(p.recipientId);
    TwiceBound(p.subject);
    TwiceBound(p.kind);
    TwiceBound(p.agentId);
    TwiceBound(p.runId);
  }
}
