/** What a notice tells its reader, line by line. */
module NoticeTexts {
  import opened Texts
  import opened Types
  import opened Notices
  import Budget = MailBudget

  const LF: byte := 10
  const SPACE: byte := 32

  predicate OneLine(s: Text) { LF !in s }

  function Lines(s: Text): (lines: seq<Text>)
    ensures lines != []
  {
    if s == [] then [[]]
    else if s[0] == LF then [[]] + Lines(s[1..])
    else
      var rest := Lines(s[1..]);
      [[s[0]] + rest[0]] + rest[1..]
  }

  lemma {:induction false} FirstLine(line: Text, rest: Text)
    requires OneLine(line)
    ensures Lines(line + ([LF] + rest)) == [line] + Lines(rest)
  {
    var s := line + ([LF] + rest);
    if line == [] {
      assert s == [LF] + rest && s[1..] == rest;
    } else {
      assert s[1..] == line[1..] + ([LF] + rest);
      FirstLine(line[1..], rest);
      assert [line[0]] + line[1..] == line;
    }
  }

  lemma {:induction false} LastLine(line: Text)
    requires OneLine(line)
    ensures Lines(line) == [line]
  {
    if line != [] {
      LastLine(line[1..]);
      assert [line[0]] + line[1..] == line;
    }
  }

  // --- statuses --------------------------------------------------------------

  /** A status as the runs table names it. */
  function StatusOf(t: Text): Option<RunStatus> {
    if t == Ascii("starting") then Some(RunStarting)
    else if t == Ascii("running") then Some(RunRunning)
    else if t == Ascii("completed") then Some(RunCompleted)
    else if t == Ascii("failed") then Some(RunFailed)
    else if t == Ascii("interrupted") then Some(RunInterrupted)
    else if t == Ascii("canceled") then Some(RunCanceled)
    else None
  }

  lemma StatusReads(s: RunStatus)
    ensures StatusOf(StatusText(s)) == Some(s) && OneLine(StatusText(s))
  {
    assert Ascii("starting")[0] == 's' as int && Ascii("canceled")[0] == 'c' as int;
  }

  /** The part before the first blank, and the part behind it. */
  function FirstWord(s: Text): (Text, Text) {
    if s == [] then ([], [])
    else if s[0] == SPACE then ([], s[1..])
    else
      var (word, rest) := FirstWord(s[1..]);
      ([s[0]] + word, rest)
  }

  lemma {:induction false} FirstWordIs(word: Text, rest: Text)
    requires SPACE !in word
    ensures FirstWord(word + ([SPACE] + rest)) == (word, rest)
  {
    var s := word + ([SPACE] + rest);
    if word == [] {
      assert s == [SPACE] + rest && s[1..] == rest;
    } else {
      assert s[1..] == word[1..] + ([SPACE] + rest);
      FirstWordIs(word[1..], rest);
      assert [word[0]] + word[1..] == word;
    }
  }

  /** The subject of a terminal notice is the agent's name and the status of its run, and
      its kind is that status too. */
  lemma SubjectTells(c: Content)
    requires c.TerminalNotice? && SPACE !in c.name
    ensures FirstWord(Subject(c)).0 == c.name && StatusOf(FirstWord(Subject(c)).1) == Some(c.status)
    ensures |Kind(c)| >= 4 && Kind(c)[..4] == Ascii("run_") && StatusOf(Kind(c)[4..]) == Some(c.status)
  {
    var blank := Ascii(" ");
    assert blank == [SPACE];
    assert Subject(c) == c.name + ([SPACE] + StatusText(c.status));
    FirstWordIs(c.name, StatusText(c.status));
    StatusReads(c.status);
    assert Kind(c)[4..] == StatusText(c.status);
  }

  // --- bodies ----------------------------------------------------------------

  /** The last line of a text. */
  function Last(s: Text): Text { Lines(s)[|Lines(s)| - 1] }

  lemma {:induction false} LastIs(front: Text, line: Text)
    requires OneLine(line)
    ensures Last(front + ([LF] + line)) == line
  {
    var s := front + ([LF] + line);
    if front == [] {
      LastLine(line);
      assert s == [LF] + line && s[1..] == line;
    } else {
      assert s[1..] == front[1..] + ([LF] + line);
      LastIs(front[1..], line);
      AnotherLine(front[1..], line);
    }
  }

  lemma {:induction false} AnotherLine(front: Text, line: Text)
    ensures |Lines(front + ([LF] + line))| >= 2
  {
    var s := front + ([LF] + line);
    if front == [] {
      assert s == [LF] + line && s[1..] == line;
    } else {
      assert s[1..] == front[1..] + ([LF] + line);
      AnotherLine(front[1..], line);
    }
  }

  lemma NewLine(text: string)
    requires |text| > 0 && text[0] == '\n'
    ensures Ascii(text) == [LF] + Ascii(text[1..])
  {
  }

  lemma TwoLines(first: Text, second: Text, rest: Text)
    requires OneLine(first) && OneLine(second)
    ensures Lines(first + ([LF] + (second + ([LF] + rest)))) == [first, second] + Lines(rest)
  {
    FirstLine(second, rest);
    FirstLine(first, second + ([LF] + rest));
  }

  lemma Regroup(agent: Text, name: Text, open: Text, a: Text, close: Text, run: Text, r: Text, task: Text, t: Text,
                outcome: Text, status: Text)
    ensures agent + name + open + a + (close + ([LF] + run)) + r + ([LF] + task) + t + ([LF] + outcome) + status
            == (agent + name + open + a + close) + ([LF] + ((run + r) + ([LF] + (task + t + ([LF] + (outcome + status))))))
  {
    var l0, l1, l2, l3 := agent + name + open + a + close, run + r, task + t, outcome + status;
    assert agent + name + open + a + (close + ([LF] + run)) + r == l0 + ([LF] + l1);
    assert l0 + ([LF] + l1) + ([LF] + task) + t == l0 + ([LF] + (l1 + ([LF] + l2)));
  }

  lemma Labels()
    ensures Ascii(")\nRun: ") == Ascii(")") + ([LF] + Ascii("Run: "))
    ensures Ascii("\nTask: ") == [LF] + Ascii("Task: ") && Ascii("\nOutcome: ") == [LF] + Ascii("Outcome: ")
    ensures OneLine(Ascii("Agent: ")) && OneLine(Ascii(" (")) && OneLine(Ascii(")")) && OneLine(Ascii("Run: "))
    ensures OneLine(Ascii("Outcome: "))
  {
    NewLine("\nTask: ");
    NewLine("\nOutcome: ");
  }

  /** A notice about the end of a run names the agent and the run on its first two lines
      and the outcome on its last. An error comes behind that. */
  lemma TerminalBodyTells(a: Id, name: Text, r: Id, status: RunStatus, task: Text)
    requires OneLine(a) && OneLine(name) && OneLine(r)
    ensures var body := TerminalBody(a, name, r, status, task, None);
            && |Lines(body)| >= 2
            && Lines(body)[..2] == [Ascii("Agent: ") + name + Ascii(" (") + a + Ascii(")"), Ascii("Run: ") + r]
            && Last(body) == Ascii("Outcome: ") + StatusText(status) && StatusOf(Last(body)[9..]) == Some(status)
            && forall e :: TerminalBody(a, name, r, status, task, Some(e)) == body + Ascii("\nError: ") + Budget.Bounded(e, 1_000)
  {
    var t := Budget.Bounded(task, 1_000);
    var l0, l1 := Ascii("Agent: ") + name + Ascii(" (") + a + Ascii(")"), Ascii("Run: ") + r;
    var l3 := Ascii("Outcome: ") + StatusText(status);
    Labels();
    StatusReads(status);
    Regroup(Ascii("Agent: "), name, Ascii(" ("), a, Ascii(")"), Ascii("Run: "), r, Ascii("Task: "), t, Ascii("Outcome: "),
            StatusText(status));
    var rest := Ascii("Task: ") + t + ([LF] + l3);
    TwoLines(l0, l1, rest);
    EndsWith(l0, l1, Ascii("Task: ") + t, l3);
    assert l3[9..] == StatusText(status);
  }

  lemma EndsWith(l0: Text, l1: Text, l2: Text, l3: Text)
    requires OneLine(l3)
    ensures Last(l0 + ([LF] + (l1 + ([LF] + (l2 + ([LF] + l3)))))) == l3
    ensures |Lines(l0 + ([LF] + (l1 + ([LF] + (l2 + ([LF] + l3))))))| >= 2
  {
    var front := l0 + ([LF] + (l1 + ([LF] + l2)));
    assert l0 + ([LF] + (l1 + ([LF] + (l2 + ([LF] + l3))))) == front + ([LF] + l3);
    LastIs(front, l3);
    AnotherLine(front, l3);
  }

  /** The announcement of an agent names it, and how to reach it, on its first two lines. */
  lemma JoinedBodyTells(a: Id, name: Text, task: Text)
    requires OneLine(a) && OneLine(name)
    ensures var body := JoinedBody(a, name, task);
            |Lines(body)| >= 2 && Lines(body)[..2] == [Ascii("Contact: ") + a, Ascii("Name: ") + name]
  {
    var t := Budget.Bounded(task, 1_000);
    var end := Ascii("\nStatus: running\n\nUse send_agent_message to contact this agent.");
    NewLine("\nName: ");
    NewLine("\nTask: ");
    var rest := Ascii("Task: ") + t + end;
    JoinedShape(Ascii("Contact: "), a, Ascii("Name: "), name, Ascii("Task: "), t, end);
    TwoLines(Ascii("Contact: ") + a, Ascii("Name: ") + name, rest);
    AnotherLine(Ascii("Contact: ") + a, Ascii("Name: ") + name + ([LF] + rest));
  }

  lemma JoinedShape(contact: Text, a: Text, label1: Text, name: Text, task: Text, t: Text, end: Text)
    ensures contact + a + ([LF] + label1) + name + ([LF] + task) + t + end
            == (contact + a) + ([LF] + ((label1 + name) + ([LF] + (task + t + end))))
  {
  }
}
