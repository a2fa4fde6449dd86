/**
 * Printing a commit message and reading its subject back (src/modules/formatters/commit-formatter.ts,
 * src/modules/core/validators/commit-message-validator.ts), after the Conventional Commits 1.0.0
 * specification, items 1, 4, 5, 6 and 13.
 */
module ConventionalCommit {
  import opened Base
  import opened Plans

  function Printed(c: CommitMessage): string {
    Head(c) + (if c.body.Some? && c.body.value != "" then "\n\n" + c.body.value else "")
  }

  /** The subject line. An empty scope prints like no scope. */
  function Head(c: CommitMessage): string {
    c.kind
    + (if c.scope.Some? && c.scope.value != "" then "(" + c.scope.value + ")" else "")
    + (if c.isBreaking then "!" else "")
    + ": " + c.description
  }

  /** `formatConventionalCommit`. */
  method Format(c: CommitMessage) returns (message: string)
    ensures message == Printed(c)
  {
    message := c.kind;
    if c.scope.Some? && c.scope.value != "" {
      message := message + ("(" + c.scope.value + ")");
    }
    if c.isBreaking {
      message := message + "!";
    }
    message := message + (": " + c.description);
    if c.body.Some? && c.body.value != "" {
      message := message + ("\n\n" + c.body.value);
    }
  }

  predicate IsWord(c: char) {
    'a' <= c <= 'z' || 'A' <= c <= 'Z' || '0' <= c <= '9' || c == '_'
  }

  predicate IsLineTerminator(c: char) {
    c == '\n' || c == '\r' || c == '\U{2028}' || c == '\U{2029}'
  }

  predicate NotNewline(c: char) {
    c != '\n'
  }

  predicate NotClosing(c: char) {
    c != ')'
  }

  predicate NotTerminator(c: char) {
    !IsLineTerminator(c)
  }

  predicate All(s: string, p: char -> bool) {
    forall i :: 0 <= i < |s| ==> p(s[i])
  }

  /** Length of the longest prefix of characters of one class. */
  function Span(s: string, p: char -> bool): (k: nat)
    ensures k <= |s| && All(s[..k], p) && (k < |s| ==> !p(s[k]))
  {
    if s == "" || !p(s[0]) then 0
    else
      var k := 1 + Span(s[1..], p);
      assert s[..k] == [s[0]] + s[1..][..k - 1];
      k
  }

  lemma {:induction false} SpanIs(a: string, b: string, p: char -> bool)
    requires All(a, p) && (b == "" || !p(b[0]))
    ensures Span(a + b, p) == |a|
  {
    if a == "" {
      assert a + b == b;
    } else {
      assert (a + b)[1..] == a[1..] + b;
      SpanIs(a[1..], b, p);
    }
  }

  datatype Subject = Subject(kind: string, scope: Option<string>, isBreaking: bool, description: string)

  function ScopePart(scope: Option<string>): string {
    if scope.Some? then "(" + scope.value + ")" else ""
  }

  function MarkPart(isBreaking: bool): string {
    if isBreaking then "!" else ""
  }

  /** Blanks, a colon, one blank and the description. */
  function Ending(blanks: string, blank: char, description: string): string {
    blanks + (":" + ([blank] + description))
  }

  predicate WellFormed(m: Subject) {
    && m.kind != "" && All(m.kind, IsWord)
    && (m.scope.Some? ==> m.scope.value != "" && All(m.scope.value, NotClosing))
    && m.description != "" && All(m.description, NotTerminator)
  }

  /** The text is type, optional scope, optional mark, blanks, a colon, one blank and the description. */
  predicate Spelled(s: string, m: Subject, blanks: string, blank: char) {
    && WellFormed(m) && All(blanks, IsSpace) && IsSpace(blank)
    && s == m.kind + (ScopePart(m.scope) + (MarkPart(m.isBreaking) + Ending(blanks, blank, m.description)))
  }

  /** The regular expression `^(\w+)(?:\(([^)]+)\))?(!)?\s*:\s(.+)$` matches with these groups. */
  ghost predicate Matches(s: string, m: Subject) {
    exists blanks, blank :: Spelled(s, m, blanks, blank)
  }

  /** An optional scope at the front; `None` when an opening parenthesis cannot be matched. */
  function ReadScope(s: string): Option<(Option<string>, string)> {
    if s == "" || s[0] != '(' then Some((None, s))
    else
      var k := Span(s[1..], NotClosing);
      if k == 0 || k == |s| - 1 then None else Some((Some(s[1..k + 1]), s[k + 2..]))
  }

  /** Blanks, a colon, one blank and a description up to the end. */
  function ReadDescription(s: string): Option<string> {
    var k := Span(s, IsSpace);
    if k + 2 < |s| && s[k] == ':' && IsSpace(s[k + 1]) && All(s[k + 2..], NotTerminator) then Some(s[k + 2..]) else None
  }

  /** Reading a subject from left to right. */
  function ParseSubject(s: string): Option<Subject> {
    var k := Span(s, IsWord);
    if k == 0 then None
    else
      match ReadScope(s[k..])
      case None => None
      case Some((scope, afterScope)) =>
        var breaking := afterScope != "" && afterScope[0] == '!';
        match ReadDescription(if breaking then afterScope[1..] else afterScope)
        case None => None
        case Some(description) => Some(Subject(s[..k], scope, breaking, description))
  }

  lemma ReadScopeReads(m: Subject, after: string)
    requires WellFormed(m) && after != "" && after[0] != '('
    ensures ReadScope(ScopePart(m.scope) + after) == Some((m.scope, after))
  {
    if m.scope.Some? {
      var s := "(" + m.scope.value + ")" + after;
      assert s[1..] == m.scope.value + (")" + after);
      assert s[1..|m.scope.value| + 1] == m.scope.value && s[|m.scope.value| + 2..] == after;
      SpanIs(m.scope.value, ")" + after, NotClosing);
    } else {
      assert "" + after == after;
    }
  }

  lemma ReadDescriptionReads(m: Subject, blanks: string, blank: char)
    requires WellFormed(m) && All(blanks, IsSpace) && IsSpace(blank)
    ensures ReadDescription(Ending(blanks, blank, m.description)) == Some(m.description)
  {
    var s := Ending(blanks, blank, m.description);
    SpanIs(blanks, ":" + ([blank] + m.description), IsSpace);
    assert s[|blanks| + 2..] == m.description;
  }

  lemma EndingStarts(blanks: string, blank: char, description: string, isBreaking: bool)
    requires All(blanks, IsSpace)
    ensures var tail := Ending(blanks, blank, description);
            var afterScope := MarkPart(isBreaking) + tail;
            && tail != "" && tail[0] != '!' && tail[0] != '(' && !IsWord(tail[0])
            && afterScope != "" && afterScope[0] != '(' && !IsWord(afterScope[0])
            && (afterScope[0] == '!' <==> isBreaking)
            && (if isBreaking then afterScope[1..] else afterScope) == tail
  {
    var tail := Ending(blanks, blank, description);
    assert tail[0] == if blanks == "" then ':' else blanks[0];
    assert !isBreaking ==> MarkPart(isBreaking) + tail == tail;
  }

  lemma AfterKindStarts(scope: Option<string>, afterScope: string)
    requires afterScope != "" && !IsWord(afterScope[0])
    ensures ScopePart(scope) + afterScope != "" && !IsWord((ScopePart(scope) + afterScope)[0])
  {
  }

  lemma ParsesWhatMatches(s: string, m: Subject, blanks: string, blank: char)
    requires Spelled(s, m, blanks, blank)
    ensures ParseSubject(s) == Some(m)
  {
    Kinds(m);
    hide Span, ReadScope, ReadDescription, WellFormed, Ending, MarkPart, ScopePart, All, IsWord, IsSpace, ParseSubject;
    var tail := Ending(blanks, blank, m.description);
    var afterScope := MarkPart(m.isBreaking) + tail;
    var afterKind := ScopePart(m.scope) + afterScope;
    EndingStarts(blanks, blank, m.description, m.isBreaking);
    AfterKindStarts(m.scope, afterScope);
    SpanIs(m.kind, afterKind, IsWord);
    CutAt(m.kind, afterKind);
    ReadScopeReads(m, afterScope);
    ReadDescriptionReads(m, blanks, blank);
    Assembled(s, m, afterScope, tail);
  }

  lemma CutAt(a: string, b: string)
    ensures (a + b)[..|a|] == a && (a + b)[|a|..] == b
  {
  }

  lemma Assembled(s: string, m: Subject, afterScope: string, tail: string)
    requires m.kind != "" && m.kind <= s && Span(s, IsWord) == |m.kind|
    requires ReadScope(s[|m.kind|..]) == Some((m.scope, afterScope))
    requires afterScope != "" && (afterScope[0] == '!' <==> m.isBreaking)
    requires (if m.isBreaking then afterScope[1..] else afterScope) == tail
    requires ReadDescription(tail) == Some(m.description)
    ensures ParseSubject(s) == Some(m)
  {
    hide Span, ReadScope, ReadDescription;
    assert s[..|m.kind|] == m.kind;
  }

  lemma Kinds(m: Subject)
    requires WellFormed(m)
    ensures m.kind != "" && All(m.kind, IsWord)
  {
  }

  lemma MatchesWhatParses(s: string)
    requires ParseSubject(s).Some?
    ensures Matches(s, ParseSubject(s).value)
  {
    hide ReadScope, ReadDescription, Span, All, Ending, ScopePart, IsSpace, IsWord;
    var m := ParseSubject(s).value;
    var k := Span(s, IsWord);
    var afterScope := ReadScope(s[k..]).value.1;
    var tail := if m.isBreaking then afterScope[1..] else afterScope;
    ScopeSplits(s[k..]);
    var blanks, blank := DescriptionSplits(tail);
    assert afterScope == MarkPart(m.isBreaking) + tail;
    assert s == m.kind + s[k..];
    assert Spelled(s, m, blanks, blank);
  }

  lemma DescriptionSplits(s: string) returns (blanks: string, blank: char)
    requires ReadDescription(s).Some?
    ensures All(blanks, IsSpace) && IsSpace(blank)
    ensures var description := ReadDescription(s).value;
            && s == Ending(blanks, blank, description)
            && description != "" && All(description, NotTerminator)
  {
    var k := Span(s, IsSpace);
    blanks, blank := s[..k], s[k + 1];
  }

  lemma ScopeSplits(s: string)
    requires ReadScope(s).Some?
    ensures var (scope, after) := ReadScope(s).value;
            && s == ScopePart(scope) + after
            && (scope.Some? ==> scope.value != "" && All(scope.value, NotClosing))
  {
    if s != "" && s[0] == '(' {
      var rest := s[1..];
      var k := Span(rest, NotClosing);
      assert rest[..k] == s[1..k + 1] && rest[k] == s[k + 1] == ')';
      assert s == ("(" + s[1..k + 1] + ")") + s[k + 2..];
    }
  }

  /** The scanner is the regular expression: same texts accepted, same groups, and only one way to match. */
  lemma ScannerIsTheExpression(s: string, m: Subject)
    ensures ParseSubject(s) == Some(m) <==> Matches(s, m)
  {
    hide ParseSubject, Spelled;
    if ParseSubject(s) == Some(m) {
      MatchesWhatParses(s);
    }
    if Matches(s, m) {
      var blanks, blank :| Spelled(s, m, blanks, blank);
      ParsesWhatMatches(s, m, blanks, blank);
    }
  }

  function TrimEnd(s: string): (r: string)
    ensures r <= s && (r != "" ==> !IsSpace(r[|r| - 1]))
    ensures forall i :: |r| <= i < |s| ==> IsSpace(s[i])
  {
    if s == "" || !IsSpace(s[|s| - 1]) then s else TrimEnd(s[..|s| - 1])
  }

  /** `trim`. */
  function Trim(s: string): (r: string)
    ensures r != "" ==> !IsSpace(r[0]) && !IsSpace(r[|r| - 1])
  {
    TrimEnd(s[Span(s, IsSpace)..])
  }

  /** `split("\n")[0]`. */
  function FirstLine(s: string): string {
    s[..Span(s, NotNewline)]
  }

  /** The subject the validator looks at, read by its expression; `None` is the format error. */
  function Parse(message: string): Option<Subject> {
    var trimmed := Trim(message);
    if trimmed == "" then None else ParseSubject(Trim(FirstLine(trimmed)))
  }

  /** The messages whose subject survives printing and reading. */
  predicate Printable(c: CommitMessage) {
    && c.kind != "" && All(c.kind, IsWord)
    && (c.scope.Some? ==> c.scope.value != "" && All(c.scope.value, NotClosing) && All(c.scope.value, NotNewline))
    && c.description != "" && All(c.description, NotTerminator)
    && !IsSpace(c.description[|c.description| - 1])
  }

  function SubjectOf(c: CommitMessage): Subject {
    Subject(c.kind, c.scope, c.isBreaking, c.description)
  }

  lemma TrimKeeps(s: string)
    requires s != "" && !IsSpace(s[0]) && !IsSpace(s[|s| - 1])
    ensures Trim(s) == s
  {
    assert s[Span(s, IsSpace)..] == s;
  }

  /** Trimming a text that starts with a non-blank head ending in a non-blank keeps the head. */
  lemma TrimKeepsHead(head: string, rest: string)
    requires head != "" && !IsSpace(head[0]) && !IsSpace(head[|head| - 1])
    ensures head <= Trim(head + rest) <= head + rest
  {
    var s := head + rest;
    assert Span(s, IsSpace) == 0;
    assert s[0..] == s;
    var r := TrimEnd(s);
    assert s[|head| - 1] == head[|head| - 1];
    assert |r| >= |head|;
    assert forall i :: 0 <= i < |head| ==> r[i] == s[i] == head[i];
  }

  lemma HeadIsTheLine(head: string, text: string, rest: string)
    requires All(head, NotNewline) && head <= text <= head + rest && (rest == "" || rest[0] == '\n')
    ensures FirstLine(text) == head
  {
    var after := text[|head|..];
    assert text == head + after;
    if after != "" {
      assert after[0] == text[|head|] == (head + rest)[|head|] == rest[0];
    }
    SpanIs(head, after, NotNewline);
  }

  lemma HeadShape(c: CommitMessage)
    requires Printable(c)
    ensures var head := Head(c);
            && head != "" && !IsSpace(head[0]) && !IsSpace(head[|head| - 1]) && All(head, NotNewline)
            && Spelled(head, SubjectOf(c), "", ' ')
  {
    var head, m := Head(c), SubjectOf(c);
    assert head == m.kind + (ScopePart(m.scope) + (MarkPart(m.isBreaking) + Ending("", ' ', m.description)));
    assert head == m.kind + ScopePart(m.scope) + MarkPart(m.isBreaking) + ": " + m.description;
    assert head[0] == c.kind[0] && IsWord(c.kind[0]);
    assert head[|head| - 1] == c.description[|c.description| - 1];
    HeadStaysOnTheLine(c);
  }

  lemma HeadStaysOnTheLine(c: CommitMessage)
    requires Printable(c)
    ensures All(Head(c), NotNewline)
  {
    assert All(c.description, NotNewline) by {
      assert forall i :: 0 <= i < |c.description| ==> NotTerminator(c.description[i]);
    }
    assert All(c.kind, NotNewline) by {
      assert forall i :: 0 <= i < |c.kind| ==> IsWord(c.kind[i]);
    }
    var scope, mark := ScopePart(c.scope), MarkPart(c.isBreaking);
    assert All(scope, NotNewline) && All(mark, NotNewline) && All(": ", NotNewline);
    assert Head(c) == c.kind + scope + mark + (": " + c.description);
    hide All;
    Join(c.kind, scope);
    Join(c.kind + scope, mark);
    Join(": ", c.description);
    Join(c.kind + scope + mark, ": " + c.description);
  }

  lemma Join(a: string, b: string)
    requires All(a, NotNewline) && All(b, NotNewline)
    ensures All(a + b, NotNewline)
  {
  }

  lemma PrintableSurvives(c: CommitMessage)
    requires Printable(c)
    ensures Parse(Printed(c)) == Some(SubjectOf(c))
  {
    hide Printable, Head, ParseSubject, Span, Trim, TrimEnd, FirstLine, Spelled, All;
    HeadShape(c);
    var head := Head(c);
    var rest := if c.body.Some? && c.body.value != "" then "\n\n" + c.body.value else "";
    var trimmed := Trim(head + rest);
    TrimKeepsHead(head, rest);
    HeadIsTheLine(head, trimmed, rest);
    TrimKeeps(head);
    ParsesWhatMatches(head, SubjectOf(c), "", ' ');
  }

  lemma SurvivorsArePrintable(c: CommitMessage)
    requires Parse(Printed(c)) == Some(SubjectOf(c))
    ensures Printable(c)
  {
    hide Printed, ParseSubject, Span, Trim, TrimEnd, FirstLine;
    var line := FirstLine(Trim(Printed(c)));
    var s := Trim(line);
    var m := SubjectOf(c);
    MatchesWhatParses(s);
    var blanks, blank :| Spelled(s, m, blanks, blank);
    assert s[|s| - 1] == c.description[|c.description| - 1];
    FirstLineIsOne(Trim(Printed(c)));
    TrimIsInside(line);
    if c.scope.Some? {
      ScopeIsInside(s, m, blanks, blank);
    }
  }

  lemma FirstLineIsOne(s: string)
    ensures All(FirstLine(s), NotNewline)
  {
  }

  lemma ScopeIsInside(s: string, m: Subject, blanks: string, blank: char)
    requires Spelled(s, m, blanks, blank) && m.scope.Some? && All(s, NotNewline)
    ensures All(m.scope.value, NotNewline)
  {
    var at := |m.kind| + 1;
    var rest := ")" + (MarkPart(m.isBreaking) + Ending(blanks, blank, m.description));
    assert s == (m.kind + "(") + m.scope.value + rest;
    forall i | 0 <= i < |m.scope.value|
      ensures NotNewline(m.scope.value[i])
    {
      assert s[at + i] == m.scope.value[i];
    }
  }

  lemma TrimIsInside(s: string)
    requires All(s, NotNewline)
    ensures All(Trim(s), NotNewline)
  {
    var k := Span(s, IsSpace);
    assert forall i :: 0 <= i < |Trim(s)| ==> Trim(s)[i] == s[k..][i] == s[k + i];
  }

  /**
   * Printing a message and reading its subject gives back exactly the type, scope, breaking mark and
   * description, whatever the body, if and only if the message is printable.
   */
  lemma RoundTripIff(c: CommitMessage)
    ensures Parse(Printed(c)) == Some(SubjectOf(c)) <==> Printable(c)
  {
    hide *;
    if Printable(c) {
      PrintableSurvives(c);
    }
    if Parse(Printed(c)) == Some(SubjectOf(c)) {
      SurvivorsArePrintable(c);
    }
  }

  /**
   * The whole printed message, line by line: the first line is the subject, and it reads back; after it comes
   * nothing when there is no body, and otherwise one blank line and then the body as it is.
   */
  lemma PrintedLines(c: CommitMessage)
    requires Printable(c)
    ensures var s := Printed(c);
            var line := FirstLine(s);
            && line <= s && Parse(line) == Some(SubjectOf(c))
            && s[|line|..] == if c.body in {None, Some("")} then "" else "\n" + "\n" + c.body.value
  {
    hide Printable, Head, ParseSubject, Span, Trim, TrimEnd, FirstLine, Spelled, All;
    HeadShape(c);
    var head := Head(c);
    var rest := if c.body.Some? && c.body.value != "" then "\n\n" + c.body.value else "";
    HeadIsTheLine(head, head + rest, rest);
    HeadIsTheLine(head, head, "");
    TrimKeeps(head);
    ParsesWhatMatches(head, SubjectOf(c), "", ' ');
  }
}
