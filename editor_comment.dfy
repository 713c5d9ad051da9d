/**
 * Commenting on a PR or an issue from an external editor: the editor is chosen from the
 * environment, a temporary file is seeded with a '#' header, the editor's exit hands back the
 * file, whose non-'#' lines become the comment body, and the submission runs as a task whose
 * finishing message updates the section.
 */
module EditorComment {
  import opened Wrappers
  import opened GoStrings

  // ---------------------------------------------------------------- choosing the editor

  /** getEditorCmd, with the two environment values as parameters. */
  function GetEditorCmd(editor: string, visual: string): (cmd: string)
    ensures cmd != ""
    ensures editor != "" ==> cmd == editor
    ensures editor == "" && visual != "" ==> cmd == visual
    ensures editor == "" && visual == "" ==> cmd == "vi"
  {
    if editor != "" then editor else if visual != "" then visual else "vi"
  }

  // ---------------------------------------------------------------- what is commented on

  /** The word used in the header and the task texts. */
  function Kind(isPR: bool): string { if isPR then "PR" else "issue" }
  /** The gh sub-command, which also names the task. */
  function GhCmd(isPR: bool): string { if isPR then "pr" else "issue" }

  /** A PR or issue row as the views expose it. */
  datatype RowRef = RowRef(number: int, repoNameWithOwner: string)
  /** The current section of the dashboard. */
  datatype SectionRef = SectionRef(id: int, sectionType: string)

  /** The number, repository and section the comment is for. */
  datatype CommentTarget = CommentTarget(number: int, repoName: string, sectionId: int, sectionType: string)

  /** The dashboard as openEditorComment reads it: in the notifications view the subject of the
      selected notification, elsewhere the current row and section. */
  datatype Dashboard = Dashboard(
    inNotificationsView: bool,
    subjectPR: Option<RowRef>,
    subjectIssue: Option<RowRef>,
    currRow: Option<RowRef>,
    currSection: Option<SectionRef>,
    notificationsSectionType: string)

  /** The target-selection part of openEditorComment; None when there is nothing to comment on,
      in which case no command is issued. */
  function SelectTarget(d: Dashboard, isPR: bool): (t: Option<CommentTarget>)
    ensures d.inNotificationsView ==>
      (t.Some? <==> (if isPR then d.subjectPR.Some? else d.subjectIssue.Some?))
    ensures d.inNotificationsView && t.Some? ==>
      var row := if isPR then d.subjectPR.value else d.subjectIssue.value;
      t.value == CommentTarget(row.number, row.repoNameWithOwner, 0, d.notificationsSectionType)
    ensures !d.inNotificationsView ==> (t.Some? <==> d.currRow.Some?)
    ensures !d.inNotificationsView && t.Some? ==>
      t.value.number == d.currRow.value.number &&
      t.value.repoName == d.currRow.value.repoNameWithOwner &&
      (d.currSection.Some? ==> t.value.sectionId == d.currSection.value.id &&
                               t.value.sectionType == d.currSection.value.sectionType) &&
      (d.currSection.None? ==> t.value.sectionId == 0 && t.value.sectionType == "")
  {
    if d.inNotificationsView then
      var subject := if isPR then d.subjectPR else d.subjectIssue;
      match subject
      case None => None
      case Some(row) => Some(CommentTarget(row.number, row.repoNameWithOwner, 0, d.notificationsSectionType))
    else
      match d.currRow
      case None => None
      case Some(row) =>
        match d.currSection
        case None => Some(CommentTarget(row.number, row.repoNameWithOwner, 0, ""))
        case Some(sec) => Some(CommentTarget(row.number, row.repoNameWithOwner, sec.id, sec.sectionType))
  }

  // ---------------------------------------------------------------- the header

  // The two fixed lines, each written as two pieces.
  const IgnoreLine: string := "# Lines starting with '#'" + " will be ignored."
  const SubmitLine: string := "# Save and quit to submit." + " Leave empty to cancel."

  function HeaderLines(isPR: bool, number: int, repoName: string): seq<string> {
    [ "# Comment on " + Kind(isPR) + " #" + IntToString(number) + " in " + repoName,
      IgnoreLine,
      SubmitLine ]
  }

  /** The text written into the temporary file: three lines, each ended by a newline. */
  function Header(isPR: bool, number: int, repoName: string): string {
    Terminated(HeaderLines(isPR, number, repoName), "\n")
  }

  // ---------------------------------------------------------------- reading the file back

  /** bufio.ScanLines' trailing carriage-return removal. */
  function DropCR(line: string): string {
    if |line| > 0 && line[|line| - 1] == '\r' then line[..|line| - 1] else line
  }

  /** The lines a bufio.Scanner yields for a file's contents: the pieces between newlines, the
      empty piece after a final newline not counted, each without a trailing '\r'. */
  function ScanLines(content: string): (lines: seq<string>)
    ensures forall i :: 0 <= i < |lines| ==> '\n' !in lines[i]
  {
    var parts := Split(content, '\n');
    var pieces := if parts[|parts| - 1] == "" then parts[..|parts| - 1] else parts;
    seq(|pieces|, i requires 0 <= i < |pieces| => DropCR(pieces[i]))
  }

  predicate IsCommentLine(line: string) { HasPrefix(line, "#") }

  /** The lines the loop keeps: those not starting with '#', in order. */
  function KeptLines(lines: seq<string>): (kept: seq<string>)
    ensures |kept| <= |lines|
    ensures forall i :: 0 <= i < |kept| ==> !IsCommentLine(kept[i]) && kept[i] in lines
  {
    if |lines| == 0 then []
    else
      var last := lines[|lines| - 1];
      KeptLines(lines[..|lines| - 1]) + if IsCommentLine(last) then [] else [last]
  }

  /** The comment body the lines give. */
  function CommentBody(lines: seq<string>): string {
    TrimSpace(Join(KeptLines(lines), "\n"))
  }

  /** The scanner loop and the join-and-trim that follows it. */
  method ExtractBody(scanned: seq<string>) returns (body: string)
    ensures body == CommentBody(scanned)
  {
    var lines: seq<string> := [];
    var i := 0;
    while i < |scanned|
      invariant 0 <= i <= |scanned|
      invariant lines == KeptLines(scanned[..i])
    {
      var line := scanned[i];
      assert scanned[..i + 1][..i] == scanned[..i];
      if !HasPrefix(line, "#") {
        lines := lines + [line];
      }
      i := i + 1;
    }
    assert scanned[..i] == scanned;
    body := TrimSpace(Join(lines, "\n"));
  }

  // ---------------------------------------------------------------- the editor callback

  /** editorCommentFinishedMsg */
  datatype FinishedMsg = FinishedMsg(body: string, number: int, repoName: string, isPR: bool,
                                     sectionId: int, sectionType: string)

  /** What the editor process's exit produces: an error message or the finished comment. */
  datatype EditorOutcome = ErrMsg(err: string) | Finished(msg: FinishedMsg)

  /** The ExecProcess callback: the editor's error, then the temporary file opened for reading
      (its contents, or the error opening it). */
  method OnEditorExit(target: CommentTarget, isPR: bool, editorErr: Option<string>, file: Result<string>)
    returns (outcome: EditorOutcome)
    ensures editorErr.Some? ==> outcome == ErrMsg("editor exited with error: " + editorErr.value)
    ensures editorErr.None? && file.Failure? ==> outcome == ErrMsg("failed to read temp file: " + file.error)
    ensures editorErr.None? && file.Success? ==>
      outcome == Finished(FinishedMsg(CommentBody(ScanLines(file.value)), target.number, target.repoName,
                                      isPR, target.sectionId, target.sectionType))
  {
    if editorErr.Some? {
      return ErrMsg("editor exited with error: " + editorErr.value);
    }
    if file.Failure? {
      return ErrMsg("failed to read temp file: " + file.error);
    }
    var body := ExtractBody(ScanLines(file.value));
    outcome := Finished(FinishedMsg(body, target.number, target.repoName, isPR, target.sectionId, target.sectionType));
  }

  /** What openEditorComment returns: no command, a command reporting the failed temporary file,
      or the editor to run on the seeded file. */
  datatype OpenCmd =
    | NoCmd
    | TempFileFailed(err: string)
    | RunEditor(editor: string, path: string, header: string, target: CommentTarget, isPR: bool)

  /** openEditorComment up to the ExecProcess call; `tempFile` is the path os.CreateTemp gives
      or its error. */
  function OpenEditorComment(d: Dashboard, isPR: bool, tempFile: Result<string>, editor: string, visual: string)
    : (c: OpenCmd)
    ensures c.NoCmd? <==> SelectTarget(d, isPR).None?
    ensures c.TempFileFailed? <==> SelectTarget(d, isPR).Some? && tempFile.Failure?
    ensures c.TempFileFailed? ==> c.err == "failed to create temp file: " + tempFile.error
    ensures c.RunEditor? ==>
      c.target == SelectTarget(d, isPR).value && c.path == tempFile.value && c.isPR == isPR &&
      c.header == Header(isPR, c.target.number, c.target.repoName) &&
      c.editor == GetEditorCmd(editor, visual)
  {
    match SelectTarget(d, isPR)
    case None => NoCmd
    case Some(target) =>
      match tempFile
      case Failure(err) => TempFileFailed("failed to create temp file: " + err)
      case Success(path) =>
        RunEditor(GetEditorCmd(editor, visual), path, Header(isPR, target.number, target.repoName), target, isPR)
  }

  // ---------------------------------------------------------------- submitting

  datatype Task = Task(id: string, startText: string, finishedText: string)

  /** The comment the section adds to its row right away (the time stamp is left out). */
  datatype NewComment = NewComment(author: string, body: string)
  datatype UpdateMsg =
    | UpdatePRMsg(prNumber: int, newComment: NewComment)
    | UpdateIssueMsg(issueNumber: int, newComment: NewComment)

  /** TaskFinishedMsg; `err` is the gh command's error. */
  datatype TaskFinished = TaskFinished(sectionId: int, sectionType: string, taskId: string,
                                       err: Option<string>, msg: UpdateMsg)

  datatype Submission = Submission(task: Task, args: seq<string>, finished: TaskFinished)

  function TaskId(isPR: bool, number: int): string {
    "editor_" + GhCmd(isPR) + "_comment_" + IntToString(number)
  }

  /** submitEditorComment: the task it starts, the gh invocation, and the message the
      invocation's outcome `runErr` produces; `user` is the signed-in user. */
  function SubmitEditorComment(msg: FinishedMsg, user: string, runErr: Option<string>): (s: Submission)
    ensures s.task.id == s.finished.taskId == TaskId(msg.isPR, msg.number)
    ensures s.task.startText == "Commenting on " + Kind(msg.isPR) + " #" + IntToString(msg.number)
    ensures s.task.finishedText == "Commented on " + Kind(msg.isPR) + " #" + IntToString(msg.number)
    ensures s.args == ["gh", GhCmd(msg.isPR), "comment", IntToString(msg.number), "-R", msg.repoName, "-b", msg.body]
    ensures s.finished.sectionId == msg.sectionId && s.finished.sectionType == msg.sectionType
    ensures s.finished.err == runErr
    ensures s.finished.msg.UpdatePRMsg? <==> msg.isPR
    ensures s.finished.msg.newComment == NewComment(user, msg.body)
    ensures (if msg.isPR then s.finished.msg.prNumber else s.finished.msg.issueNumber) == msg.number
  {
    var taskId := TaskId(msg.isPR, msg.number);
    var task := Task(taskId,
                     "Commenting on " + Kind(msg.isPR) + " #" + IntToString(msg.number),
                     "Commented on " + Kind(msg.isPR) + " #" + IntToString(msg.number));
    var args := ["gh", GhCmd(msg.isPR), "comment", IntToString(msg.number), "-R", msg.repoName, "-b", msg.body];
    var inner := if msg.isPR then UpdatePRMsg(msg.number, NewComment(user, msg.body))
                 else UpdateIssueMsg(msg.number, NewComment(user, msg.body));
    Submission(task, args, TaskFinished(msg.sectionId, msg.sectionType, taskId, runErr, inner))
  }

  // ---------------------------------------------------------------- properties

  /** "issue" is the kind exactly when the comment is not on a PR, for the header and the
      task texts alike; the gh sub-command follows the same choice. */
  lemma KindChoice(isPR: bool)
    ensures Kind(isPR) == "issue" <==> !isPR
    ensures GhCmd(isPR) == "pr" <==> isPR
  {
  }

  /** The task id determines whether it is a PR and the number. */
  lemma TaskIdInjective(p1: bool, n1: int, p2: bool, n2: int)
    ensures TaskId(p1, n1) == TaskId(p2, n2) ==> p1 == p2 && n1 == n2
  {
    if TaskId(p1, n1) == TaskId(p2, n2) {
      var s := TaskId(p1, n1);
      assert s[7] == (if p1 then 'p' else 'i') == (if p2 then 'p' else 'i');
      var k := |"editor_" + GhCmd(p1) + "_comment_"|;
      assert IntToString(n1) == s[k..] == IntToString(n2);
      IntToStringInjective(n1, n2);
    }
  }

  /** Reading back the unedited header: three lines, all of them '#' lines. */
  lemma HeaderScansBack(isPR: bool, number: int, repoName: string)
    requires '\n' !in repoName
    ensures |ScanLines(Header(isPR, number, repoName))| == 3
    ensures forall i :: 0 <= i < 3 ==> IsCommentLine(ScanLines(Header(isPR, number, repoName))[i])
  {
    var lines := HeaderLines(isPR, number, repoName);
    HeaderLinesShape(isPR, number, repoName);
    TerminatedScansBack(lines);
    forall i | 0 <= i < 3
      ensures IsCommentLine(ScanLines(Header(isPR, number, repoName))[i])
    {
      DropCRKeepsComment(lines[i]);
    }
  }

  /** Lines without newlines, each ended by one, scan back to themselves up to carriage returns. */
  lemma TerminatedScansBack(lines: seq<string>)
    requires forall i :: 0 <= i < |lines| ==> '\n' !in lines[i]
    ensures |ScanLines(Terminated(lines, "\n"))| == |lines|
    ensures forall i :: 0 <= i < |lines| ==> ScanLines(Terminated(lines, "\n"))[i] == DropCR(lines[i])
  {
    var padded := lines + [""];
    assert forall i :: 0 <= i < |padded| ==> '\n' !in padded[i] by {
      assert forall i :: 0 <= i < |lines| ==> padded[i] == lines[i];
    }
    JoinWithTrailingEmpty(lines, "\n");
    SplitJoin(padded, '\n');
    assert padded[..|lines|] == lines;
  }

  /** A '#' line longer than one character stays a '#' line without its carriage return. */
  lemma DropCRKeepsComment(line: string)
    requires |line| > 1 && line[0] == '#'
    ensures IsCommentLine(DropCR(line))
  {
    assert DropCR(line)[..1] == line[..1];
  }

  /** The three header lines: no newlines, each starting with '#' and longer than it. */
  lemma HeaderLinesShape(isPR: bool, number: int, repoName: string)
    requires '\n' !in repoName
    ensures forall i :: 0 <= i < 3 ==> var line := HeaderLines(isPR, number, repoName)[i];
      '\n' !in line && |line| > 1 && line[0] == '#'
  {
    FirstHeaderLine(isPR, number, repoName);
    IgnoreLineText();
    SubmitLineText();
  }

  lemma FirstHeaderLine(isPR: bool, number: int, repoName: string)
    requires '\n' !in repoName
    ensures var line := "# Comment on " + Kind(isPR) + " #" + IntToString(number) + " in " + repoName;
      '\n' !in line && |line| > 1 && line[0] == '#'
  {
    NoNewlineInNumber(number);
    assert '\n' !in "# Comment on " && '\n' !in Kind(isPR) && '\n' !in " #" && '\n' !in " in ";
  }

  lemma IgnoreLineText()
    ensures '\n' !in IgnoreLine && |IgnoreLine| > 1 && IgnoreLine[0] == '#'
  {
    assert '\n' !in "# Lines starting with '#'";
    assert '\n' !in " will be ignored.";
  }

  lemma SubmitLineText()
    ensures '\n' !in SubmitLine && |SubmitLine| > 1 && SubmitLine[0] == '#'
  {
    assert '\n' !in "# Save and quit to submit.";
    assert '\n' !in " Leave empty to cancel.";
  }

  lemma NoNewlineInNumber(n: int)
    ensures '\n' !in IntToString(n)
  {
    NoNewlineInNat(if n < 0 then -n else n);
  }

  lemma {:induction false} NoNewlineInNat(n: nat)
    ensures '\n' !in NatToString(n)
  {
    if n >= 10 {
      NoNewlineInNat(n / 10);
    }
  }

  /** Leaving the file as it was seeded cancels the comment: the body is empty. */
  lemma UneditedHeaderGivesEmptyBody(isPR: bool, number: int, repoName: string)
    requires '\n' !in repoName
    ensures CommentBody(ScanLines(Header(isPR, number, repoName))) == ""
  {
    HeaderScansBack(isPR, number, repoName);
    OnlyCommentsOrSpaceGiveEmptyBody(ScanLines(Header(isPR, number, repoName)));
  }

  /** A file of nothing but '#' lines and white-space lines gives the empty body, and only such
      a file does. */
  lemma OnlyCommentsOrSpaceGiveEmptyBody(lines: seq<string>)
    ensures CommentBody(lines) == "" <==>
      forall i :: 0 <= i < |lines| ==> IsCommentLine(lines[i]) || AllSpace(lines[i])
  {
    KeptAllSpace(lines);
    TrimSpaceEmpty(Join(KeptLines(lines), "\n"));
  }

  /** The joined kept lines are white space exactly when every line is a '#' line or white space. */
  lemma {:induction false} KeptAllSpace(lines: seq<string>)
    ensures AllSpace(Join(KeptLines(lines), "\n")) <==>
      forall i :: 0 <= i < |lines| ==> IsCommentLine(lines[i]) || AllSpace(lines[i])
    decreases |lines|
  {
    if |lines| > 0 {
      var init := lines[..|lines| - 1];
      var last := lines[|lines| - 1];
      KeptAllSpace(init);
      var k := KeptLines(init);
      assert (forall i :: 0 <= i < |lines| ==> IsCommentLine(lines[i]) || AllSpace(lines[i])) <==>
        (forall i :: 0 <= i < |init| ==> IsCommentLine(init[i]) || AllSpace(init[i])) &&
        (IsCommentLine(last) || AllSpace(last)) by {
        assert forall i :: 0 <= i < |init| ==> init[i] == lines[i];
      }
      if IsCommentLine(last) {
        assert KeptLines(lines) == k;
      } else {
        assert KeptLines(lines) == k + [last];
        if |k| > 0 {
          JoinAppend(k, [last], "\n");
          AllSpaceConcat(Join(k, "\n") + "\n", last);
          AllSpaceConcat(Join(k, "\n"), "\n");
          assert AllSpace("\n");
        } else {
          assert k + [last] == [last];
        }
      }
    }
  }

  lemma AllSpaceConcat(a: string, b: string)
    ensures AllSpace(a + b) <==> AllSpace(a) && AllSpace(b)
  {
    assert forall i :: 0 <= i < |a| ==> (a + b)[i] == a[i];
    assert forall i :: 0 <= i < |b| ==> (a + b)[|a| + i] == b[i];
    if AllSpace(a) && AllSpace(b) {
      forall i | 0 <= i < |a + b|
        ensures IsSpace((a + b)[i])
      {
        if i >= |a| {
          assert (a + b)[i] == b[i - |a|];
        }
      }
    }
  }

  /** A '#' line between two text lines drops out of the body. */
  lemma DropsCommentLines(content: string)
    requires content == "hello\n# ignored\nworld"
    ensures CommentBody(ScanLines(content)) == "hello\nworld"
  {
    var parts := ["hello", "# ignored", "world"];
    ScanExample(content, parts);
    KeptExample(parts);
    TrimExample(Join(["hello", "world"], "\n"));
  }

  lemma ScanExample(content: string, parts: seq<string>)
    requires content == "hello\n# ignored\nworld" && parts == ["hello", "# ignored", "world"]
    ensures ScanLines(content) == parts
  {
    SplitExample(content, parts);
    assert parts[2] != "";
    assert DropCR(parts[0]) == parts[0] && DropCR(parts[1]) == parts[1] && DropCR(parts[2]) == parts[2];
    ScanUnterminated(content);
  }

  lemma SplitExample(content: string, parts: seq<string>)
    requires content == "hello\n# ignored\nworld" && parts == ["hello", "# ignored", "world"]
    ensures Split(content, '\n') == parts
  {
    assert content == "hello" + "\n" + "# ignored" + "\n" + "world";
    assert '\n' !in "hello" && '\n' !in "# ignored" && '\n' !in "world";
    SplitThree("hello", "# ignored", "world");
  }

  /** Three newline-free pieces joined by newlines split back into those pieces. */
  lemma SplitThree(a: string, b: string, c: string)
    requires '\n' !in a && '\n' !in b && '\n' !in c
    ensures Split(a + "\n" + b + "\n" + c, '\n') == [a, b, c]
  {
    SplitNoSep(c, '\n');
    SplitCons(b, c, '\n');
    assert a + "\n" + b + "\n" + c == a + ['\n'] + (b + ['\n'] + c);
    SplitCons(a, b + ['\n'] + c, '\n');
  }

  /** Contents without a final newline and without carriage returns scan to their pieces. */
  lemma ScanUnterminated(content: string)
    requires Split(content, '\n')[|Split(content, '\n')| - 1] != ""
    requires forall i :: 0 <= i < |Split(content, '\n')| ==> DropCR(Split(content, '\n')[i]) == Split(content, '\n')[i]
    ensures ScanLines(content) == Split(content, '\n')
  {
  }

  lemma KeptExample(parts: seq<string>)
    requires parts == ["hello", "# ignored", "world"]
    ensures KeptLines(parts) == ["hello", "world"]
  {
    assert parts[..2] == ["hello", "# ignored"];
    assert parts[..2][..1] == ["hello"];
    assert parts[..2][..1][..0] == [];
    assert "hello"[..1] == "h" && "# ignored"[..1] == "#" && "world"[..1] == "w";
    assert !IsCommentLine(parts[0]) && IsCommentLine(parts[1]) && !IsCommentLine(parts[2]);
    assert KeptLines(parts[..2][..1]) == ["hello"];
    assert KeptLines(parts[..2]) == ["hello"];
  }

  lemma TrimExample(joined: string)
    requires joined == Join(["hello", "world"], "\n")
    ensures joined == "hello\nworld" && TrimSpace(joined) == joined
  {
    assert ["hello", "world"][1..] == ["world"];
    assert !IsSpace(joined[0]) && !IsSpace(joined[|joined| - 1]);
    assert TrimLeftSpace(joined) == joined;
    assert TrimRightSpace(joined) == joined;
  }

  /** The body never begins or ends with white space. */
  lemma BodyTrimmed(lines: seq<string>)
    ensures |CommentBody(lines)| > 0 ==>
      !IsSpace(CommentBody(lines)[0]) && !IsSpace(CommentBody(lines)[|CommentBody(lines)| - 1])
  {
    TrimSpaceEnds(Join(KeptLines(lines), "\n"));
  }

  /** Filtering distributes over concatenation, so together with KeptLinesOne the kept lines are
      exactly the non-'#' lines, in order and with their repeats. */
  lemma {:induction false} KeptLinesAppend(a: seq<string>, b: seq<string>)
    ensures KeptLines(a + b) == KeptLines(a) + KeptLines(b)
    decreases |b|
  {
    if |b| == 0 {
      assert a + b == a;
    } else {
      var init := b[..|b| - 1];
      var last := b[|b| - 1];
      var tail := if IsCommentLine(last) then [] else [last];
      assert b == init + [last];
      assert a + b == (a + init) + [last];
      calc {
        KeptLines(a + b);
        == { KeptLinesSnoc(a + init, last); }
        KeptLines(a + init) + tail;
        == { KeptLinesAppend(a, init); }
        (KeptLines(a) + KeptLines(init)) + tail;
        == KeptLines(a) + (KeptLines(init) + tail);
        == { KeptLinesSnoc(init, last); }
        KeptLines(a) + KeptLines(b);
      }
    }
  }

  /** One more line at the end is kept after the others, or dropped. */
  lemma KeptLinesSnoc(init: seq<string>, last: string)
    ensures KeptLines(init + [last]) == KeptLines(init) + if IsCommentLine(last) then [] else [last]
  {
    assert (init + [last])[..|init|] == init;
  }

  /** Every line that does not start with '#' is kept. */
  lemma {:induction false} KeptLinesComplete(lines: seq<string>)
    ensures forall i :: 0 <= i < |lines| && !IsCommentLine(lines[i]) ==> lines[i] in KeptLines(lines)
    decreases |lines|
  {
    if |lines| > 0 {
      var init := lines[..|lines| - 1];
      KeptLinesComplete(init);
      assert lines == init + [lines[|lines| - 1]];
      KeptLinesSnoc(init, lines[|lines| - 1]);
    }
  }

  /** One line is kept exactly when it does not start with '#'. */
  lemma KeptLinesOne(line: string)
    ensures KeptLines([line]) == if IsCommentLine(line) then [] else [line]
  {
    assert [line][..0] == [];
  }

  /** A body typed into the editor comes back as written when its lines do not start with '#'
      and it has no surrounding white space. */
  lemma {:induction false} KeptLinesAll(lines: seq<string>)
    requires forall i :: 0 <= i < |lines| ==> !IsCommentLine(lines[i])
    ensures KeptLines(lines) == lines
    decreases |lines|
  {
    if |lines| > 0 {
      KeptLinesAll(lines[..|lines| - 1]);
    }
  }
}
