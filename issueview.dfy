/**
 * The issue detail view as an object. Its fields are those of the source's Model; each
 * pointer-receiver operation updates them in place and is proved to agree with the function of
 * the same name in module IssueViewState, whose properties module IssueViewProps proves.
 */
module IssueView {
  import opened Wrappers
  import opened GoStrings
  import opened Sorting
  import opened IssueAction
  import opened IssueViewState

  /** GetSelectedComment's pairing of a comment with its position. */
  datatype IndexedComment = IndexedComment(index: int, comment: IssueComment)

  function IndexedTime(p: IndexedComment): int { p.comment.updatedAt }
  function IndexedBody(p: IndexedComment): IssueComment { p.comment }

  /** The comment at sorted position `n`, found by sorting (position, comment) pairs by time. */
  method NthByTime(comments: seq<IssueComment>, n: int) returns (c: IssueComment)
    requires 0 <= n < |comments|
    ensures c == SortBy(comments, CommentTime)[n]
  {
    var indexed := IndexAll(comments);
    var sorted := SortBy(indexed, IndexedTime);
    SortByMap(indexed, IndexedBody, IndexedTime, CommentTime);
    assert MapSeq(sorted, IndexedBody)[n] == sorted[n].comment;
    c := sorted[n].comment;
  }

  /** Each comment paired with its position. */
  method IndexAll(comments: seq<IssueComment>) returns (indexed: seq<IndexedComment>)
    ensures |indexed| == |comments|
    ensures forall j :: 0 <= j < |comments| ==> indexed[j] == IndexedComment(j, comments[j])
    ensures MapSeq(indexed, IndexedBody) == comments
  {
    indexed := [];
    var i := 0;
    while i < |comments|
      invariant 0 <= i <= |comments|
      invariant |indexed| == i
      invariant forall j :: 0 <= j < i ==> indexed[j] == IndexedComment(j, comments[j])
    {
      indexed := indexed + [IndexedComment(i, comments[i])];
      i := i + 1;
    }
  }

  class Model {
    var issue: Option<IssueData>
    var showConfirmCancel: bool
    var isCommenting: bool
    var isLabeling: bool
    var isAssigning: bool
    var isUnassigning: bool
    var isCommentNavMode: bool
    var selectedCommentIndex: int
    var inputBox: InputBox
    var ac: Autocomplete
    var repoLabels: seq<Label>
    /** The program context's login. */
    var user: string
    /** The data package's label cache, keyed by repository name. */
    var labelCache: map<string, seq<Label>>

    /** The fields as one value. */
    function State(): ViewState
      reads this
    {
      ViewState(issue, showConfirmCancel, isCommenting, isLabeling, isAssigning, isUnassigning,
                isCommentNavMode, selectedCommentIndex, inputBox, ac, repoLabels, user, labelCache)
    }

    /** NewModel */
    constructor (user: string, labelCache: map<string, seq<Label>>)
      ensures State() == NewModel(user, labelCache)
    {
      issue := None;
      showConfirmCancel := false;
      isCommenting := false;
      isLabeling := false;
      isAssigning := false;
      isUnassigning := false;
      isCommentNavMode := false;
      selectedCommentIndex := -1;
      inputBox := InputBox("", 0, NoPrompt, false);
      ac := InitialAutocomplete;
      repoLabels := [];
      this.user := user;
      this.labelCache := labelCache;
    }

    /** Update: the value-receiver function applied to this object's fields, as the caller does
        when it stores the returned copy back. */
    method Update(msg: Msg, km: KeyMap, w: Widgets) returns (cmds: seq<Cmd>, action: Option<IssueAction>)
      modifies this
      ensures UpdateResult(State(), cmds, action) == IssueViewState.Update(old(State()), msg, km, w)
    {
      var r := IssueViewState.Update(State(), msg, km, w);
      Store(r.state);
      cmds, action := r.cmds, r.action;
    }

    /** Stores a copy's fields back into this object. */
    method Store(t: ViewState)
      modifies this
      ensures State() == t
    {
      issue, showConfirmCancel, isCommenting, isLabeling := t.issue, t.showConfirmCancel, t.isCommenting, t.isLabeling;
      isAssigning, isUnassigning, isCommentNavMode := t.isAssigning, t.isUnassigning, t.isCommentNavMode;
      selectedCommentIndex, inputBox, ac := t.selectedCommentIndex, t.inputBox, t.ac;
      repoLabels, user, labelCache := t.repoLabels, t.user, t.labelCache;
    }

    method SetRow(d: Option<IssueData>)
      modifies this
      ensures State() == IssueViewState.SetRow(old(State()), d)
    {
      var isNewIssue := true;
      if d.Some? && issue.Some? && issue.value.url == d.value.url {
        isNewIssue := false;
      }
      issue := d;
      if isNewIssue {
        selectedCommentIndex := -1;
        isCommentNavMode := false;
      }
    }

    predicate IsTextInputBoxFocused()
      reads this
      ensures IsTextInputBoxFocused() <==> ModeOf(State()) in {Commenting, Labeling, Assigning, Unassigning}
    {
      isCommenting || isAssigning || isUnassigning || isLabeling
    }

    function GetNumComments(): (n: nat)
      reads this
      ensures n == IssueViewState.GetNumComments(State())
      ensures n > 0 ==> issue.Some?
    {
      if issue.None? then 0 else |issue.value.comments|
    }

    method EnterCommentNavMode()
      modifies this
      ensures State() == IssueViewState.EnterCommentNavMode(old(State()))
    {
      if issue.None? || GetNumComments() == 0 {
        return;
      }
      isCommentNavMode := true;
      if selectedCommentIndex < 0 {
        selectedCommentIndex := 0;
      }
    }

    method ExitCommentNavMode()
      modifies this
      ensures State() == IssueViewState.ExitCommentNavMode(old(State()))
    {
      isCommentNavMode := false;
      selectedCommentIndex := -1;
    }

    method SelectNextComment()
      modifies this
      ensures State() == IssueViewState.SelectNextComment(old(State()))
    {
      var numComments := GetNumComments();
      if numComments == 0 {
        return;
      }
      if selectedCommentIndex < numComments - 1 {
        selectedCommentIndex := selectedCommentIndex + 1;
      }
    }

    method SelectPrevComment()
      modifies this
      ensures State() == IssueViewState.SelectPrevComment(old(State()))
    {
      if selectedCommentIndex > 0 {
        selectedCommentIndex := selectedCommentIndex - 1;
      } else if selectedCommentIndex == -1 && GetNumComments() > 0 {
        selectedCommentIndex := 0;
      }
    }

    method ResetCommentSelection()
      modifies this
      ensures State() == old(State()).(selectedCommentIndex := -1)
    {
      selectedCommentIndex := -1;
    }

    /** The selected comment in update-time order, found by sorting (position, comment) pairs. */
    method GetSelectedComment() returns (c: Option<IssueComment>)
      ensures c == SelectedComment(State())
    {
      if issue.None? || selectedCommentIndex < 0 {
        return None;
      }
      var comments := issue.value.comments;
      if selectedCommentIndex >= |comments| {
        return None;
      }
      var nth := NthByTime(comments, selectedCommentIndex);
      c := Some(nth);
    }

    /** shouldCancelComment */
    method ShouldCancelComment() returns (cancelled: bool)
      modifies this
      ensures CancelResult(cancelled, State()) == IssueViewState.ShouldCancelComment(old(State()))
    {
      if !showConfirmCancel {
        inputBox := SetPrompt(inputBox, DiscardConfirmPrompt);
        showConfirmCancel := true;
        return false;
      }
      inputBox := Blur(inputBox);
      isCommenting := false;
      showConfirmCancel := false;
      return true;
    }

    method SetIsCommenting(isCommenting: bool, w: Widgets) returns (cmds: seq<Cmd>)
      modifies this
      ensures Transition(State(), cmds) == IssueViewState.SetIsCommenting(old(State()), isCommenting, w)
    {
      if issue.None? {
        return [];
      }
      if !this.isCommenting && isCommenting {
        inputBox := ResetBox(inputBox);
        ac := w.acReset(ac);
      }
      this.isCommenting := isCommenting;
      inputBox := SetPrompt(inputBox, CommentPrompt);
      if isCommenting {
        inputBox := Focus(inputBox);
        return [FocusInput];
      }
      return [];
    }

    /** userAssignedToIssue; the source dereferences the issue, so one must be shown. */
    method UserAssignedToIssue(login: string) returns (isAssignee: bool)
      requires issue.Some?
      ensures isAssignee <==> IsAssignee(issue.value, login)
    {
      var assignees := issue.value.assignees;
      var i := 0;
      while i < |assignees|
        invariant 0 <= i <= |assignees|
        invariant forall j :: 0 <= j < i ==> assignees[j].login != login
      {
        if login == assignees[i].login {
          return true;
        }
        i := i + 1;
      }
      return false;
    }

    method SetIsAssigning(isAssigning: bool, w: Widgets) returns (cmds: seq<Cmd>)
      modifies this
      ensures Transition(State(), cmds) == IssueViewState.SetIsAssigning(old(State()), isAssigning, w)
    {
      if issue.None? {
        return [];
      }
      if !this.isAssigning && isAssigning {
        inputBox := ResetBox(inputBox);
        ac := w.acReset(ac);
      }
      this.isAssigning := isAssigning;
      inputBox := SetPrompt(inputBox, AssignPrompt);
      var isAssignee := UserAssignedToIssue(user);
      if !isAssignee {
        inputBox := SetValue(inputBox, user);
      }
      if isAssigning {
        inputBox := Focus(inputBox);
        return [FocusInput];
      }
      return [];
    }

    /** issueAssignees */
    method IssueAssignees() returns (logins: seq<string>)
      requires issue.Some?
      ensures logins == Logins(issue.value.assignees)
    {
      var assignees := issue.value.assignees;
      logins := [];
      var i := 0;
      while i < |assignees|
        invariant 0 <= i <= |assignees|
        invariant logins == Logins(assignees[..i])
      {
        assert assignees[..i + 1] == assignees[..i] + [assignees[i]];
        logins := logins + [assignees[i].login];
        i := i + 1;
      }
      assert assignees[..i] == assignees;
    }

    method SetIsUnassigning(isUnassigning: bool, w: Widgets) returns (cmds: seq<Cmd>)
      modifies this
      ensures Transition(State(), cmds) == IssueViewState.SetIsUnassigning(old(State()), isUnassigning, w)
    {
      if issue.None? {
        return [];
      }
      if !this.isUnassigning && isUnassigning {
        inputBox := ResetBox(inputBox);
        ac := w.acReset(ac);
      }
      this.isUnassigning := isUnassigning;
      inputBox := SetPrompt(inputBox, UnassignPrompt);
      var logins := IssueAssignees();
      inputBox := SetValue(inputBox, Join(logins, "\n"));
      if isUnassigning {
        inputBox := Focus(inputBox);
        return [FocusInput];
      }
      return [];
    }

    /** fetchLabels: the panel shows its loading indicator while the labels are fetched. */
    method FetchLabels() returns (cmds: seq<Cmd>)
      modifies this
      ensures State() == StartFetch(old(State())) && cmds == [Cmd.FetchLabels]
    {
      ac := ac.(status := FetchLoading);
      return [Cmd.FetchLabels];
    }

    /** The loop of SetIsLabeling that collects the issue's label names. */
    static method CollectLabelNames(issueLabels: seq<Label>) returns (labels: seq<string>)
      ensures labels == LabelNames(issueLabels)
    {
      labels := [];
      var i := 0;
      while i < |issueLabels|
        invariant 0 <= i <= |issueLabels|
        invariant labels == LabelNames(issueLabels[..i])
      {
        assert issueLabels[..i + 1] == issueLabels[..i] + [issueLabels[i]];
        labels := labels + [issueLabels[i].name];
        i := i + 1;
      }
      assert issueLabels[..i] == issueLabels;
    }

    method SetIsLabeling(isLabeling: bool, w: Widgets) returns (cmds: seq<Cmd>)
      modifies this
      ensures Transition(State(), cmds) == IssueViewState.SetIsLabeling(old(State()), isLabeling, w)
    {
      if issue.None? {
        return [];
      }
      PrepareLabeling(isLabeling);
      if isLabeling {
        cmds := ShowLabelSuggestions(w);
      } else {
        cmds := [];
      }
    }

    /** The cache lookup that ends SetIsLabeling(true). */
    method ShowLabelSuggestions(w: Widgets) returns (cmds: seq<Cmd>)
      requires issue.Some?
      modifies this
      ensures Transition(State(), cmds) == IssueViewState.ShowLabelSuggestions(old(State()), w)
    {
      var repoName := issue.value.repoNameWithOwner;
      if repoName in labelCache {
        repoLabels := labelCache[repoName];
        ac := ac.(suggestions := LabelNames(repoLabels));
        ac := Show(ac, w.labelAtCursor(inputBox.cursor, inputBox.value), w.allLabels(inputBox.value));
        inputBox := Focus(inputBox);
        return [FocusInput];
      } else {
        var fetch := FetchLabels();
        inputBox := Focus(inputBox);
        return fetch + [FocusInput];
      }
    }

    /** SetIsLabeling up to the label fetch: flag, prompt, prefill, panel closed and emptied. */
    method PrepareLabeling(isLabeling: bool)
      requires issue.Some?
      modifies this
      ensures State() == IssueViewState.PrepareLabeling(old(State()), isLabeling)
    {
      if !this.isLabeling && isLabeling {
        inputBox := ResetBox(inputBox);
      }
      this.isLabeling := isLabeling;
      inputBox := SetPrompt(inputBox, LabelPrompt);

      var labels := CollectLabelNames(issue.value.labels);
      labels := labels + [""];
      inputBox := SetValue(inputBox, Join(labels, ", "));

      ac := Hide(ac).(suggestions := []);
    }

    method SetIsQuoteReplying(comment: Option<IssueComment>) returns (cmds: seq<Cmd>)
      modifies this
      ensures Transition(State(), cmds) == IssueViewState.SetIsQuoteReplying(old(State()), comment)
    {
      if issue.None? || comment.None? {
        return [];
      }
      inputBox := ResetBox(inputBox);
      isCommenting := true;

      var quotedLines := ["> @" + comment.value.author + " wrote:", ">"];
      var bodyLines := Split(comment.value.body, '\n');
      var i := 0;
      while i < |bodyLines|
        invariant 0 <= i <= |bodyLines|
        invariant quotedLines == ["> @" + comment.value.author + " wrote:", ">"] + MapSeq(bodyLines[..i], QuoteLine)
      {
        assert bodyLines[..i + 1] == bodyLines[..i] + [bodyLines[i]];
        quotedLines := quotedLines + ["> " + bodyLines[i]];
        i := i + 1;
      }
      assert bodyLines[..i] == bodyLines;
      quotedLines := quotedLines + [""];
      quotedLines := quotedLines + [""];
      assert quotedLines == QuoteLines(comment.value.author, comment.value.body);

      inputBox := SetValue(inputBox, Join(quotedLines, "\n"));
      inputBox := SetPrompt(inputBox, ReplyPrompt);
      inputBox := Focus(inputBox);
      return [FocusInput];
    }
  }
}
