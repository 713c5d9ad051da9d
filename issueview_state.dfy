/**
 * The issue detail view as a value: the fields of the view's Model struct, and every operation
 * on it as a function from the old value to the new one. Update has a value receiver in the
 * source (it changes a copy and returns it), so `Update` here is its exact counterpart; the
 * pointer-receiver operations are their in-place counterparts in module IssueView.
 */
module IssueViewState {
  import opened Wrappers
  import opened GoStrings
  import opened Sorting
  import opened IssueAction

  // ---------------------------------------------------------------- the issue snapshot

  datatype Label = Label(name: string, color: string)
  datatype Assignee = Assignee(login: string)
  /** A comment; its update time is a timestamp compared with `<` (time.Time.Before). */
  datatype IssueComment = IssueComment(author: string, body: string, updatedAt: int)
  datatype IssueData = IssueData(
    url: string,
    number: int,
    repoNameWithOwner: string,
    labels: seq<Label>,
    assignees: seq<Assignee>,
    comments: seq<IssueComment>)

  /** The sort key of a comment. */
  function CommentTime(c: IssueComment): int { c.updatedAt }

  /** data.GetLabelNames */
  function LabelNames(labels: seq<Label>): seq<string> {
    MapSeq(labels, (l: Label) => l.name)
  }

  /** The assignees' logins, in order. */
  function Logins(assignees: seq<Assignee>): seq<string> {
    MapSeq(assignees, (a: Assignee) => a.login)
  }

  // ---------------------------------------------------------------- keys and messages

  /** The key types the view tests with `msg.Type`; everything else is KeyRunes or KeyOther. */
  datatype KeyType = KeyEsc | KeyCtrlC | KeyCtrlD | KeyTab | KeyRunes | KeyOther
  /** A key press: its type and its textual form `msg.String()`, which bindings are matched on. */
  datatype KeyMsg = KeyMsg(typ: KeyType, str: string)

  /** key.Matches: the key's textual form is one of the binding's keys. */
  predicate Matches(k: KeyMsg, binding: seq<string>) {
    k.str in binding
  }

  /** The configurable bindings the view consults (keys.IssueKeys and the suggestion refresh key). */
  datatype KeyMap = KeyMap(
    labelKey: seq<string>,
    assignKey: seq<string>,
    unassignKey: seq<string>,
    commentKey: seq<string>,
    closeKey: seq<string>,
    reopenKey: seq<string>,
    enterCommentNavModeKey: seq<string>,
    editorCommentKey: seq<string>,
    nextCommentKey: seq<string>,
    prevCommentKey: seq<string>,
    quoteReplyKey: seq<string>,
    refreshSuggestionsKey: seq<string>)

  /** The messages Update distinguishes. */
  datatype Msg =
    | RepoLabelsFetchedMsg(labels: seq<Label>)
    | RepoLabelsFetchFailedMsg(err: string)
    | FetchSuggestionsRequestedMsg(force: bool)
    | Key(key: KeyMsg)
    | SpinnerTickMsg
    | ClearFetchStatusMsg
    | OtherMsg

  /** The commands the view issues, as tags; their execution is outside the model. */
  datatype Cmd =
    | PostComment(body: string)
    | AddLabels(labels: seq<string>)
    | AssignUsers(logins: seq<string>)
    | UnassignUsers(logins: seq<string>)
    | FetchLabels          // fetchLabels(): spinner tick plus the asynchronous label fetch
    | FocusInput           // textarea.Blink followed by inputBox.Focus()
    | ClearFetchStatusLater
    | WidgetCmd            // whatever the text input or the autocomplete returns

  // ---------------------------------------------------------------- embedded widgets

  /**
   * The input box prompt. DiscardConfirmPrompt is the text "Discard comment? (y/N)" and
   * ReplyPrompt the text "Reply to comment..."; the others are constants of another package.
   */
  datatype Prompt = NoPrompt | CommentPrompt | LabelPrompt | AssignPrompt | UnassignPrompt
                  | DiscardConfirmPrompt | ReplyPrompt

  /** The observable state of the text input. */
  datatype InputBox = InputBox(value: string, cursor: nat, prompt: Prompt, focused: bool)

  function ResetBox(b: InputBox): InputBox { b.(value := "", cursor := 0) }
  /** SetValue leaves the cursor after the last character. */
  function SetValue(b: InputBox, v: string): InputBox { b.(value := v, cursor := |v|) }
  function SetPrompt(b: InputBox, p: Prompt): InputBox { b.(prompt := p) }
  function Focus(b: InputBox): InputBox { b.(focused := true) }
  function Blur(b: InputBox): InputBox { b.(focused := false) }

  datatype FetchStatus = FetchIdle | FetchLoading | FetchSucceeded | FetchFailed(err: string)

  /** The observable state of the label autocomplete panel. */
  datatype Autocomplete = Autocomplete(
    suggestions: seq<string>,
    visible: bool,
    filter: string,
    exclude: seq<string>,
    status: FetchStatus)

  /** The panel as a new autocomplete model starts: hidden, empty, idle. */
  const InitialAutocomplete: Autocomplete := Autocomplete([], false, "", [], FetchIdle)

  /** ac.Show(current, existing): the panel opens for the label under the cursor. */
  function Show(ac: Autocomplete, current: string, existing: seq<string>): Autocomplete {
    ac.(visible := true, filter := current, exclude := existing)
  }

  function Hide(ac: Autocomplete): Autocomplete { ac.(visible := false) }

  /**
   * Behaviour of collaborators whose code is not part of this model: the text input's reaction
   * to a forwarded key, the autocomplete's reaction to its own messages and to Reset, and the label parsers
   * labelAtCursor and allLabels.
   */
  datatype Widgets = Widgets(
    keyInput: (InputBox, KeyMsg) -> InputBox,
    acUpdate: (Autocomplete, Msg) -> Autocomplete,
    acReset: Autocomplete -> Autocomplete,
    labelAtCursor: (nat, string) -> string,
    allLabels: string -> seq<string>)

  // ---------------------------------------------------------------- the view

  /**
   * The fields of the view. `user` is the program context's login and `labelCache` the
   * process-wide label cache of the data package, keyed by repository name.
   */
  datatype ViewState = ViewState(
    issue: Option<IssueData>,
    showConfirmCancel: bool,
    isCommenting: bool,
    isLabeling: bool,
    isAssigning: bool,
    isUnassigning: bool,
    isCommentNavMode: bool,
    selectedCommentIndex: int,
    inputBox: InputBox,
    ac: Autocomplete,
    repoLabels: seq<Label>,
    user: string,
    labelCache: map<string, seq<Label>>)

  /** The result of Update: the new value, the commands issued and at most one action. */
  datatype UpdateResult = UpdateResult(state: ViewState, cmds: seq<Cmd>, action: Option<IssueAction>)
  /** The result of an operation that returns a tea.Cmd. */
  datatype Transition = Transition(state: ViewState, cmds: seq<Cmd>)
  /** The result of shouldCancelComment. */
  datatype CancelResult = CancelResult(cancelled: bool, state: ViewState)

  /** NewModel */
  function NewModel(user: string, labelCache: map<string, seq<Label>>): ViewState {
    ViewState(None, false, false, false, false, false, false, -1,
              InputBox("", 0, NoPrompt, false), InitialAutocomplete, [], user, labelCache)
  }

  /** The interaction modes, in the order in which Update tests their flags. */
  datatype Mode = Commenting | Labeling | Assigning | Unassigning | CommentNavigation | Browsing

  /** The mode that routes a key: the first flag set, in Update's dispatch order. */
  function ModeOf(s: ViewState): Mode {
    if s.isCommenting then Commenting
    else if s.isLabeling then Labeling
    else if s.isAssigning then Assigning
    else if s.isUnassigning then Unassigning
    else if s.isCommentNavMode then CommentNavigation
    else Browsing
  }

  /** IsTextInputBoxFocused */
  predicate IsTextInputBoxFocused(s: ViewState) {
    s.isCommenting || s.isAssigning || s.isUnassigning || s.isLabeling
  }

  /** GetNumComments */
  function GetNumComments(s: ViewState): nat {
    if s.issue.None? then 0 else |s.issue.value.comments|
  }

  // ---------------------------------------------------------------- comment navigation

  function EnterCommentNavMode(s: ViewState): ViewState {
    if s.issue.None? || GetNumComments(s) == 0 then s
    else s.(isCommentNavMode := true,
            selectedCommentIndex := if s.selectedCommentIndex < 0 then 0 else s.selectedCommentIndex)
  }

  function ExitCommentNavMode(s: ViewState): ViewState {
    s.(isCommentNavMode := false, selectedCommentIndex := -1)
  }

  function SelectNextComment(s: ViewState): ViewState {
    var n := GetNumComments(s);
    if n == 0 then s
    else if s.selectedCommentIndex < n - 1 then s.(selectedCommentIndex := s.selectedCommentIndex + 1)
    else s
  }

  function SelectPrevComment(s: ViewState): ViewState {
    if s.selectedCommentIndex > 0 then s.(selectedCommentIndex := s.selectedCommentIndex - 1)
    else if s.selectedCommentIndex == -1 && GetNumComments(s) > 0 then s.(selectedCommentIndex := 0)
    else s
  }

  /** GetSelectedComment: the selected position in the comments sorted by update time. */
  function SelectedComment(s: ViewState): Option<IssueComment> {
    if s.issue.None? || s.selectedCommentIndex < 0 then None
    else if s.selectedCommentIndex >= |s.issue.value.comments| then None
    else Some(SortBy(s.issue.value.comments, CommentTime)[s.selectedCommentIndex])
  }

  /** SetRow: navigation state survives only a refresh of the same issue (same Url). */
  function SetRow(s: ViewState, d: Option<IssueData>): ViewState {
    var isNewIssue := !(d.Some? && s.issue.Some? && s.issue.value.url == d.value.url);
    var s1 := s.(issue := d);
    if isNewIssue then s1.(selectedCommentIndex := -1, isCommentNavMode := false) else s1
  }

  // ---------------------------------------------------------------- entering the text modes

  /** shouldCancelComment: the first call asks for confirmation, the second discards. */
  function ShouldCancelComment(s: ViewState): CancelResult {
    if !s.showConfirmCancel then
      CancelResult(false, s.(inputBox := SetPrompt(s.inputBox, DiscardConfirmPrompt), showConfirmCancel := true))
    else
      CancelResult(true, s.(inputBox := Blur(s.inputBox), isCommenting := false, showConfirmCancel := false))
  }

  function SetIsCommenting(s: ViewState, isCommenting: bool, w: Widgets): Transition {
    if s.issue.None? then Transition(s, [])
    else
      var s1 := if !s.isCommenting && isCommenting
                then s.(inputBox := ResetBox(s.inputBox), ac := w.acReset(s.ac)) else s;
      var s2 := s1.(isCommenting := isCommenting, inputBox := SetPrompt(s1.inputBox, CommentPrompt));
      if isCommenting then Transition(s2.(inputBox := Focus(s2.inputBox)), [FocusInput])
      else Transition(s2, [])
  }

  /** userAssignedToIssue */
  predicate IsAssignee(issue: IssueData, login: string) {
    exists i :: 0 <= i < |issue.assignees| && issue.assignees[i].login == login
  }

  function SetIsAssigning(s: ViewState, isAssigning: bool, w: Widgets): Transition {
    if s.issue.None? then Transition(s, [])
    else
      var s1 := if !s.isAssigning && isAssigning
                then s.(inputBox := ResetBox(s.inputBox), ac := w.acReset(s.ac)) else s;
      var s2 := s1.(isAssigning := isAssigning, inputBox := SetPrompt(s1.inputBox, AssignPrompt));
      var s3 := if !IsAssignee(s.issue.value, s.user) then s2.(inputBox := SetValue(s2.inputBox, s.user)) else s2;
      if isAssigning then Transition(s3.(inputBox := Focus(s3.inputBox)), [FocusInput])
      else Transition(s3, [])
  }

  /** The unassign prefill: one current assignee login per line. */
  function UnassignPrefill(issue: IssueData): string {
    Join(Logins(issue.assignees), "\n")
  }

  function SetIsUnassigning(s: ViewState, isUnassigning: bool, w: Widgets): Transition {
    if s.issue.None? then Transition(s, [])
    else
      var s1 := if !s.isUnassigning && isUnassigning
                then s.(inputBox := ResetBox(s.inputBox), ac := w.acReset(s.ac)) else s;
      var s2 := s1.(isUnassigning := isUnassigning, inputBox := SetPrompt(s1.inputBox, UnassignPrompt));
      var s3 := s2.(inputBox := SetValue(s2.inputBox, UnassignPrefill(s.issue.value)));
      if isUnassigning then Transition(s3.(inputBox := Focus(s3.inputBox)), [FocusInput])
      else Transition(s3, [])
  }

  /** The label prefill: the current label names joined by ", " with a trailing empty slot. */
  function LabelPrefill(labels: seq<Label>): string {
    Join(LabelNames(labels) + [""], ", ")
  }

  /** data.ClearRepoLabelCache for the shown issue's repository, when an issue is shown. */
  function EvictIssueRepo(s: ViewState): ViewState {
    if s.issue.Some? then s.(labelCache := s.labelCache - {s.issue.value.repoNameWithOwner}) else s
  }

  /** The state change of fetchLabels(): the autocomplete shows its loading indicator. */
  function StartFetch(s: ViewState): ViewState {
    s.(ac := s.ac.(status := FetchLoading))
  }

  /** The part of SetIsLabeling common to both directions: mode flag, prompt, prefill, panel
      closed and emptied. */
  function PrepareLabeling(s: ViewState, isLabeling: bool): ViewState
    requires s.issue.Some?
  {
    var s1 := if !s.isLabeling && isLabeling then s.(inputBox := ResetBox(s.inputBox)) else s;
    var s2 := s1.(isLabeling := isLabeling, inputBox := SetPrompt(s1.inputBox, LabelPrompt));
    var s3 := s2.(inputBox := SetValue(s2.inputBox, LabelPrefill(s.issue.value.labels)));
    s3.(ac := Hide(s3.ac).(suggestions := []))
  }

  function SetIsLabeling(s: ViewState, isLabeling: bool, w: Widgets): Transition {
    if s.issue.None? then Transition(s, [])
    else
      var s4 := PrepareLabeling(s, isLabeling);
      if !isLabeling then Transition(s4, [])
      else ShowLabelSuggestions(s4, w)
  }

  /** The end of SetIsLabeling(true): cached labels fill the panel at once; without them the
      fetch starts. Either way the input box takes the focus. */
  function ShowLabelSuggestions(s: ViewState, w: Widgets): Transition
    requires s.issue.Some?
  {
    var repo := s.issue.value.repoNameWithOwner;
    var box := s.inputBox;
    if repo in s.labelCache then
      var labels := s.labelCache[repo];
      var ac := Show(s.ac.(suggestions := LabelNames(labels)),
                     w.labelAtCursor(box.cursor, box.value), w.allLabels(box.value));
      Transition(s.(repoLabels := labels, ac := ac, inputBox := Focus(box)), [FocusInput])
    else
      var s5 := StartFetch(s);
      Transition(s5.(inputBox := Focus(box)), [FetchLabels, FocusInput])
  }

  /** The quote-reply lines: header, blank quote line, each body line quoted, two empty lines. */
  function QuoteLines(login: string, body: string): seq<string> {
    ["> @" + login + " wrote:", ">"] + MapSeq(Split(body, '\n'), QuoteLine) + ["", ""]
  }

  function QuoteLine(line: string): string { "> " + line }

  function QuoteText(login: string, body: string): string {
    Join(QuoteLines(login, body), "\n")
  }

  function SetIsQuoteReplying(s: ViewState, comment: Option<IssueComment>): Transition {
    if s.issue.None? || comment.None? then Transition(s, [])
    else
      var s1 := s.(inputBox := ResetBox(s.inputBox), isCommenting := true);
      var box := SetValue(s1.inputBox, QuoteText(comment.value.author, comment.value.body));
      Transition(s1.(inputBox := Focus(SetPrompt(box, ReplyPrompt))), [FocusInput])
  }

  // ---------------------------------------------------------------- Update

  /** The action a key asks for while browsing: the first binding it matches, in this order. */
  function BrowsingAction(k: KeyMsg, km: KeyMap): Option<IssueAction> {
    if Matches(k, km.labelKey) then Some(IssueAction(IssueActionLabel))
    else if Matches(k, km.assignKey) then Some(IssueAction(IssueActionAssign))
    else if Matches(k, km.unassignKey) then Some(IssueAction(IssueActionUnassign))
    else if Matches(k, km.commentKey) then Some(IssueAction(IssueActionComment))
    else if Matches(k, km.closeKey) then Some(IssueAction(IssueActionClose))
    else if Matches(k, km.reopenKey) then Some(IssueAction(IssueActionReopen))
    else if Matches(k, km.enterCommentNavModeKey) then Some(IssueAction(IssueActionEnterCommentNavMode))
    else if Matches(k, km.editorCommentKey) then Some(IssueAction(IssueActionEditorComment))
    else None
  }

  predicate IsCancelKey(k: KeyMsg) { k.typ == KeyEsc || k.typ == KeyCtrlC }

  /** A key the mode does not handle itself goes to the text input. */
  function Forward(s: ViewState, k: KeyMsg, w: Widgets): UpdateResult {
    UpdateResult(s.(inputBox := w.keyInput(s.inputBox, k)), [WidgetCmd], None)
  }

  function CommentingKey(s: ViewState, k: KeyMsg, w: Widgets): UpdateResult {
    if k.typ == KeyCtrlD then
      var cmds := if |TrimChar(s.inputBox.value, ' ')| != 0 then [PostComment(s.inputBox.value)] else [];
      UpdateResult(s.(inputBox := Blur(s.inputBox), isCommenting := false), cmds, None)
    else if IsCancelKey(k) then
      Forward(if !s.showConfirmCancel then ShouldCancelComment(s).state else s, k, w)
    else
      // "y"/"Y" asks shouldCancelComment, which discards when confirmation is already pending
      // and otherwise only raises it; "n"/"N" (which cannot also be "y") resumes a pending
      // confirmation; every other key, and a "y" that only raised the confirmation, restores
      // the comment prompt, clears the confirmation and is typed.
      var yes := k.str == "Y" || k.str == "y";
      var no := k.str == "N" || k.str == "n";
      if yes && s.showConfirmCancel then UpdateResult(ShouldCancelComment(s).state, [], None)
      else if !yes && s.showConfirmCancel && no then
        UpdateResult(s.(inputBox := SetPrompt(s.inputBox, CommentPrompt), showConfirmCancel := false), [], None)
      else
        var box := if yes then ShouldCancelComment(s).state.inputBox else s.inputBox;
        Forward(s.(inputBox := SetPrompt(box, CommentPrompt), showConfirmCancel := false), k, w)
  }

  function LabelingKey(s: ViewState, k: KeyMsg, km: KeyMap, w: Widgets): UpdateResult {
    if k.typ == KeyCtrlD then
      var labels := w.allLabels(s.inputBox.value);
      var cmds := if |labels| > 0 then [AddLabels(labels)] else [];
      UpdateResult(s.(inputBox := Blur(s.inputBox), isLabeling := false, ac := Hide(s.ac)), cmds, None)
    else if IsCancelKey(k) then
      UpdateResult(s.(inputBox := Blur(s.inputBox), isLabeling := false, ac := Hide(s.ac)), [], None)
    else
      var refresh := Matches(k, km.refreshSuggestionsKey);
      var s1 := if refresh then StartFetch(EvictIssueRepo(s)) else s;
      var previous := w.labelAtCursor(s1.inputBox.cursor, s1.inputBox.value);
      var box := w.keyInput(s1.inputBox, k);
      var current := w.labelAtCursor(box.cursor, box.value);
      var ac := if current != previous then Show(s1.ac, current, w.allLabels(box.value)) else s1.ac;
      UpdateResult(s1.(inputBox := box, ac := ac), (if refresh then [FetchLabels] else []) + [WidgetCmd], None)
  }

  /** The assigning and unassigning modes differ only in the flag they own and the command. */
  function AssigningKey(s: ViewState, k: KeyMsg, w: Widgets): UpdateResult {
    if k.typ == KeyCtrlD then
      var users := Fields(s.inputBox.value);
      var cmds := if |users| > 0 then [AssignUsers(users)] else [];
      UpdateResult(s.(inputBox := Blur(s.inputBox), isAssigning := false), cmds, None)
    else if IsCancelKey(k) then
      UpdateResult(s.(inputBox := Blur(s.inputBox), isAssigning := false), [], None)
    else Forward(s, k, w)
  }

  function UnassigningKey(s: ViewState, k: KeyMsg, w: Widgets): UpdateResult {
    if k.typ == KeyCtrlD then
      var users := Fields(s.inputBox.value);
      var cmds := if |users| > 0 then [UnassignUsers(users)] else [];
      UpdateResult(s.(inputBox := Blur(s.inputBox), isUnassigning := false), cmds, None)
    else if IsCancelKey(k) then
      UpdateResult(s.(inputBox := Blur(s.inputBox), isUnassigning := false), [], None)
    else Forward(s, k, w)
  }

  function CommentNavKey(s: ViewState, k: KeyMsg, km: KeyMap): UpdateResult {
    if Matches(k, km.nextCommentKey) then UpdateResult(SelectNextComment(s), [], None)
    else if Matches(k, km.prevCommentKey) then UpdateResult(SelectPrevComment(s), [], None)
    else if Matches(k, km.quoteReplyKey) then UpdateResult(s, [], Some(IssueAction(IssueActionQuoteReply)))
    else if k.typ == KeyEsc || Matches(k, km.enterCommentNavModeKey) then UpdateResult(ExitCommentNavMode(s), [], None)
    else UpdateResult(s, [], None)
  }

  function KeyUpdate(s: ViewState, k: KeyMsg, km: KeyMap, w: Widgets): UpdateResult {
    match ModeOf(s)
    case Commenting => CommentingKey(s, k, w)
    case Labeling => LabelingKey(s, k, km, w)
    case Assigning => AssigningKey(s, k, w)
    case Unassigning => UnassigningKey(s, k, w)
    case CommentNavigation => CommentNavKey(s, k, km)
    case Browsing => UpdateResult(s, [], BrowsingAction(k, km))
  }

  /** Update */
  function Update(s: ViewState, msg: Msg, km: KeyMap, w: Widgets): UpdateResult {
    match msg
    case RepoLabelsFetchedMsg(labels) =>
      var ac1 := s.ac.(status := FetchSucceeded, suggestions := LabelNames(labels));
      var ac2 := if s.isLabeling
                 then Show(ac1, w.labelAtCursor(s.inputBox.cursor, s.inputBox.value), w.allLabels(s.inputBox.value))
                 else ac1;
      UpdateResult(s.(repoLabels := labels, ac := ac2), [ClearFetchStatusLater], None)
    case RepoLabelsFetchFailedMsg(err) =>
      UpdateResult(s.(ac := s.ac.(status := FetchFailed(err))), [ClearFetchStatusLater], None)
    case FetchSuggestionsRequestedMsg(force) =>
      if s.isLabeling then UpdateResult(StartFetch(if force then EvictIssueRepo(s) else s), [FetchLabels], None)
      else UpdateResult(s, [], None)
    case Key(k) => KeyUpdate(s, k, km, w)
    case SpinnerTickMsg => UpdateResult(s.(ac := w.acUpdate(s.ac, msg)), [WidgetCmd], None)
    case ClearFetchStatusMsg => UpdateResult(s.(ac := w.acUpdate(s.ac, msg)), [WidgetCmd], None)
    case OtherMsg => UpdateResult(s, [], None)
  }
}
