/** What the issue view promises, proved about the functions of module IssueViewState. */
module IssueViewProps {
  import opened Wrappers
  import opened GoStrings
  import opened Sorting
  import opened IssueAction
  import opened IssueViewState

  // ---------------------------------------------------------------- comment navigation

  /** The selection is "none" (-1) or a position among the shown comments. */
  predicate SelectionInRange(s: ViewState) {
    s.selectedCommentIndex == -1 || 0 <= s.selectedCommentIndex < GetNumComments(s)
  }

  lemma NavigationKeepsSelectionInRange(s: ViewState)
    requires SelectionInRange(s)
    ensures SelectionInRange(SelectNextComment(s))
    ensures SelectionInRange(SelectPrevComment(s))
    ensures SelectionInRange(EnterCommentNavMode(s))
    ensures SelectionInRange(ExitCommentNavMode(s))
  {
  }

  /** Entering navigation needs an issue with comments, and then some comment is selected. */
  lemma EnterCommentNavModeSelects(s: ViewState)
    ensures var t := EnterCommentNavMode(s);
      (GetNumComments(s) == 0 ==> t == s) &&
      (GetNumComments(s) > 0 ==> t.isCommentNavMode && t.selectedCommentIndex >= 0) &&
      (SelectionInRange(s) && GetNumComments(s) > 0 ==> t.selectedCommentIndex < GetNumComments(s)) &&
      (s.selectedCommentIndex >= 0 ==> t.selectedCommentIndex == s.selectedCommentIndex) &&
      t.(isCommentNavMode := s.isCommentNavMode, selectedCommentIndex := s.selectedCommentIndex) == s
  {
  }

  /** Leaving navigation always clears the selection. */
  lemma ExitCommentNavModeClears(s: ViewState)
    ensures !ExitCommentNavMode(s).isCommentNavMode
    ensures SelectedComment(ExitCommentNavMode(s)) == None
  {
  }

  /** Next moves one step towards the last comment and stops there; nothing else changes. */
  lemma SelectNextClamps(s: ViewState)
    requires SelectionInRange(s) && GetNumComments(s) > 0
    ensures var n := GetNumComments(s);
      SelectNextComment(s) ==
        s.(selectedCommentIndex := if s.selectedCommentIndex + 1 < n then s.selectedCommentIndex + 1 else n - 1)
  {
  }

  /** Previous moves one step towards the first comment and stops there; from "none" it selects
      the first comment. */
  lemma SelectPrevClamps(s: ViewState)
    requires SelectionInRange(s) && GetNumComments(s) > 0
    ensures SelectPrevComment(s) ==
      s.(selectedCommentIndex := if s.selectedCommentIndex <= 0 then 0 else s.selectedCommentIndex - 1)
  {
  }

  /** Away from the ends, previous undoes next and next undoes previous. */
  lemma NextPrevInverse(s: ViewState)
    ensures 0 <= s.selectedCommentIndex < GetNumComments(s) - 1 ==>
      SelectPrevComment(SelectNextComment(s)) == s
    ensures 0 < s.selectedCommentIndex < GetNumComments(s) ==>
      SelectNextComment(SelectPrevComment(s)) == s
  {
  }

  /** An issue with `n` comments and nothing selected, as a test fixture would build it. */
  function FreshIssueView(comments: seq<IssueComment>, km: KeyMap): ViewState {
    NewModel("", map[]).(issue := Some(IssueData("https://github.com/test/repo/issues/1", 1,
                                                 "test/repo", [], [], comments)))
  }

  /** Entering, three nexts and three previouses over three comments visit 0,1,2,2,1,0,0. */
  lemma NavigationWalk(comments: seq<IssueComment>, km: KeyMap)
    requires |comments| == 3
    ensures var s0 := EnterCommentNavMode(FreshIssueView(comments, km));
      var s1 := SelectNextComment(s0);
      var s2 := SelectNextComment(s1);
      var s3 := SelectNextComment(s2);
      var s4 := SelectPrevComment(s3);
      var s5 := SelectPrevComment(s4);
      var s6 := SelectPrevComment(s5);
      s0.isCommentNavMode &&
      [s0.selectedCommentIndex, s1.selectedCommentIndex, s2.selectedCommentIndex, s3.selectedCommentIndex,
       s4.selectedCommentIndex, s5.selectedCommentIndex, s6.selectedCommentIndex] == [0, 1, 2, 2, 1, 0, 0] &&
      ExitCommentNavMode(s6).selectedCommentIndex == -1
  {
  }

  /** Without comments navigation mode cannot be entered. */
  lemma NoCommentsNoNavigation(km: KeyMap)
    ensures !EnterCommentNavMode(FreshIssueView([], km)).isCommentNavMode
  {
  }

  // ---------------------------------------------------------------- the selected comment

  /** A comment is returned exactly when an issue is shown and the selection is a position. */
  lemma SelectedCommentDefined(s: ViewState)
    ensures SelectedComment(s).Some? <==>
      s.issue.Some? && 0 <= s.selectedCommentIndex < |s.issue.value.comments|
    ensures SelectedComment(s).Some? ==> SelectedComment(s).value in s.issue.value.comments
  {
    if SelectedComment(s).Some? {
      var sorted := SortBy(s.issue.value.comments, CommentTime);
      assert sorted[s.selectedCommentIndex] in multiset(sorted);
    }
  }

  /** When the comments already arrive in strictly increasing time order, the selection is the
      comment at that position: after entering navigation over two comments the first author is
      selected, and after next the second. */
  lemma SelectedCommentInArrivalOrder(s: ViewState)
    requires s.issue.Some? && 0 <= s.selectedCommentIndex < |s.issue.value.comments|
    requires forall i, j :: 0 <= i < j < |s.issue.value.comments| ==>
      s.issue.value.comments[i].updatedAt < s.issue.value.comments[j].updatedAt
    ensures SelectedComment(s) == Some(s.issue.value.comments[s.selectedCommentIndex])
  {
    SortByStrictlySorted(s.issue.value.comments, CommentTime);
  }

  // ---------------------------------------------------------------- SetRow

  /** Refreshing the same issue (same Url) keeps navigation mode and selection. */
  lemma SetRowSameIssueKeepsNavigation(s: ViewState, d: IssueData)
    requires s.issue.Some? && s.issue.value.url == d.url
    ensures SetRow(s, Some(d)) == s.(issue := Some(d))
  {
  }

  /** Showing another issue, or none, leaves navigation and clears the selection; only the issue,
      the mode flag and the selection change. */
  lemma SetRowOtherIssueResetsNavigation(s: ViewState, d: Option<IssueData>)
    requires !(d.Some? && s.issue.Some? && s.issue.value.url == d.value.url)
    ensures SetRow(s, d) == s.(issue := d, isCommentNavMode := false, selectedCommentIndex := -1)
    ensures SelectionInRange(SetRow(s, d))
  {
  }

  /** The identity check is by Url only: a refreshed copy with fewer comments keeps a selection
      that no longer names a comment, and GetSelectedComment then returns nothing. */
  lemma SetRowKeepsStaleSelection(c: IssueComment)
    ensures var s := EnterCommentNavMode(FreshIssueView([c, c], KeyMap([], [], [], [], [], [], [], [], [], [], [], [])));
      var t := SetRow(SelectNextComment(s), Some(s.issue.value.(comments := [])));
      t.isCommentNavMode && t.selectedCommentIndex == 1 && !SelectionInRange(t) && SelectedComment(t) == None
  {
  }

  // ---------------------------------------------------------------- routing of keys

  /** Unfolds the dispatch of a key to its mode's handler (a proof step for the lemmas below). */
  lemma KeyRouting(s: ViewState, k: KeyMsg, km: KeyMap, w: Widgets)
    ensures var r := Update(s, Key(k), km, w);
      (ModeOf(s) == Commenting ==> r == CommentingKey(s, k, w)) &&
      (ModeOf(s) == Labeling ==> r == LabelingKey(s, k, km, w)) &&
      (ModeOf(s) == Assigning ==> r == AssigningKey(s, k, w)) &&
      (ModeOf(s) == Unassigning ==> r == UnassigningKey(s, k, w)) &&
      (ModeOf(s) == CommentNavigation ==> r == CommentNavKey(s, k, km)) &&
      (ModeOf(s) == Browsing ==> r == UpdateResult(s, [], BrowsingAction(k, km)))
  {
  }

  /** `s` with the flags of the modes below commenting replaced. */
  function WithLower(s: ViewState, l: bool, a: bool, u: bool, n: bool): ViewState {
    s.(isLabeling := l, isAssigning := a, isUnassigning := u, isCommentNavMode := n)
  }

  /** While commenting, the flags of the modes below it are not consulted: whatever they hold, the
      commands and the action are the same, and the new state differs only in those flags. */
  lemma CommentingShadowsLowerModes(s: ViewState, k: KeyMsg, km: KeyMap, w: Widgets,
                                    l: bool, a: bool, u: bool, n: bool)
    requires s.isCommenting
    ensures var r := Update(s, Key(k), km, w);
      Update(WithLower(s, l, a, u, n), Key(k), km, w) ==
        UpdateResult(WithLower(r.state, l, a, u, n), r.cmds, r.action)
  {
    var t := WithLower(s, l, a, u, n);
    assert ModeOf(s) == Commenting && ModeOf(t) == Commenting;
    assert Update(s, Key(k), km, w) == CommentingKey(s, k, w);
    assert Update(t, Key(k), km, w) == CommentingKey(t, k, w);
    if k.typ == KeyCtrlD {
      CommentingSubmitShadows(s, k, w, l, a, u, n);
    } else if IsCancelKey(k) {
      CommentingCancelShadows(s, k, w, l, a, u, n);
    } else {
      CommentingTypingShadows(s, k, w, l, a, u, n);
    }
  }

  lemma CommentingSubmitShadows(s: ViewState, k: KeyMsg, w: Widgets, l: bool, a: bool, u: bool, n: bool)
    requires k.typ == KeyCtrlD
    ensures var r := CommentingKey(s, k, w);
      CommentingKey(WithLower(s, l, a, u, n), k, w) == UpdateResult(WithLower(r.state, l, a, u, n), r.cmds, r.action)
  {
  }

  lemma CommentingCancelShadows(s: ViewState, k: KeyMsg, w: Widgets, l: bool, a: bool, u: bool, n: bool)
    requires k.typ != KeyCtrlD && IsCancelKey(k)
    ensures var r := CommentingKey(s, k, w);
      CommentingKey(WithLower(s, l, a, u, n), k, w) == UpdateResult(WithLower(r.state, l, a, u, n), r.cmds, r.action)
  {
    if !s.showConfirmCancel {
      CancelShadows(s, l, a, u, n);
      ForwardShadows(ShouldCancelComment(s).state, k, w, l, a, u, n);
    } else {
      ForwardShadows(s, k, w, l, a, u, n);
    }
  }

  lemma CommentingTypingShadows(s: ViewState, k: KeyMsg, w: Widgets, l: bool, a: bool, u: bool, n: bool)
    requires k.typ != KeyCtrlD && !IsCancelKey(k)
    ensures var r := CommentingKey(s, k, w);
      CommentingKey(WithLower(s, l, a, u, n), k, w) == UpdateResult(WithLower(r.state, l, a, u, n), r.cmds, r.action)
  {
    var yes := k.str == "Y" || k.str == "y";
    var no := k.str == "N" || k.str == "n";
    CancelShadows(s, l, a, u, n);
    if !(yes && s.showConfirmCancel) && !(!yes && s.showConfirmCancel && no) {
      var box := if yes then ShouldCancelComment(s).state.inputBox else s.inputBox;
      var x := s.(inputBox := SetPrompt(box, CommentPrompt), showConfirmCancel := false);
      ResumeShadows(s, SetPrompt(box, CommentPrompt), l, a, u, n);
      ForwardShadows(x, k, w, l, a, u, n);
    }
  }

  lemma ForwardShadows(x: ViewState, k: KeyMsg, w: Widgets, l: bool, a: bool, u: bool, n: bool)
    ensures Forward(WithLower(x, l, a, u, n), k, w) ==
      UpdateResult(WithLower(Forward(x, k, w).state, l, a, u, n), [WidgetCmd], None)
  {
  }

  lemma CancelShadows(x: ViewState, l: bool, a: bool, u: bool, n: bool)
    ensures ShouldCancelComment(WithLower(x, l, a, u, n)) ==
      CancelResult(ShouldCancelComment(x).cancelled, WithLower(ShouldCancelComment(x).state, l, a, u, n))
  {
  }

  lemma ResumeShadows(x: ViewState, box: InputBox, l: bool, a: bool, u: bool, n: bool)
    ensures WithLower(x, l, a, u, n).(inputBox := box, showConfirmCancel := false) ==
      WithLower(x.(inputBox := box, showConfirmCancel := false), l, a, u, n)
  {
  }

  /** While labeling (and not commenting), the assigning, unassigning and navigation flags are
      not consulted either. */
  lemma LabelingShadowsLowerModes(s: ViewState, k: KeyMsg, km: KeyMap, w: Widgets, a: bool, u: bool, n: bool)
    requires !s.isCommenting && s.isLabeling
    ensures var r := Update(s, Key(k), km, w);
      Update(WithLower(s, true, a, u, n), Key(k), km, w) ==
        UpdateResult(WithLower(r.state, r.state.isLabeling, a, u, n), r.cmds, r.action)
  {
    var t := WithLower(s, true, a, u, n);
    assert ModeOf(s) == Labeling && ModeOf(t) == Labeling;
    assert Update(s, Key(k), km, w) == LabelingKey(s, k, km, w);
    assert Update(t, Key(k), km, w) == LabelingKey(t, k, km, w);
    if k.typ == KeyCtrlD || IsCancelKey(k) {
      LabelingLeaveShadows(s, k, km, w, a, u, n);
    } else {
      LabelingTypingShadows(s, k, km, w, a, u, n);
    }
  }

  lemma LabelingLeaveShadows(s: ViewState, k: KeyMsg, km: KeyMap, w: Widgets, a: bool, u: bool, n: bool)
    requires s.isLabeling && (k.typ == KeyCtrlD || IsCancelKey(k))
    ensures var r := LabelingKey(s, k, km, w);
      LabelingKey(WithLower(s, true, a, u, n), k, km, w) ==
        UpdateResult(WithLower(r.state, r.state.isLabeling, a, u, n), r.cmds, r.action)
  {
  }

  lemma LabelingTypingShadows(s: ViewState, k: KeyMsg, km: KeyMap, w: Widgets, a: bool, u: bool, n: bool)
    requires s.isLabeling && k.typ != KeyCtrlD && !IsCancelKey(k)
    ensures var r := LabelingKey(s, k, km, w);
      LabelingKey(WithLower(s, true, a, u, n), k, km, w) ==
        UpdateResult(WithLower(r.state, r.state.isLabeling, a, u, n), r.cmds, r.action)
  {
    var refresh := Matches(k, km.refreshSuggestionsKey);
    var s1 := if refresh then StartFetch(EvictIssueRepo(s)) else s;
    RefetchShadows(s, a, u, n);
    assert (if refresh then StartFetch(EvictIssueRepo(WithLower(s, true, a, u, n))) else WithLower(s, true, a, u, n))
      == WithLower(s1, true, a, u, n);
    var previous := w.labelAtCursor(s1.inputBox.cursor, s1.inputBox.value);
    var box := w.keyInput(s1.inputBox, k);
    var current := w.labelAtCursor(box.cursor, box.value);
    var ac := if current != previous then Show(s1.ac, current, w.allLabels(box.value)) else s1.ac;
    TypedShadows(s1, box, ac, a, u, n);
  }

  lemma RefetchShadows(x: ViewState, a: bool, u: bool, n: bool)
    requires x.isLabeling
    ensures StartFetch(EvictIssueRepo(WithLower(x, true, a, u, n))) == WithLower(StartFetch(EvictIssueRepo(x)), true, a, u, n)
  {
    var e := EvictIssueRepo(x);
    EvictShadows(x, a, u, n);
    assert e.isLabeling;
    TypedShadows(e, e.inputBox, e.ac.(status := FetchLoading), a, u, n);
  }

  lemma EvictShadows(x: ViewState, a: bool, u: bool, n: bool)
    requires x.isLabeling
    ensures EvictIssueRepo(WithLower(x, true, a, u, n)) == WithLower(EvictIssueRepo(x), true, a, u, n)
  {
    if x.issue.Some? {
      var cache := x.labelCache - {x.issue.value.repoNameWithOwner};
      assert WithLower(x, true, a, u, n).(labelCache := cache) == WithLower(x.(labelCache := cache), true, a, u, n);
    }
  }

  lemma TypedShadows(x: ViewState, box: InputBox, ac: Autocomplete, a: bool, u: bool, n: bool)
    requires x.isLabeling
    ensures WithLower(x, true, a, u, n).(inputBox := box, ac := ac) == WithLower(x.(inputBox := box, ac := ac), true, a, u, n)
  {
  }

  /** While browsing a key only selects an action and changes nothing. */
  lemma BrowsingKeyOnlyAsks(s: ViewState, k: KeyMsg, km: KeyMap, w: Widgets)
    requires ModeOf(s) == Browsing
    ensures Update(s, Key(k), km, w) == UpdateResult(s, [], BrowsingAction(k, km))
  {
  }

  /** The browsing actions are exactly the eight entry actions, and a key that matches no binding
      asks for none. */
  lemma BrowsingActionKinds(k: KeyMsg, km: KeyMap)
    ensures BrowsingAction(k, km).None? <==>
      !(Matches(k, km.labelKey) || Matches(k, km.assignKey) || Matches(k, km.unassignKey) ||
        Matches(k, km.commentKey) || Matches(k, km.closeKey) || Matches(k, km.reopenKey) ||
        Matches(k, km.enterCommentNavModeKey) || Matches(k, km.editorCommentKey))
    ensures BrowsingAction(k, km).Some? ==>
      BrowsingAction(k, km).value.typ in
        {IssueActionLabel, IssueActionAssign, IssueActionUnassign, IssueActionComment, IssueActionClose,
         IssueActionReopen, IssueActionEnterCommentNavMode, IssueActionEditorComment}
    ensures Matches(k, km.labelKey) ==> BrowsingAction(k, km) == Some(IssueAction(IssueActionLabel))
    ensures !Matches(k, km.labelKey) && Matches(k, km.assignKey) ==>
      BrowsingAction(k, km) == Some(IssueAction(IssueActionAssign))
    ensures !Matches(k, km.labelKey) && !Matches(k, km.assignKey) && Matches(k, km.unassignKey) ==>
      BrowsingAction(k, km) == Some(IssueAction(IssueActionUnassign))
    ensures !Matches(k, km.labelKey) && !Matches(k, km.assignKey) && !Matches(k, km.unassignKey) &&
            Matches(k, km.commentKey) ==>
      BrowsingAction(k, km) == Some(IssueAction(IssueActionComment))
    ensures !Matches(k, km.labelKey) && !Matches(k, km.assignKey) && !Matches(k, km.unassignKey) &&
            !Matches(k, km.commentKey) && Matches(k, km.closeKey) ==>
      BrowsingAction(k, km) == Some(IssueAction(IssueActionClose))
    ensures !Matches(k, km.labelKey) && !Matches(k, km.assignKey) && !Matches(k, km.unassignKey) &&
            !Matches(k, km.commentKey) && !Matches(k, km.closeKey) && Matches(k, km.reopenKey) ==>
      BrowsingAction(k, km) == Some(IssueAction(IssueActionReopen))
    ensures !Matches(k, km.labelKey) && !Matches(k, km.assignKey) && !Matches(k, km.unassignKey) &&
            !Matches(k, km.commentKey) && !Matches(k, km.closeKey) && !Matches(k, km.reopenKey) &&
            Matches(k, km.enterCommentNavModeKey) ==>
      BrowsingAction(k, km) == Some(IssueAction(IssueActionEnterCommentNavMode))
    ensures !Matches(k, km.labelKey) && !Matches(k, km.assignKey) && !Matches(k, km.unassignKey) &&
            !Matches(k, km.commentKey) && !Matches(k, km.closeKey) && !Matches(k, km.reopenKey) &&
            !Matches(k, km.enterCommentNavModeKey) && Matches(k, km.editorCommentKey) ==>
      BrowsingAction(k, km) == Some(IssueAction(IssueActionEditorComment))
  {
  }

  /** The navigation toggle while browsing asks to enter navigation mode when no earlier binding
      claims the key. */
  lemma BrowsingToggleAsksToEnter(s: ViewState, k: KeyMsg, km: KeyMap, w: Widgets)
    requires ModeOf(s) == Browsing && Matches(k, km.enterCommentNavModeKey)
    requires !(Matches(k, km.labelKey) || Matches(k, km.assignKey) || Matches(k, km.unassignKey) ||
               Matches(k, km.commentKey) || Matches(k, km.closeKey) || Matches(k, km.reopenKey))
    ensures Update(s, Key(k), km, w).action == Some(IssueAction(IssueActionEnterCommentNavMode))
  {
  }

  /** In navigation mode the quote key (whatever it is bound to) asks for a quote reply and
      changes nothing; navigation mode stays on for the caller to read the selection. */
  lemma NavigationQuoteAsksForReply(s: ViewState, k: KeyMsg, km: KeyMap, w: Widgets)
    requires ModeOf(s) == CommentNavigation && Matches(k, km.quoteReplyKey)
    requires !Matches(k, km.nextCommentKey) && !Matches(k, km.prevCommentKey)
    ensures Update(s, Key(k), km, w) == UpdateResult(s, [], Some(IssueAction(IssueActionQuoteReply)))
  {
  }

  /** In navigation mode Esc or the toggle key leaves the mode and asks for nothing. */
  lemma NavigationToggleExits(s: ViewState, k: KeyMsg, km: KeyMap, w: Widgets)
    requires ModeOf(s) == CommentNavigation
    requires k.typ == KeyEsc || Matches(k, km.enterCommentNavModeKey)
    requires !Matches(k, km.nextCommentKey) && !Matches(k, km.prevCommentKey) && !Matches(k, km.quoteReplyKey)
    ensures Update(s, Key(k), km, w) == UpdateResult(ExitCommentNavMode(s), [], None)
  {
  }

  /** Which actions Update can return, from where: only on a key, only while browsing or
      navigating, never the internal navigation tags, quote reply only while navigating, and
      never together with a state change or a command. */
  lemma UpdateActions(s: ViewState, msg: Msg, km: KeyMap, w: Widgets)
    ensures var r := Update(s, msg, km, w);
      r.action.Some? ==>
        msg.Key? && (ModeOf(s) == Browsing || ModeOf(s) == CommentNavigation) &&
        r.action.value.typ !in {IssueActionNone, IssueActionNextComment, IssueActionPrevComment} &&
        (r.action.value.typ == IssueActionQuoteReply <==> ModeOf(s) == CommentNavigation) &&
        r.state == s && r.cmds == []
  {
  }

  /** While a text input is focused Update never asks for an action. */
  lemma TextModesAskNothing(s: ViewState, msg: Msg, km: KeyMap, w: Widgets)
    requires IsTextInputBoxFocused(s)
    ensures Update(s, msg, km, w).action == None
  {
  }

  /** From `s` to `t` no mode flag turns on, and only the flag of the mode `s` is in can turn off. */
  predicate OnlyLeaves(s: ViewState, t: ViewState) {
    (t.isCommenting ==> s.isCommenting) && (t.isLabeling ==> s.isLabeling) &&
    (t.isAssigning ==> s.isAssigning) && (t.isUnassigning ==> s.isUnassigning) &&
    (t.isCommentNavMode ==> s.isCommentNavMode) &&
    (t.isCommenting != s.isCommenting ==> ModeOf(s) == Commenting) &&
    (t.isLabeling != s.isLabeling ==> ModeOf(s) == Labeling) &&
    (t.isAssigning != s.isAssigning ==> ModeOf(s) == Assigning) &&
    (t.isUnassigning != s.isUnassigning ==> ModeOf(s) == Unassigning) &&
    (t.isCommentNavMode != s.isCommentNavMode ==> ModeOf(s) == CommentNavigation)
  }

  /** Update never turns a mode on, and only the routed mode's own flag can turn off. */
  lemma UpdateOnlyLeavesModes(s: ViewState, msg: Msg, km: KeyMap, w: Widgets)
    ensures OnlyLeaves(s, Update(s, msg, km, w).state)
  {
    if msg.Key? {
      assert Update(s, msg, km, w) == KeyUpdate(s, msg.key, km, w);
      KeyOnlyLeavesModes(s, msg.key, km, w);
    }
  }

  lemma KeyOnlyLeavesModes(s: ViewState, k: KeyMsg, km: KeyMap, w: Widgets)
    ensures OnlyLeaves(s, KeyUpdate(s, k, km, w).state)
  {
    match ModeOf(s)
    case Commenting => CommentingKeyEffects(s, k, w);
    case Labeling => LabelingKeyEffects(s, k, km, w);
    case Assigning =>
    case Unassigning =>
    case CommentNavigation =>
    case Browsing =>
  }

  /** The commenting mode's key handler, branch by branch. */
  lemma CommentingKeyEffects(s: ViewState, k: KeyMsg, w: Widgets)
    requires ModeOf(s) == Commenting
    ensures OnlyLeaves(s, CommentingKey(s, k, w).state) && KeepsIssue(s, CommentingKey(s, k, w).state)
  {
    if k.typ == KeyCtrlD {
      CommentingSubmitEffects(s, k, w);
    } else if IsCancelKey(k) {
      CommentingCancelEffects(s, k, w);
    } else {
      CommentingTypingEffects(s, k, w);
    }
  }

  lemma CommentingSubmitEffects(s: ViewState, k: KeyMsg, w: Widgets)
    requires ModeOf(s) == Commenting && k.typ == KeyCtrlD
    ensures OnlyLeaves(s, CommentingKey(s, k, w).state) && KeepsIssue(s, CommentingKey(s, k, w).state)
  {
  }

  lemma CommentingCancelEffects(s: ViewState, k: KeyMsg, w: Widgets)
    requires ModeOf(s) == Commenting && k.typ != KeyCtrlD && IsCancelKey(k)
    ensures OnlyLeaves(s, CommentingKey(s, k, w).state) && KeepsIssue(s, CommentingKey(s, k, w).state)
  {
  }

  lemma CommentingTypingEffects(s: ViewState, k: KeyMsg, w: Widgets)
    requires ModeOf(s) == Commenting && k.typ != KeyCtrlD && !IsCancelKey(k)
    ensures OnlyLeaves(s, CommentingKey(s, k, w).state) && KeepsIssue(s, CommentingKey(s, k, w).state)
  {
  }

  /** The labeling mode's key handler, branch by branch. */
  lemma LabelingKeyEffects(s: ViewState, k: KeyMsg, km: KeyMap, w: Widgets)
    requires ModeOf(s) == Labeling
    ensures OnlyLeaves(s, LabelingKey(s, k, km, w).state) && KeepsIssue(s, LabelingKey(s, k, km, w).state)
  {
    if k.typ == KeyCtrlD || IsCancelKey(k) {
      LabelingLeaveEffects(s, k, km, w);
    } else {
      LabelingTypingEffects(s, k, km, w);
    }
  }

  lemma LabelingLeaveEffects(s: ViewState, k: KeyMsg, km: KeyMap, w: Widgets)
    requires ModeOf(s) == Labeling && (k.typ == KeyCtrlD || IsCancelKey(k))
    ensures OnlyLeaves(s, LabelingKey(s, k, km, w).state) && KeepsIssue(s, LabelingKey(s, k, km, w).state)
  {
  }

  lemma LabelingTypingEffects(s: ViewState, k: KeyMsg, km: KeyMap, w: Widgets)
    requires ModeOf(s) == Labeling && k.typ != KeyCtrlD && !IsCancelKey(k)
    ensures OnlyLeaves(s, LabelingKey(s, k, km, w).state) && KeepsIssue(s, LabelingKey(s, k, km, w).state)
  {
  }

  /** Update never replaces the issue or the user, and keeps the selection in range. */
  lemma UpdateKeepsIssue(s: ViewState, msg: Msg, km: KeyMap, w: Widgets)
    ensures Update(s, msg, km, w).state.issue == s.issue
    ensures Update(s, msg, km, w).state.user == s.user
    ensures Update(s, msg, km, w).state.selectedCommentIndex != s.selectedCommentIndex ==>
      ModeOf(s) == CommentNavigation
  {
    if msg.Key? {
      KeyKeepsIssue(s, msg.key, km, w);
    }
  }

  /** `t` has the issue and user of `s`, and a different selection only after navigation. */
  predicate KeepsIssue(s: ViewState, t: ViewState) {
    t.issue == s.issue && t.user == s.user &&
    (t.selectedCommentIndex != s.selectedCommentIndex ==> ModeOf(s) == CommentNavigation)
  }

  lemma KeyKeepsIssue(s: ViewState, k: KeyMsg, km: KeyMap, w: Widgets)
    ensures KeepsIssue(s, KeyUpdate(s, k, km, w).state)
  {
    match ModeOf(s)
    case Commenting => CommentingKeyEffects(s, k, w);
    case Labeling => LabelingKeyEffects(s, k, km, w);
    case Assigning =>
    case Unassigning =>
    case CommentNavigation =>
    case Browsing =>
  }

  /** Every message keeps the selection within the shown comments. */
  lemma UpdateKeepsSelectionInRange(s: ViewState, msg: Msg, km: KeyMap, w: Widgets)
    requires SelectionInRange(s)
    ensures SelectionInRange(Update(s, msg, km, w).state)
  {
    UpdateKeepsIssue(s, msg, km, w);
    if msg.Key? && ModeOf(s) == CommentNavigation {
      KeyRouting(s, msg.key, km, w);
      NavigationKeepsSelectionInRange(s);
    }
  }

  // ---------------------------------------------------------------- submitting and leaving

  /** Ctrl+D while commenting leaves the mode and posts the text exactly when it holds a
      character other than a space (the text itself is posted untrimmed). */
  lemma CommentSubmit(s: ViewState, k: KeyMsg, km: KeyMap, w: Widgets)
    requires ModeOf(s) == Commenting && k.typ == KeyCtrlD
    ensures var r := Update(s, Key(k), km, w); var v := s.inputBox.value;
      !r.state.isCommenting && !r.state.inputBox.focused && r.action == None &&
      r.state.showConfirmCancel == s.showConfirmCancel &&
      ((exists i :: 0 <= i < |v| && v[i] != ' ') ==> r.cmds == [PostComment(v)]) &&
      ((forall i :: 0 <= i < |v| ==> v[i] == ' ') ==> r.cmds == [])
  {
    TrimCharNonEmpty(s.inputBox.value, ' ');
  }

  /** Ctrl+D while assigning leaves the mode and assigns the white-space separated logins, when
      there is at least one; each login is a non-empty word. */
  lemma AssignSubmit(s: ViewState, k: KeyMsg, km: KeyMap, w: Widgets)
    requires ModeOf(s) == Assigning && k.typ == KeyCtrlD
    ensures var r := Update(s, Key(k), km, w); var v := s.inputBox.value;
      !r.state.isAssigning && !r.state.inputBox.focused && r.action == None &&
      (AllSpace(v) <==> r.cmds == []) &&
      (!AllSpace(v) ==> r.cmds == [AssignUsers(Fields(v))]) &&
      (forall i :: 0 <= i < |Fields(v)| ==> Fields(v)[i] != "" && !HasSpace(Fields(v)[i]))
  {
    KeyRouting(s, k, km, w);
    FieldsEmpty(s.inputBox.value);
    FieldsAreWords(s.inputBox.value);
  }

  lemma UnassignSubmit(s: ViewState, k: KeyMsg, km: KeyMap, w: Widgets)
    requires ModeOf(s) == Unassigning && k.typ == KeyCtrlD
    ensures var r := Update(s, Key(k), km, w); var v := s.inputBox.value;
      !r.state.isUnassigning && !r.state.inputBox.focused && r.action == None &&
      (AllSpace(v) <==> r.cmds == []) &&
      (!AllSpace(v) ==> r.cmds == [UnassignUsers(Fields(v))]) &&
      (forall i :: 0 <= i < |Fields(v)| ==> Fields(v)[i] != "" && !HasSpace(Fields(v)[i]))
  {
    KeyRouting(s, k, km, w);
    FieldsEmpty(s.inputBox.value);
    FieldsAreWords(s.inputBox.value);
  }

  /** Ctrl+D while labeling leaves the mode, closes the panel and adds the parsed labels when
      there are any. */
  lemma LabelSubmit(s: ViewState, k: KeyMsg, km: KeyMap, w: Widgets)
    requires ModeOf(s) == Labeling && k.typ == KeyCtrlD
    ensures var r := Update(s, Key(k), km, w); var labels := w.allLabels(s.inputBox.value);
      !r.state.isLabeling && !r.state.inputBox.focused && !r.state.ac.visible && r.action == None &&
      r.cmds == (if |labels| > 0 then [AddLabels(labels)] else [])
  {
  }

  /** Esc or Ctrl+C leaves labeling, assigning and unassigning at once, issuing nothing. */
  lemma CancelLeavesListModes(s: ViewState, k: KeyMsg, km: KeyMap, w: Widgets)
    requires IsCancelKey(k)
    requires ModeOf(s) == Labeling || ModeOf(s) == Assigning || ModeOf(s) == Unassigning
    ensures var r := Update(s, Key(k), km, w);
      r.cmds == [] && r.action == None && !r.state.inputBox.focused &&
      r.state.inputBox.value == s.inputBox.value &&
      (ModeOf(s) == Labeling ==> !r.state.isLabeling && !r.state.ac.visible) &&
      (ModeOf(s) == Assigning ==> !r.state.isAssigning) &&
      (ModeOf(s) == Unassigning ==> !r.state.isUnassigning)
  {
  }

  // ---------------------------------------------------------------- the discard protocol

  /** The first Esc or Ctrl+C while commenting asks for confirmation; the key still reaches the
      input box, which receives it under the confirmation prompt. */
  lemma FirstCancelAsks(s: ViewState, k: KeyMsg, km: KeyMap, w: Widgets)
    requires ModeOf(s) == Commenting && IsCancelKey(k) && !s.showConfirmCancel
    ensures var r := Update(s, Key(k), km, w);
      r.state.isCommenting && r.state.showConfirmCancel && r.cmds == [WidgetCmd] &&
      r.state.inputBox == w.keyInput(SetPrompt(s.inputBox, DiscardConfirmPrompt), k)
  {
  }

  /** A further Esc or Ctrl+C while confirmation is pending does not discard: it is only passed
      to the input box. */
  lemma RepeatedCancelKeepsComposing(s: ViewState, k: KeyMsg, km: KeyMap, w: Widgets)
    requires ModeOf(s) == Commenting && IsCancelKey(k) && s.showConfirmCancel
    ensures Update(s, Key(k), km, w) ==
      UpdateResult(s.(inputBox := w.keyInput(s.inputBox, k)), [WidgetCmd], None)
  {
  }

  /** A key that is not one of Ctrl+D, Esc and Ctrl+C. */
  predicate IsPlainKey(k: KeyMsg) { k.typ != KeyCtrlD && !IsCancelKey(k) }

  /** "y" or "Y" while confirmation is pending discards: commenting ends, nothing is posted and
      the key is swallowed. */
  lemma ConfirmYesDiscards(s: ViewState, k: KeyMsg, km: KeyMap, w: Widgets)
    requires ModeOf(s) == Commenting && IsPlainKey(k) && s.showConfirmCancel
    requires k.str == "y" || k.str == "Y"
    ensures var r := Update(s, Key(k), km, w);
      r == UpdateResult(s.(isCommenting := false, showConfirmCancel := false,
                           inputBox := Blur(s.inputBox)), [], None)
  {
  }

  /** "n" or "N" while confirmation is pending resumes: the comment prompt is back, the text is
      kept and the key is swallowed. */
  lemma ConfirmNoResumes(s: ViewState, k: KeyMsg, km: KeyMap, w: Widgets)
    requires ModeOf(s) == Commenting && IsPlainKey(k) && s.showConfirmCancel
    requires k.str == "n" || k.str == "N"
    ensures var r := Update(s, Key(k), km, w);
      r == UpdateResult(s.(showConfirmCancel := false, inputBox := SetPrompt(s.inputBox, CommentPrompt)), [], None)
  {
  }

  /** Any other plain key withdraws a pending confirmation and is typed into the box under the
      comment prompt; with no confirmation pending "y" is typed like any other letter. */
  lemma OtherKeyResumes(s: ViewState, k: KeyMsg, km: KeyMap, w: Widgets)
    requires ModeOf(s) == Commenting && IsPlainKey(k)
    requires !(s.showConfirmCancel && k.str in ["y", "Y", "n", "N"])
    ensures Update(s, Key(k), km, w) ==
      UpdateResult(s.(showConfirmCancel := false,
                      inputBox := w.keyInput(SetPrompt(s.inputBox, CommentPrompt), k)), [WidgetCmd], None)
  {
  }

  /** Ctrl+D while confirmation is pending submits and leaves the flag set: the next comment
      session starts with a confirmation already pending. */
  lemma SubmitKeepsPendingConfirmation(s: ViewState, k: KeyMsg, km: KeyMap, w: Widgets)
    requires ModeOf(s) == Commenting && k.typ == KeyCtrlD && s.showConfirmCancel
    ensures var t := Update(s, Key(k), km, w).state;
      !t.isCommenting && t.showConfirmCancel && SetIsCommenting(t, true, w).state.showConfirmCancel
  {
  }

  // ---------------------------------------------------------------- entering the text modes

  /** Every mode setter leaves the view alone when no issue is shown. */
  lemma SettersNeedIssue(s: ViewState, b: bool, c: Option<IssueComment>, w: Widgets)
    requires s.issue.None?
    ensures SetIsCommenting(s, b, w) == Transition(s, [])
    ensures SetIsAssigning(s, b, w) == Transition(s, [])
    ensures SetIsUnassigning(s, b, w) == Transition(s, [])
    ensures SetIsLabeling(s, b, w) == Transition(s, [])
    ensures SetIsQuoteReplying(s, c) == Transition(s, [])
  {
  }

  /** Entering commenting starts from an empty focused box under the comment prompt. */
  lemma EnterCommenting(s: ViewState, w: Widgets)
    requires s.issue.Some? && !s.isCommenting
    ensures var r := SetIsCommenting(s, true, w);
      r.cmds == [FocusInput] && r.state.isCommenting && r.state.inputBox.value == "" &&
      r.state.inputBox.focused && r.state.inputBox.prompt == CommentPrompt &&
      r.state.ac == w.acReset(s.ac)
  {
  }

  /** Entering assigning prefills the user's own login unless they are already an assignee. */
  lemma EnterAssigning(s: ViewState, w: Widgets)
    requires s.issue.Some? && !s.isAssigning
    ensures var r := SetIsAssigning(s, true, w);
      r.cmds == [FocusInput] && r.state.isAssigning && r.state.inputBox.focused &&
      r.state.inputBox.prompt == AssignPrompt &&
      r.state.inputBox.value == (if IsAssignee(s.issue.value, s.user) then "" else s.user)
  {
  }

  /** Switching assigning off still writes the user's login into the box when they are not an
      assignee, and issues nothing. */
  lemma LeaveAssigningPrefills(s: ViewState, w: Widgets)
    requires s.issue.Some? && !IsAssignee(s.issue.value, s.user)
    ensures var r := SetIsAssigning(s, false, w);
      r.cmds == [] && !r.state.isAssigning && r.state.inputBox.value == s.user
  {
  }

  /** Entering unassigning prefills one current assignee per line: splitting the box's text at
      line breaks gives back the assignees' logins. */
  lemma EnterUnassigning(s: ViewState, w: Widgets)
    requires s.issue.Some? && |s.issue.value.assignees| > 0
    requires forall i :: 0 <= i < |s.issue.value.assignees| ==> '\n' !in s.issue.value.assignees[i].login
    ensures var r := SetIsUnassigning(s, true, w);
      r.cmds == [FocusInput] && r.state.isUnassigning && r.state.inputBox.focused &&
      Split(r.state.inputBox.value, '\n') == Logins(s.issue.value.assignees)
  {
    SplitJoin(Logins(s.issue.value.assignees), '\n');
  }

  /** Asking twice for a text mode is asking once. */
  lemma SetIsCommentingIdempotent(s: ViewState, b: bool, w: Widgets)
    ensures SetIsCommenting(SetIsCommenting(s, b, w).state, b, w).state == SetIsCommenting(s, b, w).state
  {
  }

  lemma SetIsAssigningIdempotent(s: ViewState, b: bool, w: Widgets)
    ensures SetIsAssigning(SetIsAssigning(s, b, w).state, b, w).state == SetIsAssigning(s, b, w).state
  {
    if s.issue.Some? {
      if IsAssignee(s.issue.value, s.user) {
        AssignAgainAssignee(s, b, w);
      } else {
        AssignAgainOther(s, b, w);
      }
    }
  }

  /** Re-entering when the user is already an assignee: the box keeps its value. */
  lemma AssignAgainAssignee(s: ViewState, b: bool, w: Widgets)
    requires s.issue.Some? && IsAssignee(s.issue.value, s.user)
    ensures SetIsAssigning(SetIsAssigning(s, b, w).state, b, w).state == SetIsAssigning(s, b, w).state
  {
  }

  /** Re-entering when the user is not an assignee: the login is put in the box again. */
  lemma AssignAgainOther(s: ViewState, b: bool, w: Widgets)
    requires s.issue.Some? && !IsAssignee(s.issue.value, s.user)
    ensures SetIsAssigning(SetIsAssigning(s, b, w).state, b, w).state == SetIsAssigning(s, b, w).state
  {
  }

  lemma SetIsUnassigningIdempotent(s: ViewState, b: bool, w: Widgets)
    ensures SetIsUnassigning(SetIsUnassigning(s, b, w).state, b, w).state == SetIsUnassigning(s, b, w).state
  {
  }

  // ---------------------------------------------------------------- labeling and the label cache

  /** The label prefill names every current label, each followed by ", ", ready for the next. */
  lemma LabelPrefillTerminated(labels: seq<Label>)
    ensures LabelPrefill(labels) == Terminated(LabelNames(labels), ", ")
    ensures |labels| == 0 ==> LabelPrefill(labels) == ""
  {
    JoinWithTrailingEmpty(LabelNames(labels), ", ");
  }

  /** Entering labeling with the repository's labels cached shows them at once and fetches
      nothing. */
  lemma EnterLabelingCached(s: ViewState, w: Widgets)
    requires s.issue.Some? && s.issue.value.repoNameWithOwner in s.labelCache
    ensures var r := SetIsLabeling(s, true, w); var labels := s.labelCache[s.issue.value.repoNameWithOwner];
      r.cmds == [FocusInput] && r.state.isLabeling && r.state.inputBox.focused &&
      r.state.inputBox.prompt == LabelPrompt &&
      r.state.inputBox.value == Terminated(LabelNames(s.issue.value.labels), ", ") &&
      r.state.repoLabels == labels && r.state.ac.suggestions == LabelNames(labels) && r.state.ac.visible
  {
    LabelPrefillTerminated(s.issue.value.labels);
  }

  /** Entering labeling without cached labels starts exactly one fetch, with the panel hidden
      and emptied until the labels arrive. */
  lemma EnterLabelingUncached(s: ViewState, w: Widgets)
    requires s.issue.Some? && s.issue.value.repoNameWithOwner !in s.labelCache
    ensures var r := SetIsLabeling(s, true, w);
      r.cmds == [FetchLabels, FocusInput] && r.state.isLabeling && r.state.inputBox.focused &&
      !r.state.ac.visible && r.state.ac.suggestions == [] && r.state.ac.status == FetchLoading &&
      r.state.repoLabels == s.repoLabels
  {
  }

  /** Switching labeling off closes and empties the panel and fetches nothing. */
  lemma LeaveLabeling(s: ViewState, w: Widgets)
    requires s.issue.Some?
    ensures var r := SetIsLabeling(s, false, w);
      r.cmds == [] && !r.state.isLabeling && !r.state.ac.visible && r.state.ac.suggestions == []
  {
  }

  /** The refresh key while labeling drops the repository's cached labels (and only those),
      starts one fetch, and still reaches the input box. */
  lemma RefreshKeyRefetches(s: ViewState, k: KeyMsg, km: KeyMap, w: Widgets)
    requires ModeOf(s) == Labeling && IsPlainKey(k) && Matches(k, km.refreshSuggestionsKey)
    requires s.issue.Some?
    ensures var r := Update(s, Key(k), km, w); var repo := s.issue.value.repoNameWithOwner;
      r.cmds == [FetchLabels, WidgetCmd] && r.state.ac.status == FetchLoading &&
      repo !in r.state.labelCache &&
      (forall other :: other in s.labelCache && other != repo ==>
         other in r.state.labelCache && r.state.labelCache[other] == s.labelCache[other]) &&
      r.state.inputBox == w.keyInput(s.inputBox, k)
  {
  }

  /** A forced suggestion refresh while labeling evicts and fetches; an unforced one only
      fetches; outside labeling the request is ignored. */
  lemma SuggestionRequest(s: ViewState, force: bool, km: KeyMap, w: Widgets)
    ensures var r := Update(s, FetchSuggestionsRequestedMsg(force), km, w);
      (!s.isLabeling ==> r == UpdateResult(s, [], None)) &&
      (s.isLabeling ==> r.cmds == [FetchLabels] && r.state.ac.status == FetchLoading) &&
      (s.isLabeling && !force ==> r.state.labelCache == s.labelCache) &&
      (s.isLabeling && force && s.issue.Some? ==> s.issue.value.repoNameWithOwner !in r.state.labelCache)
  {
  }

  /** Arriving labels become the suggestions; the panel opens only while labeling. */
  lemma LabelsArrive(s: ViewState, labels: seq<Label>, km: KeyMap, w: Widgets)
    ensures var r := Update(s, RepoLabelsFetchedMsg(labels), km, w);
      r.state.repoLabels == labels && r.state.ac.suggestions == LabelNames(labels) &&
      r.state.ac.status == FetchSucceeded && r.cmds == [ClearFetchStatusLater] &&
      (r.state.ac.visible <==> s.isLabeling || s.ac.visible) &&
      r.state.inputBox == s.inputBox
  {
  }

  /** A failed fetch is recorded on the panel and changes nothing else. */
  lemma LabelsFail(s: ViewState, err: string, km: KeyMap, w: Widgets)
    ensures Update(s, RepoLabelsFetchFailedMsg(err), km, w) ==
      UpdateResult(s.(ac := s.ac.(status := FetchFailed(err))), [ClearFetchStatusLater], None)
  {
  }

  // ---------------------------------------------------------------- quote reply

  /** The reply text in one piece: every line break of the body continues the quote. */
  function QuoteBody(body: string): string
    decreases |body|
  {
    if |body| == 0 then ""
    else if body[0] == '\n' then "\n> " + QuoteBody(body[1..])
    else [body[0]] + QuoteBody(body[1..])
  }

  /** The body's lines, each quoted. */
  function QuotedLines(body: string): seq<string> {
    MapSeq(Split(body, '\n'), QuoteLine)
  }

  lemma {:induction false} QuotedLinesJoin(body: string)
    ensures Join(QuotedLines(body), "\n") == "> " + QuoteBody(body)
    decreases |body|
  {
    if |body| > 0 {
      var rest := Split(body[1..], '\n');
      QuotedLinesJoin(body[1..]);
      if body[0] == '\n' {
        assert Split(body, '\n') == [""] + rest;
        QuotedJoinBreak(rest, QuoteBody(body[1..]));
      } else {
        assert Split(body, '\n') == [[body[0]] + rest[0]] + rest[1..];
        QuotedJoinChar(body[0], rest, QuoteBody(body[1..]));
      }
    }
  }

  /** A line break in front starts a new quoted line. */
  lemma QuotedJoinBreak(rest: seq<string>, q: string)
    requires |rest| >= 1
    requires Join(MapSeq(rest, QuoteLine), "\n") == "> " + q
    ensures Join(MapSeq([""] + rest, QuoteLine), "\n") == "> " + ("\n> " + q)
  {
    var m := MapSeq(rest, QuoteLine);
    MapSeqCons("", rest, QuoteLine);
    assert QuoteLine("") == "> ";
    assert MapSeq([""] + rest, QuoteLine) == ["> "] + m;
    assert (["> "] + m)[1..] == m;
    assert Join(["> "] + m, "\n") == "> " + "\n" + Join(m, "\n");
  }

  /** Any other character in front joins the first quoted line. */
  lemma QuotedJoinChar(c: char, rest: seq<string>, q: string)
    requires |rest| >= 1
    requires Join(MapSeq(rest, QuoteLine), "\n") == "> " + q
    ensures Join(MapSeq([[c] + rest[0]] + rest[1..], QuoteLine), "\n") == "> " + ([c] + q)
  {
    var tail := MapSeq(rest[1..], QuoteLine);
    assert rest == [rest[0]] + rest[1..];
    MapSeqCons(rest[0], rest[1..], QuoteLine);
    MapSeqCons([c] + rest[0], rest[1..], QuoteLine);
    assert QuoteLine([c] + rest[0]) == ("> " + [c]) + rest[0];
    JoinConsHead("> " + [c], rest[0], tail, "\n");
    JoinConsHead("> ", rest[0], tail, "\n");
    var j := Join([rest[0]] + tail, "\n");
    assert "> " + j == "> " + q;
    assert j == ("> " + j)[2..];
    assert q == ("> " + q)[2..];
  }

  /** The reply text is the author line, a bare quote line, the body quoted line by line and an
      empty line to type on. */
  lemma QuoteTextShape(login: string, body: string)
    ensures QuoteText(login, body) == "> @" + login + " wrote:\n>\n" + "> " + QuoteBody(body) + "\n\n"
  {
    var head := "> @" + login + " wrote:";
    QuotedLinesJoin(body);
    assert QuoteLines(login, body) == [head, ">"] + QuotedLines(body) + ["", ""];
    QuoteFrame(head, QuotedLines(body), "> " + QuoteBody(body));
    assert head + "\n>\n" == "> @" + login + " wrote:\n>\n";
  }

  /** The joined reply around already joined quote lines. */
  lemma QuoteFrame(head: string, quoted: seq<string>, q: string)
    requires |quoted| > 0 && Join(quoted, "\n") == q
    ensures Join([head, ">"] + quoted + ["", ""], "\n") == head + "\n>\n" + q + "\n\n"
  {
    var tail := quoted + ["", ""];
    QuoteTail(quoted, q);
    LinesRegroup(head, quoted);
    JoinCons(head, [">"] + tail, "\n");
    JoinCons(">", tail, "\n");
    TextRegroup(head, q);
  }

  lemma LinesRegroup(head: string, quoted: seq<string>)
    ensures [head, ">"] + quoted + ["", ""] == [head] + ([">"] + (quoted + ["", ""]))
  {
  }

  lemma TextRegroup(head: string, q: string)
    ensures head + "\n" + (">" + "\n" + (q + "\n\n")) == head + "\n>\n" + q + "\n\n"
  {
  }

  /** The two empty lines after the quote. */
  lemma QuoteTail(quoted: seq<string>, q: string)
    requires |quoted| > 0 && Join(quoted, "\n") == q
    ensures Join(quoted + ["", ""], "\n") == q + "\n\n"
  {
    JoinAppend(quoted, ["", ""], "\n");
    JoinCons("", [""], "\n");
    assert Join(["", ""], "\n") == "\n";
  }

  /** Quote reply switches to commenting with the quote in a focused box under the reply prompt;
      read back line by line it is the quote lines. Navigation mode is not left. */
  lemma QuoteReplySeeds(s: ViewState, c: IssueComment)
    requires s.issue.Some? && '\n' !in c.author
    ensures var r := SetIsQuoteReplying(s, Some(c));
      r.cmds == [FocusInput] && r.state.isCommenting && r.state.inputBox.focused &&
      r.state.inputBox.prompt == ReplyPrompt &&
      r.state.isCommentNavMode == s.isCommentNavMode &&
      Split(r.state.inputBox.value, '\n') == QuoteLines(c.author, c.body)
  {
    var lines := QuoteLines(c.author, c.body);
    var quoted := Split(c.body, '\n');
    forall i | 0 <= i < |lines| ensures '\n' !in lines[i] {
      if 2 <= i < 2 + |quoted| {
        assert lines[i] == "> " + quoted[i - 2];
      }
    }
    SplitJoin(lines, '\n');
  }
}
