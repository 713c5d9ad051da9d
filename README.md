# gh-dash issue view, activity feeds and editor comments in Dafny

This project models four parts of gh-dash, the terminal dashboard for GitHub pull requests and issues:

- **The issue detail view** (`issueview.Model`). It routes key presses between six modes: commenting, labeling, assigning, unassigning, comment navigation and browsing. It holds the input box and the label autocomplete, and it reads the `data` package's label cache (`GetCachedRepoLabels`) and evicts entries from it (`ClearRepoLabelCache`). Its setters enter and leave each text mode. In comment-navigation mode the user walks the issue's comments in time order and can start a quote reply to the selected one. In browsing mode keys are only translated into `IssueAction` requests for the parent.
- **The issue activity feed.** Comments are sorted by update time and rendered one card each. The selected card gets the primary border.
- **The pull-request activity feed.** Review-thread comments are tagged with their file and line, and the top-level comments follow them. The comments are sorted by time and rendered, the reviews are rendered in the order they arrive, and all cards are merged into one feed sorted oldest first. At most the selected comment is highlighted.
- **Commenting from an external editor.** The editor is chosen from `$EDITOR`/`$VISUAL`. A temporary file is seeded with a three-line `#` header. When the editor exits, the non-`#` lines become the comment body. The submission runs `gh … comment` as a task whose finishing message updates the section.

Layout:

- `wrappers.dfy` — `Option` and `Result`.
- `go_strings.dfy` — `GoStrings`, the string functions of Go's standard library that the core calls (`strings.Split`, `Join`, `Fields`, `TrimSpace`, `Trim`, `HasPrefix` and decimal formatting with `%d`), each with the properties the core relies on.
- `sorting.dfy` — `Sorting`, a sort by an integer key that stands in for `sort.Slice`.
- `render.dfy` — `Render`, the border choice and the abstract Markdown renderer.
- `action.dfy` — `IssueAction`, the action enum.
- `issueview_state.dfy` — `IssueViewState`, the view's state as a value and every operation on it as a function.
- `issueview.dfy` — `IssueView`, the `Model` class. Each method modifies the fields and is proved to take the state to what the matching `IssueViewState` function computes. The loops of `GetSelectedComment`, `issueAssignees` and `userAssignedToIssue` are kept.
- `issueview_props.dfy` — `IssueViewProps`, the properties of the issue view.
- `issue_activity.dfy` — `IssueActivity`.
- `pr_activity.dfy` — `PrActivity`.
- `editor_comment.dfy` — `EditorComment`.

The widgets the view drives are passed in as a `Widgets` record of functions:

- the text box's key handling;
- the autocomplete's reset;
- `labelAtCursor` and `allLabels`.

The comment cleanup and the Markdown renderer are passed in as a `Renderer` record. The environment, the temporary file, the editor process and the `gh` invocation are parameters or returned commands.

## Model

| member | source | states |
|---|---|---|
| IssueAction.Ordinal | internal/tui/components/issueview/action.go:4-19 | every action type has an ordinal below the number of constants in the iota block |
| IssueAction.FromOrdinal | internal/tui/components/issueview/action.go:4-19 | an integer names an action type exactly when it is in range, and then it is that type's ordinal |
| IssueAction.OrdinalRoundTrip | internal/tui/components/issueview/action.go:4-19 | reading back an action type's ordinal gives the same type |
| IssueAction.OrdinalsDistinct | internal/tui/components/issueview/action.go:4-19 | distinct action types have distinct ordinals, and only IssueActionNone is the zero value |
| IssueView.Model.constructor | internal/tui/components/issueview/issueview.go:59-84 | a new view has no issue, every mode off, no selected comment (-1), a reset input box and a hidden autocomplete |
| IssueView.Model.Update | internal/tui/components/issueview/issueview.go:86-287 | the fields become the state the message produces, and the returned commands and action are the ones for that message |
| IssueView.Model.SetRow | internal/tui/components/issueview/issueview.go:413-430 | the new state is the one SetRow computes: same issue URL keeps navigation, otherwise it resets |
| IssueView.Model.IsTextInputBoxFocused | internal/tui/components/issueview/issueview.go:432-434 | true exactly in the four text modes |
| IssueView.Model.GetNumComments | internal/tui/components/issueview/issueview.go:652-657 | the number of the issue's comments, 0 without an issue |
| IssueView.Model.EnterCommentNavMode | internal/tui/components/issueview/issueview.go:440-449 | the fields become the state EnterCommentNavMode computes |
| IssueView.Model.ExitCommentNavMode | internal/tui/components/issueview/issueview.go:451-454 | the fields become the state ExitCommentNavMode computes |
| IssueView.Model.SelectNextComment | internal/tui/components/issueview/issueview.go:663-671 | the fields become the state SelectNextComment computes |
| IssueView.Model.SelectPrevComment | internal/tui/components/issueview/issueview.go:673-679 | the fields become the state SelectPrevComment computes |
| IssueView.Model.ResetCommentSelection | internal/tui/components/issueview/issueview.go:681-683 | only the selected index changes, to -1 |
| IssueView.Model.GetSelectedComment | internal/tui/components/issueview/issueview.go:685-708 | the result is the selected comment of the comments sorted by update time, None when no comment is selected |
| IssueView.NthByTime | internal/tui/components/issueview/issueview.go:699-707 | the n-th comment after sorting by update time |
| IssueView.IndexAll | internal/tui/components/issueview/issueview.go:699-707 | pairs each comment with its position and loses none |
| IssueView.Model.ShouldCancelComment | internal/tui/components/issueview/issueview.go:477-488 | the answer and the new state are the ones shouldCancelComment computes |
| IssueView.Model.SetIsCommenting | internal/tui/components/issueview/issueview.go:490-507 | the new state and commands are the ones SetIsCommenting computes |
| IssueView.Model.UserAssignedToIssue | internal/tui/components/issueview/issueview.go:606-613 | true exactly when the login is among the issue's assignees |
| IssueView.Model.SetIsAssigning | internal/tui/components/issueview/issueview.go:527-546 | the new state and commands are the ones SetIsAssigning computes |
| IssueView.Model.IssueAssignees | internal/tui/components/issueview/issueview.go:638-644 | the assignees' logins, in order |
| IssueView.Model.SetIsUnassigning | internal/tui/components/issueview/issueview.go:619-636 | the new state and commands are the ones SetIsUnassigning computes |
| IssueView.Model.FetchLabels | internal/tui/components/issueview/issueview.go:591-604 | the autocomplete shows the loading status and one label-fetch command is returned |
| IssueView.Model.SetIsLabeling | internal/tui/components/issueview/issueview.go:548-588 | the new state and commands are the ones SetIsLabeling computes |
| IssueView.Model.PrepareLabeling | internal/tui/components/issueview/issueview.go:553-568 | the mode flag, prompt, prefilled label list and the hidden, emptied autocomplete are the ones SetIsLabeling sets before the cache lookup |
| IssueView.Model.ShowLabelSuggestions | internal/tui/components/issueview/issueview.go:570-588 | a cache hit shows the cached labels as suggestions; a miss starts a fetch |
| IssueView.Model.SetIsQuoteReplying | internal/tui/components/issueview/issueview.go:710-739 | the new state and commands are the ones SetIsQuoteReplying computes |
| IssueViewProps.NavigationKeepsSelectionInRange | internal/tui/components/issueview/issueview.go:440-454 | entering, leaving and moving within navigation keep the selected index at -1 or on an existing comment |
| IssueViewProps.EnterCommentNavModeSelects | internal/tui/components/issueview/issueview.go:440-449 | with no comments nothing changes; otherwise navigation is on with a non-negative selection, in range when the old one was; for every state a non-negative index is kept and nothing but the two navigation fields changes |
| IssueViewProps.ExitCommentNavModeClears | internal/tui/components/issueview/issueview.go:451-454 | after leaving navigation no comment is selected |
| IssueViewProps.SelectNextClamps | internal/tui/components/issueview/issueview.go:663-671 | next moves one forward and stops at the last comment |
| IssueViewProps.SelectPrevClamps | internal/tui/components/issueview/issueview.go:673-679 | previous moves one back and stops at the first comment |
| IssueViewProps.NextPrevInverse | internal/tui/components/issueview/issueview.go:663-679 | away from the ends, next then previous (and previous then next) restore the state |
| IssueViewProps.NavigationWalk | internal/tui/components/issueview/issueview_test.go:56-111 | on three comments the walk enter, next×3, prev×3, exit gives indices 0,1,2,2,1,0,0 and then -1 |
| IssueViewProps.NoCommentsNoNavigation | internal/tui/components/issueview/issueview_test.go:73-81 | with no comments, navigation cannot be entered |
| IssueViewProps.SelectedCommentDefined | internal/tui/components/issueview/issueview.go:685-708 | a comment is selected exactly when there is an issue and the index is in range, and it is one of the issue's comments |
| IssueViewProps.SelectedCommentInArrivalOrder | internal/tui/components/issueview/issueview_test.go:113-129 | when the comments are already in time order, the selected comment is the one at the index |
| IssueViewProps.SetRowSameIssueKeepsNavigation | internal/tui/components/issueview/issueview.go:413-430 | the same URL replaces only the issue data |
| IssueViewProps.SetRowOtherIssueResetsNavigation | internal/tui/components/issueview/issueview.go:413-430 | another issue (or none) also leaves navigation and clears the selection |
| IssueViewProps.SetRowKeepsStaleSelection | internal/tui/components/issueview/issueview.go:413-430 | same-URL data with fewer comments keeps an index that no longer names a comment |
| IssueViewProps.CommentingShadowsLowerModes | internal/tui/components/issueview/issueview.go:127-159 | while commenting, the labeling, assigning, unassigning and navigation flags do not affect a key's commands or action, and the new state differs only in those flags |
| IssueViewProps.LabelingShadowsLowerModes | internal/tui/components/issueview/issueview.go:160-201 | while labeling (not commenting), the assigning, unassigning and navigation flags do not affect a key's commands or action, and the new state differs only in those flags |
| IssueViewProps.BrowsingKeyOnlyAsks | internal/tui/components/issueview/issueview.go:256-276 | in browsing mode a key changes nothing and issues no command |
| IssueViewProps.BrowsingActionKinds | internal/tui/components/issueview/issueview.go:256-276 | browsing yields an action exactly when one of the eight bindings matches; the first binding that matches, in the order label, assign, unassign, comment, close, reopen, navigation toggle, editor comment, gives its own action |
| IssueViewProps.BrowsingToggleAsksToEnter | internal/tui/components/issueview/issueview.go:270-271 | the navigation binding asks the parent to enter navigation mode |
| IssueViewProps.NavigationQuoteAsksForReply | internal/tui/components/issueview/issueview.go:240-255 | the quote-reply binding asks for a quote reply and changes nothing |
| IssueViewProps.NavigationToggleExits | internal/tui/components/issueview/issueview.go:240-255 | Esc or the toggle binding leaves navigation with no command and no action |
| IssueViewProps.UpdateActions | internal/tui/components/issueview/issueview.go:86-287 | an action comes only from a key in browsing or navigation, is never None/Next/Prev, is QuoteReply exactly in navigation, and leaves the state unchanged with no command |
| IssueViewProps.TextModesAskNothing | internal/tui/components/issueview/issueview.go:128-239 | while a text box is focused, no action is ever returned |
| IssueViewProps.UpdateOnlyLeavesModes | internal/tui/components/issueview/issueview.go:86-287 | no message turns a text mode on; modes are only left |
| IssueViewProps.KeyOnlyLeavesModes | internal/tui/components/issueview/issueview.go:127-276 | the same for every key in every mode |
| IssueViewProps.CommentingKeyEffects | internal/tui/components/issueview/issueview.go:128-159 | a key in commenting mode only leaves modes and never changes the issue, user or selection |
| IssueViewProps.LabelingKeyEffects | internal/tui/components/issueview/issueview.go:160-201 | a key in labeling mode only leaves modes and never changes the issue, user or selection |
| IssueViewProps.UpdateKeepsIssue | internal/tui/components/issueview/issueview.go:86-287 | no message changes the issue or the user, and only navigation changes the selection |
| IssueViewProps.KeyKeepsIssue | internal/tui/components/issueview/issueview.go:127-276 | no key changes the issue or the user, and only a key in navigation changes the selection |
| IssueViewProps.UpdateKeepsSelectionInRange | internal/tui/components/issueview/issueview.go:86-287 | every message keeps the selection at -1 or on an existing comment |
| IssueViewProps.CommentSubmit | internal/tui/components/issueview/issueview.go:130-137 | Ctrl+D leaves commenting and blurs the box; it posts the text when it holds a non-space character, and posts nothing when it is all spaces |
| IssueViewProps.AssignSubmit | internal/tui/components/issueview/issueview.go:202-220 | Ctrl+D leaves assigning; it assigns the whitespace-separated words, which are non-empty and space-free; there is no command exactly when the box is blank |
| IssueViewProps.UnassignSubmit | internal/tui/components/issueview/issueview.go:221-239 | the same for unassigning |
| IssueViewProps.LabelSubmit | internal/tui/components/issueview/issueview.go:162-170 | Ctrl+D leaves labeling, hides the autocomplete and sets the labels allLabels finds, none when it finds none |
| IssueViewProps.CancelLeavesListModes | internal/tui/components/issueview/issueview.go:172-176 | Esc/Ctrl+C leaves labeling, assigning or unassigning with no command and keeps the typed text |
| IssueViewProps.FirstCancelAsks | internal/tui/components/issueview/issueview.go:139-142 | the first Esc/Ctrl+C while commenting switches the prompt to the discard question and forwards the key |
| IssueViewProps.RepeatedCancelKeepsComposing | internal/tui/components/issueview/issueview.go:139-142 | a further Esc/Ctrl+C while the question is shown only forwards the key to the box |
| IssueViewProps.ConfirmYesDiscards | internal/tui/components/issueview/issueview.go:143-156 | "y"/"Y" while the question is shown ends commenting without posting |
| IssueViewProps.ConfirmNoResumes | internal/tui/components/issueview/issueview.go:143-156 | "n"/"N" while the question is shown restores the comment prompt and swallows the key |
| IssueViewProps.OtherKeyResumes | internal/tui/components/issueview/issueview.go:143-156 | any other key restores the comment prompt, clears the question and reaches the box |
| IssueViewProps.SubmitKeepsPendingConfirmation | internal/tui/components/issueview/issueview.go:130-137 | Ctrl+D does not clear a pending discard question, and entering commenting again does not clear it either |
| IssueViewProps.SettersNeedIssue | internal/tui/components/issueview/issueview.go:490-739 | without an issue, all five setters change nothing and return nothing |
| IssueViewProps.EnterCommenting | internal/tui/components/issueview/issueview.go:490-507 | entering commenting empties and focuses the box with the comment prompt and resets the autocomplete |
| IssueViewProps.EnterAssigning | internal/tui/components/issueview/issueview.go:527-546 | entering assigning focuses the box, prefilled with the user unless the user is already assigned |
| IssueViewProps.LeaveAssigningPrefills | internal/tui/components/issueview/issueview.go:527-546 | leaving assigning also prefills with the user when the user is not assigned |
| IssueViewProps.EnterUnassigning | internal/tui/components/issueview/issueview.go:619-636 | entering unassigning focuses the box, and its lines are the assignees' logins |
| IssueViewProps.SetIsCommentingIdempotent | internal/tui/components/issueview/issueview.go:490-507 | setting the same flag twice gives the state of setting it once |
| IssueViewProps.SetIsAssigningIdempotent | internal/tui/components/issueview/issueview.go:527-546 | the same for assigning |
| IssueViewProps.SetIsUnassigningIdempotent | internal/tui/components/issueview/issueview.go:619-636 | the same for unassigning |
| IssueViewProps.LabelPrefillTerminated | internal/tui/components/issueview/issueview.go:559-565 | the prefilled label text is every label name followed by ", ", and is empty without labels |
| IssueViewProps.EnterLabelingCached | internal/tui/components/issueview/issueview.go:548-581 | on a cache hit, labeling starts focused with the prefilled names, the cached labels become the repository labels and are shown as suggestions |
| IssueViewProps.EnterLabelingUncached | internal/tui/components/issueview/issueview.go:548-588 | on a cache miss, a fetch command precedes the focus command, the autocomplete is hidden, empty and loading, and the repository labels are kept |
| IssueViewProps.LeaveLabeling | internal/tui/components/issueview/issueview.go:548-552 | leaving labeling hides and empties the autocomplete with no command |
| IssueViewProps.RefreshKeyRefetches | internal/tui/components/issueview/issueview.go:179-185 | the refresh binding evicts only this repository's cached labels, starts a fetch and still reaches the box |
| IssueViewProps.SuggestionRequest | internal/tui/components/issueview/issueview.go:111-125 | a suggestion request only acts while labeling; a forced one evicts the repository's cache entry first |
| IssueViewProps.LabelsArrive | internal/tui/components/issueview/issueview.go:94-105 | fetched labels become the repository labels and suggestions, mark success, schedule the status clear, and show the autocomplete when labeling |
| IssueViewProps.LabelsFail | internal/tui/components/issueview/issueview.go:107-109 | a failed fetch only records the error and schedules the status clear |
| IssueViewProps.QuotedLinesJoin | internal/tui/components/issueview/issueview.go:725-731 | the quoted body lines, joined, are the body with "> " at its start and after every line break |
| IssueViewProps.QuoteTextShape | internal/tui/components/issueview/issueview.go:719-735 | the quote is the "@login wrote:" line, a ">" line, the quoted body and two line breaks |
| IssueViewProps.QuoteReplySeeds | internal/tui/components/issueview/issueview.go:710-739 | a quote reply enters commenting with the reply prompt, keeps navigation, and its lines are the header and the quoted body lines |
| IssueActivity.RenderComment | internal/tui/components/issueview/activity.go:77-103 | a card exists exactly when the renderer succeeds, carries the author and time, and has the primary border exactly when selected |
| IssueActivity.CollectActivity | internal/tui/components/issueview/activity.go:25-32 | one unrendered entry per comment, holding its time and position |
| IssueActivity.SortedActivity | internal/tui/components/issueview/activity.go:34-37 | the sorted entries are ordered by time, are a permutation of the positions, and the k-th names the k-th comment in time order |
| IssueActivity.RenderSorted | internal/tui/components/issueview/activity.go:39-49 | every entry is rendered from its own comment, selected exactly at the selected position; order and positions are kept |
| IssueActivity.RenderActivity | internal/tui/components/issueview/activity.go:21-64 | the feed has one entry per comment in time order, as a permutation; each is rendered from its comment, highlighted only at the selected index; the empty state shows exactly when there are no comments |
| IssueActivity.ActivityBodyOf | internal/tui/components/issueview/activity.go:51-61 | the empty state exactly for no entries, otherwise the cards in order |
| IssueActivity.CardsOf | internal/tui/components/issueview/activity.go:51-57 | the cards of the entries, in order |
| IssueActivity.AtMostOneHighlight | internal/tui/components/issueview/activity.go:39-49 | a rendered card has the primary border exactly at the selected position |
| IssueActivity.HighlightIsSelectedComment | internal/tui/components/issueview/issueview.go:685-708 | the highlighted card shows the same comment GetSelectedComment returns |
| PrActivity.Tagged | internal/tui/components/prview/activity.go:35-47 | each thread comment carries its thread's path and line |
| PrActivity.ThreadComments | internal/tui/components/prview/activity.go:35-47 | every comment of every thread, each with a path and a line |
| PrActivity.TopLevel | internal/tui/components/prview/activity.go:49-55 | top-level comments, without path or line |
| PrActivity.FileRef | internal/tui/components/prview/activity.go:139-151 | a file reference is shown exactly when both path and line are known |
| PrActivity.FileRefDetermines | internal/tui/components/prview/activity.go:139-151 | for '#'-free paths, the reference text determines the path and the line |
| PrActivity.ReviewDecisionRoundTrip | internal/tui/components/prview/activity.go:184-197 | exactly the four review states get a glyph, and the glyph gives the state back |
| PrActivity.DecisionStateRoundTrip | internal/tui/components/prview/activity.go:184-197 | every glyph comes from exactly one state |
| PrActivity.RenderedComments | internal/tui/components/prview/activity.go:62-74 | rendered comments are comment cards, at most one per comment |
| PrActivity.RenderedReviews | internal/tui/components/prview/activity.go:76-86 | rendered reviews are review cards, at most one per review |
| PrActivity.RenderComments | internal/tui/components/prview/activity.go:62-74 | the loop produces the rendered comments |
| PrActivity.RenderReviews | internal/tui/components/prview/activity.go:76-86 | the loop produces the rendered reviews |
| PrActivity.Cards | internal/tui/components/prview/activity.go:92-104 | the cards of the feed, in order |
| PrActivity.CollectComments | internal/tui/components/prview/activity.go:35-55 | thread comments, then top-level comments |
| PrActivity.CollectThreads | internal/tui/components/prview/activity.go:35-47 | the loops produce every thread's tagged comments |
| PrActivity.TagThread | internal/tui/components/prview/activity.go:37-46 | the inner loop tags each comment of one thread |
| PrActivity.CollectTopLevel | internal/tui/components/prview/activity.go:49-55 | the loop produces the top-level comments |
| PrActivity.CollectedShape | internal/tui/components/prview/activity.go:35-55 | the collected comments are the thread comments (with file data) followed by the top-level ones |
| PrActivity.RenderActivity | internal/tui/components/prview/activity.go:23-107 | an unenriched PR shows loading; otherwise the feed is sorted by time and is a permutation of all rendered comments and reviews, "no comments" shows exactly when it is empty, and the count is its length |
| PrActivity.HighlightCountPermutation | internal/tui/components/prview/activity.go:88-90 | sorting the feed keeps the number of highlighted cards |
| PrActivity.HighlightExactlySelected | internal/tui/components/prview/activity.go:62-74 | exactly one comment is highlighted when navigation is on and the selected comment renders, otherwise none |
| PrActivity.HighlightIsSelected | internal/tui/components/prview/activity.go:62-74 | a highlighted card is the selected comment rendered as selected |
| PrActivity.RenderedCommentsComplete | internal/tui/components/prview/activity.go:62-74 | when every body renders, the k-th card is the k-th comment, selected exactly at the selected index |
| PrActivity.NoReviewHighlighted | internal/tui/components/prview/activity.go:163-171 | reviews are never highlighted |
| PrActivity.FeedHighlight | internal/tui/components/prview/activity.go:57-90 | the finished feed has at most one highlighted card, and only in navigation mode |
| PrActivity.FeedCount | internal/tui/components/prview/activity.go:92-104 | the counted activities are at most the comments plus the reviews |
| EditorComment.GetEditorCmd | internal/tui/modelEditorComment.go:31-39 | $EDITOR if set, else $VISUAL if set, else "vi"; never empty |
| EditorComment.SelectTarget | internal/tui/modelEditorComment.go:47-77 | in notifications the subject PR or issue is the target with section 0; elsewhere the current row in the current section, or section 0 and no type without one; nothing without a row |
| EditorComment.OpenEditorComment | internal/tui/modelEditorComment.go:41-136 | no command without a target, the temp-file error, or the chosen editor on the file seeded with the header |
| EditorComment.OnEditorExit | internal/tui/modelEditorComment.go:103-135 | the editor's error, then the read error, else the finished message whose body is the cleaned file |
| EditorComment.ExtractBody | internal/tui/modelEditorComment.go:116-125 | the loop keeps the non-'#' lines and trims the joined text |
| EditorComment.ScanLines | internal/tui/modelEditorComment.go:116-118 | scanned lines never contain a line break |
| EditorComment.KeptLines | internal/tui/modelEditorComment.go:119-123 | kept lines are lines of the file that do not start with '#' |
| EditorComment.KeptLinesComplete | internal/tui/modelEditorComment.go:119-123 | every line that does not start with '#' is kept |
| EditorComment.KeptLinesAppend | internal/tui/modelEditorComment.go:116-123 | the kept lines of two files one after the other are the kept lines of the first followed by those of the second |
| EditorComment.KeptLinesOne | internal/tui/modelEditorComment.go:119-121 | one line is kept exactly when it does not start with '#', which with KeptLinesAppend fixes the kept lines in order and with repeats |
| EditorComment.HeaderScansBack | internal/tui/modelEditorComment.go:86-97 | the seeded header scans back as three '#' lines |
| EditorComment.UneditedHeaderGivesEmptyBody | internal/tui/modelEditorComment.go:86-125 | saving the header unchanged gives an empty body |
| EditorComment.OnlyCommentsOrSpaceGiveEmptyBody | internal/tui/modelEditorComment.go:116-125 | the body is empty exactly when every line is a '#' line or blank |
| EditorComment.KeptAllSpace | internal/tui/modelEditorComment.go:119-125 | the joined kept lines are blank exactly when every line is a '#' line or blank |
| EditorComment.BodyTrimmed | internal/tui/modelEditorComment.go:125 | a non-empty body starts and ends with a non-space character |
| EditorComment.KeptLinesAll | internal/tui/modelEditorComment.go:119-123 | a file with no '#' lines keeps all its lines |
| EditorComment.DropsCommentLines | internal/tui/modelEditorComment.go:116-125 | "hello\n# ignored\nworld" gives the body "hello\nworld" |
| EditorComment.SubmitEditorComment | internal/tui/modelEditorComment.go:138-199 | the task id, texts and gh arguments for the item's kind and number; the finished message carries the section, the run error, and the new comment on the PR or the issue |
| EditorComment.KindChoice | internal/tui/modelEditorComment.go:139-144 | the kind is "issue" exactly for issues and the gh command is "pr" exactly for PRs |
| EditorComment.TaskIdInjective | internal/tui/modelEditorComment.go:146 | different items get different task ids |
| GoStrings.Split | internal/tui/components/issueview/issueview.go:725 | at least one part, and no part contains the separator |
| GoStrings.SplitJoin | internal/tui/components/issueview/issueview.go:630 | splitting separator-free parts joined by the separator gives the parts back |
| GoStrings.Fields | internal/tui/components/issueview/issueview.go:205 | see FieldsAreWords and FieldsEmpty |
| GoStrings.FieldsAreWords | internal/tui/components/issueview/issueview.go:205 | every field is non-empty and contains no white space |
| GoStrings.FieldsEmpty | internal/tui/components/issueview/issueview.go:224 | there are no fields exactly when the text is all white space |
| GoStrings.TrimChar | internal/tui/components/issueview/issueview.go:131 | the result neither starts nor ends with the character, and is empty when the text is only that character |
| GoStrings.TrimCharNonEmpty | internal/tui/components/issueview/issueview.go:131 | the trim is non-empty exactly when some other character occurs |
| GoStrings.TrimSpaceEnds | internal/tui/modelEditorComment.go:125 | a non-empty trim starts and ends with a non-space character |
| GoStrings.TrimSpaceEmpty | internal/tui/modelEditorComment.go:125 | the trim is empty exactly when the text is all white space |
| GoStrings.NatToString | internal/tui/modelEditorComment.go:146 | decimal digits only, at least one |
| GoStrings.ParseNatToString | internal/tui/modelEditorComment.go:146 | the decimal text reads back as the number |
| GoStrings.IntToStringInjective | internal/tui/modelEditorComment.go:146 | different numbers print differently |
| Sorting.SortBy | internal/tui/components/issueview/activity.go:34-37 | the sorted sequence is ordered by the key and is a permutation of the input |
| Sorting.SortByMap | internal/tui/components/issueview/issueview.go:699-706 | sorting commuted with a key-preserving mapping |
| Sorting.SortByStrictlySorted | internal/tui/components/issueview/issueview_test.go:113-129 | input already strictly ordered by the key is left as it is |
| Render.BorderFor | internal/tui/components/issueview/activity.go:80-83 | the primary border exactly for the selected card |

## Left out

- Rendering: styles, widths, heights, wrapping, `View`, the header and body renderers of the issue view, `SetWidth`, `SetSectionId`, `UpdateProgramContext` and the viewport. Comment and review cards are modelled as records of their content and border, and the Markdown renderer and `lineCleanupRegex` as the abstract `Renderer`.
- `GetCommentScrollPercent`: out because it is floating-point display arithmetic.
- The bubbles widgets: text-box editing, cursor positions, `labelAtCursor`, `allLabels`, and the autocomplete's key handling and reset. They are the parameters of `Widgets`. The spinner tick and the status-clear message only forward to the autocomplete, which is modelled as one widget command.
- The commands `m.comment`, `m.label`, `m.assign` and `m.unassign`, and the label fetch (the `gh` calls behind them). They are returned as tagged commands (`Cmd`) and are not run.
- The `data` package's label cache: the model holds a snapshot of it as a map in the view's state, given at construction. `GetCachedRepoLabels` reads the map and `ClearRepoLabelCache` removes an entry. Filling the cache happens inside `data.FetchRepoLabels`, which is not part of this model, so the model's cache never gains entries: after a successful fetch, a second `SetIsLabeling(true)` in the model misses and fetches again, where the program would find the labels cached.
- Sharing the autocomplete through the `*autocomplete.Model` pointer is not modelled: the autocomplete is a value inside the state.
- Strings are sequences of Unicode code points. Go's strings are UTF-8 bytes, and invalid UTF-8 is not modelled.
- In `IssueView.Model.Update`, Go's value receiver returns a copy, so the caller must store it back. The class method changes the fields directly, which is what storing the copy back amounts to.
- Sorting: `sort.Slice` is not stable. The model uses a deterministic insertion sort, and for equal times it claims only "ordered and a permutation", never a particular order of ties.
- Editor comments, I/O: `os.Getenv`, `os.CreateTemp`, the write and removal of the temporary file, `exec.Command`, `tea.ExecProcess` and running `gh` are parameters or returned values. `bufio.Scanner`'s 64 KiB line limit and its ignored read error are not modelled.
- Editor comments, section type: `notificationssection.SectionType` and the section lookups of the dashboard are given as a `Dashboard` record.
- Editor comments, time: `time.Now` in the finished messages is not modelled.
- The trivial getters (`GetIsCommenting`, `IsCommentNavMode`, `GetSelectedCommentIndex` and the like) are fields of `State()` and get no members of their own.
- `IssueViewState.CommentingKey`: the default branch of issueview.go:143-156 is written flattened, as one expression over the pending confirmation and the key. It has the same outcomes: a second Esc while the question is shown only forwards the key, and Ctrl+D keeps a pending question, as the code does.
- `IssueViewProps.SetRowKeepsStaleSelection`: this records the code's behaviour and claims no invariant. `SetRow` with same-URL data that has fewer comments keeps navigation and a selection index that no longer names a comment.
- `PrActivity.FeedCount`: states only an upper bound. Cards whose Markdown fails to render are dropped, so the exact count depends on the renderer.
