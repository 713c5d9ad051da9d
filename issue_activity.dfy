/**
 * The comment feed of the issue detail view: one card per comment, oldest first, with the
 * card at the selected sorted position highlighted.
 */
module IssueActivity {
  import opened Wrappers
  import opened Sorting
  import opened Render
  import opened IssueViewState

  /** A comment card: the author and update time in the header, the border, the rendered body. */
  datatype CommentCard = CommentCard(author: string, updatedAt: int, border: Border, body: string)

  /**
   * RenderedActivity. `rendered` is None while the entry has no card, which happens when its
   * rendering failed; such an entry contributes an empty string to the feed.
   */
  datatype RenderedActivity = RenderedActivity(updatedAt: int, originalIndex: int, rendered: Option<CommentCard>)

  /** The body under the title: the empty state ("No comments...") or the cards in order. */
  datatype ActivityBody = EmptyState | Cards(cards: seq<Option<CommentCard>>)

  const EmptyStateText: string := "No comments..."

  function ActivityTime(a: RenderedActivity): int { a.updatedAt }
  function OriginalIndex(a: RenderedActivity): int { a.originalIndex }
  function Rendered(a: RenderedActivity): Option<CommentCard> { a.rendered }

  /** renderComment: fails exactly when the markdown renderer fails on the cleaned body. */
  function RenderComment(c: IssueComment, r: Renderer, isSelected: bool): (card: Option<CommentCard>)
    ensures card.Some? <==> r.markdown(r.clean(c.body)).Some?
    ensures card.Some? ==> card.value.author == c.author && card.value.updatedAt == c.updatedAt
    ensures card.Some? ==> (card.value.border == PrimaryBorder <==> isSelected)
  {
    match r.markdown(r.clean(c.body))
    case None => None
    case Some(body) => Some(CommentCard(c.author, c.updatedAt, BorderFor(isSelected), body))
  }

  /** The first pass: one entry per comment, carrying its position. */
  method CollectActivity(comments: seq<IssueComment>) returns (activity: seq<RenderedActivity>)
    ensures |activity| == |comments|
    ensures forall i :: 0 <= i < |comments| ==>
      activity[i] == RenderedActivity(comments[i].updatedAt, i, None)
  {
    activity := [];
    var i := 0;
    while i < |comments|
      invariant 0 <= i <= |comments|
      invariant |activity| == i
      invariant forall j :: 0 <= j < i ==> activity[j] == RenderedActivity(comments[j].updatedAt, j, None)
    {
      activity := activity + [RenderedActivity(comments[i].updatedAt, i, None)];
      i := i + 1;
    }
  }

  /** The comment an entry stands for, read back through its position. */
  function EntryComment(comments: seq<IssueComment>, a: RenderedActivity): IssueComment {
    if 0 <= a.originalIndex < |comments| then comments[a.originalIndex].(updatedAt := a.updatedAt)
    else IssueComment("", "", a.updatedAt)
  }

  /**
   * After the sort the entries are in time order, their positions are a permutation of
   * 0..n-1, and each entry stands for the comment at the same position of the comments sorted
   * by time, which is the order GetSelectedComment indexes.
   */
  lemma {:induction false} SortedActivity(comments: seq<IssueComment>, collected: seq<RenderedActivity>)
    requires |collected| == |comments|
    requires forall i :: 0 <= i < |comments| ==> collected[i] == RenderedActivity(comments[i].updatedAt, i, None)
    ensures var sorted := SortBy(collected, ActivityTime);
      SortedBy(sorted, ActivityTime) &&
      multiset(MapSeq(sorted, OriginalIndex)) == multiset(Range(|comments|)) &&
      forall k :: 0 <= k < |sorted| ==>
        0 <= sorted[k].originalIndex < |comments| && sorted[k].rendered == None &&
        comments[sorted[k].originalIndex] == SortBy(comments, CommentTime)[k]
  {
    var sorted := SortBy(collected, ActivityTime);
    var f := (a: RenderedActivity) => EntryComment(comments, a);
    assert MapSeq(collected, OriginalIndex) == Range(|comments|);
    SortByMapPermutation(collected, ActivityTime, OriginalIndex);
    assert MapSeq(collected, f) == comments;
    SortByMap(collected, f, ActivityTime, CommentTime);
    forall k | 0 <= k < |sorted|
      ensures 0 <= sorted[k].originalIndex < |comments| && sorted[k].rendered == None &&
              comments[sorted[k].originalIndex] == SortBy(comments, CommentTime)[k]
    {
      CollectedEntry(comments, collected, sorted[k]);
      assert MapSeq(sorted, f)[k] == f(sorted[k]);
    }
  }

  /** An element of a permutation of the collected entries is one of them. */
  lemma CollectedEntry(comments: seq<IssueComment>, collected: seq<RenderedActivity>, a: RenderedActivity)
    requires |collected| == |comments|
    requires forall i :: 0 <= i < |comments| ==> collected[i] == RenderedActivity(comments[i].updatedAt, i, None)
    requires a in multiset(collected)
    ensures 0 <= a.originalIndex < |comments| && a.rendered == None
    ensures EntryComment(comments, a) == comments[a.originalIndex]
  {
    var i :| 0 <= i < |collected| && collected[i] == a;
  }

  /**
   * renderActivity over the issue's comments: the entries in time order, each with the card of
   * its comment, highlighted exactly at `selectedCommentIndex` (there is no navigation-mode
   * check, so -1 highlights nothing); the body is the empty state for no comments and the
   * entries' cards otherwise.
   */
  method RenderActivity(comments: seq<IssueComment>, selectedCommentIndex: int, r: Renderer)
    returns (activity: seq<RenderedActivity>, body: ActivityBody)
    ensures |activity| == |comments|
    ensures SortedBy(activity, ActivityTime)
    ensures multiset(MapSeq(activity, OriginalIndex)) == multiset(Range(|comments|))
    ensures forall k :: 0 <= k < |activity| ==>
      0 <= activity[k].originalIndex < |comments| &&
      comments[activity[k].originalIndex] == SortBy(comments, CommentTime)[k] &&
      activity[k].rendered == RenderComment(comments[activity[k].originalIndex], r, k == selectedCommentIndex)
    ensures body == EmptyState <==> |comments| == 0
    ensures body.Cards? ==> body.cards == MapSeq(activity, Rendered)
  {
    var collected := CollectActivity(comments);
    SortedActivity(comments, collected);
    var sorted := SortBy(collected, ActivityTime);
    activity := RenderSorted(comments, sorted, selectedCommentIndex, r);
    body := ActivityBodyOf(activity);
  }

  /** The body: the empty state for no entries, the entries' cards otherwise. */
  method ActivityBodyOf(activity: seq<RenderedActivity>) returns (body: ActivityBody)
    ensures body == EmptyState <==> |activity| == 0
    ensures body.Cards? ==> body.cards == MapSeq(activity, Rendered)
  {
    if |activity| == 0 {
      body := EmptyState;
    } else {
      var cards := CardsOf(activity);
      body := Cards(cards);
    }
  }

  /** The second loop of renderActivity: each entry, in sorted order, gets its comment's card;
      the entry at `selectedCommentIndex` is the highlighted one. A failed render leaves the
      entry without a card. */
  method RenderSorted(comments: seq<IssueComment>, sorted: seq<RenderedActivity>, selectedCommentIndex: int, r: Renderer)
    returns (activity: seq<RenderedActivity>)
    requires forall k :: 0 <= k < |sorted| ==> 0 <= sorted[k].originalIndex < |comments| && sorted[k].rendered == None
    ensures |activity| == |sorted|
    ensures forall k :: 0 <= k < |sorted| ==>
      activity[k] == sorted[k].(rendered := RenderComment(comments[sorted[k].originalIndex], r, k == selectedCommentIndex))
    ensures MapSeq(activity, OriginalIndex) == MapSeq(sorted, OriginalIndex)
    ensures SortedBy(sorted, ActivityTime) ==> SortedBy(activity, ActivityTime)
  {
    activity := sorted;
    var sortedIdx := 0;
    while sortedIdx < |activity|
      invariant 0 <= sortedIdx <= |activity| == |sorted|
      invariant forall k :: 0 <= k < sortedIdx ==>
        activity[k] == sorted[k].(rendered := RenderComment(comments[sorted[k].originalIndex], r, k == selectedCommentIndex))
      invariant forall k :: sortedIdx <= k < |activity| ==> activity[k] == sorted[k]
    {
      var origIdx := activity[sortedIdx].originalIndex;
      var comment := comments[origIdx];
      var isSelected := sortedIdx == selectedCommentIndex;
      var rendered := RenderComment(comment, r, isSelected);
      if rendered.None? {
        sortedIdx := sortedIdx + 1;
        continue;
      }
      activity := activity[sortedIdx := activity[sortedIdx].(rendered := rendered)];
      sortedIdx := sortedIdx + 1;
    }
    assert forall k :: 0 <= k < |activity| ==> ActivityTime(activity[k]) == ActivityTime(sorted[k]);
  }

  /** The loop that gathers the rendered strings for joining. */
  method CardsOf(activity: seq<RenderedActivity>) returns (cards: seq<Option<CommentCard>>)
    ensures cards == MapSeq(activity, Rendered)
  {
    cards := [];
    var i := 0;
    while i < |activity|
      invariant 0 <= i <= |activity|
      invariant cards == MapSeq(activity[..i], Rendered)
    {
      assert activity[..i + 1] == activity[..i] + [activity[i]];
      cards := cards + [activity[i].rendered];
      i := i + 1;
    }
    assert activity[..i] == activity;
  }

  /** At most one card is highlighted, and it is the one at the selected position. */
  lemma AtMostOneHighlight(comments: seq<IssueComment>, sel: int, r: Renderer, activity: seq<RenderedActivity>, k: int)
    requires forall j :: 0 <= j < |activity| ==>
      0 <= activity[j].originalIndex < |comments| &&
      activity[j].rendered == RenderComment(comments[activity[j].originalIndex], r, j == sel)
    requires 0 <= k < |activity| && activity[k].rendered.Some?
    ensures activity[k].rendered.value.border == PrimaryBorder <==> k == sel
  {
  }

  /** The highlighted card shows the comment GetSelectedComment returns for the same state. */
  lemma HighlightIsSelectedComment(s: ViewState, r: Renderer, activity: seq<RenderedActivity>)
    requires s.issue.Some?
    requires |activity| == |s.issue.value.comments|
    requires forall k :: 0 <= k < |activity| ==>
      0 <= activity[k].originalIndex < |s.issue.value.comments| &&
      s.issue.value.comments[activity[k].originalIndex] == SortBy(s.issue.value.comments, CommentTime)[k]
    ensures SelectedComment(s).Some? ==>
      s.issue.value.comments[activity[s.selectedCommentIndex].originalIndex] == SelectedComment(s).value
  {
  }
}
