/**
 * The activity feed of the pull-request detail view: review-thread comments and top-level
 * comments, sorted by time to fix their navigation positions and rendered with the selected
 * one highlighted, then merged with the whole-PR reviews and sorted again.
 */
module PrActivity {
  import opened Wrappers
  import opened GoStrings
  import opened Sorting
  import opened Render

  // ---------------------------------------------------------------- the snapshot

  /** A comment as the PR data holds it (review-thread comments and top-level comments alike). */
  datatype SourceComment = SourceComment(author: string, body: string, updatedAt: int)
  datatype ReviewThread = ReviewThread(path: string, line: int, comments: seq<SourceComment>)
  /** A whole-PR review; `state` is the review decision as the API spells it. */
  datatype Review = Review(author: string, body: string, state: string, updatedAt: int)
  /** The parts of the PR data the feed reads; the threads and comments exist once enriched. */
  datatype PrData = PrData(
    isEnriched: bool,
    reviewThreads: seq<ReviewThread>,
    comments: seq<SourceComment>,
    reviews: seq<Review>)

  /** The feed's `comment` record: review-thread comments carry their thread's path and line. */
  datatype FeedComment = FeedComment(author: string, updatedAt: int, body: string,
                                     path: Option<string>, line: Option<int>)

  function FeedTime(c: FeedComment): int { c.updatedAt }

  function TagComment(t: ReviewThread, c: SourceComment): FeedComment {
    FeedComment(c.author, c.updatedAt, c.body, Some(t.path), Some(t.line))
  }

  function PlainComment(c: SourceComment): FeedComment {
    FeedComment(c.author, c.updatedAt, c.body, None, None)
  }

  // ---------------------------------------------------------------- collecting

  /** The comments of one thread, in order, tagged with the thread's path and line. */
  function Tagged(t: ReviewThread, cs: seq<SourceComment>): (r: seq<FeedComment>)
    ensures |r| == |cs|
    ensures forall i :: 0 <= i < |cs| ==> r[i] == TagComment(t, cs[i])
  {
    if |cs| == 0 then [] else Tagged(t, cs[..|cs| - 1]) + [TagComment(t, cs[|cs| - 1])]
  }

  /** The number of review-thread comments over all threads. */
  function ThreadCommentCount(ts: seq<ReviewThread>): nat {
    if |ts| == 0 then 0 else ThreadCommentCount(ts[..|ts| - 1]) + |ts[|ts| - 1].comments|
  }

  /** Every thread's comments, thread after thread. */
  function ThreadComments(ts: seq<ReviewThread>): (r: seq<FeedComment>)
    ensures |r| == ThreadCommentCount(ts)
    ensures forall i :: 0 <= i < |r| ==> r[i].path.Some? && r[i].line.Some?
  {
    if |ts| == 0 then []
    else ThreadComments(ts[..|ts| - 1]) + Tagged(ts[|ts| - 1], ts[|ts| - 1].comments)
  }

  /** The top-level comments, in order, untagged. */
  function TopLevel(cs: seq<SourceComment>): (r: seq<FeedComment>)
    ensures |r| == |cs|
    ensures forall i :: 0 <= i < |cs| ==> r[i] == PlainComment(cs[i])
  {
    if |cs| == 0 then [] else TopLevel(cs[..|cs| - 1]) + [PlainComment(cs[|cs| - 1])]
  }

  /** What the two collecting loops produce, before the first sort. */
  function Collected(pr: PrData): seq<FeedComment> {
    ThreadComments(pr.reviewThreads) + TopLevel(pr.comments)
  }

  // ---------------------------------------------------------------- rendering

  /** renderReviewDecision: the glyph for a review state. */
  datatype Glyph = WaitingGlyph | CommentedGlyph | SuccessGlyph | FailureGlyph | NoGlyph

  function ReviewDecision(state: string): Glyph {
    if state == "PENDING" then WaitingGlyph
    else if state == "COMMENTED" then CommentedGlyph
    else if state == "APPROVED" then SuccessGlyph
    else if state == "CHANGES_REQUESTED" then FailureGlyph
    else NoGlyph
  }

  /** The state a glyph stands for; NoGlyph stands for every other state. */
  function DecisionState(g: Glyph): Option<string> {
    match g
    case WaitingGlyph => Some("PENDING")
    case CommentedGlyph => Some("COMMENTED")
    case SuccessGlyph => Some("APPROVED")
    case FailureGlyph => Some("CHANGES_REQUESTED")
    case NoGlyph => None
  }

  /** The comment header's file reference `path#lLINE`, shown only when both parts are present. */
  function FileRef(c: FeedComment): (ref: Option<string>)
    ensures ref.Some? <==> c.path.Some? && c.line.Some?
  {
    if c.path.Some? && c.line.Some? then Some(c.path.value + "#l" + IntToString(c.line.value)) else None
  }

  /** A rendered entry: a comment card (header with author, time, border and file reference,
      then the rendered body) or a review card (decision glyph, author, time, rendered body). */
  datatype Rendered =
    | CommentCard(author: string, updatedAt: int, border: Border, fileRef: Option<string>, body: string)
    | ReviewCard(glyph: Glyph, author: string, updatedAt: int, body: string)

  /** RenderedActivity */
  datatype RenderedActivity = RenderedActivity(updatedAt: int, rendered: Rendered, isComment: bool)

  function ActivityTime(a: RenderedActivity): int { a.updatedAt }
  function RenderedOf(a: RenderedActivity): Rendered { a.rendered }

  /** renderComment: the cleaned body through the markdown renderer, which may fail. */
  function RenderComment(c: FeedComment, r: Renderer, isSelected: bool): Option<Rendered> {
    match r.markdown(r.clean(c.body))
    case None => None
    case Some(body) => Some(CommentCard(c.author, c.updatedAt, BorderFor(isSelected), FileRef(c), body))
  }

  /** renderReview: the body goes to the markdown renderer without the clean-up. */
  function RenderReview(rv: Review, r: Renderer): Option<Rendered> {
    match r.markdown(rv.body)
    case None => None
    case Some(body) => Some(ReviewCard(ReviewDecision(rv.state), rv.author, rv.updatedAt, body))
  }

  /** A card is highlighted when it is a comment card with the primary border. */
  predicate Highlighted(a: RenderedActivity) {
    a.rendered.CommentCard? && a.rendered.border == PrimaryBorder
  }

  /** The comment-rendering loop over the sorted comments: the position in `sorted` decides the
      highlight; a comment whose render fails is left out. */
  function RenderedComments(sorted: seq<FeedComment>, nav: bool, sel: int, r: Renderer): (acts: seq<RenderedActivity>)
    ensures |acts| <= |sorted|
    ensures forall k :: 0 <= k < |acts| ==> acts[k].isComment && acts[k].rendered.CommentCard?
  {
    if |sorted| == 0 then []
    else
      var idx := |sorted| - 1;
      var c := sorted[idx];
      RenderedComments(sorted[..idx], nav, sel, r) +
        match RenderComment(c, r, nav && idx == sel)
        case None => []
        case Some(card) => [RenderedActivity(c.updatedAt, card, true)]
  }

  /** The review-rendering loop: a review whose render fails is left out. */
  function RenderedReviews(reviews: seq<Review>, r: Renderer): (acts: seq<RenderedActivity>)
    ensures |acts| <= |reviews|
    ensures forall k :: 0 <= k < |acts| ==> !acts[k].isComment && acts[k].rendered.ReviewCard?
  {
    if |reviews| == 0 then []
    else
      var rv := reviews[|reviews| - 1];
      RenderedReviews(reviews[..|reviews| - 1], r) +
        match RenderReview(rv, r)
        case None => []
        case Some(card) => [RenderedActivity(rv.updatedAt, card, false)]
  }

  /** Everything that enters the final sort. */
  function AllActivities(pr: PrData, nav: bool, sel: int, r: Renderer): seq<RenderedActivity> {
    RenderedComments(SortBy(Collected(pr), FeedTime), nav, sel, r) + RenderedReviews(pr.reviews, r)
  }

  /** What the feed shows: "Loading..." before enrichment, "No comments..." for an empty feed,
      otherwise the title with its count and the cards in order. */
  datatype ActivityView = Loading | NoComments | Feed(count: nat, cards: seq<Rendered>)

  const LoadingText: string := "Loading..."
  const EmptyStateText: string := "No comments..."

  // ---------------------------------------------------------------- renderActivity

  method RenderActivity(pr: PrData, isCommentNavMode: bool, selectedCommentIndex: int, r: Renderer)
    returns (activities: seq<RenderedActivity>, view: ActivityView)
    ensures view == Loading <==> !pr.isEnriched
    ensures !pr.isEnriched ==> activities == []
    ensures pr.isEnriched ==>
      SortedBy(activities, ActivityTime) &&
      multiset(activities) == multiset(AllActivities(pr, isCommentNavMode, selectedCommentIndex, r))
    ensures pr.isEnriched ==> (view == NoComments <==> |activities| == 0)
    ensures view.Feed? ==> view.count == |activities| && view.cards == MapSeq(activities, RenderedOf)
  {
    if !pr.isEnriched {
      return [], Loading;
    }
    var comments := CollectComments(pr);
    comments := SortBy(comments, FeedTime);
    var renderedComments := RenderComments(comments, isCommentNavMode, selectedCommentIndex, r);
    var renderedReviews := RenderReviews(pr.reviews, r);
    activities := SortBy(renderedComments + renderedReviews, ActivityTime);
    if |activities| == 0 {
      view := NoComments;
    } else {
      var cards := Cards(activities);
      view := Feed(|activities|, cards);
    }
  }

  /** The comment-rendering loop of renderActivity. */
  method RenderComments(comments: seq<FeedComment>, isCommentNavMode: bool, selectedCommentIndex: int, r: Renderer)
    returns (activities: seq<RenderedActivity>)
    ensures activities == RenderedComments(comments, isCommentNavMode, selectedCommentIndex, r)
  {
    activities := [];
    var idx := 0;
    while idx < |comments|
      invariant 0 <= idx <= |comments|
      invariant activities == RenderedComments(comments[..idx], isCommentNavMode, selectedCommentIndex, r)
    {
      var c := comments[idx];
      assert comments[..idx + 1][..idx] == comments[..idx];
      var isSelected := isCommentNavMode && idx == selectedCommentIndex;
      var renderedComment := RenderComment(c, r, isSelected);
      if renderedComment.None? {
        idx := idx + 1;
        continue;
      }
      activities := activities + [RenderedActivity(c.updatedAt, renderedComment.value, true)];
      idx := idx + 1;
    }
    assert comments[..idx] == comments;
  }

  /** The review-rendering loop of renderActivity. */
  method RenderReviews(reviews: seq<Review>, r: Renderer) returns (activities: seq<RenderedActivity>)
    ensures activities == RenderedReviews(reviews, r)
  {
    activities := [];
    var i := 0;
    while i < |reviews|
      invariant 0 <= i <= |reviews|
      invariant activities == RenderedReviews(reviews[..i], r)
    {
      var review := reviews[i];
      assert reviews[..i + 1][..i] == reviews[..i];
      var renderedReview := RenderReview(review, r);
      if renderedReview.None? {
        i := i + 1;
        continue;
      }
      activities := activities + [RenderedActivity(review.updatedAt, renderedReview.value, false)];
      i := i + 1;
    }
    assert reviews[..i] == reviews;
  }

  /** The loop that gathers the rendered strings for joining. */
  method Cards(activities: seq<RenderedActivity>) returns (cards: seq<Rendered>)
    ensures cards == MapSeq(activities, RenderedOf)
  {
    cards := [];
    var k := 0;
    while k < |activities|
      invariant 0 <= k <= |activities|
      invariant cards == MapSeq(activities[..k], RenderedOf)
    {
      assert activities[..k + 1] == activities[..k] + [activities[k]];
      cards := cards + [activities[k].rendered];
      k := k + 1;
    }
    assert activities[..k] == activities;
  }

  /** The two collecting loops: every thread's comments tagged, then the top-level ones. */
  method CollectComments(pr: PrData) returns (comments: seq<FeedComment>)
    ensures comments == Collected(pr)
  {
    comments := CollectThreads(pr.reviewThreads);
    var top := CollectTopLevel(pr.comments);
    comments := comments + top;
  }

  /** The outer loop over the review threads. */
  method CollectThreads(threads: seq<ReviewThread>) returns (comments: seq<FeedComment>)
    ensures comments == ThreadComments(threads)
  {
    comments := [];
    var t := 0;
    while t < |threads|
      invariant 0 <= t <= |threads|
      invariant comments == ThreadComments(threads[..t])
    {
      var tagged := TagThread(threads[t]);
      comments := comments + tagged;
      assert threads[..t + 1][..t] == threads[..t];
      t := t + 1;
    }
    assert threads[..t] == threads;
  }

  /** The inner loop: one thread's comments, each tagged with the thread's path and line. */
  method TagThread(thread: ReviewThread) returns (comments: seq<FeedComment>)
    ensures comments == Tagged(thread, thread.comments)
  {
    var cs := thread.comments;
    comments := [];
    var j := 0;
    while j < |cs|
      invariant 0 <= j <= |cs|
      invariant comments == Tagged(thread, cs[..j])
    {
      assert cs[..j + 1][..j] == cs[..j];
      comments := comments + [FeedComment(cs[j].author, cs[j].updatedAt, cs[j].body, Some(thread.path), Some(thread.line))];
      j := j + 1;
    }
    assert cs[..j] == cs;
  }

  /** The loop over the top-level comments, which carry no file reference. */
  method CollectTopLevel(top: seq<SourceComment>) returns (comments: seq<FeedComment>)
    ensures comments == TopLevel(top)
  {
    comments := [];
    var i := 0;
    while i < |top|
      invariant 0 <= i <= |top|
      invariant comments == TopLevel(top[..i])
    {
      assert top[..i + 1][..i] == top[..i];
      comments := comments + [FeedComment(top[i].author, top[i].updatedAt, top[i].body, None, None)];
      i := i + 1;
    }
    assert top[..i] == top;
  }

  // ---------------------------------------------------------------- properties

  /** Each of the four known review states has its own glyph and is read back from it;
      every other state gets no glyph. */
  lemma ReviewDecisionRoundTrip(state: string)
    ensures ReviewDecision(state) != NoGlyph <==>
      state in {"PENDING", "COMMENTED", "APPROVED", "CHANGES_REQUESTED"}
    ensures ReviewDecision(state) != NoGlyph ==> DecisionState(ReviewDecision(state)) == Some(state)
  {
  }

  /** The other direction: every glyph but NoGlyph is the decision of the state it stands for. */
  lemma DecisionStateRoundTrip(g: Glyph)
    ensures g != NoGlyph ==> DecisionState(g).Some? && ReviewDecision(DecisionState(g).value) == g
  {
  }

  /** For paths without '#', the file reference determines both the path and the line. */
  lemma FileRefDetermines(a: FeedComment, b: FeedComment)
    requires a.path.Some? && a.line.Some? && b.path.Some? && b.line.Some?
    requires '#' !in a.path.value && '#' !in b.path.value
    ensures FileRef(a) == FileRef(b) ==> a.path == b.path && a.line == b.line
  {
    if FileRef(a) == FileRef(b) {
      var s := FileRef(a).value;
      var p, q := a.path.value, b.path.value;
      FirstHash(p, IntToString(a.line.value));
      FirstHash(q, IntToString(b.line.value));
      assert |p| == |q|;
      assert p == s[..|p|] == q;
      assert IntToString(a.line.value) == s[|p| + 2..] == IntToString(b.line.value);
      IntToStringInjective(a.line.value, b.line.value);
    }
  }

  /** In `path#lN` with no '#' in the path, the first '#' ends the path. */
  lemma FirstHash(path: string, n: string)
    requires '#' !in path
    ensures (path + "#l" + n)[|path|] == '#'
    ensures forall i :: 0 <= i < |path| ==> (path + "#l" + n)[i] != '#'
  {
    assert forall i :: 0 <= i < |path| ==> (path + "#l" + n)[i] == path[i];
  }

  /** The first collecting pass: the thread comments, tagged, come before the top-level
      comments, which are untagged and keep their order. */
  lemma CollectedShape(pr: PrData)
    ensures |Collected(pr)| == ThreadCommentCount(pr.reviewThreads) + |pr.comments|
    ensures forall k :: 0 <= k < ThreadCommentCount(pr.reviewThreads) ==>
      FileRef(Collected(pr)[k]).Some?
    ensures forall k :: 0 <= k < |pr.comments| ==>
      Collected(pr)[ThreadCommentCount(pr.reviewThreads) + k] == PlainComment(pr.comments[k])
  {
  }

  /** The number of highlighted cards. */
  function HighlightCount(acts: seq<RenderedActivity>): nat {
    if |acts| == 0 then 0
    else HighlightCount(acts[..|acts| - 1]) + (if Highlighted(acts[|acts| - 1]) then 1 else 0)
  }

  lemma {:induction false} HighlightCountConcat(a: seq<RenderedActivity>, b: seq<RenderedActivity>)
    ensures HighlightCount(a + b) == HighlightCount(a) + HighlightCount(b)
    decreases |b|
  {
    if |b| > 0 {
      assert (a + b)[..|a + b| - 1] == a + b[..|b| - 1];
      HighlightCountConcat(a, b[..|b| - 1]);
    } else {
      assert a + b == a;
    }
  }

  /** Sorting does not change how many cards are highlighted. */
  lemma {:induction false} HighlightCountPermutation(a: seq<RenderedActivity>, b: seq<RenderedActivity>)
    requires multiset(a) == multiset(b)
    ensures HighlightCount(a) == HighlightCount(b)
    decreases |a|
  {
    if |a| == 0 {
      assert |b| == |multiset(b)| == 0;
    } else {
      var x := a[|a| - 1];
      assert a == a[..|a| - 1] + [x];
      assert x in multiset(b);
      var j :| 0 <= j < |b| && b[j] == x;
      assert b == b[..j] + [x] + b[j + 1..];
      var rest := b[..j] + b[j + 1..];
      assert multiset(b) == multiset(b[..j]) + multiset{x} + multiset(b[j + 1..]);
      assert multiset(a) == multiset(a[..|a| - 1]) + multiset{x};
      assert multiset(rest) == multiset(b[..j]) + multiset(b[j + 1..]);
      assert multiset(rest) == multiset(b) - multiset{x};
      assert multiset(a[..|a| - 1]) == multiset(a) - multiset{x};
      HighlightCountPermutation(a[..|a| - 1], rest);
      HighlightCountConcat(b[..j] + [x], b[j + 1..]);
      HighlightCountConcat(b[..j], [x]);
      HighlightCountConcat(b[..j], b[j + 1..]);
      assert HighlightCount([x]) == HighlightCount(a) - HighlightCount(a[..|a| - 1]) by {
        assert [x][..0] == [];
        assert a[..|a| - 1] == a[..|a| - 1];
      }
    }
  }

  /** At most one comment card is highlighted: exactly one when navigation is on, the selected
      position exists and its comment renders, none otherwise. */
  lemma {:induction false} HighlightExactlySelected(sorted: seq<FeedComment>, nav: bool, sel: int, r: Renderer)
    ensures HighlightCount(RenderedComments(sorted, nav, sel, r)) ==
      if nav && 0 <= sel < |sorted| && r.markdown(r.clean(sorted[sel].body)).Some? then 1 else 0
    decreases |sorted|
  {
    if |sorted| > 0 {
      var idx := |sorted| - 1;
      var prefix := RenderedComments(sorted[..idx], nav, sel, r);
      var tail := (match RenderComment(sorted[idx], r, nav && idx == sel)
        case None => []
        case Some(card) => [RenderedActivity(sorted[idx].updatedAt, card, true)]);
      assert RenderedComments(sorted, nav, sel, r) == prefix + tail;
      HighlightExactlySelected(sorted[..idx], nav, sel, r);
      HighlightCountConcat(prefix, tail);
      if |tail| == 1 {
        assert [tail[0]][..0] == [];
        assert tail == [tail[0]];
      }
    }
  }

  /** A highlighted card is the card of the comment at the selected position of the sorted
      list, whatever the comments before it did: a failed render earlier in the list does not
      move the highlight. */
  lemma {:induction false} HighlightIsSelected(sorted: seq<FeedComment>, nav: bool, sel: int, r: Renderer)
    ensures forall k ::
      (0 <= k < |RenderedComments(sorted, nav, sel, r)| && Highlighted(RenderedComments(sorted, nav, sel, r)[k]))
      ==>
      nav && 0 <= sel < |sorted| &&
      RenderComment(sorted[sel], r, true) == Some(RenderedComments(sorted, nav, sel, r)[k].rendered)
    decreases |sorted|
  {
    if |sorted| > 0 {
      var idx := |sorted| - 1;
      HighlightIsSelected(sorted[..idx], nav, sel, r);
    }
  }

  /** When every comment renders, the cards sit at their comments' positions in sorted order. */
  lemma {:induction false} RenderedCommentsComplete(sorted: seq<FeedComment>, nav: bool, sel: int, r: Renderer)
    requires forall k :: 0 <= k < |sorted| ==> r.markdown(r.clean(sorted[k].body)).Some?
    ensures |RenderedComments(sorted, nav, sel, r)| == |sorted|
    ensures forall k :: 0 <= k < |sorted| ==>
      Some(RenderedComments(sorted, nav, sel, r)[k].rendered) == RenderComment(sorted[k], r, nav && k == sel)
    decreases |sorted|
  {
    if |sorted| > 0 {
      RenderedCommentsComplete(sorted[..|sorted| - 1], nav, sel, r);
    }
  }

  /** The whole feed highlights at most one card, and only the selected comment's; reviews are
      never highlighted. */
  lemma FeedHighlight(pr: PrData, nav: bool, sel: int, r: Renderer, activities: seq<RenderedActivity>)
    requires multiset(activities) == multiset(AllActivities(pr, nav, sel, r))
    ensures HighlightCount(activities) <= 1
    ensures HighlightCount(activities) == 1 ==> nav
  {
    var sorted := SortBy(Collected(pr), FeedTime);
    var comments := RenderedComments(sorted, nav, sel, r);
    var reviews := RenderedReviews(pr.reviews, r);
    HighlightCountPermutation(activities, comments + reviews);
    HighlightCountConcat(comments, reviews);
    HighlightExactlySelected(sorted, nav, sel, r);
    NoReviewHighlighted(reviews);
  }

  lemma {:induction false} NoReviewHighlighted(acts: seq<RenderedActivity>)
    requires forall k :: 0 <= k < |acts| ==> acts[k].rendered.ReviewCard?
    ensures HighlightCount(acts) == 0
    decreases |acts|
  {
    if |acts| > 0 {
      NoReviewHighlighted(acts[..|acts| - 1]);
    }
  }

  /** The feed's title counts comments and reviews together: every rendered entry of either
      kind, and no more. */
  lemma FeedCount(pr: PrData, nav: bool, sel: int, r: Renderer)
    ensures |AllActivities(pr, nav, sel, r)| <=
      ThreadCommentCount(pr.reviewThreads) + |pr.comments| + |pr.reviews|
  {
    CollectedShape(pr);
  }
}
