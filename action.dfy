/** The actions the issue detail view hands to its owner: the output alphabet of its Update. */
module IssueAction {
  import opened Wrappers

  /** IssueActionType, in the declaration order that gives each constant its iota value. */
  datatype IssueActionType =
    | IssueActionNone
    | IssueActionLabel
    | IssueActionAssign
    | IssueActionUnassign
    | IssueActionComment
    | IssueActionClose
    | IssueActionReopen
    | IssueActionQuoteReply
    | IssueActionNextComment
    | IssueActionPrevComment
    | IssueActionEnterCommentNavMode
    | IssueActionEditorComment

  /** IssueAction: an action to be performed on the issue. */
  datatype IssueAction = IssueAction(typ: IssueActionType)

  /** The number of declared action constants. */
  const ActionCount: nat := 12

  /** The integer value iota gives each constant. */
  function Ordinal(t: IssueActionType): (n: nat)
    ensures n < ActionCount
  {
    match t
    case IssueActionNone => 0
    case IssueActionLabel => 1
    case IssueActionAssign => 2
    case IssueActionUnassign => 3
    case IssueActionComment => 4
    case IssueActionClose => 5
    case IssueActionReopen => 6
    case IssueActionQuoteReply => 7
    case IssueActionNextComment => 8
    case IssueActionPrevComment => 9
    case IssueActionEnterCommentNavMode => 10
    case IssueActionEditorComment => 11
  }

  /** The constant with a given integer value, if one is declared. */
  function FromOrdinal(n: int): (t: Option<IssueActionType>)
    ensures t.Some? <==> 0 <= n < ActionCount
    ensures t.Some? ==> Ordinal(t.value) == n
  {
    if n == 0 then Some(IssueActionNone)
    else if n == 1 then Some(IssueActionLabel)
    else if n == 2 then Some(IssueActionAssign)
    else if n == 3 then Some(IssueActionUnassign)
    else if n == 4 then Some(IssueActionComment)
    else if n == 5 then Some(IssueActionClose)
    else if n == 6 then Some(IssueActionReopen)
    else if n == 7 then Some(IssueActionQuoteReply)
    else if n == 8 then Some(IssueActionNextComment)
    else if n == 9 then Some(IssueActionPrevComment)
    else if n == 10 then Some(IssueActionEnterCommentNavMode)
    else if n == 11 then Some(IssueActionEditorComment)
    else None
  }

  /** Reading a constant's value back gives the constant. */
  lemma OrdinalRoundTrip(t: IssueActionType)
    ensures FromOrdinal(Ordinal(t)) == Some(t)
  {
  }

  /** The constants are pairwise distinct integers, and the zero value is IssueActionNone. */
  lemma OrdinalsDistinct(a: IssueActionType, b: IssueActionType)
    ensures Ordinal(a) == Ordinal(b) ==> a == b
    ensures Ordinal(a) == 0 <==> a == IssueActionNone
  {
    OrdinalRoundTrip(a);
    OrdinalRoundTrip(b);
  }
}
