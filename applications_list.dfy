/** The applications list of the dashboard: its copy of the credit flags,
    the New Application gate, the approve/reject comment dialog and which
    actions each application card offers. */
module ApplicationsList {
  import opened JsText
  import opened BrowserStorage
  import opened Eligibility

  /** The longest trimmed comment the dialog lets through. */
  const MaxCommentLength: nat := 500

  const ApprovedStatus := "APPROVED"
  const RejectedStatus := "REJECTED"

  /** What a click on New Application does: the gate either blocks the link
      (toast and redirect) or lets the link's own href take the user on. */
  datatype NewApplicationClick = Redirect(to: string, toast: string) | FollowHref

  /** handleNewApplicationClick */
  function NewApplicationOutcome(f: CreditFlags): (c: NewApplicationClick)
    ensures c == FollowHref <==> Gate(f) == Allowed
    ensures c == Redirect(CreditScorePath, NotCheckedMessage) <==> !f.hasChecked
    ensures c == Redirect(CreditScorePath, LowScoreMessage) <==> Gate(f) == ScoreTooLow
  {
    if !f.hasChecked then Redirect(CreditScorePath, NotCheckedMessage)
    else if ComparedScore(f.score) <= GateThreshold then Redirect(CreditScorePath, LowScoreMessage)
    else FollowHref
  }

  /** The New Application tooltip. */
  function NewApplicationTooltip(f: CreditFlags): (t: string)
    ensures t == "Please check your credit score first" <==> !f.hasChecked
    ensures t == "Apply for a new loan" <==> !ApplyDisabled(f)
  {
    if !f.hasChecked then "Please check your credit score first"
    else if ComparedScore(f.score) <= GateThreshold then "Your credit score is too low to apply for a loan"
    else "Apply for a new loan"
  }

  /** The New Application button is disabled exactly when a click would be
      redirected, and its tooltip then explains why. */
  lemma {:induction false} DisabledButtonRedirects(f: CreditFlags)
    ensures ApplyDisabled(f) <==> NewApplicationOutcome(f).Redirect?
    ensures ApplyDisabled(f) ==> NewApplicationTooltip(f) != "Apply for a new loan"
  {
    DisabledIffRefused(f);
  }

  /** The Submit button of the comment dialog is disabled for a comment whose
      trimmed length exceeds 500. */
  predicate SubmitDisabled(comment: string) {
    |Trim(comment)| > MaxCommentLength
  }

  /** Trimming never lengthens, so a comment of at most 500 characters can
      always be submitted, and a whitespace-only comment of any length too. */
  lemma ShortCommentsSubmit(comment: string)
    ensures |comment| <= MaxCommentLength ==> !SubmitDisabled(comment)
    ensures AllSpace(comment) ==> !SubmitDisabled(comment)
  {
    TrimEmpty(comment);
  }

  /** The call made to onStatusUpdate. */
  datatype StatusUpdate = StatusUpdate(applicationId: int, status: string, comment: string)

  /** The buttons and chips on one application card. */
  datatype Action = ViewDetails | Documents | Approve | Reject | Disburse | ViewPayEmis | LoanClosed

  /** The actions a card shows for the viewer's role and the application's status. */
  function CardActions(role: Option<string>, status: string): (acts: set<Action>)
    ensures ViewDetails in acts
    ensures Documents in acts <==> role == Some("ADMIN")
    ensures Approve in acts <==> role == Some("ADMIN") && status == "PENDING"
    ensures Reject in acts <==> Approve in acts
    ensures Disburse in acts <==> role == Some("ADMIN") && status == "APPROVED"
    ensures ViewPayEmis in acts <==> role != Some("ADMIN") && status == "DISBURSED"
    ensures LoanClosed in acts <==> role != Some("ADMIN") && status == "CLOSED"
  {
    var admin := role == Some("ADMIN");
    {ViewDetails}
      + (if admin then {Documents} else {})
      + (if admin && status == "PENDING" then {Approve, Reject} else {})
      + (if admin && status == "APPROVED" then {Disburse} else {})
      + (if !admin && status == "DISBURSED" then {ViewPayEmis} else {})
      + (if !admin && status == "CLOSED" then {LoanClosed} else {})
  }

  /** A card never offers two status-changing steps at once, and a
      non-admin is never offered one. */
  lemma StatusActionsExclusive(role: Option<string>, status: string)
    ensures !(Approve in CardActions(role, status) && Disburse in CardActions(role, status))
    ensures role != Some("ADMIN") ==> CardActions(role, status) * {Approve, Reject, Disburse, Documents} == {}
    ensures role == Some("ADMIN") ==> CardActions(role, status) * {ViewPayEmis, LoanClosed} == {}
  {
  }

  /** The component's state behind the list. */
  class ApplicationsListView {
    var flags: CreditFlags
    var commentDialogOpen: bool
    var selectedApplicationId: Option<int>
    var selectedStatus: Option<string>
    var comment: string

    predicate DialogClosedAndCleared()
      reads this
    {
      !commentDialogOpen && selectedApplicationId == None && selectedStatus == None && comment == ""
    }

    constructor ()
      ensures flags == CreditFlags(false, None) && DialogClosedAndCleared()
    {
      flags := CreditFlags(false, None);
      commentDialogOpen := false;
      selectedApplicationId := None;
      selectedStatus := None;
      comment := "";
    }

    /** checkCreditScoreStatus: the same parsing as the navigation bar. */
    method CheckCreditScoreStatus(store: Storage)
      modifies this
      ensures flags == ReadCreditFlags(store.items)
      ensures commentDialogOpen == old(commentDialogOpen) && comment == old(comment)
      ensures selectedApplicationId == old(selectedApplicationId) && selectedStatus == old(selectedStatus)
    {
      var checked := store.GetItem(HasCheckedKey) == Some("true");
      var stored := store.GetItem(CreditScoreKey);
      var parsed := if stored.Some? then ParseInt(stored.value) else None;
      flags := CreditFlags(checked, if parsed.Some? && parsed.value != 0 then parsed else None);
    }

    /** handleOpenCommentDialog */
    method OpenCommentDialog(applicationId: int, status: string)
      modifies this
      ensures commentDialogOpen && comment == ""
      ensures selectedApplicationId == Some(applicationId) && selectedStatus == Some(status)
      ensures flags == old(flags)
    {
      selectedApplicationId := Some(applicationId);
      selectedStatus := Some(status);
      comment := "";
      commentDialogOpen := true;
    }

    /** The comment field's onChange. */
    method SetComment(text: string)
      modifies this
      ensures comment == text
      ensures commentDialogOpen == old(commentDialogOpen) && flags == old(flags)
      ensures selectedApplicationId == old(selectedApplicationId) && selectedStatus == old(selectedStatus)
    {
      comment := text;
    }

    /** handleCloseCommentDialog */
    method CloseCommentDialog()
      modifies this
      ensures DialogClosedAndCleared() && flags == old(flags)
    {
      commentDialogOpen := false;
      selectedApplicationId := None;
      selectedStatus := None;
      comment := "";
    }

    /** handleSubmitComment, reachable through the Submit button only while
        it is enabled: the update is sent only when an id and a status are
        set, and the dialog is closed and cleared either way. */
    method SubmitComment() returns (update: Option<StatusUpdate>)
      requires commentDialogOpen && !SubmitDisabled(comment)
      modifies this
      ensures update.Some? <==> TruthyNumber(old(selectedApplicationId)) && Truthy(old(selectedStatus))
      ensures update.Some? ==>
        update.value == StatusUpdate(old(selectedApplicationId).value, old(selectedStatus).value, old(comment))
      ensures update.Some? ==> |Trim(update.value.comment)| <= MaxCommentLength
      ensures DialogClosedAndCleared() && flags == old(flags)
    {
      update := None;
      if TruthyNumber(selectedApplicationId) && Truthy(selectedStatus) {
        update := Some(StatusUpdate(selectedApplicationId.value, selectedStatus.value, comment));
      }
      CloseCommentDialog();
    }
  }

  /** Approving from a card: open the dialog, type, submit. The update
      carries the card's id, APPROVED and the typed comment. */
  method ApproveWithComment(view: ApplicationsListView, applicationId: int, text: string)
      returns (update: Option<StatusUpdate>)
    requires applicationId != 0 && |text| <= MaxCommentLength
    modifies view
    ensures update == Some(StatusUpdate(applicationId, ApprovedStatus, text))
    ensures view.DialogClosedAndCleared()
  {
    view.OpenCommentDialog(applicationId, ApprovedStatus);
    view.SetComment(text);
    ShortCommentsSubmit(text);
    update := view.SubmitComment();
  }
}
