/** The admin dashboard: the pending list with approve and reject
    buttons, and the reject dialog's state. Calls into the request store
    are recorded in order; whether a call succeeds is given. */
module AdminDashboard {
  import opened Common
  import opened Requests

  /** The approve and reject buttons of a card. */
  predicate ShowsActions(r: Request)
  {
    !Truthy(r.approvedBy) && !Truthy(r.rejectReason)
  }

  /** The buttons appear exactly on cards whose badge reads Pending. */
  lemma ActionsOnPendingOnly(r: Request)
    ensures ShowsActions(r) <==> Badge(r) == Pending
    ensures ShowsActions(r) ==> JsPending(r) && !JsApproved(r) && !JsRejected(r)
  {
    BadgeMatchesFilters(r);
  }

  /** A call the page made into the request store. */
  datatype StoreCall = ClearMessages | ApproveCall(id: nat) | RejectCall(id: nat, reason: string) | FetchPending

  /** The page's state hooks and the calls it has made. */
  class Dashboard {
    var selected: Option<Request>
    var rejectReason: string
    var showRejectModal: bool
    var alerts: nat
    var calls: seq<StoreCall>

    constructor ()
      ensures selected.None? && rejectReason == "" && !showRejectModal && alerts == 0
      ensures calls == [FetchPending]
    {
      selected := None;
      rejectReason := "";
      showRejectModal := false;
      alerts := 0;
      calls := [FetchPending];
    }

    /** `handleApprove`: clears the messages, approves, and refreshes the
        list when the approval succeeds. */
    method HandleApprove(r: Request, succeeds: bool)
      modifies this
      ensures calls == old(calls) + [ClearMessages, ApproveCall(r.id)] + (if succeeds then [FetchPending] else [])
      ensures selected == old(selected) && rejectReason == old(rejectReason)
      ensures showRejectModal == old(showRejectModal) && alerts == old(alerts)
    {
      calls := calls + [ClearMessages];
      calls := calls + [ApproveCall(r.id)];
      if succeeds {
        calls := calls + [FetchPending];
      }
    }

    /** `handleRejectClick`: selects the request and opens an empty dialog. */
    method HandleRejectClick(r: Request)
      modifies this
      ensures selected == Some(r) && rejectReason == "" && showRejectModal
      ensures calls == old(calls) && alerts == old(alerts)
    {
      selected := Some(r);
      rejectReason := "";
      showRejectModal := true;
    }

    /** Typing in the dialog's text area. */
    method SetRejectReason(text: string)
      modifies this
      ensures rejectReason == text
      ensures selected == old(selected) && showRejectModal == old(showRejectModal)
      ensures calls == old(calls) && alerts == old(alerts)
    {
      rejectReason := text;
    }

    /** `handleRejectConfirm`: a blank reason raises an alert and goes no
        further; without a selection nothing happens; otherwise it rejects,
        and on success closes the dialog, clears the selection and the
        reason and refreshes the list. A failed rejection keeps the dialog. */
    method HandleRejectConfirm(succeeds: bool)
      modifies this
      ensures Trim(old(rejectReason)) == [] ==>
                alerts == old(alerts) + 1 && calls == old(calls)
                && selected == old(selected) && rejectReason == old(rejectReason) && showRejectModal == old(showRejectModal)
      ensures Trim(old(rejectReason)) != [] ==> alerts == old(alerts)
      ensures Trim(old(rejectReason)) != [] && old(selected).None? ==>
                calls == old(calls) && selected == old(selected)
                && rejectReason == old(rejectReason) && showRejectModal == old(showRejectModal)
      ensures Trim(old(rejectReason)) != [] && old(selected).Some? ==>
                var sent := [ClearMessages, RejectCall(old(selected).value.id, old(rejectReason))];
                if succeeds then
                  calls == old(calls) + sent + [FetchPending]
                  && !showRejectModal && selected.None? && rejectReason == ""
                else
                  calls == old(calls) + sent
                  && showRejectModal == old(showRejectModal) && selected == old(selected) && rejectReason == old(rejectReason)
    {
      if Trim(rejectReason) == [] {
        alerts := alerts + 1;
      } else if selected.Some? {
        var sent := [ClearMessages, RejectCall(selected.value.id, rejectReason)];
        calls := calls + sent;
        if succeeds {
          showRejectModal := false;
          selected := None;
          rejectReason := "";
          calls := calls + [FetchPending];
        }
      }
    }

    /** The dialog's Cancel button. */
    method CancelReject()
      modifies this
      ensures !showRejectModal && selected.None? && rejectReason == ""
      ensures calls == old(calls) && alerts == old(alerts)
    {
      showRejectModal := false;
      selected := None;
      rejectReason := "";
    }
  }

  /** Every rejection the page sends carries a reason that is not blank. */
  predicate ReasonsNotBlank(calls: seq<StoreCall>)
  {
    forall i :: 0 <= i < |calls| && calls[i].RejectCall? ==> Trim(calls[i].reason) != []
  }

  /** Opening the dialog, typing and confirming sends the typed reason only
      when it is not blank, and keeps every sent reason non-blank. */
  method RejectSession(d: Dashboard, r: Request, text: string, succeeds: bool)
    requires ReasonsNotBlank(d.calls)
    modifies d
    ensures ReasonsNotBlank(d.calls)
    ensures Trim(text) == [] ==> d.calls == old(d.calls) && d.showRejectModal
    ensures Trim(text) != [] ==> |d.calls| >= |old(d.calls)| + 2 && d.calls[|old(d.calls)| + 1] == RejectCall(r.id, text)
  {
    d.HandleRejectClick(r);
    d.SetRejectReason(text);
    d.HandleRejectConfirm(succeeds);
  }
}
