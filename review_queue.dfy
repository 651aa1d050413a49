/** The pending-deposits page and the pending-withdrawals page. Both load a
    list of records, let the admin pick one with an Approve or Reject button
    in its row, ask for confirmation, send `{ isPending }` to the record's
    status endpoint and report the outcome in an alert. The two pages run
    the same handlers; they differ only in the texts, in the key of the
    response envelope, and in the deposit service refusing a falsy id
    before any request is made. */
module ReviewQueue {

  import opened JsValues
  import opened Responses

  /** The value of `confirmOpen` once a button was pressed
      (`'approve' | 'reject'`); `null` is `None`. */
  datatype Action = Approve | Reject

  /** What differs between the two pages. */
  datatype PageConfig = PageConfig(
    noun: string,
    envelopeKey: string,
    loadFailure: string,
    updateFallback: string,
    rejectsFalsyId: bool)

  const Deposits := PageConfig(
    "Deposit", "pendingDeposits",
    "Failed to load deposits. Please try again.",
    "Failed to update deposit status",
    true)

  const Withdrawals := PageConfig(
    "Withdrawal", "pendingWithdrawals",
    "Failed to load withdrawals. Please try again.",
    "Failed to update withdrawal status",
    false)

  /** `PATCH /<records>/<id>/status` with body `{ isPending }`. */
  datatype StatusUpdate = StatusUpdate(id: Value, isPending: bool)

  /** What one press of the dialog's confirm button does besides clearing
      the dialog: the update sent (if any), the alert shown (if any), and
      whether the list is fetched again. */
  datatype Confirmation = Confirmation(sent: Option<StatusUpdate>, alert: Option<string>, refetch: bool)

  function SuccessAlert(config: PageConfig, action: Action): string
  {
    config.noun + " " + (if action == Approve then "approved" else "rejected") + " successfully!"
  }

  /** `handleConfirmAction` up to its `finally`: nothing at all unless both
      a record and an action are selected; otherwise `isPending` is true
      exactly for a rejection, the update goes to the selected record's id
      (unless the deposit service refuses a falsy id, which rejects without
      a response), and the alert follows the outcome. */
  function Confirm(config: PageConfig, selected: Value, action: Option<Action>, outcome: Outcome<Value>): (c: Confirmation)
    ensures !Truthy(selected) || action.None? ==> c == Confirmation(None, None, false)
    ensures Truthy(selected) && action.Some? ==> c.alert.Some?
    ensures c.sent.Some? <==>
      Truthy(selected) && action.Some? && !(config.rejectsFalsyId && !Truthy(Get(selected, "id")))
    ensures c.sent.Some? ==>
      c.sent.value.id == Get(selected, "id") && (c.sent.value.isPending <==> action.value == Reject)
    ensures c.refetch <==> c.sent.Some? && outcome.Success?
    ensures c.sent.Some? && outcome.Success? ==> c.alert == Some(SuccessAlert(config, action.value))
    ensures c.sent.Some? && !outcome.Success? ==> c.alert == Some(FailureAlert(outcome, config.updateFallback))
    ensures Truthy(selected) && action.Some? && c.sent.None? ==> c.alert == Some(NetworkAlert)
  {
    if !Truthy(selected) || action.None? then
      Confirmation(None, None, false)
    else
      var id := Get(selected, "id");
      if config.rejectsFalsyId && !Truthy(id) then
        Confirmation(None, Some(NetworkAlert), false)
      else
        var update := StatusUpdate(id, action.value == Reject);
        match outcome
        case Success(_) => Confirmation(Some(update), Some(SuccessAlert(config, action.value)), true)
        case _ => Confirmation(Some(update), Some(FailureAlert(outcome, config.updateFallback)), false)
  }

  /** A deposit record without an id never reaches the backend, while the
      same record on the withdrawals page is sent with an undefined id. */
  lemma MissingIdDiffersByPage(outcome: Outcome<Value>)
    ensures Confirm(Deposits, Obj(map[]), Some(Approve), outcome) == Confirmation(None, Some(NetworkAlert), false)
    ensures Confirm(Withdrawals, Obj(map[]), Some(Approve), outcome).sent == Some(StatusUpdate(Undefined, false))
  {
    assert Get(Obj(map[]), "id") == Undefined;
  }

  /** One of the two pages: its list, loading flag, load error, the record
      picked by a row button and the pending action (`confirmOpen`). */
  class ReviewPage {
    const config: PageConfig
    var records: seq<Value>
    var loading: bool
    var error: Option<string>
    var selected: Value
    var confirmOpen: Option<Action>

    constructor (config: PageConfig)
      ensures this.config == config
      ensures records == [] && loading && error == None
      ensures selected == Null && confirmOpen == None
    {
      this.config := config;
      records := [];
      loading := true;
      error := None;
      selected := Null;
      confirmOpen := None;
    }

    /** `fetchDeposits` / `fetchWithdrawals` once the request has settled. */
    method Fetch(outcome: Outcome<Value>)
      modifies this
      ensures !loading
      ensures outcome.Success? ==> records == Normalise(outcome.value, config.envelopeKey) && error == None
      ensures !outcome.Success? ==> records == old(records) && error == Some(config.loadFailure)
      ensures selected == old(selected) && confirmOpen == old(confirmOpen)
    {
      loading := true;
      error := None;
      match outcome {
        case Success(response) =>
          records := Normalise(response, config.envelopeKey);
        case _ =>
          error := Some(config.loadFailure);
      }
      loading := false;
    }

    /** The Approve or Reject button in a row: remembers the row and the
        action, which opens the dialog. */
    method ChooseAction(row: Value, action: Action)
      modifies this
      ensures selected == row && confirmOpen == Some(action)
      ensures records == old(records) && loading == old(loading) && error == old(error)
    {
      selected := row;
      confirmOpen := Some(action);
    }

    /** The dialog's Cancel button or closing it: only the action is
        cleared; the picked record stays. */
    method CloseDialog()
      modifies this
      ensures confirmOpen == None
      ensures selected == old(selected)
      ensures records == old(records) && loading == old(loading) && error == old(error)
    {
      confirmOpen := None;
    }

    /** `handleConfirmAction`: when it gets past its guard it always clears
        the action and the picked record, whatever the outcome. The list
        itself is only refreshed by the fetch it triggers on success. */
    method ConfirmAction(outcome: Outcome<Value>) returns (c: Confirmation)
      modifies this
      ensures c == Confirm(config, old(selected), old(confirmOpen), outcome)
      ensures !old(Truthy(selected) && confirmOpen.Some?) ==>
        selected == old(selected) && confirmOpen == old(confirmOpen)
      ensures old(Truthy(selected) && confirmOpen.Some?) ==> selected == Null && confirmOpen == None
      ensures records == old(records) && loading == old(loading) && error == old(error)
    {
      c := Confirm(config, selected, confirmOpen, outcome);
      if Truthy(selected) && confirmOpen.Some? {
        confirmOpen := None;
        selected := Null;
      }
    }
  }
}
