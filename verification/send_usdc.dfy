/** The transfer form of components/SendUsdc.tsx: its state, the Send button's
    enable rule, and the send handler as a state transition. The parse of the
    recipient, the instruction build and the wallet's sign-and-send are one
    external step whose answer is a parameter. */
module SendUsdc {
  import opened Optional

  const FillAllFieldsMessage: string := "Please fill in all fields"
  const DefaultFailureMessage: string := "Transaction failed"

  /** The form's component state. */
  datatype FormState = FormState(
    recipient: string,
    amount: string,
    isLoading: bool,
    signature: string,
    error: string)

  /** The state a freshly mounted form starts in. */
  const InitialForm: FormState := FormState("", "", false, "", "")

  /** What the handler hands to the external step: the wallet's address, and
      the recipient and amount text as typed. */
  datatype TransferRequest = TransferRequest(from: string, recipient: string, amount: string)

  /** The answer of the external step: a signature, or a thrown value, which
      carries a message when it is an `Error` and nothing otherwise. */
  datatype SendOutcome = Sent(signature: string) | Failed(message: Option<string>)

  /** One run of the handler: rejected before any external call, or submitted
      with the request made, the state while the call is in flight, and the
      state once it settles. */
  datatype SendStep =
    | Rejected(final: FormState)
    | Submitted(request: TransferRequest, pending: FormState, final: FormState)

  /** The Send button is enabled: not loading, and both fields filled in. */
  predicate SendEnabled(form: FormState) {
    !form.isLoading && form.recipient != "" && form.amount != ""
  }

  /** The message shown for a failed external step. */
  function FailureMessage(message: Option<string>): (text: string) {
    ValueOr(message, DefaultFailureMessage)
  }

  /** `handleSend` for the connected wallet `wallet` (None when the SDK has no
      smart-wallet key); `outcome` is what the external step answers when it
      is called. */
  function HandleSend(form: FormState, wallet: Option<string>, outcome: SendOutcome): (step: SendStep)
    // the guard: any missing piece rejects without an external call
    ensures step.Rejected? <==> wallet.None? || form.recipient == "" || form.amount == ""
    ensures step.Rejected? ==>
      && step.final.error == FillAllFieldsMessage
      && step.final.isLoading == form.isLoading
      && step.final.signature == form.signature
      && step.final.recipient == form.recipient
      && step.final.amount == form.amount
    // the valid path: the request, then the in-flight state
    ensures step.Submitted? ==>
      && step.request.from == wallet.value
      && step.request.recipient == form.recipient && form.recipient != ""
      && step.request.amount == form.amount && form.amount != ""
      && step.pending.isLoading
      && step.pending.error == "" && step.pending.signature == ""
      && step.pending.recipient == form.recipient && step.pending.amount == form.amount
    // the valid path once settled
    ensures step.Submitted? ==> !step.final.isLoading
    ensures step.Submitted? && outcome.Sent? ==>
      && step.final.signature == outcome.signature
      && step.final.recipient == "" && step.final.amount == ""
      && step.final.error == ""
    ensures step.Submitted? && outcome.Failed? ==>
      && step.final.error == (if outcome.message.Some? then outcome.message.value else DefaultFailureMessage)
      && step.final.signature == ""
      && step.final.recipient == form.recipient && step.final.amount == form.amount
    ensures step.Submitted? ==> step.final.signature == "" || step.final.error == ""
  {
    if wallet.None? || form.recipient == "" || form.amount == "" then
      Rejected(form.(error := FillAllFieldsMessage))
    else
      var pending := form.(isLoading := true, error := "", signature := "");
      var settled := match outcome
        case Sent(sig) => pending.(signature := sig, recipient := "", amount := "")
        case Failed(message) => pending.(error := FailureMessage(message));
      Submitted(TransferRequest(wallet.value, form.recipient, form.amount),
                pending, settled.(isLoading := false))
  }

  /** With a wallet, a click on an enabled button always reaches the external
      step; a rejected click needs a missing wallet or an empty field. */
  lemma EnabledClickSubmits(form: FormState, wallet: Option<string>, outcome: SendOutcome)
    requires wallet.Some? && SendEnabled(form)
    ensures HandleSend(form, wallet, outcome).Submitted?
  {
  }

  /** A success empties both fields, so the button is disabled afterwards; a
      failure keeps them, so the button is enabled for a retry. */
  lemma ButtonAfterSend(form: FormState, wallet: Option<string>, outcome: SendOutcome)
    requires HandleSend(form, wallet, outcome).Submitted?
    ensures outcome.Sent? ==> !SendEnabled(HandleSend(form, wallet, outcome).final)
    ensures outcome.Failed? ==> SendEnabled(HandleSend(form, wallet, outcome).final)
  {
  }

  // ---------------------------------------------------------------------------
  // The form under a sequence of user actions
  // ---------------------------------------------------------------------------

  /** What the user can do: type into either field, or click Send (with the
      answer the external step will give). */
  datatype UiEvent = EditRecipient(text: string) | EditAmount(text: string) | ClickSend(outcome: SendOutcome)

  /** One user action. The inputs are disabled while loading and the button
      is disabled unless SendEnabled holds; a disabled control does nothing. */
  function Step(form: FormState, wallet: Option<string>, ev: UiEvent): (r: FormState)
    // typing changes only the field typed into, and only while not loading
    ensures ev.EditRecipient? || ev.EditAmount? ==>
      && r.isLoading == form.isLoading && r.signature == form.signature && r.error == form.error
      && (form.isLoading ==> r == form)
    ensures ev.EditRecipient? && !form.isLoading ==> r.recipient == ev.text && r.amount == form.amount
    ensures ev.EditAmount? && !form.isLoading ==> r.amount == ev.text && r.recipient == form.recipient
    // a click on a disabled button does nothing
    ensures ev.ClickSend? && !SendEnabled(form) ==> r == form
    // an enabled click runs the handler to completion and shows its settled state
    ensures ev.ClickSend? && SendEnabled(form) ==> r == HandleSend(form, wallet, ev.outcome).final
    ensures ev.ClickSend? && SendEnabled(form) ==>
      && !r.isLoading
      && (wallet.Some? ==> r.signature == "" || r.error == "")
      && (wallet.None? ==> r.error == FillAllFieldsMessage && r.signature == form.signature)
  {
    match ev
    case EditRecipient(t) => if form.isLoading then form else form.(recipient := t)
    case EditAmount(t) => if form.isLoading then form else form.(amount := t)
    case ClickSend(outcome) => if SendEnabled(form) then HandleSend(form, wallet, outcome).final else form
  }

  function RunUi(form: FormState, wallet: Option<string>, events: seq<UiEvent>): (r: FormState)
    decreases |events|
  {
    if |events| == 0 then form else RunUi(Step(form, wallet, events[0]), wallet, events[1..])
  }

  /** What holds of every form state between user actions: nothing is in
      flight, a signature and an error are never shown together, and without a
      wallet no signature is ever shown. */
  predicate Settled(form: FormState, wallet: Option<string>) {
    && !form.isLoading
    && (form.signature == "" || form.error == "")
    && (wallet.None? ==> form.signature == "")
  }

  /** Every sequence of user actions from a settled form ends in a settled
      state, provided the wallet key stays the same for the life of the form. */
  lemma {:induction false} RunUiSettled(form: FormState, wallet: Option<string>, events: seq<UiEvent>)
    requires Settled(form, wallet)
    ensures Settled(RunUi(form, wallet, events), wallet)
    decreases |events|
  {
    if |events| > 0 {
      var next := Step(form, wallet, events[0]);
      assert Settled(next, wallet);
      RunUiSettled(next, wallet, events[1..]);
    }
  }

  lemma InitialSettled(wallet: Option<string>, events: seq<UiEvent>)
    ensures Settled(RunUi(InitialForm, wallet, events), wallet)
  {
    RunUiSettled(InitialForm, wallet, events);
  }

  /** Why the wallet must stay fixed: if the key is lost while the form stays
      mounted, a success followed by a click without a wallet shows the old
      signature and the fill-in-all-fields error together. */
  lemma WalletLossShowsBoth()
    ensures var filled := [EditRecipient("R"), EditAmount("1")];
            var afterSuccess := RunUi(InitialForm, Some("W"), filled + [ClickSend(Sent("SIG"))]);
            var afterLoss := RunUi(afterSuccess, None, filled + [ClickSend(Sent("SIG2"))]);
            afterLoss.signature == "SIG" && afterLoss.error == FillAllFieldsMessage
  {
    var filled := [EditRecipient("R"), EditAmount("1")];
    var f1 := FormState("R", "", false, "", "");
    var f2 := FormState("R", "1", false, "", "");
    var f3 := FormState("", "", false, "SIG", "");
    var f4 := FormState("R", "", false, "SIG", "");
    var f5 := FormState("R", "1", false, "SIG", "");
    var f6 := FormState("R", "1", false, "SIG", FillAllFieldsMessage);
    assert RunUi(InitialForm, Some("W"), filled + [ClickSend(Sent("SIG"))]) == f3 by {
      assert RunUi(f3, Some("W"), []) == f3;
      assert RunUi(f2, Some("W"), [ClickSend(Sent("SIG"))]) == f3;
      assert RunUi(f1, Some("W"), [EditAmount("1"), ClickSend(Sent("SIG"))]) == f3;
    }
    assert RunUi(f3, None, filled + [ClickSend(Sent("SIG2"))]) == f6 by {
      assert RunUi(f6, None, []) == f6;
      assert RunUi(f5, None, [ClickSend(Sent("SIG2"))]) == f6;
      assert RunUi(f4, None, [EditAmount("1"), ClickSend(Sent("SIG2"))]) == f6;
    }
  }
}
