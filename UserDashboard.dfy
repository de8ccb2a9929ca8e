/**
 * The user's dashboard: the send / add / withdraw dialog (pick an action,
 * enter an amount and a phone, submit, confirm), the five most recent
 * transactions with their sign, and the first-visit tour prompt.
 */
module UserDashboard {
  import opened Common
  import opened Collections
  import opened Effects
  import opened Storage
  import opened Tour

  datatype ActionType = Send | Add | Withdraw

  /** The action as the confirmation payload spells it. */
  function ActionName(a: ActionType): (s: string)
    ensures s == "send" || s == "add" || s == "withdraw"
  {
    match a
    case Send => "send"
    case Add => "add"
    case Withdraw => "withdraw"
  }

  /** `confirmationData`: the staged amount, phone and action (`""` when none was chosen). */
  datatype Confirmation = Confirmation(amount: Num, recipientPhone: string, actionType: string)

  const InvalidAmountMessage: string := "Please enter a valid amount"
  const MissingPhoneMessage: string := "Please enter recipient phone number"
  const Fallback: string := "Something went wrong"

  /**
   * What confirming `c` records, given the backend's reply to the request it
   * issues: "send" first requires a phone, then sends money; "add" and
   * "withdraw" move money in or out of the user's own wallet; any other
   * action does nothing.
   */
  function ConfirmEvents(c: Confirmation, reply: Response): seq<Event>
  {
    if c.actionType == "send" then
      if c.recipientPhone == "" then [ToastError(MissingPhoneMessage)]
      else Attempt(SendMoney(c.recipientPhone, c.amount),
                   Taka + NumText(c.amount) + " sent to " + c.recipientPhone, reply, Fallback)
    else if c.actionType == "add" then
      Attempt(AddMoney(c.amount), Taka + NumText(c.amount) + " added to your wallet", reply, Fallback)
    else if c.actionType == "withdraw" then
      Attempt(WithdrawMoney(c.amount), Taka + NumText(c.amount) + " withdrawn from your wallet", reply, Fallback)
    else []
  }

  /** A confirmation issues at most one request, and exactly the one its action names with the staged amount. */
  lemma ConfirmIssuesMatchingMutation(c: Confirmation, reply: Response)
    ensures |Mutations(ConfirmEvents(c, reply))| <= 1
    ensures c.actionType == "send" ==>
              (Mutations(ConfirmEvents(c, reply)) == [] <==> c.recipientPhone == "")
    ensures c.actionType == "send" && c.recipientPhone != "" ==>
              Mutations(ConfirmEvents(c, reply)) == [SendMoney(c.recipientPhone, c.amount)]
    ensures c.actionType == "add" ==> Mutations(ConfirmEvents(c, reply)) == [AddMoney(c.amount)]
    ensures c.actionType == "withdraw" ==> Mutations(ConfirmEvents(c, reply)) == [WithdrawMoney(c.amount)]
    ensures c.actionType !in {"send", "add", "withdraw"} ==> ConfirmEvents(c, reply) == []
  {
    if c.actionType == "send" && c.recipientPhone == "" {
      assert Mutations([ToastError(MissingPhoneMessage)]) == [] by {
        assert [ToastError(MissingPhoneMessage)][..0] == [];
      }
    }
  }

  /** A failed request ends with the server's message, or "Something went wrong" when it gives none. */
  lemma ConfirmFailureMessage(c: Confirmation, message: Option<string>)
    requires c.actionType in {"add", "withdraw"} || (c.actionType == "send" && c.recipientPhone != "")
    ensures var events := ConfirmEvents(c, Failed(message));
            |events| == 2 && events[1] == ToastError(ErrorText(message, Fallback))
  {
  }

  /** The dialog state the handlers set step by step, and the effects they record. */
  class UserActions {
    var actionType: Option<ActionType>
    var amount: string
    var recipientPhone: string
    var showConfirmation: bool
    var confirmation: Confirmation
    var showTour: bool
    var events: seq<Event>

    /** An open confirmation always carries an amount that passed the check: positive, or NaN. */
    ghost predicate Valid()
      reads this
    {
      showConfirmation ==> confirmation.amount.NaN? || confirmation.amount.value > 0
    }

    constructor()
      ensures actionType == None && amount == "" && recipientPhone == ""
      ensures !showConfirmation && confirmation == Confirmation(Finite(0), "", "")
      ensures !showTour && events == []
      ensures Valid()
    {
      actionType, amount, recipientPhone := None, "", "";
      showConfirmation, confirmation := false, Confirmation(Finite(0), "", "");
      showTour, events := false, [];
    }

    /** The mount effect: show the tour prompt unless a completed tour is recorded. */
    method CheckTour(storage: LocalStorage)
      modifies this
      ensures showTour == (old(showTour) || TourPending(storage.items))
      ensures unchanged(this`actionType, this`amount, this`recipientPhone, this`showConfirmation, this`confirmation, this`events)
    {
      if TourPending(storage.items) {
        showTour := true;
      }
    }

    /** `startGuidedTour`: run the tour and hide the prompt. */
    method StartGuidedTour(tour: TourProvider)
      modifies this, tour
      ensures tour.run && !showTour
      ensures unchanged(this`actionType, this`amount, this`recipientPhone, this`showConfirmation, this`confirmation, this`events)
    {
      tour.StartTour();
      showTour := false;
    }

    /** `handleActionClick`: open the dialog for `t` with empty fields. */
    method ActionClick(t: ActionType)
      modifies this`actionType, this`amount, this`recipientPhone
      ensures actionType == Some(t) && amount == "" && recipientPhone == ""
    {
      actionType := Some(t);
      amount := "";
      recipientPhone := "";
    }

    method EnterAmount(s: string)
      modifies this`amount
      ensures amount == s
    {
      amount := s;
    }

    method EnterRecipientPhone(s: string)
      modifies this`recipientPhone
      ensures recipientPhone == s
    {
      recipientPhone := s;
    }

    /**
     * `handleActionSubmit`: a rejected amount only shows an error; otherwise
     * the parsed amount, the phone and the action are staged, the
     * confirmation opens and the action dialog closes.
     * `checked` is the outcome of the amount check: `None` for a rejection.
     */
    method ActionSubmit() returns (checked: Option<Num>)
      requires Valid()
      modifies this`confirmation, this`showConfirmation, this`actionType, this`events
      ensures checked == CheckAmount(old(amount))
      ensures checked.None? ==>
                events == old(events) + [ToastError(InvalidAmountMessage)] &&
                confirmation == old(confirmation) && showConfirmation == old(showConfirmation) &&
                actionType == old(actionType)
      ensures checked.Some? ==>
                confirmation == Confirmation(checked.value, recipientPhone,
                                             if old(actionType).Some? then ActionName(old(actionType).value) else "") &&
                showConfirmation && actionType == None && events == old(events)
      ensures Valid()
    {
      checked := CheckAmount(amount);
      if checked.None? {
        events := events + [ToastError(InvalidAmountMessage)];
      } else {
        var action := if actionType.Some? then ActionName(actionType.value) else "";
        confirmation := Confirmation(checked.value, recipientPhone, action);
        showConfirmation := true;
        actionType := None;
      }
    }

    /**
     * `handleConfirmAction`: record what the staged confirmation does, then
     * close the confirmation whatever happened, including after the early
     * return for a missing phone.
     */
    method ConfirmAction(reply: Response)
      modifies this`events, this`showConfirmation
      ensures events == old(events) + ConfirmEvents(confirmation, reply)
      ensures !showConfirmation
      ensures Valid()
    {
      var c := confirmation;
      if c.actionType == "send" {
        if c.recipientPhone == "" {
          events := events + [ToastError(MissingPhoneMessage)];
          showConfirmation := false;
          return;
        }
        events := events + [Issued(SendMoney(c.recipientPhone, c.amount))];
        if reply.Succeeded? {
          events := events + [ToastSuccess(Taka + NumText(c.amount) + " sent to " + c.recipientPhone)];
        } else {
          events := events + [ToastError(ErrorText(reply.message, Fallback))];
        }
      } else if c.actionType == "add" {
        events := events + [Issued(AddMoney(c.amount))];
        if reply.Succeeded? {
          events := events + [ToastSuccess(Taka + NumText(c.amount) + " added to your wallet")];
        } else {
          events := events + [ToastError(ErrorText(reply.message, Fallback))];
        }
      } else if c.actionType == "withdraw" {
        events := events + [Issued(WithdrawMoney(c.amount))];
        if reply.Succeeded? {
          events := events + [ToastSuccess(Taka + NumText(c.amount) + " withdrawn from your wallet")];
        } else {
          events := events + [ToastError(ErrorText(reply.message, Fallback))];
        }
      }
      showConfirmation := false;
    }
  }

  /** Submitting a rejected amount never opens a confirmation, and so can never issue a request. */
  method RejectedAmountReachesNoConfirmation(page: UserActions)
    requires page.Valid() && !page.showConfirmation && AmountRejected(page.amount)
    modifies page
    ensures !page.showConfirmation
  {
    CheckAmountIsGuard(page.amount);
    var _ := page.ActionSubmit();
  }

  // ---------------------------------------------------------------------
  // Recent transactions
  // ---------------------------------------------------------------------

  /** `transactions.slice(0, 5)`: the first five rows, or all of them when there are fewer. */
  function Recent<T>(rows: seq<T>): (r: seq<T>)
    ensures |r| == if |rows| < 5 then |rows| else 5
    ensures r == rows[..|r|]
  {
    JsSlice(rows, 0, 5)
  }

  /** The sign shown before an amount: "-" for a type naming "send" or "withdraw", "+" otherwise. */
  function SignFor(kind: string): string
  {
    if Includes(kind, "send") || Includes(kind, "withdraw") then "-" else "+"
  }

  /** Money leaving the wallet shows "-", money arriving shows "+". */
  lemma SignsOfKnownTypes(kind: string)
    ensures SignFor(kind) == "-" <==> (exists i :: OccursAt(kind, "send", i)) || (exists i :: OccursAt(kind, "withdraw", i))
    ensures SignFor("send") == "-" && SignFor("send-money") == "-" && SignFor("withdraw") == "-"
    ensures SignFor("add") == "+"
  {
    IncludesIffOccursAt(kind, "send");
    IncludesIffOccursAt(kind, "withdraw");
    IncludesNeedsRoom("add", "send");
    IncludesNeedsRoom("add", "withdraw");
  }
}
