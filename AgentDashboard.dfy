/**
 * The agent's dashboard: the searchable, type-filtered transaction list
 * with its pages, the sent / received split, and the cash-in / add /
 * withdraw / cash-out dialog. The volume and seven-day charts are the
 * shared ones of the `Dashboard` module, applied to the filtered list.
 */
module AgentDashboard {
  import opened Common
  import opened Collections
  import opened Effects
  import opened Dashboard

  // ---------------------------------------------------------------------
  // filteredTransactions
  // ---------------------------------------------------------------------

  /** `party?.phone.includes(term) ?? false`: an absent party is no hit. */
  predicate PhoneHit(party: Option<Party>, term: string) {
    party.Some? && Includes(party.value.phone, term)
  }

  /** The search: the type without regard to case, or the sender's or receiver's phone as typed. */
  predicate MatchesSearch(t: Transaction, term: string) {
    || Includes(Lower(t.kind), Lower(term))
    || PhoneHit(t.sender, term)
    || PhoneHit(t.receiver, term)
  }

  /** The type filter: "all", or exactly the transaction's type. */
  predicate MatchesType(t: Transaction, typeFilter: string) {
    typeFilter == "all" || t.kind == typeFilter
  }

  function Keep(term: string, typeFilter: string): Transaction -> bool
  {
    t => MatchesSearch(t, term) && MatchesType(t, typeFilter)
  }

  function FilteredTransactions(txs: seq<Transaction>, term: string, typeFilter: string): seq<Transaction>
  {
    Filter(txs, Keep(term, typeFilter))
  }

  /** The list keeps exactly the transactions meeting both the search and the type filter, in their original order. */
  lemma FilteredTransactionsSpec(txs: seq<Transaction>, term: string, typeFilter: string, t: Transaction)
    ensures Subsequence(FilteredTransactions(txs, term, typeFilter), txs)
    ensures t in FilteredTransactions(txs, term, typeFilter) <==>
              t in txs && MatchesSearch(t, term) && MatchesType(t, typeFilter)
  {
    FilterIsSubsequence(txs, Keep(term, typeFilter));
    FilterMembership(txs, Keep(term, typeFilter), t);
  }

  /** With no search term and "all" types nothing is filtered out. */
  lemma NoFilterKeepsAll(txs: seq<Transaction>)
    ensures FilteredTransactions(txs, "", "all") == txs
  {
    forall i | 0 <= i < |txs|
      ensures Keep("", "all")(txs[i])
    {
      IncludesEmpty(Lower(txs[i].kind));
    }
    FilterKeepsAll(txs, Keep("", "all"));
  }

  // ---------------------------------------------------------------------
  // transactionDistribution
  // ---------------------------------------------------------------------

  /** Money sent: "send-money" and "withdraw". */
  predicate IsSent(t: Transaction) {
    t.kind == "send-money" || t.kind == "withdraw"
  }

  /** Money received: "receive", "top-up" and "cash-in". */
  predicate IsReceived(t: Transaction) {
    t.kind == "receive" || t.kind == "top-up" || t.kind == "cash-in"
  }

  function SentCount(txs: seq<Transaction>): nat { |Filter(txs, IsSent)| }

  function ReceivedCount(txs: seq<Transaction>): nat { |Filter(txs, IsReceived)| }

  /** No transaction is both sent and received, so the two bars never add up to more than the list. */
  lemma DistributionBounded(txs: seq<Transaction>)
    ensures SentCount(txs) + ReceivedCount(txs) <= |txs|
  {
    FilterDisjointCount(txs, IsSent, IsReceived);
  }

  /** Cash-outs and commissions are counted in neither bar. */
  lemma CashOutAndCommissionUncounted(t: Transaction)
    requires t.kind == "cash-out" || t.kind == "commission-earned"
    ensures !IsSent(t) && !IsReceived(t)
  {
  }

  /** Adding an uncounted transaction to the list changes neither bar. */
  lemma UncountedLeavesBars(txs: seq<Transaction>, t: Transaction)
    requires !IsSent(t) && !IsReceived(t)
    ensures SentCount(txs + [t]) == SentCount(txs) && ReceivedCount(txs + [t]) == ReceivedCount(txs)
  {
    FilterSnoc(txs, t, IsSent);
    FilterSnoc(txs, t, IsReceived);
  }

  // ---------------------------------------------------------------------
  // The action dialog
  // ---------------------------------------------------------------------

  /** The four buttons; `TakeCash` is "cash-out", named apart from the `CashOut` request it leads to. */
  datatype ActionType = Send | Add | Withdraw | TakeCash

  /** The action as the confirmation payload spells it. */
  function ActionName(a: ActionType): (s: string)
    ensures s == "send" || s == "add" || s == "withdraw" || s == "cash-out"
  {
    match a
    case Send => "send"
    case Add => "add"
    case Withdraw => "withdraw"
    case TakeCash => "cash-out"
  }

  datatype Confirmation = Confirmation(amount: Num, recipientPhone: string, actionType: string)

  const InvalidAmountMessage: string := "Please enter a valid amount"
  const MissingPhoneMessage: string := "Please enter recipient phone number"
  const Fallback: string := "Transaction failed"

  /**
   * What confirming `c` records: "send" is a cash-in to the customer's phone
   * and first requires a phone; "cash-out" takes the phone as it is, even
   * empty; "add" and "withdraw" act on the agent's own wallet.
   */
  function ConfirmEvents(c: Confirmation, reply: Response): seq<Event>
  {
    if c.actionType == "send" then
      if c.recipientPhone == "" then [ToastError(MissingPhoneMessage)]
      else Attempt(CashIn(c.recipientPhone, c.amount),
                   Taka + NumText(c.amount) + " added to " + c.recipientPhone, reply, Fallback)
    else if c.actionType == "add" then
      Attempt(AddMoney(c.amount), Taka + NumText(c.amount) + " added to your wallet", reply, Fallback)
    else if c.actionType == "withdraw" then
      Attempt(WithdrawMoney(c.amount), Taka + NumText(c.amount) + " withdrawn from your wallet", reply, Fallback)
    else if c.actionType == "cash-out" then
      Attempt(CashOut(c.recipientPhone, c.amount),
              Taka + NumText(c.amount) + " withdrawn from " + c.recipientPhone, reply, Fallback)
    else []
  }

  /** A confirmation issues at most one request, the one its action names, with the staged amount and phone. */
  lemma ConfirmIssuesMatchingMutation(c: Confirmation, reply: Response)
    ensures |Mutations(ConfirmEvents(c, reply))| <= 1
    ensures c.actionType == "send" ==>
              (Mutations(ConfirmEvents(c, reply)) == [] <==> c.recipientPhone == "")
    ensures c.actionType == "send" && c.recipientPhone != "" ==>
              Mutations(ConfirmEvents(c, reply)) == [CashIn(c.recipientPhone, c.amount)]
    ensures c.actionType == "cash-out" ==> Mutations(ConfirmEvents(c, reply)) == [CashOut(c.recipientPhone, c.amount)]
    ensures c.actionType == "add" ==> Mutations(ConfirmEvents(c, reply)) == [AddMoney(c.amount)]
    ensures c.actionType == "withdraw" ==> Mutations(ConfirmEvents(c, reply)) == [WithdrawMoney(c.amount)]
    ensures c.actionType !in {"send", "add", "withdraw", "cash-out"} ==> ConfirmEvents(c, reply) == []
  {
    if c.actionType == "send" && c.recipientPhone == "" {
      assert Mutations([ToastError(MissingPhoneMessage)]) == [] by {
        assert [ToastError(MissingPhoneMessage)][..0] == [];
      }
    }
  }

  /** A failed request ends with the server's message, or "Transaction failed" when it gives none. */
  lemma ConfirmFailureMessage(c: Confirmation, message: Option<string>)
    requires c.actionType in {"add", "withdraw", "cash-out"} || (c.actionType == "send" && c.recipientPhone != "")
    ensures var events := ConfirmEvents(c, Failed(message));
            |events| == 2 && events[1] == ToastError(ErrorText(message, Fallback))
  {
  }

  class AgentActions {
    var actionType: Option<ActionType>
    var amount: string
    var recipientPhone: string
    var showConfirmation: bool
    var confirmation: Confirmation
    var events: seq<Event>

    /** An open confirmation always carries an amount that passed the check: positive, or NaN. */
    ghost predicate Valid()
      reads this
    {
      showConfirmation ==> confirmation.amount.NaN? || confirmation.amount.value > 0
    }

    constructor()
      ensures actionType == None && amount == "" && recipientPhone == ""
      ensures !showConfirmation && confirmation == Confirmation(Finite(0), "", "")
      ensures events == []
      ensures Valid()
    {
      actionType, amount, recipientPhone := None, "", "";
      showConfirmation, confirmation := false, Confirmation(Finite(0), "", "");
      events := [];
    }

    /** `handleActionClick`: open the dialog for `t` with empty fields. */
    method ActionClick(t: ActionType)
      modifies this`actionType, this`amount, this`recipientPhone
      ensures actionType == Some(t) && amount == "" && recipientPhone == ""
    {
      actionType := Some(t);
      amount := "";
      recipientPhone := "";
    }

    method EnterAmount(s: string)
      modifies this`amount
      ensures amount == s
    {
      amount := s;
    }

    method EnterRecipientPhone(s: string)
      modifies this`recipientPhone
      ensures recipientPhone == s
    {
      recipientPhone := s;
    }

    /** `handleActionClose`: the action dialog closes; nothing else changes. */
    method ActionClose()
      modifies this`actionType
      ensures actionType == None
    {
      actionType := None;
    }

    /** `handleConfirmationClose`: the confirmation closes without issuing anything. */
    method ConfirmationClose()
      modifies this`showConfirmation
      ensures !showConfirmation
      ensures Valid()
    {
      showConfirmation := false;
    }

    /**
     * `handleActionSubmit`: a rejected amount only shows an error and leaves
     * the dialog state as it was; otherwise the parsed amount, the phone and
     * the action are staged, the confirmation opens and the action dialog
     * closes.
     * `checked` is the outcome of the amount check: `None` for a rejection.
     */
    method ActionSubmit() returns (checked: Option<Num>)
      requires Valid()
      modifies this`confirmation, this`showConfirmation, this`actionType, this`events
      ensures checked == CheckAmount(old(amount))
      ensures checked.None? ==>
                events == old(events) + [ToastError(InvalidAmountMessage)] &&
                confirmation == old(confirmation) && showConfirmation == old(showConfirmation) &&
                actionType == old(actionType)
      ensures checked.Some? ==>
                confirmation == Confirmation(checked.value, recipientPhone,
                                             if old(actionType).Some? then ActionName(old(actionType).value) else "") &&
                showConfirmation && actionType == None && events == old(events)
      ensures Valid()
    {
      checked := CheckAmount(amount);
      if checked.None? {
        events := events + [ToastError(InvalidAmountMessage)];
      } else {
        var action := if actionType.Some? then ActionName(actionType.value) else "";
        confirmation := Confirmation(checked.value, recipientPhone, action);
        showConfirmation := true;
        actionType := None;
      }
    }

    /** `handleConfirmAction`: record what the staged confirmation does, then close the confirmation in every outcome. */
    method ConfirmAction(reply: Response)
      modifies this`events, this`showConfirmation
      ensures events == old(events) + ConfirmEvents(confirmation, reply)
      ensures !showConfirmation
      ensures Valid()
    {
      var c := confirmation;
      var m: Option<Mutation>, success := None, "";
      if c.actionType == "send" {
        if c.recipientPhone == "" {
          events := events + [ToastError(MissingPhoneMessage)];
          showConfirmation := false;
          return;
        }
        m, success := Some(CashIn(c.recipientPhone, c.amount)), Taka + NumText(c.amount) + " added to " + c.recipientPhone;
      } else if c.actionType == "add" {
        m, success := Some(AddMoney(c.amount)), Taka + NumText(c.amount) + " added to your wallet";
      } else if c.actionType == "withdraw" {
        m, success := Some(WithdrawMoney(c.amount)), Taka + NumText(c.amount) + " withdrawn from your wallet";
      } else if c.actionType == "cash-out" {
        m, success := Some(CashOut(c.recipientPhone, c.amount)), Taka + NumText(c.amount) + " withdrawn from " + c.recipientPhone;
      }
      if m.Some? {
        events := events + [Issued(m.value)];
        if reply.Succeeded? {
          events := events + [ToastSuccess(success)];
        } else {
          events := events + [ToastError(ErrorText(reply.message, Fallback))];
        }
      }
      showConfirmation := false;
    }
  }
}
