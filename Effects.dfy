/**
 * The outward effects of the pages, recorded instead of performed: a mutation
 * request sent to the wallet backend, a toast notification, a refetch of a
 * query. A mutation's reply is an input: it succeeds, or it fails with the
 * server's message (`err.data?.message`), which may be missing.
 */
module Effects {
  import opened Common

  datatype Mutation =
    | SendMoney(receiverPhone: string, amount: Num)
    | AddMoney(amount: Num)
    | WithdrawMoney(amount: Num)
    | CashIn(userPhone: string, amount: Num)
    | CashOut(userPhone: string, amount: Num)
    | BlockUser(userId: string)
    | UnblockUser(userId: string)
    | SuspendAgent(userId: string)
    | ActivateAgent(userId: string)
    | UpdateProfile(name: string, phone: string)
    | ChangePassword(currentPassword: Option<string>, newPassword: string)

  datatype Query = Users | Agents

  datatype Event =
    | Issued(mutation: Mutation)
    | ToastSuccess(message: string)
    | ToastError(message: string)
    | Refetch(query: Query)

  datatype Response = Succeeded | Failed(message: Option<string>)

  /** `err.data?.message || fallback`: a missing or empty server message gives way to the fallback. */
  function ErrorText(message: Option<string>, fallback: string): (r: string)
    ensures message.Some? && message.value != "" ==> r == message.value
    ensures message.None? || message.value == "" ==> r == fallback
  {
    match message
    case Some(m) => if m != "" then m else fallback
    case None => fallback
  }

  /** The taka sign that prefixes every amount in a toast. */
  const Taka: string := "\U{09F3}"

  /**
   * Awaiting one mutation inside `try`: the request is issued, then either
   * the success toast or (in `catch`) the server's message or the fallback.
   */
  function Attempt(m: Mutation, success: string, reply: Response, fallback: string): (r: seq<Event>)
    ensures Mutations(r) == [m]
    ensures reply.Succeeded? ==> r == [Issued(m), ToastSuccess(success)]
    ensures reply.Failed? ==> r == [Issued(m), ToastError(ErrorText(reply.message, fallback))]
  {
    var toast := if reply.Succeeded? then ToastSuccess(success) else ToastError(ErrorText(reply.message, fallback));
    assert Mutations([Issued(m), toast]) == Mutations([Issued(m)]) + [] by {
      assert [Issued(m), toast][..1] == [Issued(m)];
    }
    assert Mutations([Issued(m)]) == [m] by {
      assert [Issued(m)][..0] == [];
    }
    [Issued(m), toast]
  }

  /**
   * The amount check every money dialog makes before staging a confirmation,
   * `!amount || parseFloat(amount) <= 0`: an empty field, or a number that is
   * not positive. An unparsable entry gives NaN, and `NaN <= 0` is false, so
   * it is not rejected.
   */
  predicate AmountRejected(amount: string) {
    amount == "" || (ParseAmount(amount).Finite? && ParseAmount(amount).value <= 0)
  }

  /** An amount that passes the check is positive or NaN, never zero or negative. */
  lemma AcceptedAmount(amount: string)
    requires !AmountRejected(amount)
    ensures amount != ""
    ensures ParseAmount(amount).NaN? || ParseAmount(amount).value > 0
  {
  }

  /** The check as the handlers apply it: the staged amount, or `None` for a rejected entry. */
  function CheckAmount(amount: string): (r: Option<Num>)
    ensures r.Some? ==> r.value.NaN? || r.value.value > 0
  {
    if amount == "" then None
    else
      var n := ParseAmount(amount);
      if n.Finite? && n.value <= 0 then None else Some(n)
  }

  /** The handlers' check rejects exactly what the guard rejects, and stages the parsed amount otherwise. */
  lemma CheckAmountIsGuard(amount: string)
    ensures CheckAmount(amount).None? <==> AmountRejected(amount)
    ensures CheckAmount(amount).Some? ==> CheckAmount(amount).value == ParseAmount(amount)
  {
  }

  /** An entry with no digits is let through: it parses to NaN. */
  lemma UnparsableAmountPasses()
    ensures ParseAmount("abc") == NaN && !AmountRejected("abc")
  {
    assert SkipSpaces("abc") == "abc";
    assert LeadingDigits("abc") == [];
  }

  /** The mutations recorded in an event log, in order. */
  function Mutations(events: seq<Event>): (r: seq<Mutation>)
    ensures |r| <= |events|
  {
    if events == [] then []
    else Mutations(events[..|events| - 1]) +
         (if events[|events| - 1].Issued? then [events[|events| - 1].mutation] else [])
  }

  lemma {:induction false} MutationsConcat(a: seq<Event>, b: seq<Event>)
    ensures Mutations(a + b) == Mutations(a) + Mutations(b)
    decreases |b|
  {
    if b == [] {
      assert a + b == a;
    } else {
      assert (a + b)[..|a + b| - 1] == a + b[..|b| - 1];
      MutationsConcat(a, b[..|b| - 1]);
    }
  }
}
