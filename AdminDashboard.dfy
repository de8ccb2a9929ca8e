/**
 * The administrator's dashboard: the account list with its search, role,
 * status and balance filters; the transaction charts' date-range and type
 * filter and the transaction table's additional search; the wallet search;
 * the headline counts; and the block / unblock / suspend / activate dialog.
 */
module AdminDashboard {
  import opened Common
  import opened Collections
  import opened Effects
  import opened Dashboard

  /**
   * An account of the "all users" / "all agents" lists. `balance` is the
   * balance of the account's wallet when the record embeds one, and `None`
   * when the wallet is only an id.
   */
  datatype Account = Account(id: string, name: string, phone: string, role: string, isBlocked: bool, balance: Option<int>)

  // ---------------------------------------------------------------------
  // filteredUsers
  // ---------------------------------------------------------------------

  /** The search: the name without regard to case, or the phone as typed. */
  predicate MatchesSearch(u: Account, term: string) {
    Includes(Lower(u.name), Lower(term)) || Includes(u.phone, term)
  }

  predicate MatchesRole(u: Account, roleFilter: string) {
    roleFilter == "all" || u.role == roleFilter
  }

  /** "active" keeps unblocked accounts, "blocked" blocked ones, anything else every account. */
  predicate MatchesStatus(u: Account, status: string) {
    if status == "active" then !u.isBlocked
    else if status == "blocked" then u.isBlocked
    else true
  }

  /** The balance the amount filter compares: the embedded wallet's, or 0. */
  function Balance(u: Account): int {
    if u.balance.Some? then u.balance.value else 0
  }

  /** A bound as the page computes it: a parsed number (possibly NaN), or an infinity for an empty field. */
  datatype Extended = NegInfinity | PosInfinity | Number(n: Num)

  function MinBound(text: string): Extended {
    if text != "" then Number(ParseAmount(text)) else NegInfinity
  }

  function MaxBound(text: string): Extended {
    if text != "" then Number(ParseAmount(text)) else PosInfinity
  }

  predicate IsNaN(e: Extended) { e.Number? && e.n.NaN? }

  /** `x >= e`; every comparison with NaN is false. */
  predicate AtLeast(x: int, e: Extended) {
    match e
    case NegInfinity => true
    case PosInfinity => false
    case Number(n) => n.Finite? && x >= n.value
  }

  /** `x <= e`; every comparison with NaN is false. */
  predicate AtMost(x: int, e: Extended) {
    match e
    case NegInfinity => false
    case PosInfinity => true
    case Number(n) => n.Finite? && x <= n.value
  }

  /** The balance filter's cascade, in the page's own order of cases. */
  predicate Cascade(b: int, lo: Extended, hi: Extended) {
    if !IsNaN(lo) && !IsNaN(hi) then AtLeast(b, lo) && AtMost(b, hi)
    else if !IsNaN(lo) then AtLeast(b, lo)
    else if !IsNaN(hi) then AtMost(b, hi)
    else true
  }

  predicate MatchesAmount(u: Account, minText: string, maxText: string) {
    Cascade(Balance(u), MinBound(minText), MaxBound(maxText))
  }

  /** A limit applies when its field holds a number; an empty or unparsable field imposes none. */
  function Limit(text: string): Option<int> {
    if text != "" && ParseAmount(text).Finite? then Some(ParseAmount(text).value) else None
  }

  predicate WithinLimits(b: int, lo: Option<int>, hi: Option<int>) {
    (lo.None? || lo.value <= b) && (hi.None? || b <= hi.value)
  }

  /** The limit a bound imposes: its value when it is a number, and none for an infinity or NaN. */
  function LimitOf(e: Extended): Option<int> {
    if e.Number? && e.n.Finite? then Some(e.n.value) else None
  }

  /** Either bound computed from a field imposes the field's limit. */
  lemma BoundsGiveLimit(text: string)
    ensures LimitOf(MinBound(text)) == Limit(text) && LimitOf(MaxBound(text)) == Limit(text)
    ensures !MinBound(text).PosInfinity? && !MaxBound(text).NegInfinity?
  {
  }

  /** On bounds, the cascade is the range check: a NaN end, like an infinite one, imposes nothing. */
  lemma CascadeIsRange(b: int, lo: Extended, hi: Extended)
    requires !lo.PosInfinity? && !hi.NegInfinity?
    ensures Cascade(b, lo, hi) <==> WithinLimits(b, LimitOf(lo), LimitOf(hi))
  {
  }

  /** The cascade is the plain inclusive range check, each end applying only when its field holds a number. */
  lemma AmountFilterIsRange(u: Account, minText: string, maxText: string)
    ensures MatchesAmount(u, minText, maxText) <==> WithinLimits(Balance(u), Limit(minText), Limit(maxText))
  {
    BoundsGiveLimit(minText);
    BoundsGiveLimit(maxText);
    CascadeIsRange(Balance(u), MinBound(minText), MaxBound(maxText));
  }

  /** Empty balance fields let every account through, whatever its balance. */
  lemma EmptyBoundsKeepAll(u: Account)
    ensures MatchesAmount(u, "", "")
  {
    AmountFilterIsRange(u, "", "");
  }

  /** The five controls above the account list. */
  datatype UserFilters = UserFilters(search: string, role: string, status: string, minAmount: string, maxAmount: string)

  /** The controls as the page starts. */
  const DefaultFilters: UserFilters := UserFilters("", "all", "all", "", "")

  predicate MatchesFilters(u: Account, f: UserFilters) {
    && MatchesSearch(u, f.search)
    && MatchesRole(u, f.role)
    && MatchesStatus(u, f.status)
    && MatchesAmount(u, f.minAmount, f.maxAmount)
  }

  function FilteredUsers(users: seq<Account>, f: UserFilters): seq<Account>
  {
    Filter(users, u => MatchesFilters(u, f))
  }

  /** The list shows exactly the accounts meeting all four filters, in their original order. */
  lemma FilteredUsersSpec(users: seq<Account>, f: UserFilters, u: Account)
    ensures Subsequence(FilteredUsers(users, f), users)
    ensures u in FilteredUsers(users, f) <==>
              u in users && MatchesSearch(u, f.search) && MatchesRole(u, f.role) &&
              MatchesStatus(u, f.status) && WithinLimits(Balance(u), Limit(f.minAmount), Limit(f.maxAmount))
  {
    FilterIsSubsequence(users, u => MatchesFilters(u, f));
    FilterMembership(users, u => MatchesFilters(u, f), u);
    AmountFilterIsRange(u, f.minAmount, f.maxAmount);
  }

  /** As the page starts, every account is listed. */
  lemma DefaultFiltersKeepAll(users: seq<Account>)
    ensures FilteredUsers(users, DefaultFilters) == users
  {
    forall i | 0 <= i < |users|
      ensures MatchesFilters(users[i], DefaultFilters)
    {
      IncludesEmpty(Lower(users[i].name));
    }
    FilterKeepsAll(users, u => MatchesFilters(u, DefaultFilters));
  }

  // ---------------------------------------------------------------------
  // Headline counts
  // ---------------------------------------------------------------------

  predicate IsActive(u: Account) { !u.isBlocked }

  predicate IsBlocked(u: Account) { u.isBlocked }

  /** `activeUsers` and `activeAgents`: the unblocked accounts of a list. */
  function ActiveCount(accounts: seq<Account>): nat { |Filter(accounts, IsActive)| }

  /** `totalTransactionVolume`: the sum of all amounts, unfiltered. */
  function TotalVolume(txs: seq<Transaction>): int { Weight(txs, AmountOf) }

  /** Every account is either active or blocked. */
  lemma ActiveAndBlockedSplit(accounts: seq<Account>)
    ensures ActiveCount(accounts) + |Filter(accounts, IsBlocked)| == |accounts|
  {
    FilterSplitCount(accounts, IsActive, IsBlocked);
  }

  /** Choosing "active" and nothing else lists exactly the accounts the active count counts. */
  lemma ActiveFilterMatchesCount(users: seq<Account>)
    ensures FilteredUsers(users, DefaultFilters.(status := "active")) == Filter(users, IsActive)
    ensures |FilteredUsers(users, DefaultFilters.(status := "active"))| == ActiveCount(users)
  {
    var f := DefaultFilters.(status := "active");
    forall i | 0 <= i < |users|
      ensures MatchesFilters(users[i], f) == IsActive(users[i])
    {
      IncludesEmpty(Lower(users[i].name));
    }
    FilterSamePredicate(users, u => MatchesFilters(u, f), IsActive);
  }

  // ---------------------------------------------------------------------
  // filteredTransactions (the charts) and the table's search
  // ---------------------------------------------------------------------

  /** The date-range control: "1", "30" and "90" days, and 7 for anything else. */
  function DaysFor(range: string): (days: nat)
    ensures range == "1" ==> days == 1
    ensures range == "30" ==> days == 30
    ensures range == "90" ==> days == 90
    ensures range != "1" && range != "30" && range != "90" ==> days == 7
  {
    if range == "1" then 1
    else if range == "30" then 30
    else if range == "90" then 90
    else 7
  }

  /** Created no earlier than `days` days before `now`. */
  predicate WithinRange(t: Transaction, range: string, now: int) {
    t.createdAt >= now - DaysFor(range) * SecondsPerDay
  }

  predicate MatchesType(t: Transaction, typeFilter: string) {
    typeFilter == "all" || t.kind == typeFilter
  }

  function ChartKeep(range: string, typeFilter: string, now: int): Transaction -> bool
  {
    t => WithinRange(t, range, now) && MatchesType(t, typeFilter)
  }

  /** The transactions the charts are drawn from. */
  function ChartTransactions(txs: seq<Transaction>, range: string, typeFilter: string, now: int): seq<Transaction>
  {
    Filter(txs, ChartKeep(range, typeFilter, now))
  }

  /**
   * The charts keep, in order, exactly the transactions created inside the
   * date range whose type the type filter allows.
   */
  lemma ChartTransactionsSpec(txs: seq<Transaction>, range: string, typeFilter: string, now: int, t: Transaction)
    ensures Subsequence(ChartTransactions(txs, range, typeFilter, now), txs)
    ensures t in ChartTransactions(txs, range, typeFilter, now) <==>
              t in txs && t.createdAt >= now - DaysFor(range) * SecondsPerDay &&
              (typeFilter == "all" || t.kind == typeFilter)
  {
    FilterIsSubsequence(txs, ChartKeep(range, typeFilter, now));
    FilterMembership(txs, ChartKeep(range, typeFilter, now), t);
  }

  /** A longer date range never shows fewer transactions, and shows every one a shorter range shows. */
  lemma LongerRangeShowsMore(txs: seq<Transaction>, shorter: string, longer: string, typeFilter: string, now: int, t: Transaction)
    requires DaysFor(shorter) <= DaysFor(longer)
    ensures |ChartTransactions(txs, shorter, typeFilter, now)| <= |ChartTransactions(txs, longer, typeFilter, now)|
    ensures t in ChartTransactions(txs, shorter, typeFilter, now) ==> t in ChartTransactions(txs, longer, typeFilter, now)
  {
    FilterMonotone(txs, ChartKeep(shorter, typeFilter, now), ChartKeep(longer, typeFilter, now));
    FilterMembership(txs, ChartKeep(shorter, typeFilter, now), t);
    FilterMembership(txs, ChartKeep(longer, typeFilter, now), t);
  }

  /** With every type and every transaction inside the date range, the charts show all transactions. */
  lemma ChartsShowAllInRange(txs: seq<Transaction>, range: string, now: int)
    requires forall i :: 0 <= i < |txs| ==> WithinRange(txs[i], range, now)
    ensures ChartTransactions(txs, range, "all", now) == txs
  {
    FilterKeepsAll(txs, ChartKeep(range, "all", now));
  }

  /** The volume-by-type chart then adds up to the headline total volume. */
  lemma ChartVolumeIsTotal(txs: seq<Transaction>, range: string, now: int, types: seq<string>, volume: map<string, int>)
    requires forall i :: 0 <= i < |txs| ==> WithinRange(txs[i], range, now)
    requires VolumeInvariant(ChartTransactions(txs, range, "all", now), types, volume)
    ensures forall k :: k in types ==> k in volume
    ensures EntriesTotal(types, volume) == TotalVolume(txs)
  {
    ChartsShowAllInRange(txs, range, now);
    VolumeAddsUp(txs, types, volume);
  }

  /** `party?.name?.toLowerCase().includes(term) ?? false`, and the same for the phone. */
  predicate PartyHit(party: Option<Party>, term: string) {
    party.Some? &&
    (Includes(Lower(party.value.name), Lower(term)) || Includes(Lower(party.value.phone), Lower(term)))
  }

  /** The table's search: type, the parties' names and phones without regard to case, or the amount's digits as typed. */
  predicate MatchesTableSearch(t: Transaction, term: string) {
    || Includes(Lower(t.kind), Lower(term))
    || PartyHit(t.sender, term)
    || PartyHit(t.receiver, term)
    || Includes(IntToString(t.amount), term)
  }

  function TableKeep(range: string, typeFilter: string, term: string, now: int): Transaction -> bool
  {
    t => WithinRange(t, range, now) && MatchesType(t, typeFilter) && MatchesTableSearch(t, term)
  }

  /** The transaction table's rows, filtered again from all transactions. */
  function TableTransactions(txs: seq<Transaction>, range: string, typeFilter: string, term: string, now: int): seq<Transaction>
  {
    Filter(txs, TableKeep(range, typeFilter, term, now))
  }

  /** The table shows the charts' transactions that also match its search, in the same order. */
  lemma TableRefinesCharts(txs: seq<Transaction>, range: string, typeFilter: string, term: string, now: int)
    ensures TableTransactions(txs, range, typeFilter, term, now) ==
            Filter(ChartTransactions(txs, range, typeFilter, now), t => MatchesTableSearch(t, term))
    ensures |TableTransactions(txs, range, typeFilter, term, now)| <= |ChartTransactions(txs, range, typeFilter, now)|
  {
    FilterOfFilter(txs, ChartKeep(range, typeFilter, now), t => MatchesTableSearch(t, term), TableKeep(range, typeFilter, term, now));
  }

  /** With an empty search the table shows exactly the charts' transactions. */
  lemma EmptySearchShowsChartRows(txs: seq<Transaction>, range: string, typeFilter: string, now: int)
    ensures TableTransactions(txs, range, typeFilter, "", now) == ChartTransactions(txs, range, typeFilter, now)
  {
    TableRefinesCharts(txs, range, typeFilter, "", now);
    var shown := ChartTransactions(txs, range, typeFilter, now);
    forall i | 0 <= i < |shown|
      ensures MatchesTableSearch(shown[i], "")
    {
      IncludesEmpty(Lower(shown[i].kind));
    }
    FilterKeepsAll(shown, t => MatchesTableSearch(t, ""));
  }

  /** A search for an amount's decimal digits finds that transaction (when it is in range and of the chosen type). */
  lemma AmountSearchFinds(t: Transaction, range: string, typeFilter: string, now: int)
    requires WithinRange(t, range, now) && MatchesType(t, typeFilter)
    ensures TableKeep(range, typeFilter, IntToString(t.amount), now)(t)
  {
    IncludesIffOccursAt(IntToString(t.amount), IntToString(t.amount));
    assert OccursAt(IntToString(t.amount), IntToString(t.amount), 0);
  }

  // ---------------------------------------------------------------------
  // filteredWallets
  // ---------------------------------------------------------------------

  /** A wallet's populated `owner`; a wallet whose owner is null or not populated has `None`. */
  datatype Owner = Owner(name: string, phone: string)

  datatype Wallet = Wallet(id: string, owner: Option<Owner>, balance: int)

  /**
   * A missing owner makes `wallet.owner.name.toLowerCase()` throw a TypeError,
   * which ends the render; its wording is the engine's, so only the kind is kept.
   */
  const OwnerMissingMessage: string := "TypeError"

  predicate AllOwned(wallets: seq<Wallet>) {
    forall i :: 0 <= i < |wallets| ==> wallets[i].owner.Some?
  }

  /** The owner's name or the wallet id without regard to case, or the owner's phone as typed. */
  predicate MatchesWalletSearch(w: Wallet, term: string) {
    && w.owner.Some?
    && (|| Includes(Lower(w.owner.value.name), Lower(term))
        || Includes(w.owner.value.phone, term)
        || Includes(Lower(w.id), Lower(term)))
  }

  /** The callback reads the owner's name first, for every wallet, so one wallet without an owner makes the filter throw. */
  function FilteredWallets(wallets: seq<Wallet>, term: string): Result<seq<Wallet>>
  {
    if AllOwned(wallets) then Ok(Filter(wallets, w => MatchesWalletSearch(w, term)))
    else Thrown(OwnerMissingMessage)
  }

  /**
   * The wallet list throws exactly when some wallet has no owner. Otherwise it
   * keeps, in order, exactly the matching wallets, and all of them for an
   * empty search.
   */
  lemma FilteredWalletsSpec(wallets: seq<Wallet>, term: string, w: Wallet)
    ensures FilteredWallets(wallets, term).Thrown? <==> exists i :: 0 <= i < |wallets| && wallets[i].owner.None?
    ensures FilteredWallets(wallets, term).Thrown? ==> FilteredWallets(wallets, term).message == OwnerMissingMessage
    ensures FilteredWallets(wallets, term).Ok? ==>
              && Subsequence(FilteredWallets(wallets, term).value, wallets)
              && (w in FilteredWallets(wallets, term).value <==> w in wallets && MatchesWalletSearch(w, term))
    ensures AllOwned(wallets) ==> FilteredWallets(wallets, "") == Ok(wallets)
  {
    FilterIsSubsequence(wallets, w => MatchesWalletSearch(w, term));
    FilterMembership(wallets, w => MatchesWalletSearch(w, term), w);
    if AllOwned(wallets) {
      forall i | 0 <= i < |wallets|
        ensures MatchesWalletSearch(wallets[i], "")
      {
        IncludesEmpty(Lower(wallets[i].owner.value.name));
      }
      FilterKeepsAll(wallets, w => MatchesWalletSearch(w, ""));
    }
  }

  // ---------------------------------------------------------------------
  // The block / unblock / suspend / activate dialog
  // ---------------------------------------------------------------------

  /** The action a row's button offers: agents are suspended and activated, everyone else blocked and unblocked. */
  function ActionFor(u: Account): string
  {
    if u.role == "agent" then (if u.isBlocked then "activate" else "suspend")
    else if u.isBlocked then "unblock" else "block"
  }

  /** `confirmationData`. */
  datatype UserConfirmation = UserConfirmation(userId: string, action: string, userName: string)

  const ActionFallback: string := "Action failed"

  /** The request an action names, with its success message; none for an unknown action. */
  function ActionRequest(c: UserConfirmation): Option<(Mutation, string)>
  {
    if c.action == "block" then Some((BlockUser(c.userId), "User " + c.userName + " blocked successfully"))
    else if c.action == "unblock" then Some((UnblockUser(c.userId), "User " + c.userName + " unblocked successfully"))
    else if c.action == "suspend" then Some((SuspendAgent(c.userId), "Agent " + c.userName + " suspended successfully"))
    else if c.action == "activate" then Some((ActivateAgent(c.userId), "Agent " + c.userName + " activated successfully"))
    else None
  }

  /**
   * What confirming records: the request and its toast, then, when nothing
   * threw, a refetch of both account lists. An unknown action issues
   * nothing but still refetches.
   */
  function ConfirmUserEvents(c: UserConfirmation, reply: Response): seq<Event>
  {
    var refetch := [Refetch(Users), Refetch(Agents)];
    match ActionRequest(c)
    case None => refetch
    case Some((m, success)) =>
      Attempt(m, success, reply, ActionFallback) + (if reply.Succeeded? then refetch else [])
  }

  /** The button's action issues the request that flips the account's state, and only that one. */
  lemma ButtonIssuesFlip(u: Account, reply: Response)
    ensures var events := ConfirmUserEvents(UserConfirmation(u.id, ActionFor(u), u.name), reply);
            && (u.role == "agent" && u.isBlocked ==> Mutations(events) == [ActivateAgent(u.id)])
            && (u.role == "agent" && !u.isBlocked ==> Mutations(events) == [SuspendAgent(u.id)])
            && (u.role != "agent" && u.isBlocked ==> Mutations(events) == [UnblockUser(u.id)])
            && (u.role != "agent" && !u.isBlocked ==> Mutations(events) == [BlockUser(u.id)])
  {
    var c := UserConfirmation(u.id, ActionFor(u), u.name);
    var m := ActionRequest(c).value.0;
    var tail := if reply.Succeeded? then [Refetch(Users), Refetch(Agents)] else [];
    MutationsConcat(Attempt(m, ActionRequest(c).value.1, reply, ActionFallback), tail);
    assert Mutations(tail) == [] by {
      if reply.Succeeded? {
        MutationsConcat([Refetch(Users)], [Refetch(Agents)]);
        assert [Refetch(Users)] + [Refetch(Agents)] == tail;
        assert [Refetch(Users)][..0] == [];
        assert [Refetch(Agents)][..0] == [];
      }
    }
  }

  /** The lists are refetched exactly when the request succeeded or none was issued; a failure toasts the server's message or "Action failed". */
  lemma RefetchOnlyAfterSuccess(c: UserConfirmation, reply: Response)
    ensures Refetch(Users) in ConfirmUserEvents(c, reply) <==> reply.Succeeded? || ActionRequest(c).None?
    ensures Refetch(Agents) in ConfirmUserEvents(c, reply) <==> reply.Succeeded? || ActionRequest(c).None?
    ensures ActionRequest(c).Some? && reply.Failed? ==>
              ConfirmUserEvents(c, reply) == [Issued(ActionRequest(c).value.0), ToastError(ErrorText(reply.message, ActionFallback))]
  {
  }

  class AdminActions {
    var showConfirmation: bool
    var confirmation: UserConfirmation
    var showUserDetails: bool
    var selectedUser: Option<Account>
    var events: seq<Event>

    constructor()
      ensures !showConfirmation && confirmation == UserConfirmation("", "", "")
      ensures !showUserDetails && selectedUser == None && events == []
    {
      showConfirmation, confirmation := false, UserConfirmation("", "", "");
      showUserDetails, selectedUser, events := false, None, [];
    }

    /** `handleViewUser`: open the details dialog on `u`. */
    method ViewUser(u: Account)
      modifies this`selectedUser, this`showUserDetails
      ensures selectedUser == Some(u) && showUserDetails
    {
      selectedUser := Some(u);
      showUserDetails := true;
    }

    /** `handleUserAction`: stage the action and open the confirmation. */
    method UserAction(userId: string, action: string, userName: string)
      modifies this`confirmation, this`showConfirmation
      ensures confirmation == UserConfirmation(userId, action, userName) && showConfirmation
    {
      confirmation := UserConfirmation(userId, action, userName);
      showConfirmation := true;
    }

    /** Cancelling the confirmation closes it and issues nothing. */
    method CancelConfirmation()
      modifies this`showConfirmation
      ensures !showConfirmation
    {
      showConfirmation := false;
    }

    /** `confirmUserAction`: record what the staged action does; the confirmation closes in every outcome. */
    method ConfirmUserAction(reply: Response)
      modifies this`events, this`showConfirmation
      ensures events == old(events) + ConfirmUserEvents(confirmation, reply)
      ensures !showConfirmation
    {
      var request := ActionRequest(confirmation);
      if request.Some? {
        var (m, success) := request.value;
        events := events + [Issued(m)];
        if reply.Failed? {
          events := events + [ToastError(ErrorText(reply.message, ActionFallback))];
          showConfirmation := false;
          return;
        }
        events := events + [ToastSuccess(success)];
      }
      events := events + [Refetch(Users), Refetch(Agents)];
      showConfirmation := false;
    }
  }
}
