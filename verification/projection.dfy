/**
 * The recurring-transaction projection and balance engine of app/page.tsx:
 * every subscription and revenue item is expanded into dated USD
 * transactions up to a target day, the transactions are sorted by date and
 * folded into per-account balances, a total, and monthly-normalised totals.
 * The currency converter is a parameter: one snapshot of the rates.
 */
module Projection {
  import opened Wrappers
  import opened Text
  import opened Calendar
  import opened Items
  import opened Stepping
  import opened Recurrence
  import opened Ledger
  import opened Sequences

  /** Converts an amount in a currency to US dollars. */
  type Converter = (real, string) -> real

  // ---------------------------------------------------------------------------
  // Due dates

  /**
   * The days on which an item whose anchor text is `text` falls due up to and
   * including `target`: nothing when the text is not a date or the anchor is
   * later than the target; a `once` item falls due on its anchor only; a
   * recurring item on each occurrence of the projection loop.
   */
  function DueDates(text: string, period: Period, target: CalendarDate): (r: seq<CalendarDate>)
    ensures ParseIsoDate(text).None? ==> r == []
    ensures ParseIsoDate(text).Some? ==>
      var anchor := ParseIsoDate(text).value;
      && (|r| == 0 <==> Before(target, anchor))
      && (|r| > 0 ==> r[0] == anchor)
      && (period == Once ==> |r| <= 1 && (|r| == 1 <==> NotAfter(anchor, target)))
      && (period != Once ==> forall i :: 0 <= i < |r| ==> r[i] == NthOccurrence(anchor, period, i))
      && (period != Once ==> Before(target, NthOccurrence(anchor, period, |r|)))
    ensures forall i :: 0 <= i < |r| ==> 0 <= r[i].year && NotAfter(r[i], target)
    ensures forall i, j :: 0 <= i < j < |r| ==> Before(r[i], r[j])
  {
    match ParseIsoDate(text)
    case None => []
    case Some(anchor) =>
      if period == Once then
        if NotAfter(anchor, target) then [anchor] else []
      else
        Occurrences(anchor, period, target)
  }

  /**
   * No due day is missed: every occurrence of a recurring item up to the
   * target is among its due dates, at its own position.
   */
  lemma DueDatesComplete(text: string, period: Period, target: CalendarDate, k: nat)
    requires ParseIsoDate(text).Some? && period != Once
    requires NotAfter(NthOccurrence(ParseIsoDate(text).value, period, k), target)
    ensures k < |DueDates(text, period, target)|
    ensures DueDates(text, period, target)[k] == NthOccurrence(ParseIsoDate(text).value, period, k)
  {
    var anchor := ParseIsoDate(text).value;
    var n := |DueDates(text, period, target)|;
    if n < k {
      IterateIncreases(anchor, ProjectionStep(anchor.day, period), n, k);
      assert false;
    } else if n == k {
      assert false;
    }
  }

  // ---------------------------------------------------------------------------
  // Transactions

  /** An account or date field holds a value the `!field` test lets through. */
  function ItemTransactions(prefix: string, kind: Kind, itemId: string, accountId: Option<string>,
                            dateText: Option<string>, period: Period, amount: real, description: string,
                            target: CalendarDate): (r: seq<Transaction>)
    ensures !IsSet(accountId) || !IsSet(dateText) ==> r == []
    ensures IsSet(accountId) && IsSet(dateText) ==> |r| == |DueDates(dateText.value, period, target)|
    ensures forall i :: 0 <= i < |r| ==>
      && r[i].date == DueDates(dateText.value, period, target)[i]
      && r[i].id == prefix + itemId + "-" + IsoDate(r[i].date)
      && r[i].kind == kind && r[i].sourceId == itemId && r[i].accountId == accountId.value
      && r[i].amount == amount && r[i].currency == "USD" && r[i].description == description
  {
    if !IsSet(accountId) || !IsSet(dateText) then []
    else
      var dates := DueDates(dateText.value, period, target);
      seq(|dates|, i requires 0 <= i < |dates| =>
        Transaction(prefix + itemId + "-" + IsoDate(dates[i]), kind, itemId, accountId.value,
                    amount, "USD", dates[i], description))
  }

  /** A charge of `amount` dollars, as the signed amount it adds to a balance. */
  function Debit(amount: real): (r: real)
    ensures r + amount == 0.0
  {
    -amount
  }

  /** The debits of one subscription up to `target`: minus its converted amount on each due day. */
  function SubscriptionTransactions(sub: SubscriptionItem, target: CalendarDate, convert: Converter): (r: seq<Transaction>)
    ensures forall i :: 0 <= i < |r| ==> r[i].kind == SubscriptionCharge && r[i].amount == Debit(convert(sub.amount, sub.currency))
  {
    ItemTransactions("sub-", SubscriptionCharge, sub.id, sub.accountId, Some(sub.repetitionDate), sub.period,
                     Debit(convert(sub.amount, sub.currency)), sub.name + " subscription", target)
  }

  /** The credits of one revenue item up to `target`: its converted amount on each due day. */
  function RevenueTransactions(rev: RevenueItem, target: CalendarDate, convert: Converter): (r: seq<Transaction>)
    ensures forall i :: 0 <= i < |r| ==> r[i].kind == RevenueIncome && r[i].amount == convert(rev.amount, rev.currency)
  {
    ItemTransactions("rev-", RevenueIncome, rev.id, rev.accountId, rev.repetitionDate, rev.period,
                     convert(rev.amount, rev.currency), rev.name + " income", target)
  }

  /** Every transaction is dated on a day of a four-digit-or-later year, no later than the target. */
  predicate UpTo(ts: seq<Transaction>, target: CalendarDate)
  {
    forall t :: t in ts ==> 0 <= t.date.year && NotAfter(t.date, target)
  }

  function SubscriptionsTransactions(subs: seq<SubscriptionItem>, target: CalendarDate, convert: Converter): (r: seq<Transaction>)
    ensures UpTo(r, target)
  {
    if |subs| == 0 then []
    else SubscriptionTransactions(subs[0], target, convert) + SubscriptionsTransactions(subs[1..], target, convert)
  }

  function RevenuesTransactions(revs: seq<RevenueItem>, target: CalendarDate, convert: Converter): (r: seq<Transaction>)
    ensures UpTo(r, target)
  {
    if |revs| == 0 then []
    else RevenueTransactions(revs[0], target, convert) + RevenuesTransactions(revs[1..], target, convert)
  }

  /** Every subscription's transactions in item order, then every revenue's. */
  function Generated(subs: seq<SubscriptionItem>, revs: seq<RevenueItem>, target: CalendarDate, convert: Converter): (r: seq<Transaction>)
    ensures UpTo(r, target)
  {
    SubscriptionsTransactions(subs, target, convert) + RevenuesTransactions(revs, target, convert)
  }

  /**
   * `generateAllTransactionsUpToDate`: the generated transactions in date
   * order; a date-sorted permutation of what the items produce.
   */
  function AllTransactions(subs: seq<SubscriptionItem>, revs: seq<RevenueItem>, target: CalendarDate, convert: Converter): (r: seq<Transaction>)
    ensures SortedByDate(r)
    ensures multiset(r) == multiset(Generated(subs, revs, target, convert))
    ensures UpTo(r, target)
  {
    var g := Generated(subs, revs, target, convert);
    var r := SortByDate(g);
    assert forall t :: t in r ==> t in multiset(g);
    r
  }

  // ---------------------------------------------------------------------------
  // Balances

  /** The first account whose id is `id` (`Array.prototype.find`). */
  function FindAccount(accounts: seq<FinanceItem>, id: string): (r: Option<FinanceItem>)
    ensures r.None? <==> forall i :: 0 <= i < |accounts| ==> accounts[i].id != id
    ensures r.Some? ==> exists i :: 0 <= i < |accounts| && accounts[i] == r.value && r.value.id == id
                                   && forall j :: 0 <= j < i ==> accounts[j].id != id
  {
    if |accounts| == 0 then None
    else if accounts[0].id == id then Some(accounts[0])
    else
      var r := FindAccount(accounts[1..], id);
      assert forall i :: 1 <= i < |accounts| ==> accounts[i] == accounts[1..][i - 1];
      r
  }

  /**
   * `calculateBalanceForAccount`: 0 for an unknown account, otherwise the
   * converted opening amount plus every projected transaction booked on it.
   */
  function AccountBalance(accounts: seq<FinanceItem>, subs: seq<SubscriptionItem>, revs: seq<RevenueItem>,
                          id: string, target: CalendarDate, convert: Converter): (r: real)
    ensures (forall i :: 0 <= i < |accounts| ==> accounts[i].id != id) ==> r == 0.0
    ensures FindAccount(accounts, id).Some? ==>
      var account := FindAccount(accounts, id).value;
      r == convert(account.amount, account.currency) + AccountSum(Generated(subs, revs, target, convert), id)
  {
    var g := Generated(subs, revs, target, convert);
    SortKeepsAccountTotal(g, id);
    TotalForAccount(g, id);
    match FindAccount(accounts, id)
    case None => 0.0
    case Some(account) =>
      convert(account.amount, account.currency) + Total(ForAccount(AllTransactions(subs, revs, target, convert), id))
  }

  /** An optional account reference that the projection follows and that names `id`. */
  predicate Linked(accountId: Option<string>, id: string)
  {
    IsSet(accountId) && accountId.value == id
  }

  /** How often an item with this anchor text and period falls due up to `target`. */
  function DueCount(dateText: Option<string>, period: Period, target: CalendarDate): nat
  {
    if IsSet(dateText) then |DueDates(dateText.value, period, target)| else 0
  }

  /** What the subscriptions charge to account `id` up to `target`, item by item. */
  function SubscriptionFlow(subs: seq<SubscriptionItem>, id: string, target: CalendarDate, convert: Converter): real
  {
    if |subs| == 0 then 0.0
    else
      var s := subs[0];
      (if Linked(s.accountId, id) then Times(Debit(convert(s.amount, s.currency)), DueCount(Some(s.repetitionDate), s.period, target)) else 0.0)
      + SubscriptionFlow(subs[1..], id, target, convert)
  }

  /** What the revenues pay into account `id` up to `target`, item by item. */
  function RevenueFlow(revs: seq<RevenueItem>, id: string, target: CalendarDate, convert: Converter): real
  {
    if |revs| == 0 then 0.0
    else
      var v := revs[0];
      (if Linked(v.accountId, id) then Times(convert(v.amount, v.currency), DueCount(v.repetitionDate, v.period, target)) else 0.0)
      + RevenueFlow(revs[1..], id, target, convert)
  }

  /** `amount` added up `n` times. */
  function Times(amount: real, n: nat): (r: real)
  {
    if n == 0 then 0.0 else amount + Times(amount, n - 1)
  }

  lemma {:induction false} TimesIsProduct(amount: real, n: nat)
    ensures Times(amount, n) == amount * n as real
  {
    if n > 0 {
      TimesIsProduct(amount, n - 1);
    }
  }

  /** All transactions on one account, with one amount, sum to that amount times their number. */
  lemma {:induction false} UniformAccountSum(ts: seq<Transaction>, account: string, amount: real, id: string)
    requires forall i :: 0 <= i < |ts| ==> ts[i].accountId == account && ts[i].amount == amount
    ensures AccountSum(ts, id) == if account == id then Times(amount, |ts|) else 0.0
  {
    if |ts| > 0 {
      UniformAccountSum(ts[1..], account, amount, id);
    }
  }

  lemma ItemAccountSum(prefix: string, kind: Kind, itemId: string, accountId: Option<string>,
                       dateText: Option<string>, period: Period, amount: real, description: string,
                       target: CalendarDate, id: string)
    ensures AccountSum(ItemTransactions(prefix, kind, itemId, accountId, dateText, period, amount, description, target), id)
         == if Linked(accountId, id) then Times(amount, DueCount(dateText, period, target)) else 0.0
  {
    var ts := ItemTransactions(prefix, kind, itemId, accountId, dateText, period, amount, description, target);
    if IsSet(accountId) && IsSet(dateText) {
      UniformAccountSum(ts, accountId.value, amount, id);
      var n := DueCount(dateText, period, target);
      assert |ts| == n;
      assert Linked(accountId, id) <==> accountId.value == id;
    } else {
      assert ts == [];
      assert AccountSum(ts, id) == 0.0;
      assert DueCount(dateText, period, target) == 0 || !Linked(accountId, id);
    }
  }

  lemma SubscriptionAccountSum(s: SubscriptionItem, id: string, target: CalendarDate, convert: Converter)
    ensures AccountSum(SubscriptionTransactions(s, target, convert), id)
         == if Linked(s.accountId, id) then Times(Debit(convert(s.amount, s.currency)), DueCount(Some(s.repetitionDate), s.period, target)) else 0.0
  {
    ItemAccountSum("sub-", SubscriptionCharge, s.id, s.accountId, Some(s.repetitionDate), s.period,
                   Debit(convert(s.amount, s.currency)), s.name + " subscription", target, id);
  }

  lemma RevenueAccountSum(v: RevenueItem, id: string, target: CalendarDate, convert: Converter)
    ensures AccountSum(RevenueTransactions(v, target, convert), id)
         == if Linked(v.accountId, id) then Times(convert(v.amount, v.currency), DueCount(v.repetitionDate, v.period, target)) else 0.0
  {
    ItemAccountSum("rev-", RevenueIncome, v.id, v.accountId, v.repetitionDate, v.period,
                   convert(v.amount, v.currency), v.name + " income", target, id);
  }

  lemma {:induction false} SubscriptionsAccountSum(subs: seq<SubscriptionItem>, id: string, target: CalendarDate, convert: Converter)
    ensures AccountSum(SubscriptionsTransactions(subs, target, convert), id) == SubscriptionFlow(subs, id, target, convert)
  {
    if |subs| > 0 {
      TotalAppend(SubscriptionTransactions(subs[0], target, convert), SubscriptionsTransactions(subs[1..], target, convert), id);
      SubscriptionAccountSum(subs[0], id, target, convert);
      SubscriptionsAccountSum(subs[1..], id, target, convert);
    }
  }

  lemma {:induction false} RevenuesAccountSum(revs: seq<RevenueItem>, id: string, target: CalendarDate, convert: Converter)
    ensures AccountSum(RevenuesTransactions(revs, target, convert), id) == RevenueFlow(revs, id, target, convert)
  {
    if |revs| > 0 {
      TotalAppend(RevenueTransactions(revs[0], target, convert), RevenuesTransactions(revs[1..], target, convert), id);
      RevenueAccountSum(revs[0], id, target, convert);
      RevenuesAccountSum(revs[1..], id, target, convert);
    }
  }

  /**
   * An account's balance is its converted opening amount, minus each linked
   * subscription's converted amount once per due day, plus each linked
   * revenue's converted amount once per due day; an unknown account has 0.
   */
  lemma BalanceByItems(accounts: seq<FinanceItem>, subs: seq<SubscriptionItem>, revs: seq<RevenueItem>,
                       id: string, target: CalendarDate, convert: Converter)
    ensures AccountBalance(accounts, subs, revs, id, target, convert)
         == match FindAccount(accounts, id)
            case None => 0.0
            case Some(account) =>
              convert(account.amount, account.currency)
              + SubscriptionFlow(subs, id, target, convert) + RevenueFlow(revs, id, target, convert)
  {
    var g := Generated(subs, revs, target, convert);
    SortKeepsAccountTotal(g, id);
    TotalForAccount(g, id);
    TotalAppend(SubscriptionsTransactions(subs, target, convert), RevenuesTransactions(revs, target, convert), id);
    SubscriptionsAccountSum(subs, id, target, convert);
    RevenuesAccountSum(revs, id, target, convert);
  }

  /** Without linked items an account keeps its converted opening amount. */
  lemma UnlinkedAccountKeepsOpeningAmount(accounts: seq<FinanceItem>, subs: seq<SubscriptionItem>, revs: seq<RevenueItem>,
                                          id: string, target: CalendarDate, convert: Converter)
    requires forall s :: s in subs ==> !Linked(s.accountId, id)
    requires forall v :: v in revs ==> !Linked(v.accountId, id)
    requires FindAccount(accounts, id).Some?
    ensures AccountBalance(accounts, subs, revs, id, target, convert)
         == convert(FindAccount(accounts, id).value.amount, FindAccount(accounts, id).value.currency)
  {
    BalanceByItems(accounts, subs, revs, id, target, convert);
    UnlinkedSubscriptionFlow(subs, id, target, convert);
    UnlinkedRevenueFlow(revs, id, target, convert);
  }

  lemma {:induction false} UnlinkedSubscriptionFlow(subs: seq<SubscriptionItem>, id: string, target: CalendarDate, convert: Converter)
    requires forall s :: s in subs ==> !Linked(s.accountId, id)
    ensures SubscriptionFlow(subs, id, target, convert) == 0.0
  {
    if |subs| > 0 {
      assert subs[0] in subs;
      assert forall s :: s in subs[1..] ==> s in subs;
      UnlinkedSubscriptionFlow(subs[1..], id, target, convert);
    }
  }

  lemma {:induction false} UnlinkedRevenueFlow(revs: seq<RevenueItem>, id: string, target: CalendarDate, convert: Converter)
    requires forall v :: v in revs ==> !Linked(v.accountId, id)
    ensures RevenueFlow(revs, id, target, convert) == 0.0
  {
    if |revs| > 0 {
      assert revs[0] in revs;
      assert forall v :: v in revs[1..] ==> v in revs;
      UnlinkedRevenueFlow(revs[1..], id, target, convert);
    }
  }

  /**
   * `calculateBalanceAtDate`: one entry per account id, holding that
   * account's balance (a later duplicate id writes the same value again).
   */
  function BalanceMap(accounts: seq<FinanceItem>, subs: seq<SubscriptionItem>, revs: seq<RevenueItem>,
                      target: CalendarDate, convert: Converter): (m: map<string, real>)
    ensures forall id :: id in m <==> exists i :: 0 <= i < |accounts| && accounts[i].id == id
    ensures forall id :: id in m ==> m[id] == AccountBalance(accounts, subs, revs, id, target, convert)
  {
    Tabulate(accounts, |accounts|, id => AccountBalance(accounts, subs, revs, id, target, convert))
  }

  /** The map from the ids of the first `n` accounts to `value` of each. */
  function Tabulate(accounts: seq<FinanceItem>, n: nat, value: string -> real): (m: map<string, real>)
    requires n <= |accounts|
    ensures forall id :: id in m <==> exists i :: 0 <= i < n && accounts[i].id == id
    ensures forall id :: id in m ==> m[id] == value(id)
  {
    if n == 0 then map[]
    else Tabulate(accounts, n - 1, value)[accounts[n - 1].id := value(accounts[n - 1].id)]
  }

  /** The ids of `ids` in order of first appearance: the keys of the balance object. */
  function DistinctIds(ids: seq<string>): (r: seq<string>)
    ensures forall x :: x in r <==> x in ids
    ensures forall i, j :: 0 <= i < j < |r| ==> r[i] != r[j]
  {
    if |ids| == 0 then []
    else
      var init := DistinctIds(ids[..|ids| - 1]);
      assert forall x :: x in ids <==> x in ids[..|ids| - 1] || x == ids[|ids| - 1] by {
        assert ids == ids[..|ids| - 1] + [ids[|ids| - 1]];
      }
      if ids[|ids| - 1] in init then init else init + [ids[|ids| - 1]]
  }

  function SumOver(ids: seq<string>, value: string -> real): real
  {
    if |ids| == 0 then 0.0 else value(ids[0]) + SumOver(ids[1..], value)
  }

  function Ids(accounts: seq<FinanceItem>): (r: seq<string>)
    ensures |r| == |accounts| && forall i :: 0 <= i < |r| ==> r[i] == accounts[i].id
  {
    seq(|accounts|, i requires 0 <= i < |accounts| => accounts[i].id)
  }

  /** The total balance: the sum of the balance object's values, one per distinct account id. */
  function TotalBalance(accounts: seq<FinanceItem>, subs: seq<SubscriptionItem>, revs: seq<RevenueItem>,
                        target: CalendarDate, convert: Converter): (r: real)
    ensures r == SumOver(DistinctIds(Ids(accounts)), id => AccountBalance(accounts, subs, revs, id, target, convert))
  {
    var m := BalanceMap(accounts, subs, revs, target, convert);
    var keys := DistinctIds(Ids(accounts));
    forall k | k in keys ensures k in m {
      var i :| 0 <= i < |Ids(accounts)| && Ids(accounts)[i] == k;
    }
    SumOverAgree(keys, k => if k in m then m[k] else 0.0, id => AccountBalance(accounts, subs, revs, id, target, convert));
    SumOver(keys, k => if k in m then m[k] else 0.0)
  }

  /** Distinct ids are their own first appearances. */
  lemma {:induction false} DistinctIdsOfDistinct(ids: seq<string>)
    requires forall i, j :: 0 <= i < j < |ids| ==> ids[i] != ids[j]
    ensures DistinctIds(ids) == ids
  {
    if |ids| > 0 {
      var init := ids[..|ids| - 1];
      DistinctIdsOfDistinct(init);
      assert ids[|ids| - 1] !in init;
      assert init + [ids[|ids| - 1]] == ids;
    }
  }

  lemma {:induction false} SumOverAgree(ids: seq<string>, f: string -> real, g: string -> real)
    requires forall x :: x in ids ==> f(x) == g(x)
    ensures SumOver(ids, f) == SumOver(ids, g)
  {
    if |ids| > 0 {
      assert ids[0] in ids;
      assert forall x :: x in ids[1..] ==> x in ids;
      SumOverAgree(ids[1..], f, g);
    }
  }

  /** With distinct account ids the total is the sum of every account's balance. */
  lemma TotalOfDistinctAccounts(accounts: seq<FinanceItem>, subs: seq<SubscriptionItem>, revs: seq<RevenueItem>,
                                target: CalendarDate, convert: Converter)
    requires forall i, j :: 0 <= i < j < |accounts| ==> accounts[i].id != accounts[j].id
    ensures TotalBalance(accounts, subs, revs, target, convert)
         == SumOver(Ids(accounts), id => AccountBalance(accounts, subs, revs, id, target, convert))
  {
    var m := BalanceMap(accounts, subs, revs, target, convert);
    var ids := Ids(accounts);
    DistinctIdsOfDistinct(ids);
    forall x | x in ids ensures x in m {
      var i :| 0 <= i < |ids| && ids[i] == x;
    }
    SumOverAgree(ids, k => if k in m then m[k] else 0.0, id => AccountBalance(accounts, subs, revs, id, target, convert));
  }

  /**
   * The accounts as the finance tab shows them: each with its projected
   * balance, computed again for that account, attached as `calculatedAmount`.
   * The converter is one snapshot for the whole projection, so this is the
   * value the balance object holds for the account.
   */
  function WithBalances(accounts: seq<FinanceItem>, subs: seq<SubscriptionItem>, revs: seq<RevenueItem>,
                        target: CalendarDate, convert: Converter): (r: seq<FinanceItem>)
    ensures |r| == |accounts|
    ensures forall i :: 0 <= i < |r| ==>
      var m := BalanceMap(accounts, subs, revs, target, convert);
      accounts[i].id in m && r[i] == accounts[i].(calculatedAmount := Some(m[accounts[i].id]))
  {
    seq(|accounts|, i requires 0 <= i < |accounts| =>
      accounts[i].(calculatedAmount := Some(AccountBalance(accounts, subs, revs, accounts[i].id, target, convert))))
  }

  // ---------------------------------------------------------------------------
  // Monthly totals

  /** A subscription's cost per month: a yearly one counts a twelfth. */
  function MonthlySubscriptionShare(sub: SubscriptionItem, convert: Converter): (r: real)
    ensures sub.period == Yearly ==> 12.0 * r == convert(sub.amount, sub.currency)
    ensures sub.period == Monthly ==> r == convert(sub.amount, sub.currency)
  {
    var usd := convert(sub.amount, sub.currency);
    if sub.period == Yearly then usd / 12.0 else usd
  }

  /** A revenue's income per month: a yearly one counts a twelfth, a one-time one in full. */
  function MonthlyRevenueShare(rev: RevenueItem, convert: Converter): (r: real)
    ensures rev.period == Yearly ==> 12.0 * r == convert(rev.amount, rev.currency)
    ensures rev.period != Yearly ==> r == convert(rev.amount, rev.currency)
  {
    var usd := convert(rev.amount, rev.currency);
    if rev.period == Once then usd
    else if rev.period == Yearly then usd / 12.0 else usd
  }

  /** The monthly subscription total; prices that convert to nothing negative give a total that is not negative. */
  function MonthlySubscriptionTotal(subs: seq<SubscriptionItem>, convert: Converter): (r: real)
    ensures (forall s :: s in subs ==> convert(s.amount, s.currency) >= 0.0) ==> r >= 0.0
  {
    if |subs| == 0 then 0.0 else MonthlySubscriptionShare(subs[0], convert) + MonthlySubscriptionTotal(subs[1..], convert)
  }

  /** The monthly revenue total; incomes that convert to nothing negative give a total that is not negative. */
  function MonthlyRevenueTotal(revs: seq<RevenueItem>, convert: Converter): (r: real)
    ensures (forall v :: v in revs ==> convert(v.amount, v.currency) >= 0.0) ==> r >= 0.0
  {
    if |revs| == 0 then 0.0 else MonthlyRevenueShare(revs[0], convert) + MonthlyRevenueTotal(revs[1..], convert)
  }

  /** What a subscription costs over a year: a monthly one twelve times. */
  function AnnualCost(sub: SubscriptionItem, convert: Converter): real
  {
    if sub.period == Monthly then 12.0 * convert(sub.amount, sub.currency) else convert(sub.amount, sub.currency)
  }

  function AnnualCostTotal(subs: seq<SubscriptionItem>, convert: Converter): real
  {
    if |subs| == 0 then 0.0 else AnnualCost(subs[0], convert) + AnnualCostTotal(subs[1..], convert)
  }

  /** Twelve times the monthly subscription total is the subscriptions' yearly cost. */
  lemma {:induction false} MonthlySubscriptionsAnnualise(subs: seq<SubscriptionItem>, convert: Converter)
    ensures 12.0 * MonthlySubscriptionTotal(subs, convert) == AnnualCostTotal(subs, convert)
  {
    if |subs| > 0 {
      MonthlySubscriptionsAnnualise(subs[1..], convert);
    }
  }

  /**
   * A revenue's twelve-month weight in the monthly total: a one-time income
   * counts like a monthly one.
   */
  function AnnualWeight(rev: RevenueItem, convert: Converter): real
  {
    if rev.period == Yearly then convert(rev.amount, rev.currency) else 12.0 * convert(rev.amount, rev.currency)
  }

  function AnnualWeightTotal(revs: seq<RevenueItem>, convert: Converter): real
  {
    if |revs| == 0 then 0.0 else AnnualWeight(revs[0], convert) + AnnualWeightTotal(revs[1..], convert)
  }

  /** Twelve times the monthly revenue total weighs yearly items once and the others twelve times. */
  lemma {:induction false} MonthlyRevenueAnnualise(revs: seq<RevenueItem>, convert: Converter)
    ensures 12.0 * MonthlyRevenueTotal(revs, convert) == AnnualWeightTotal(revs, convert)
  {
    if |revs| > 0 {
      MonthlyRevenueAnnualise(revs[1..], convert);
    }
  }

  /** The monthly totals are additive over the item lists. */
  lemma {:induction false} MonthlyTotalsAppend(s1: seq<SubscriptionItem>, s2: seq<SubscriptionItem>,
                                               r1: seq<RevenueItem>, r2: seq<RevenueItem>, convert: Converter)
    ensures MonthlySubscriptionTotal(s1 + s2, convert) == MonthlySubscriptionTotal(s1, convert) + MonthlySubscriptionTotal(s2, convert)
    ensures MonthlyRevenueTotal(r1 + r2, convert) == MonthlyRevenueTotal(r1, convert) + MonthlyRevenueTotal(r2, convert)
    decreases |s1| + |r1|
  {
    if |s1| > 0 {
      assert (s1 + s2)[1..] == s1[1..] + s2;
      MonthlyTotalsAppend(s1[1..], s2, r1, r2, convert);
    } else if |r1| > 0 {
      assert (r1 + r2)[1..] == r1[1..] + r2;
      MonthlyTotalsAppend(s1, s2, r1[1..], r2, convert);
    } else {
      assert s1 + s2 == s2 && r1 + r2 == r2;
    }
  }

  // ---------------------------------------------------------------------------
  // Transaction history

  /**
   * `getTransactionHistory`: the transactions up to `end` whose ISO date
   * string lies between those of `start` and `end`, compared as strings, in
   * the date order the projection produced them in.
   */
  function TransactionHistory(subs: seq<SubscriptionItem>, revs: seq<RevenueItem>,
                              start: CalendarDate, end: CalendarDate, convert: Converter): (r: seq<Transaction>)
    ensures SortedByDate(r)
    ensures var all := AllTransactions(subs, revs, end, convert);
            forall t :: multiset(r)[t] == if InWindow(t, IsoDate(start), IsoDate(end)) then multiset(all)[t] else 0
  {
    InDateWindow(AllTransactions(subs, revs, end, convert), IsoDate(start), IsoDate(end))
  }

  /** The string test the history applies to one transaction's date. */
  predicate InWindow(t: Transaction, lo: string, hi: string)
  {
    LexLessEq(lo, IsoDate(t.date)) && LexLessEq(IsoDate(t.date), hi)
  }

  /**
   * `filter` by the window: every transaction that passes is kept as often as
   * it occurs and in its place, every other one is dropped, and a
   * date-ordered list stays in date order.
   */
  function InDateWindow(ts: seq<Transaction>, lo: string, hi: string): (r: seq<Transaction>)
    ensures |r| <= |ts|
    ensures forall t :: multiset(r)[t] == if InWindow(t, lo, hi) then multiset(ts)[t] else 0
    ensures forall t :: t in r <==> t in ts && InWindow(t, lo, hi)
    ensures SortedByDate(ts) ==> SortedByDate(r)
    ensures IsSubsequence(r, ts)
  {
    if |ts| == 0 then []
    else
      var rest := InDateWindow(ts[1..], lo, hi);
      var r := if InWindow(ts[0], lo, hi) then [ts[0]] + rest else rest;
      FilterStep(ts, rest, r, t => InWindow(t, lo, hi));
      FilterStepOrder(ts, rest, r, t => InWindow(t, lo, hi));
      SortedCons(ts, rest);
      r
  }

  /** A date-ordered list's first transaction can head any date-ordered selection from the others. */
  lemma SortedCons(ts: seq<Transaction>, rest: seq<Transaction>)
    requires |ts| > 0
    requires SortedByDate(ts[1..]) ==> SortedByDate(rest)
    requires forall t :: t in rest ==> t in ts[1..]
    ensures SortedByDate(ts) ==> SortedByDate(rest) && SortedByDate([ts[0]] + rest)
  {
    if SortedByDate(ts) {
      assert SortedByDate(ts[1..]) by {
        forall i, j | 0 <= i < j < |ts[1..]| ensures NotAfter(ts[1..][i].date, ts[1..][j].date) {
          assert ts[1..][i] == ts[i + 1] && ts[1..][j] == ts[j + 1];
        }
      }
      var r := [ts[0]] + rest;
      forall i, j | 0 <= i < j < |r| ensures NotAfter(r[i].date, r[j].date) {
        if i == 0 {
          assert r[j] in rest;
          var k :| 0 <= k < |ts[1..]| && ts[1..][k] == r[j];
          assert ts[k + 1] == r[j];
        } else {
          assert r[i] == rest[i - 1] && r[j] == rest[j - 1];
        }
      }
    }
  }

  /**
   * For a window within four-digit years, the string comparison selects
   * exactly the transactions dated from `start` on, each as often as the
   * projection produced it, and keeps them in date order.
   */
  lemma HistoryIsDateWindow(subs: seq<SubscriptionItem>, revs: seq<RevenueItem>,
                            start: CalendarDate, end: CalendarDate, convert: Converter, t: Transaction)
    requires 0 <= start.year <= 9999 && end.year <= 9999
    ensures t in TransactionHistory(subs, revs, start, end, convert)
        <==> t in AllTransactions(subs, revs, end, convert) && NotAfter(start, t.date)
    ensures multiset(TransactionHistory(subs, revs, start, end, convert))[t]
        == if NotAfter(start, t.date) then multiset(AllTransactions(subs, revs, end, convert))[t] else 0
    ensures SortedByDate(TransactionHistory(subs, revs, start, end, convert))
  {
    var all := AllTransactions(subs, revs, end, convert);
    WindowByDate(all, start, end, t);
    if t in all {
      assert 0 <= t.date.year <= end.year;
      IsoDateOrder(start, t.date);
      IsoDateOrder(t.date, end);
    }
  }

  /** Comparing four-digit ISO date strings compares the dates. */
  lemma WindowByDate(ts: seq<Transaction>, start: CalendarDate, end: CalendarDate, t: Transaction)
    requires UpTo(ts, end)
    requires 0 <= start.year <= 9999 && end.year <= 9999
    ensures t in InDateWindow(ts, IsoDate(start), IsoDate(end)) <==> t in ts && NotAfter(start, t.date)
  {
    if t in ts {
      assert 0 <= t.date.year <= end.year;
      IsoDateOrder(start, t.date);
      IsoDateOrder(t.date, end);
    }
  }
}
