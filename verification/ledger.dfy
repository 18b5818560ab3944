/**
 * The dated, signed transactions the balance projection of app/page.tsx
 * works with, the date sort applied to them, and the sums taken over them.
 */
module Ledger {
  import opened Calendar

  /** Whether a transaction debits a subscription or credits a revenue. */
  datatype Kind = SubscriptionCharge | RevenueIncome

  /**
   * One projected transaction. `amount` is already in US dollars (negative
   * for a charge) and `currency` is always "USD"; `date` is the day whose ISO
   * form the application stores as the transaction's date string.
   */
  datatype Transaction = Transaction(
    id: string,
    kind: Kind,
    sourceId: string,
    accountId: string,
    amount: real,
    currency: string,
    date: CalendarDate,
    description: string)

  // ---------------------------------------------------------------------------
  // Sorting by date

  /** Dates never decrease along `ts`. */
  predicate SortedByDate(ts: seq<Transaction>)
  {
    forall i, j :: 0 <= i < j < |ts| ==> NotAfter(ts[i].date, ts[j].date)
  }

  /** Places `t` after every leading transaction of `ts` that is not later than it. */
  function InsertByDate(t: Transaction, ts: seq<Transaction>): (r: seq<Transaction>)
    ensures multiset(r) == multiset(ts) + multiset{t}
    ensures |r| == |ts| + 1
  {
    if |ts| == 0 then [t]
    else if Before(t.date, ts[0].date) then [t] + ts
    else
      assert ts == [ts[0]] + ts[1..];
      [ts[0]] + InsertByDate(t, ts[1..])
  }

  /** Inserting into a date-ordered list keeps it in date order. */
  lemma {:induction false} InsertKeepsSorted(t: Transaction, ts: seq<Transaction>)
    requires SortedByDate(ts)
    ensures SortedByDate(InsertByDate(t, ts))
  {
    if |ts| > 0 && !Before(t.date, ts[0].date) {
      var rest := InsertByDate(t, ts[1..]);
      InsertKeepsSorted(t, ts[1..]);
      forall j | 0 <= j < |rest|
        ensures NotAfter(ts[0].date, rest[j].date)
      {
        assert rest[j] in multiset(rest);
        if rest[j] != t {
          assert rest[j] in multiset(ts[1..]);
        }
      }
    }
  }

  /**
   * The transactions ordered by date, as the stable `Array.prototype.sort`
   * with a date-difference comparator orders them.
   */
  function SortByDate(ts: seq<Transaction>): (r: seq<Transaction>)
    ensures SortedByDate(r)
    ensures multiset(r) == multiset(ts)
    ensures |r| == |ts|
  {
    if |ts| == 0 then []
    else
      assert ts == ts[..|ts| - 1] + [ts[|ts| - 1]];
      var sorted := SortByDate(ts[..|ts| - 1]);
      InsertKeepsSorted(ts[|ts| - 1], sorted);
      InsertByDate(ts[|ts| - 1], sorted)
  }

  /** Sorting changes nothing in a list that is already in date order. */
  lemma {:induction false} SortSortedIsIdentity(ts: seq<Transaction>)
    requires SortedByDate(ts)
    ensures SortByDate(ts) == ts
  {
    if |ts| > 0 {
      var init := ts[..|ts| - 1];
      assert SortedByDate(init);
      SortSortedIsIdentity(init);
      AppendLatest(init, ts[|ts| - 1]);
      assert init + [ts[|ts| - 1]] == ts;
    }
  }

  /** Inserting a transaction no earlier than all others appends it. */
  lemma {:induction false} AppendLatest(ts: seq<Transaction>, t: Transaction)
    requires SortedByDate(ts)
    requires forall i :: 0 <= i < |ts| ==> NotAfter(ts[i].date, t.date)
    ensures InsertByDate(t, ts) == ts + [t]
  {
    if |ts| > 0 {
      AppendLatest(ts[1..], t);
      assert ts == [ts[0]] + ts[1..];
    }
  }

  // ---------------------------------------------------------------------------
  // Sums

  /** The transactions booked on account `accountId`, in their order. */
  function ForAccount(ts: seq<Transaction>, accountId: string): (r: seq<Transaction>)
    ensures forall t :: t in r <==> t in ts && t.accountId == accountId
    ensures |r| <= |ts|
  {
    if |ts| == 0 then []
    else
      var rest := ForAccount(ts[1..], accountId);
      assert forall t :: t in ts <==> t == ts[0] || t in ts[1..];
      if ts[0].accountId == accountId then [ts[0]] + rest else rest
  }

  /** The sum of the transactions' amounts (the `balance += transaction.amount` loop). */
  function Total(ts: seq<Transaction>): (r: real)
    ensures (forall i :: 0 <= i < |ts| ==> ts[i].amount >= 0.0) ==> r >= 0.0
    ensures (forall i :: 0 <= i < |ts| ==> ts[i].amount <= 0.0) ==> r <= 0.0
  {
    if |ts| == 0 then 0.0 else ts[0].amount + Total(ts[1..])
  }

  /** The part of `t`'s amount that falls on `accountId`. */
  function Share(t: Transaction, accountId: string): real
  {
    if t.accountId == accountId then t.amount else 0.0
  }

  /** The sum of every transaction's share on `accountId`. */
  function AccountSum(ts: seq<Transaction>, accountId: string): (r: real)
    ensures (forall i :: 0 <= i < |ts| ==> ts[i].accountId != accountId) ==> r == 0.0
    ensures (forall i :: 0 <= i < |ts| ==> ts[i].accountId == accountId) ==> r == Total(ts)
  {
    if |ts| == 0 then 0.0 else Share(ts[0], accountId) + AccountSum(ts[1..], accountId)
  }

  /** Filtering the account's transactions and summing them gives the account's share of the whole list. */
  lemma {:induction false} TotalForAccount(ts: seq<Transaction>, accountId: string)
    ensures Total(ForAccount(ts, accountId)) == AccountSum(ts, accountId)
  {
    if |ts| > 0 {
      TotalForAccount(ts[1..], accountId);
    }
  }

  /** Sums distribute over concatenation. */
  lemma {:induction false} TotalAppend(a: seq<Transaction>, b: seq<Transaction>, accountId: string)
    ensures Total(a + b) == Total(a) + Total(b)
    ensures AccountSum(a + b, accountId) == AccountSum(a, accountId) + AccountSum(b, accountId)
  {
    if |a| > 0 {
      assert (a + b)[0] == a[0] && (a + b)[1..] == a[1..] + b;
      TotalAppend(a[1..], b, accountId);
    } else {
      assert a + b == b;
    }
  }

  /** Removing the element at `k` takes its share out of the account sum. */
  lemma {:induction false} AccountSumRemove(ts: seq<Transaction>, k: nat, accountId: string)
    requires k < |ts|
    ensures AccountSum(ts, accountId) == Share(ts[k], accountId) + AccountSum(ts[..k] + ts[k + 1..], accountId)
  {
    if k > 0 {
      AccountSumRemove(ts[1..], k - 1, accountId);
      assert ts[1..][..k - 1] + ts[1..][k..] == (ts[..k] + ts[k + 1..])[1..];
    } else {
      assert ts[..k] + ts[k + 1..] == ts[1..];
    }
  }

  /** An account's sum depends only on which transactions there are, not on their order. */
  lemma {:induction false} AccountSumPermutation(a: seq<Transaction>, b: seq<Transaction>, accountId: string)
    requires multiset(a) == multiset(b)
    ensures AccountSum(a, accountId) == AccountSum(b, accountId)
    decreases |a|
  {
    if |a| > 0 {
      assert a[0] in multiset(b);
      var k :| 0 <= k < |b| && b[k] == a[0];
      var b' := b[..k] + b[k + 1..];
      assert multiset(b) == multiset(b') + multiset{a[0]} by {
        assert b == b[..k] + [b[k]] + b[k + 1..];
      }
      assert multiset(a) == multiset(a[1..]) + multiset{a[0]} by {
        assert a == [a[0]] + a[1..];
      }
      MultisetCancel(multiset(a[1..]), multiset(b'), a[0]);
      AccountSumPermutation(a[1..], b', accountId);
      AccountSumRemove(b, k, accountId);
    } else {
      assert |b| == 0;
    }
  }

  lemma MultisetCancel<T>(x: multiset<T>, y: multiset<T>, e: T)
    requires x + multiset{e} == y + multiset{e}
    ensures x == y
  {
    assert forall v :: x[v] == (x + multiset{e})[v] - multiset{e}[v];
    assert forall v :: y[v] == (y + multiset{e})[v] - multiset{e}[v];
  }

  /** The sum of one account's transactions does not depend on the date sort. */
  lemma SortKeepsAccountTotal(ts: seq<Transaction>, accountId: string)
    ensures Total(ForAccount(SortByDate(ts), accountId)) == Total(ForAccount(ts, accountId))
  {
    TotalForAccount(ts, accountId);
    TotalForAccount(SortByDate(ts), accountId);
    AccountSumPermutation(SortByDate(ts), ts, accountId);
  }
}
