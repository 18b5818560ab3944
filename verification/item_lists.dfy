/**
 * The add, edit and delete handlers of app/page.tsx over the three item
 * lists. Edits replace every item carrying the edited item's id
 * (`prev.map(i => i.id === item.id ? item : i)`), deletes keep the items
 * with another id (`prev.filter(item => item.id !== id)`), and additions
 * append the item under an id the handler assigns (a timestamp in the
 * application, a parameter here).
 */
module ItemLists {
  import opened Wrappers
  import opened Items
  import opened Sequences

  // ---------------------------------------------------------------------------
  // Generic list operations, over any record with an id

  /** The items whose id is `id`, counted. */
  function CountId<T>(items: seq<T>, id: string, idOf: T -> string): (n: nat)
    ensures n <= |items|
    ensures n == 0 <==> forall i :: 0 <= i < |items| ==> idOf(items[i]) != id
  {
    if |items| == 0 then 0
    else
      var rest := CountId(items[1..], id, idOf);
      assert forall i :: 1 <= i < |items| ==> items[i] == items[1..][i - 1];
      (if idOf(items[0]) == id then 1 else 0) + rest
  }

  /** Every item whose id is `idOf(item)` replaced by `item`, all others kept in place. */
  function ReplaceById<T>(items: seq<T>, item: T, idOf: T -> string): (r: seq<T>)
    ensures |r| == |items|
    ensures forall i :: 0 <= i < |r| ==> if idOf(items[i]) == idOf(item) then r[i] == item else r[i] == items[i]
  {
    seq(|items|, i requires 0 <= i < |items| => if idOf(items[i]) == idOf(item) then item else items[i])
  }

  /** The items whose id is not `id`, in their order. */
  function RemoveById<T(!new)>(items: seq<T>, id: string, idOf: T -> string): (r: seq<T>)
    ensures forall x :: x in r <==> x in items && idOf(x) != id
    ensures |r| == |items| - CountId(items, id, idOf)
  {
    if |items| == 0 then []
    else
      var rest := RemoveById(items[1..], id, idOf);
      assert forall x :: x in items <==> x == items[0] || x in items[1..];
      if idOf(items[0]) != id then [items[0]] + rest else rest
  }

  /** Deleting is `filter`: every item with another id is kept as often as it occurs, in its place. */
  lemma {:induction false} RemoveByIdIsFilter<T(!new)>(items: seq<T>, id: string, idOf: T -> string)
    ensures var r := RemoveById(items, id, idOf);
            (forall x :: multiset(r)[x] == if idOf(x) != id then multiset(items)[x] else 0)
            && IsSubsequence(r, items)
  {
    if |items| > 0 {
      var rest := RemoveById(items[1..], id, idOf);
      RemoveByIdIsFilter(items[1..], id, idOf);
      var r := RemoveById(items, id, idOf);
      assert r == if idOf(items[0]) != id then [items[0]] + rest else rest;
      FilterStep(items, rest, r, x => idOf(x) != id);
      FilterStepOrder(items, rest, r, x => idOf(x) != id);
    }
  }

  /** Editing with an id nobody carries changes nothing. */
  lemma ReplaceAbsentIsIdentity<T>(items: seq<T>, item: T, idOf: T -> string)
    requires CountId(items, idOf(item), idOf) == 0
    ensures ReplaceById(items, item, idOf) == items
  {
  }

  /** After an edit of an item that is present, the edited item is in the list. */
  lemma ReplacePresentContains<T>(items: seq<T>, item: T, idOf: T -> string)
    requires CountId(items, idOf(item), idOf) > 0
    ensures item in ReplaceById(items, item, idOf)
  {
    var i :| 0 <= i < |items| && idOf(items[i]) == idOf(item);
    assert ReplaceById(items, item, idOf)[i] == item;
  }

  /** Saving the same edit twice is saving it once. */
  lemma ReplaceIdempotent<T>(items: seq<T>, item: T, idOf: T -> string)
    ensures ReplaceById(ReplaceById(items, item, idOf), item, idOf) == ReplaceById(items, item, idOf)
  {
  }

  /** An edit keeps the number of items that carry each id. */
  lemma {:induction false} ReplaceKeepsIdCounts<T>(items: seq<T>, item: T, id: string, idOf: T -> string)
    ensures CountId(ReplaceById(items, item, idOf), id, idOf) == CountId(items, id, idOf)
  {
    if |items| > 0 {
      ReplaceKeepsIdCounts(items[1..], item, id, idOf);
      assert ReplaceById(items, item, idOf)[1..] == ReplaceById(items[1..], item, idOf);
    }
  }

  /** Deleting an id after editing it leaves what deleting it alone leaves. */
  lemma {:induction false} RemoveAfterReplace<T(!new)>(items: seq<T>, item: T, idOf: T -> string)
    ensures RemoveById(ReplaceById(items, item, idOf), idOf(item), idOf) == RemoveById(items, idOf(item), idOf)
  {
    if |items| > 0 {
      RemoveAfterReplace(items[1..], item, idOf);
      assert ReplaceById(items, item, idOf)[1..] == ReplaceById(items[1..], item, idOf);
    }
  }

  /** Deleting twice is deleting once. */
  lemma {:induction false} RemoveIdempotent<T(!new)>(items: seq<T>, id: string, idOf: T -> string)
    ensures RemoveById(RemoveById(items, id, idOf), id, idOf) == RemoveById(items, id, idOf)
  {
    if |items| > 0 {
      RemoveIdempotent(items[1..], id, idOf);
    }
  }

  /** Deleting an id nobody carries changes nothing. */
  lemma {:induction false} RemoveAbsentIsIdentity<T(!new)>(items: seq<T>, id: string, idOf: T -> string)
    requires CountId(items, id, idOf) == 0
    ensures RemoveById(items, id, idOf) == items
  {
    if |items| > 0 {
      RemoveAbsentIsIdentity(items[1..], id, idOf);
      assert items == [items[0]] + items[1..];
    }
  }

  // ---------------------------------------------------------------------------
  // The handlers

  function FinanceId(f: FinanceItem): string { f.id }
  function SubscriptionId(s: SubscriptionItem): string { s.id }
  function RevenueId(v: RevenueItem): string { v.id }

  /**
   * What a form hands to the page: a new record whose id the handler still
   * has to assign, or an edited record that keeps the id it was opened with.
   */
  datatype Submission<T> = New(draft: T) | Edited(item: T)

  /**
   * `handleAddFinance`: an argument that carries an id replaces the items with
   * that id; one without is appended under `newId`.
   */
  function AddFinance(items: seq<FinanceItem>, submitted: Submission<FinanceItem>, newId: string): (r: seq<FinanceItem>)
    ensures submitted.New? ==> r == items + [submitted.draft.(id := newId)]
    ensures submitted.Edited? ==> r == ReplaceById(items, submitted.item, FinanceId)
  {
    match submitted
    case New(draft) => items + [draft.(id := newId)]
    case Edited(item) => ReplaceById(items, item, FinanceId)
  }

  /**
   * The add handlers' `[...items, { ...item, id: newId }]`: the list with the
   * draft appended under the new id.
   */
  function AddNew<T>(items: seq<T>, draft: T, newId: string, withId: (T, string) -> T): (r: seq<T>)
    ensures |r| == |items| + 1 && r[..|items|] == items
    ensures r[|items|] == withId(draft, newId)
  {
    items + [withId(draft, newId)]
  }

  /** `handleAddSubscription`: appends the new subscription under `newId`. */
  function AddSubscription(items: seq<SubscriptionItem>, draft: SubscriptionItem, newId: string): (r: seq<SubscriptionItem>)
    ensures |r| == |items| + 1 && r[..|items|] == items
    ensures r[|items|].id == newId && r[|items|] == draft.(id := newId)
  {
    AddNew(items, draft, newId, (s: SubscriptionItem, id: string) => s.(id := id))
  }

  /** `handleAddRevenue`: appends the new revenue under `newId`. */
  function AddRevenue(items: seq<RevenueItem>, draft: RevenueItem, newId: string): (r: seq<RevenueItem>)
    ensures |r| == |items| + 1 && r[..|items|] == items
    ensures r[|items|].id == newId && r[|items|] == draft.(id := newId)
  {
    AddNew(items, draft, newId, (v: RevenueItem, id: string) => v.(id := id))
  }

  /** `handleEditFinance`. */
  function EditFinance(items: seq<FinanceItem>, item: FinanceItem): (r: seq<FinanceItem>)
    ensures |r| == |items|
    ensures forall i :: 0 <= i < |r| ==> r[i] == if items[i].id == item.id then item else items[i]
  {
    ReplaceById(items, item, FinanceId)
  }

  /** `handleEditSubscription`. */
  function EditSubscription(items: seq<SubscriptionItem>, item: SubscriptionItem): (r: seq<SubscriptionItem>)
    ensures |r| == |items|
    ensures forall i :: 0 <= i < |r| ==> r[i] == if items[i].id == item.id then item else items[i]
  {
    ReplaceById(items, item, SubscriptionId)
  }

  /** `handleEditRevenue`. */
  function EditRevenue(items: seq<RevenueItem>, item: RevenueItem): (r: seq<RevenueItem>)
    ensures |r| == |items|
    ensures forall i :: 0 <= i < |r| ==> r[i] == if items[i].id == item.id then item else items[i]
  {
    ReplaceById(items, item, RevenueId)
  }

  /** `handleDeleteFinance`. */
  function DeleteFinance(items: seq<FinanceItem>, id: string): (r: seq<FinanceItem>)
    ensures forall x :: multiset(r)[x] == if x.id != id then multiset(items)[x] else 0
    ensures IsSubsequence(r, items)
    ensures forall x :: x in r <==> x in items && x.id != id
    ensures |r| == |items| - CountId(items, id, FinanceId)
  {
    RemoveByIdIsFilter(items, id, FinanceId);
    RemoveById(items, id, FinanceId)
  }

  /** `handleDeleteSubscription`. */
  function DeleteSubscription(items: seq<SubscriptionItem>, id: string): (r: seq<SubscriptionItem>)
    ensures forall x :: multiset(r)[x] == if x.id != id then multiset(items)[x] else 0
    ensures IsSubsequence(r, items)
    ensures forall x :: x in r <==> x in items && x.id != id
    ensures |r| == |items| - CountId(items, id, SubscriptionId)
  {
    RemoveByIdIsFilter(items, id, SubscriptionId);
    RemoveById(items, id, SubscriptionId)
  }

  /** `handleDeleteRevenue`. */
  function DeleteRevenue(items: seq<RevenueItem>, id: string): (r: seq<RevenueItem>)
    ensures forall x :: multiset(r)[x] == if x.id != id then multiset(items)[x] else 0
    ensures IsSubsequence(r, items)
    ensures forall x :: x in r <==> x in items && x.id != id
    ensures |r| == |items| - CountId(items, id, RevenueId)
  {
    RemoveByIdIsFilter(items, id, RevenueId);
    RemoveById(items, id, RevenueId)
  }

  /**
   * The modal's `onSave` wiring: a modal opened on an item saves through the
   * edit handler, otherwise through the add handler.
   */
  function SaveSubscription(items: seq<SubscriptionItem>, submitted: Submission<SubscriptionItem>, newId: string): (r: seq<SubscriptionItem>)
    ensures submitted.Edited? ==> |r| == |items|
    ensures submitted.New? ==> |r| == |items| + 1
    ensures submitted.New? ==> r == items + [submitted.draft.(id := newId)]
    ensures submitted.Edited? ==> forall i :: 0 <= i < |r| ==>
      r[i] == if items[i].id == submitted.item.id then submitted.item else items[i]
  {
    match submitted
    case New(draft) => AddSubscription(items, draft, newId)
    case Edited(item) => EditSubscription(items, item)
  }

  function SaveRevenue(items: seq<RevenueItem>, submitted: Submission<RevenueItem>, newId: string): (r: seq<RevenueItem>)
    ensures submitted.Edited? ==> |r| == |items|
    ensures submitted.New? ==> |r| == |items| + 1
    ensures submitted.New? ==> r == items + [submitted.draft.(id := newId)]
    ensures submitted.Edited? ==> forall i :: 0 <= i < |r| ==>
      r[i] == if items[i].id == submitted.item.id then submitted.item else items[i]
  {
    match submitted
    case New(draft) => AddRevenue(items, draft, newId)
    case Edited(item) => EditRevenue(items, item)
  }

  /** The finance modal's wiring: an edit goes to `handleEditFinance`, which agrees with `handleAddFinance`'s id branch. */
  function SaveFinance(items: seq<FinanceItem>, submitted: Submission<FinanceItem>, newId: string): (r: seq<FinanceItem>)
    ensures r == AddFinance(items, submitted, newId)
  {
    match submitted
    case New(_) => AddFinance(items, submitted, newId)
    case Edited(item) => EditFinance(items, item)
  }

  /** A new item added under a fresh id is found again by deleting that id. */
  lemma {:induction false} DeleteUndoesAdd(items: seq<SubscriptionItem>, draft: SubscriptionItem, newId: string)
    requires CountId(items, newId, SubscriptionId) == 0
    ensures DeleteSubscription(AddSubscription(items, draft, newId), newId) == items
  {
    var added := AddSubscription(items, draft, newId);
    RemoveAppend(items, [draft.(id := newId)], newId, SubscriptionId);
    RemoveAbsentIsIdentity(items, newId, SubscriptionId);
    assert RemoveById([draft.(id := newId)], newId, SubscriptionId) == [];
  }

  /** Deleting from a list with a first item decides that item and deletes from the rest. */
  lemma RemoveCons<T(!new)>(x: T, rest: seq<T>, id: string, idOf: T -> string)
    ensures RemoveById([x] + rest, id, idOf) == (if idOf(x) != id then [x] else []) + RemoveById(rest, id, idOf)
  {
    assert ([x] + rest)[0] == x && ([x] + rest)[1..] == rest;
  }

  /** Deleting distributes over concatenation. */
  lemma {:induction false} RemoveAppend<T(!new)>(a: seq<T>, b: seq<T>, id: string, idOf: T -> string)
    ensures RemoveById(a + b, id, idOf) == RemoveById(a, id, idOf) + RemoveById(b, id, idOf)
  {
    if |a| > 0 {
      var x, rest := a[0], a[1..];
      var head := if idOf(x) != id then [x] else [];
      assert a == [x] + rest && a + b == [x] + (rest + b);
      RemoveCons(x, rest + b, id, idOf);
      RemoveCons(x, rest, id, idOf);
      RemoveAppend(rest, b, id, idOf);
      assert head + (RemoveById(rest, id, idOf) + RemoveById(b, id, idOf))
          == (head + RemoveById(rest, id, idOf)) + RemoveById(b, id, idOf);
    } else {
      assert a + b == b;
    }
  }
}
