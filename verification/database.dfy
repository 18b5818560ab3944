/**
 * The persistence mapping of lib/database.ts: the rows of the three tables,
 * the mappers between rows and in-memory items, the column maps that the
 * partial updates send, and the empty fallbacks of `loadAllUserData`. The
 * database itself is not modelled: what it stores or answers is a
 * parameter. `None` stands for SQL `null` in a row and for `undefined` in an
 * item.
 */
module Database {
  import opened Wrappers
  import opened Items

  // ---------------------------------------------------------------------------
  // Rows

  datatype FinanceRow = FinanceRow(
    id: string, userId: string, name: string, amount: real, currency: string,
    createdAt: string, updatedAt: string)

  datatype SubscriptionRow = SubscriptionRow(
    id: string, userId: string, name: string, amount: real, currency: string,
    period: RecurringPeriod, repetitionDate: string, accountId: Option<string>,
    createdAt: string, updatedAt: string)

  datatype RevenueRow = RevenueRow(
    id: string, userId: string, name: string, amount: real, currency: string,
    period: Period, repetitionDate: Option<string>, accountId: Option<string>,
    createdAt: string, updatedAt: string)

  /** The columns an insert supplies; the database adds `id`, `created_at` and `updated_at`. */
  datatype FinanceInsert = FinanceInsert(userId: string, name: string, amount: real, currency: string)

  datatype SubscriptionInsert = SubscriptionInsert(
    userId: string, name: string, amount: real, currency: string,
    period: RecurringPeriod, repetitionDate: string, accountId: Option<string>)

  datatype RevenueInsert = RevenueInsert(
    userId: string, name: string, amount: real, currency: string,
    period: Period, repetitionDate: Option<string>, accountId: Option<string>)

  /** The columns the database fills in itself. */
  datatype Generated = Generated(id: string, createdAt: string, updatedAt: string)

  function StoreFinance(i: FinanceInsert, g: Generated): FinanceRow
  {
    FinanceRow(g.id, i.userId, i.name, i.amount, i.currency, g.createdAt, g.updatedAt)
  }

  function StoreSubscription(i: SubscriptionInsert, g: Generated): SubscriptionRow
  {
    SubscriptionRow(g.id, i.userId, i.name, i.amount, i.currency, i.period, i.repetitionDate, i.accountId,
                    g.createdAt, g.updatedAt)
  }

  function StoreRevenue(i: RevenueInsert, g: Generated): RevenueRow
  {
    RevenueRow(g.id, i.userId, i.name, i.amount, i.currency, i.period, i.repetitionDate, i.accountId,
               g.createdAt, g.updatedAt)
  }

  // ---------------------------------------------------------------------------
  // Mappers

  /** `value || null` and `value || undefined` on an optional string: an empty string counts as absent. */
  function Truthy(s: Option<string>): (r: Option<string>)
    ensures r.Some? <==> IsSet(s)
    ensures r.Some? ==> r == s
  {
    if IsSet(s) then s else None
  }

  /** `dbToFinanceItem`. */
  function FinanceFromRow(row: FinanceRow): (r: FinanceItem)
    ensures r.calculatedAmount.None?
  {
    FinanceItem(row.id, row.name, row.amount, row.currency, None)
  }

  /** `financeItemToDb`: stamped with `userId`; the projected balance is not stored. */
  function FinanceToRow(item: FinanceItem, userId: string): (r: FinanceInsert)
    ensures r.userId == userId
  {
    FinanceInsert(userId, item.name, item.amount, item.currency)
  }

  /** `dbToSubscriptionItem`: a null or empty account becomes undefined. */
  function SubscriptionFromRow(row: SubscriptionRow): (r: SubscriptionItem)
    ensures r.accountId.Some? <==> IsSet(row.accountId)
  {
    SubscriptionItem(row.id, row.name, row.amount, row.currency, row.period, row.repetitionDate, Truthy(row.accountId))
  }

  /** `subscriptionItemToDb`: stamped with `userId`; an undefined or empty account is stored as null. */
  function SubscriptionToRow(item: SubscriptionItem, userId: string): (r: SubscriptionInsert)
    ensures r.userId == userId
    ensures r.accountId.Some? <==> IsSet(item.accountId)
  {
    SubscriptionInsert(userId, item.name, item.amount, item.currency, item.period, item.repetitionDate, Truthy(item.accountId))
  }

  /** `dbToRevenueItem`: null or empty date and account become undefined. */
  function RevenueFromRow(row: RevenueRow): (r: RevenueItem)
    ensures r.repetitionDate.Some? <==> IsSet(row.repetitionDate)
    ensures r.accountId.Some? <==> IsSet(row.accountId)
  {
    RevenueItem(row.id, row.name, row.amount, row.currency, row.period, Truthy(row.repetitionDate), Truthy(row.accountId))
  }

  /** `revenueItemToDb`: stamped with `userId`; undefined or empty date and account are stored as null. */
  function RevenueToRow(item: RevenueItem, userId: string): (r: RevenueInsert)
    ensures r.userId == userId
    ensures r.repetitionDate.Some? <==> IsSet(item.repetitionDate)
    ensures r.accountId.Some? <==> IsSet(item.accountId)
  {
    RevenueInsert(userId, item.name, item.amount, item.currency, item.period, Truthy(item.repetitionDate), Truthy(item.accountId))
  }

  /** Storing an account and reading it back keeps name, amount and currency, under the stored id. */
  lemma FinanceRoundTrip(item: FinanceItem, userId: string, g: Generated)
    ensures FinanceFromRow(StoreFinance(FinanceToRow(item, userId), g))
         == item.(id := g.id, calculatedAmount := None)
  {
  }

  /**
   * Storing a subscription and reading it back gives it again under the
   * stored id, except that an empty account comes back undefined.
   */
  lemma SubscriptionRoundTrip(item: SubscriptionItem, userId: string, g: Generated)
    ensures SubscriptionFromRow(StoreSubscription(SubscriptionToRow(item, userId), g))
         == item.(id := g.id, accountId := Truthy(item.accountId))
    ensures SubscriptionFromRow(StoreSubscription(SubscriptionToRow(item, userId), g)) == item.(id := g.id)
        <==> item.accountId != Some("")
  {
  }

  /**
   * Storing a revenue and reading it back gives it again under the stored
   * id, except that an empty date or account comes back undefined.
   */
  lemma RevenueRoundTrip(item: RevenueItem, userId: string, g: Generated)
    ensures RevenueFromRow(StoreRevenue(RevenueToRow(item, userId), g))
         == item.(id := g.id, repetitionDate := Truthy(item.repetitionDate), accountId := Truthy(item.accountId))
    ensures RevenueFromRow(StoreRevenue(RevenueToRow(item, userId), g)) == item.(id := g.id)
        <==> item.repetitionDate != Some("") && item.accountId != Some("")
  {
  }

  /** A row without empty strings in its nullable columns is written back as it was read. */
  lemma RevenueRowRoundTrip(row: RevenueRow)
    requires row.repetitionDate != Some("") && row.accountId != Some("")
    ensures StoreRevenue(RevenueToRow(RevenueFromRow(row), row.userId), Generated(row.id, row.createdAt, row.updatedAt)) == row
  {
  }

  lemma SubscriptionRowRoundTrip(row: SubscriptionRow)
    requires row.accountId != Some("")
    ensures StoreSubscription(SubscriptionToRow(SubscriptionFromRow(row), row.userId), Generated(row.id, row.createdAt, row.updatedAt)) == row
  {
  }

  // ---------------------------------------------------------------------------
  // Partial updates

  /** A JSON column value of an update. */
  datatype Json = JString(s: string) | JNumber(n: real) | JNull

  /** The columns an update may set. */
  datatype Column = NameColumn | AmountColumn | CurrencyColumn | PeriodColumn | RepetitionDateColumn | AccountIdColumn | UpdatedAtColumn
  {
    /** The column's name in the table. */
    function Key(): string
    {
      match this
      case NameColumn => "name"
      case AmountColumn => "amount"
      case CurrencyColumn => "currency"
      case PeriodColumn => "period"
      case RepetitionDateColumn => "repetition_date"
      case AccountIdColumn => "account_id"
      case UpdatedAtColumn => "updated_at"
    }
  }

  /** An update's column map, `updateData`. */
  type UpdateData = map<Column, Json>

  /** `Partial<Omit<Item, 'id'>>`: `None` is an undefined field. */
  datatype FinancePatch = FinancePatch(name: Option<string>, amount: Option<real>, currency: Option<string>)

  datatype SubscriptionPatch = SubscriptionPatch(
    name: Option<string>, amount: Option<real>, currency: Option<string>,
    period: Option<RecurringPeriod>, repetitionDate: Option<string>, accountId: Option<string>)

  datatype RevenuePatch = RevenuePatch(
    name: Option<string>, amount: Option<real>, currency: Option<string>,
    period: Option<Period>, repetitionDate: Option<string>, accountId: Option<string>)

  /** A string column value, or null for an absent one. */
  function Nullable(s: Option<string>): Json
  {
    if s.Some? then JString(s.value) else JNull
  }

  /** Adds `key := value` when the field is defined. */
  function PutString(m: UpdateData, key: Column, field: Option<string>): UpdateData
  {
    if field.Some? then m[key := JString(field.value)] else m
  }

  function PutNumber(m: UpdateData, key: Column, field: Option<real>): UpdateData
  {
    if field.Some? then m[key := JNumber(field.value)] else m
  }

  /** Adds `key := field || null` when the field is defined. */
  function PutNullable(m: UpdateData, key: Column, field: Option<string>): UpdateData
  {
    if field.Some? then m[key := Nullable(Truthy(field))] else m
  }

  function PeriodOf<P>(p: Option<P>, name: P -> string): Option<string>
  {
    if p.Some? then Some(name(p.value)) else None
  }

  /** The finance `update`'s `updateData`: the defined fields, and `updated_at` set to `now`. */
  function FinanceUpdateData(patch: FinancePatch, now: string): (m: UpdateData)
    ensures UpdatedAtColumn in m
    ensures NameColumn in m <==> patch.name.Some?
    ensures AmountColumn in m <==> patch.amount.Some?
    ensures CurrencyColumn in m <==> patch.currency.Some?
    ensures m[UpdatedAtColumn] == JString(now)
    ensures patch.name.Some? ==> m[NameColumn] == JString(patch.name.value)
    ensures patch.amount.Some? ==> m[AmountColumn] == JNumber(patch.amount.value)
    ensures patch.currency.Some? ==> m[CurrencyColumn] == JString(patch.currency.value)
    ensures PeriodColumn !in m && RepetitionDateColumn !in m && AccountIdColumn !in m
  {
    var m := PutString(map[], NameColumn, patch.name);
    var m := PutNumber(m, AmountColumn, patch.amount);
    var m := PutString(m, CurrencyColumn, patch.currency);
    m[UpdatedAtColumn := JString(now)]
  }

  /**
   * The subscription `update`'s `updateData`: the defined fields, the date
   * as given, the account as `accountId || null`, and `updated_at`.
   */
  function SubscriptionUpdateData(patch: SubscriptionPatch, now: string): (m: UpdateData)
    ensures UpdatedAtColumn in m
    ensures NameColumn in m <==> patch.name.Some?
    ensures AmountColumn in m <==> patch.amount.Some?
    ensures CurrencyColumn in m <==> patch.currency.Some?
    ensures PeriodColumn in m <==> patch.period.Some?
    ensures RepetitionDateColumn in m <==> patch.repetitionDate.Some?
    ensures AccountIdColumn in m <==> patch.accountId.Some?
    ensures m[UpdatedAtColumn] == JString(now)
    ensures patch.name.Some? ==> m[NameColumn] == JString(patch.name.value)
    ensures patch.amount.Some? ==> m[AmountColumn] == JNumber(patch.amount.value)
    ensures patch.currency.Some? ==> m[CurrencyColumn] == JString(patch.currency.value)
    ensures patch.period.Some? ==> m[PeriodColumn] == JString(patch.period.value.Name())
    ensures patch.repetitionDate.Some? ==> m[RepetitionDateColumn] == JString(patch.repetitionDate.value)
    ensures patch.accountId.Some? ==> m[AccountIdColumn] == if patch.accountId.value == "" then JNull else JString(patch.accountId.value)
  {
    var m := PutString(map[], NameColumn, patch.name);
    var m := PutNumber(m, AmountColumn, patch.amount);
    var m := PutString(m, CurrencyColumn, patch.currency);
    var m := PutString(m, PeriodColumn, PeriodOf(patch.period, (p: RecurringPeriod) => p.Name()));
    var m := PutString(m, RepetitionDateColumn, patch.repetitionDate);
    var m := PutNullable(m, AccountIdColumn, patch.accountId);
    m[UpdatedAtColumn := JString(now)]
  }

  /**
   * The revenue `update`'s `updateData`: as for subscriptions, except that
   * an empty date is sent as null too.
   */
  function RevenueUpdateData(patch: RevenuePatch, now: string): (m: UpdateData)
    ensures UpdatedAtColumn in m
    ensures NameColumn in m <==> patch.name.Some?
    ensures AmountColumn in m <==> patch.amount.Some?
    ensures CurrencyColumn in m <==> patch.currency.Some?
    ensures PeriodColumn in m <==> patch.period.Some?
    ensures RepetitionDateColumn in m <==> patch.repetitionDate.Some?
    ensures AccountIdColumn in m <==> patch.accountId.Some?
    ensures m[UpdatedAtColumn] == JString(now)
    ensures patch.name.Some? ==> m[NameColumn] == JString(patch.name.value)
    ensures patch.amount.Some? ==> m[AmountColumn] == JNumber(patch.amount.value)
    ensures patch.currency.Some? ==> m[CurrencyColumn] == JString(patch.currency.value)
    ensures patch.period.Some? ==> m[PeriodColumn] == JString(patch.period.value.Name())
    ensures patch.repetitionDate.Some? ==> m[RepetitionDateColumn] == if patch.repetitionDate.value == "" then JNull else JString(patch.repetitionDate.value)
    ensures patch.accountId.Some? ==> m[AccountIdColumn] == if patch.accountId.value == "" then JNull else JString(patch.accountId.value)
  {
    var m := PutString(map[], NameColumn, patch.name);
    var m := PutNumber(m, AmountColumn, patch.amount);
    var m := PutString(m, CurrencyColumn, patch.currency);
    var m := PutString(m, PeriodColumn, PeriodOf(patch.period, (p: Period) => p.Name()));
    var m := PutNullable(m, RepetitionDateColumn, patch.repetitionDate);
    var m := PutNullable(m, AccountIdColumn, patch.accountId);
    m[UpdatedAtColumn := JString(now)]
  }

  // ---------------------------------------------------------------------------
  // Applying an update, and reading the updated row back

  /** The period a stored period name denotes. */
  function ParsePeriod(s: string): (r: Option<Period>)
    ensures r.Some? ==> r.value.Name() == s
  {
    if s == "monthly" then Some(Monthly)
    else if s == "yearly" then Some(Yearly)
    else if s == "once" then Some(Once)
    else None
  }

  lemma ParsePeriodName(p: Period)
    ensures ParsePeriod(p.Name()) == Some(p)
  {
  }

  function StringColumn(m: UpdateData, key: Column, current: string): string
  {
    if key in m && m[key].JString? then m[key].s else current
  }

  function NumberColumn(m: UpdateData, key: Column, current: real): real
  {
    if key in m && m[key].JNumber? then m[key].n else current
  }

  function NullableColumn(m: UpdateData, key: Column, current: Option<string>): Option<string>
  {
    if key in m then (if m[key].JString? then Some(m[key].s) else None) else current
  }

  function PeriodValue(m: UpdateData, current: Period): Period
  {
    if PeriodColumn in m && m[PeriodColumn].JString? && ParsePeriod(m[PeriodColumn].s).Some? then ParsePeriod(m[PeriodColumn].s).value else current
  }

  /** What the database makes of a revenue row when it applies an update. */
  function ApplyToRevenueRow(row: RevenueRow, m: UpdateData): RevenueRow
  {
    row.(name := StringColumn(m, NameColumn, row.name),
         amount := NumberColumn(m, AmountColumn, row.amount),
         currency := StringColumn(m, CurrencyColumn, row.currency),
         period := PeriodValue(m, row.period),
         repetitionDate := NullableColumn(m, RepetitionDateColumn, row.repetitionDate),
         accountId := NullableColumn(m, AccountIdColumn, row.accountId),
         updatedAt := StringColumn(m, UpdatedAtColumn, row.updatedAt))
  }

  /** The item with the patch's defined fields written over it, as the application reads it back. */
  function PatchRevenue(item: RevenueItem, patch: RevenuePatch): RevenueItem
  {
    item.(name := if patch.name.Some? then patch.name.value else item.name,
          amount := if patch.amount.Some? then patch.amount.value else item.amount,
          currency := if patch.currency.Some? then patch.currency.value else item.currency,
          period := if patch.period.Some? then patch.period.value else item.period,
          repetitionDate := if patch.repetitionDate.Some? then Truthy(patch.repetitionDate) else item.repetitionDate,
          accountId := if patch.accountId.Some? then Truthy(patch.accountId) else item.accountId)
  }

  /**
   * Updating a revenue row and reading it back gives the read-back item with
   * exactly the patch's defined fields overwritten, empty strings becoming
   * undefined.
   */
  lemma RevenueUpdateRoundTrip(row: RevenueRow, patch: RevenuePatch, now: string)
    ensures RevenueFromRow(ApplyToRevenueRow(row, RevenueUpdateData(patch, now)))
         == PatchRevenue(RevenueFromRow(row), patch)
  {
    var m := RevenueUpdateData(patch, now);
    if patch.period.Some? {
      ParsePeriodName(patch.period.value);
    }
    assert NameColumn in m <==> patch.name.Some?;
    assert AmountColumn in m <==> patch.amount.Some?;
    assert CurrencyColumn in m <==> patch.currency.Some?;
    assert PeriodColumn in m <==> patch.period.Some?;
    assert RepetitionDateColumn in m <==> patch.repetitionDate.Some?;
    assert AccountIdColumn in m <==> patch.accountId.Some?;
  }

  /** A patch that defines nothing changes only the update time. */
  lemma EmptyRevenuePatchTouchesOnlyTime(row: RevenueRow, now: string)
    ensures ApplyToRevenueRow(row, RevenueUpdateData(RevenuePatch(None, None, None, None, None, None), now))
         == row.(updatedAt := now)
  {
  }

  // ---------------------------------------------------------------------------
  // Service calls

  const NotAuthenticated := "User not authenticated"

  /**
   * `subscriptionItemsService.create`: refused without a signed-in user;
   * otherwise the item is inserted under the user's id and the stored row is
   * read back. `stored` is what the database generated, or its error.
   */
  function CreateSubscription(user: Option<string>, item: SubscriptionItem, stored: Result<Generated, string>): (r: Result<SubscriptionItem, string>)
    ensures user.None? ==> r == Err(NotAuthenticated)
    ensures user.Some? && stored.Err? ==> r == Err(stored.error)
    ensures r.Ok? <==> user.Some? && stored.Ok?
    ensures r.Ok? ==> r.value == item.(id := stored.value.id, accountId := Truthy(item.accountId))
  {
    match user
    case None => Err(NotAuthenticated)
    case Some(userId) =>
      match stored
      case Err(e) => Err(e)
      case Ok(g) =>
        SubscriptionRoundTrip(item, userId, g);
        Ok(SubscriptionFromRow(StoreSubscription(SubscriptionToRow(item, userId), g)))
  }

  /**
   * `revenueItemsService.update`: refused without a signed-in user;
   * otherwise the update data is applied to `matched`, the user's row with
   * that id as the database finds it (or its error), and read back.
   */
  function UpdateRevenue(user: Option<string>, patch: RevenuePatch, now: string, matched: Result<RevenueRow, string>): (r: Result<RevenueItem, string>)
    ensures user.None? ==> r == Err(NotAuthenticated)
    ensures user.Some? && matched.Err? ==> r == Err(matched.error)
    ensures r.Ok? <==> user.Some? && matched.Ok?
    ensures r.Ok? ==> r.value == PatchRevenue(RevenueFromRow(matched.value), patch)
  {
    match user
    case None => Err(NotAuthenticated)
    case Some(_) =>
      match matched
      case Err(e) => Err(e)
      case Ok(row) =>
        RevenueUpdateRoundTrip(row, patch, now);
        Ok(RevenueFromRow(ApplyToRevenueRow(row, RevenueUpdateData(patch, now))))
  }

  // ---------------------------------------------------------------------------
  // Loading everything

  datatype UserData = UserData(finance: seq<FinanceItem>, subscriptions: seq<SubscriptionItem>, revenues: seq<RevenueItem>)

  function MapRows<R, T>(rows: seq<R>, f: R -> T): (r: seq<T>)
    ensures |r| == |rows| && forall i :: 0 <= i < |rows| ==> r[i] == f(rows[i])
  {
    seq(|rows|, i requires 0 <= i < |rows| => f(rows[i]))
  }

  /**
   * `loadAllUserData`: three empty lists without a signed-in user or when
   * any of the three queries fails; otherwise every row mapped to its item,
   * in the order the queries return them.
   */
  function LoadAllUserData(user: Option<string>, finance: Result<seq<FinanceRow>, string>,
                           subscriptions: Result<seq<SubscriptionRow>, string>,
                           revenues: Result<seq<RevenueRow>, string>): (r: UserData)
    ensures user.None? || finance.Err? || subscriptions.Err? || revenues.Err? ==> r == UserData([], [], [])
    ensures user.Some? && finance.Ok? && subscriptions.Ok? && revenues.Ok? ==>
      && |r.finance| == |finance.value| && |r.subscriptions| == |subscriptions.value| && |r.revenues| == |revenues.value|
      && (forall i :: 0 <= i < |r.finance| ==> r.finance[i] == FinanceFromRow(finance.value[i]))
      && (forall i :: 0 <= i < |r.subscriptions| ==> r.subscriptions[i] == SubscriptionFromRow(subscriptions.value[i]))
      && (forall i :: 0 <= i < |r.revenues| ==> r.revenues[i] == RevenueFromRow(revenues.value[i]))
  {
    if user.None? || finance.Err? || subscriptions.Err? || revenues.Err? then UserData([], [], [])
    else UserData(MapRows(finance.value, FinanceFromRow), MapRows(subscriptions.value, SubscriptionFromRow),
                  MapRows(revenues.value, RevenueFromRow))
  }

  /**
   * Items saved for the signed-in user load back in the order their rows
   * come, each under its stored id (accounts without their computed dollar
   * amount); without a user nothing loads, whatever is stored.
   */
  lemma LoadShowsSavedItems(user: string, fs: seq<FinanceItem>, fg: seq<Generated>,
                            ss: seq<SubscriptionItem>, sg: seq<Generated>,
                            rs: seq<RevenueItem>, rg: seq<Generated>)
    requires |fg| == |fs| && |sg| == |ss| && |rg| == |rs|
    requires forall i :: 0 <= i < |ss| ==> ss[i].accountId != Some("")
    requires forall i :: 0 <= i < |rs| ==> rs[i].repetitionDate != Some("") && rs[i].accountId != Some("")
    ensures var frows := seq(|fs|, i requires 0 <= i < |fs| => StoreFinance(FinanceToRow(fs[i], user), fg[i]));
            var srows := seq(|ss|, i requires 0 <= i < |ss| => StoreSubscription(SubscriptionToRow(ss[i], user), sg[i]));
            var rrows := seq(|rs|, i requires 0 <= i < |rs| => StoreRevenue(RevenueToRow(rs[i], user), rg[i]));
            && LoadAllUserData(Some(user), Ok(frows), Ok(srows), Ok(rrows))
               == UserData(seq(|fs|, i requires 0 <= i < |fs| => fs[i].(id := fg[i].id, calculatedAmount := None)),
                           seq(|ss|, i requires 0 <= i < |ss| => ss[i].(id := sg[i].id)),
                           seq(|rs|, i requires 0 <= i < |rs| => rs[i].(id := rg[i].id)))
            && LoadAllUserData(None, Ok(frows), Ok(srows), Ok(rrows)) == UserData([], [], [])
  {
    forall i | 0 <= i < |fs| {
      FinanceRoundTrip(fs[i], user, fg[i]);
    }
    forall i | 0 <= i < |ss| {
      SubscriptionRoundTrip(ss[i], user, sg[i]);
    }
    forall i | 0 <= i < |rs| {
      RevenueRoundTrip(rs[i], user, rg[i]);
    }
  }
}
