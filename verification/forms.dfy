/**
 * The `handleSave` validators of the three item forms
 * (components/AddFinanceModal.tsx, AddSubscriptionModal.tsx and
 * AddRevenueModal.tsx). Each runs its checks in a fixed order, the first
 * failing one setting the error message, and otherwise hands the page a new
 * draft or the edited item. `Number.parseFloat` is a parameter.
 */
module Forms {
  import opened Wrappers
  import opened Text
  import opened Calendar
  import opened Items
  import opened ItemLists

  /** `Number.parseFloat`: the number a string starts with, or `None` for NaN. */
  type ParseFloat = string -> Option<real>

  const FillAllFields := "Please fill in all fields"
  const InvalidAmount := "Please enter a valid amount"
  const SelectAccount := "Please select an account"
  /** The message of the `RangeError` that `toISOString` throws on an invalid date. */
  const InvalidTimeValue := "Invalid time value"

  /**
   * What pressing Save does: an error message shown in the form, a save
   * handed to the page, or an exception escaping the handler.
   */
  datatype Outcome<T> = Rejected(message: string) | Saved(submission: Submission<T>) | Crashed(error: string)

  /** `value || undefined` for a selected account id. */
  function SelectedAccount(selected: string): (r: Option<string>)
    ensures r.Some? <==> selected != ""
    ensures r.Some? ==> r.value == selected
  {
    if selected == "" then None else Some(selected)
  }

  /** The two checks all three forms share, in their order: blank fields, then an unreadable amount. */
  function CheckNameAndAmount(name: string, amount: string, parse: ParseFloat): (r: Result<real, string>)
    ensures r.Err? <==> Trim(name) == "" || Trim(amount) == "" || parse(amount).None?
    ensures r.Err? ==> r.error == if Trim(name) == "" || Trim(amount) == "" then FillAllFields else InvalidAmount
    ensures r.Ok? ==> parse(amount) == Some(r.value)
  {
    if Trim(name) == "" || Trim(amount) == "" then Err(FillAllFields)
    else match parse(amount)
      case None => Err(InvalidAmount)
      case Some(v) => Ok(v)
  }

  // ---------------------------------------------------------------------------
  // Finance form

  datatype FinanceForm = FinanceForm(name: string, amount: string, currency: string)

  /**
   * `AddFinanceModal.handleSave`. There is no account check: a form that
   * passes the two checks always saves. A new draft has no id yet; the add
   * handler assigns one.
   */
  function SaveFinanceForm(form: FinanceForm, editing: Option<FinanceItem>, parse: ParseFloat): (r: Outcome<FinanceItem>)
    ensures !r.Crashed?
    ensures r.Rejected? <==> CheckNameAndAmount(form.name, form.amount, parse).Err?
    ensures r.Rejected? ==> r.message == CheckNameAndAmount(form.name, form.amount, parse).error
    ensures r.Saved? ==> r.submission.Edited? == editing.Some?
    ensures r.Saved? ==>
      var item := if r.submission.Edited? then r.submission.item else r.submission.draft;
      && item.name == Trim(form.name) && parse(form.amount) == Some(item.amount) && item.currency == form.currency
      && (editing.Some? ==> item == editing.value.(name := item.name, amount := item.amount, currency := item.currency))
      && (editing.None? ==> item.calculatedAmount.None?)
  {
    match CheckNameAndAmount(form.name, form.amount, parse)
    case Err(message) => Rejected(message)
    case Ok(amount) =>
      match editing
      case Some(e) => Saved(Edited(e.(name := Trim(form.name), amount := amount, currency := form.currency)))
      case None => Saved(New(FinanceItem("", Trim(form.name), amount, form.currency, None)))
  }

  // ---------------------------------------------------------------------------
  // Subscription form

  /** The subscription form's fields; `repetitionDate` is the date input's `YYYY-MM-DD` value. */
  datatype SubscriptionForm = SubscriptionForm(
    name: string, amount: string, currency: string, period: RecurringPeriod,
    repetitionDate: string, selectedAccountId: string)

  /** `new Date(s).toISOString()` for a date input's value: UTC midnight of that day, or a `RangeError`. */
  function DateInputToIso(s: string): (r: Result<string, string>)
    ensures r.Ok? <==> |s| == 10 && ParseIsoDate(s).Some?
    ensures r.Err? ==> r.error == InvalidTimeValue
  {
    if |s| == 10 && ParseIsoDate(s).Some? then Ok(IsoDate(ParseIsoDate(s).value) + "T00:00:00.000Z")
    else Err(InvalidTimeValue)
  }

  /**
   * `AddSubscriptionModal.handleSave`: blank fields, then an unreadable
   * amount, then a missing account when there are accounts to choose from;
   * a date that does not parse makes `toISOString` throw.
   */
  function SaveSubscriptionForm(form: SubscriptionForm, editing: Option<SubscriptionItem>,
                                accounts: seq<FinanceItem>, parse: ParseFloat): (r: Outcome<SubscriptionItem>)
    ensures CheckNameAndAmount(form.name, form.amount, parse).Err? ==>
      r == Rejected(CheckNameAndAmount(form.name, form.amount, parse).error)
    ensures r.Rejected? && r.message == SelectAccount <==>
      CheckNameAndAmount(form.name, form.amount, parse).Ok? && |accounts| > 0 && form.selectedAccountId == ""
    ensures r.Crashed? <==>
      CheckNameAndAmount(form.name, form.amount, parse).Ok? && !(|accounts| > 0 && form.selectedAccountId == "")
      && DateInputToIso(form.repetitionDate).Err?
    ensures r.Crashed? ==> r.error == InvalidTimeValue
    ensures r.Saved? <==>
      CheckNameAndAmount(form.name, form.amount, parse).Ok? && !(|accounts| > 0 && form.selectedAccountId == "")
      && DateInputToIso(form.repetitionDate).Ok?
    ensures r.Saved? ==> r.submission.Edited? == editing.Some?
    ensures r.Saved? ==>
      var item := if r.submission.Edited? then r.submission.item else r.submission.draft;
      && item.name == Trim(form.name) && parse(form.amount) == Some(item.amount)
      && item.currency == form.currency && item.period == form.period
      && Ok(item.repetitionDate) == DateInputToIso(form.repetitionDate)
      && item.accountId == SelectedAccount(form.selectedAccountId)
      && (editing.Some? ==> item.id == editing.value.id)
      && (editing.None? ==> item.id == "")
  {
    match CheckNameAndAmount(form.name, form.amount, parse)
    case Err(message) => Rejected(message)
    case Ok(amount) =>
      if |accounts| > 0 && form.selectedAccountId == "" then Rejected(SelectAccount)
      else match DateInputToIso(form.repetitionDate)
        case Err(e) => Crashed(e)
        case Ok(iso) =>
          var fields := (base: SubscriptionItem) =>
            base.(name := Trim(form.name), amount := amount, currency := form.currency, period := form.period,
                  repetitionDate := iso, accountId := SelectedAccount(form.selectedAccountId));
          match editing
          case Some(e) => Saved(Edited(fields(e)))
          case None => Saved(New(fields(SubscriptionItem("", "", 0.0, "", Monthly, "", None))))
  }

  /** `s.split("T")[0]`: the text before the first `T`. */
  function BeforeT(s: string): (r: string)
    ensures |r| <= |s| && r == s[..|r|]
    ensures |r| < |s| ==> s[|r|] == 'T'
    ensures forall i :: 0 <= i < |r| ==> r[i] != 'T'
  {
    if |s| == 0 || s[0] == 'T' then "" else [s[0]] + BeforeT(s[1..])
  }

  /**
   * The stored date text reads back as the day entered, and the edit form,
   * which shows the text before the `T`, shows the day as it was entered.
   */
  lemma StoredDateReopens(form: SubscriptionForm)
    requires DateInputToIso(form.repetitionDate).Ok?
    ensures var stored := DateInputToIso(form.repetitionDate).value;
            ParseIsoDate(stored) == ParseIsoDate(form.repetitionDate) && BeforeT(stored) == form.repetitionDate
  {
    var d := ParseIsoDate(form.repetitionDate).value;
    ParseIsoDateCanonical(form.repetitionDate);
    IsoDateRoundTrip(d, "T00:00:00.000Z");
    BeforeTOfDate(form.repetitionDate, "T00:00:00.000Z");
  }

  lemma {:induction false} BeforeTOfDate(date: string, rest: string)
    requires forall i :: 0 <= i < |date| ==> date[i] != 'T'
    requires |rest| > 0 && rest[0] == 'T'
    ensures BeforeT(date + rest) == date
  {
    if |date| > 0 {
      assert (date + rest)[1..] == date[1..] + rest;
      BeforeTOfDate(date[1..], rest);
    } else {
      assert date + rest == rest;
    }
  }

  /** The form the edit modal opens with for a subscription; `render` is `Number.prototype.toString`. */
  function EditFormOf(item: SubscriptionItem, render: real -> string): (r: SubscriptionForm)
    ensures r.name == item.name && r.amount == render(item.amount)
    ensures r.currency == item.currency && r.period == item.period
    ensures |r.repetitionDate| <= |item.repetitionDate| && item.repetitionDate[..|r.repetitionDate|] == r.repetitionDate
    ensures forall i :: 0 <= i < |r.repetitionDate| ==> r.repetitionDate[i] != 'T'
    ensures |r.repetitionDate| < |item.repetitionDate| ==> item.repetitionDate[|r.repetitionDate|] == 'T'
    ensures item.accountId != Some("") ==> SelectedAccount(r.selectedAccountId) == item.accountId
  {
    SubscriptionForm(item.name, render(item.amount), item.currency, item.period, BeforeT(item.repetitionDate),
                     if item.accountId.Some? then item.accountId.value else "")
  }

  /**
   * Opening a saved subscription for editing and saving it untouched gives
   * back the same item, provided its amount's rendering reads back as the
   * amount.
   */
  lemma ResavingUnchangedSubscription(form: SubscriptionForm, editing: Option<SubscriptionItem>,
                                      accounts: seq<FinanceItem>, parse: ParseFloat, render: real -> string)
    requires SaveSubscriptionForm(form, editing, accounts, parse).Saved?
    requires var s := SaveSubscriptionForm(form, editing, accounts, parse).submission;
             var item := if s.Edited? then s.item else s.draft;
             Trim(render(item.amount)) != "" && parse(render(item.amount)) == Some(item.amount)
    ensures var s := SaveSubscriptionForm(form, editing, accounts, parse).submission;
            var item := if s.Edited? then s.item else s.draft;
            SaveSubscriptionForm(EditFormOf(item, render), Some(item), accounts, parse) == Saved(Edited(item))
  {
    var s := SaveSubscriptionForm(form, editing, accounts, parse).submission;
    var item := if s.Edited? then s.item else s.draft;
    StoredDateReopens(form);
    TrimIdempotent(form.name);
    TrimEmptyIffWhitespace(item.name);
    var again := EditFormOf(item, render);
    assert again.repetitionDate == form.repetitionDate;
    assert again.selectedAccountId == form.selectedAccountId;
  }

  // ---------------------------------------------------------------------------
  // Revenue form

  /** The revenue form's fields; the date is kept as entered. */
  datatype RevenueForm = RevenueForm(
    name: string, amount: string, currency: string, period: Period,
    repetitionDate: string, accountId: string)

  /**
   * `AddRevenueModal.handleSave`: the same three checks as the subscription
   * form; the date text is passed through unchanged.
   */
  function SaveRevenueForm(form: RevenueForm, editing: Option<RevenueItem>,
                           accounts: seq<FinanceItem>, parse: ParseFloat): (r: Outcome<RevenueItem>)
    ensures !r.Crashed?
    ensures CheckNameAndAmount(form.name, form.amount, parse).Err? ==>
      r == Rejected(CheckNameAndAmount(form.name, form.amount, parse).error)
    ensures r.Rejected? && r.message == SelectAccount <==>
      CheckNameAndAmount(form.name, form.amount, parse).Ok? && |accounts| > 0 && form.accountId == ""
    ensures r.Saved? <==>
      CheckNameAndAmount(form.name, form.amount, parse).Ok? && !(|accounts| > 0 && form.accountId == "")
    ensures r.Saved? ==> r.submission.Edited? == editing.Some?
    ensures r.Saved? ==>
      var item := if r.submission.Edited? then r.submission.item else r.submission.draft;
      && item.name == Trim(form.name) && parse(form.amount) == Some(item.amount)
      && item.currency == form.currency && item.period == form.period
      && item.repetitionDate == Some(form.repetitionDate)
      && item.accountId == SelectedAccount(form.accountId)
      && (editing.Some? ==> item.id == editing.value.id)
      && (editing.None? ==> item.id == "")
  {
    match CheckNameAndAmount(form.name, form.amount, parse)
    case Err(message) => Rejected(message)
    case Ok(amount) =>
      if |accounts| > 0 && form.accountId == "" then Rejected(SelectAccount)
      else
        var fields := (base: RevenueItem) =>
          base.(name := Trim(form.name), amount := amount, currency := form.currency, period := form.period,
                repetitionDate := Some(form.repetitionDate), accountId := SelectedAccount(form.accountId));
        match editing
        case Some(e) => Saved(Edited(fields(e)))
        case None => Saved(New(fields(RevenueItem("", "", 0.0, "", Monthly, None, None))))
  }

  /** With accounts to choose from, every saved item is linked to one; without, none is required. */
  lemma SavedRevenueIsLinkedWhenAccountsExist(form: RevenueForm, editing: Option<RevenueItem>,
                                              accounts: seq<FinanceItem>, parse: ParseFloat)
    requires SaveRevenueForm(form, editing, accounts, parse).Saved? && |accounts| > 0
    ensures var s := SaveRevenueForm(form, editing, accounts, parse).submission;
            IsSet((if s.Edited? then s.item else s.draft).accountId)
  {
  }
}
