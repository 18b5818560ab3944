/**
 * The three kinds of record the user keeps: accounts (finance items),
 * subscriptions and revenue sources, as the application holds them in memory
 * (app/page.tsx). Dates stay the strings the forms and the database produce;
 * the projection parses them.
 */
module Items {
  import opened Wrappers

  /** How often a subscription or revenue falls due. */
  datatype Period = Monthly | Yearly | Once
  {
    /** The text stored for the period. */
    function Name(): string
    {
      match this
      case Monthly => "monthly"
      case Yearly => "yearly"
      case Once => "once"
    }
  }

  /** The periods a subscription may have, and that drive the repetition loop. */
  type RecurringPeriod = p: Period | !p.Once? witness Monthly

  /**
   * An account. `calculatedAmount` is the projected balance attached for
   * display; it is never stored.
   */
  datatype FinanceItem = FinanceItem(
    id: string,
    name: string,
    amount: real,
    currency: string,
    calculatedAmount: Option<real>)

  /** A recurring expense charged to an optional account, first due on `repetitionDate`. */
  datatype SubscriptionItem = SubscriptionItem(
    id: string,
    name: string,
    amount: real,
    currency: string,
    period: RecurringPeriod,
    repetitionDate: string,
    accountId: Option<string>)

  /** A recurring or one-time income paid into an optional account. */
  datatype RevenueItem = RevenueItem(
    id: string,
    name: string,
    amount: real,
    currency: string,
    period: Period,
    repetitionDate: Option<string>,
    accountId: Option<string>)

  /** JavaScript truthiness of an optional string: present and non-empty. */
  predicate IsSet(s: Option<string>)
  {
    s.Some? && s.value != ""
  }
}
