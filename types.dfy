/** The records of the household stock tracker: products, the timing view
    over them, households, reminders (household tasks) and the dispatch log. */
module Types {
  import opened Wrappers
  import opened Seqs

  /** Row identifiers; the store hands out fresh ones on insert. */
  type Id = nat

  /** A point in time in milliseconds since the epoch, as a JavaScript `Date`
      holds it. */
  type Instant = int

  const MsPerDay: int := 86_400_000

  datatype Status = Stocked | Reminded | OnList | Bought

  /** The statuses the shopping list shows: `on_list` and `reminded`. */
  predicate OnShoppingList(s: Status) {
    s == OnList || s == Reminded
  }

  /** A row of the `products` table. `isRecurring` decides what "bought"
      does in the product card; `shopUrl` is an optional order link. */
  datatype Product = Product(
    id: Id,
    householdId: Id,
    name: string,
    category: Option<string>,
    daysUntilEmpty: int,
    remindDaysBefore: int,
    lastRestockedAt: Instant,
    status: Status,
    isActive: bool,
    isRecurring: bool,
    shopUrl: Option<string>,
    addedBy: Option<Id>,
    createdAt: Instant,
    updatedAt: Instant)

  /** The three columns the `products_with_timing` view adds to a product.
      The view's definition is not part of this model: the values are given. */
  datatype Timing = Timing(runsOutAt: Instant, remindAt: Instant, daysRemaining: int)

  /** A row of the `products_with_timing` view: a product and its timing. */
  datatype ProductWithTiming = ProductWithTiming(row: Product, timing: Timing)

  function DaysRemaining(p: ProductWithTiming): int {
    p.timing.daysRemaining
  }

  datatype Household = Household(
    id: Id,
    name: string,
    telegramChatId: Option<string>,
    inviteCode: string,
    createdAt: Instant)

  /** A row of the `reminders` table: a household task with a due date,
      repeated every `repeatDays` days when that is set. */
  datatype Reminder = Reminder(
    id: Id,
    householdId: Id,
    title: string,
    description: Option<string>,
    dueDate: Instant,
    repeatDays: Option<int>,
    isDone: bool,
    createdAt: Instant)

  /** A row of `reminder_log`: one notification about one product. */
  datatype LogEntry = LogEntry(productId: Id, message: string)

  function ProductId(p: Product): int {
    p.id
  }

  function RowId(p: ProductWithTiming): int {
    p.row.id
  }

  function ReminderId(r: Reminder): int {
    r.id
  }

  ghost predicate UniqueProductIds(ps: seq<Product>) {
    DistinctBy(ps, ProductId)
  }

  ghost predicate UniqueReminderIds(rs: seq<Reminder>) {
    DistinctBy(rs, ReminderId)
  }
}
