/** The relational store the handlers talk to, kept in memory: the
    `households`, `products`, `reminders` and `reminder_log` tables, the
    column-wise `update(...)` calls as patches, and the
    `products_with_timing` view together with the queries more than one
    handler runs against it. */
module Store {
  import opened Wrappers
  import opened Types
  import opened Seqs

  /** An `update({...})` on `products`: `Some(v)` for each column it sets. */
  datatype ProductPatch = ProductPatch(
    name: Option<string>,
    category: Option<Option<string>>,
    daysUntilEmpty: Option<int>,
    remindDaysBefore: Option<int>,
    lastRestockedAt: Option<Instant>,
    status: Option<Status>,
    isActive: Option<bool>,
    updatedAt: Option<Instant>)

  const NoProductChange: ProductPatch := ProductPatch(None, None, None, None, None, None, None, None)

  function Or<T>(o: Option<T>, otherwise: T): T {
    if o.Some? then o.value else otherwise
  }

  function Apply(p: Product, patch: ProductPatch): (q: Product)
    ensures q.id == p.id && q.householdId == p.householdId
  {
    p.(name := Or(patch.name, p.name),
       category := Or(patch.category, p.category),
       daysUntilEmpty := Or(patch.daysUntilEmpty, p.daysUntilEmpty),
       remindDaysBefore := Or(patch.remindDaysBefore, p.remindDaysBefore),
       lastRestockedAt := Or(patch.lastRestockedAt, p.lastRestockedAt),
       status := Or(patch.status, p.status),
       isActive := Or(patch.isActive, p.isActive),
       updatedAt := Or(patch.updatedAt, p.updatedAt))
  }

  /** `update(patch).in("id", ids)`: every row whose id is in `ids` gets the
      patch, every other row stays as it is, and the order is kept. */
  function Patched(ps: seq<Product>, ids: set<Id>, patch: ProductPatch): (r: seq<Product>)
    ensures |r| == |ps|
    ensures forall i :: 0 <= i < |ps| ==> r[i] == if ps[i].id in ids then Apply(ps[i], patch) else ps[i]
  {
    if ps == [] then []
    else [if ps[0].id in ids then Apply(ps[0], patch) else ps[0]] + Patched(ps[1..], ids, patch)
  }

  /** The reset that "bought" performs in the chat command, on the shopping
      list page and, for recurring products, on the product card: status
      back to `stocked` and the consumption timer restarted at `now`. */
  function RestockPatch(now: Instant): (patch: ProductPatch)
    ensures forall q :: Apply(q, patch) == q.(status := Stocked, lastRestockedAt := now, updatedAt := now)
  {
    NoProductChange.(status := Some(Stocked), lastRestockedAt := Some(now), updatedAt := Some(now))
  }

  /** A patch writes fixed values, so the same update run twice, on two id
      sets, is one update on their union. */
  lemma PatchedTwice(ps: seq<Product>, a: set<Id>, b: set<Id>, patch: ProductPatch)
    ensures Patched(Patched(ps, a, patch), b, patch) == Patched(ps, a + b, patch)
  {
    var l, r := Patched(Patched(ps, a, patch), b, patch), Patched(ps, a + b, patch);
    assert |l| == |r|;
    forall i | 0 <= i < |l| ensures l[i] == r[i] {
      var p := ps[i];
      if p.id in a {
        assert Apply(Apply(p, patch), patch) == Apply(p, patch);
      }
    }
  }

  lemma PatchedKeepsIds(ps: seq<Product>, ids: set<Id>, patch: ProductPatch)
    requires UniqueProductIds(ps)
    ensures UniqueProductIds(Patched(ps, ids, patch))
  {
    var r := Patched(ps, ids, patch);
    forall i, j | 0 <= i < j < |r| ensures ProductId(r[i]) != ProductId(r[j]) {
      assert ProductId(ps[i]) != ProductId(ps[j]);
    }
  }

  /** An `update({...})` on `reminders`. */
  datatype ReminderPatch = ReminderPatch(
    title: Option<string>,
    description: Option<Option<string>>,
    dueDate: Option<Instant>,
    repeatDays: Option<Option<int>>,
    isDone: Option<bool>)

  const NoReminderChange: ReminderPatch := ReminderPatch(None, None, None, None, None)

  function ApplyToReminder(r: Reminder, patch: ReminderPatch): (q: Reminder)
    ensures q.id == r.id && q.householdId == r.householdId && q.createdAt == r.createdAt
  {
    r.(title := Or(patch.title, r.title),
       description := Or(patch.description, r.description),
       dueDate := Or(patch.dueDate, r.dueDate),
       repeatDays := Or(patch.repeatDays, r.repeatDays),
       isDone := Or(patch.isDone, r.isDone))
  }

  /** `update(patch).eq("id", id)` on `reminders`. */
  function PatchedReminders(rs: seq<Reminder>, id: Id, patch: ReminderPatch): (r: seq<Reminder>)
    ensures |r| == |rs|
    ensures forall i :: 0 <= i < |rs| ==> r[i] == if rs[i].id == id then ApplyToReminder(rs[i], patch) else rs[i]
  {
    if rs == [] then []
    else [if rs[0].id == id then ApplyToReminder(rs[0], patch) else rs[0]] + PatchedReminders(rs[1..], id, patch)
  }

  function IdIsNot(id: Id): Reminder -> bool {
    (r: Reminder) => r.id != id
  }

  /** The rows of `products_with_timing`: the ACTIVE products, in store
      order, each with its timing. The home page loads its products from
      this view alone and expects removed (inactive) products to disappear,
      so the view is taken to hide them; how it computes the timing is not
      part of this model, which takes it from `timing`. */
  function TimingView(ps: seq<Product>, timing: Product -> Timing): (rows: seq<ProductWithTiming>)
    ensures forall i :: 0 <= i < |rows| ==> rows[i].row in ps && rows[i].row.isActive && rows[i].timing == timing(rows[i].row)
    ensures forall i :: 0 <= i < |ps| && ps[i].isActive ==> ProductWithTiming(ps[i], timing(ps[i])) in rows
    ensures UniqueProductIds(ps) ==> DistinctBy(rows, RowId)
  {
    var active := Filter(ps, IsActive);
    var rows := seq(|active|, i requires 0 <= i < |active| => ProductWithTiming(active[i], timing(active[i])));
    assert forall i :: 0 <= i < |ps| && ps[i].isActive ==> ProductWithTiming(ps[i], timing(ps[i])) in rows by {
      forall i | 0 <= i < |ps| && ps[i].isActive ensures ProductWithTiming(ps[i], timing(ps[i])) in rows {
        assert IsActive(ps[i]);
        var j :| 0 <= j < |active| && active[j] == ps[i];
        assert rows[j] == ProductWithTiming(ps[i], timing(ps[i]));
      }
    }
    assert UniqueProductIds(ps) ==> DistinctBy(rows, RowId) by {
      if UniqueProductIds(ps) {
        FilterDistinct(ps, IsActive, ProductId);
        forall i, j | 0 <= i < j < |rows| ensures RowId(rows[i]) != RowId(rows[j]) {
          assert ProductId(active[i]) != ProductId(active[j]);
        }
      }
    }
    rows
  }

  function IsActive(p: Product): bool {
    p.isActive
  }

  function InHousehold(h: Id): ProductWithTiming -> bool {
    (p: ProductWithTiming) => p.row.householdId == h
  }

  function NeededIn(h: Id): ProductWithTiming -> bool {
    (p: ProductWithTiming) => p.row.householdId == h && OnShoppingList(p.row.status)
  }

  /** `products_with_timing` where `household_id = h`, ordered by
      `days_remaining` ascending. */
  function HouseholdStock(view: seq<ProductWithTiming>, h: Id): (rows: seq<ProductWithTiming>)
    ensures SortedBy(rows, DaysRemaining)
    ensures multiset(rows) == multiset(Filter(view, InHousehold(h)))
  {
    SortBy(Filter(view, InHousehold(h)), DaysRemaining)
  }

  /** The shopping-list query: `products_with_timing` where `household_id = h`
      and `status in (on_list, reminded)`, ordered by `days_remaining`. */
  function ShoppingListRows(view: seq<ProductWithTiming>, h: Id): (rows: seq<ProductWithTiming>)
    ensures SortedBy(rows, DaysRemaining)
    ensures forall x :: x in rows <==> x in view && x.row.householdId == h && OnShoppingList(x.row.status)
    ensures multiset(rows) == multiset(Filter(view, NeededIn(h)))
  {
    var r := SortBy(Filter(view, NeededIn(h)), DaysRemaining);
    assert forall x :: x in r <==> x in multiset(Filter(view, NeededIn(h)));
    r
  }

  /** The column defaults of `products` for what an insert leaves out. The
      schema is not part of this model; an added product is taken to be
      recurring, the behaviour the chat command's "*Timer is gereset*"
      wording and the product card's recurring/one-off split suggest. */
  const DefaultIsRecurring: bool := true

  /** The row the store keeps for an `insert` into `products` that sets the
      given columns; the id is filled in by the store. */
  function NewProductRow(householdId: Id, name: string, category: Option<string>, daysUntilEmpty: int,
                         remindDaysBefore: int, lastRestockedAt: Instant, addedBy: Option<Id>, now: Instant): (p: Product)
    ensures p.status == Stocked && p.isActive
    ensures p.householdId == householdId && p.name == name && p.category == category
    ensures p.daysUntilEmpty == daysUntilEmpty && p.remindDaysBefore == remindDaysBefore
    ensures p.lastRestockedAt == lastRestockedAt
  {
    Product(0, householdId, name, category, daysUntilEmpty, remindDaysBefore, lastRestockedAt,
            Stocked, true, DefaultIsRecurring, None, addedBy, now, now)
  }

  /** The four tables and the id counter behind inserts. */
  class Database {
    var households: seq<Household>
    var products: seq<Product>
    var reminders: seq<Reminder>
    var log: seq<LogEntry>
    var nextId: Id

    /** Row ids are unique and below the next id to hand out. */
    ghost predicate Valid()
      reads this
    {
      && UniqueProductIds(products)
      && UniqueReminderIds(reminders)
      && (forall i :: 0 <= i < |products| ==> products[i].id < nextId)
      && (forall i :: 0 <= i < |reminders| ==> reminders[i].id < nextId)
    }

    constructor (households: seq<Household>)
      ensures Valid()
      ensures this.households == households && products == [] && reminders == [] && log == []
    {
      this.households := households;
      products, reminders, log, nextId := [], [], [], 0;
    }

    method UpdateProducts(ids: set<Id>, patch: ProductPatch)
      requires Valid()
      modifies this
      ensures Valid()
      ensures products == Patched(old(products), ids, patch)
      ensures households == old(households) && reminders == old(reminders)
      ensures log == old(log) && nextId == old(nextId)
    {
      PatchedKeepsIds(products, ids, patch);
      products := Patched(products, ids, patch);
    }

    method InsertProduct(row: Product) returns (id: Id)
      requires Valid()
      modifies this
      ensures Valid()
      ensures id == old(nextId) && nextId == old(nextId) + 1
      ensures products == old(products) + [row.(id := id)]
      ensures households == old(households) && reminders == old(reminders) && log == old(log)
    {
      id := nextId;
      products := products + [row.(id := id)];
      nextId := nextId + 1;
    }

    method AppendLog(entries: seq<LogEntry>)
      requires Valid()
      modifies this
      ensures Valid()
      ensures log == old(log) + entries
      ensures households == old(households) && products == old(products)
      ensures reminders == old(reminders) && nextId == old(nextId)
    {
      log := log + entries;
    }

    method UpdateReminder(id: Id, patch: ReminderPatch)
      requires Valid()
      modifies this
      ensures Valid()
      ensures reminders == PatchedReminders(old(reminders), id, patch)
      ensures households == old(households) && products == old(products)
      ensures log == old(log) && nextId == old(nextId)
    {
      var r := PatchedReminders(reminders, id, patch);
      forall i, j | 0 <= i < j < |r| ensures ReminderId(r[i]) != ReminderId(r[j]) {
        assert ReminderId(reminders[i]) != ReminderId(reminders[j]);
      }
      reminders := r;
    }

    method InsertReminder(row: Reminder) returns (id: Id)
      requires Valid()
      modifies this
      ensures Valid()
      ensures id == old(nextId) && nextId == old(nextId) + 1
      ensures reminders == old(reminders) + [row.(id := id)]
      ensures households == old(households) && products == old(products) && log == old(log)
    {
      id := nextId;
      reminders := reminders + [row.(id := id)];
      nextId := nextId + 1;
    }

    /** `delete().eq("id", id)` on `reminders`: the row is gone for good. */
    method DeleteReminder(id: Id)
      requires Valid()
      modifies this
      ensures Valid()
      ensures reminders == Filter(old(reminders), IdIsNot(id))
      ensures forall r :: r in reminders <==> r in old(reminders) && r.id != id
      ensures households == old(households) && products == old(products)
      ensures log == old(log) && nextId == old(nextId)
    {
      FilterDistinct(reminders, IdIsNot(id), ReminderId);
      reminders := Filter(reminders, IdIsNot(id));
    }
  }
}
