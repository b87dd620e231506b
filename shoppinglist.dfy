/** The shopping list page (src/app/shopping-list/page.tsx): the products
    on the list and the buttons that mark one or all of them bought. */
module ShoppingList {
  import opened Wrappers
  import opened Types
  import opened Seqs
  import opened Store

  /** `loadItems`: the household's active products that are `on_list` or
      `reminded`, ascending by days remaining, each with its timing. */
  function LoadItems(ps: seq<Product>, timing: Product -> Timing, h: Id): (items: seq<ProductWithTiming>)
    ensures SortedBy(items, DaysRemaining)
    ensures forall x :: x in items ==>
              && x.row in ps && x.row.isActive && x.timing == timing(x.row)
              && x.row.householdId == h && OnShoppingList(x.row.status)
    ensures forall i :: 0 <= i < |ps| && ps[i].isActive && ps[i].householdId == h && OnShoppingList(ps[i].status)
                        ==> ProductWithTiming(ps[i], timing(ps[i])) in items
    ensures multiset(items) == multiset(Filter(TimingView(ps, timing), NeededIn(h)))
  {
    ShoppingListRows(TimingView(ps, timing), h)
  }

  function ItemIds(items: seq<ProductWithTiming>): set<Id> {
    set x | x in items :: x.row.id
  }

  /** `markBought(id)`: reset to `stocked` with the timer restarted, whether
      or not the product is recurring. */
  method MarkBought(db: Database, id: Id, now: Instant)
    requires db.Valid()
    modifies db
    ensures db.Valid()
    ensures db.products == Patched(old(db.products), {id}, RestockPatch(now))
    ensures db.households == old(db.households) && db.reminders == old(db.reminders)
    ensures db.log == old(db.log) && db.nextId == old(db.nextId)
  {
    db.UpdateProducts({id}, NoProductChange.(status := Some(Stocked), lastRestockedAt := Some(now), updatedAt := Some(now)));
  }

  /** `markAllBought`: one update, with one timestamp, over the ids of the
      items the page has loaded; rows not listed are untouched. */
  method MarkAllBought(db: Database, items: seq<ProductWithTiming>, now: Instant)
    requires db.Valid()
    modifies db
    ensures db.Valid()
    ensures db.products == Patched(old(db.products), ItemIds(items), RestockPatch(now))
    ensures forall i :: 0 <= i < |db.products| ==>
              db.products[i] == if (exists x :: x in items && x.row.id == old(db.products)[i].id)
                                then old(db.products)[i].(status := Stocked, lastRestockedAt := now, updatedAt := now)
                                else old(db.products)[i]
    ensures db.households == old(db.households) && db.reminders == old(db.reminders)
    ensures db.log == old(db.log) && db.nextId == old(db.nextId)
  {
    var ids := set x | x in items :: x.row.id;
    db.UpdateProducts(ids, NoProductChange.(status := Some(Stocked), lastRestockedAt := Some(now), updatedAt := Some(now)));
  }
}
