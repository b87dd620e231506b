/** The product card (src/components/ProductCard.tsx): the urgency colouring
    of a product and the three buttons that change its row. */
module ProductCard {
  import opened Wrappers
  import opened Types
  import opened Text
  import opened Store

  /** The colour bands of the card border (`urgencyColor`) and of the days
      badge (`badgeColor`): red, yellow, green. */
  datatype Tier = Overdue | Urgent | Fine

  /** Both colour choices of the card: run out (or out today) is overdue,
      otherwise within the reminder window is urgent, otherwise fine. */
  function Urgency(days: int, remindDaysBefore: int): (t: Tier)
    ensures t == Overdue <==> days <= 0
    ensures t == Urgent <==> 0 < days <= remindDaysBefore
    ensures t == Fine <==> 0 < days && remindDaysBefore < days
  {
    if days <= 0 then Overdue
    else if days <= remindDaysBefore then Urgent
    else Fine
  }

  /** The days badge: "Op!" once the product has run out, else the number
      of days left followed by "d". */
  function Badge(days: int): (b: string)
    ensures b == "Op!" <==> days <= 0
    ensures days > 0 ==> |b| >= 2 && b[|b| - 1] == 'd'
                         && IsNumeric(b[..|b| - 1]) && DecimalValue(b[..|b| - 1]) == days
  {
    if days <= 0 then "Op!"
    else
      var b := NatToString(days) + ['d'];
      NatToStringRoundTrip(days);
      assert b[..|b| - 1] == NatToString(days);
      assert b[|b| - 1] != '!';
      b
  }

  /** What the card shows next to the edit button: the "Op lijstje"
      button for a stocked product, the "Staat op lijstje" label otherwise. */
  datatype ListControl = AddToListButton | OnListLabel

  function ListControlFor(status: Status): (c: ListControl)
    ensures c == AddToListButton <==> status == Stocked
    ensures c == OnListLabel <==> status != Stocked
  {
    if status == Stocked then AddToListButton else OnListLabel
  }

  /** "Bought" on the card honours recurrence: a recurring product restarts
      its timer, a one-off product is retired (soft-deleted). */
  function BoughtPatch(product: Product, now: Instant): (patch: ProductPatch)
    ensures product.isRecurring ==> forall q :: Apply(q, patch) == q.(status := Stocked, lastRestockedAt := now, updatedAt := now)
    ensures !product.isRecurring ==> forall q :: Apply(q, patch) == q.(isActive := false, updatedAt := now)
  {
    if product.isRecurring then RestockPatch(now)
    else NoProductChange.(isActive := Some(false), updatedAt := Some(now))
  }

  function AddToListPatch(now: Instant): (patch: ProductPatch)
    ensures forall q :: Apply(q, patch) == q.(status := OnList, updatedAt := now)
  {
    NoProductChange.(status := Some(OnList), updatedAt := Some(now))
  }

  function RemovePatch(now: Instant): (patch: ProductPatch)
    ensures forall q :: Apply(q, patch) == q.(isActive := false, updatedAt := now)
  {
    NoProductChange.(isActive := Some(false), updatedAt := Some(now))
  }

  /** `markBought`: the decision is taken on the card's own copy of the
      product; the update goes to the row with that id. */
  method MarkBought(db: Database, product: ProductWithTiming, now: Instant)
    requires db.Valid()
    modifies db
    ensures db.Valid()
    ensures db.products == Patched(old(db.products), {product.row.id}, BoughtPatch(product.row, now))
    ensures db.households == old(db.households) && db.reminders == old(db.reminders)
    ensures db.log == old(db.log) && db.nextId == old(db.nextId)
  {
    if product.row.isRecurring {
      db.UpdateProducts({product.row.id}, NoProductChange.(status := Some(Stocked), lastRestockedAt := Some(now), updatedAt := Some(now)));
    } else {
      db.UpdateProducts({product.row.id}, NoProductChange.(isActive := Some(false), updatedAt := Some(now)));
    }
  }

  method AddToList(db: Database, product: ProductWithTiming, now: Instant)
    requires db.Valid()
    modifies db
    ensures db.Valid()
    ensures db.products == Patched(old(db.products), {product.row.id}, AddToListPatch(now))
    ensures db.households == old(db.households) && db.reminders == old(db.reminders)
    ensures db.log == old(db.log) && db.nextId == old(db.nextId)
  {
    db.UpdateProducts({product.row.id}, NoProductChange.(status := Some(OnList), updatedAt := Some(now)));
  }

  method RemoveProduct(db: Database, product: ProductWithTiming, now: Instant)
    requires db.Valid()
    modifies db
    ensures db.Valid()
    ensures db.products == Patched(old(db.products), {product.row.id}, RemovePatch(now))
    ensures db.households == old(db.households) && db.reminders == old(db.reminders)
    ensures db.log == old(db.log) && db.nextId == old(db.nextId)
  {
    db.UpdateProducts({product.row.id}, NoProductChange.(isActive := Some(false), updatedAt := Some(now)));
  }

  /** The entry points disagree on one-off products: the card retires one,
      while the chat command and the shopping list (both `RestockPatch`)
      keep it active and restart its timer. */
  lemma OneOffBoughtDiffers(p: Product, now: Instant)
    requires !p.isRecurring && p.isActive
    ensures !Apply(p, BoughtPatch(p, now)).isActive
    ensures Apply(p, RestockPatch(now)).isActive && Apply(p, RestockPatch(now)).status == Stocked
  {
  }
}
