/** The product form (src/components/ProductForm.tsx): the fields it starts
    from and the row it writes when a product is created or edited. */
module ProductForm {
  import opened Wrappers
  import opened Types
  import opened Text
  import opened Store

  /** What the four inputs of the form hold. The category select holds ""
      for "no category". */
  datatype FormState = FormState(name: string, category: string, daysUntilEmpty: int, remindDaysBefore: int)

  const DefaultDaysUntilEmpty: int := 7
  const DefaultRemindDaysBefore: int := 2

  /** The form's starting values: a new product starts empty with 7 days
      and a 2-day reminder, an edit starts from the product's own values. */
  function InitialState(existing: Option<Product>): (f: FormState)
    ensures existing.None? ==> f == FormState("", "", 7, 2)
    ensures existing.Some? ==> && f.name == existing.value.name
                               && f.daysUntilEmpty == existing.value.daysUntilEmpty
                               && f.remindDaysBefore == existing.value.remindDaysBefore
    ensures existing.Some? && existing.value.category.Some? ==> f.category == existing.value.category.value
    ensures existing.Some? && existing.value.category.None? ==> f.category == ""
  {
    match existing
    case None => FormState("", "", DefaultDaysUntilEmpty, DefaultRemindDaysBefore)
    case Some(p) => FormState(p.name, Or(p.category, ""), p.daysUntilEmpty, p.remindDaysBefore)
  }

  /** `category || null`: the empty selection is stored as no category. */
  function CategoryColumn(category: string): (c: Option<string>)
    ensures c.None? <==> category == ""
    ensures c.Some? ==> c.value == category
  {
    if category == "" then None else Some(category)
  }

  /** The edit update: the four form columns and the timestamp, nothing
      else; in particular status, restock time and activity are kept. */
  function EditPatch(form: FormState, now: Instant): (patch: ProductPatch)
    ensures forall q :: Apply(q, patch) == q.(name := Trim(form.name), category := CategoryColumn(form.category),
                                              daysUntilEmpty := form.daysUntilEmpty,
                                              remindDaysBefore := form.remindDaysBefore, updatedAt := now)
    ensures forall q :: && Apply(q, patch).status == q.status
                        && Apply(q, patch).lastRestockedAt == q.lastRestockedAt
                        && Apply(q, patch).isActive == q.isActive
  {
    NoProductChange.(name := Some(Trim(form.name)), category := Some(CategoryColumn(form.category)),
                     daysUntilEmpty := Some(form.daysUntilEmpty), remindDaysBefore := Some(form.remindDaysBefore),
                     updatedAt := Some(now))
  }

  /** The row a create inserts: trimmed name, stocked, active, and the
      consumption timer started now. */
  function CreatedRow(householdId: Id, form: FormState, user: Option<Id>, now: Instant): (p: Product)
    ensures p.householdId == householdId && p.name == Trim(form.name) && p.category == CategoryColumn(form.category)
    ensures p.daysUntilEmpty == form.daysUntilEmpty && p.remindDaysBefore == form.remindDaysBefore
    ensures p.status == Stocked && p.isActive && p.lastRestockedAt == now && p.addedBy == user
  {
    NewProductRow(householdId, Trim(form.name), CategoryColumn(form.category), form.daysUntilEmpty,
                  form.remindDaysBefore, now, user, now)
  }

  /** Saving an edit form that was opened on a product and left as it was
      writes the product's own values back: only the timestamp moves. */
  lemma {:induction false} UnchangedEditKeepsProduct(p: Product, now: Instant)
    requires Trim(p.name) == p.name
    requires p.category != Some("")
    ensures Apply(p, EditPatch(InitialState(Some(p)), now)) == p.(updatedAt := now)
  {
    var f := InitialState(Some(p));
    assert CategoryColumn(f.category) == p.category;
  }

  /** `handleSubmit`. The inputs bound the day counts (1 to 365 days, a
      reminder of 0 up to that many days) before the form can be
      submitted. A blank name writes nothing; otherwise an edit updates the
      product with the id of the one being edited and a create inserts a
      new row. */
  method Submit(db: Database, householdId: Id, existing: Option<Product>, form: FormState,
                user: Option<Id>, now: Instant) returns (written: bool)
    requires db.Valid()
    requires 1 <= form.daysUntilEmpty <= 365
    requires 0 <= form.remindDaysBefore <= form.daysUntilEmpty
    modifies db
    ensures db.Valid()
    ensures written <==> Trim(form.name) != []
    ensures !written ==> db.products == old(db.products) && db.nextId == old(db.nextId)
    ensures written && existing.Some? ==>
              && db.products == Patched(old(db.products), {existing.value.id}, EditPatch(form, now))
              && db.nextId == old(db.nextId)
    ensures written && existing.None? ==>
              && db.products == old(db.products) + [CreatedRow(householdId, form, user, now).(id := old(db.nextId))]
              && db.nextId == old(db.nextId) + 1
    ensures db.households == old(db.households) && db.reminders == old(db.reminders) && db.log == old(db.log)
  {
    var name := Trim(form.name);
    if name == [] {
      return false;
    }
    if existing.Some? {
      db.UpdateProducts({existing.value.id},
        NoProductChange.(name := Some(name), category := Some(CategoryColumn(form.category)),
                         daysUntilEmpty := Some(form.daysUntilEmpty), remindDaysBefore := Some(form.remindDaysBefore),
                         updatedAt := Some(now)));
    } else {
      var _ := db.InsertProduct(NewProductRow(householdId, name, CategoryColumn(form.category), form.daysUntilEmpty,
                                              form.remindDaysBefore, now, user, now));
    }
    written := true;
  }
}
