/** The scheduled reminder scan (src/app/api/check-reminders/route.ts): due
    products are grouped by household and each household with a linked chat
    gets one message; a delivered message moves its products to `reminded`
    and logs one row per product. Due household tasks are grouped and sent
    the same way, without changing them. */
module CheckReminders {
  import opened Wrappers
  import opened Types
  import opened Seqs
  import opened Text
  import opened Store

  /** One household's share of a scan: the chat to write to and the due
      rows of the household, in scan order. */
  datatype Bucket<T> = Bucket(householdId: Id, chatId: string, items: seq<T>)

  function HasId(h: Id): Household -> bool {
    (x: Household) => x.id == h
  }

  /** The `households(telegram_chat_id)` join of a row of household `h`: the
      chat id, when it is set and not empty. */
  function ChatIdOf(hhs: seq<Household>, h: Id): (c: Option<string>)
    ensures c.Some? ==> c.value != [] && exists i :: 0 <= i < |hhs| && hhs[i].id == h && hhs[i].telegramChatId == c
    ensures (forall i :: 0 <= i < |hhs| ==> hhs[i].id != h) ==> c.None?
    ensures forall i :: 0 <= i < |hhs| && hhs[i].id == h && (forall j :: 0 <= j < i ==> hhs[j].id != h) ==>
              c == if hhs[i].telegramChatId.Some? && hhs[i].telegramChatId.value != [] then hhs[i].telegramChatId else None
  {
    match IndexOfFirst(hhs, HasId(h))
    case None => None
    case Some(i) =>
      var chat := hhs[i].telegramChatId;
      if chat.Some? && chat.value != [] then chat else None
  }

  function KeyIs<T>(key: T -> Id, h: Id): T -> bool {
    (x: T) => key(x) == h
  }

  function BucketFor<T>(h: Id): Bucket<T> -> bool {
    (b: Bucket<T>) => b.householdId == h
  }

  /** One turn of the grouping loop: a row of a household without a chat is
      skipped, the first row of a household opens its bucket, later rows
      join it. */
  function AddToBuckets<T>(bs: seq<Bucket<T>>, x: T, key: T -> Id, hhs: seq<Household>): seq<Bucket<T>> {
    var chat := ChatIdOf(hhs, key(x));
    if chat.None? then bs
    else
      var k := IndexOfFirst(bs, BucketFor(key(x)));
      if k.None? then bs + [Bucket(key(x), chat.value, [x])]
      else bs[k.value := bs[k.value].(items := bs[k.value].items + [x])]
  }

  /** The buckets after the grouping loop has scanned `rows`, in the order
      the households first appear. */
  function Group<T>(rows: seq<T>, key: T -> Id, hhs: seq<Household>): seq<Bucket<T>> {
    if rows == [] then [] else AddToBuckets(Group(rows[..|rows| - 1], key, hhs), rows[|rows| - 1], key, hhs)
  }

  ghost predicate HouseholdsDistinct<T>(bs: seq<Bucket<T>>) {
    forall i, j :: 0 <= i < j < |bs| ==> bs[i].householdId != bs[j].householdId
  }

  ghost predicate BucketsLinked<T>(bs: seq<Bucket<T>>, hhs: seq<Household>) {
    forall i :: 0 <= i < |bs| ==> ChatIdOf(hhs, bs[i].householdId) == Some(bs[i].chatId)
  }

  ghost predicate BucketsHold<T>(bs: seq<Bucket<T>>, rows: seq<T>, key: T -> Id) {
    forall i :: 0 <= i < |bs| ==> bs[i].items == Filter(rows, KeyIs(key, bs[i].householdId))
  }

  ghost predicate RowsCovered<T>(bs: seq<Bucket<T>>, rows: seq<T>, key: T -> Id, hhs: seq<Household>) {
    forall j :: 0 <= j < |rows| && ChatIdOf(hhs, key(rows[j])).Some? ==>
      exists i :: 0 <= i < |bs| && bs[i].householdId == key(rows[j])
  }

  ghost predicate BucketsNonEmpty<T>(bs: seq<Bucket<T>>) {
    forall i :: 0 <= i < |bs| ==> |bs[i].items| > 0
  }

  /** What grouping promises: one bucket per household that has a chat and
      a due row, holding exactly that household's rows in scan order. */
  ghost predicate GroupedFrom<T>(bs: seq<Bucket<T>>, rows: seq<T>, key: T -> Id, hhs: seq<Household>) {
    && HouseholdsDistinct(bs)
    && BucketsNonEmpty(bs)
    && BucketsLinked(bs, hhs)
    && BucketsHold(bs, rows, key)
    && RowsCovered(bs, rows, key, hhs)
  }

  lemma {:induction false} FilterOfOne<T>(x: T, f: T -> bool)
    ensures Filter([x], f) == if f(x) then [x] else []
  {
    assert [x][1..] == [];
  }

  lemma {:induction false} FilterSnoc<T>(rows: seq<T>, x: T, f: T -> bool)
    ensures Filter(rows + [x], f) == Filter(rows, f) + (if f(x) then [x] else [])
  {
    FilterAppend(rows, [x], f);
    FilterOfOne(x, f);
  }

  /** No row of household `h` has been scanned when `h` has no bucket. */
  lemma {:induction false} NoBucketNoRows<T>(bs: seq<Bucket<T>>, rows: seq<T>, key: T -> Id, hhs: seq<Household>, h: Id)
    requires RowsCovered(bs, rows, key, hhs)
    requires ChatIdOf(hhs, h).Some?
    requires forall i :: 0 <= i < |bs| ==> bs[i].householdId != h
    ensures Filter(rows, KeyIs(key, h)) == []
  {
    assert forall j :: 0 <= j < |rows| ==> !KeyIs(key, h)(rows[j]);
    FilterNone(rows, KeyIs(key, h));
  }

  lemma {:induction false} FilterSnocKey<T>(rows: seq<T>, x: T, key: T -> Id, g: Id)
    ensures Filter(rows + [x], KeyIs(key, g)) == Filter(rows, KeyIs(key, g)) + (if key(x) == g then [x] else [])
  {
    FilterSnoc(rows, x, KeyIs(key, g));
  }

  /** A row of a household without a chat changes no bucket. */
  lemma {:induction false} SkipKeepsGrouped<T>(bs: seq<Bucket<T>>, rows: seq<T>, x: T, key: T -> Id, hhs: seq<Household>)
    requires GroupedFrom(bs, rows, key, hhs)
    requires ChatIdOf(hhs, key(x)).None?
    ensures GroupedFrom(bs, rows + [x], key, hhs)
  {
    var rows' := rows + [x];
    forall i | 0 <= i < |bs| ensures bs[i].items == Filter(rows', KeyIs(key, bs[i].householdId)) {
      assert bs[i].householdId != key(x);
      FilterSnocKey(rows, x, key, bs[i].householdId);
    }
    forall j | 0 <= j < |rows'| && ChatIdOf(hhs, key(rows'[j])).Some?
      ensures exists i :: 0 <= i < |bs| && bs[i].householdId == key(rows'[j])
    {
      assert j < |rows| && rows'[j] == rows[j];
    }
  }

  /** The first row of a household with a chat opens a new bucket at the end. */
  lemma {:induction false} OpenKeepsGrouped<T>(bs: seq<Bucket<T>>, rows: seq<T>, x: T, key: T -> Id, hhs: seq<Household>, c: string)
    requires GroupedFrom(bs, rows, key, hhs)
    requires ChatIdOf(hhs, key(x)) == Some(c)
    requires forall i :: 0 <= i < |bs| ==> bs[i].householdId != key(x)
    ensures GroupedFrom(bs + [Bucket(key(x), c, [x])], rows + [x], key, hhs)
  {
    var bs' := bs + [Bucket(key(x), c, [x])];
    OpenHolds(bs, rows, x, key, hhs, c);
    OpenCovers(bs, rows, x, key, hhs, c);
    OpenKeepsLinks(bs, x, key, hhs, c);
  }

  lemma OpenKeepsLinks<T>(bs: seq<Bucket<T>>, x: T, key: T -> Id, hhs: seq<Household>, c: string)
    requires HouseholdsDistinct(bs) && BucketsNonEmpty(bs) && BucketsLinked(bs, hhs)
    requires ChatIdOf(hhs, key(x)) == Some(c)
    requires forall i :: 0 <= i < |bs| ==> bs[i].householdId != key(x)
    ensures var bs' := bs + [Bucket(key(x), c, [x])];
            HouseholdsDistinct(bs') && BucketsNonEmpty(bs') && BucketsLinked(bs', hhs)
  {
    var bs' := bs + [Bucket(key(x), c, [x])];
    forall i, j | 0 <= i < j < |bs'| ensures bs'[i].householdId != bs'[j].householdId {
      assert bs'[i] == bs[i];
      if j < |bs| { assert bs'[j] == bs[j]; }
    }
    forall i | 0 <= i < |bs'| ensures |bs'[i].items| > 0 && ChatIdOf(hhs, bs'[i].householdId) == Some(bs'[i].chatId) {
      if i < |bs| { assert bs'[i] == bs[i]; }
    }
  }

  lemma OpenHolds<T>(bs: seq<Bucket<T>>, rows: seq<T>, x: T, key: T -> Id, hhs: seq<Household>, c: string)
    requires BucketsHold(bs, rows, key) && RowsCovered(bs, rows, key, hhs)
    requires ChatIdOf(hhs, key(x)) == Some(c)
    requires forall i :: 0 <= i < |bs| ==> bs[i].householdId != key(x)
    ensures BucketsHold(bs + [Bucket(key(x), c, [x])], rows + [x], key)
  {
    var h := key(x);
    var rows' := rows + [x];
    var bs' := bs + [Bucket(h, c, [x])];
    assert forall i :: 0 <= i < |bs| ==> bs'[i] == bs[i];
    forall i | 0 <= i < |bs| ensures bs'[i].items == Filter(rows', KeyIs(key, bs'[i].householdId)) {
      FilterSnocKey(rows, x, key, bs[i].householdId);
    }
    assert bs'[|bs|].items == Filter(rows', KeyIs(key, h)) by {
      FilterSnocKey(rows, x, key, h);
      NoBucketNoRows(bs, rows, key, hhs, h);
    }
  }

  lemma OpenCovers<T>(bs: seq<Bucket<T>>, rows: seq<T>, x: T, key: T -> Id, hhs: seq<Household>, c: string)
    requires RowsCovered(bs, rows, key, hhs)
    ensures RowsCovered(bs + [Bucket(key(x), c, [x])], rows + [x], key, hhs)
  {
    var rows' := rows + [x];
    var bs' := bs + [Bucket(key(x), c, [x])];
    forall j | 0 <= j < |rows'| && ChatIdOf(hhs, key(rows'[j])).Some?
      ensures exists i :: 0 <= i < |bs'| && bs'[i].householdId == key(rows'[j])
    {
      if j < |rows| {
        assert rows'[j] == rows[j];
        var i :| 0 <= i < |bs| && bs[i].householdId == key(rows[j]);
        assert bs'[i].householdId == key(rows'[j]);
      } else {
        assert bs'[|bs|].householdId == key(rows'[j]);
      }
    }
  }

  /** A later row of a household joins the end of its bucket. */
  lemma {:induction false} JoinKeepsGrouped<T>(bs: seq<Bucket<T>>, rows: seq<T>, x: T, key: T -> Id, hhs: seq<Household>, m: nat)
    requires GroupedFrom(bs, rows, key, hhs)
    requires m < |bs| && bs[m].householdId == key(x)
    ensures GroupedFrom(bs[m := bs[m].(items := bs[m].items + [x])], rows + [x], key, hhs)
  {
    var h := key(x);
    var rows' := rows + [x];
    var bs' := bs[m := bs[m].(items := bs[m].items + [x])];
    assert forall i :: 0 <= i < |bs| ==> bs'[i].householdId == bs[i].householdId && bs'[i].chatId == bs[i].chatId;
    forall i | 0 <= i < |bs'| ensures bs'[i].items == Filter(rows', KeyIs(key, bs'[i].householdId)) {
      FilterSnocKey(rows, x, key, bs[i].householdId);
      if i != m {
        assert bs[i].householdId != h;
      }
    }
    forall j | 0 <= j < |rows'| && ChatIdOf(hhs, key(rows'[j])).Some?
      ensures exists i :: 0 <= i < |bs'| && bs'[i].householdId == key(rows'[j])
    {
      if j < |rows| {
        assert rows'[j] == rows[j];
        var i :| 0 <= i < |bs| && bs[i].householdId == key(rows[j]);
        assert bs'[i].householdId == key(rows'[j]);
      } else {
        assert bs'[m].householdId == key(rows'[j]);
      }
    }
    assert HouseholdsDistinct(bs');
    assert BucketsLinked(bs', hhs);
  }

  /** One turn of the loop keeps the grouping promise. */
  lemma {:induction false} AddKeepsGrouped<T>(bs: seq<Bucket<T>>, rows: seq<T>, x: T, key: T -> Id, hhs: seq<Household>)
    requires GroupedFrom(bs, rows, key, hhs)
    ensures GroupedFrom(AddToBuckets(bs, x, key, hhs), rows + [x], key, hhs)
  {
    var chat := ChatIdOf(hhs, key(x));
    if chat.None? {
      SkipKeepsGrouped(bs, rows, x, key, hhs);
    } else {
      var k := IndexOfFirst(bs, BucketFor(key(x)));
      if k.None? {
        OpenKeepsGrouped(bs, rows, x, key, hhs, chat.value);
      } else {
        JoinKeepsGrouped(bs, rows, x, key, hhs, k.value);
      }
    }
  }

  /** The grouping loop keeps its promise over all the rows it scans. */
  lemma {:induction false} GroupIsGrouped<T>(rows: seq<T>, key: T -> Id, hhs: seq<Household>)
    ensures GroupedFrom(Group(rows, key, hhs), rows, key, hhs)
    decreases |rows|
  {
    if rows != [] {
      var init := rows[..|rows| - 1];
      GroupIsGrouped(init, key, hhs);
      AddKeepsGrouped(Group(init, key, hhs), init, rows[|rows| - 1], key, hhs);
      assert init + [rows[|rows| - 1]] == rows;
    }
  }

  /** The grouping loop over `byHousehold` (or `remindersByHH`), the
      dictionary kept as a sequence of buckets in the order its keys were
      added. */
  method GroupByHousehold<T>(rows: seq<T>, key: T -> Id, hhs: seq<Household>) returns (bs: seq<Bucket<T>>)
    ensures bs == Group(rows, key, hhs)
  {
    bs := [];
    var i := 0;
    while i < |rows|
      invariant i <= |rows|
      invariant bs == Group(rows[..i], key, hhs)
    {
      var x := rows[i];
      var chat := ChatIdOf(hhs, key(x));
      GroupPrefixStep(rows, key, hhs, i);
      ghost var expected := AddToBuckets(bs, x, key, hhs);
      if chat.Some? {
        var k := IndexOfFirst(bs, BucketFor(key(x)));
        if k.None? {
          ghost var before := bs;
          bs := bs + [Bucket(key(x), chat.value, [])];
          k := Some(|bs| - 1);
          OpenThenPush(before, key(x), chat.value, x);
        }
        bs := bs[k.value := bs[k.value].(items := bs[k.value].items + [x])];
      }
      assert bs == expected;
      i := i + 1;
    }
    assert rows[..|rows|] == rows;
  }

  /** One more row of the scan is one more `AddToBuckets`. */
  lemma GroupPrefixStep<T>(rows: seq<T>, key: T -> Id, hhs: seq<Household>, i: nat)
    requires i < |rows|
    ensures Group(rows[..i + 1], key, hhs) == AddToBuckets(Group(rows[..i], key, hhs), rows[i], key, hhs)
  {
    assert rows[..i + 1][..i] == rows[..i] && rows[..i + 1][i] == rows[i];
  }

  /** Opening an empty bucket and pushing the row onto it is opening the
      bucket with the row. */
  lemma OpenThenPush<T>(bs: seq<Bucket<T>>, h: Id, c: string, x: T)
    ensures var bs' := bs + [Bucket(h, c, [])];
            bs'[|bs| := bs'[|bs|].(items := bs'[|bs|].items + [x])] == bs + [Bucket(h, c, [x])]
  {
    var bs' := bs + [Bucket(h, c, [])];
    assert bs'[|bs|].items + [x] == [x];
  }

  ghost predicate InSomeBucket<T>(bs: seq<Bucket<T>>, x: T) {
    exists i :: 0 <= i < |bs| && x in bs[i].items
  }

  /** Every row whose household has a chat lands in the bucket of its
      household, and in no other; a row without one is in no bucket. */
  lemma {:induction false} GroupPlacesEveryRow<T>(rows: seq<T>, key: T -> Id, hhs: seq<Household>, j: nat)
    requires j < |rows|
    ensures ChatIdOf(hhs, key(rows[j])).Some? <==> InSomeBucket(Group(rows, key, hhs), rows[j])
    ensures var bs := Group(rows, key, hhs);
            forall i :: 0 <= i < |bs| && rows[j] in bs[i].items ==> bs[i].householdId == key(rows[j])
  {
    var bs := Group(rows, key, hhs);
    GroupIsGrouped(rows, key, hhs);
    forall i | 0 <= i < |bs| && rows[j] in bs[i].items ensures bs[i].householdId == key(rows[j]) {
      InBucketIsOwn(bs, rows, key, rows[j], i);
    }
    if InSomeBucket(bs, rows[j]) {
      var i :| 0 <= i < |bs| && rows[j] in bs[i].items;
      InBucketIsOwn(bs, rows, key, rows[j], i);
    }
    if ChatIdOf(hhs, key(rows[j])).Some? {
      ChatPlacesRow(bs, rows, key, hhs, j);
    }
  }

  /** A row in a bucket belongs to the bucket's household. */
  lemma InBucketIsOwn<T>(bs: seq<Bucket<T>>, rows: seq<T>, key: T -> Id, x: T, i: nat)
    requires BucketsHold(bs, rows, key)
    requires i < |bs| && x in bs[i].items
    ensures bs[i].householdId == key(x)
  {
    var a :| 0 <= a < |bs[i].items| && bs[i].items[a] == x;
    assert KeyIs(key, bs[i].householdId)(bs[i].items[a]);
  }

  /** A row whose household has a chat is in that household's bucket. */
  lemma ChatPlacesRow<T>(bs: seq<Bucket<T>>, rows: seq<T>, key: T -> Id, hhs: seq<Household>, j: nat)
    requires BucketsHold(bs, rows, key) && RowsCovered(bs, rows, key, hhs)
    requires j < |rows| && ChatIdOf(hhs, key(rows[j])).Some?
    ensures InSomeBucket(bs, rows[j])
  {
    var i :| 0 <= i < |bs| && bs[i].householdId == key(rows[j]);
    assert KeyIs(key, bs[i].householdId)(rows[j]);
    assert rows[j] in bs[i].items;
  }

  /** Some row has household `h`. */
  ghost predicate RowOf<T>(rows: seq<T>, key: T -> Id, h: Id) {
    exists j :: 0 <= j < |rows| && key(rows[j]) == h
  }

  /** A bucket's household has a chat and one of the scanned rows. */
  lemma {:induction false} BucketHasRow<T>(bs: seq<Bucket<T>>, rows: seq<T>, key: T -> Id, hhs: seq<Household>, i: nat)
    requires BucketsNonEmpty(bs) && BucketsLinked(bs, hhs) && BucketsHold(bs, rows, key)
    requires i < |bs|
    ensures ChatIdOf(hhs, bs[i].householdId).Some?
    ensures RowOf(rows, key, bs[i].householdId)
  {
    var h := bs[i].householdId;
    var items := Filter(rows, KeyIs(key, h));
    assert bs[i].items == items;
    assert items[0] in rows && KeyIs(key, h)(items[0]);
    var j :| 0 <= j < |rows| && rows[j] == items[0];
    assert key(rows[j]) == h;
  }

  /** A grouping has a bucket for a household exactly when it has a chat and
      at least one of the scanned rows is its own. */
  lemma {:induction false} GroupedHouseholds<T>(bs: seq<Bucket<T>>, rows: seq<T>, key: T -> Id, hhs: seq<Household>, h: Id)
    requires GroupedFrom(bs, rows, key, hhs)
    ensures (exists i :: 0 <= i < |bs| && bs[i].householdId == h)
        <==> ChatIdOf(hhs, h).Some? && RowOf(rows, key, h)
  {
    if i :| 0 <= i < |bs| && bs[i].householdId == h {
      BucketHasRow(bs, rows, key, hhs, i);
    }
    if RowOf(rows, key, h) && ChatIdOf(hhs, h).Some? {
      var j :| 0 <= j < |rows| && key(rows[j]) == h;
      assert ChatIdOf(hhs, key(rows[j])).Some?;
      var i :| 0 <= i < |bs| && bs[i].householdId == key(rows[j]);
      assert bs[i].householdId == h;
    }
  }

  /** So the grouping loop opens one bucket per household that has a chat
      and a scanned row, and no other. */
  lemma {:induction false} GroupHouseholds<T>(rows: seq<T>, key: T -> Id, hhs: seq<Household>, h: Id)
    ensures HouseholdsDistinct(Group(rows, key, hhs))
    ensures var bs := Group(rows, key, hhs);
            (exists i :: 0 <= i < |bs| && bs[i].householdId == h)
            <==> ChatIdOf(hhs, h).Some? && RowOf(rows, key, h)
  {
    var bs := Group(rows, key, hhs);
    GroupIsGrouped(rows, key, hhs);
    GroupedHouseholds(bs, rows, key, hhs, h);
  }

  /** No two items of a grouping share an id. */
  ghost predicate ItemsDistinct<T>(bs: seq<Bucket<T>>, ident: T -> int) {
    forall i, a, j, b ::
      (0 <= i < |bs| && 0 <= a < |bs[i].items| && 0 <= j < |bs| && 0 <= b < |bs[j].items| && (i, a) != (j, b))
      ==> ident(bs[i].items[a]) != ident(bs[j].items[b])
  }

  /** Items of two different buckets come from two different rows. */
  lemma {:induction false} OtherBucketOtherRow<T>(rows: seq<T>, key: T -> Id, bs: seq<Bucket<T>>, ident: T -> int,
                                                 i: nat, a: nat, j: nat, b: nat)
    requires DistinctBy(rows, ident)
    requires BucketsHold(bs, rows, key)
    requires i < |bs| && a < |bs[i].items| && j < |bs| && b < |bs[j].items|
    requires bs[i].householdId != bs[j].householdId
    ensures ident(bs[i].items[a]) != ident(bs[j].items[b])
  {
    var x, y := bs[i].items[a], bs[j].items[b];
    assert x in rows && key(x) == bs[i].householdId;
    assert y in rows && key(y) == bs[j].householdId;
    var p :| 0 <= p < |rows| && rows[p] == x;
    var q :| 0 <= q < |rows| && rows[q] == y;
  }

  /** Rows with distinct ids are grouped into items with distinct ids: each
      row goes to one bucket, once. */
  lemma {:induction false} GroupItemsDistinct<T>(rows: seq<T>, key: T -> Id, hhs: seq<Household>, ident: T -> int)
    requires DistinctBy(rows, ident)
    ensures ItemsDistinct(Group(rows, key, hhs), ident)
  {
    var bs := Group(rows, key, hhs);
    GroupIsGrouped(rows, key, hhs);
    forall i, a, j, b | 0 <= i < |bs| && 0 <= a < |bs[i].items| && 0 <= j < |bs| && 0 <= b < |bs[j].items|
                        && (i, a) != (j, b)
      ensures ident(bs[i].items[a]) != ident(bs[j].items[b])
    {
      if i == j {
        FilterDistinct(rows, KeyIs(key, bs[i].householdId), ident);
        assert a != b;
      } else {
        OtherBucketOtherRow(rows, key, bs, ident, i, a, j, b);
      }
    }
  }

  /** A product is due when it is still `stocked` and its reminder time has
      come. */
  function IsDueAt(now: Instant): ProductWithTiming -> bool {
    (p: ProductWithTiming) => p.row.status == Stocked && p.timing.remindAt <= now
  }

  /** The due-product query over the timing view, in view order. */
  function DueProducts(view: seq<ProductWithTiming>, now: Instant): (due: seq<ProductWithTiming>)
    ensures forall x :: x in due <==> x in view && x.row.status == Stocked && x.timing.remindAt <= now
  {
    Filter(view, IsDueAt(now))
  }

  /** A task is due when its due date has come and it is not done. */
  function IsTaskDueAt(now: Instant): Reminder -> bool {
    (r: Reminder) => r.dueDate <= now && !r.isDone
  }

  function DueTasks(rs: seq<Reminder>, now: Instant): (due: seq<Reminder>)
    ensures forall x :: x in due <==> x in rs && x.dueDate <= now && !x.isDone
  {
    Filter(rs, IsTaskDueAt(now))
  }

  function RowHousehold(p: ProductWithTiming): Id {
    p.row.householdId
  }

  function TaskHousehold(r: Reminder): Id {
    r.householdId
  }

  /** "dag" for exactly one day left, "dagen" otherwise. */
  function DayWord(days: int): (w: string)
    ensures w == "dag" <==> days == 1
    ensures w == "dagen" <==> days != 1
  {
    "dag" + (if days != 1 then "en" else "")
  }

  /** What closes a product line: the word for the days left and a
      bracket. */
  function Closing(days: int): string {
    " " + DayWord(days) + ")"
  }

  /** One product's line: its name in bold, then the days left and the
      word for them; "dag)" closes the line exactly for one day left. */
  function ProductLine(p: ProductWithTiming): (l: string)
    ensures |l| >= 7 + |p.row.name| && l[..7] == "  - <b>" && l[7..7 + |p.row.name|] == p.row.name
    ensures var tail := IntToString(p.timing.daysRemaining) + Closing(p.timing.daysRemaining);
            |tail| <= |l| && l[|l| - |tail|..] == tail
    ensures |l| >= 5 && (l[|l| - 5..] == " dag)" <==> p.timing.daysRemaining == 1)
    ensures OneLine(p.row.name) ==> OneLine(l)
  {
    var d := p.timing.daysRemaining;
    DayWordTail(d);
    IntToStringOneLine(d);
    LineShape(p.row.name, IntToString(d), Closing(d));
    "  - <b>" + p.row.name + ("</b> (nog ~" + (IntToString(d) + Closing(d)))
  }

  /** The closing of a product line says "dag)" exactly for one day. */
  lemma DayWordTail(d: int)
    ensures |Closing(d)| >= 5 && (Closing(d)[|Closing(d)| - 5..] == " dag)" <==> d == 1)
    ensures OneLine(Closing(d))
  {
    var word := Closing(d);
    if d == 1 {
      assert word == " dag)";
    } else {
      assert word == " dagen)";
      assert word[|word| - 5..] == "agen)";
      assert "agen)"[0] != " dag)"[0];
    }
  }

  /** The pieces of a product line, for any name, number and closing. */
  lemma LineShape(name: string, num: string, word: string)
    ensures var l := "  - <b>" + name + ("</b> (nog ~" + (num + word));
            && |l| >= 7 + |name| && l[..7] == "  - <b>" && l[7..7 + |name|] == name
            && |num + word| <= |l| && l[|l| - |num + word|..] == num + word
            && (|word| >= 5 ==> l[|l| - 5..] == word[|word| - 5..])
            && (OneLine(name) && OneLine(num) && OneLine(word) ==> OneLine(l))
  {
    var l := "  - <b>" + name + ("</b> (nog ~" + (num + word));
    assert forall k :: 0 <= k < |num + word| ==> l[|l| - |num + word| + k] == (num + word)[k];
    assert forall k :: 0 <= k < |word| ==> l[|l| - |word| + k] == word[k];
    assert forall k :: 7 <= k < 7 + |name| ==> l[k] == name[k - 7];
  }

  const ProductHeader: seq<string> := ["Boodschappen reminder!", "", "Deze producten zijn bijna op:"]
  const ProductFooter: seq<string> := ["", "Tijd om te bestellen!"]

  lemma FixedLinesOneLine()
    ensures AllOneLine(ProductHeader) && AllOneLine(ProductFooter) && AllOneLine(TaskHeader)
  {
    HeaderLinesOneLine();
    FooterLinesOneLine();
  }

  lemma HeaderLinesOneLine()
    ensures OneLine("Boodschappen reminder!") && OneLine("Deze producten zijn bijna op:")
  {
  }

  lemma FooterLinesOneLine()
    ensures OneLine("") && OneLine("Tijd om te bestellen!") && OneLine("Herinneringen voor vandaag:")
  {
  }

  function ProductLines(items: seq<ProductWithTiming>): (ls: seq<string>)
    ensures |ls| == |items| && forall i :: 0 <= i < |items| ==> ls[i] == ProductLine(items[i])
    ensures (forall i :: 0 <= i < |items| ==> OneLine(items[i].row.name)) ==> AllOneLine(ls)
  {
    seq(|items|, i requires 0 <= i < |items| => ProductLine(items[i]))
  }

  /** The message to one household about its due products: a header, one
      line per product in bucket order, and a footer. When no product name
      holds a line break, its lines are exactly those. */
  function ProductMessage(items: seq<ProductWithTiming>): (m: string)
    ensures (forall i :: 0 <= i < |items| ==> OneLine(items[i].row.name)) ==>
              SplitLines(m) == ProductHeader + ProductLines(items) + ProductFooter
  {
    var body := ProductLines(items);
    var ls := ProductHeader + body + ProductFooter;
    assert AllOneLine(body) ==> SplitLines(JoinLines(ls)) == ls by {
      if AllOneLine(body) {
        FixedLinesOneLine();
        AllOneLineAppend(ProductHeader, body);
        AllOneLineAppend(ProductHeader + body, ProductFooter);
        SplitLinesOfJoin(ls);
      }
    }
    JoinLines(ls)
  }

  /** A task's line: its title in bold, then its description in brackets
      exactly when the description is set and non-empty. */
  function TaskLine(r: Reminder): (l: string)
    ensures |l| >= 11 + |r.title| && l[..11 + |r.title|] == "  - <b>" + r.title + "</b>"
    ensures |l| > 11 + |r.title| <==> r.description.Some? && r.description.value != []
    ensures r.description.Some? && r.description.value != [] ==> l[11 + |r.title|..] == " (" + r.description.value + ")"
    ensures TaskOneLine(r) ==> OneLine(l)
  {
    var head := "  - <b>" + r.title + "</b>";
    var tail := if r.description.Some? && r.description.value != [] then " (" + r.description.value + ")" else "";
    var l := head + tail;
    assert l[..|head|] == head;
    assert l[|head|..] == tail;
    assert TaskOneLine(r) ==> OneLine(l) by {
      if TaskOneLine(r) {
        forall k | 0 <= k < |l| ensures l[k] != '\n' {
          if k >= |head| + 2 && k < |l| - 1 { assert l[k] == r.description.value[k - |head| - 2]; }
        }
      }
    }
    l
  }

  /** A task's title and description hold no line break. */
  ghost predicate TaskOneLine(r: Reminder) {
    OneLine(r.title) && (r.description.Some? ==> OneLine(r.description.value))
  }

  const TaskHeader: seq<string> := ["Herinneringen voor vandaag:", ""]

  function TaskLines(items: seq<Reminder>): (ls: seq<string>)
    ensures |ls| == |items| && forall i :: 0 <= i < |items| ==> ls[i] == TaskLine(items[i])
    ensures (forall i :: 0 <= i < |items| ==> TaskOneLine(items[i])) ==> AllOneLine(ls)
  {
    seq(|items|, i requires 0 <= i < |items| => TaskLine(items[i]))
  }

  /** The message to one household about its due tasks: a header and one
      line per task in bucket order, exactly, when no title or description
      holds a line break. */
  function TaskMessage(items: seq<Reminder>): (m: string)
    ensures (forall i :: 0 <= i < |items| ==> TaskOneLine(items[i])) ==> SplitLines(m) == TaskHeader + TaskLines(items)
  {
    var body := TaskLines(items);
    var ls := TaskHeader + body;
    assert AllOneLine(body) ==> SplitLines(JoinLines(ls)) == ls by {
      if AllOneLine(body) {
        FixedLinesOneLine();
        AllOneLineAppend(TaskHeader, body);
        SplitLinesOfJoin(ls);
      }
    }
    JoinLines(ls)
  }

  datatype Outgoing = Outgoing(chatId: string, text: string)

  /** The send oracle: whether the chat service accepted a message. */
  type Sender = (string, string) -> bool

  /** The text of a bucket's message, as a parameter of the dispatch
      bookkeeping; the scan itself uses `ProductMessage`. */
  type Renderer = seq<ProductWithTiming> -> string

  function Delivers(b: Bucket<ProductWithTiming>, send: Sender, render: Renderer): bool {
    send(b.chatId, render(b.items))
  }

  function BucketIds(b: Bucket<ProductWithTiming>): set<Id> {
    set a | 0 <= a < |b.items| :: b.items[a].row.id
  }

  /** The ids of the products in the delivered buckets among the first `n`:
      exactly those that the first `n` turns set to `reminded`. */
  function DeliveredIds(bs: seq<Bucket<ProductWithTiming>>, n: nat, send: Sender, render: Renderer): set<Id>
    requires n <= |bs|
  {
    if n == 0 then {} else DeliveredIds(bs, n - 1, send, render) + (if Delivers(bs[n - 1], send, render) then BucketIds(bs[n - 1]) else {})
  }

  /** Some product of a delivered bucket among the first `n` has id `id`. */
  ghost predicate DeliveredIn(bs: seq<Bucket<ProductWithTiming>>, n: nat, send: Sender, render: Renderer, id: Id)
    requires n <= |bs|
  {
    exists k, a :: 0 <= k < n && 0 <= a < |bs[k].items| && bs[k].items[a].row.id == id && Delivers(bs[k], send, render)
  }

  /** The ids collected by the first `n` turns are exactly those of the
      products of the delivered buckets among them. */
  lemma {:induction false} DeliveredIdsMembers(bs: seq<Bucket<ProductWithTiming>>, n: nat, send: Sender, render: Renderer)
    requires n <= |bs|
    ensures forall id :: id in DeliveredIds(bs, n, send, render) <==> DeliveredIn(bs, n, send, render, id)
  {
    if n > 0 {
      DeliveredIdsMembers(bs, n - 1, send, render);
      var b := bs[n - 1];
      forall id | id in DeliveredIds(bs, n, send, render) ensures DeliveredIn(bs, n, send, render, id) {
        if id in DeliveredIds(bs, n - 1, send, render) {
          var k, a :| 0 <= k < n - 1 && 0 <= a < |bs[k].items| && bs[k].items[a].row.id == id && Delivers(bs[k], send, render);
          assert 0 <= k < n;
        } else {
          var a :| 0 <= a < |b.items| && b.items[a].row.id == id;
          assert bs[n - 1].items[a].row.id == id;
        }
      }
      forall id | DeliveredIn(bs, n, send, render, id) ensures id in DeliveredIds(bs, n, send, render) {
        var k, a :| 0 <= k < n && 0 <= a < |bs[k].items| && bs[k].items[a].row.id == id && Delivers(bs[k], send, render);
        if k < n - 1 {
          assert DeliveredIn(bs, n - 1, send, render, id);
        } else {
          assert id in BucketIds(b);
        }
      }
    }
  }

  function LogRows(items: seq<ProductWithTiming>, message: string): (log: seq<LogEntry>)
    ensures |log| == |items|
    ensures forall a :: 0 <= a < |items| ==> log[a] == LogEntry(items[a].row.id, message)
  {
    seq(|items|, a requires 0 <= a < |items| => LogEntry(items[a].row.id, message))
  }

  /** The log rows the first `n` turns write: one per product of each
      delivered bucket, carrying that bucket's message. */
  function DispatchLog(bs: seq<Bucket<ProductWithTiming>>, n: nat, send: Sender, render: Renderer): seq<LogEntry>
    requires n <= |bs|
  {
    if n == 0 then []
    else DispatchLog(bs, n - 1, send, render) + (if Delivers(bs[n - 1], send, render) then LogRows(bs[n - 1].items, render(bs[n - 1].items)) else [])
  }

  /** How many of the first `n` messages were delivered. */
  function DeliveredCount(bs: seq<Bucket<ProductWithTiming>>, n: nat, send: Sender, render: Renderer): (c: nat)
    requires n <= |bs|
    ensures c <= n
    ensures c == n <==> forall k :: 0 <= k < n ==> Delivers(bs[k], send, render)
    ensures c == 0 <==> forall k :: 0 <= k < n ==> !Delivers(bs[k], send, render)
  {
    if n == 0 then 0 else DeliveredCount(bs, n - 1, send, render) + (if Delivers(bs[n - 1], send, render) then 1 else 0)
  }

  /** The turns among the first `n` whose message was delivered. */
  ghost function DeliveredTurns(bs: seq<Bucket<ProductWithTiming>>, n: nat, send: Sender, render: Renderer): set<nat>
    requires n <= |bs|
  {
    set k: nat | k < n && Delivers(bs[k], send, render)
  }

  /** The count is the number of delivered turns. */
  lemma {:induction false} DeliveredCountCounts(bs: seq<Bucket<ProductWithTiming>>, n: nat, send: Sender, render: Renderer)
    requires n <= |bs|
    ensures DeliveredCount(bs, n, send, render) == |DeliveredTurns(bs, n, send, render)|
  {
    if n == 0 {
      assert DeliveredTurns(bs, n, send, render) == {};
    } else {
      DeliveredCountCounts(bs, n - 1, send, render);
      DeliveredTurnsStep(bs, n, send, render);
    }
  }

  /** Turn `n - 1` joins the delivered turns exactly when it delivered. */
  lemma DeliveredTurnsStep(bs: seq<Bucket<ProductWithTiming>>, n: nat, send: Sender, render: Renderer)
    requires 0 < n <= |bs|
    ensures |DeliveredTurns(bs, n, send, render)| ==
            |DeliveredTurns(bs, n - 1, send, render)| + (if Delivers(bs[n - 1], send, render) then 1 else 0)
  {
    var before := DeliveredTurns(bs, n - 1, send, render);
    var last: set<nat> := if Delivers(bs[n - 1], send, render) then {n - 1} else {};
    assert n - 1 !in before;
    assert DeliveredTurns(bs, n, send, render) == before + last;
    assert |before + last| == |before| + |last|;
  }

  function ProductOutbox(bs: seq<Bucket<ProductWithTiming>>, render: Renderer): (out: seq<Outgoing>)
    ensures |out| == |bs|
    ensures forall k :: 0 <= k < |bs| ==> out[k] == Outgoing(bs[k].chatId, render(bs[k].items))
  {
    seq(|bs|, k requires 0 <= k < |bs| => Outgoing(bs[k].chatId, render(bs[k].items)))
  }

  function TaskOutbox(ts: seq<Bucket<Reminder>>): (out: seq<Outgoing>)
    ensures |out| == |ts|
    ensures forall k :: 0 <= k < |ts| ==> out[k] == Outgoing(ts[k].chatId, TaskMessage(ts[k].items))
  {
    seq(|ts|, k requires 0 <= k < |ts| => Outgoing(ts[k].chatId, TaskMessage(ts[k].items)))
  }

  /** `update({ status: "reminded", updated_at })`. */
  function RemindedPatch(now: Instant): (patch: ProductPatch)
    ensures forall q :: Apply(q, patch) == q.(status := Reminded, updatedAt := now)
  {
    NoProductChange.(status := Some(Reminded), updatedAt := Some(now))
  }

  /** A product of a bucket becomes `reminded` exactly when its own
      household's message was delivered: a failed send leaves every product
      of its bucket as it was. */
  lemma {:induction false} RemindedIffDelivered(bs: seq<Bucket<ProductWithTiming>>, send: Sender, render: Renderer, k: nat, a: nat)
    requires ItemsDistinct(bs, RowId)
    requires k < |bs| && a < |bs[k].items|
    ensures bs[k].items[a].row.id in DeliveredIds(bs, |bs|, send, render) <==> Delivers(bs[k], send, render)
  {
    DeliveredIdsMembers(bs, |bs|, send, render);
    if bs[k].items[a].row.id in DeliveredIds(bs, |bs|, send, render) {
      var k', a' :| 0 <= k' < |bs| && 0 <= a' < |bs[k'].items| && bs[k'].items[a'].row.id == bs[k].items[a].row.id
                    && Delivers(bs[k'], send, render);
      assert RowId(bs[k'].items[a']) == RowId(bs[k].items[a]);
    }
  }

  function LogProductId(e: LogEntry): int {
    e.productId
  }

  /** Some log row is about product `id`. */
  ghost predicate InLog(log: seq<LogEntry>, id: Id) {
    exists e :: 0 <= e < |log| && log[e].productId == id
  }

  /** The log rows of the first `n` turns name exactly the products they
      delivered. */
  lemma {:induction false} DispatchLogIds(bs: seq<Bucket<ProductWithTiming>>, n: nat, send: Sender, render: Renderer)
    requires n <= |bs|
    ensures forall id :: id in DeliveredIds(bs, n, send, render) <==> InLog(DispatchLog(bs, n, send, render), id)
  {
    if n > 0 {
      var b := bs[n - 1];
      DispatchLogIds(bs, n - 1, send, render);
      var old_ := DispatchLog(bs, n - 1, send, render);
      var new_ := if Delivers(b, send, render) then LogRows(b.items, render(b.items)) else [];
      forall id ensures id in DeliveredIds(bs, n, send, render) <==> InLog(old_ + new_, id) {
        InLogAppend(old_, new_, id);
        if Delivers(b, send, render) {
          InLogRows(b, render(b.items), id);
        }
      }
    }
  }

  lemma {:induction false} InLogAppend(l1: seq<LogEntry>, l2: seq<LogEntry>, id: Id)
    ensures InLog(l1 + l2, id) <==> InLog(l1, id) || InLog(l2, id)
  {
    var l := l1 + l2;
    if InLog(l1, id) {
      var e :| 0 <= e < |l1| && l1[e].productId == id;
      assert l[e] == l1[e];
    }
    if InLog(l2, id) {
      var e :| 0 <= e < |l2| && l2[e].productId == id;
      assert l[|l1| + e] == l2[e];
    }
    if InLog(l, id) {
      var e :| 0 <= e < |l| && l[e].productId == id;
      if e < |l1| {
        assert l1[e] == l[e];
      } else {
        assert l2[e - |l1|] == l[e];
      }
    }
  }

  lemma {:induction false} InLogRows(b: Bucket<ProductWithTiming>, message: string, id: Id)
    ensures InLog(LogRows(b.items, message), id) <==> id in BucketIds(b)
  {
    var l := LogRows(b.items, message);
    if id in BucketIds(b) {
      var a :| 0 <= a < |b.items| && b.items[a].row.id == id;
      assert l[a].productId == id;
    }
  }

  /** The log gets at most one row per product, since no product is in two
      buckets. */
  lemma {:induction false} DistinctAppend(l1: seq<LogEntry>, l2: seq<LogEntry>)
    requires DistinctBy(l1, LogProductId) && DistinctBy(l2, LogProductId)
    requires forall e, f :: 0 <= e < |l1| && 0 <= f < |l2| ==> l1[e].productId != l2[f].productId
    ensures DistinctBy(l1 + l2, LogProductId)
  {
    var l := l1 + l2;
    forall e, f | 0 <= e < f < |l| ensures LogProductId(l[e]) != LogProductId(l[f]) {
      if f < |l1| {
        assert l[e] == l1[e] && l[f] == l1[f];
      } else if e < |l1| {
        assert l[e] == l1[e] && l[f] == l2[f - |l1|];
      } else {
        assert l[e] == l2[e - |l1|] && l[f] == l2[f - |l1|];
      }
    }
  }

  lemma {:induction false} DispatchLogDistinct(bs: seq<Bucket<ProductWithTiming>>, n: nat, send: Sender, render: Renderer)
    requires n <= |bs|
    requires ItemsDistinct(bs, RowId)
    ensures DistinctBy(DispatchLog(bs, n, send, render), LogProductId)
  {
    if n > 0 {
      var b := bs[n - 1];
      DispatchLogDistinct(bs, n - 1, send, render);
      var old_ := DispatchLog(bs, n - 1, send, render);
      if Delivers(b, send, render) {
        var new_ := LogRows(b.items, render(b.items));
        LogRowsDistinct(bs, n - 1, render(b.items));
        EarlierLogAvoidsBucket(bs, n - 1, send, render);
        DistinctAppend(old_, new_);
      } else {
        assert DispatchLog(bs, n, send, render) == old_ + [];
        assert old_ + [] == old_;
      }
    }
  }

  /** One bucket's log rows name distinct products. */
  lemma {:induction false} LogRowsDistinct(bs: seq<Bucket<ProductWithTiming>>, k: nat, message: string)
    requires ItemsDistinct(bs, RowId)
    requires k < |bs|
    ensures DistinctBy(LogRows(bs[k].items, message), LogProductId)
  {
    var rows := LogRows(bs[k].items, message);
    forall c, d | 0 <= c < d < |rows| ensures LogProductId(rows[c]) != LogProductId(rows[d]) {
      assert RowId(bs[k].items[c]) != RowId(bs[k].items[d]);
    }
  }

  /** The log rows of the first `n` turns name no product of bucket `n`. */
  lemma {:induction false} EarlierLogAvoidsBucket(bs: seq<Bucket<ProductWithTiming>>, n: nat, send: Sender, render: Renderer)
    requires ItemsDistinct(bs, RowId)
    requires n < |bs|
    ensures forall e, c :: 0 <= e < |DispatchLog(bs, n, send, render)| && 0 <= c < |bs[n].items| ==>
              DispatchLog(bs, n, send, render)[e].productId != bs[n].items[c].row.id
  {
    var log := DispatchLog(bs, n, send, render);
    DispatchLogIds(bs, n, send, render);
    DeliveredIdsMembers(bs, n, send, render);
    forall e, c | 0 <= e < |log| && 0 <= c < |bs[n].items| ensures log[e].productId != bs[n].items[c].row.id {
      var id := log[e].productId;
      assert InLog(log, id);
      var k, a :| 0 <= k < n && 0 <= a < |bs[k].items| && bs[k].items[a].row.id == id && Delivers(bs[k], send, render);
      assert RowId(bs[k].items[a]) != RowId(bs[n].items[c]);
    }
  }

  /** The log gets exactly one row per delivered product. */
  lemma {:induction false} OneLogRowPerDeliveredProduct(bs: seq<Bucket<ProductWithTiming>>, send: Sender, render: Renderer)
    requires ItemsDistinct(bs, RowId)
    ensures DistinctBy(DispatchLog(bs, |bs|, send, render), LogProductId)
    ensures forall id :: id in DeliveredIds(bs, |bs|, send, render) <==> InLog(DispatchLog(bs, |bs|, send, render), id)
  {
    DispatchLogDistinct(bs, |bs|, send, render);
    DispatchLogIds(bs, |bs|, send, render);
  }

  lemma {:induction false} PatchedRowsAreReminded(ps: seq<Product>, ids: set<Id>, now: Instant)
    ensures var after := Patched(ps, ids, RemindedPatch(now));
            forall k :: 0 <= k < |after| && after[k].id in ids ==> after[k].status == Reminded
  {
    var after := Patched(ps, ids, RemindedPatch(now));
    forall k | 0 <= k < |after| && after[k].id in ids ensures after[k].status == Reminded {
      assert after[k].id == ps[k].id;
    }
  }

  lemma {:induction false} RemindedRowsAreNotDue(after: seq<Product>, ids: set<Id>, timing: Product -> Timing, later: Instant)
    requires forall k :: 0 <= k < |after| && after[k].id in ids ==> after[k].status == Reminded
    ensures forall x :: x in DueProducts(TimingView(after, timing), later) ==> x.row.id !in ids
  {
    var view := TimingView(after, timing);
    forall x | x in DueProducts(view, later) ensures x.row.id !in ids {
      var i :| 0 <= i < |view| && view[i] == x;
      var k :| 0 <= k < |after| && after[k] == x.row;
    }
  }

  /** A reminded product is not due for the next scan, so a delivered
      reminder is not sent again before the product is restocked. */
  lemma {:induction false} RemindedProductsAreNotDueAgain(ps: seq<Product>, ids: set<Id>, now: Instant,
                                                          timing: Product -> Timing, later: Instant)
    ensures var after := Patched(ps, ids, RemindedPatch(now));
            forall x :: x in DueProducts(TimingView(after, timing), later) ==> x.row.id !in ids
  {
    PatchedRowsAreReminded(ps, ids, now);
    RemindedRowsAreNotDue(Patched(ps, ids, RemindedPatch(now)), ids, timing, later);
  }

  /** The answer of the handler. */
  datatype Response =
    | Unauthorized
    | NoneDue
    | Summary(sent: nat, productsChecked: nat, remindersChecked: nat)

  /** The cron secret check on the `authorization` header. */
  predicate Authorized(authorization: Option<string>, secret: string) {
    authorization == Some("Bearer " + secret)
  }

  function ProductBuckets(ps: seq<Product>, hhs: seq<Household>, timing: Product -> Timing, now: Instant): seq<Bucket<ProductWithTiming>> {
    Group(DueProducts(TimingView(ps, timing), now), RowHousehold, hhs)
  }

  function TaskBuckets(rs: seq<Reminder>, hhs: seq<Household>, now: Instant): seq<Bucket<Reminder>> {
    Group(DueTasks(rs, now), TaskHousehold, hhs)
  }

  /** Household `h` has a due product exactly when the due-product query
      returns a row of `h`. */
  lemma {:induction false} DueProductOf(view: seq<ProductWithTiming>, now: Instant, h: Id)
    ensures RowOf(DueProducts(view, now), RowHousehold, h)
            <==> exists j :: 0 <= j < |view| && view[j].row.householdId == h && IsDueAt(now)(view[j])
  {
    var due := DueProducts(view, now);
    if RowOf(due, RowHousehold, h) {
      var j :| 0 <= j < |due| && RowHousehold(due[j]) == h;
      var k :| 0 <= k < |view| && view[k] == due[j];
      assert view[k].row.householdId == h && IsDueAt(now)(view[k]);
    }
    if j :| 0 <= j < |view| && view[j].row.householdId == h && IsDueAt(now)(view[j]) {
      assert view[j] in due;
      var k :| 0 <= k < |due| && due[k] == view[j];
      assert RowHousehold(due[k]) == h;
    }
  }

  /** Household `h` has a due task exactly when the due-task query returns a
      task of `h`. */
  lemma {:induction false} DueTaskOf(rs: seq<Reminder>, now: Instant, h: Id)
    ensures RowOf(DueTasks(rs, now), TaskHousehold, h)
            <==> exists j :: 0 <= j < |rs| && rs[j].householdId == h && IsTaskDueAt(now)(rs[j])
  {
    var due := DueTasks(rs, now);
    if RowOf(due, TaskHousehold, h) {
      var j :| 0 <= j < |due| && TaskHousehold(due[j]) == h;
      var k :| 0 <= k < |rs| && rs[k] == due[j];
      assert rs[k].householdId == h && IsTaskDueAt(now)(rs[k]);
    }
    if j :| 0 <= j < |rs| && rs[j].householdId == h && IsTaskDueAt(now)(rs[j]) {
      assert rs[j] in due;
      var k :| 0 <= k < |due| && due[k] == rs[j];
      assert TaskHousehold(due[k]) == h;
    }
  }

  /** A scan writes once to each household that has a chat and a due
      product, and to no other household. */
  lemma {:induction false} ProductBucketsPerHousehold(ps: seq<Product>, hhs: seq<Household>, timing: Product -> Timing,
                                                      now: Instant, h: Id)
    ensures HouseholdsDistinct(ProductBuckets(ps, hhs, timing, now))
    ensures var bs := ProductBuckets(ps, hhs, timing, now);
            var view := TimingView(ps, timing);
            (exists i :: 0 <= i < |bs| && bs[i].householdId == h)
            <==> ChatIdOf(hhs, h).Some? && exists j :: 0 <= j < |view| && view[j].row.householdId == h && IsDueAt(now)(view[j])
  {
    var view := TimingView(ps, timing);
    GroupHouseholds(DueProducts(view, now), RowHousehold, hhs, h);
    DueProductOf(view, now, h);
  }

  /** The general reminders go once to each household that has a chat and
      a due task, and to no other household. */
  lemma {:induction false} TaskBucketsPerHousehold(rs: seq<Reminder>, hhs: seq<Household>, now: Instant, h: Id)
    ensures HouseholdsDistinct(TaskBuckets(rs, hhs, now))
    ensures var ts := TaskBuckets(rs, hhs, now);
            (exists i :: 0 <= i < |ts| && ts[i].householdId == h)
            <==> ChatIdOf(hhs, h).Some? && exists j :: 0 <= j < |rs| && rs[j].householdId == h && IsTaskDueAt(now)(rs[j])
  {
    GroupHouseholds(DueTasks(rs, now), TaskHousehold, hhs, h);
    DueTaskOf(rs, now, h);
  }

  /** The buckets of a scan have distinct product ids, since the store's
      do. */
  lemma {:induction false} ProductBucketsDistinct(ps: seq<Product>, hhs: seq<Household>, timing: Product -> Timing, now: Instant)
    requires UniqueProductIds(ps)
    ensures ItemsDistinct(ProductBuckets(ps, hhs, timing, now), RowId)
  {
    var view := TimingView(ps, timing);
    FilterDistinct(view, IsDueAt(now), RowId);
    GroupItemsDistinct(DueProducts(view, now), RowHousehold, hhs, RowId);
  }

  /** The `reminder_log` inserts after a delivered message: one row per
      product of the bucket, in bucket order. */
  method LogReminders(db: Database, items: seq<ProductWithTiming>, message: string)
    requires db.Valid()
    modifies db
    ensures db.Valid()
    ensures db.log == old(db.log) + LogRows(items, message)
    ensures db.households == old(db.households) && db.products == old(db.products)
    ensures db.reminders == old(db.reminders) && db.nextId == old(db.nextId)
  {
    var j := 0;
    while j < |items|
      invariant j <= |items|
      invariant db.Valid()
      invariant db.log == old(db.log) + LogRows(items[..j], message)
      invariant db.households == old(db.households) && db.products == old(db.products)
      invariant db.reminders == old(db.reminders) && db.nextId == old(db.nextId)
    {
      db.AppendLog([LogEntry(items[j].row.id, message)]);
      assert LogRows(items[..j + 1], message) == LogRows(items[..j], message) + [LogEntry(items[j].row.id, message)];
      j := j + 1;
    }
    assert items[..|items|] == items;
  }

  /** After a delivered message: the products of the bucket become
      `reminded` and each gets a log row. */
  method MarkReminded(db: Database, b: Bucket<ProductWithTiming>, now: Instant, message: string)
    requires db.Valid()
    modifies db
    ensures db.Valid()
    ensures db.products == Patched(old(db.products), BucketIds(b), RemindedPatch(now))
    ensures db.log == old(db.log) + LogRows(b.items, message)
    ensures db.households == old(db.households) && db.reminders == old(db.reminders) && db.nextId == old(db.nextId)
  {
    db.UpdateProducts(BucketIds(b), RemindedPatch(now));
    LogReminders(db, b.items, message);
  }

  /** One bucket's message: sent to the household's chat, and only when it
      is delivered are its products set to `reminded` and logged. */
  method SendBucket(db: Database, b: Bucket<ProductWithTiming>, now: Instant, send: Sender) returns (success: bool)
    requires db.Valid()
    modifies db
    ensures db.Valid()
    ensures success == Delivers(b, send, ProductMessage)
    ensures success ==> && db.products == Patched(old(db.products), BucketIds(b), RemindedPatch(now))
                        && db.log == old(db.log) + LogRows(b.items, ProductMessage(b.items))
    ensures !success ==> db.products == old(db.products) && db.log == old(db.log)
    ensures db.households == old(db.households) && db.reminders == old(db.reminders) && db.nextId == old(db.nextId)
  {
    var message := ProductMessage(b.items);
    success := send(b.chatId, message);
    if success {
      MarkReminded(db, b, now, message);
    }
  }

  /** Turn `i` of the dispatch loop: bucket `i`'s message is sent, and only
      when it is delivered are its products set to `reminded` and logged.
      It takes the count, the outbox and the store from what the first `i`
      turns leave to what the first `i + 1` leave. */
  method DispatchTurn(db: Database, bs: seq<Bucket<ProductWithTiming>>, i: nat, now: Instant, send: Sender,
                      sent: nat, outbox: seq<Outgoing>, ghost ps0: seq<Product>, ghost log0: seq<LogEntry>)
    returns (sent': nat, outbox': seq<Outgoing>)
    requires i < |bs| && db.Valid()
    requires sent == DeliveredCount(bs, i, send, ProductMessage)
    requires outbox == ProductOutbox(bs, ProductMessage)[..i]
    requires db.products == Patched(ps0, DeliveredIds(bs, i, send, ProductMessage), RemindedPatch(now))
    requires db.log == log0 + DispatchLog(bs, i, send, ProductMessage)
    modifies db
    ensures db.Valid()
    ensures sent' == DeliveredCount(bs, i + 1, send, ProductMessage)
    ensures outbox' == ProductOutbox(bs, ProductMessage)[..i + 1]
    ensures db.products == Patched(ps0, DeliveredIds(bs, i + 1, send, ProductMessage), RemindedPatch(now))
    ensures db.log == log0 + DispatchLog(bs, i + 1, send, ProductMessage)
    ensures db.households == old(db.households) && db.reminders == old(db.reminders) && db.nextId == old(db.nextId)
  {
    var b := bs[i];
    ghost var ps, log := db.products, db.log;
    var success := SendBucket(db, b, now, send);
    if success {
      sent' := sent + 1;
    } else {
      sent' := sent;
    }
    outbox' := outbox + [Outgoing(b.chatId, ProductMessage(b.items))];
    TurnAdvance(bs, send, ProductMessage, now, i, ps0, log0, ps, log, db.products, db.log, sent, sent', outbox, outbox');
  }

  /** What turn `i` changes, stated on values: from the state the first `i`
      turns leave to the state the first `i + 1` leave. */
  lemma {:induction false} TurnAdvance(bs: seq<Bucket<ProductWithTiming>>, send: Sender, render: Renderer, now: Instant, i: nat,
                                       ps0: seq<Product>, log0: seq<LogEntry>,
                                       ps: seq<Product>, log: seq<LogEntry>, ps': seq<Product>, log': seq<LogEntry>,
                                       sent: nat, sent': nat, outbox: seq<Outgoing>, outbox': seq<Outgoing>)
    requires i < |bs|
    requires sent == DeliveredCount(bs, i, send, render)
    requires outbox == ProductOutbox(bs, render)[..i]
    requires ps == Patched(ps0, DeliveredIds(bs, i, send, render), RemindedPatch(now))
    requires log == log0 + DispatchLog(bs, i, send, render)
    requires Delivers(bs[i], send, render) ==>
               && ps' == Patched(ps, BucketIds(bs[i]), RemindedPatch(now))
               && log' == log + LogRows(bs[i].items, render(bs[i].items))
               && sent' == sent + 1
    requires !Delivers(bs[i], send, render) ==> ps' == ps && log' == log && sent' == sent
    requires outbox' == outbox + [Outgoing(bs[i].chatId, render(bs[i].items))]
    ensures sent' == DeliveredCount(bs, i + 1, send, render)
    ensures outbox' == ProductOutbox(bs, render)[..i + 1]
    ensures ps' == Patched(ps0, DeliveredIds(bs, i + 1, send, render), RemindedPatch(now))
    ensures log' == log0 + DispatchLog(bs, i + 1, send, render)
  {
    OutboxAdvance(bs, render, i);
    ProductsAdvance(bs, send, render, now, i, ps0, ps, ps');
    LogAdvance(bs, send, render, i, log0, log, log');
  }

  /** One more bucket adds its message to the outbox. */
  lemma {:induction false} OutboxAdvance(bs: seq<Bucket<ProductWithTiming>>, render: Renderer, i: nat)
    requires i < |bs|
    ensures ProductOutbox(bs, render)[..i + 1] == ProductOutbox(bs, render)[..i] + [Outgoing(bs[i].chatId, render(bs[i].items))]
  {
    var out := ProductOutbox(bs, render);
    assert out[..i + 1] == out[..i] + [out[i]];
  }

  /** One more bucket moves the products from their state after the first
      `i` turns to their state after `i + 1`. */
  lemma {:induction false} ProductsAdvance(bs: seq<Bucket<ProductWithTiming>>, send: Sender, render: Renderer, now: Instant, i: nat,
                                           ps0: seq<Product>, ps: seq<Product>, ps': seq<Product>)
    requires i < |bs|
    requires ps == Patched(ps0, DeliveredIds(bs, i, send, render), RemindedPatch(now))
    requires Delivers(bs[i], send, render) ==> ps' == Patched(ps, BucketIds(bs[i]), RemindedPatch(now))
    requires !Delivers(bs[i], send, render) ==> ps' == ps
    ensures ps' == Patched(ps0, DeliveredIds(bs, i + 1, send, render), RemindedPatch(now))
  {
    if Delivers(bs[i], send, render) {
      PatchedTwice(ps0, DeliveredIds(bs, i, send, render), BucketIds(bs[i]), RemindedPatch(now));
    }
  }

  /** The same for the log. */
  lemma {:induction false} LogAdvance(bs: seq<Bucket<ProductWithTiming>>, send: Sender, render: Renderer, i: nat,
                                      log0: seq<LogEntry>, log: seq<LogEntry>, log': seq<LogEntry>)
    requires i < |bs|
    requires log == log0 + DispatchLog(bs, i, send, render)
    requires Delivers(bs[i], send, render) ==> log' == log + LogRows(bs[i].items, render(bs[i].items))
    requires !Delivers(bs[i], send, render) ==> log' == log
    ensures log' == log0 + DispatchLog(bs, i + 1, send, render)
  {
    var logged := DispatchLog(bs, i, send, render);
    if Delivers(bs[i], send, render) {
      assert log' == log0 + (logged + LogRows(bs[i].items, render(bs[i].items)));
    } else {
      assert logged + [] == logged;
    }
  }

  /** The product half of the dispatch loop: one message per bucket, and
      the status update and log rows only for the delivered ones. */
  method DispatchProducts(db: Database, bs: seq<Bucket<ProductWithTiming>>, now: Instant, send: Sender)
    returns (sent: nat, outbox: seq<Outgoing>)
    requires db.Valid()
    modifies db
    ensures db.Valid()
    ensures sent == DeliveredCount(bs, |bs|, send, ProductMessage)
    ensures outbox == ProductOutbox(bs, ProductMessage)
    ensures db.products == Patched(old(db.products), DeliveredIds(bs, |bs|, send, ProductMessage), RemindedPatch(now))
    ensures db.log == old(db.log) + DispatchLog(bs, |bs|, send, ProductMessage)
    ensures db.households == old(db.households) && db.reminders == old(db.reminders) && db.nextId == old(db.nextId)
  {
    sent, outbox := 0, [];
    var i := 0;
    assert Patched(db.products, {}, RemindedPatch(now)) == db.products;
    assert db.log + [] == db.log;
    while i < |bs|
      invariant i <= |bs|
      invariant db.Valid()
      invariant sent == DeliveredCount(bs, i, send, ProductMessage)
      invariant outbox == ProductOutbox(bs, ProductMessage)[..i]
      invariant db.products == Patched(old(db.products), DeliveredIds(bs, i, send, ProductMessage), RemindedPatch(now))
      invariant db.log == old(db.log) + DispatchLog(bs, i, send, ProductMessage)
      invariant db.households == old(db.households) && db.reminders == old(db.reminders) && db.nextId == old(db.nextId)
    {
      sent, outbox := DispatchTurn(db, bs, i, now, send, sent, outbox, old(db.products), old(db.log));
      i := i + 1;
    }
    assert ProductOutbox(bs, ProductMessage)[..|bs|] == ProductOutbox(bs, ProductMessage);
  }

  /** The task half: every task bucket gets its message and counts as sent
      whatever the outcome; tasks are not changed. */
  method NotifyTasks(ts: seq<Bucket<Reminder>>, send: Sender) returns (sent: nat, outbox: seq<Outgoing>)
    ensures sent == |ts|
    ensures outbox == TaskOutbox(ts)
  {
    sent, outbox := 0, [];
    var i := 0;
    while i < |ts|
      invariant i <= |ts|
      invariant sent == i
      invariant outbox == TaskOutbox(ts[..i])
    {
      var message := TaskMessage(ts[i].items);
      var _ := send(ts[i].chatId, message);
      outbox := outbox + [Outgoing(ts[i].chatId, message)];
      sent := sent + 1;
      i := i + 1;
    }
    assert ts[..|ts|] == ts;
  }

  /** `GET`: the cron secret gates everything; without due products the scan
      stops before looking at tasks; otherwise products are reminded per
      household and then due tasks are sent. */
  method Run(db: Database, authorization: Option<string>, secret: string, timing: Product -> Timing,
             now: Instant, send: Sender) returns (response: Response, outbox: seq<Outgoing>)
    requires db.Valid()
    modifies db
    ensures db.Valid()
    ensures !Authorized(authorization, secret) ==>
              && response == Unauthorized && outbox == []
              && db.products == old(db.products) && db.log == old(db.log)
    ensures Authorized(authorization, secret) && DueProducts(TimingView(old(db.products), timing), now) == [] ==>
              && response == NoneDue && outbox == []
              && db.products == old(db.products) && db.log == old(db.log)
    ensures Authorized(authorization, secret) && DueProducts(TimingView(old(db.products), timing), now) != [] ==>
              && response.Summary?
              && response.productsChecked == |DueProducts(TimingView(old(db.products), timing), now)|
              && response.remindersChecked == |DueTasks(old(db.reminders), now)|
    ensures Authorized(authorization, secret) && DueProducts(TimingView(old(db.products), timing), now) != [] ==>
              var bs := ProductBuckets(old(db.products), old(db.households), timing, now);
              response.sent == DeliveredCount(bs, |bs|, send, ProductMessage) + |TaskBuckets(old(db.reminders), old(db.households), now)|
    ensures Authorized(authorization, secret) && DueProducts(TimingView(old(db.products), timing), now) != [] ==>
              var bs := ProductBuckets(old(db.products), old(db.households), timing, now);
              && db.products == Patched(old(db.products), DeliveredIds(bs, |bs|, send, ProductMessage), RemindedPatch(now))
              && db.log == old(db.log) + DispatchLog(bs, |bs|, send, ProductMessage)
    ensures Authorized(authorization, secret) && DueProducts(TimingView(old(db.products), timing), now) != [] ==>
              outbox == ProductOutbox(ProductBuckets(old(db.products), old(db.households), timing, now), ProductMessage)
                        + TaskOutbox(TaskBuckets(old(db.reminders), old(db.households), now))
    ensures db.households == old(db.households) && db.reminders == old(db.reminders) && db.nextId == old(db.nextId)
  {
    if authorization != Some("Bearer " + secret) {
      return Unauthorized, [];
    }
    var due := DueProducts(TimingView(db.products, timing), now);
    if |due| == 0 {
      return NoneDue, [];
    }
    response, outbox := ScanDue(db, timing, now, send);
  }

  /** The authorised scan once some product is due: the product messages and
      their bookkeeping, then the general reminders, then the summary. */
  method ScanDue(db: Database, timing: Product -> Timing, now: Instant, send: Sender)
    returns (response: Response, outbox: seq<Outgoing>)
    requires db.Valid()
    modifies db
    ensures db.Valid()
    ensures response.Summary?
    ensures var bs := ProductBuckets(old(db.products), old(db.households), timing, now);
            response.sent == DeliveredCount(bs, |bs|, send, ProductMessage) + |TaskBuckets(old(db.reminders), old(db.households), now)|
    ensures response.productsChecked == |DueProducts(TimingView(old(db.products), timing), now)|
    ensures response.remindersChecked == |DueTasks(old(db.reminders), now)|
    ensures var bs := ProductBuckets(old(db.products), old(db.households), timing, now);
            db.products == Patched(old(db.products), DeliveredIds(bs, |bs|, send, ProductMessage), RemindedPatch(now))
    ensures var bs := ProductBuckets(old(db.products), old(db.households), timing, now);
            db.log == old(db.log) + DispatchLog(bs, |bs|, send, ProductMessage)
    ensures outbox == ProductOutbox(ProductBuckets(old(db.products), old(db.households), timing, now), ProductMessage)
                      + TaskOutbox(TaskBuckets(old(db.reminders), old(db.households), now))
    ensures db.households == old(db.households) && db.reminders == old(db.reminders) && db.nextId == old(db.nextId)
  {
    var households, reminders := db.households, db.reminders;
    var due := DueProducts(TimingView(db.products, timing), now);
    var byHousehold := GroupByHousehold(due, RowHousehold, households);
    ghost var bs := ProductBuckets(db.products, households, timing, now);
    assert byHousehold == bs;
    var sentCount, productOutbox := DispatchProducts(db, byHousehold, now, send);
    var taskSent, taskOutbox := RemindTasks(reminders, households, now, send);
    response := Summary(sentCount + taskSent, |due|, |DueTasks(reminders, now)|);
    outbox := productOutbox + taskOutbox;
  }

  /** The general reminders part of the scan: nothing when no task is due,
      otherwise one message per household with a chat. */
  method RemindTasks(rs: seq<Reminder>, hhs: seq<Household>, now: Instant, send: Sender)
    returns (sent: nat, outbox: seq<Outgoing>)
    ensures sent == |TaskBuckets(rs, hhs, now)|
    ensures outbox == TaskOutbox(TaskBuckets(rs, hhs, now))
  {
    var dueTasks := DueTasks(rs, now);
    sent, outbox := 0, [];
    if |dueTasks| > 0 {
      var remindersByHH := GroupByHousehold(dueTasks, TaskHousehold, hhs);
      sent, outbox := NotifyTasks(remindersByHH, send);
    }
  }
}
