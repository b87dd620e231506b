/** The home page (src/app/page.tsx): the household's products, split into
    the stocked ones and the ones on the shopping list. */
module HomePage {
  import opened Wrappers
  import opened Types
  import opened Seqs
  import opened Store

  /** `loadData`: the household's rows of the timing view, ascending by days
      remaining. */
  function LoadProducts(ps: seq<Product>, timing: Product -> Timing, h: Id): (products: seq<ProductWithTiming>)
    ensures SortedBy(products, DaysRemaining)
    ensures multiset(products) == multiset(Filter(TimingView(ps, timing), InHousehold(h)))
  {
    HouseholdStock(TimingView(ps, timing), h)
  }

  function IsStockedRow(p: ProductWithTiming): bool {
    p.row.status == Stocked
  }

  function IsListedRow(p: ProductWithTiming): bool {
    OnShoppingList(p.row.status)
  }

  function IsBoughtRow(p: ProductWithTiming): bool {
    p.row.status == Bought
  }

  /** `stocked`: exactly the `stocked` products, in the loaded order. */
  function StockedList(products: seq<ProductWithTiming>): (r: seq<ProductWithTiming>)
    ensures forall x :: x in r <==> x in products && x.row.status == Stocked
    ensures SortedBy(products, DaysRemaining) ==> SortedBy(r, DaysRemaining)
    ensures Subseq(r, products)
  {
    FilterIsSubsequence(products, IsStockedRow);
    assert SortedBy(products, DaysRemaining) ==> SortedBy(Filter(products, IsStockedRow), DaysRemaining) by {
      if SortedBy(products, DaysRemaining) {
        FilterSorted(products, IsStockedRow, DaysRemaining);
      }
    }
    Filter(products, IsStockedRow)
  }

  /** `onList`: exactly the `on_list` and `reminded` products, in the loaded
      order. */
  function OnListList(products: seq<ProductWithTiming>): (r: seq<ProductWithTiming>)
    ensures forall x :: x in r <==> x in products && OnShoppingList(x.row.status)
    ensures SortedBy(products, DaysRemaining) ==> SortedBy(r, DaysRemaining)
    ensures Subseq(r, products)
  {
    FilterIsSubsequence(products, IsListedRow);
    assert SortedBy(products, DaysRemaining) ==> SortedBy(Filter(products, IsListedRow), DaysRemaining) by {
      if SortedBy(products, DaysRemaining) {
        FilterSorted(products, IsListedRow, DaysRemaining);
      }
    }
    Filter(products, IsListedRow)
  }

  /** The two lists are disjoint and, with the `bought` products that
      neither shows, account for every loaded product exactly once. */
  lemma ListsPartition(products: seq<ProductWithTiming>)
    ensures forall x :: !(x in StockedList(products) && x in OnListList(products))
    ensures forall x: ProductWithTiming :: x.row.status == Bought ==> x !in StockedList(products) && x !in OnListList(products)
    ensures multiset(StockedList(products)) + multiset(OnListList(products)) + multiset(Filter(products, IsBoughtRow))
            == multiset(products)
  {
    FilterSplit3(products, IsStockedRow, IsListedRow, IsBoughtRow);
  }
}
