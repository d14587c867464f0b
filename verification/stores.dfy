/**
 * The stores page (app/stores/page.tsx): twenty sample stores and the list
 * filter by search term and category. The randomly drawn fields of a sample
 * store are parameters; those only displayed (rating, hours, customer
 * count) are not modelled.
 */
module Stores {
  import opened Strings
  import opened Seqs

  datatype Store = Store(id: nat, name: string, category: string, address: string, phone: string)

  /** The drawn fields of one sample store. */
  datatype Drawn = Drawn(category: string, address: string, phone: string)

  const SampleSize: nat := 20

  /** `Array.from({ length: 20 }, ...)`: ids 1 to 20, each named after its id. */
  function SampleStores(drawn: seq<Drawn>): seq<Store>
    requires |drawn| == SampleSize
  {
    seq(SampleSize, i requires 0 <= i < SampleSize =>
      Store(i + 1, "Store " + NatToString(i + 1), drawn[i].category, drawn[i].address, drawn[i].phone))
  }

  /** The sample ids run from 1 to 20 in order, and the id can be read back
      from the name. */
  lemma SampleIds(drawn: seq<Drawn>)
    requires |drawn| == SampleSize
    ensures var ss := SampleStores(drawn);
      && |ss| == SampleSize
      && (forall i | 0 <= i < |ss| :: ss[i].id == i + 1)
      && (forall i | 0 <= i < |ss| :: |ss[i].name| > 6 && ParseNat(ss[i].name[6..]) == ss[i].id)
  {
    var ss := SampleStores(drawn);
    forall i | 0 <= i < |ss| ensures |ss[i].name| > 6 && ParseNat(ss[i].name[6..]) == ss[i].id {
      assert ss[i].name[6..] == NatToString(i + 1);
      ParseNatToString(i + 1);
    }
  }

  /** The filter's test: the name contains the term, ignoring case, and the
      category is "All" or the store's own. */
  predicate Keeps(s: Store, searchTerm: string, selectedCategory: string) {
    ContainsIgnoringCase(s.name, searchTerm) && (selectedCategory == "All" || s.category == selectedCategory)
  }

  /** `filteredStores`. */
  function FilteredStores(stores: seq<Store>, searchTerm: string, selectedCategory: string): seq<Store> {
    Filter(stores, (s: Store) => Keeps(s, searchTerm, selectedCategory))
  }

  /** The result keeps the stores' order, and holds exactly the stores that
      pass the test. */
  lemma FilteredSpec(stores: seq<Store>, searchTerm: string, selectedCategory: string)
    ensures IsSubsequence(FilteredStores(stores, searchTerm, selectedCategory), stores)
    ensures forall s :: s in FilteredStores(stores, searchTerm, selectedCategory)
                        <==> s in stores && Keeps(s, searchTerm, selectedCategory)
    ensures forall s :: multiset(FilteredStores(stores, searchTerm, selectedCategory))[s]
                        == if Keeps(s, searchTerm, selectedCategory) then multiset(stores)[s] else 0
  {
    var keep := (s: Store) => Keeps(s, searchTerm, selectedCategory);
    FilterIsSubsequence(stores, keep);
    forall s ensures multiset(FilteredStores(stores, searchTerm, selectedCategory))[s]
                     == if Keeps(s, searchTerm, selectedCategory) then multiset(stores)[s] else 0 {
      FilterCount(stores, keep, s);
    }
    forall s ensures s in FilteredStores(stores, searchTerm, selectedCategory) <==> s in stores && Keeps(s, searchTerm, selectedCategory) {
      FilterMembership(stores, keep, s);
    }
  }

  /** The address and the phone are never searched: changing them does not
      change whether a store is kept. */
  lemma OnlyNameSearched(s: Store, address: string, phone: string, searchTerm: string, selectedCategory: string)
    ensures Keeps(s, searchTerm, selectedCategory) <==> Keeps(s.(address := address, phone := phone), searchTerm, selectedCategory)
  {
  }

  /** An empty search with category "All" shows every store. */
  lemma EmptySearchShowsAll(stores: seq<Store>)
    ensures FilteredStores(stores, "", "All") == stores
  {
    forall k | 0 <= k < |stores| ensures Keeps(stores[k], "", "All") {
      EmptyTermFound(stores[k].name);
    }
    FilterAll(stores, (s: Store) => Keeps(s, "", "All"));
  }

  /** Every sample store's name contains "store", so that search with
      category "All" shows all twenty. */
  lemma StoreSearchShowsSample(drawn: seq<Drawn>)
    requires |drawn| == SampleSize
    ensures FilteredStores(SampleStores(drawn), "store", "All") == SampleStores(drawn)
    ensures |FilteredStores(SampleStores(drawn), "store", "All")| == 20
  {
    var ss := SampleStores(drawn);
    assert ToLower("store") == "store";
    assert ToLower("Store ") == "store ";
    forall k | 0 <= k < |ss| ensures Keeps(ss[k], "store", "All") {
      var digits := NatToString(k + 1);
      ToLowerAppend("Store ", digits);
      ContainsPrefix(ToLower(ss[k].name), "store");
    }
    FilterAll(ss, (s: Store) => Keeps(s, "store", "All"));
  }
}
