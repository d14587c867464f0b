/**
 * The customers page (app/stores/customers/page.tsx): fifty sample customers
 * and the list filter by search term and status. The randomly drawn fields
 * of a sample customer are parameters; those only displayed (join date,
 * purchases, total spent) are not modelled.
 */
module Customers {
  import opened Strings
  import opened Seqs

  datatype Customer = Customer(id: nat, name: string, email: string, phone: string, status: string)

  /** The drawn fields of one sample customer. */
  datatype Drawn = Drawn(phone: string, status: string)

  const SampleSize: nat := 50

  /** `Array.from({ length: 50 }, ...)`: ids 1 to 50, each with its name and
      email built from the id. */
  function SampleCustomers(drawn: seq<Drawn>): seq<Customer>
    requires |drawn| == SampleSize
  {
    seq(SampleSize, i requires 0 <= i < SampleSize =>
      Customer(i + 1, "Customer " + NatToString(i + 1), "customer" + NatToString(i + 1) + "@example.com",
               drawn[i].phone, drawn[i].status))
  }

  /** The sample ids run from 1 to 50 in order, the id can be read back
      from the name, and the email is built from the id. */
  lemma SampleIds(drawn: seq<Drawn>)
    requires |drawn| == SampleSize
    ensures var cs := SampleCustomers(drawn);
      && |cs| == SampleSize
      && (forall i | 0 <= i < |cs| :: cs[i].id == i + 1)
      && (forall i | 0 <= i < |cs| :: |cs[i].name| > 9 && ParseNat(cs[i].name[9..]) == cs[i].id)
      && (forall i | 0 <= i < |cs| :: cs[i].email == "customer" + NatToString(cs[i].id) + "@example.com")
  {
    var cs := SampleCustomers(drawn);
    forall i | 0 <= i < |cs| ensures |cs[i].name| > 9 && ParseNat(cs[i].name[9..]) == cs[i].id {
      assert cs[i].name[9..] == NatToString(i + 1);
      ParseNatToString(i + 1);
    }
  }

  /** The filter's test: the name or the email contains the term, ignoring
      case, and the status is "All" or the customer's own. */
  predicate Keeps(c: Customer, searchTerm: string, selectedStatus: string) {
    (ContainsIgnoringCase(c.name, searchTerm) || ContainsIgnoringCase(c.email, searchTerm))
    && (selectedStatus == "All" || c.status == selectedStatus)
  }

  /** `filteredCustomers`. */
  function FilteredCustomers(customers: seq<Customer>, searchTerm: string, selectedStatus: string): seq<Customer> {
    Filter(customers, (c: Customer) => Keeps(c, searchTerm, selectedStatus))
  }

  /** The result keeps the customers' order, and holds exactly the customers
      that pass the test, each as many times as in the list. */
  lemma FilteredSpec(customers: seq<Customer>, searchTerm: string, selectedStatus: string)
    ensures IsSubsequence(FilteredCustomers(customers, searchTerm, selectedStatus), customers)
    ensures forall c :: c in FilteredCustomers(customers, searchTerm, selectedStatus)
                        <==> c in customers && Keeps(c, searchTerm, selectedStatus)
    ensures forall c :: multiset(FilteredCustomers(customers, searchTerm, selectedStatus))[c]
                        == if Keeps(c, searchTerm, selectedStatus) then multiset(customers)[c] else 0
  {
    var keep := (c: Customer) => Keeps(c, searchTerm, selectedStatus);
    FilterIsSubsequence(customers, keep);
    forall c ensures multiset(FilteredCustomers(customers, searchTerm, selectedStatus))[c]
                     == if Keeps(c, searchTerm, selectedStatus) then multiset(customers)[c] else 0 {
      FilterCount(customers, keep, c);
    }
    forall c ensures c in FilteredCustomers(customers, searchTerm, selectedStatus) <==> c in customers && Keeps(c, searchTerm, selectedStatus) {
      FilterMembership(customers, keep, c);
    }
  }

  /** An empty search with status "All" shows every customer. */
  lemma EmptySearchShowsAll(customers: seq<Customer>)
    ensures FilteredCustomers(customers, "", "All") == customers
  {
    forall k | 0 <= k < |customers| ensures Keeps(customers[k], "", "All") {
      EmptyTermFound(customers[k].name);
    }
    FilterAll(customers, (c: Customer) => Keeps(c, "", "All"));
  }

  /** Every sample customer's name contains "customer", so that search with
      status "All" shows the whole sample. */
  lemma CustomerSearchShowsSample(drawn: seq<Drawn>)
    requires |drawn| == SampleSize
    ensures FilteredCustomers(SampleCustomers(drawn), "customer", "All") == SampleCustomers(drawn)
  {
    var cs := SampleCustomers(drawn);
    assert ToLower("customer") == "customer";
    assert ToLower("Customer ") == "customer ";
    forall k | 0 <= k < |cs| ensures Keeps(cs[k], "customer", "All") {
      var digits := NatToString(k + 1);
      ToLowerAppend("Customer ", digits);
      ContainsPrefix(ToLower(cs[k].name), "customer");
    }
    FilterAll(cs, (c: Customer) => Keeps(c, "customer", "All"));
  }
}
