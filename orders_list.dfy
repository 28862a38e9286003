/** The orders page: the search box keeps the orders whose customer name
    contains the term, ignoring letter case, or whose phone number contains it
    verbatim. The per-row receivable and profit are `Accounting.Receivable`
    and `Accounting.Profit`. */
module OrdersList {
  import opened Seqs
  import opened Records

  /** The search predicate for one term. */
  function MatchesSearch(term: string): Order -> bool {
    (o: Order) => Contains(Lower(o.customerName), Lower(term)) || Contains(o.customerPhone, term)
  }

  /** The orders the table lists for `searchTerm`, in their stored order. */
  function FilteredOrders(orders: seq<Order>, searchTerm: string): (r: seq<Order>)
    ensures forall o :: o in r <==>
      o in orders && (Contains(Lower(o.customerName), Lower(searchTerm)) || Contains(o.customerPhone, searchTerm))
    ensures IsSubseq(r, orders)
  {
    FilterMembers(orders, MatchesSearch(searchTerm));
    FilterIsSubseq(orders, MatchesSearch(searchTerm));
    Filter(orders, MatchesSearch(searchTerm))
  }

  /** An empty search box lists every order. */
  lemma EmptySearchListsAll(orders: seq<Order>)
    ensures FilteredOrders(orders, "") == orders
  {
    forall o | o in orders ensures MatchesSearch("")(o) {
      ContainsEmpty(o.customerPhone);
    }
    FilterAll(orders, MatchesSearch(""));
  }

  /** An order whose customer name contains the term verbatim is listed, and
      so is one whose name contains it in another letter case. */
  lemma NameMatchIsListed(orders: seq<Order>, o: Order, searchTerm: string)
    requires o in orders && Contains(o.customerName, searchTerm)
    ensures o in FilteredOrders(orders, searchTerm)
  {
    ContainsLower(o.customerName, searchTerm);
  }

  /** The search is blind to case in the name: typing the term in lower case
      lists every order whose name matched the original term. */
  lemma NameSearchIgnoresCase(orders: seq<Order>, o: Order, searchTerm: string)
    requires o in orders && Contains(Lower(o.customerName), Lower(searchTerm))
    ensures o in FilteredOrders(orders, Lower(searchTerm))
  {
    LowerIdempotent(searchTerm);
  }

  /** Narrowing the search never lists more orders: a longer term that extends
      the old one keeps only orders that were already listed. */
  lemma NarrowerSearchListsFewer(orders: seq<Order>, term: string, longer: string)
    requires Contains(longer, term)
    ensures forall o :: o in FilteredOrders(orders, longer) ==> o in FilteredOrders(orders, term)
  {
    ContainsLower(longer, term);
    forall o | o in FilteredOrders(orders, longer) ensures o in FilteredOrders(orders, term) {
      if Contains(Lower(o.customerName), Lower(longer)) {
        ContainsTransitive(Lower(o.customerName), Lower(longer), Lower(term));
      } else {
        ContainsTransitive(o.customerPhone, longer, term);
      }
    }
  }
}
