/** The vendor-ledger page: the vendor's transactions, the assigned, paid and
    pending totals, the paid/pending toggle and the pages of ten. */
module VendorDetails {
  import opened Seqs
  import opened Records
  import opened VendorSync
  import opened Store
  import opened Pagination

  const PAGE_SIZE: nat := 10

  /** The transactions the page lists: none for an unknown vendor, else what
      `getVendorTransactions(vendor.id)` returns. */
  function ShownTransactions(vendor: Option<Vendor>, txs: seq<VendorTransaction>): (r: seq<VendorTransaction>)
    ensures vendor.None? ==> r == []
    ensures vendor.Some? && vendor.value.id != "" ==>
      forall t :: t in r <==> t in txs && t.vendorId == vendor.value.id
    ensures IsSubseq(r, txs)
  {
    if vendor.None? then
      EmptyIsSubseq(txs);
      []
    else TransactionsOfVendor(txs, vendor.value.id)
  }

  predicate IsPaidTx(t: VendorTransaction) { t.status == PAID }
  predicate NotPaidTx(t: VendorTransaction) { t.status != PAID }

  datatype VendorTotals = VendorTotals(totalAssigned: int, totalPaid: int, totalPending: int)

  /** The three summary cards. Pending is whatever is not marked 'paid',
      a transaction with any other status included. */
  function Totals(txs: seq<VendorTransaction>): (r: VendorTotals)
    ensures r.totalAssigned == Sum(txs, TransactionAmount)
    ensures r.totalPaid == Sum(Filter(txs, IsPaidTx), TransactionAmount)
    ensures r.totalPending == Sum(Filter(txs, NotPaidTx), TransactionAmount)
    ensures (forall i :: 0 <= i < |txs| ==> txs[i].amount >= 0) ==>
      0 <= r.totalPaid <= r.totalAssigned && 0 <= r.totalPending
  {
    SumFilterSplit(txs, IsPaidTx, NotPaidTx, TransactionAmount);
    PaidBound(txs);
    var all := Sum(txs, TransactionAmount);
    var paid := Sum(Filter(txs, IsPaidTx), TransactionAmount);
    VendorTotals(all, paid, all - paid)
  }

  lemma PaidBound(txs: seq<VendorTransaction>)
    ensures (forall i :: 0 <= i < |txs| ==> txs[i].amount >= 0) ==>
      0 <= Sum(Filter(txs, IsPaidTx), TransactionAmount) <= Sum(txs, TransactionAmount)
      && 0 <= Sum(Filter(txs, NotPaidTx), TransactionAmount)
  {
    if forall i :: 0 <= i < |txs| ==> txs[i].amount >= 0 {
      SumFilterBound(txs, IsPaidTx, TransactionAmount);
      SumFilterBound(txs, NotPaidTx, TransactionAmount);
    }
  }

  /** The status a click on the row's button asks for. */
  function ToggledStatus(status: string): (r: string)
    ensures r == PAID || r == PENDING
    ensures r == PENDING <==> status == PAID
  {
    if status == PAID then PENDING else PAID
  }

  /** Two clicks restore a 'paid' or 'pending' transaction; any other status
      becomes 'paid' after one click and stays in the cycle from then on. */
  lemma ToggleTwiceRestores(status: string)
    ensures status == PAID || status == PENDING ==> ToggledStatus(ToggledStatus(status)) == status
    ensures status != PAID && status != PENDING ==> ToggledStatus(status) == PAID
  {
  }

  /** `toggleTransactionStatus`: the two-phase store write for the new status. */
  method ToggleTransactionStatus(store: Ledger, t: VendorTransaction, now: nat)
    modifies store`transactions, store`orders
    ensures store.transactions == SetStatus(old(store.transactions), t.id, ToggledStatus(t.status), now)
    ensures store.orders == match FindTransaction(store.transactions, t.id)
                            case None => old(store.orders)
                            case Some(tx) => BackSync(old(store.orders), tx, ToggledStatus(t.status), now)
  {
    store.UpdateVendorTransactionStatus(t.id, ToggledStatus(t.status), now);
  }

  function PaidAmount(t: VendorTransaction): int { if t.status == PAID then t.amount else 0 }

  /** The vendor's list after a status write is the old list with the write applied. */
  lemma ShownAfterSetStatus(txs: seq<VendorTransaction>, vendorId: string, id: string, status: string, now: nat)
    ensures TransactionsOfVendor(SetStatus(txs, id, status, now), vendorId) ==
            Map(TransactionsOfVendor(txs, vendorId), WithStatusIf(id, status, now))
  {
    if vendorId != "" {
      FilterMapCommute(txs, WithStatusIf(id, status, now), ForVendor(vendorId), ForVendor(vendorId));
    }
  }

  /** With distinct transaction ids, one toggle moves exactly that transaction's
      amount between paid and pending, and the assigned total stays. */
  lemma ToggleMovesAmount(txs: seq<VendorTransaction>, vendorId: string, t: VendorTransaction, now: nat)
    requires UniqueBy(txs, TransactionIdOf)
    requires t in TransactionsOfVendor(txs, vendorId)
    ensures var before := Totals(TransactionsOfVendor(txs, vendorId));
      var after := Totals(TransactionsOfVendor(SetStatus(txs, t.id, ToggledStatus(t.status), now), vendorId));
      && after.totalAssigned == before.totalAssigned
      && after.totalPaid == before.totalPaid + (if t.status == PAID then -t.amount else t.amount)
      && after.totalPending == before.totalPending - (if t.status == PAID then -t.amount else t.amount)
  {
    var S := TransactionsOfVendor(txs, vendorId);
    ShownAfterSetStatus(txs, vendorId, t.id, ToggledStatus(t.status), now);
    assert UniqueBy(S, TransactionIdOf) by {
      if vendorId != "" {
        FilterUniqueBy(txs, ForVendor(vendorId), TransactionIdOf);
      }
    }
    PaidAfterWrite(S, t, ToggledStatus(t.status), now);
    SumMap(S, WithStatusIf(t.id, ToggledStatus(t.status), now), TransactionAmount, TransactionAmount);
  }

  /** A status write to one transaction of a list with distinct ids changes the
      paid total by that transaction's paid amount after minus before. */
  lemma PaidAfterWrite(S: seq<VendorTransaction>, t: VendorTransaction, status: string, now: nat)
    requires UniqueBy(S, TransactionIdOf) && t in S
    ensures Sum(Filter(Map(S, WithStatusIf(t.id, status, now)), IsPaidTx), TransactionAmount)
         == Sum(Filter(S, IsPaidTx), TransactionAmount) + PaidAmount(t.(status := status)) - PaidAmount(t)
  {
    var F := WithStatusIf(t.id, status, now);
    SumFilterIndicator(Map(S, F), IsPaidTx, TransactionAmount, PaidAmount);
    SumFilterIndicator(S, IsPaidTx, TransactionAmount, PaidAmount);
    SumMap(S, F, PaidAmount, PaidAfter(t.id, status, now));
    PaidChangeSplit(S, t.id, status, now);
    SumFilterIndicator(S, KeyIs(TransactionIdOf, t.id), PaidChange(status), PaidChangeIf(t.id, status));
    FilterUniqueSingleton(S, TransactionIdOf, t);
    assert Sum([t], PaidChange(status)) == PaidChange(status)(t);
  }

  function PaidAfter(id: string, status: string, now: nat): VendorTransaction -> int {
    (x: VendorTransaction) => PaidAmount(WithStatusIf(id, status, now)(x))
  }

  function PaidChange(status: string): VendorTransaction -> int {
    (x: VendorTransaction) => PaidAmount(x.(status := status)) - PaidAmount(x)
  }

  function PaidChangeIf(id: string, status: string): VendorTransaction -> int {
    (x: VendorTransaction) => if KeyIs(TransactionIdOf, id)(x) then PaidChange(status)(x) else 0
  }

  lemma PaidChangeSplit(S: seq<VendorTransaction>, id: string, status: string, now: nat)
    ensures Sum(S, PaidAfter(id, status, now)) == Sum(S, PaidAmount) + Sum(S, PaidChangeIf(id, status))
  {
    forall x ensures PaidAfter(id, status, now)(x) == PaidAmount(x) + PaidChangeIf(id, status)(x) {
      assert KeyIs(TransactionIdOf, id)(x) == (TransactionIdOf(x) == id);
      assert TransactionIdOf(x) == x.id;
      if x.id == id {
        assert WithStatusIf(id, status, now)(x) == x.(status := status, updatedAt := now);
      } else {
        assert WithStatusIf(id, status, now)(x) == x;
      }
    }
    SumAdd(S, PaidAmount, PaidChangeIf(id, status), PaidAfter(id, status, now));
  }

  /** The rows shown: the clamped page of the vendor's transactions. */
  function VisibleTransactions(vendor: Option<Vendor>, txs: seq<VendorTransaction>, currentPage: int): (r: seq<VendorTransaction>)
    ensures |r| <= PAGE_SIZE
    ensures forall t :: t in r ==> t in ShownTransactions(vendor, txs)
  {
    Page(ShownTransactions(vendor, txs), currentPage, PAGE_SIZE)
  }

  /** A page left past the end by a shorter list falls back to the last page. */
  lemma StalePageShowsLastPage(vendor: Option<Vendor>, txs: seq<VendorTransaction>, currentPage: int)
    requires var n := TotalPages(|ShownTransactions(vendor, txs)|, PAGE_SIZE); currentPage >= n
    ensures var n := TotalPages(|ShownTransactions(vendor, txs)|, PAGE_SIZE);
      VisibleTransactions(vendor, txs, currentPage) == VisibleTransactions(vendor, txs, n)
  {
  }
}
