/** The vendor-transaction synchroniser of the store: the vendor ledger is a
    projection of the vendor-tagged expense lines embedded in the orders. This
    module holds the pure specification of each step; the store class applies
    them to its collections. */
module VendorSync {
  import opened Seqs
  import opened Records

  // ---------------------------------------------------------------------------
  // Selecting the transactions of one order

  function BelongsTo(orderId: string): VendorTransaction -> bool {
    (t: VendorTransaction) => t.orderId == orderId
  }

  function NotBelongsTo(orderId: string): VendorTransaction -> bool {
    (t: VendorTransaction) => t.orderId != orderId
  }

  /** The transactions recorded for one order, in ledger order. */
  function OfOrder(txs: seq<VendorTransaction>, orderId: string): seq<VendorTransaction> {
    Filter(txs, BelongsTo(orderId))
  }

  /** The ledger after `removeVendorTransactionsByOrder(orderId)`. */
  function RemoveByOrder(txs: seq<VendorTransaction>, orderId: string): (r: seq<VendorTransaction>)
    ensures forall t :: t in r <==> t in txs && t.orderId != orderId
    ensures IsSubseq(r, txs)
  {
    FilterMembers(txs, NotBelongsTo(orderId));
    FilterIsSubseq(txs, NotBelongsTo(orderId));
    Filter(txs, NotBelongsTo(orderId))
  }

  // ---------------------------------------------------------------------------
  // Generating the transactions of one order

  predicate HasVendor(e: Expense) {
    e.vendorId != ""
  }

  /** The expense lines that carry a vendor, in the order's expense order. */
  function Tagged(exps: seq<Expense>): seq<Expense> {
    Filter(exps, HasVendor)
  }

  /** `vendors.find(v => v.id === id)?.name || ''`. */
  function VendorNameById(vendors: seq<Vendor>, id: string): string {
    if vendors == [] then ""
    else if vendors[0].id == id then vendors[0].name
    else VendorNameById(vendors[1..], id)
  }

  /** `expense.id || index`, the middle part of a generated transaction id. */
  function ExpenseKey(e: Expense, index: nat): string {
    if e.id != "" then e.id else NatToString(index)
  }

  /** The transaction generated for the expense at position `index` of `order`. */
  function TransactionFor(order: Order, e: Expense, index: nat, vendors: seq<Vendor>, now: nat): VendorTransaction {
    VendorTransaction(
      id := order.id + "-" + ExpenseKey(e, index) + "-" + NatToString(now),
      orderId := order.id,
      vendorId := e.vendorId,
      vendorName := if e.vendorName != "" then e.vendorName else VendorNameById(vendors, e.vendorId),
      expenseId := e.id,
      expenseDescription := e.description,
      amount := e.amount,
      status := StatusOrPaid(e.vendorPaymentStatus),
      createdAt := if e.createdAt != 0 then e.createdAt else now,
      updatedAt := now)
  }

  /** The transactions pushed for the first `k` expense lines. */
  function ProjectPrefix(order: Order, vendors: seq<Vendor>, now: nat, k: nat): seq<VendorTransaction>
    requires k <= |order.expenses|
  {
    if k == 0 then []
    else
      var e := order.expenses[k - 1];
      ProjectPrefix(order, vendors, now, k - 1)
        + (if HasVendor(e) then [TransactionFor(order, e, k - 1, vendors, now)] else [])
  }

  /** All transactions generated for `order`: one per vendor-tagged line. */
  function Project(order: Order, vendors: seq<Vendor>, now: nat): seq<VendorTransaction> {
    ProjectPrefix(order, vendors, now, |order.expenses|)
  }

  /** The ledger after `addVendorTransactionsForOrder(order)`; `None` is a missing order. */
  function AddForOrder(txs: seq<VendorTransaction>, order: Option<Order>, vendors: seq<Vendor>, now: nat): seq<VendorTransaction> {
    match order
    case None => txs
    case Some(o) => txs + Project(o, vendors, now)
  }

  /** The ledger after `syncVendorTransactionsForOrder(order)`. Without an
      order id nothing changes; otherwise the order's transactions become
      exactly its projection and every other transaction stays, in order. */
  function Sync(txs: seq<VendorTransaction>, order: Option<Order>, vendors: seq<Vendor>, now: nat): (r: seq<VendorTransaction>)
    ensures order.None? || order.value.id == "" ==> r == txs
    ensures order.Some? && order.value.id != "" ==>
      OfOrder(r, order.value.id) == Project(order.value, vendors, now) &&
      RemoveByOrder(r, order.value.id) == RemoveByOrder(txs, order.value.id)
  {
    if order.None? || order.value.id == "" then txs
    else
      SyncReplacesOrder(txs, order.value, vendors, now);
      AddForOrder(RemoveByOrder(txs, order.value.id), order, vendors, now)
  }

  /** The order's new transactions go at the end of the ledger, after every
      transaction of the other orders. */
  lemma SyncAppendsProjection(txs: seq<VendorTransaction>, o: Order, vendors: seq<Vendor>, now: nat)
    requires o.id != ""
    ensures Sync(txs, Some(o), vendors, now) == RemoveByOrder(txs, o.id) + Project(o, vendors, now)
  {
  }

  lemma SyncReplacesOrder(txs: seq<VendorTransaction>, o: Order, vendors: seq<Vendor>, now: nat)
    ensures var r := RemoveByOrder(txs, o.id) + Project(o, vendors, now);
      OfOrder(r, o.id) == Project(o, vendors, now) &&
      RemoveByOrder(r, o.id) == RemoveByOrder(txs, o.id)
  {
    var rest := RemoveByOrder(txs, o.id);
    var p := Project(o, vendors, now);
    ProjectMirrors(o, vendors, now);
    assert OfOrder(rest + p, o.id) == p by {
      FilterConcat(rest, p, BelongsTo(o.id));
      FilterNone(rest, BelongsTo(o.id));
      FilterAll(p, BelongsTo(o.id));
    }
    assert RemoveByOrder(rest + p, o.id) == rest by {
      FilterConcat(rest, p, NotBelongsTo(o.id));
      FilterNone(p, NotBelongsTo(o.id));
      FilterIdempotent(txs, NotBelongsTo(o.id));
    }
  }

  /** Syncing one order leaves the transactions of every other order as they were. */
  lemma SyncKeepsOtherOrders(txs: seq<VendorTransaction>, order: Option<Order>, vendors: seq<Vendor>, now: nat, other: string)
    requires order.Some? ==> other != order.value.id
    ensures OfOrder(Sync(txs, order, vendors, now), other) == OfOrder(txs, other)
  {
    if order.Some? && order.value.id != "" {
      var o := order.value;
      var rest := RemoveByOrder(txs, o.id);
      var p := Project(o, vendors, now);
      ProjectMirrors(o, vendors, now);
      FilterConcat(rest, p, BelongsTo(other));
      FilterNone(p, BelongsTo(other));
      FilterOfFilter(txs, NotBelongsTo(o.id), BelongsTo(other));
    }
  }

  // ---------------------------------------------------------------------------
  // Content of the ledger, ignoring generated ids, names and timestamps

  /** What a transaction says about its expense line. */
  datatype Entry = Entry(orderId: string, vendorId: string, expenseId: string,
                         description: string, amount: int, status: string)

  function EntryOf(t: VendorTransaction): Entry {
    Entry(t.orderId, t.vendorId, t.expenseId, t.expenseDescription, t.amount, t.status)
  }

  function Entries(txs: seq<VendorTransaction>): seq<Entry> {
    Map(txs, EntryOf)
  }

  /** The entry that mirrors expense line `e` of the order with id `orderId`. */
  function ExpectedEntry(orderId: string): Expense -> Entry {
    (e: Expense) => Entry(orderId, e.vendorId, e.id, e.description, e.amount, StatusOrPaid(e.vendorPaymentStatus))
  }

  /** The entries the ledger must hold for `o`: one per vendor-tagged line, in line order. */
  function ExpectedEntries(o: Order): seq<Entry> {
    Map(Tagged(o.expenses), ExpectedEntry(o.id))
  }

  /** The projection of an order mirrors its vendor-tagged lines one to one and
      in order: same vendor, expense id, description and amount, and the
      line's status with 'paid' for an absent one. */
  lemma ProjectMirrors(o: Order, vendors: seq<Vendor>, now: nat)
    ensures Entries(Project(o, vendors, now)) == ExpectedEntries(o)
    ensures forall t :: t in Project(o, vendors, now) ==> t.orderId == o.id
  {
    ProjectPrefixMirrors(o, vendors, now, |o.expenses|);
    assert o.expenses[..|o.expenses|] == o.expenses;
  }

  lemma {:induction false} ProjectPrefixMirrors(o: Order, vendors: seq<Vendor>, now: nat, k: nat)
    requires k <= |o.expenses|
    ensures Entries(ProjectPrefix(o, vendors, now, k)) == Map(Tagged(o.expenses[..k]), ExpectedEntry(o.id))
    ensures forall t :: t in ProjectPrefix(o, vendors, now, k) ==> t.orderId == o.id
  {
    if k > 0 {
      ProjectPrefixMirrors(o, vendors, now, k - 1);
      var e := o.expenses[k - 1];
      var front := ProjectPrefix(o, vendors, now, k - 1);
      var last := if HasVendor(e) then [TransactionFor(o, e, k - 1, vendors, now)] else [];
      assert o.expenses[..k] == o.expenses[..k - 1] + [e];
      FilterConcat(o.expenses[..k - 1], [e], HasVendor);
      assert Filter([e], HasVendor) == if HasVendor(e) then [e] else [];
      MapConcat(front, last, EntryOf);
      MapConcat(Tagged(o.expenses[..k - 1]), Filter([e], HasVendor), ExpectedEntry(o.id));
      assert ProjectPrefix(o, vendors, now, k) == front + last;
      assert Entries(last) == Map(Filter([e], HasVendor), ExpectedEntry(o.id)) by {
        if HasVendor(e) {
          assert EntryOf(TransactionFor(o, e, k - 1, vendors, now)) == ExpectedEntry(o.id)(e);
        }
      }
      assert Tagged(o.expenses[..k]) == Tagged(o.expenses[..k - 1]) + Filter([e], HasVendor);
    }
  }

  /** Re-syncing an unchanged order reproduces the ledger's content: only the
      generated ids, vendor names and timestamps may differ. */
  lemma SyncIdempotentContent(txs: seq<VendorTransaction>, o: Order, v1: seq<Vendor>, t1: nat, v2: seq<Vendor>, t2: nat)
    ensures Entries(Sync(Sync(txs, Some(o), v1, t1), Some(o), v2, t2)) == Entries(Sync(txs, Some(o), v1, t1))
  {
    if o.id != "" {
      var once := Sync(txs, Some(o), v1, t1);
      assert RemoveByOrder(once, o.id) == RemoveByOrder(txs, o.id);
      ProjectMirrors(o, v1, t1);
      ProjectMirrors(o, v2, t2);
      MapConcat(RemoveByOrder(txs, o.id), Project(o, v1, t1), EntryOf);
      MapConcat(RemoveByOrder(txs, o.id), Project(o, v2, t2), EntryOf);
    }
  }

  /** The generated transactions carry, in total, the amount of the order's vendor-tagged lines. */
  lemma ProjectAmounts(o: Order, vendors: seq<Vendor>, now: nat)
    ensures Sum(Project(o, vendors, now), TransactionAmount) == Sum(Tagged(o.expenses), ExpenseAmount)
  {
    EntriesAmounts(Project(o, vendors, now));
    ProjectMirrors(o, vendors, now);
    SumMap(Tagged(o.expenses), ExpectedEntry(o.id), EntryAmount, ExpenseAmount);
  }

  function EntryAmount(e: Entry): int { e.amount }

  lemma EntriesAmounts(txs: seq<VendorTransaction>)
    ensures Sum(Entries(txs), EntryAmount) == Sum(txs, TransactionAmount)
  {
    SumMap(txs, EntryOf, EntryAmount, TransactionAmount);
  }

  // ---------------------------------------------------------------------------
  // updateVendorTransactionStatus: status on the ledger, then back onto the order

  function WithStatusIf(transactionId: string, status: string, now: nat): VendorTransaction -> VendorTransaction {
    (t: VendorTransaction) => if t.id == transactionId then t.(status := status, updatedAt := now) else t
  }

  /** The ledger after the first write: every transaction with the id gets the
      new status and timestamp; nothing else changes. */
  function SetStatus(txs: seq<VendorTransaction>, transactionId: string, status: string, now: nat): (r: seq<VendorTransaction>)
    ensures |r| == |txs|
    ensures forall i :: 0 <= i < |r| ==>
      (txs[i].id == transactionId ==> r[i].status == status && r[i].(status := txs[i].status, updatedAt := txs[i].updatedAt) == txs[i]) &&
      (txs[i].id != transactionId ==> r[i] == txs[i])
  {
    Map(txs, WithStatusIf(transactionId, status, now))
  }

  /** `txs.find(t => t.id === id)`: the first transaction with that id. */
  function FindTransaction(txs: seq<VendorTransaction>, id: string): (r: Option<VendorTransaction>)
    ensures r.None? <==> forall t :: t in txs ==> t.id != id
    ensures r.Some? ==> r.value in txs && r.value.id == id
    ensures r.Some? ==> exists i :: 0 <= i < |txs| && txs[i] == r.value && forall j :: 0 <= j < i ==> txs[j].id != id
  {
    if txs == [] then None
    else if txs[0].id == id then Some(txs[0])
    else FindTransaction(txs[1..], id)
  }

  /** Nothing in the ledger changes when no transaction has the id. */
  lemma SetStatusUnknownId(txs: seq<VendorTransaction>, transactionId: string, status: string, now: nat)
    requires forall t :: t in txs ==> t.id != transactionId
    ensures SetStatus(txs, transactionId, status, now) == txs
    ensures FindTransaction(SetStatus(txs, transactionId, status, now), transactionId) == None
  {
    var r := SetStatus(txs, transactionId, status, now);
    assert forall i :: 0 <= i < |txs| ==> r[i] == txs[i];
  }

  /** The expense line a transaction refers to: by expense id when it has one,
      else (legacy lines) by vendor, description and amount. */
  predicate ExpenseMatches(e: Expense, tx: VendorTransaction) {
    (tx.expenseId != "" && e.id == tx.expenseId) ||
    (tx.expenseId == "" && e.vendorId == tx.vendorId && e.description == tx.expenseDescription && e.amount == tx.amount)
  }

  function PatchExpense(tx: VendorTransaction, status: string): Expense -> Expense {
    (e: Expense) => if ExpenseMatches(e, tx) then e.(vendorPaymentStatus := status) else e
  }

  function PatchOrder(tx: VendorTransaction, status: string, now: nat): Order -> Order {
    (o: Order) =>
      if o.id != tx.orderId then o
      else o.(expenses := Map(o.expenses, PatchExpense(tx, status)), updatedAt := now)
  }

  /** The orders after the second write. Only orders with the transaction's
      order id change, and in them only the payment status of the matching
      lines (and the timestamp); every line keeps its place. */
  function BackSync(orders: seq<Order>, tx: VendorTransaction, status: string, now: nat): (r: seq<Order>)
    ensures |r| == |orders|
    ensures forall i :: 0 <= i < |r| && orders[i].id != tx.orderId ==> r[i] == orders[i]
    ensures forall i :: 0 <= i < |r| && orders[i].id == tx.orderId ==>
      r[i].(expenses := orders[i].expenses, updatedAt := orders[i].updatedAt) == orders[i] &&
      |r[i].expenses| == |orders[i].expenses| &&
      forall j :: 0 <= j < |r[i].expenses| ==>
        r[i].expenses[j] == (if ExpenseMatches(orders[i].expenses[j], tx)
                             then orders[i].expenses[j].(vendorPaymentStatus := status)
                             else orders[i].expenses[j])
  {
    Map(orders, PatchOrder(tx, status, now))
  }

  /** Marking a transaction that records its expense id sets exactly that line's status. */
  lemma BackSyncMarksLinkedLine(orders: seq<Order>, tx: VendorTransaction, status: string, now: nat, i: nat, j: nat)
    requires i < |orders| && orders[i].id == tx.orderId
    requires j < |orders[i].expenses| && tx.expenseId != ""
    ensures var e := BackSync(orders, tx, status, now)[i].expenses[j];
      e.vendorPaymentStatus == (if orders[i].expenses[j].id == tx.expenseId then status else orders[i].expenses[j].vendorPaymentStatus)
  {
  }

  /** The legacy fallback cannot tell apart two lines with the same vendor,
      description and amount: it marks every one of them. */
  lemma LegacyMatchMarksEveryTwin(o: Order, tx: VendorTransaction, status: string, now: nat, j: nat, k: nat)
    requires o.id == tx.orderId && tx.expenseId == ""
    requires j < |o.expenses| && k < |o.expenses| && j != k
    requires o.expenses[j].vendorId == tx.vendorId && o.expenses[j].description == tx.expenseDescription
    requires o.expenses[j].amount == tx.amount
    requires o.expenses[k].vendorId == o.expenses[j].vendorId && o.expenses[k].description == o.expenses[j].description
    requires o.expenses[k].amount == o.expenses[j].amount
    ensures var r := BackSync([o], tx, status, now)[0];
      r.expenses[j].vendorPaymentStatus == status && r.expenses[k].vendorPaymentStatus == status
  {
  }
}
