/** The persisted store: five whole-array collections (orders, general
    expenses, vendors, vendor transactions, owner funds), each replaced as a
    whole on every write, and the vendor-transaction synchroniser wired into
    the order operations. The clock readings and generated ids the JavaScript
    code takes from `Date.now()` are parameters. */
module Store {
  import opened Seqs
  import opened Records
  import opened VendorSync

  const VERSION := "1.1.0"
  const INVALID_ORDERS := "Invalid database file format: Missing or invalid orders data."

  // ---------------------------------------------------------------------------
  // Orders

  /** The fields an order update may carry; `updatedAt` is always overwritten. */
  datatype OrderPatch = OrderPatch(
    id: Option<string>,
    customerName: Option<string>,
    customerPhone: Option<string>,
    orderDescription: Option<string>,
    orderDate: Option<int>,
    orderTotal: Option<int>,
    receivedDeliveryCharges: Option<int>,
    paidDeliveryCharges: Option<int>,
    isCompleted: Option<bool>,
    expenses: Option<seq<Expense>>,
    payments: Option<seq<Payment>>,
    receivable: Option<int>,
    profit: Option<int>,
    createdAt: Option<nat>)

  /** `{ ...order, ...updates, updatedAt: now }`. */
  function ApplyOrderPatch(o: Order, p: OrderPatch, now: nat): Order {
    Order(
      id := Or(p.id, o.id),
      customerName := Or(p.customerName, o.customerName),
      customerPhone := Or(p.customerPhone, o.customerPhone),
      orderDescription := Or(p.orderDescription, o.orderDescription),
      orderDate := Or(p.orderDate, o.orderDate),
      orderTotal := Or(p.orderTotal, o.orderTotal),
      receivedDeliveryCharges := Or(p.receivedDeliveryCharges, o.receivedDeliveryCharges),
      paidDeliveryCharges := Or(p.paidDeliveryCharges, o.paidDeliveryCharges),
      isCompleted := Or(p.isCompleted, o.isCompleted),
      expenses := Or(p.expenses, o.expenses),
      payments := Or(p.payments, o.payments),
      receivable := Or(p.receivable, o.receivable),
      profit := Or(p.profit, o.profit),
      createdAt := Or(p.createdAt, o.createdAt),
      updatedAt := now)
  }

  /** The order `addOrder` stores: a fresh id, a creation time, not completed. */
  function NewOrder(order: Order, newId: string, now: nat): Order {
    order.(id := newId, createdAt := now, isCompleted := false)
  }

  function UpdatedOrder(id: string, p: OrderPatch, now: nat): Order -> Order {
    (o: Order) => if o.id == id then ApplyOrderPatch(o, p, now) else o
  }

  /** The orders after `updateOrder(id, updates)`: every order with the id is merged with the update. */
  function UpdateOrders(orders: seq<Order>, id: string, p: OrderPatch, now: nat): seq<Order> {
    Map(orders, UpdatedOrder(id, p, now))
  }

  /** `orders.find(order => order.id === id)`. */
  function FindOrder(orders: seq<Order>, id: string): (r: Option<Order>)
    ensures r.None? <==> forall o :: o in orders ==> o.id != id
    ensures r.Some? ==> r.value.id == id && r.value in orders
    ensures r.Some? ==> exists i :: 0 <= i < |orders| && orders[i] == r.value && forall j :: 0 <= j < i ==> orders[j].id != id
  {
    if orders == [] then None
    else if orders[0].id == id then Some(orders[0])
    else FindOrder(orders[1..], id)
  }

  function ToggledOrder(id: string, now: nat): Order -> Order {
    (o: Order) => if o.id == id then o.(isCompleted := !o.isCompleted, updatedAt := now) else o
  }

  /** The orders after `toggleOrderCompletion(id)`. */
  function ToggleCompletion(orders: seq<Order>, id: string, now: nat): seq<Order> {
    Map(orders, ToggledOrder(id, now))
  }

  function OrderIdIsNot(id: string): Order -> bool {
    (o: Order) => o.id != id
  }

  /** The orders after `deleteOrder(id)`: exactly those with another id, in order. */
  function DeleteOrders(orders: seq<Order>, id: string): (r: seq<Order>)
    ensures forall o :: o in r <==> o in orders && o.id != id
    ensures IsSubseq(r, orders)
  {
    FilterMembers(orders, OrderIdIsNot(id));
    FilterIsSubseq(orders, OrderIdIsNot(id));
    Filter(orders, OrderIdIsNot(id))
  }

  // ---------------------------------------------------------------------------
  // General expenses

  datatype ExpensePatch = ExpensePatch(
    id: Option<string>,
    description: Option<string>,
    amount: Option<int>,
    date: Option<string>,
    createdAt: Option<nat>)

  function NewGeneralExpense(e: GeneralExpense, newId: string, now: nat): GeneralExpense {
    e.(id := newId, createdAt := now)
  }

  function UpdatedExpense(id: string, p: ExpensePatch, now: nat): GeneralExpense -> GeneralExpense {
    (e: GeneralExpense) =>
      if e.id == id then
        GeneralExpense(Or(p.id, e.id), Or(p.description, e.description), Or(p.amount, e.amount),
                       Or(p.date, e.date), Or(p.createdAt, e.createdAt), now)
      else e
  }

  /** The expenses after `updateExpense(id, updates)`: the list keeps its length
      and order, every expense with another id is untouched, and an expense
      with the id takes each field the update carries, keeps the others, and
      is stamped with the clock. */
  function UpdateExpenses(expenses: seq<GeneralExpense>, id: string, p: ExpensePatch, now: nat): (r: seq<GeneralExpense>)
    ensures |r| == |expenses|
    ensures forall i :: 0 <= i < |r| && expenses[i].id != id ==> r[i] == expenses[i]
    ensures forall i :: 0 <= i < |r| && expenses[i].id == id ==>
      && (p.id.Some? ==> r[i].id == p.id.value) && (p.id.None? ==> r[i].id == id)
      && (p.description.Some? ==> r[i].description == p.description.value)
      && (p.description.None? ==> r[i].description == expenses[i].description)
      && (p.amount.Some? ==> r[i].amount == p.amount.value)
      && (p.amount.None? ==> r[i].amount == expenses[i].amount)
      && (p.date.Some? ==> r[i].date == p.date.value)
      && (p.date.None? ==> r[i].date == expenses[i].date)
      && (p.createdAt.Some? ==> r[i].createdAt == p.createdAt.value)
      && (p.createdAt.None? ==> r[i].createdAt == expenses[i].createdAt)
      && r[i].updatedAt == now
  {
    var r := Map(expenses, UpdatedExpense(id, p, now));
    assert forall i :: 0 <= i < |r| ==> r[i] == UpdatedExpense(id, p, now)(expenses[i]);
    r
  }

  function ExpenseIdIsNot(id: string): GeneralExpense -> bool {
    (e: GeneralExpense) => e.id != id
  }

  function DeleteExpenses(expenses: seq<GeneralExpense>, id: string): (r: seq<GeneralExpense>)
    ensures forall e :: e in r <==> e in expenses && e.id != id
    ensures IsSubseq(r, expenses)
  {
    FilterMembers(expenses, ExpenseIdIsNot(id));
    FilterIsSubseq(expenses, ExpenseIdIsNot(id));
    Filter(expenses, ExpenseIdIsNot(id))
  }

  // ---------------------------------------------------------------------------
  // Vendors

  datatype VendorPatch = VendorPatch(
    id: Option<string>,
    name: Option<string>,
    vendorName: Option<string>,
    contactNumber: Option<string>,
    createdAt: Option<nat>)

  /** `a || b`, for a string field an update may leave out. */
  function OrElse(a: Option<string>, b: string): (r: string)
    ensures a.Some? && a.value != "" ==> r == a.value
    ensures (a.None? || a.value == "") ==> r == b
  {
    if a.Some? && a.value != "" then a.value else b
  }

  /** The vendor `addVendor` stores: the name falls back to the legacy alias. */
  function NewVendor(v: Vendor, newId: string, now: nat): (r: Vendor)
    ensures r.name == (if v.name != "" then v.name else v.vendorName)
  {
    v.(name := if v.name != "" then v.name else v.vendorName, id := newId, createdAt := now)
  }

  /** `vendors.find(v => v.id === id)`. */
  function FindVendor(vendors: seq<Vendor>, id: string): (r: Option<Vendor>)
    ensures r.None? <==> forall v :: v in vendors ==> v.id != id
    ensures r.Some? ==> r.value in vendors && r.value.id == id
    ensures r.Some? ==> exists i :: 0 <= i < |vendors| && vendors[i] == r.value && forall j :: 0 <= j < i ==> vendors[j].id != id
  {
    if vendors == [] then None
    else if vendors[0].id == id then Some(vendors[0])
    else FindVendor(vendors[1..], id)
  }

  function UpdatedVendor(id: string, p: VendorPatch, now: nat): Vendor -> Vendor {
    (v: Vendor) =>
      if v.id == id then
        Vendor(Or(p.id, v.id), OrElse(p.name, OrElse(p.vendorName, v.name)), Or(p.vendorName, v.vendorName),
               Or(p.contactNumber, v.contactNumber), Or(p.createdAt, v.createdAt), now)
      else v
  }

  function UpdateVendors(vendors: seq<Vendor>, id: string, p: VendorPatch, now: nat): seq<Vendor> {
    Map(vendors, UpdatedVendor(id, p, now))
  }

  function VendorIdIsNot(id: string): Vendor -> bool {
    (v: Vendor) => v.id != id
  }

  function DeleteVendors(vendors: seq<Vendor>, id: string): (r: seq<Vendor>)
    ensures forall v :: v in r <==> v in vendors && v.id != id
    ensures IsSubseq(r, vendors)
  {
    FilterMembers(vendors, VendorIdIsNot(id));
    FilterIsSubseq(vendors, VendorIdIsNot(id));
    Filter(vendors, VendorIdIsNot(id))
  }

  function ForVendor(vendorId: string): VendorTransaction -> bool {
    (t: VendorTransaction) => t.vendorId == vendorId
  }

  function NotForVendor(vendorId: string): VendorTransaction -> bool {
    (t: VendorTransaction) => t.vendorId != vendorId
  }

  /** The ledger after `deleteVendor(id)`: the vendor's transactions are gone, the rest stay in order. */
  function RemoveByVendor(txs: seq<VendorTransaction>, vendorId: string): (r: seq<VendorTransaction>)
    ensures forall t :: t in r <==> t in txs && t.vendorId != vendorId
    ensures IsSubseq(r, txs)
  {
    FilterMembers(txs, NotForVendor(vendorId));
    FilterIsSubseq(txs, NotForVendor(vendorId));
    Filter(txs, NotForVendor(vendorId))
  }

  /** `getVendorTransactions(vendorId)`: the whole ledger without a vendor id,
      else that vendor's transactions in ledger order. */
  function TransactionsOfVendor(txs: seq<VendorTransaction>, vendorId: string): (r: seq<VendorTransaction>)
    ensures vendorId == "" ==> r == txs
    ensures vendorId != "" ==> forall t :: t in r <==> t in txs && t.vendorId == vendorId
    ensures IsSubseq(r, txs)
  {
    if vendorId == "" then
      IsSubseqRefl(txs);
      txs
    else
      FilterMembers(txs, ForVendor(vendorId));
      FilterIsSubseq(txs, ForVendor(vendorId));
      Filter(txs, ForVendor(vendorId))
  }

  // ---------------------------------------------------------------------------
  // Owner funds

  datatype FundPatch = FundPatch(
    id: Option<string>,
    kind: Option<string>,
    description: Option<string>,
    amount: Option<int>,
    date: Option<string>,
    createdAt: Option<nat>)

  function NewFund(f: FundTransaction, newId: string, now: nat): FundTransaction {
    f.(id := newId, createdAt := now)
  }

  /** `{ ...fund, ...updates, id: fund.id, updatedAt: now }`: an update never changes the id. */
  function UpdatedFund(id: string, p: FundPatch, now: nat): FundTransaction -> FundTransaction {
    (f: FundTransaction) =>
      if f.id == id then
        FundTransaction(f.id, Or(p.kind, f.kind), Or(p.description, f.description), Or(p.amount, f.amount),
                        Or(p.date, f.date), Or(p.createdAt, f.createdAt), now)
      else f
  }

  function UpdateFunds(funds: seq<FundTransaction>, id: string, p: FundPatch, now: nat): seq<FundTransaction> {
    Map(funds, UpdatedFund(id, p, now))
  }

  function FundIdIsNot(id: string): FundTransaction -> bool {
    (f: FundTransaction) => f.id != id
  }

  function DeleteFunds(funds: seq<FundTransaction>, id: string): (r: seq<FundTransaction>)
    ensures forall f :: f in r <==> f in funds && f.id != id
    ensures IsSubseq(r, funds)
  {
    FilterMembers(funds, FundIdIsNot(id));
    FilterIsSubseq(funds, FundIdIsNot(id));
    Filter(funds, FundIdIsNot(id))
  }

  /** Updating a fund transaction keeps every id, wherever the update points. */
  lemma UpdateFundsKeepsIds(funds: seq<FundTransaction>, id: string, p: FundPatch, now: nat)
    ensures |UpdateFunds(funds, id, p, now)| == |funds|
    ensures forall i :: 0 <= i < |funds| ==> UpdateFunds(funds, id, p, now)[i].id == funds[i].id
  {
  }

  // ---------------------------------------------------------------------------
  // Import and export of the whole database

  /** A field of the backup file as JSON presents it. */
  datatype JsonArray<T> = Absent | NotAnArray | Array(items: seq<T>)

  /** The backup file's document. */
  datatype Backup = Backup(
    orders: JsonArray<Order>,
    expenses: Option<seq<GeneralExpense>>,
    vendors: Option<seq<Vendor>>,
    vendorTransactions: Option<seq<VendorTransaction>>,
    funds: Option<seq<FundTransaction>>,
    exportedAt: nat,
    version: string)

  /** The five collections together. */
  datatype Collections = Collections(
    orders: seq<Order>,
    expenses: seq<GeneralExpense>,
    vendors: seq<Vendor>,
    transactions: seq<VendorTransaction>,
    funds: seq<FundTransaction>)

  datatype ImportOutcome =
    | Imported(orders: nat, expenses: nat, vendors: nat, vendorTransactions: nat, funds: nat)
    | Rejected(message: string)

  /** The document `exportDatabase` writes. */
  function Export(c: Collections, now: nat): Backup {
    Backup(Array(c.orders), Some(c.expenses), Some(c.vendors), Some(c.transactions), Some(c.funds), now, VERSION)
  }

  /** What `importDatabase` stores: nothing unless `orders` is an array; any
      other missing collection becomes empty. */
  function Restore(b: Backup): (r: Option<Collections>)
    ensures r.None? <==> !b.orders.Array?
    ensures r.Some? ==>
      && r.value.orders == b.orders.items
      && r.value.expenses == Or(b.expenses, []) && r.value.vendors == Or(b.vendors, [])
      && r.value.transactions == Or(b.vendorTransactions, []) && r.value.funds == Or(b.funds, [])
  {
    if !b.orders.Array? then None
    else Some(Collections(b.orders.items, Or(b.expenses, []), Or(b.vendors, []),
                          Or(b.vendorTransactions, []), Or(b.funds, [])))
  }

  /** Importing what was exported restores every collection. */
  lemma ExportRestoreRoundTrip(c: Collections, now: nat)
    ensures Restore(Export(c, now)) == Some(c)
    ensures Export(c, now).version == VERSION
  {
  }

  // ---------------------------------------------------------------------------
  // The store

  class Ledger {
    var orders: seq<Order>
    var expenses: seq<GeneralExpense>
    var vendors: seq<Vendor>
    var transactions: seq<VendorTransaction>
    var funds: seq<FundTransaction>

    /** Every collection starts as its default, the empty array. */
    constructor ()
      ensures orders == [] && expenses == [] && vendors == [] && transactions == [] && funds == []
    {
      orders, expenses, vendors, transactions, funds := [], [], [], [], [];
    }

    function Contents(): Collections
      reads this
    {
      Collections(orders, expenses, vendors, transactions, funds)
    }

    // -- the synchroniser (src/store/index.js:45-81)

    method RemoveVendorTransactionsByOrder(orderId: string)
      modifies this`transactions
      ensures transactions == RemoveByOrder(old(transactions), orderId)
    {
      transactions := RemoveByOrder(transactions, orderId);
    }

    method AddVendorTransactionsForOrder(order: Option<Order>, now: nat)
      modifies this`transactions
      ensures transactions == AddForOrder(old(transactions), order, vendors, now)
    {
      if order.None? {
        return;
      }
      var o := order.value;
      var newTransactions := transactions;
      var i := 0;
      while i < |o.expenses|
        invariant 0 <= i <= |o.expenses|
        invariant newTransactions == transactions + ProjectPrefix(o, vendors, now, i)
      {
        var e := o.expenses[i];
        if e.vendorId != "" {
          newTransactions := newTransactions + [TransactionFor(o, e, i, vendors, now)];
        }
        i := i + 1;
      }
      transactions := newTransactions;
    }

    method SyncVendorTransactionsForOrder(order: Option<Order>, now: nat)
      modifies this`transactions
      ensures transactions == Sync(old(transactions), order, vendors, now)
    {
      if order.None? || order.value.id == "" {
        return;
      }
      RemoveVendorTransactionsByOrder(order.value.id);
      AddVendorTransactionsForOrder(order, now);
    }

    // -- orders

    method AddOrder(order: Order, newId: string, now: nat) returns (created: Order)
      modifies this`orders, this`transactions
      ensures created == NewOrder(order, newId, now)
      ensures orders == old(orders) + [created]
      ensures transactions == Sync(old(transactions), Some(created), vendors, now)
    {
      created := NewOrder(order, newId, now);
      orders := orders + [created];
      SyncVendorTransactionsForOrder(Some(created), now);
    }

    method UpdateOrder(id: string, updates: OrderPatch, now: nat)
      modifies this`orders, this`transactions
      ensures orders == UpdateOrders(old(orders), id, updates, now)
      ensures transactions == Sync(old(transactions), FindOrder(orders, id), vendors, now)
    {
      orders := UpdateOrders(orders, id, updates, now);
      var updatedOrder := FindOrder(orders, id);
      SyncVendorTransactionsForOrder(updatedOrder, now);
    }

    method ToggleOrderCompletion(id: string, now: nat)
      modifies this`orders
      ensures orders == ToggleCompletion(old(orders), id, now)
    {
      orders := ToggleCompletion(orders, id, now);
    }

    method DeleteOrder(id: string)
      modifies this`orders, this`transactions
      ensures orders == DeleteOrders(old(orders), id)
      ensures transactions == RemoveByOrder(old(transactions), id)
    {
      orders := DeleteOrders(orders, id);
      RemoveVendorTransactionsByOrder(id);
    }

    // -- general expenses

    method AddExpense(expense: GeneralExpense, newId: string, now: nat) returns (created: GeneralExpense)
      modifies this`expenses
      ensures created == NewGeneralExpense(expense, newId, now)
      ensures expenses == old(expenses) + [created]
    {
      created := NewGeneralExpense(expense, newId, now);
      expenses := expenses + [created];
    }

    method UpdateExpense(id: string, updates: ExpensePatch, now: nat)
      modifies this`expenses
      ensures expenses == UpdateExpenses(old(expenses), id, updates, now)
    {
      expenses := UpdateExpenses(expenses, id, updates, now);
    }

    method DeleteExpense(id: string)
      modifies this`expenses
      ensures expenses == DeleteExpenses(old(expenses), id)
    {
      expenses := DeleteExpenses(expenses, id);
    }

    // -- vendors

    method AddVendor(vendor: Vendor, newId: string, now: nat) returns (created: Vendor)
      modifies this`vendors
      ensures created == NewVendor(vendor, newId, now)
      ensures vendors == old(vendors) + [created]
    {
      created := NewVendor(vendor, newId, now);
      vendors := vendors + [created];
    }

    method UpdateVendor(id: string, updates: VendorPatch, now: nat)
      modifies this`vendors
      ensures vendors == UpdateVendors(old(vendors), id, updates, now)
    {
      vendors := UpdateVendors(vendors, id, updates, now);
    }

    /** Removes the vendor and its ledger; the orders, and the vendor ids in
        their expense lines, are left as they are. */
    method DeleteVendor(id: string)
      modifies this`vendors, this`transactions
      ensures vendors == DeleteVendors(old(vendors), id)
      ensures transactions == RemoveByVendor(old(transactions), id)
    {
      vendors := DeleteVendors(vendors, id);
      transactions := RemoveByVendor(transactions, id);
    }

    function GetVendorTransactions(vendorId: string): (r: seq<VendorTransaction>)
      reads this
      ensures vendorId == "" ==> r == transactions
      ensures vendorId != "" ==> forall t :: t in r <==> t in transactions && t.vendorId == vendorId
      ensures IsSubseq(r, transactions)
    {
      TransactionsOfVendor(transactions, vendorId)
    }

    /** The two-phase write: the status goes on the ledger first, then back
        onto the matching line of the owning order, if the transaction exists. */
    method UpdateVendorTransactionStatus(transactionId: string, status: string, now: nat)
      modifies this`transactions, this`orders
      ensures transactions == SetStatus(old(transactions), transactionId, status, now)
      ensures orders == match FindTransaction(transactions, transactionId)
                        case None => old(orders)
                        case Some(tx) => BackSync(old(orders), tx, status, now)
    {
      transactions := SetStatus(transactions, transactionId, status, now);
      var tx := FindTransaction(transactions, transactionId);
      if tx.None? {
        return;
      }
      orders := BackSync(orders, tx.value, status, now);
    }

    // -- owner funds

    method AddFundTransaction(fund: FundTransaction, newId: string, now: nat) returns (created: FundTransaction)
      modifies this`funds
      ensures created == NewFund(fund, newId, now)
      ensures funds == old(funds) + [created]
    {
      created := NewFund(fund, newId, now);
      funds := funds + [created];
    }

    method UpdateFundTransaction(id: string, updates: FundPatch, now: nat)
      modifies this`funds
      ensures funds == UpdateFunds(old(funds), id, updates, now)
    {
      funds := UpdateFunds(funds, id, updates, now);
    }

    method DeleteFundTransaction(id: string)
      modifies this`funds
      ensures funds == DeleteFunds(old(funds), id)
    {
      funds := DeleteFunds(funds, id);
    }

    // -- import and export

    function ExportDatabase(now: nat): (b: Backup)
      reads this
      ensures Restore(b) == Some(Contents())
    {
      Export(Contents(), now)
    }

    /** Replaces all five collections, or rejects the file and changes nothing. */
    method ImportDatabase(data: Backup) returns (outcome: ImportOutcome)
      modifies this`orders, this`expenses, this`vendors, this`transactions, this`funds
      ensures Restore(data).None? ==> outcome == Rejected(INVALID_ORDERS) && Contents() == old(Contents())
      ensures Restore(data).Some? ==>
        && Contents() == Restore(data).value
        && outcome == Imported(|orders|, |expenses|, |vendors|, |transactions|, |funds|)
    {
      var restored := Restore(data);
      if restored.None? {
        return Rejected(INVALID_ORDERS);
      }
      var c := restored.value;
      orders, expenses, vendors, transactions, funds := c.orders, c.expenses, c.vendors, c.transactions, c.funds;
      outcome := Imported(|orders|, |expenses|, |vendors|, |transactions|, |funds|);
    }
  }
}
