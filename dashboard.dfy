/** The dashboard's metrics: folds over the orders, the general expenses and
    the owner funds. Profit counts every expense; cash in hand counts only
    what has been paid out, so a vendor line still pending is a payable, not
    an outflow. General expenses always count as paid. */
module Dashboard {
  import opened Seqs
  import opened Records
  import opened Accounting
  import opened FundsPage
  import opened VendorSync

  const RECENT_COUNT := 5

  /** `!e.vendorId || e.vendorPaymentStatus === 'paid'`: money that has left the business. */
  predicate IsPaidLine(e: Expense) { e.vendorId == "" || e.vendorPaymentStatus == PAID }

  /** `e.vendorId && e.vendorPaymentStatus !== 'paid'`: money still owed to a vendor. */
  predicate IsPayableLine(e: Expense) { e.vendorId != "" && e.vendorPaymentStatus != PAID }

  /** What `o` has actually paid out: its paid lines and the delivery charges paid. */
  function PaidCost(o: Order): int {
    Sum(Filter(o.expenses, IsPaidLine), ExpenseAmount) + o.paidDeliveryCharges
  }

  /** What `o` still owes its vendors. */
  function Payable(o: Order): int {
    Sum(Filter(o.expenses, IsPayableLine), ExpenseAmount)
  }

  /** The two filters are complements: an order's cost is what it paid plus what it owes. */
  lemma CostIsPaidPlusPayable(o: Order)
    ensures OrderCost(o) == PaidCost(o) + Payable(o)
  {
    SumFilterSplit(o.expenses, IsPaidLine, IsPayableLine, ExpenseAmount);
  }

  /** The same split summed over all orders. */
  lemma {:induction false} TotalCostIsPaidPlusPayables(orders: seq<Order>)
    ensures Sum(orders, OrderCost) == Sum(orders, PaidCost) + Sum(orders, Payable)
  {
    forall o ensures OrderCost(o) == PaidCost(o) + Payable(o) {
      CostIsPaidPlusPayable(o);
    }
    SumAdd(orders, PaidCost, Payable, OrderCost);
  }

  // ---------------------------------------------------------------------------
  // Recent orders

  predicate NewestFirst(s: seq<Order>) {
    forall i, j :: 0 <= i < j < |s| ==> s[j].orderDate <= s[i].orderDate
  }

  /** Inserts `x` before the first order that is not newer than it. */
  function Insert(x: Order, r: seq<Order>): (q: seq<Order>)
    ensures |q| == |r| + 1
    ensures multiset(q) == multiset(r) + multiset{x}
  {
    if r == [] || r[0].orderDate <= x.orderDate then
      [x] + r
    else
      assert r == [r[0]] + r[1..];
      [r[0]] + Insert(x, r[1..])
  }

  lemma {:induction false} InsertNewestFirst(x: Order, r: seq<Order>)
    requires NewestFirst(r)
    ensures NewestFirst(Insert(x, r))
    ensures Insert(x, r)[0] == x || (r != [] && Insert(x, r)[0] == r[0])
  {
    if !(r == [] || r[0].orderDate <= x.orderDate) {
      var rest := Insert(x, r[1..]);
      assert NewestFirst(r[1..]) by {
        forall i, j | 0 <= i < j < |r[1..]| ensures r[1..][j].orderDate <= r[1..][i].orderDate {
          assert r[1..][i] == r[i + 1] && r[1..][j] == r[j + 1];
        }
      }
      InsertNewestFirst(x, r[1..]);
      assert rest[0].orderDate <= r[0].orderDate;
      var q := [r[0]] + rest;
      forall i, j | 0 <= i < j < |q| ensures q[j].orderDate <= q[i].orderDate {
        if i == 0 {
          assert q[j] == rest[j - 1];
          assert rest[j - 1].orderDate <= rest[0].orderDate;
        } else {
          assert q[i] == rest[i - 1] && q[j] == rest[j - 1];
        }
      }
    }
  }

  /** `[...orders].sort((a, b) => b.orderDate - a.orderDate)`: newest first. */
  function SortNewestFirst(s: seq<Order>): (r: seq<Order>)
    ensures |r| == |s| && multiset(r) == multiset(s)
  {
    if s == [] then []
    else
      assert s == [s[0]] + s[1..];
      Insert(s[0], SortNewestFirst(s[1..]))
  }

  lemma {:induction false} SortIsNewestFirst(s: seq<Order>)
    ensures NewestFirst(SortNewestFirst(s))
  {
    if s != [] {
      SortIsNewestFirst(s[1..]);
      InsertNewestFirst(s[0], SortNewestFirst(s[1..]));
    }
  }

  /** `.slice(0, 5)` of the sorted orders: the newest orders, at most five, each
      one of the orders; none of the orders left out is newer than one shown. */
  function RecentOrders(orders: seq<Order>): (r: seq<Order>)
    ensures |r| == (if |orders| < RECENT_COUNT then |orders| else RECENT_COUNT)
    ensures NewestFirst(r)
    ensures multiset(r) <= multiset(orders)
    ensures forall i, o :: 0 <= i < |r| && o in orders && o !in r ==> o.orderDate <= r[i].orderDate
  {
    var k := if |orders| < RECENT_COUNT then |orders| else RECENT_COUNT;
    RecentPrefixFacts(orders, k);
    SortNewestFirst(orders)[..k]
  }

  lemma RecentPrefixFacts(orders: seq<Order>, k: nat)
    requires k <= |orders|
    ensures var top := SortNewestFirst(orders)[..k];
      && NewestFirst(top)
      && multiset(top) <= multiset(orders)
      && forall i, o :: 0 <= i < k && o in orders && o !in top ==> o.orderDate <= top[i].orderDate
  {
    var sorted := SortNewestFirst(orders);
    SortIsNewestFirst(orders);
    PrefixOfNewestFirst(sorted, k);
    assert sorted == sorted[..k] + sorted[k..];
    assert multiset(sorted) == multiset(sorted[..k]) + multiset(sorted[k..]);
    SameElements(orders, sorted);
  }

  lemma SameElements(a: seq<Order>, b: seq<Order>)
    requires multiset(a) == multiset(b)
    ensures forall o :: o in a <==> o in b
  {
    forall o ensures o in a <==> o in b {
      assert o in a <==> o in multiset(a);
      assert o in b <==> o in multiset(b);
    }
  }

  /** A prefix of a newest-first sequence is newest first, and nothing after it is newer. */
  lemma PrefixOfNewestFirst(s: seq<Order>, k: nat)
    requires k <= |s| && NewestFirst(s)
    ensures NewestFirst(s[..k])
    ensures forall i, o :: 0 <= i < k && o in s && o !in s[..k] ==> o.orderDate <= s[..k][i].orderDate
  {
    assert forall m :: 0 <= m < k ==> s[..k][m] == s[m];
    forall i, o | 0 <= i < k && o in s && o !in s[..k] ensures o.orderDate <= s[..k][i].orderDate {
      var j :| 0 <= j < |s| && s[j] == o;
      assert j >= k;
    }
  }

  // ---------------------------------------------------------------------------
  // The metrics

  datatype Metrics = Metrics(
    totalOrders: nat,
    totalReceivables: int,
    totalProfit: int,
    totalExpenses: int,
    totalSales: int,
    cashInHand: int,
    totalOwnerDeposits: int,
    totalOwnerWithdrawals: int,
    recentOrders: seq<Order>,
    totalPayables: int)

  /** `loadMetrics`. The contract states the accounting identities the
      dashboard's figures satisfy. */
  function LoadMetrics(orders: seq<Order>, expenses: seq<GeneralExpense>, funds: seq<FundTransaction>): (m: Metrics)
    ensures m.totalOrders == |orders|
    ensures m.totalSales == Sum(orders, Sale)
    ensures m.totalPayables == Sum(orders, Payable)
    ensures m.totalOwnerDeposits == TotalDeposits(funds) && m.totalOwnerWithdrawals == TotalWithdrawals(funds)
    ensures m.totalProfit == m.totalSales - m.totalExpenses
    ensures m.cashInHand == Sum(orders, PaymentsReceived) + NetFunds(funds)
                            - Sum(orders, PaidCost) - Sum(expenses, GeneralExpenseAmount)
    ensures m.totalReceivables == m.totalSales - Sum(orders, PaymentsReceived)
    ensures m.totalExpenses == Sum(orders, PaidCost) + m.totalPayables + Sum(expenses, GeneralExpenseAmount)
    ensures m.totalProfit == Sum(orders, Profit) - Sum(expenses, GeneralExpenseAmount)
    ensures m.cashInHand ==
      m.totalProfit - m.totalReceivables + m.totalPayables + m.totalOwnerDeposits - m.totalOwnerWithdrawals
    ensures m.totalOwnerDeposits - m.totalOwnerWithdrawals == NetFunds(funds)
    ensures |m.recentOrders| <= RECENT_COUNT && multiset(m.recentOrders) <= multiset(orders)
  {
    var totalSales := Sum(orders, Sale);
    var totalReceivables := Sum(orders, Receivable);
    var totalPaymentsReceived := Sum(orders, PaymentsReceived);
    var totalOrderExpenses := Sum(orders, OrderCost);
    var totalGeneralExpenses := Sum(expenses, GeneralExpenseAmount);
    var totalExpenses := totalOrderExpenses + totalGeneralExpenses;
    var totalOwnerDeposits := TotalDeposits(funds);
    var totalOwnerWithdrawals := TotalWithdrawals(funds);
    var paidOrderExpenses := Sum(orders, PaidCost);
    var paidTotalExpenses := paidOrderExpenses + totalGeneralExpenses;
    var cashInHand := totalPaymentsReceived + totalOwnerDeposits - totalOwnerWithdrawals - paidTotalExpenses;
    var totalProfit := totalSales - totalExpenses;
    var totalPayables := Sum(orders, Payable);
    ProfitIsSalesMinusCosts(orders);
    TotalCostIsPaidPlusPayables(orders);
    Metrics(|orders|, totalReceivables, totalProfit, totalExpenses, totalSales, cashInHand,
            totalOwnerDeposits, totalOwnerWithdrawals, RecentOrders(orders), totalPayables)
  }

  // ---------------------------------------------------------------------------
  // Payables against the vendor ledger

  predicate TxPending(t: VendorTransaction) { t.status != PAID }

  /** When the ledger mirrors an order's lines and every vendor line records a
      status, the order's payable is the amount of its ledger transactions not
      marked 'paid'. */
  lemma PayableMatchesPendingLedger(o: Order, txs: seq<VendorTransaction>)
    requires Entries(OfOrder(txs, o.id)) == ExpectedEntries(o)
    requires forall i :: 0 <= i < |o.expenses| && o.expenses[i].vendorId != "" ==> o.expenses[i].vendorPaymentStatus != ""
    ensures Payable(o) == Sum(Filter(OfOrder(txs, o.id), TxPending), TransactionAmount)
  {
    var T := Tagged(o.expenses);
    FilterOfFilter(o.expenses, HasVendor, IsPayableLine);
    FilterMembers(o.expenses, HasVendor);
    forall i | 0 <= i < |T| ensures T[i].vendorPaymentStatus != "" && T[i].vendorId != "" {
      assert T[i] in T;
      var k :| 0 <= k < |o.expenses| && o.expenses[k] == T[i];
    }
    PendingSumsAgree(OfOrder(txs, o.id), T, o.id);
  }

  lemma {:induction false} PendingSumsAgree(s: seq<VendorTransaction>, t: seq<Expense>, orderId: string)
    requires Entries(s) == Map(t, ExpectedEntry(orderId))
    requires forall i :: 0 <= i < |t| ==> t[i].vendorPaymentStatus != "" && t[i].vendorId != ""
    ensures Sum(Filter(s, TxPending), TransactionAmount) == Sum(Filter(t, IsPayableLine), ExpenseAmount)
  {
    assert |s| == |Entries(s)| == |t|;
    if s != [] {
      assert Entries(s)[0] == EntryOf(s[0]);
      assert Map(t, ExpectedEntry(orderId))[0] == ExpectedEntry(orderId)(t[0]);
      assert Entries(s[1..]) == Entries(s)[1..];
      assert Map(t[1..], ExpectedEntry(orderId)) == Map(t, ExpectedEntry(orderId))[1..];
      PendingSumsAgree(s[1..], t[1..], orderId);
      assert TxPending(s[0]) == IsPayableLine(t[0]) && s[0].amount == t[0].amount;
      var hs := if TxPending(s[0]) then [s[0]] else [];
      var ht := if IsPayableLine(t[0]) then [t[0]] else [];
      SumConcat(hs, Filter(s[1..], TxPending), TransactionAmount);
      SumConcat(ht, Filter(t[1..], IsPayableLine), ExpenseAmount);
    }
  }

  /** A vendor line saved without any payment status is a payable here, while
      the transaction generated for it records 'paid'. */
  lemma UnsetStatusDisagreesWithLedger(o: Order, e: Expense, index: nat, vendors: seq<Vendor>, now: nat)
    requires e.vendorId != "" && e.vendorPaymentStatus == ""
    ensures IsPayableLine(e) && TransactionFor(o, e, index, vendors, now).status == PAID
  {
  }
}
