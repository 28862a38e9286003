/** The per-order accounting policy shared by the orders list, the order form
    and the dashboard: what the customer still owes, and what the order
    earned. Profit counts every expense line whatever its payment status. */
module Accounting {
  import opened Seqs
  import opened Records

  /** What the customer is charged for `o`. */
  function Sale(o: Order): int { o.GrandTotal() }

  /** What the customer has paid on `o`. */
  function PaymentsReceived(o: Order): int { o.PaymentsTotal() }

  /** What the customer still owes: grand total minus payments, not clamped at zero. */
  function Receivable(o: Order): int { o.GrandTotal() - o.PaymentsTotal() }

  /** Everything `o` cost: all its expense lines plus the delivery charges paid out. */
  function OrderCost(o: Order): int { o.ExpenseLinesTotal() + o.paidDeliveryCharges }

  function Profit(o: Order): int { o.GrandTotal() - OrderCost(o) }

  /** The receivable reads only the charges and the payments. */
  lemma ReceivableIgnoresExpenses(o: Order, exps: seq<Expense>, paidDelivery: int)
    ensures Receivable(o.(expenses := exps, paidDeliveryCharges := paidDelivery)) == Receivable(o)
  {
  }

  /** The profit reads only the charges and the expense amounts: neither the
      payments nor the lines' vendors or payment statuses matter. */
  lemma ProfitIgnoresPaymentsAndStatuses(o: Order, pays: seq<Payment>, exps: seq<Expense>)
    requires |exps| == |o.expenses| && forall i :: 0 <= i < |exps| ==> exps[i].amount == o.expenses[i].amount
    ensures Profit(o.(payments := pays, expenses := exps)) == Profit(o)
  {
    SumPointwise(exps, o.expenses, ExpenseAmount);
  }

  /** Recording a payment lowers the receivable by its amount. */
  lemma ReceivableAfterPayment(o: Order, p: Payment)
    ensures Receivable(o.(payments := o.payments + [p])) == Receivable(o) - p.amount
  {
    SumConcat(o.payments, [p], PaymentAmount);
  }

  /** Recording an expense line lowers the profit by its amount and leaves the receivable. */
  lemma ProfitAfterExpense(o: Order, e: Expense)
    ensures Profit(o.(expenses := o.expenses + [e])) == Profit(o) - e.amount
    ensures Receivable(o.(expenses := o.expenses + [e])) == Receivable(o)
  {
    SumConcat(o.expenses, [e], ExpenseAmount);
  }

  /** Profit and receivable, added up over several orders, split as per order. */
  lemma ProfitIsSalesMinusCosts(orders: seq<Order>)
    ensures Sum(orders, Profit) == Sum(orders, Sale) - Sum(orders, OrderCost)
    ensures Sum(orders, Receivable) == Sum(orders, Sale) - Sum(orders, PaymentsReceived)
  {
    SumAdd(orders, Profit, OrderCost, Sale);
    SumAdd(orders, Receivable, PaymentsReceived, Sale);
  }
}
