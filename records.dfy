/** The records of the five persisted collections and the lines embedded in an
    order. A field the JavaScript objects may leave undefined is modelled by
    the value the code treats as "absent": the empty string for strings and 0
    for timestamps, so that `x || fallback` reads `if x != "" then x else
    fallback`. Money is an integer number of minor units; dates that are
    compared are integer keys; timestamps are the clock's readings. */
module Records {
  import opened Seqs

  const PAID := "paid"
  const PENDING := "pending"
  const DEPOSIT := "deposit"
  const WITHDRAW := "withdraw"

  /** `status || 'paid'`: an absent payment status counts as paid. */
  function StatusOrPaid(status: string): (r: string)
    ensures r != ""
    ensures status != "" ==> r == status
    ensures status == "" ==> r == PAID
  {
    if status != "" then status else PAID
  }

  /** An expense line embedded in an order. */
  datatype Expense = Expense(
    id: string,
    description: string,
    amount: int,
    vendorId: string,           // "" when no vendor is assigned
    vendorName: string,         // snapshot of the vendor's name
    vendorPaymentStatus: string,
    createdAt: nat)

  /** A customer payment embedded in an order; its id is a clock reading. */
  datatype Payment = Payment(id: nat, date: string, amount: int)

  datatype Order = Order(
    id: string,
    customerName: string,
    customerPhone: string,
    orderDescription: string,
    orderDate: int,
    orderTotal: int,
    receivedDeliveryCharges: int,
    paidDeliveryCharges: int,
    isCompleted: bool,
    expenses: seq<Expense>,
    payments: seq<Payment>,
    receivable: int,            // stored by the order form on submit
    profit: int,                // stored by the order form on submit
    createdAt: nat,
    updatedAt: nat)
  {
    /** What the customer is charged: the order total plus delivery charges received. */
    function GrandTotal(): int {
      orderTotal + receivedDeliveryCharges
    }

    function PaymentsTotal(): int {
      Sum(payments, PaymentAmount)
    }

    function ExpenseLinesTotal(): int {
      Sum(expenses, ExpenseAmount)
    }
  }

  function ExpenseAmount(e: Expense): int { e.amount }
  function ExpenseIdOf(e: Expense): string { e.id }
  function OrderIdOf(o: Order): string { o.id }
  function PaymentAmount(p: Payment): int { p.amount }

  /** A general (non-order) expense; always treated as paid. */
  datatype GeneralExpense = GeneralExpense(
    id: string,
    description: string,
    amount: int,
    date: string,
    createdAt: nat,
    updatedAt: nat)

  function GeneralExpenseAmount(e: GeneralExpense): int { e.amount }

  /** A vendor; `vendorName` is the legacy alias of `name`. */
  datatype Vendor = Vendor(
    id: string,
    name: string,
    vendorName: string,
    contactNumber: string,
    createdAt: nat,
    updatedAt: nat)

  /** One entry of the vendor ledger, derived from a vendor-tagged expense line. */
  datatype VendorTransaction = VendorTransaction(
    id: string,
    orderId: string,
    vendorId: string,
    vendorName: string,
    expenseId: string,          // "" stands for null (a legacy line without id)
    expenseDescription: string,
    amount: int,
    status: string,
    createdAt: nat,
    updatedAt: nat)

  function VendorIdOf(v: Vendor): string { v.id }

  function TransactionAmount(t: VendorTransaction): int { t.amount }
  function TransactionIdOf(t: VendorTransaction): string { t.id }

  /** An owner fund movement; `kind` is the record's `type` field. */
  datatype FundTransaction = FundTransaction(
    id: string,
    kind: string,
    description: string,
    amount: int,
    date: string,
    createdAt: nat,
    updatedAt: nat)

  function FundAmount(f: FundTransaction): int { f.amount }
}
