/** The order form: its state (the order being edited, the expense and payment
    drafts and the ids of the line being edited), the handlers that change that
    state one step at a time, the load of an existing order with the backfill
    of missing expense ids, and the submit that normalises the order and hands
    it to the store. The calculators are `Accounting.Receivable` and
    `Accounting.Profit` applied to the order being edited. */
module OrderForm {
  import opened Seqs
  import opened Records
  import opened Accounting
  import opened VendorSync
  import opened Store

  /** The "add expense" inputs. */
  datatype ExpenseDraft = ExpenseDraft(description: string, amount: int, vendorId: string, vendorPaymentStatus: string)

  /** The "add payment" inputs. */
  datatype PaymentDraft = PaymentDraft(date: string, amount: int)

  const BLANK_EXPENSE := ExpenseDraft("", 0, "", PAID)

  /** The empty form of a new order dated `today`. */
  function BlankOrder(today: int): Order {
    Order("", "", "", "", today, 0, 0, 0, false, [], [], 0, 0, 0, 0)
  }

  function PaymentIdOf(p: Payment): nat { p.id }

  // ---------------------------------------------------------------------------
  // Loading an order

  /** `exp.id || `${Date.now()}-${Math.random()}``; `random(i)` is the random
      part drawn for the line at position `i`. */
  function BackfillId(e: Expense, now: nat, random: string): (r: Expense)
    ensures r.id != "" && (e.id != "" ==> r.id == e.id) && r.(id := e.id) == e
  {
    if e.id != "" then e else e.(id := NatToString(now) + "-" + random)
  }

  /** The expense lines as the form loads them: every line ends up with an id,
      a line that had one keeps it, and nothing else about a line changes. */
  function BackfillIds(exps: seq<Expense>, now: nat, random: nat -> string): (r: seq<Expense>)
    ensures |r| == |exps|
    ensures forall i :: 0 <= i < |r| ==> r[i].id != ""
    ensures forall i :: 0 <= i < |r| && exps[i].id != "" ==> r[i].id == exps[i].id
    ensures forall i :: 0 <= i < |r| ==> r[i].(id := exps[i].id) == exps[i]
  {
    var r := seq(|exps|, i requires 0 <= i < |exps| => BackfillId(exps[i], now, random(i)));
    assert forall i :: 0 <= i < |r| ==> r[i] == BackfillId(exps[i], now, random(i));
    r
  }

  /** Loading changes neither the profit nor the receivable of the order. */
  lemma BackfillKeepsAccounts(o: Order, now: nat, random: nat -> string)
    ensures Profit(o.(expenses := BackfillIds(o.expenses, now, random))) == Profit(o)
    ensures Receivable(o.(expenses := BackfillIds(o.expenses, now, random))) == Receivable(o)
  {
    var b := BackfillIds(o.expenses, now, random);
    assert forall i :: 0 <= i < |b| ==> b[i].amount == o.expenses[i].amount;
    ProfitIgnoresPaymentsAndStatuses(o, o.payments, b);
  }

  // ---------------------------------------------------------------------------
  // Expense lines

  /** `selectedVendor?.vendorName || selectedVendor?.name || ''`: this handler
      prefers the legacy alias to the name. */
  function SelectedVendorName(vendors: seq<Vendor>, vendorId: string): (r: string)
    ensures FindVendor(vendors, vendorId).None? ==> r == ""
    ensures FindVendor(vendors, vendorId).Some? ==>
      var v := FindVendor(vendors, vendorId).value;
      r == (if v.vendorName != "" then v.vendorName else v.name)
  {
    match FindVendor(vendors, vendorId)
    case None => ""
    case Some(v) => if v.vendorName != "" then v.vendorName else v.name
  }

  /** The line `{ ...newExpense, amount, id, vendorName }` appended by the add handler. */
  function LineFromDraft(d: ExpenseDraft, id: string, vendorName: string): Expense {
    Expense(id, d.description, d.amount, d.vendorId, vendorName, d.vendorPaymentStatus, 0)
  }

  predicate CanAddExpense(d: ExpenseDraft) { d.description != "" && d.amount > 0 }

  function LineIdIsNot(id: string): Expense -> bool {
    (e: Expense) => e.id != id
  }

  /** The lines after `handleRemoveExpense(id)`: exactly those with another id, in order. */
  function RemoveLines(exps: seq<Expense>, id: string): (r: seq<Expense>)
    ensures forall e :: e in r <==> e in exps && e.id != id
    ensures IsSubseq(r, exps)
  {
    FilterMembers(exps, LineIdIsNot(id));
    FilterIsSubseq(exps, LineIdIsNot(id));
    Filter(exps, LineIdIsNot(id))
  }

  /** `{ ...e, ...newExpense, amount }` on the line being edited; `null` matches no line. */
  function UpdatedLine(editId: Option<string>, d: ExpenseDraft): Expense -> Expense {
    (e: Expense) =>
      if editId.Some? && e.id == editId.value then
        e.(description := d.description, amount := d.amount, vendorId := d.vendorId, vendorPaymentStatus := d.vendorPaymentStatus)
      else e
  }

  /** The lines after `handleUpdateExpense`: the edited line takes the draft's
      four fields, and keeps its id, vendor name and creation time; no other
      line changes and none moves. */
  function UpdateLines(exps: seq<Expense>, editId: Option<string>, d: ExpenseDraft): (r: seq<Expense>)
    ensures |r| == |exps|
    ensures forall i :: 0 <= i < |r| ==> r[i].id == exps[i].id && r[i].vendorName == exps[i].vendorName
    ensures forall i :: 0 <= i < |r| && (editId.None? || exps[i].id != editId.value) ==> r[i] == exps[i]
    ensures forall i :: 0 <= i < |r| && editId.Some? && exps[i].id == editId.value ==>
      r[i].description == d.description && r[i].amount == d.amount &&
      r[i].vendorId == d.vendorId && r[i].vendorPaymentStatus == d.vendorPaymentStatus &&
      r[i].createdAt == exps[i].createdAt
  {
    Map(exps, UpdatedLine(editId, d))
  }

  /** The draft `handleEditExpense` loads: an absent status shows as 'paid'. */
  function DraftOfLine(e: Expense): (d: ExpenseDraft)
    ensures d.description == e.description && d.amount == e.amount && d.vendorId == e.vendorId
    ensures d.vendorPaymentStatus != ""
    ensures e.vendorPaymentStatus != "" ==> d.vendorPaymentStatus == e.vendorPaymentStatus
    ensures e.vendorPaymentStatus == "" ==> d.vendorPaymentStatus == PAID
  {
    ExpenseDraft(e.description, e.amount, e.vendorId, StatusOrPaid(e.vendorPaymentStatus))
  }

  /** Opening a line for editing and saving it unchanged leaves every line as it
      was, except that an absent status on the edited line becomes 'paid'
      (when the line ids are distinct). */
  lemma EditLineRoundTrip(exps: seq<Expense>, k: nat)
    requires UniqueBy(exps, ExpenseIdOf) && k < |exps|
    ensures var r := UpdateLines(exps, Some(exps[k].id), DraftOfLine(exps[k]));
      r[k] == exps[k].(vendorPaymentStatus := StatusOrPaid(exps[k].vendorPaymentStatus)) &&
      forall j :: 0 <= j < |exps| && j != k ==> r[j] == exps[j]
  {
    forall j | 0 <= j < |exps| && j != k ensures exps[j].id != exps[k].id {
      if j < k {
        assert ExpenseIdOf(exps[j]) != ExpenseIdOf(exps[k]);
      } else {
        assert ExpenseIdOf(exps[k]) != ExpenseIdOf(exps[j]);
      }
    }
  }

  /** Moving a line to another vendor keeps the first vendor's name on the line,
      and the synchroniser then prefers that stored name to the new vendor's. */
  lemma ChangingVendorKeepsOldName(o: Order, k: nat, d: ExpenseDraft, vendors: seq<Vendor>, now: nat)
    requires k < |o.expenses| && o.expenses[k].vendorName != ""
    ensures var line := UpdateLines(o.expenses, Some(o.expenses[k].id), d)[k];
      line.vendorId == d.vendorId && line.vendorName == o.expenses[k].vendorName &&
      TransactionFor(o, line, k, vendors, now).vendorName == o.expenses[k].vendorName
  {
  }

  // ---------------------------------------------------------------------------
  // Payments

  function PaymentIdIsNot(id: nat): Payment -> bool {
    (p: Payment) => p.id != id
  }

  /** The payments after `handleRemovePayment(id)`. */
  function RemovePayments(pays: seq<Payment>, id: nat): (r: seq<Payment>)
    ensures forall p :: p in r <==> p in pays && p.id != id
    ensures IsSubseq(r, pays)
  {
    FilterMembers(pays, PaymentIdIsNot(id));
    FilterIsSubseq(pays, PaymentIdIsNot(id));
    Filter(pays, PaymentIdIsNot(id))
  }

  function UpdatedPayment(editId: Option<nat>, d: PaymentDraft): Payment -> Payment {
    (p: Payment) => if editId.Some? && p.id == editId.value then p.(date := d.date, amount := d.amount) else p
  }

  /** The payments after `handleUpdatePayment`: the edited payment takes the
      draft's date and amount and keeps its id; nothing else changes. */
  function UpdatePayments(pays: seq<Payment>, editId: Option<nat>, d: PaymentDraft): (r: seq<Payment>)
    ensures |r| == |pays|
    ensures forall i :: 0 <= i < |r| ==> r[i].id == pays[i].id
    ensures forall i :: 0 <= i < |r| && (editId.None? || pays[i].id != editId.value) ==> r[i] == pays[i]
    ensures forall i :: 0 <= i < |r| && editId.Some? && pays[i].id == editId.value ==>
      r[i].date == d.date && r[i].amount == d.amount
  {
    Map(pays, UpdatedPayment(editId, d))
  }

  /** Editing a payment's amount moves the receivable by the difference (ids distinct). */
  lemma UpdatePaymentMovesReceivable(o: Order, k: nat, d: PaymentDraft)
    requires UniqueBy(o.payments, PaymentIdOf) && k < |o.payments|
    ensures Receivable(o.(payments := UpdatePayments(o.payments, Some(o.payments[k].id), d)))
         == Receivable(o) + o.payments[k].amount - d.amount
  {
    var pays := o.payments;
    var r := UpdatePayments(pays, Some(pays[k].id), d);
    forall j | 0 <= j < |pays| && j != k ensures pays[j].id != pays[k].id {
      if j < k {
        assert PaymentIdOf(pays[j]) != PaymentIdOf(pays[k]);
      } else {
        assert PaymentIdOf(pays[k]) != PaymentIdOf(pays[j]);
      }
    }
    assert pays == pays[..k] + [pays[k]] + pays[k + 1..];
    assert r == pays[..k] + [r[k]] + pays[k + 1..];
    SumConcat(pays[..k] + [pays[k]], pays[k + 1..], PaymentAmount);
    SumConcat(pays[..k], [pays[k]], PaymentAmount);
    SumConcat(pays[..k] + [r[k]], pays[k + 1..], PaymentAmount);
    SumConcat(pays[..k], [r[k]], PaymentAmount);
  }

  // ---------------------------------------------------------------------------
  // Submitting

  function NormalizedLine(e: Expense): (r: Expense)
    ensures r == e.(vendorPaymentStatus := r.vendorPaymentStatus) && r.vendorPaymentStatus != ""
    ensures e.vendorPaymentStatus != "" ==> r.vendorPaymentStatus == e.vendorPaymentStatus
    ensures e.vendorPaymentStatus == "" ==> r.vendorPaymentStatus == PAID
  {
    e.(vendorPaymentStatus := StatusOrPaid(e.vendorPaymentStatus))
  }

  /** `orderData`: every line gets a payment status ('paid' when absent), and the
      calculators' results are stored with the order. The stored figures agree
      with the stored order itself. */
  function Normalized(o: Order): (r: Order)
    ensures r.(expenses := o.expenses, receivable := o.receivable, profit := o.profit) == o
    ensures |r.expenses| == |o.expenses|
    ensures forall i :: 0 <= i < |r.expenses| ==>
      r.expenses[i] == o.expenses[i].(vendorPaymentStatus := r.expenses[i].vendorPaymentStatus) &&
      r.expenses[i].vendorPaymentStatus != "" &&
      (o.expenses[i].vendorPaymentStatus != "" ==> r.expenses[i].vendorPaymentStatus == o.expenses[i].vendorPaymentStatus) &&
      (o.expenses[i].vendorPaymentStatus == "" ==> r.expenses[i].vendorPaymentStatus == PAID)
    ensures r.receivable == Receivable(o) && r.receivable == Receivable(r)
    ensures r.profit == Profit(o) && r.profit == Profit(r)
  {
    var exps := Map(o.expenses, NormalizedLine);
    forall i | 0 <= i < |exps| ensures exps[i] == NormalizedLine(o.expenses[i]) && exps[i].amount == o.expenses[i].amount {
    }
    ProfitIgnoresPaymentsAndStatuses(o, o.payments, exps);
    o.(expenses := exps, receivable := Receivable(o), profit := Profit(o))
  }

  /** The update `updateOrder(id, orderData)` sends: every field of the form. */
  function FullPatch(o: Order): OrderPatch {
    OrderPatch(Some(o.id), Some(o.customerName), Some(o.customerPhone), Some(o.orderDescription),
               Some(o.orderDate), Some(o.orderTotal), Some(o.receivedDeliveryCharges),
               Some(o.paidDeliveryCharges), Some(o.isCompleted), Some(o.expenses), Some(o.payments),
               Some(o.receivable), Some(o.profit), Some(o.createdAt))
  }

  /** Saving an edited order stores exactly the form's order, stamped with the clock. */
  lemma FullPatchWritesForm(old_: Order, o: Order, now: nat)
    ensures ApplyOrderPatch(old_, FullPatch(o), now) == o.(updatedAt := now)
  {
  }

  /** After a submit the synchroniser sees a status on every vendor line, so
      each generated transaction carries the line's own status. */
  lemma SubmittedLinesCarryStatus(o: Order, vendors: seq<Vendor>, now: nat, k: nat)
    requires k < |o.expenses|
    ensures var n := Normalized(o);
      TransactionFor(n, n.expenses[k], k, vendors, now).status == n.expenses[k].vendorPaymentStatus
  {
  }

  // ---------------------------------------------------------------------------
  // The form state

  class Editor {
    var formData: Order
    var vendors: seq<Vendor>
    var newExpense: ExpenseDraft
    var newPayment: PaymentDraft
    var editExpenseId: Option<string>
    var editPaymentId: Option<nat>

    /** A new order dated `today`, with empty drafts and nothing being edited. */
    constructor (today: int, todayText: string)
      ensures formData == BlankOrder(today) && vendors == []
      ensures newExpense == BLANK_EXPENSE && newPayment == PaymentDraft(todayText, 0)
      ensures editExpenseId == None && editPaymentId == None
    {
      formData := BlankOrder(today);
      vendors := [];
      newExpense := BLANK_EXPENSE;
      newPayment := PaymentDraft(todayText, 0);
      editExpenseId := None;
      editPaymentId := None;
    }

    function CalculateReceivable(): int
      reads this
    {
      Receivable(formData)
    }

    function CalculateProfit(): int
      reads this
    {
      Profit(formData)
    }

    /** The load effect: the vendor list, and for an existing order, that order
        with every expense line given an id. An unknown id leaves the blank form. */
    method Load(id: string, orders: seq<Order>, storeVendors: seq<Vendor>, now: nat, random: nat -> string)
      modifies this`formData, this`vendors
      ensures vendors == storeVendors
      ensures id == "" || FindOrder(orders, id).None? ==> formData == old(formData)
      ensures id != "" && FindOrder(orders, id).Some? ==>
        var o := FindOrder(orders, id).value;
        formData == o.(expenses := BackfillIds(o.expenses, now, random)) &&
        CalculateProfit() == Profit(o) && CalculateReceivable() == Receivable(o)
    {
      vendors := storeVendors;
      if id != "" {
        var order := FindOrder(orders, id);
        if order.Some? {
          var o := order.value;
          BackfillKeepsAccounts(o, now, random);
          formData := o.(expenses := BackfillIds(o.expenses, now, random));
        }
      }
    }

    /** Appends the draft as a line, when it has a description and a positive
        amount, and clears the draft; otherwise nothing changes. */
    method HandleAddExpense(now: nat)
      modifies this`formData, this`newExpense
      ensures !CanAddExpense(old(newExpense)) ==> formData == old(formData) && newExpense == old(newExpense)
      ensures CanAddExpense(old(newExpense)) ==>
        var line := LineFromDraft(old(newExpense), NatToString(now), SelectedVendorName(vendors, old(newExpense.vendorId)));
        && formData == old(formData).(expenses := old(formData.expenses) + [line])
        && newExpense == BLANK_EXPENSE
        && CalculateProfit() == old(CalculateProfit()) - old(newExpense.amount)
        && CalculateReceivable() == old(CalculateReceivable())
    {
      if CanAddExpense(newExpense) {
        var line := LineFromDraft(newExpense, NatToString(now), SelectedVendorName(vendors, newExpense.vendorId));
        ProfitAfterExpense(formData, line);
        formData := formData.(expenses := formData.expenses + [line]);
        newExpense := BLANK_EXPENSE;
      }
    }

    method HandleRemoveExpense(expenseId: string)
      modifies this`formData
      ensures formData == old(formData).(expenses := RemoveLines(old(formData.expenses), expenseId))
    {
      formData := formData.(expenses := RemoveLines(formData.expenses, expenseId));
    }

    /** Appends the draft as a payment stamped with the clock, when its amount
        is positive, and resets the draft to today; otherwise nothing changes. */
    method HandleAddPayment(now: nat, today: string)
      modifies this`formData, this`newPayment
      ensures old(newPayment.amount) <= 0 ==> formData == old(formData) && newPayment == old(newPayment)
      ensures old(newPayment.amount) > 0 ==>
        && formData == old(formData).(payments := old(formData.payments) + [Payment(now, old(newPayment.date), old(newPayment.amount))])
        && newPayment == PaymentDraft(today, 0)
        && CalculateReceivable() == old(CalculateReceivable()) - old(newPayment.amount)
        && CalculateProfit() == old(CalculateProfit())
    {
      if newPayment.amount > 0 {
        var p := Payment(now, newPayment.date, newPayment.amount);
        ReceivableAfterPayment(formData, p);
        formData := formData.(payments := formData.payments + [p]);
        newPayment := PaymentDraft(today, 0);
      }
    }

    method HandleRemovePayment(paymentId: nat)
      modifies this`formData
      ensures formData == old(formData).(payments := RemovePayments(old(formData.payments), paymentId))
    {
      formData := formData.(payments := RemovePayments(formData.payments, paymentId));
    }

    method HandleEditExpense(e: Expense)
      modifies this`editExpenseId, this`newExpense
      ensures editExpenseId == Some(e.id) && newExpense == DraftOfLine(e)
    {
      editExpenseId := Some(e.id);
      newExpense := DraftOfLine(e);
    }

    /** Writes the draft into the line being edited (with no check on the
        draft), then leaves edit mode and clears the draft. */
    method HandleUpdateExpense()
      modifies this`formData, this`editExpenseId, this`newExpense
      ensures formData == old(formData).(expenses := UpdateLines(old(formData.expenses), old(editExpenseId), old(newExpense)))
      ensures editExpenseId == None && newExpense == BLANK_EXPENSE
    {
      formData := formData.(expenses := UpdateLines(formData.expenses, editExpenseId, newExpense));
      editExpenseId := None;
      newExpense := BLANK_EXPENSE;
    }

    method HandleEditPayment(p: Payment)
      modifies this`editPaymentId, this`newPayment
      ensures editPaymentId == Some(p.id) && newPayment == PaymentDraft(p.date, p.amount)
    {
      editPaymentId := Some(p.id);
      newPayment := PaymentDraft(p.date, p.amount);
    }

    method HandleUpdatePayment(today: string)
      modifies this`formData, this`editPaymentId, this`newPayment
      ensures formData == old(formData).(payments := UpdatePayments(old(formData.payments), old(editPaymentId), old(newPayment)))
      ensures editPaymentId == None && newPayment == PaymentDraft(today, 0)
    {
      formData := formData.(payments := UpdatePayments(formData.payments, editPaymentId, newPayment));
      editPaymentId := None;
      newPayment := PaymentDraft(today, 0);
    }

    /** `handleSubmit`: the normalised order goes to `updateOrder` when the
        route names an order, else to `addOrder`. */
    method HandleSubmit(store: Ledger, id: string, newId: string, now: nat)
      modifies store`orders, store`transactions
      ensures id != "" ==>
        && store.orders == UpdateOrders(old(store.orders), id, FullPatch(Normalized(formData)), now)
        && store.transactions == Sync(old(store.transactions), FindOrder(store.orders, id), store.vendors, now)
      ensures id == "" ==>
        && store.orders == old(store.orders) + [NewOrder(Normalized(formData), newId, now)]
        && store.transactions == Sync(old(store.transactions), Some(NewOrder(Normalized(formData), newId, now)), store.vendors, now)
    {
      var orderData := Normalized(formData);
      if id != "" {
        store.UpdateOrder(id, FullPatch(orderData), now);
      } else {
        var created := store.AddOrder(orderData, newId, now);
      }
    }
  }
}
