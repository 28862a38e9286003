/** The owner-funds page: the deposit and withdrawal totals and the submit
    handler, which either updates the fund transaction being edited or adds a
    new one. The amount text has already been converted to a number; the
    start of the chosen day and the clock are parameters. */
module FundsPage {
  import opened Seqs
  import opened Records
  import opened Store

  predicate IsDeposit(f: FundTransaction) { f.kind == DEPOSIT }
  predicate IsWithdrawal(f: FundTransaction) { f.kind == WITHDRAW }
  predicate IsOtherKind(f: FundTransaction) { f.kind != DEPOSIT && f.kind != WITHDRAW }
  predicate NotDeposit(f: FundTransaction) { f.kind != DEPOSIT }
  predicate NotWithdrawal(f: FundTransaction) { f.kind != WITHDRAW }

  ghost predicate NonNegativeAmounts(funds: seq<FundTransaction>) {
    forall i :: 0 <= i < |funds| ==> funds[i].amount >= 0
  }

  /** Money the owner put in: the amounts of the 'deposit' transactions. */
  function TotalDeposits(funds: seq<FundTransaction>): (r: int)
    ensures NonNegativeAmounts(funds) ==> 0 <= r <= Sum(funds, FundAmount)
  {
    FilteredAmountBound(funds, IsDeposit);
    Sum(Filter(funds, IsDeposit), FundAmount)
  }

  /** Money the owner took out: the amounts of the 'withdraw' transactions. */
  function TotalWithdrawals(funds: seq<FundTransaction>): (r: int)
    ensures NonNegativeAmounts(funds) ==> 0 <= r <= Sum(funds, FundAmount)
  {
    FilteredAmountBound(funds, IsWithdrawal);
    Sum(Filter(funds, IsWithdrawal), FundAmount)
  }

  lemma FilteredAmountBound(funds: seq<FundTransaction>, p: FundTransaction -> bool)
    ensures NonNegativeAmounts(funds) ==> 0 <= Sum(Filter(funds, p), FundAmount) <= Sum(funds, FundAmount)
  {
    if NonNegativeAmounts(funds) {
      SumFilterBound(funds, p, FundAmount);
    }
  }

  function NetFunds(funds: seq<FundTransaction>): int {
    TotalDeposits(funds) - TotalWithdrawals(funds)
  }

  /** Deposits, withdrawals and the transactions of any other type split the
      sum of all amounts: a transaction of another type counts toward neither total. */
  lemma {:induction false} TotalsSplitAllFunds(funds: seq<FundTransaction>)
    ensures TotalDeposits(funds) + TotalWithdrawals(funds) + Sum(Filter(funds, IsOtherKind), FundAmount)
            == Sum(funds, FundAmount)
  {
    SumFilterSplit(funds, IsDeposit, NotDeposit, FundAmount);
    FilterOfFilter(funds, NotDeposit, IsWithdrawal);
    FilterOfFilter(funds, NotDeposit, IsOtherKind);
    var rest := Filter(funds, NotDeposit);
    FilterMembers(funds, NotDeposit);
    assert forall i :: 0 <= i < |rest| ==> NotWithdrawal(rest[i]) == IsOtherKind(rest[i]) by {
      forall i | 0 <= i < |rest| ensures NotWithdrawal(rest[i]) == IsOtherKind(rest[i]) {
        assert rest[i] in rest;
      }
    }
    FilterAgree(rest, NotWithdrawal, IsOtherKind);
    SumFilterSplit(rest, IsWithdrawal, NotWithdrawal, FundAmount);
  }

  /** With no transactions both totals are 0, and one more transaction adds its
      amount to the deposits when it is a 'deposit', to the withdrawals when it
      is a 'withdraw', and to neither otherwise; together these fix both totals
      on every list. */
  lemma TotalsAfterAppend(funds: seq<FundTransaction>, f: FundTransaction)
    ensures TotalDeposits([]) == 0 && TotalWithdrawals([]) == 0
    ensures TotalDeposits(funds + [f]) == TotalDeposits(funds) + (if IsDeposit(f) then f.amount else 0)
    ensures TotalWithdrawals(funds + [f]) == TotalWithdrawals(funds) + (if IsWithdrawal(f) then f.amount else 0)
  {
    FilterConcat(funds, [f], IsDeposit);
    FilterConcat(funds, [f], IsWithdrawal);
    SumConcat(Filter(funds, IsDeposit), Filter([f], IsDeposit), FundAmount);
    SumConcat(Filter(funds, IsWithdrawal), Filter([f], IsWithdrawal), FundAmount);
  }

  /** Recording one more transaction moves the net by its signed amount. */
  lemma NetAfterAppend(funds: seq<FundTransaction>, f: FundTransaction)
    ensures NetFunds(funds + [f]) ==
      NetFunds(funds) + (if IsDeposit(f) then f.amount else if IsWithdrawal(f) then -f.amount else 0)
  {
    TotalsAfterAppend(funds, f);
  }

  // ---------------------------------------------------------------------------
  // The form

  /** The form fields; `amountText` is the raw input, `amount` its value. */
  datatype FundForm = FundForm(kind: string, description: string, amountText: string, amount: int, date: string)

  /** The page state a submit reads and writes; `editFundId` "" is null. */
  datatype FundsState = FundsState(form: FundForm, editFundId: string)

  /** The form after a submit: a deposit for today, with empty fields. */
  function EmptyForm(today: string): FundForm {
    FundForm(DEPOSIT, "", "", 0, today)
  }

  /** `formData.date ? <start of that day> : <now>`. */
  function ChosenCreatedAt(form: FundForm, dayStart: nat, now: nat): nat {
    if form.date != "" then dayStart else now
  }

  /** The update `{ ...formData, amount, createdAt }` sends for the edited transaction. */
  function FormPatch(form: FundForm, createdAt: nat): FundPatch {
    FundPatch(None, Some(form.kind), Some(form.description), Some(form.amount), Some(form.date), Some(createdAt))
  }

  /** The record `{ ...formData, amount, createdAt }` handed to `addFundTransaction`. */
  function FormRecord(form: FundForm, createdAt: nat): FundTransaction {
    FundTransaction("", form.kind, form.description, form.amount, form.date, createdAt, 0)
  }

  datatype Submitted = Submitted(funds: seq<FundTransaction>, state: FundsState)

  /** `handleSubmit` followed by the store call it makes. */
  function Submit(funds: seq<FundTransaction>, s: FundsState, dayStart: nat, newId: string, now: nat, today: string): (r: Submitted)
    ensures s.form.description == "" || s.form.amountText == "" ==> r == Submitted(funds, s)
    ensures s.form.description != "" && s.form.amountText != "" ==>
      && r.state == FundsState(EmptyForm(today), "")
      && (s.editFundId != "" ==>
            && |r.funds| == |funds|
            && (forall i :: 0 <= i < |funds| && funds[i].id != s.editFundId ==> r.funds[i] == funds[i])
            && (forall i :: 0 <= i < |funds| && funds[i].id == s.editFundId ==>
                  && r.funds[i].id == funds[i].id
                  && r.funds[i].kind == s.form.kind && r.funds[i].description == s.form.description
                  && r.funds[i].amount == s.form.amount && r.funds[i].date == s.form.date
                  && r.funds[i].createdAt == ChosenCreatedAt(s.form, dayStart, now)))
      && (s.editFundId == "" ==>
            && |r.funds| == |funds| + 1 && r.funds[..|funds|] == funds
            && r.funds[|funds|].id == newId
            && r.funds[|funds|].kind == s.form.kind && r.funds[|funds|].description == s.form.description
            && r.funds[|funds|].amount == s.form.amount && r.funds[|funds|].date == s.form.date
            // the store stamps a new transaction with the clock, not with the chosen day
            && r.funds[|funds|].createdAt == now)
  {
    if s.form.description == "" || s.form.amountText == "" then Submitted(funds, s)
    else
      var createdAt := ChosenCreatedAt(s.form, dayStart, now);
      var reset := FundsState(EmptyForm(today), "");
      if s.editFundId != "" then
        Submitted(UpdateFunds(funds, s.editFundId, FormPatch(s.form, createdAt), now), reset)
      else
        Submitted(funds + [NewFund(FormRecord(s.form, createdAt), newId, now)], reset)
  }
}
