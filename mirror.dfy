/** The store's central invariant: the vendor ledger mirrors the vendor-tagged
    expense lines of the orders. For every order with an id, the entries the
    ledger holds for that order are exactly one per vendor-tagged line, in line
    order, with the line's vendor, expense id, description, amount and status.
    The lemmas below say which store operations keep it and which one
    (deleting a vendor) does not. */
module Mirror {
  import opened Seqs
  import opened Records
  import opened VendorSync
  import opened Store

  ghost predicate Mirrored(orders: seq<Order>, txs: seq<VendorTransaction>) {
    forall o :: o in orders && o.id != "" ==> Entries(OfOrder(txs, o.id)) == ExpectedEntries(o)
  }

  /** Distinct ids: what the clock-derived ids of the store are meant to give. */
  ghost predicate UniqueOrderIds(orders: seq<Order>) {
    UniqueBy(orders, OrderIdOf)
  }

  ghost predicate UniqueTransactionIds(txs: seq<VendorTransaction>) {
    UniqueBy(txs, TransactionIdOf)
  }

  ghost predicate UniqueLineIds(orders: seq<Order>) {
    forall o :: o in orders ==> UniqueBy(o.expenses, ExpenseIdOf)
  }

  // ---------------------------------------------------------------------------
  // Operations that keep the mirror

  /** `addOrder` with a fresh id keeps the mirror. */
  lemma AddOrderKeepsMirror(orders: seq<Order>, txs: seq<VendorTransaction>, order: Order, newId: string, vendors: seq<Vendor>, now: nat)
    requires Mirrored(orders, txs)
    requires newId != "" && forall o :: o in orders ==> o.id != newId
    ensures Mirrored(orders + [NewOrder(order, newId, now)], Sync(txs, Some(NewOrder(order, newId, now)), vendors, now))
  {
    var n := NewOrder(order, newId, now);
    var r := Sync(txs, Some(n), vendors, now);
    forall o | o in orders + [n] && o.id != "" ensures Entries(OfOrder(r, o.id)) == ExpectedEntries(o) {
      if o in orders {
        SyncKeepsOtherOrders(txs, Some(n), vendors, now, o.id);
      } else {
        ProjectMirrors(n, vendors, now);
      }
    }
  }

  /** `updateOrder` keeps the mirror when ids are distinct and the update does not change the id. */
  lemma UpdateOrderKeepsMirror(orders: seq<Order>, txs: seq<VendorTransaction>, id: string, p: OrderPatch, vendors: seq<Vendor>, now: nat)
    requires Mirrored(orders, txs) && UniqueOrderIds(orders)
    requires p.id.None? || p.id == Some(id)
    ensures var u := UpdateOrders(orders, id, p, now);
      Mirrored(u, Sync(txs, FindOrder(u, id), vendors, now))
  {
    var u := UpdateOrders(orders, id, p, now);
    var f := FindOrder(u, id);
    var r := Sync(txs, f, vendors, now);
    assert forall i :: 0 <= i < |u| ==> u[i].id == orders[i].id;
    assert forall i :: 0 <= i < |u| && orders[i].id != id ==> u[i] == orders[i];
    forall o | o in u && o.id != "" ensures Entries(OfOrder(r, o.id)) == ExpectedEntries(o) {
      var i :| 0 <= i < |u| && u[i] == o;
      if o.id == id {
        var j :| 0 <= j < |u| && u[j] == f.value;
        assert OrderIdOf(orders[i]) == OrderIdOf(orders[j]);
        assert j == i;
        ProjectMirrors(o, vendors, now);
      } else {
        assert o in orders;
        SyncKeepsOtherOrders(txs, f, vendors, now, o.id);
      }
    }
  }

  /** `toggleOrderCompletion` touches no expense line, so it keeps the mirror. */
  lemma ToggleKeepsMirror(orders: seq<Order>, txs: seq<VendorTransaction>, id: string, now: nat)
    requires Mirrored(orders, txs)
    ensures Mirrored(ToggleCompletion(orders, id, now), txs)
  {
    var t := ToggleCompletion(orders, id, now);
    forall o | o in t && o.id != "" ensures Entries(OfOrder(txs, o.id)) == ExpectedEntries(o) {
      var i :| 0 <= i < |t| && t[i] == o;
      assert ExpectedEntries(o) == ExpectedEntries(orders[i]);
    }
  }

  /** `deleteOrder` keeps the mirror for the orders that remain. */
  lemma DeleteOrderKeepsMirror(orders: seq<Order>, txs: seq<VendorTransaction>, id: string)
    requires Mirrored(orders, txs)
    ensures Mirrored(DeleteOrders(orders, id), RemoveByOrder(txs, id))
  {
    forall o | o in DeleteOrders(orders, id) && o.id != ""
      ensures Entries(OfOrder(RemoveByOrder(txs, id), o.id)) == ExpectedEntries(o)
    {
      FilterOfFilter(txs, NotBelongsTo(id), BelongsTo(o.id));
    }
  }

  /** `deleteOrder` removes exactly as many transactions as the order has vendor-tagged lines. */
  lemma DeleteOrderRemovesItsLines(orders: seq<Order>, txs: seq<VendorTransaction>, o: Order)
    requires Mirrored(orders, txs) && o in orders && o.id != ""
    ensures |txs| - |RemoveByOrder(txs, o.id)| == |Tagged(o.expenses)|
  {
    FilterSplitLength(txs, BelongsTo(o.id), NotBelongsTo(o.id));
    assert |Entries(OfOrder(txs, o.id))| == |ExpectedEntries(o)|;
  }

  /** Under the mirror, an order's transactions carry the amount of its vendor-tagged lines. */
  lemma MirroredAmounts(orders: seq<Order>, txs: seq<VendorTransaction>, o: Order)
    requires Mirrored(orders, txs) && o in orders && o.id != ""
    ensures Sum(OfOrder(txs, o.id), TransactionAmount) == Sum(Tagged(o.expenses), ExpenseAmount)
  {
    EntriesAmounts(OfOrder(txs, o.id));
    SumMap(Tagged(o.expenses), ExpectedEntry(o.id), EntryAmount, ExpenseAmount);
  }

  // ---------------------------------------------------------------------------
  // The status update

  lemma OfOrderAfterSetStatus(txs: seq<VendorTransaction>, tid: string, status: string, now: nat, orderId: string)
    ensures OfOrder(SetStatus(txs, tid, status, now), orderId) == Map(OfOrder(txs, orderId), WithStatusIf(tid, status, now))
  {
    FilterMapCommute(txs, WithStatusIf(tid, status, now), BelongsTo(orderId), BelongsTo(orderId));
  }

  lemma TaggedAfterPatch(exps: seq<Expense>, tx: VendorTransaction, status: string)
    ensures Tagged(Map(exps, PatchExpense(tx, status))) == Map(Tagged(exps), PatchExpense(tx, status))
  {
    FilterMapCommute(exps, PatchExpense(tx, status), HasVendor, HasVendor);
  }

  /** The order the transaction belongs to: after both writes its entries still match its lines. */
  lemma {:induction false} StatusKeepsOwnOrder(o: Order, txs: seq<VendorTransaction>, t0: VendorTransaction,
                                              status: string, now: nat)
    requires Entries(OfOrder(txs, o.id)) == ExpectedEntries(o)
    requires UniqueTransactionIds(txs) && UniqueBy(o.expenses, ExpenseIdOf)
    requires t0 in txs && t0.orderId == o.id && t0.expenseId != "" && status != ""
    ensures var tx := t0.(status := status, updatedAt := now);
      Entries(OfOrder(SetStatus(txs, t0.id, status, now), o.id)) ==
      ExpectedEntries(o.(expenses := Map(o.expenses, PatchExpense(tx, status)), updatedAt := now))
  {
    var tx := t0.(status := status, updatedAt := now);
    var F := WithStatusIf(t0.id, status, now);
    var G := PatchExpense(tx, status);
    var S := OfOrder(txs, o.id);
    var T := Tagged(o.expenses);
    OfOrderAfterSetStatus(txs, t0.id, status, now, o.id);
    TaggedAfterPatch(o.expenses, tx, status);
    FilterUniqueBy(txs, BelongsTo(o.id), TransactionIdOf);
    FilterUniqueBy(o.expenses, HasVendor, ExpenseIdOf);
    FilterMember(txs, BelongsTo(o.id), t0);
    var q :| 0 <= q < |S| && S[q] == t0;
    assert |S| == |T| by { assert |Entries(S)| == |ExpectedEntries(o)|; }
    assert EntryOf(S[q]) == ExpectedEntry(o.id)(T[q]) by { assert Entries(S)[q] == ExpectedEntries(o)[q]; }
    var lhs := Entries(Map(S, F));
    var rhs := Map(Map(T, G), ExpectedEntry(o.id));
    assert |lhs| == |rhs|;
    forall k | 0 <= k < |lhs| ensures lhs[k] == rhs[k] {
      assert Entries(S)[k] == ExpectedEntries(o)[k];
      assert EntryOf(S[k]) == ExpectedEntry(o.id)(T[k]);
      assert lhs[k] == EntryOf(F(S[k]));
      assert rhs[k] == ExpectedEntry(o.id)(G(T[k]));
      // the expense ids of T mirror the transactions' expense ids
      assert ExpenseIdOf(T[k]) == S[k].expenseId && ExpenseIdOf(T[q]) == t0.expenseId;
      if S[k].id == t0.id {
        assert TransactionIdOf(S[k]) == TransactionIdOf(S[q]);
        assert k == q;
        assert ExpenseMatches(T[k], tx);
        assert G(T[k]) == T[k].(vendorPaymentStatus := status);
        assert F(S[k]) == tx;
      } else {
        assert k != q;
        assert ExpenseIdOf(T[k]) != ExpenseIdOf(T[q]);
        assert !ExpenseMatches(T[k], tx);
        assert G(T[k]) == T[k];
        assert F(S[k]) == S[k];
      }
    }
    assert lhs == rhs;
  }

  /** `updateVendorTransactionStatus` keeps the mirror, provided ids are
      distinct, the transaction records its expense id and the new status is
      not empty (an empty one reads back as 'paid' on the order's line). */
  lemma StatusUpdateKeepsMirror(orders: seq<Order>, txs: seq<VendorTransaction>, tid: string, status: string, now: nat)
    requires Mirrored(orders, txs)
    requires UniqueOrderIds(orders) && UniqueTransactionIds(txs) && UniqueLineIds(orders)
    requires forall t :: t in txs && t.id == tid ==> t.expenseId != ""
    requires status != ""
    ensures var txs' := SetStatus(txs, tid, status, now);
      var orders' := match FindTransaction(txs', tid)
                     case None => orders
                     case Some(tx) => BackSync(orders, tx, status, now);
      Mirrored(orders', txs')
  {
    var txs' := SetStatus(txs, tid, status, now);
    var found := FindTransaction(txs', tid);
    if found.None? {
      assert forall t :: t in txs ==> t.id != tid by {
        forall t | t in txs ensures t.id != tid {
          var i :| 0 <= i < |txs| && txs[i] == t;
          assert txs'[i] in txs';
        }
      }
      SetStatusUnknownId(txs, tid, status, now);
    } else {
      var tx := found.value;
      var m :| 0 <= m < |txs'| && txs'[m] == tx;
      var t0 := txs[m];
      assert t0.id == tid;
      assert tx == t0.(status := status, updatedAt := now);
      var orders' := BackSync(orders, tx, status, now);
      forall o' | o' in orders' && o'.id != "" ensures Entries(OfOrder(txs', o'.id)) == ExpectedEntries(o') {
        var i :| 0 <= i < |orders'| && orders'[i] == o';
        var o := orders[i];
        assert o'.id == o.id;
        assert o in orders;
        if o.id == tx.orderId {
          assert o' == o.(expenses := Map(o.expenses, PatchExpense(tx, status)), updatedAt := now);
          StatusKeepsOwnOrder(o, txs, t0, status, now);
        } else {
          assert o' == o;
          OfOrderAfterSetStatus(txs, tid, status, now, o.id);
          var S := OfOrder(txs, o.id);
          FilterMember(txs, BelongsTo(o.id), t0);
          forall k | 0 <= k < |S| ensures S[k].id != tid {
            FilterMember(txs, BelongsTo(o.id), S[k]);
            var j :| 0 <= j < |txs| && txs[j] == S[k];
            assert j != m;
            assert TransactionIdOf(txs[j]) != TransactionIdOf(txs[m]);
          }
          assert Map(S, WithStatusIf(tid, status, now)) == S;
        }
      }
    }
  }

  // ---------------------------------------------------------------------------
  // The operation that does not keep it

  /** `deleteVendor` removes the vendor's transactions but leaves the orders'
      lines that name the vendor: while any order still has such a line, the
      mirror is broken afterwards. */
  lemma DeleteVendorBreaksMirror(orders: seq<Order>, txs: seq<VendorTransaction>, vendorId: string, o: Order, e: Expense)
    requires o in orders && o.id != "" && e in o.expenses && e.vendorId == vendorId && vendorId != ""
    ensures !Mirrored(orders, RemoveByVendor(txs, vendorId))
  {
    var r := RemoveByVendor(txs, vendorId);
    FilterMember(o.expenses, HasVendor, e);
    var T := Tagged(o.expenses);
    var k :| 0 <= k < |T| && T[k] == e;
    var S := OfOrder(r, o.id);
    assert ExpectedEntries(o)[k] == ExpectedEntry(o.id)(e);
    assert Entries(S) != ExpectedEntries(o) by {
      if |S| > k {
        FilterMember(r, BelongsTo(o.id), S[k]);
        assert Entries(S)[k] == EntryOf(S[k]);
        assert Entries(S)[k].vendorId != vendorId;
      }
    }
  }
}
