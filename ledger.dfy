/**
 * The balance ledger over values: sums of log amounts, the application of
 * log entries to supplier balances, and the invariants that make the stored
 * balance a cache of the ledger and `balanceDeductedAt` the record of an
 * outstanding deduction.
 */
module Ledger {
  import opened Wrappers
  import opened Domain

  /** The part of entry `e` that concerns supplier `s`. */
  function AmountFor(e: BalanceLog, s: Id): int {
    if e.supplierId == s then e.changeAmount else 0
  }

  /** The part of entry `e` that concerns order `o` at supplier `s`. */
  function OrderAmountFor(e: BalanceLog, o: Id, s: Id): int {
    if e.orderId == Some(o) && e.supplierId == s then e.changeAmount else 0
  }

  /** Sum of the amounts logged against supplier `s`. */
  function SupplierTotal(logs: seq<BalanceLog>, s: Id): int {
    if logs == [] then 0
    else SupplierTotal(logs[..|logs| - 1], s) + AmountFor(logs[|logs| - 1], s)
  }

  /** Sum of the amounts logged for order `o` against supplier `s`. */
  function OrderTotal(logs: seq<BalanceLog>, o: Id, s: Id): int {
    if logs == [] then 0
    else OrderTotal(logs[..|logs| - 1], o, s) + OrderAmountFor(logs[|logs| - 1], o, s)
  }

  predicate EntriesAt(sups: map<Id, Supplier>, entries: seq<BalanceLog>) {
    forall i :: 0 <= i < |entries| ==> entries[i].supplierId in sups
  }

  /** The balances after adding entry `e`'s amount to its supplier's balance. */
  function Credit(sups: map<Id, Supplier>, e: BalanceLog): (r: map<Id, Supplier>)
    requires e.supplierId in sups
    ensures r.Keys == sups.Keys
  {
    sups[e.supplierId := sups[e.supplierId].(diamondBalance := sups[e.supplierId].diamondBalance + e.changeAmount)]
  }

  /** The balances after applying each entry's amount to its supplier, in order. */
  function Credited(sups: map<Id, Supplier>, entries: seq<BalanceLog>): (r: map<Id, Supplier>)
    requires EntriesAt(sups, entries)
    ensures r.Keys == sups.Keys
  {
    if entries == [] then sups
    else Credit(Credited(sups, entries[..|entries| - 1]), entries[|entries| - 1])
  }

  /** Crediting one or two entries is applying them one after the other. */
  lemma CreditedShort(sups: map<Id, Supplier>, a: BalanceLog, b: BalanceLog)
    requires a.supplierId in sups && b.supplierId in sups
    ensures EntriesAt(sups, [a]) && EntriesAt(sups, [a, b])
    ensures Credited(sups, [a]) == Credit(sups, a)
    ensures Credited(sups, [a, b]) == Credit(Credit(sups, a), b)
  {
    assert [a, b][..1] == [a];
    assert [a][..0] == [];
  }

  lemma {:induction false} SupplierTotalConcat(a: seq<BalanceLog>, b: seq<BalanceLog>, s: Id)
    ensures SupplierTotal(a + b, s) == SupplierTotal(a, s) + SupplierTotal(b, s)
  {
    if b == [] {
      assert a + b == a;
    } else {
      assert (a + b)[..|a + b| - 1] == a + b[..|b| - 1];
      SupplierTotalConcat(a, b[..|b| - 1], s);
    }
  }

  lemma {:induction false} OrderTotalConcat(a: seq<BalanceLog>, b: seq<BalanceLog>, o: Id, s: Id)
    ensures OrderTotal(a + b, o, s) == OrderTotal(a, o, s) + OrderTotal(b, o, s)
  {
    if b == [] {
      assert a + b == a;
    } else {
      assert (a + b)[..|a + b| - 1] == a + b[..|b| - 1];
      OrderTotalConcat(a, b[..|b| - 1], o, s);
    }
  }

  /** Appending two entries one at a time appends the pair. */
  lemma AppendTwo(logs: seq<BalanceLog>, a: BalanceLog, b: BalanceLog)
    ensures logs + [a] + [b] == logs + [a, b]
  {
  }

  /** The sums over one or two entries, entry by entry. */
  lemma ShortTotals(a: BalanceLog, b: BalanceLog, o: Id, s: Id)
    ensures SupplierTotal([a], s) == AmountFor(a, s)
    ensures SupplierTotal([a, b], s) == AmountFor(a, s) + AmountFor(b, s)
    ensures OrderTotal([a], o, s) == OrderAmountFor(a, o, s)
    ensures OrderTotal([a, b], o, s) == OrderAmountFor(a, o, s) + OrderAmountFor(b, o, s)
  {
    assert [a, b][..1] == [a];
    assert [a][..0] == [];
  }

  /** Entries none of which is against `s` sum to zero for `s`. */
  lemma {:induction false} SupplierTotalAbsent(logs: seq<BalanceLog>, s: Id)
    requires forall i :: 0 <= i < |logs| ==> logs[i].supplierId != s
    ensures SupplierTotal(logs, s) == 0
  {
    if logs != [] {
      SupplierTotalAbsent(logs[..|logs| - 1], s);
    }
  }

  /** Entries none of which names order `o` sum to zero for `o`. */
  lemma {:induction false} OrderTotalAbsent(logs: seq<BalanceLog>, o: Id, s: Id)
    requires forall i :: 0 <= i < |logs| ==> logs[i].orderId != Some(o)
    ensures OrderTotal(logs, o, s) == 0
  {
    if logs != [] {
      OrderTotalAbsent(logs[..|logs| - 1], o, s);
    }
  }

  /**
   * Applying entries moves every supplier's balance by exactly the sum of
   * the entries against that supplier, and changes nothing else.
   */
  lemma {:induction false} CreditedBalance(sups: map<Id, Supplier>, entries: seq<BalanceLog>, s: Id)
    requires EntriesAt(sups, entries)
    requires s in sups
    ensures Credited(sups, entries)[s] == sups[s].(diamondBalance := sups[s].diamondBalance + SupplierTotal(entries, s))
  {
    if entries != [] {
      CreditedBalance(sups, entries[..|entries| - 1], s);
    }
  }

  // ---------------------------------------------------------------------------
  // Invariants of the store
  // ---------------------------------------------------------------------------

  /** What order `ord` currently holds from supplier `s`: minus its price when deducted there. */
  function Outstanding(ord: Order, s: Id): int {
    if ord.balanceDeductedAt.Some? && ord.supplierId == s then -ord.diamondPrice else 0
  }

  /** Every stored balance equals the sum of the ledger entries for it. */
  ghost predicate BalancesMatchLedger(sups: map<Id, Supplier>, logs: seq<BalanceLog>) {
    forall s :: s in sups ==> sups[s].diamondBalance == SupplierTotal(logs, s)
  }

  /**
   * For every order and supplier, the ledger entries naming the order net to
   * what the order holds from that supplier: minus the price at its current
   * supplier while `balanceDeductedAt` is set, and zero everywhere else.
   */
  ghost predicate DeductionsRecorded(orders: map<Id, Order>, logs: seq<BalanceLog>) {
    forall o, s :: o in orders ==> OrderTotal(logs, o, s) == Outstanding(orders[o], s)
  }

  /** `balanceDeductedAt` is set exactly on the orders whose status is neither REFUNDED nor FAILED. */
  ghost predicate FlagTracksStatus(orders: map<Id, Order>) {
    forall o :: o in orders ==> (orders[o].balanceDeductedAt.Some? <==> !IsReleasing(orders[o].status))
  }

  ghost predicate PricesPositive(orders: map<Id, Order>) {
    forall o :: o in orders ==> orders[o].diamondPrice > 0
  }

  ghost predicate NoZeroEntries(logs: seq<BalanceLog>) {
    forall i :: 0 <= i < |logs| ==> logs[i].changeAmount != 0
  }

  ghost predicate Balanced(sups: map<Id, Supplier>, orders: map<Id, Order>, logs: seq<BalanceLog>) {
    && BalancesMatchLedger(sups, logs)
    && DeductionsRecorded(orders, logs)
    && FlagTracksStatus(orders)
    && PricesPositive(orders)
    && NoZeroEntries(logs)
  }

  /**
   * Appending entries and applying them to the balances keeps the balances
   * equal to the ledger.
   */
  lemma AppendKeepsBalancesMatched(sups: map<Id, Supplier>, logs: seq<BalanceLog>, entries: seq<BalanceLog>)
    requires BalancesMatchLedger(sups, logs)
    requires EntriesAt(sups, entries)
    ensures BalancesMatchLedger(Credited(sups, entries), logs + entries)
  {
    forall s | s in Credited(sups, entries)
      ensures Credited(sups, entries)[s].diamondBalance == SupplierTotal(logs + entries, s)
    {
      CreditedBalance(sups, entries, s);
      SupplierTotalConcat(logs, entries, s);
    }
  }
}
