/** What a bill still owes, as the field service reads it from billing's tables. */
module Balances {
  import opened Wrappers

  /** A billing invoice or credit note, in paise; `parent` is the bill a note was given against. */
  datatype Invoice = Invoice(id: nat, business: nat, customer: Option<nat>, creditNote: bool, closed: bool,
                             parent: Option<nat>, totalAmount: Option<int>, amount: Option<int>, paidAmount: Option<int>)

  datatype Payment = Payment(business: nat, invoice: nat, amount: int)

  datatype Database = Database(invoices: seq<Invoice>, payments: seq<Payment>, customers: map<nat, nat>)

  datatype Balance = Balance(total: int, paid: int, credited: int, effective: int, outstanding: int, creditDue: int)

  function Max(a: int, b: int): int {
    if a >= b then a else b
  }

  /** A missing or zero total falls back to the legacy amount. */
  function InvoiceTotal(inv: Invoice): int {
    if OrZero(inv.totalAmount) != 0 then inv.totalAmount.value else OrZero(inv.amount)
  }

  function CreditsOf(rows: seq<Invoice>, business: nat, id: nat): int {
    if rows == [] then 0
    else
      var note := rows[|rows| - 1];
      CreditsOf(rows[..|rows| - 1], business, id) +
      if note.business == business && note.creditNote && note.parent == Some(id) then OrZero(note.totalAmount) else 0
  }

  /** The sum of a bill's receipts, if it has any. */
  function ReceiptsOf(payments: seq<Payment>, business: nat, id: nat): Option<int> {
    if payments == [] then None
    else
      var p, before := payments[|payments| - 1], ReceiptsOf(payments[..|payments| - 1], business, id);
      if p.business == business && p.invoice == id then Some(OrZero(before) + p.amount) else before
  }

  function FromSums(inv: Invoice, receipts: Option<int>, credited: int): Balance {
    var total := InvoiceTotal(inv);
    var paid := if receipts.Some? then receipts.value else OrZero(inv.paidAmount);
    var effective := Max(total - credited, 0);
    if inv.creditNote then Balance(total, paid, credited, effective, 0, 0)
    else Balance(total, paid, credited, effective, Max(effective - paid, 0), Max(paid - effective, 0))
  }

  /** The balance of one bill, from its own notes and receipts. */
  function BalanceOf(db: Database, inv: Invoice): Balance {
    FromSums(inv, ReceiptsOf(db.payments, inv.business, inv.id), CreditsOf(db.invoices, inv.business, inv.id))
  }

  // ---- the filter of the bill list, in SQL ----

  function NullIfZero(x: Option<int>): Option<int> {
    if x == Some(0) then None else x
  }

  function Coalesce(a: Option<int>, b: Option<int>): Option<int> {
    if a.Some? then a else b
  }

  function CurrentDue(db: Database, inv: Invoice): int {
    OrZero(Coalesce(NullIfZero(inv.totalAmount), inv.amount))
    - CreditsOf(db.invoices, inv.business, inv.id)
    - OrZero(Coalesce(ReceiptsOf(db.payments, inv.business, inv.id), inv.paidAmount))
  }

  /** The filter lists a bill as unpaid exactly when the bill owes something, unless the payments are
      negative and the returns overshoot the total by at least as much. */
  lemma FilterAgreesExactly(db: Database, inv: Invoice)
    requires !inv.creditNote
    ensures var b := BalanceOf(db, inv);
            (CurrentDue(db, inv) > 0 <==> b.outstanding > 0) <==> !(b.total - b.credited <= b.paid < 0)
  {
  }

  /** With payments that do not go below zero the filter and the balance always agree. */
  lemma FilterAgreesForRealPayments(db: Database, inv: Invoice)
    requires !inv.creditNote && BalanceOf(db, inv).paid >= 0
    ensures CurrentDue(db, inv) > 0 <==> BalanceOf(db, inv).outstanding > 0
  {
    FilterAgreesExactly(db, inv);
  }

  // ---- a whole list at once ----

  function Get(sums: map<nat, int>, id: nat): Option<int> {
    if id in sums then Some(sums[id]) else None
  }

  method SumCredits(rows: seq<Invoice>, business: nat, ids: set<nat>) returns (sums: map<nat, int>)
    ensures forall id :: id in ids ==> OrZero(Get(sums, id)) == CreditsOf(rows, business, id)
  {
    sums := map[];
    for i := 0 to |rows|
      invariant forall id :: id in ids ==> OrZero(Get(sums, id)) == CreditsOf(rows[..i], business, id)
    {
      var note := rows[i];
      assert rows[..i + 1][..i] == rows[..i];
      if note.business == business && note.creditNote && note.parent.Some? && note.parent.value in ids {
        sums := sums[note.parent.value := OrZero(Get(sums, note.parent.value)) + OrZero(note.totalAmount)];
      }
    }
    assert rows[..|rows|] == rows;
  }

  method SumReceipts(payments: seq<Payment>, business: nat, ids: set<nat>) returns (sums: map<nat, int>)
    ensures forall id :: id in ids ==> Get(sums, id) == ReceiptsOf(payments, business, id)
  {
    sums := map[];
    for i := 0 to |payments|
      invariant forall id :: id in ids ==> Get(sums, id) == ReceiptsOf(payments[..i], business, id)
    {
      var p := payments[i];
      assert payments[..i + 1][..i] == payments[..i];
      if p.business == business && p.invoice in ids {
        sums := sums[p.invoice := OrZero(Get(sums, p.invoice)) + p.amount];
      }
    }
    assert payments[..|payments|] == payments;
  }

  /** Ids tell invoices apart. */
  predicate UniqueInvoices(rows: seq<Invoice>) {
    forall i, j :: 0 <= i < |rows| && 0 <= j < |rows| && rows[i].id == rows[j].id ==> rows[i] == rows[j]
  }

  ghost predicate Grouped(invoices: seq<Invoice>, order: seq<nat>, groups: map<nat, seq<Invoice>>) {
    && (forall b :: b in order <==> b in groups)
    && (forall inv :: inv in invoices ==> inv.business in groups && inv in groups[inv.business])
    && (forall b, inv :: b in groups && inv in groups[b] ==> inv in invoices && inv.business == b)
  }

  method GroupByBusiness(invoices: seq<Invoice>) returns (order: seq<nat>, groups: map<nat, seq<Invoice>>)
    ensures Grouped(invoices, order, groups)
  {
    order, groups := [], map[];
    for i := 0 to |invoices|
      invariant Grouped(invoices[..i], order, groups)
    {
      var inv := invoices[i];
      assert invoices[..i + 1] == invoices[..i] + [inv];
      if inv.business !in groups {
        order, groups := order + [inv.business], groups[inv.business := []];
      }
      groups := groups[inv.business := groups[inv.business] + [inv]];
    }
    assert invoices[..|invoices|] == invoices;
  }

  /** The balances of the invoices, by id. */
  ghost predicate BalancesOf(db: Database, invoices: seq<Invoice>, balances: map<nat, Balance>) {
    && (forall inv :: inv in invoices ==> inv.id in balances && balances[inv.id] == BalanceOf(db, inv))
    && (forall id :: id in balances ==> exists inv :: inv in invoices && inv.id == id)
  }

  /** The balances of the invoices of one business. */
  method BusinessBalances(db: Database, business: nat, rows: seq<Invoice>) returns (balances: map<nat, Balance>)
    requires UniqueInvoices(rows) && forall inv :: inv in rows ==> inv.business == business
    ensures BalancesOf(db, rows, balances)
  {
    var ids := set inv | inv in rows :: inv.id;
    var credits := SumCredits(db.invoices, business, ids);
    var receipts := SumReceipts(db.payments, business, ids);
    balances := map[];
    for i := 0 to |rows|
      invariant BalancesOf(db, rows[..i], balances)
    {
      var inv := rows[i];
      assert rows[..i + 1] == rows[..i] + [inv];
      assert inv in rows && inv.id in ids;
      assert forall other :: other in rows[..i] && other.id == inv.id ==> other == inv;
      var b := FromSums(inv, Get(receipts, inv.id), OrZero(Get(credits, inv.id)));
      assert b == BalanceOf(db, inv);
      balances := balances[inv.id := b];
    }
    assert rows[..|rows|] == rows;
  }

  lemma SomeAreUnique(invoices: seq<Invoice>, rows: seq<Invoice>)
    requires UniqueInvoices(invoices) && forall inv :: inv in rows ==> inv in invoices
    ensures UniqueInvoices(rows)
  {
    forall j, k | 0 <= j < |rows| && 0 <= k < |rows| && rows[j].id == rows[k].id
      ensures rows[j] == rows[k]
    {
      assert rows[j] in rows && rows[k] in rows;
    }
  }

  lemma SomeBalances(db: Database, invoices: seq<Invoice>, rows: seq<Invoice>, some: map<nat, Balance>)
    requires UniqueInvoices(invoices) && BalancesOf(db, rows, some) && forall inv :: inv in rows ==> inv in invoices
    ensures forall inv :: inv in invoices && inv.id in some ==> some[inv.id] == BalanceOf(db, inv)
    ensures forall id :: id in some ==> exists inv :: inv in invoices && inv.id == id
  {
    forall inv | inv in invoices && inv.id in some
      ensures some[inv.id] == BalanceOf(db, inv)
    {
      var row :| row in rows && row.id == inv.id;
      assert row == inv;
    }
  }

  /** The batch gives every invoice the balance it has on its own. */
  method InvoiceBalances(db: Database, invoices: seq<Invoice>) returns (balances: map<nat, Balance>)
    requires UniqueInvoices(invoices)
    ensures BalancesOf(db, invoices, balances)
  {
    var order, groups := GroupByBusiness(invoices);
    balances := map[];
    for i := 0 to |order|
      invariant forall inv :: inv in invoices && inv.business in order[..i] ==> inv.id in balances
      invariant forall inv :: inv in invoices && inv.id in balances ==> balances[inv.id] == BalanceOf(db, inv)
      invariant forall id :: id in balances ==> exists inv :: inv in invoices && inv.id == id
    {
      var rows := groups[order[i]];
      SomeAreUnique(invoices, rows);
      var some := BusinessBalances(db, order[i], rows);
      SomeBalances(db, invoices, rows, some);
      assert order[..i + 1] == order[..i] + [order[i]];
      balances := balances + some;
    }
    assert order[..|order|] == order;
  }
}
