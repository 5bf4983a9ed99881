/** What a start makes of one invoice, said in amounts, and what payments add up to over the years. */
module PaidRules {
  import opened Wrappers
  import opened PaidState

  // ---- one invoice ----

  predicate IsReceiptOf(p: Payment, inv: Invoice) {
    p.invoice == inv.id && p.business == inv.business
  }

  lemma OneReceipt(inv: Invoice, p: Payment)
    ensures Ledger([], inv) == None
    ensures Ledger([p], inv) == if IsReceiptOf(p, inv) then Some(p.amount) else None
  {
    assert [p][..0] == [];
  }

  /** The receipts of two lists come to the sum of both. */
  lemma {:induction false} LedgersAddUp(a: seq<Payment>, b: seq<Payment>, inv: Invoice)
    ensures OrZero(Ledger(a + b, inv)) == OrZero(Ledger(a, inv)) + OrZero(Ledger(b, inv))
    ensures Ledger(a + b, inv).None? <==> Ledger(a, inv).None? && Ledger(b, inv).None?
  {
    if b == [] {
      assert a + b == a;
    } else {
      var n := |b| - 1;
      LedgersAddUp(a, b[..n], inv);
      assert (a + b)[..|a + b| - 1] == a + b[..n];
    }
  }

  /** An invoice has a ledger exactly when there is a receipt of it. */
  lemma {:induction false} HasLedgerIff(payments: seq<Payment>, inv: Invoice)
    ensures Ledger(payments, inv).Some? <==> exists k :: 0 <= k < |payments| && IsReceiptOf(payments[k], inv)
  {
    if payments != [] {
      var n := |payments| - 1;
      HasLedgerIff(payments[..n], inv);
      assert forall k :: 0 <= k < n ==> payments[..n][k] == payments[k];
    }
  }

  /** The total, in its absence the older amount, in the absence of both nothing. */
  predicate Charges(inv: Invoice, total: int) {
    inv.total == Some(total) || (inv.total == None && (inv.amount == Some(total) || (inv.amount == None && total == 0)))
  }

  predicate Records(inv: Invoice, paid: int) {
    inv.paid == Some(paid) || (inv.paid == None && paid == 0)
  }

  predicate IsStatus(status: Option<string>, paid: int, total: int) {
    || (status == Some("Paid") && 0 < total <= paid)
    || (status == Some("Partial") && paid > 0 && !(0 < total <= paid))
    || (status == Some("Pending") && paid <= 0)
  }

  /** What a start does to an invoice whose receipts come to `ledger`, when it charges `total` and records
      `paid`. */
  ghost predicate Settles(inv: Invoice, after: Invoice, ledger: int, total: int, paid: int) {
    if ledger > total + 1 || ledger < paid - 1 then after == inv
    else if ledger > paid + 1 then IsStatus(after.status, ledger, total) && after == inv.(paid := Some(ledger), status := after.status)
    else IsStatus(after.status, paid, total) && after == inv.(status := after.status)
  }

  /** Each invoice after a start: those without receipts as they were, the others as their receipts say. */
  lemma StartsRepairEach(payments: seq<Payment>, invoices: seq<Invoice>, i: nat, total: int, paid: int)
    requires i < |invoices| && Charges(invoices[i], total) && Records(invoices[i], paid)
    ensures |RepairedAll(payments, invoices)| == |invoices|
    ensures var inv, after := invoices[i], RepairedAll(payments, invoices)[i];
            match Ledger(payments, inv)
            case None => after == inv && !IsOver(payments, inv) && !IsUnder(payments, inv)
            case Some(ledger) =>
              && Settles(inv, after, ledger, total, paid)
              && (IsOver(payments, inv) <==> ledger > total + 1)
              && (IsUnder(payments, inv) <==> ledger <= total + 1 && ledger < paid - 1)
  {
  }

  // ---- over the years ----

  /** The histories leave no edit out: some event writes any header that keeps its id and business. */
  lemma AnyHeaderCanBeWritten(h: History, i: nat, now: Invoice)
    requires i < |h.invoices| && now.id == h.invoices[i].id && now.business == h.invoices[i].business
    ensures exists e :: Writes(e, i) && Next(h, e) == h.(invoices := h.invoices[i := now])
  {
    var e := Edit(i, now.total, now.amount, now.paid, now.status);
    assert Writes(e, i) && Next(h, e) == h.(invoices := h.invoices[i := now]);
  }

  /** What was paid on the `i`th invoice. */
  function PaidOn(es: seq<Event>, i: nat): int {
    if es == [] then 0
    else
      var e := es[|es| - 1];
      PaidOn(es[..|es| - 1], i) + if e.Pay? && e.i == i then e.amount else 0
  }

  lemma NextAddsThePayment(h: History, e: Event, i: nat)
    requires i < |h.invoices| && ThroughPayments([e], h.invoices[i], i, if e.Pay? then e.baseline else 0)
    requires forall j, k :: 0 <= j < k < |h.invoices| ==> h.invoices[j].id != h.invoices[k].id
    ensures OrZero(Ledger(Next(h, e).payments, h.invoices[i])) ==
            OrZero(Ledger(h.payments, h.invoices[i])) + if e.Pay? && e.i == i then e.amount else 0
  {
    assert [e][0] == e;
    match e
    case Receive(p) => OtherPayment(h.payments, p, h.invoices[i]);
    case Pay(j, amount, _, _) =>
      if j < |h.invoices| {
        OtherPayment(h.payments, Payment(h.invoices[j].id, h.invoices[j].business, amount), h.invoices[i]);
      }
    case _ =>
  }

  /** Over any history an invoice that only payments write records what it recorded at first and every
      payment on it: none is lost, none counted twice, and no start changes that. */
  lemma {:induction false} EveryPaymentCounts(h: History, es: seq<Event>, i: nat, baseline: int)
    requires i < |h.invoices| && Booked(h, i, baseline) && ThroughPayments(es, h.invoices[i], i, baseline)
    requires forall j, k :: 0 <= j < k < |h.invoices| ==> h.invoices[j].id != h.invoices[k].id
    requires baseline >= -1
    ensures |After(h, es).invoices| == |h.invoices|
    ensures Recorded(After(h, es).invoices[i]) == Recorded(h.invoices[i]) + PaidOn(es, i)
  {
    PaymentsStayBooked(h, es, i, baseline);
    LedgerGrowsByPayments(h, es, i, baseline);
    IdsStay(h, es, i);
    SameLedger(After(h, es).payments, h.invoices[i], After(h, es).invoices[i]);
  }

  lemma {:induction false} LedgerGrowsByPayments(h: History, es: seq<Event>, i: nat, baseline: int)
    requires i < |h.invoices| && ThroughPayments(es, h.invoices[i], i, baseline)
    requires forall j, k :: 0 <= j < k < |h.invoices| ==> h.invoices[j].id != h.invoices[k].id
    ensures OrZero(Ledger(After(h, es).payments, h.invoices[i])) == OrZero(Ledger(h.payments, h.invoices[i])) + PaidOn(es, i)
  {
    if es != [] {
      var front, e := es[..|es| - 1], es[|es| - 1];
      assert forall k :: 0 <= k < |front| ==> front[k] == es[k];
      LedgerGrowsByPayments(h, front, i, baseline);
      IdsStay(h, front, i);
      forall j: nat | j < |h.invoices|
        ensures After(h, front).invoices[j].id == h.invoices[j].id && After(h, front).invoices[j].business == h.invoices[j].business
      {
        IdsStay(h, front, j);
      }
      var mid := After(h, front);
      NextAddsThePayment(mid, e, i);
      SameLedger(mid.payments, h.invoices[i], mid.invoices[i]);
      SameLedger(Next(mid, e).payments, h.invoices[i], mid.invoices[i]);
    }
  }
}
