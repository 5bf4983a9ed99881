/** What the sums and balances of bills mean: sums add up over parts, in any order, and count just the bill's
    own notes and receipts; a bill owes one way. */
module BalanceLaws {
  import opened Wrappers
  import opened Balances

  // ---- receipts ----

  predicate IsReceiptOf(p: Payment, business: nat, id: nat) {
    p.business == business && p.invoice == id
  }

  lemma OneReceipt(p: Payment, business: nat, id: nat)
    ensures ReceiptsOf([], business, id) == None
    ensures ReceiptsOf([p], business, id) == if IsReceiptOf(p, business, id) then Some(p.amount) else None
  {
    assert [p][..0] == [];
  }

  lemma {:induction false} ReceiptsAddUp(a: seq<Payment>, b: seq<Payment>, business: nat, id: nat)
    ensures OrZero(ReceiptsOf(a + b, business, id)) == OrZero(ReceiptsOf(a, business, id)) + OrZero(ReceiptsOf(b, business, id))
    ensures ReceiptsOf(a + b, business, id).Some? <==> ReceiptsOf(a, business, id).Some? || ReceiptsOf(b, business, id).Some?
  {
    if b == [] {
      assert a + b == a;
    } else {
      ReceiptsAddUp(a, b[..|b| - 1], business, id);
      assert (a + b)[..|a + b| - 1] == a + b[..|b| - 1];
    }
  }

  /** There is a sum if and only if there is a receipt of that bill and business. */
  lemma {:induction false} ReceiptsAbsentIff(payments: seq<Payment>, business: nat, id: nat)
    ensures ReceiptsOf(payments, business, id).None? <==> forall p :: p in payments ==> !IsReceiptOf(p, business, id)
  {
    if payments != [] {
      var front, last := payments[..|payments| - 1], payments[|payments| - 1];
      ReceiptsAbsentIff(front, business, id);
      assert payments == front + [last] && last in payments;
      if forall p :: p in front ==> !IsReceiptOf(p, business, id) {
        if !IsReceiptOf(last, business, id) {
          assert forall p :: p in payments ==> p in front || p == last;
        }
      } else {
        var p :| p in front && IsReceiptOf(p, business, id);
        assert p in payments;
      }
    }
  }

  /** The order of the receipts does not matter. */
  lemma {:induction false} ReceiptsInAnyOrder(a: seq<Payment>, b: seq<Payment>, business: nat, id: nat)
    requires multiset(a) == multiset(b)
    ensures ReceiptsOf(a, business, id) == ReceiptsOf(b, business, id)
    decreases |a|
  {
    if a == [] {
      assert |multiset(b)| == 0 && b == [];
    } else {
      var last := a[|a| - 1];
      var b1, b2 := WithoutOne(a, b);
      ReceiptsInAnyOrder(a[..|a| - 1], b1 + b2, business, id);
      ReceiptsAddUp(b1, b2, business, id);
      ReceiptsAddUp(b1 + [last], b2, business, id);
      ReceiptsAddUp(b1, [last], business, id);
      OneReceipt(last, business, id);
    }
  }

  // ---- notes ----

  predicate IsNoteOf(inv: Invoice, business: nat, id: nat) {
    inv.business == business && inv.creditNote && inv.parent == Some(id)
  }

  lemma OneNote(inv: Invoice, business: nat, id: nat)
    ensures CreditsOf([], business, id) == 0
    ensures CreditsOf([inv], business, id) == if IsNoteOf(inv, business, id) then OrZero(inv.totalAmount) else 0
  {
    assert [inv][..0] == [];
  }

  lemma {:induction false} CreditsAddUp(a: seq<Invoice>, b: seq<Invoice>, business: nat, id: nat)
    ensures CreditsOf(a + b, business, id) == CreditsOf(a, business, id) + CreditsOf(b, business, id)
  {
    if b == [] {
      assert a + b == a;
    } else {
      CreditsAddUp(a, b[..|b| - 1], business, id);
      assert (a + b)[..|a + b| - 1] == a + b[..|b| - 1];
    }
  }

  lemma {:induction false} CreditsInAnyOrder(a: seq<Invoice>, b: seq<Invoice>, business: nat, id: nat)
    requires multiset(a) == multiset(b)
    ensures CreditsOf(a, business, id) == CreditsOf(b, business, id)
    decreases |a|
  {
    if a == [] {
      assert |multiset(b)| == 0 && b == [];
    } else {
      var last := a[|a| - 1];
      var b1, b2 := WithoutOne(a, b);
      CreditsInAnyOrder(a[..|a| - 1], b1 + b2, business, id);
      CreditsAddUp(b1, b2, business, id);
      CreditsAddUp(b1 + [last], b2, business, id);
      CreditsAddUp(b1, [last], business, id);
    }
  }

  // ---- a bill owes one way ----

  /** The sums of a bill: its total, or the legacy amount in place of none; its receipts, or the recorded
      payment in place of none; its notes. */
  ghost predicate Sums(db: Database, inv: Invoice, b: Balance) {
    && b.total == (if inv.totalAmount.Some? && inv.totalAmount.value != 0 then inv.totalAmount.value else OrZero(inv.amount))
    && (if exists p :: p in db.payments && IsReceiptOf(p, inv.business, inv.id)
        then ReceiptsOf(db.payments, inv.business, inv.id) == Some(b.paid)
        else b.paid == OrZero(inv.paidAmount))
    && b.credited == CreditsOf(db.invoices, inv.business, inv.id)
    && b.effective == if b.total >= b.credited then b.total - b.credited else 0
  }

  /** What a bill owes and what is owed back differ by what is still to pay of it, and are not both there;
      a note owes nothing. */
  lemma BalanceIsSettled(db: Database, inv: Invoice)
    ensures var b := BalanceOf(db, inv);
            && Sums(db, inv, b) && b.outstanding >= 0 && b.creditDue >= 0
            && (inv.creditNote ==> b.outstanding == 0 && b.creditDue == 0)
            && (!inv.creditNote ==> b.outstanding - b.creditDue == b.effective - b.paid && (b.outstanding == 0 || b.creditDue == 0))
  {
    ReceiptsAbsentIff(db.payments, inv.business, inv.id);
  }
}
