/** Raising the paid state of invoices to what their receipts evidence. */
module PaidState {
  import opened Wrappers

  /** Rounding noise, in paise. */
  const NOISE := 1

  datatype Invoice = Invoice(id: nat, business: nat, total: Option<int>, amount: Option<int>, paid: Option<int>,
                             status: Option<string>)

  datatype Payment = Payment(invoice: nat, business: nat, amount: int)

  function Grand(inv: Invoice): int {
    if inv.total.Some? then inv.total.value else OrZero(inv.amount)
  }

  function Recorded(inv: Invoice): int {
    OrZero(inv.paid)
  }

  /** What the receipts of an invoice add up to; none when it has no receipt. */
  function Ledger(payments: seq<Payment>, inv: Invoice): Option<int> {
    if payments == [] then None
    else
      var p, before := payments[|payments| - 1], Ledger(payments[..|payments| - 1], inv);
      if p.invoice == inv.id && p.business == inv.business then Some(OrZero(before) + p.amount) else before
  }

  function StatusFor(paid: int, total: int): string {
    if total > 0 && paid >= total then "Paid" else if paid > 0 then "Partial" else "Pending"
  }

  /** The receipts exceed the invoice: one of them is probably on the wrong invoice. */
  predicate OverLedger(inv: Invoice, ledger: int) {
    ledger > Grand(inv) + NOISE
  }

  /** The receipts fall short of what is recorded, for whatever reason. */
  predicate UnderLedger(inv: Invoice, ledger: int) {
    !OverLedger(inv, ledger) && ledger < Recorded(inv) - NOISE
  }

  predicate IsOver(payments: seq<Payment>, inv: Invoice) {
    var ledger := Ledger(payments, inv);
    ledger.Some? && OverLedger(inv, ledger.value)
  }

  predicate IsUnder(payments: seq<Payment>, inv: Invoice) {
    var ledger := Ledger(payments, inv);
    ledger.Some? && UnderLedger(inv, ledger.value)
  }

  function RepairedBy(inv: Invoice, ledger: int): Invoice {
    if OverLedger(inv, ledger) || UnderLedger(inv, ledger) then inv
    else if ledger > Recorded(inv) + NOISE then inv.(paid := Some(ledger), status := Some(StatusFor(ledger, Grand(inv))))
    else inv.(status := Some(StatusFor(Recorded(inv), Grand(inv))))
  }

  function RepairedInvoice(payments: seq<Payment>, inv: Invoice): Invoice {
    var ledger := Ledger(payments, inv);
    if ledger.None? then inv else RepairedBy(inv, ledger.value)
  }

  function RepairedAll(payments: seq<Payment>, invoices: seq<Invoice>): seq<Invoice> {
    seq(|invoices|, i requires 0 <= i < |invoices| => RepairedInvoice(payments, invoices[i]))
  }

  class Books {
    var invoices: seq<Invoice>
    const payments: seq<Payment>

    constructor (invoices: seq<Invoice>, payments: seq<Payment>)
      ensures this.invoices == invoices && this.payments == payments
    {
      this.invoices, this.payments := invoices, payments;
    }

    method SumReceipts(inv: Invoice) returns (ledger: Option<int>)
      ensures ledger == Ledger(payments, inv)
    {
      ledger := None;
      for i := 0 to |payments|
        invariant ledger == Ledger(payments[..i], inv)
      {
        assert payments[..i + 1][..i] == payments[..i];
        if payments[i].invoice == inv.id && payments[i].business == inv.business {
          ledger := Some(OrZero(ledger) + payments[i].amount);
        }
      }
      assert payments[..|payments|] == payments;
    }

    /** One run over all invoices.  Reports by position what it changed and both kinds of anomaly. */
    method RepairPaidState() returns (changed: seq<nat>, over: seq<nat>, under: seq<nat>)
      modifies this
      ensures invoices == RepairedAll(payments, old(invoices))
      ensures forall i: nat :: i in changed <==> i < |old(invoices)| && invoices[i] != old(invoices)[i]
      ensures forall i: nat :: i in over <==> i < |old(invoices)| && IsOver(payments, old(invoices)[i])
      ensures forall i: nat :: i in under <==> i < |old(invoices)| && IsUnder(payments, old(invoices)[i])
    {
      changed, over, under := [], [], [];
      var n := 0;
      while n < |invoices|
        invariant n <= |invoices| == |old(invoices)|
        invariant forall i :: 0 <= i < n ==> invoices[i] == RepairedInvoice(payments, old(invoices)[i])
        invariant forall i :: n <= i < |invoices| ==> invoices[i] == old(invoices)[i]
        invariant forall i: nat :: i in changed <==> i < n && invoices[i] != old(invoices)[i]
        invariant forall i: nat :: i in over <==> i < n && IsOver(payments, old(invoices)[i])
        invariant forall i: nat :: i in under <==> i < n && IsUnder(payments, old(invoices)[i])
      {
        var inv := invoices[n];
        var ledger := SumReceipts(inv);
        if ledger.Some? {
          if OverLedger(inv, ledger.value) {
            over := over + [n];
          } else if ledger.value < Recorded(inv) - NOISE {
            under := under + [n];
          } else if ledger.value > Recorded(inv) + NOISE {
            var status := StatusFor(ledger.value, Grand(inv));
            invoices := invoices[n := inv.(paid := Some(ledger.value), status := Some(status))];
            changed := changed + [n];
          } else {
            var status := StatusFor(Recorded(inv), Grand(inv));
            if inv.status != Some(status) {
              invoices := invoices[n := inv.(status := Some(status))];
              changed := changed + [n];
            }
          }
        }
        n := n + 1;
      }
    }
  }

  // ---- what a run does to the money ----

  /** A paid amount is written only when receipts evidence more than is recorded and no more than
      the invoice, and then it is raised to just what they evidence. */
  lemma AmountChangesIff(payments: seq<Payment>, inv: Invoice)
    ensures var after, ledger := RepairedInvoice(payments, inv), Ledger(payments, inv);
            && (after.paid != inv.paid <==> ledger.Some? && Recorded(inv) + NOISE < ledger.value <= Grand(inv) + NOISE)
            && (after.paid != inv.paid ==> after.paid == ledger)
            && Recorded(after) >= Recorded(inv)
            && after == inv.(paid := after.paid, status := after.status)
  {
  }

  /** After a run every invoice with receipts is an anomaly still, or agrees with its receipts and
      says so. */
  lemma RunSettles(payments: seq<Payment>, inv: Invoice)
    requires Ledger(payments, inv).Some?
    ensures var after, ledger := RepairedInvoice(payments, inv), Ledger(payments, inv).value;
            || (after == inv && (OverLedger(inv, ledger) || UnderLedger(inv, ledger)))
            || (-NOISE <= Recorded(after) - ledger <= NOISE && after.status == Some(StatusFor(Recorded(after), Grand(after))))
  {
  }

  lemma {:induction false} SameLedger(payments: seq<Payment>, inv: Invoice, after: Invoice)
    requires after.id == inv.id && after.business == inv.business
    ensures Ledger(payments, after) == Ledger(payments, inv)
  {
    if payments != [] {
      SameLedger(payments[..|payments| - 1], inv, after);
    }
  }

  /** A second run changes nothing. */
  lemma SecondRunChangesNothing(payments: seq<Payment>, invoices: seq<Invoice>)
    ensures RepairedAll(payments, RepairedAll(payments, invoices)) == RepairedAll(payments, invoices)
  {
    forall i | 0 <= i < |invoices|
      ensures RepairedInvoice(payments, RepairedInvoice(payments, invoices[i])) == RepairedInvoice(payments, invoices[i])
    {
      SameLedger(payments, invoices[i], RepairedInvoice(payments, invoices[i]));
    }
  }

  function TotalRecorded(invoices: seq<Invoice>): int {
    if invoices == [] then 0 else TotalRecorded(invoices[..|invoices| - 1]) + Recorded(invoices[|invoices| - 1])
  }

  /** A run never lowers a paid amount, nor what is recorded in all. */
  lemma {:induction false} RunNeverLowers(payments: seq<Payment>, invoices: seq<Invoice>)
    ensures TotalRecorded(RepairedAll(payments, invoices)) >= TotalRecorded(invoices)
    ensures forall i :: 0 <= i < |invoices| ==> Recorded(RepairedAll(payments, invoices)[i]) >= Recorded(invoices[i])
  {
    if invoices != [] {
      var front := invoices[..|invoices| - 1];
      RunNeverLowers(payments, front);
      assert RepairedAll(payments, invoices)[..|front|] == RepairedAll(payments, front);
      AmountChangesIff(payments, invoices[|front|]);
    }
  }

  // ---- over the years: receipts come in, headers are edited, and every start repairs ----

  /** `Receive` is a receipt that leaves the header alone, as one that is synced in; `Pay` one that also
      writes the paid amount, over what had been paid before the first receipt; `Edit` any other change
      of a header. */
  datatype Event =
    | Boot
    | Receive(payment: Payment)
    | Pay(i: nat, amount: int, baseline: int, state: string)
    | Edit(i: nat, total: Option<int>, legacy: Option<int>, paid: Option<int>, status: Option<string>)

  datatype History = History(invoices: seq<Invoice>, payments: seq<Payment>)

  function Paid(h: History, i: nat, amount: int, baseline: int, state: string): History
    requires i < |h.invoices|
  {
    var inv := h.invoices[i];
    var payments := h.payments + [Payment(inv.id, inv.business, amount)];
    History(h.invoices[i := inv.(paid := Some(OrZero(Ledger(payments, inv)) + baseline), status := Some(state))], payments)
  }

  function Next(h: History, e: Event): History {
    match e
    case Boot => h.(invoices := RepairedAll(h.payments, h.invoices))
    case Receive(p) => h.(payments := h.payments + [p])
    case Pay(i, amount, baseline, state) => if i >= |h.invoices| then h else Paid(h, i, amount, baseline, state)
    case Edit(i, total, legacy, paid, status) =>
      if i >= |h.invoices| then h
      else h.(invoices := h.invoices[i := h.invoices[i].(total := total, amount := legacy, paid := paid, status := status)])
  }

  function After(h: History, es: seq<Event>): History {
    if es == [] then h else Next(After(h, es[..|es| - 1]), es[|es| - 1])
  }

  /** The event writes the header of the `i`th invoice. */
  predicate Writes(e: Event, i: nat) {
    (e.Pay? || e.Edit?) && e.i == i
  }

  lemma OneMoreEvent(h: History, es: seq<Event>, e: Event)
    ensures After(h, es + [e]) == Next(After(h, es), e)
  {
    assert (es + [e])[..|es|] == es;
  }

  lemma NextKeepsId(h: History, e: Event, i: nat)
    requires i < |h.invoices|
    ensures |Next(h, e).invoices| == |h.invoices|
    ensures Next(h, e).invoices[i].id == h.invoices[i].id && Next(h, e).invoices[i].business == h.invoices[i].business
  {
  }

  lemma {:induction false} IdsStay(h: History, es: seq<Event>, i: nat)
    requires i < |h.invoices|
    ensures |After(h, es).invoices| == |h.invoices|
    ensures After(h, es).invoices[i].id == h.invoices[i].id && After(h, es).invoices[i].business == h.invoices[i].business
  {
    if es != [] {
      IdsStay(h, es[..|es| - 1], i);
      NextKeepsId(After(h, es[..|es| - 1]), es[|es| - 1], i);
    }
  }

  // ---- since the header was last written ----

  /** What the receipts came to at one of the starts. */
  ghost predicate Evidenced(h: History, es: seq<Event>, inv: Invoice, amount: int) {
    exists k :: 0 <= k < |es| && es[k].Boot? && Ledger(After(h, es[..k]).payments, inv) == Some(amount)
  }

  lemma EvidencedLater(h: History, es: seq<Event>, e: Event, inv: Invoice, amount: int)
    requires Evidenced(h, es, inv, amount)
    ensures Evidenced(h, es + [e], inv, amount)
  {
    var k :| 0 <= k < |es| && es[k].Boot? && Ledger(After(h, es[..k]).payments, inv) == Some(amount);
    assert (es + [e])[..k] == es[..k];
  }

  lemma EvidencedNow(h: History, es: seq<Event>, inv: Invoice, amount: int)
    requires Ledger(After(h, es).payments, inv) == Some(amount)
    ensures Evidenced(h, es + [Boot], inv, amount)
  {
    var all := es + [Boot];
    assert all[|es|] == Boot && all[..|es|] == es;
  }

  /** The invoice with nothing but paid amount and status changed: the amount is what it was, or more,
      and then what the receipts came to at some start and at most the invoice, within rounding. */
  ghost predicate OnlyRaised(h: History, es: seq<Event>, inv: Invoice, now: Invoice) {
    && now == inv.(paid := now.paid, status := now.status) && Recorded(now) >= Recorded(inv)
    && (Recorded(now) == Recorded(inv) || (Recorded(now) <= Grand(inv) + NOISE && Evidenced(h, es, inv, Recorded(now))))
  }

  lemma LastEventOnlyRaises(h: History, front: seq<Event>, e: Event, i: nat)
    requires i < |h.invoices| == |After(h, front).invoices| && !Writes(e, i)
    requires OnlyRaised(h, front, h.invoices[i], After(h, front).invoices[i])
    ensures |After(h, front + [e]).invoices| == |h.invoices|
    ensures OnlyRaised(h, front + [e], h.invoices[i], After(h, front + [e]).invoices[i])
  {
    var inv, mid := h.invoices[i], After(h, front);
    var before, payments := mid.invoices[i], mid.payments;
    OneMoreEvent(h, front, e);
    NextKeepsId(mid, e, i);
    if Evidenced(h, front, inv, Recorded(before)) {
      EvidencedLater(h, front, e, inv, Recorded(before));
    }
    if e.Boot? {
      AmountChangesIff(payments, before);
      SameLedger(payments, inv, before);
      if RepairedInvoice(payments, before).paid != before.paid {
        EvidencedNow(h, front, inv, Ledger(payments, inv).value);
      }
    }
  }

  lemma {:induction false} OnlyRaisedWithoutWrites(h: History, es: seq<Event>, i: nat)
    requires i < |h.invoices| && forall k :: 0 <= k < |es| ==> !Writes(es[k], i)
    ensures |After(h, es).invoices| == |h.invoices|
    ensures OnlyRaised(h, es, h.invoices[i], After(h, es).invoices[i])
  {
    if es != [] {
      var front, e := es[..|es| - 1], es[|es| - 1];
      OnlyRaisedWithoutWrites(h, front, i);
      assert es == front + [e];
      LastEventOnlyRaises(h, front, e, i);
    }
  }

  lemma {:induction false} HistoriesGoOn(h: History, first: seq<Event>, more: seq<Event>)
    ensures After(h, first + more) == After(After(h, first), more)
  {
    if more == [] {
      assert first + more == first;
    } else {
      HistoriesGoOn(h, first, more[..|more| - 1]);
      assert (first + more)[..|first + more| - 1] == first + more[..|more| - 1];
    }
  }

  /** In any history of starts, receipts, payments and edits, since the last event that wrote an invoice's
      header: only paid amount and status have changed, and the amount only ever by a start, upwards, to
      what the receipts came to then and at most the invoice. */
  lemma HistoriesOnlyRaise(h: History, first: seq<Event>, more: seq<Event>, i: nat)
    requires i < |h.invoices| && forall k :: 0 <= k < |more| ==> !Writes(more[k], i)
    ensures |After(h, first).invoices| == |h.invoices| == |After(h, first + more).invoices|
    ensures OnlyRaised(After(h, first), more, After(h, first).invoices[i], After(h, first + more).invoices[i])
  {
    IdsStay(h, first, i);
    HistoriesGoOn(h, first, more);
    OnlyRaisedWithoutWrites(After(h, first), more, i);
  }

  /** In any such history, right after a start each invoice with receipts agrees with them and says so, or
      is an anomaly that the start left as it was. */
  lemma StartsSettle(h: History, es: seq<Event>, i: nat)
    requires i < |h.invoices| && Ledger(After(h, es).payments, h.invoices[i]).Some?
    ensures |After(h, es + [Boot]).invoices| == |h.invoices| == |After(h, es).invoices|
    ensures var before, now := After(h, es).invoices[i], After(h, es + [Boot]).invoices[i];
            var ledger := Ledger(After(h, es).payments, h.invoices[i]).value;
            || (now == before && (OverLedger(before, ledger) || UnderLedger(before, ledger)))
            || (-NOISE <= Recorded(now) - ledger <= NOISE && now.status == Some(StatusFor(Recorded(now), Grand(now))))
  {
    IdsStay(h, es, i);
    OneMoreEvent(h, es, Boot);
    var mid := After(h, es);
    SameLedger(mid.payments, h.invoices[i], mid.invoices[i]);
    RunSettles(mid.payments, mid.invoices[i]);
  }

  // ---- invoices that only payments write ----

  /** Every receipt of the invoice came with a payment over the same baseline. */
  predicate ThroughPayments(es: seq<Event>, inv: Invoice, i: nat, baseline: int) {
    forall k :: 0 <= k < |es| ==>
      && (es[k].Receive? ==> !(es[k].payment.invoice == inv.id && es[k].payment.business == inv.business))
      && (es[k].Pay? && es[k].i == i ==> es[k].baseline == baseline)
      && (es[k].Edit? ==> es[k].i != i)
  }

  /** What is recorded is the baseline and the receipts. */
  predicate Booked(h: History, i: nat, baseline: int)
    requires i < |h.invoices|
  {
    Recorded(h.invoices[i]) == baseline + OrZero(Ledger(h.payments, h.invoices[i]))
  }

  lemma OtherPayment(payments: seq<Payment>, p: Payment, inv: Invoice)
    ensures Ledger(payments + [p], inv) ==
            if p.invoice == inv.id && p.business == inv.business then Some(OrZero(Ledger(payments, inv)) + p.amount)
            else Ledger(payments, inv)
  {
    assert (payments + [p])[..|payments|] == payments;
  }

  lemma NextStaysBooked(h: History, e: Event, i: nat, baseline: int)
    requires i < |h.invoices| && Booked(h, i, baseline) && ThroughPayments([e], h.invoices[i], i, baseline)
    requires forall j, k :: 0 <= j < k < |h.invoices| ==> h.invoices[j].id != h.invoices[k].id
    requires e.Boot? ==> baseline >= -NOISE
    ensures |Next(h, e).invoices| == |h.invoices| && Booked(Next(h, e), i, baseline)
  {
    assert [e][0] == e;
    var inv, now := h.invoices[i], Next(h, e).invoices[i];
    NextKeepsId(h, e, i);
    SameLedger(Next(h, e).payments, inv, now);
    match e
    case Boot => AmountChangesIff(h.payments, inv);
    case Receive(p) => OtherPayment(h.payments, p, inv);
    case Pay(j, amount, _, _) =>
      if j < |h.invoices| {
        OtherPayment(h.payments, Payment(h.invoices[j].id, h.invoices[j].business, amount), inv);
      }
    case Edit(_, _, _, _, _) =>
  }

  /** An invoice whose receipts all came with payments records the baseline and its receipts at all times,
      and no start changes the amount, if what had been paid before was not negative. */
  lemma {:induction false} PaymentsStayBooked(h: History, es: seq<Event>, i: nat, baseline: int)
    requires i < |h.invoices| && Booked(h, i, baseline) && ThroughPayments(es, h.invoices[i], i, baseline)
    requires forall j, k :: 0 <= j < k < |h.invoices| ==> h.invoices[j].id != h.invoices[k].id
    requires baseline >= -NOISE
    ensures |After(h, es).invoices| == |h.invoices| && Booked(After(h, es), i, baseline)
  {
    if es != [] {
      var front, e := es[..|es| - 1], es[|es| - 1];
      PaymentsStayBooked(h, front, i, baseline);
      forall j: nat | j < |h.invoices|
        ensures After(h, front).invoices[j].id == h.invoices[j].id && After(h, front).invoices[j].business == h.invoices[j].business
      {
        IdsStay(h, front, j);
      }
      NextStaysBooked(After(h, front), e, i, baseline);
    }
  }
}
