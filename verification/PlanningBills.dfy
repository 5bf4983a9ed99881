/** The bills a planner may use, in terms of the balances that billing gives. */
module PlanningBills {
  import opened Wrappers
  import opened CollectionKeys
  import opened CollectionModel
  import opened Planning
  import B = Balances

  /** The bill is what billing's tables have of the invoice. */
  ghost predicate Shows(db: B.Database, inv: B.Invoice, bill: Bill) {
    var b := B.BalanceOf(db, inv);
    && bill.total == b.total && bill.paid == b.paid && bill.credited == b.credited
    && bill.customer == inv.customer && bill.creditNote == inv.creditNote && bill.closed == inv.closed
  }

  /** What a planner takes for outstanding is what the balance says. */
  lemma OutstandingIsTheBalance(db: B.Database, inv: B.Invoice, bill: Bill)
    requires Shows(db, inv, bill) && !inv.creditNote
    ensures Outstanding(bill) == B.BalanceOf(db, inv).outstanding
  {
  }

  /** A bill can be assigned exactly when it is of the customer, no note, not closed and not fully returned. */
  lemma AssignableIff(db: B.Database, inv: B.Invoice, books: Books, id: nat, customer: Option<nat>)
    requires id in books.bills && Shows(db, inv, books.bills[id])
    ensures var b := B.BalanceOf(db, inv);
            Assignable(books, id, customer) <==>
            customer.Some? && inv.customer == customer && !inv.creditNote && !inv.closed && !(b.credited > 0 && b.effective == 0)
  {
  }

  /** Some live task of the kind, committed or the planner's own, has the bill. */
  ghost predicate Taken(books: Books, drafts: map<string, Task>, kind: string, id: nat) {
    || (exists u :: Live(books, u) && books.tasks[u].kind == kind && id in books.tasks[u].linked)
    || (exists u :: u in drafts && drafts[u].kind == kind && id in drafts[u].linked)
  }

  /** The books show what billing's tables have of every bill. */
  ghost predicate ShowsAll(db: B.Database, invoices: map<nat, B.Invoice>, books: Books) {
    books.bills.Keys == invoices.Keys && forall id :: id in invoices ==> Shows(db, invoices[id], books.bills[id])
  }

  /** The planner may put the bill on a task: it has locked it, billing lets it be assigned and, for a
      collection, has something outstanding on it, and no live task of the kind has it. */
  ghost predicate MayUse(db: B.Database, invoices: map<nat, B.Invoice>, d: Desk, p: nat, task: Task, id: nat)
    requires p in d.planners
  {
    && id in d.planners[p].holds && id in invoices
    && var inv, b := invoices[id], B.BalanceOf(db, invoices[id]);
    && task.customer.Some? && inv.customer == task.customer && !inv.creditNote && !inv.closed
    && (b.credited > 0 ==> b.effective > 0) && (task.kind == "payment_collect" ==> b.outstanding > 0)
    && !Taken(d.money.books, d.planners[p].drafts, task.kind, id)
  }

  /** A task is planned exactly when its uid is new, and the planner has picked its bills and may use each. */
  lemma PlanIff(db: B.Database, invoices: map<nat, B.Invoice>, d: Desk, p: nat, uid: string, task: Task)
    requires ShowsAll(db, invoices, d.money.books)
    ensures Can(d, Plan(p, uid, task)) <==>
            && |uid| == UID_LENGTH && uid !in d.money.books.tasks && Undrafted(d, uid) && task.status == Pending
            && p in d.planners && d.planners[p].todo == []
            && forall id :: id in task.linked ==> MayUse(db, invoices, d, p, task, id)
  {
    if p in d.planners {
      forall id | id in task.linked && id in invoices
        ensures d.money.books.bills[id].creditNote || Outstanding(d.money.books.bills[id]) == B.BalanceOf(db, invoices[id]).outstanding
        ensures Assignable(d.money.books, id, task.customer) <==>
                var inv, b := invoices[id], B.BalanceOf(db, invoices[id]);
                task.customer.Some? && inv.customer == task.customer && !inv.creditNote && !inv.closed && !(b.credited > 0 && b.effective == 0)
      {
        AssignableIff(db, invoices[id], d.money.books, id, task.customer);
      }
      NotTakenIff(d.money.books, d.planners[p].drafts, task.kind, task.linked);
    }
  }

  lemma NotTakenIff(books: Books, drafts: map<string, Task>, kind: string, linked: set<nat>)
    ensures NotPlanned(books, drafts, kind, linked) <==> forall id :: id in linked ==> !Taken(books, drafts, kind, id)
  {
    if forall id :: id in linked ==> !Taken(books, drafts, kind, id) {
      forall u | Live(books, u) && books.tasks[u].kind == kind
        ensures books.tasks[u].linked !! linked
      {
        forall id | id in books.tasks[u].linked
          ensures id !in linked
        {
        }
      }
    }
  }
}
