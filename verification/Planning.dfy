/** Planning tasks on bills, by concurrent planners, while collections are completed and confirmed. */
module Planning {
  import opened Wrappers
  import opened CollectionKeys
  import opened CollectionModel
  import opened CollectionRuns
  import opened CollectionSafety
  import opened CollectionTheorems

  /** A planning transaction: the bills it has yet to lock, those it has locked, and its tasks. */
  datatype Planner = Planner(todo: seq<nat>, holds: set<nat>, drafts: map<string, Task>)

  /** A payment or an edit of one bill, in a transaction of its own, that has locked the bill. */
  datatype Till = Till(bill: nat, work: Action)

  /** `grips` are the approvals that have locked their first bill and not yet paid it. */
  datatype Desk = Desk(money: System, planners: map<nat, Planner>, grips: set<string>, tills: map<nat, Till>)

  datatype Act =
    | Money(action: Action)
    | Grip(uid: string)
    | Take(t: nat, work: Action)
    | Settle(t: nat)
    | Leave(t: nat)
    | Begin(p: nat)
    | Resolve(p: nat, todo: seq<nat>)
    | Lock(p: nat)
    | Plan(p: nat, uid: string, task: Task)
    | Reopen(p: nat, uid: string)
    | Finish(p: nat)
    | GiveUp(p: nat)
    | Complete(uid: string, amount: nat)
    | Cancel(uid: string)

  /** A task that still reserves its bills: a collection does until its cash is fully confirmed. */
  predicate Live(books: Books, uid: string) {
    && uid in books.tasks
    && var t := books.tasks[uid];
    && t.status != Cancelled
    && (t.kind == COLLECT && t.status == Done ==> t.collected - Confirmed(books.receipts, uid) > 0)
  }

  function Outstanding(b: Bill): nat {
    Positive(Positive(b.total - b.credited) - b.paid)
  }

  /** A bill of the customer that is not a note, is active, and was not fully returned. */
  predicate Assignable(books: Books, bill: nat, customer: Option<nat>) {
    && bill in books.bills && customer.Some?
    && var b := books.bills[bill];
    && b.customer == customer && !b.creditNote && !b.closed && (b.credited > 0 ==> b.total - b.credited > 0)
  }

  /** No live task of the kind that the planner can see carries one of the bills. */
  ghost predicate NotPlanned(books: Books, drafts: map<string, Task>, kind: string, linked: set<nat>) {
    && (forall u :: Live(books, u) && books.tasks[u].kind == kind ==> books.tasks[u].linked !! linked)
    && (forall u :: u in drafts && drafts[u].kind == kind ==> drafts[u].linked !! linked)
  }

  ghost predicate CanPlan(d: Desk, p: nat, kind: string, linked: set<nat>, customer: Option<nat>) {
    && p in d.planners && d.planners[p].todo == [] && linked <= d.planners[p].holds
    && (forall b :: b in linked ==> Assignable(d.money.books, b, customer))
    && (kind == COLLECT ==> forall b :: b in linked && b in d.money.books.bills ==> Outstanding(d.money.books.bills[b]) > 0)
    && NotPlanned(d.money.books, d.planners[p].drafts, kind, linked)
  }

  /** No planner but `except` has locked the bill. */
  predicate Unlocked(d: Desk, bill: nat, except: Option<nat>) {
    forall q :: q in d.planners && Some(q) != except ==> bill !in d.planners[q].holds
  }

  predicate Undrafted(d: Desk, uid: string) {
    forall q :: q in d.planners ==> uid !in d.planners[q].drafts
  }

  /** Nobody has locked the bill for a payment or an edit yet to be made. */
  predicate Loose(d: Desk, bill: nat) {
    && (forall u :: u in d.grips && u in d.money.open && d.money.open[u].wanted != [] ==> d.money.open[u].wanted[0].bill != bill)
    && forall t :: t in d.tills ==> d.tills[t].bill != bill
  }

  /** A payment or an edit is announced to replicas under the clock of the business, which stays locked
      to the end of the transaction: an approval has it from its first payment on. */
  predicate ClockFree(d: Desk, except: Option<string>) {
    forall u :: u in d.money.open && Some(u) != except ==> d.money.open[u].pending == []
  }

  /** An approval's first payment needs the bill it has gripped, and the clock; each later one the next
      bill.  A new bill needs the clock only. */
  predicate HasLocks(d: Desk, m: Action) {
    match m
    case Record(uid) =>
      uid in d.money.open && d.money.open[uid].next < |d.money.open[uid].wanted| &&
      if d.money.open[uid].next == 0 then uid in d.grips && ClockFree(d, Some(uid))
      else Unlocked(d, d.money.open[uid].wanted[d.money.open[uid].next].bill, None)
           && Loose(d, d.money.open[uid].wanted[d.money.open[uid].next].bill)
    case Edit(b, _) => b !in d.money.books.bills && ClockFree(d, None)
    case Pay(_) => false
    case _ => true
  }

  predicate OnOneBill(m: Action) {
    m.Pay? || m.Edit?
  }

  function BillOf(m: Action): nat
    requires OnOneBill(m)
  {
    if m.Pay? then m.receipt.bill else m.bill
  }

  /** Only bills that exist are locked: a planner that asks for any other can only give up. */
  ghost predicate Can(d: Desk, a: Act) {
    match a
    case Money(m) =>
      !m.Retask? && Enabled(d.money, m) && HasLocks(d, m)
    case Grip(uid) =>
      && uid in d.money.open && uid !in d.grips && d.money.open[uid].next == 0 && d.money.open[uid].wanted != []
      && var bill := d.money.open[uid].wanted[0].bill;
      && bill in d.money.books.bills && Unlocked(d, bill, None) && Free(d.money, bill, None) && Loose(d, bill)
    case Take(t, work) =>
      && t !in d.tills && OnOneBill(work) && BillOf(work) in d.money.books.bills
      && Unlocked(d, BillOf(work), None) && Free(d.money, BillOf(work), None) && Loose(d, BillOf(work))
    case Settle(t) =>
      t in d.tills && OnOneBill(d.tills[t].work) && ClockFree(d, None) && Enabled(d.money, d.tills[t].work)
    case Leave(t) => t in d.tills
    case Begin(p) => p !in d.planners
    case Resolve(p, todo) =>
      && p in d.planners && d.planners[p].todo == []
      && forall i, j :: 0 <= i < j < |todo| ==> todo[i] < todo[j]
    case Lock(p) =>
      && p in d.planners && d.planners[p].todo != [] && d.planners[p].todo[0] in d.money.books.bills
      && Unlocked(d, d.planners[p].todo[0], Some(p)) && Free(d.money, d.planners[p].todo[0], None)
      && Loose(d, d.planners[p].todo[0])
    case Plan(p, uid, task) =>
      && |uid| == UID_LENGTH && uid !in d.money.books.tasks && Undrafted(d, uid)
      && task.status == Pending && CanPlan(d, p, task.kind, task.linked, task.customer)
    case Reopen(p, uid) =>
      && uid in d.money.books.tasks && d.money.books.tasks[uid].status == Cancelled && Undrafted(d, uid)
      && var t := d.money.books.tasks[uid];
      && CanPlan(d, p, t.kind, t.linked, t.customer)
    case Finish(p) => p in d.planners && d.planners[p].todo == []
    case GiveUp(p) => p in d.planners
    case Complete(uid, _) => uid in d.money.books.tasks && d.money.books.tasks[uid].status == Pending
    case Cancel(uid) => uid in d.money.books.tasks && d.money.books.tasks[uid].status == Pending
  }

  function WithTasks(s: System, tasks: map<string, Task>): System {
    s.(books := s.books.(tasks := tasks))
  }

  /** Once its first bill is paid, or the approval has ended, nothing is gripped any more. */
  function Released(grips: set<string>, m: Action): set<string> {
    if m.Record? || m.Commit? || m.Abort? then grips - {m.uid} else grips
  }

  ghost function Next(d: Desk, a: Act): Desk
    requires Can(d, a)
  {
    var tasks := d.money.books.tasks;
    match a
    case Money(m) => d.(money := Apply(d.money, m), grips := Released(d.grips, m))
    case Grip(uid) => d.(grips := d.grips + {uid})
    case Take(t, work) => d.(tills := d.tills[t := Till(BillOf(work), work)])
    case Settle(t) => d.(money := Apply(d.money, d.tills[t].work), tills := d.tills - {t})
    case Leave(t) => d.(tills := d.tills - {t})
    case Begin(p) => d.(planners := d.planners[p := Planner([], {}, map[])])
    case Resolve(p, todo) => d.(planners := d.planners[p := d.planners[p].(todo := todo)])
    case Lock(p) =>
      var x := d.planners[p];
      d.(planners := d.planners[p := x.(todo := x.todo[1..], holds := x.holds + {x.todo[0]})])
    case Plan(p, uid, task) =>
      d.(planners := d.planners[p := d.planners[p].(drafts := d.planners[p].drafts[uid := task])])
    case Reopen(p, uid) =>
      d.(planners := d.planners[p := d.planners[p].(drafts := d.planners[p].drafts[uid := tasks[uid].(status := Pending)])])
    case Finish(p) => d.(money := WithTasks(d.money, tasks + d.planners[p].drafts), planners := d.planners - {p})
    case GiveUp(p) => d.(planners := d.planners - {p})
    case Complete(uid, amount) =>
      d.(money := WithTasks(d.money, tasks[uid := tasks[uid].(status := Done, collected := amount)]))
    case Cancel(uid) => d.(money := WithTasks(d.money, tasks[uid := tasks[uid].(status := Cancelled)]))
  }

  // ---- no bill on two live tasks of one kind ----

  /** Two tasks of different kinds, or on different bills. */
  predicate Apart(t: Task, u: Task) {
    t.kind == u.kind ==> t.linked !! u.linked
  }

  ghost predicate Exclusive(books: Books) {
    forall u, v :: Live(books, u) && Live(books, v) && u != v ==> Apart(books.tasks[u], books.tasks[v])
  }

  ghost predicate DraftsHeld(books: Books, x: Planner) {
    forall u :: u in x.drafts ==>
      && |u| == UID_LENGTH && x.drafts[u].status == Pending && x.drafts[u].linked <= x.holds
      && (u in books.tasks ==> books.tasks[u].status == Cancelled)
  }

  ghost predicate DraftsClear(books: Books, drafts: map<string, Task>) {
    forall u, v :: u in drafts && Live(books, v) ==> Apart(drafts[u], books.tasks[v])
  }

  ghost predicate DraftsApart(drafts: map<string, Task>) {
    forall u, v :: u in drafts && v in drafts && u != v ==> Apart(drafts[u], drafts[v])
  }

  /** A planner's tasks are on bills it has locked, and clash with nothing it can see. */
  ghost predicate PlannerOk(books: Books, x: Planner) {
    DraftsHeld(books, x) && DraftsClear(books, x.drafts) && DraftsApart(x.drafts)
  }

  ghost predicate LocksApart(planners: map<nat, Planner>) {
    forall p, q :: p in planners && q in planners && p != q ==>
      && planners[p].holds !! planners[q].holds
      && planners[p].drafts.Keys !! planners[q].drafts.Keys
  }

  ghost predicate PlansOk(books: Books, planners: map<nat, Planner>) {
    && Exclusive(books) && LocksApart(planners)
    && forall p :: p in planners ==> PlannerOk(books, planners[p])
  }

  ghost predicate DeskOk(d: Desk) {
    Inv(d.money) && PlansOk(d.money.books, d.planners)
  }

  /** Nothing becomes live, and no task or draft is touched. */
  ghost predicate Shrinks(books: Books, books': Books) {
    && books'.tasks.Keys == books.tasks.Keys
    && forall u :: u in books.tasks ==>
         && (Live(books', u) ==> Live(books, u))
         && books'.tasks[u].kind == books.tasks[u].kind && books'.tasks[u].linked == books.tasks[u].linked
         && (books.tasks[u].status == Cancelled ==> books'.tasks[u].status == Cancelled)
  }

  lemma ShrinkingKeepsPlanner(books: Books, books': Books, x: Planner)
    requires PlannerOk(books, x) && Shrinks(books, books')
    ensures PlannerOk(books', x)
  {
    forall u, v | u in x.drafts && Live(books', v)
      ensures Apart(x.drafts[u], books'.tasks[v])
    {
      assert Live(books, v);
    }
  }

  lemma ShrinkingIsSafe(books: Books, books': Books, planners: map<nat, Planner>)
    requires PlansOk(books, planners) && Shrinks(books, books')
    ensures PlansOk(books', planners)
  {
    forall p | p in planners
      ensures PlannerOk(books', planners[p])
    {
      ShrinkingKeepsPlanner(books, books', planners[p]);
    }
    forall u, v | Live(books', u) && Live(books', v) && u != v
      ensures Apart(books'.tasks[u], books'.tasks[v])
    {
      assert Live(books, u) && Live(books, v);
    }
  }

  /** What is confirmed of a collection only grows. */
  lemma ConfirmedGrows(s: System, a: Action, uid: string)
    requires Inv(s) && Enabled(s, a)
    ensures Confirmed(s.books.receipts, uid) <= Confirmed(Apply(s, a).books.receipts, uid)
  {
    match a
    case Commit(t) =>
      var f := s.open[t];
      assert FlightOk(s.books, t, f);
      CommitReceipts(s.books, t, f);
      BatchConfirms(s.books.receipts, t, f.expected, f.wanted, uid);
      PositivePortionsAddUp(f.wanted);
    case Pay(r) => OtherReceiptsAreNeutral(s.books.receipts, r);
    case Open(_, _, _) =>
    case Record(_) =>
    case Abort(_) =>
    case Edit(_, _) =>
    case Retask(_, _) =>
  }

  lemma SameTasks(s: System, a: Action)
    requires Inv(s) && Enabled(s, a) && !a.Retask?
    ensures Apply(s, a).books.tasks == s.books.tasks
  {
    if a.Commit? {
      assert FlightOk(s.books, a.uid, s.open[a.uid]);
      CommitReceipts(s.books, a.uid, s.open[a.uid]);
    }
  }

  lemma MoneyKeepsPlans(money: System, planners: map<nat, Planner>, m: Action)
    requires Inv(money) && PlansOk(money.books, planners) && Enabled(money, m) && !m.Retask?
    ensures Inv(Apply(money, m)) && PlansOk(Apply(money, m).books, planners)
  {
    var money' := Apply(money, m);
    StepKeepsInv(money, m);
    SameTasks(money, m);
    forall u
      ensures Confirmed(money.books.receipts, u) <= Confirmed(money'.books.receipts, u)
    {
      ConfirmedGrows(money, m, u);
    }
    ShrinkingIsSafe(money.books, money'.books, planners);
  }

  lemma LeavingTheOpenShrinks(books: Books, uid: string, task: Task)
    requires uid in books.tasks && books.tasks[uid].status == Pending && task.status != Pending
    requires task.kind == books.tasks[uid].kind && task.linked == books.tasks[uid].linked
    ensures Shrinks(books, books.(tasks := books.tasks[uid := task]))
  {
  }

  lemma DraftStaysClear(books: Books, drafts: map<string, Task>, uid: string, task: Task)
    requires DraftsClear(books, drafts) && NotPlanned(books, drafts, task.kind, task.linked)
    ensures DraftsClear(books, drafts[uid := task])
  {
  }

  lemma DraftStaysApart(books: Books, drafts: map<string, Task>, uid: string, task: Task)
    requires DraftsApart(drafts) && uid !in drafts && NotPlanned(books, drafts, task.kind, task.linked)
    ensures DraftsApart(drafts[uid := task])
  {
  }

  lemma DraftKeepsPlanner(books: Books, x: Planner, uid: string, task: Task)
    requires PlannerOk(books, x) && |uid| == UID_LENGTH && task.status == Pending && uid !in x.drafts
    requires uid in books.tasks ==> books.tasks[uid].status == Cancelled
    requires task.linked <= x.holds && NotPlanned(books, x.drafts, task.kind, task.linked)
    ensures PlannerOk(books, x.(drafts := x.drafts[uid := task]))
  {
    DraftStaysClear(books, x.drafts, uid, task);
    DraftStaysApart(books, x.drafts, uid, task);
  }

  lemma DraftKeepsPlans(books: Books, planners: map<nat, Planner>, p: nat, uid: string, task: Task)
    requires PlansOk(books, planners) && p in planners && |uid| == UID_LENGTH && task.status == Pending
    requires forall q :: q in planners ==> uid !in planners[q].drafts
    requires uid in books.tasks ==> books.tasks[uid].status == Cancelled
    requires task.linked <= planners[p].holds && NotPlanned(books, planners[p].drafts, task.kind, task.linked)
    ensures PlansOk(books, planners[p := planners[p].(drafts := planners[p].drafts[uid := task])])
  {
    var x := planners[p].(drafts := planners[p].drafts[uid := task]);
    DraftKeepsPlanner(books, planners[p], uid, task);
    PlannerReplaced(books, planners, p, x, uid);
  }

  lemma PlannerReplaced(books: Books, planners: map<nat, Planner>, p: nat, x: Planner, uid: string)
    requires PlansOk(books, planners) && p in planners && PlannerOk(books, x)
    requires x.holds == planners[p].holds && x.drafts.Keys == planners[p].drafts.Keys + {uid}
    requires forall q :: q in planners && q != p ==> uid !in planners[q].drafts
    ensures PlansOk(books, planners[p := x])
  {
    ReplacedLocksApart(planners, p, x, uid);
  }

  lemma ReplacedLocksApart(planners: map<nat, Planner>, p: nat, x: Planner, uid: string)
    requires LocksApart(planners) && p in planners
    requires x.holds == planners[p].holds && x.drafts.Keys == planners[p].drafts.Keys + {uid}
    requires forall q :: q in planners && q != p ==> uid !in planners[q].drafts
    ensures LocksApart(planners[p := x])
  {
  }

  lemma LockKeepsPlans(books: Books, planners: map<nat, Planner>, p: nat, todo: seq<nat>, bills: set<nat>)
    requires PlansOk(books, planners) && p in planners
    requires forall q :: q in planners && q != p ==> planners[q].holds !! bills
    ensures PlansOk(books, planners[p := planners[p].(todo := todo, holds := planners[p].holds + bills)])
  {
    assert PlannerOk(books, planners[p]);
  }

  // ---- a planner commits ----

  /** Drafts become tasks: they are on bills no other planner has locked. */
  lemma FinishKeepsExclusive(books: Books, x: Planner)
    requires Exclusive(books) && PlannerOk(books, x)
    ensures Exclusive(books.(tasks := books.tasks + x.drafts))
  {
    var books' := books.(tasks := books.tasks + x.drafts);
    forall u, v | Live(books', u) && Live(books', v) && u != v
      ensures Apart(books'.tasks[u], books'.tasks[v])
    {
      assert u !in x.drafts ==> Live(books, u);
      assert v !in x.drafts ==> Live(books, v);
    }
  }

  lemma FinishKeepsOther(books: Books, x: Planner, y: Planner)
    requires PlannerOk(books, x) && PlannerOk(books, y)
    requires x.holds !! y.holds && x.drafts.Keys !! y.drafts.Keys
    ensures PlannerOk(books.(tasks := books.tasks + x.drafts), y)
  {
    var books' := books.(tasks := books.tasks + x.drafts);
    forall u, v | u in y.drafts && Live(books', v)
      ensures Apart(y.drafts[u], books'.tasks[v])
    {
      assert v !in x.drafts ==> Live(books, v);
    }
  }

  lemma FinishKeepsPlans(books: Books, planners: map<nat, Planner>, p: nat)
    requires PlansOk(books, planners) && p in planners
    ensures PlansOk(books.(tasks := books.tasks + planners[p].drafts), planners - {p})
  {
    FinishKeepsExclusive(books, planners[p]);
    forall q | q in planners - {p}
      ensures PlannerOk(books.(tasks := books.tasks + planners[p].drafts), planners[q])
    {
      FinishKeepsOther(books, planners[p], planners[q]);
    }
  }

  lemma GiveUpKeepsPlans(books: Books, planners: map<nat, Planner>, p: nat)
    requires PlansOk(books, planners)
    ensures PlansOk(books, planners - {p})
    ensures p !in planners ==> PlansOk(books, planners[p := Planner([], {}, map[])])
  {
  }

  /** A status change of a pending task. */
  lemma StatusKeepsPlans(books: Books, planners: map<nat, Planner>, uid: string, task: Task)
    requires PlansOk(books, planners) && uid in books.tasks
    requires books.tasks[uid].status == Pending && task.status != Pending
    requires task.kind == books.tasks[uid].kind && task.linked == books.tasks[uid].linked
    ensures PlansOk(books.(tasks := books.tasks[uid := task]), planners)
  {
    LeavingTheOpenShrinks(books, uid, task);
    ShrinkingIsSafe(books, books.(tasks := books.tasks[uid := task]), planners);
  }

  predicate OnlyLocks(a: Act) {
    a.Begin? || a.Resolve? || a.Lock? || a.GiveUp? || a.Grip? || a.Take? || a.Leave?
  }

  lemma ResolveStepKeepsPlans(d: Desk, p: nat, todo: seq<nat>)
    requires PlansOk(d.money.books, d.planners) && Can(d, Resolve(p, todo))
    ensures PlansOk(d.money.books, Next(d, Resolve(p, todo)).planners)
  {
    LockKeepsPlans(d.money.books, d.planners, p, todo, {});
    assert d.planners[p].holds + {} == d.planners[p].holds;
  }

  lemma LockStepKeepsPlans(d: Desk, p: nat)
    requires PlansOk(d.money.books, d.planners) && Can(d, Lock(p))
    ensures PlansOk(d.money.books, Next(d, Lock(p)).planners)
  {
    LockKeepsPlans(d.money.books, d.planners, p, d.planners[p].todo[1..], {d.planners[p].todo[0]});
  }

  lemma LockStepsKeepPlans(d: Desk, a: Act)
    requires PlansOk(d.money.books, d.planners) && Can(d, a) && OnlyLocks(a)
    ensures PlansOk(Next(d, a).money.books, Next(d, a).planners)
  {
    var books := d.money.books;
    match a
    case Begin(p) => GiveUpKeepsPlans(books, d.planners, p);
    case Resolve(p, todo) => ResolveStepKeepsPlans(d, p, todo);
    case Lock(p) => LockStepKeepsPlans(d, p);
    case GiveUp(p) => GiveUpKeepsPlans(books, d.planners, p);
    case _ =>
  }

  lemma PlanStepKeepsPlans(d: Desk, a: Act)
    requires PlansOk(d.money.books, d.planners) && a.Plan? && Can(d, a)
    ensures PlansOk(Next(d, a).money.books, Next(d, a).planners)
  {
    DraftKeepsPlans(d.money.books, d.planners, a.p, a.uid, a.task);
  }

  lemma ReopenStepKeepsPlans(d: Desk, a: Act)
    requires PlansOk(d.money.books, d.planners) && a.Reopen? && Can(d, a) && |a.uid| == UID_LENGTH
    ensures PlansOk(Next(d, a).money.books, Next(d, a).planners)
  {
    DraftKeepsPlans(d.money.books, d.planners, a.p, a.uid, d.money.books.tasks[a.uid].(status := Pending));
  }

  lemma TaskStepsKeepPlans(d: Desk, a: Act)
    requires PlansOk(d.money.books, d.planners) && Can(d, a) && (a.Finish? || a.Complete? || a.Cancel?)
    ensures PlansOk(Next(d, a).money.books, Next(d, a).planners)
  {
    var books := d.money.books;
    match a
    case Finish(p) => FinishKeepsPlans(books, d.planners, p);
    case Complete(uid, amount) =>
      StatusKeepsPlans(books, d.planners, uid, books.tasks[uid].(status := Done, collected := amount));
    case Cancel(uid) => StatusKeepsPlans(books, d.planners, uid, books.tasks[uid].(status := Cancelled));
  }

  lemma FinishKeepsDone(books: Books, x: Planner)
    requires PlannerOk(books, x) && forall u :: u in books.tasks ==> |u| == UID_LENGTH
    ensures KeepsDone(books.tasks, books.tasks + x.drafts)
  {
  }

  lemma StatusKeepsDone(tasks: map<string, Task>, uid: string, task: Task)
    requires uid in tasks && tasks[uid].status == Pending && forall u :: u in tasks ==> |u| == UID_LENGTH
    ensures KeepsDone(tasks, tasks[uid := task])
  {
  }

  lemma TaskStepsKeepInv(d: Desk, a: Act)
    requires DeskOk(d) && Can(d, a) && (a.Finish? || a.Complete? || a.Cancel?)
    ensures Inv(Next(d, a).money)
  {
    var books := d.money.books;
    match a
    case Finish(p) =>
      FinishKeepsDone(books, d.planners[p]);
      RetaskKeepsInv(d.money, books.tasks + d.planners[p].drafts);
    case Complete(uid, amount) =>
      var task := books.tasks[uid].(status := Done, collected := amount);
      StatusKeepsDone(books.tasks, uid, task);
      RetaskKeepsInv(d.money, books.tasks[uid := task]);
    case Cancel(uid) =>
      var task := books.tasks[uid].(status := Cancelled);
      StatusKeepsDone(books.tasks, uid, task);
      RetaskKeepsInv(d.money, books.tasks[uid := task]);
  }

  /** Every step of planners, staff, the owner and the billing service keeps each bill off two live
      tasks of one kind. */
  lemma ActKeepsDesk(d: Desk, a: Act)
    requires DeskOk(d) && Can(d, a)
    ensures DeskOk(Next(d, a))
  {
    if a.Money? {
      MoneyKeepsPlans(d.money, d.planners, a.action);
    } else if a.Settle? {
      MoneyKeepsPlans(d.money, d.planners, d.tills[a.t].work);
    } else if a.Finish? || a.Complete? || a.Cancel? {
      TaskStepsKeepInv(d, a);
      TaskStepsKeepPlans(d, a);
    } else if a.Plan? {
      PlanStepKeepsPlans(d, a);
    } else if a.Reopen? {
      ReopenStepKeepsPlans(d, a);
    } else {
      LockStepsKeepPlans(d, a);
    }
  }

  ghost predicate Feasible(d: Desk, run: seq<Act>)
    decreases |run|, 0
  {
    run == [] || (Feasible(d, run[..|run| - 1]) && Can(Ended(d, run[..|run| - 1]), run[|run| - 1]))
  }

  ghost function Ended(d: Desk, run: seq<Act>): Desk
    requires Feasible(d, run)
    decreases |run|, 1
  {
    if run == [] then d else Next(Ended(d, run[..|run| - 1]), run[|run| - 1])
  }

  lemma {:induction false} RunKeepsDesk(d: Desk, run: seq<Act>)
    requires DeskOk(d) && Feasible(d, run)
    ensures DeskOk(Ended(d, run))
    decreases |run|
  {
    if run != [] {
      var front := run[..|run| - 1];
      RunKeepsDesk(d, front);
      ActKeepsDesk(Ended(d, front), run[|run| - 1]);
    }
  }

  /** From an empty desk, however planning, completing, cancelling, reopening and confirming are
      interleaved: no bill is on two live tasks of one kind. */
  lemma OneLiveTaskPerBill(d: Desk, run: seq<Act>, u: string, v: string, bill: nat)
    requires Beginning(d.money) && d.money.books.tasks == map[] && d.planners == map[]
    requires Feasible(d, run)
    requires var books := Ended(d, run).money.books;
             && Live(books, u) && Live(books, v) && books.tasks[u].kind == books.tasks[v].kind
             && bill in books.tasks[u].linked && bill in books.tasks[v].linked
    ensures u == v
  {
    BeginningSatisfiesInv(d.money);
    RunKeepsDesk(d, run);
    var books := Ended(d, run).money.books;
    assert u != v ==> Apart(books.tasks[u], books.tasks[v]);
  }

  /** Until the last paisa of a completed collection is confirmed, none of its bills can be planned
      for collection again; from then on it stands in nobody's way. */
  lemma CollectedBillsAreReserved(d: Desk, uid: string, a: Act, bill: nat)
    requires Collecting(d.money.books.tasks, uid) && bill in d.money.books.tasks[uid].linked
    requires a.Plan? && a.task.kind == COLLECT && bill in a.task.linked
    ensures Confirmed(d.money.books.receipts, uid) < d.money.books.tasks[uid].collected ==> !Can(d, a)
    ensures Confirmed(d.money.books.receipts, uid) >= d.money.books.tasks[uid].collected ==> !Live(d.money.books, uid)
  {
    assert Live(d.money.books, uid) ==> !(d.money.books.tasks[uid].linked !! a.task.linked);
  }

  lemma MoneyKeepsTasks(d: Desk, a: Act)
    requires Inv(d.money) && Can(d, a) && (a.Money? || a.Settle?)
    ensures Next(d, a).money.books.tasks == d.money.books.tasks
  {
    SameTasks(d.money, if a.Money? then a.action else d.tills[a.t].work);
  }

  lemma OthersKeepDone(d: Desk, a: Act, uid: string)
    requires Can(d, a) && !a.Money? && !a.Settle? && !a.Finish?
    requires uid in d.money.books.tasks && d.money.books.tasks[uid].status == Done
    ensures uid in Next(d, a).money.books.tasks && Next(d, a).money.books.tasks[uid] == d.money.books.tasks[uid]
  {
  }

  lemma ActKeepsDone(d: Desk, a: Act, uid: string)
    requires DeskOk(d) && Can(d, a) && uid in d.money.books.tasks && d.money.books.tasks[uid].status == Done
    ensures uid in Next(d, a).money.books.tasks && Next(d, a).money.books.tasks[uid] == d.money.books.tasks[uid]
  {
    if a.Money? || a.Settle? {
      MoneyKeepsTasks(d, a);
    } else if a.Finish? {
      FinishKeepsDone(d.money.books, d.planners[a.p]);
    } else {
      OthersKeepDone(d, a, uid);
    }
  }

  lemma {:induction false} RunKeepsDone(d: Desk, run: seq<Act>, uid: string)
    requires DeskOk(d) && Feasible(d, run) && uid in d.money.books.tasks && d.money.books.tasks[uid].status == Done
    ensures uid in Ended(d, run).money.books.tasks && Ended(d, run).money.books.tasks[uid] == d.money.books.tasks[uid]
    decreases |run|
  {
    if run != [] {
      var front := run[..|run| - 1];
      RunKeepsDone(d, front, uid);
      RunKeepsDesk(d, front);
      ActKeepsDone(Ended(d, front), run[|run| - 1], uid);
    }
  }

  /** From the moment a collection is completed, in every run: nobody plans another collection on one
      of its bills before its cash is confirmed to the last paisa. */
  lemma ReservedUntilConfirmed(d: Desk, run: seq<Act>, uid: string, a: Act, bill: nat)
    requires DeskOk(d) && Feasible(d, run) && Can(Ended(d, run), a)
    requires Collecting(d.money.books.tasks, uid) && bill in d.money.books.tasks[uid].linked
    requires a.Plan? && a.task.kind == COLLECT && bill in a.task.linked
    ensures Confirmed(Ended(d, run).money.books.receipts, uid) >= d.money.books.tasks[uid].collected
  {
    RunKeepsDone(d, run, uid);
    CollectedBillsAreReserved(Ended(d, run), uid, a, bill);
  }
}
