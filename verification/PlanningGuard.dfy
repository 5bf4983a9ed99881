/** The guard that keeps a bill off two live tasks of one kind, as the planner computes it. */
module PlanningGuard {
  import opened Wrappers
  import opened CollectionKeys
  import opened CollectionModel
  import opened Planning

  /** A bill on a task that is not cancelled. */
  datatype Link = Link(bill: nat, uid: string, kind: string, status: Status, collected: int)

  datatype Clash = NothingDue(bill: nat) | AlreadyPlanned(bill: nat, uid: string)

  predicate Reserves(l: Link, receipts: seq<Receipt>) {
    !(l.kind == COLLECT && l.status == Done && l.collected - Confirmed(receipts, l.uid) <= 0)
  }

  /** The links of a bill that still reserve it, in the order given. */
  function LinksOn(links: seq<Link>, receipts: seq<Receipt>, bill: nat): seq<Link> {
    if links == [] then []
    else
      var l := links[|links| - 1];
      LinksOn(links[..|links| - 1], receipts, bill) + if l.bill == bill && Reserves(l, receipts) then [l] else []
  }

  function Get(out: map<nat, seq<Link>>, bill: nat): seq<Link> {
    if bill in out then out[bill] else []
  }

  method LiveTasks(links: seq<Link>, receipts: seq<Receipt>) returns (out: map<nat, seq<Link>>)
    ensures forall b :: (if b in out then out[b] else []) == LinksOn(links, receipts, b)
  {
    out := map[];
    for i := 0 to |links|
      invariant forall b :: Get(out, b) == LinksOn(links[..i], receipts, b)
    {
      var l := links[i];
      assert links[..i + 1][..i] == links[..i];
      if Reserves(l, receipts) {
        out := out[l.bill := Get(out, l.bill) + [l]];
      }
    }
    assert links[..|links|] == links;
  }

  /** The first of the links that is of the kind. */
  function FirstOfKind(links: seq<Link>, kind: string): (i: nat)
    ensures i <= |links| && (i < |links| ==> links[i].kind == kind)
    ensures forall j :: 0 <= j < i ==> links[j].kind != kind
  {
    if links == [] || links[0].kind == kind then 0 else 1 + FirstOfKind(links[1..], kind)
  }

  /** The link puts the bill on a live task of the kind. */
  predicate Clashes(l: Link, receipts: seq<Receipt>, kind: string, bill: nat) {
    l.bill == bill && l.kind == kind && Reserves(l, receipts)
  }

  predicate NothingToCollect(books: Books, kind: string, bill: nat)
    requires bill in books.bills
  {
    kind == COLLECT && Outstanding(books.bills[bill]) == 0
  }

  predicate Refused(books: Books, links: seq<Link>, kind: string, bill: nat)
    requires bill in books.bills
  {
    NothingToCollect(books, kind, bill) || exists i :: 0 <= i < |links| && Clashes(links[i], books.receipts, kind, bill)
  }

  /** Why the `i`th bill is refused: it owes nothing to collect, or else the task that has it first. */
  ghost predicate Reason(books: Books, links: seq<Link>, kind: string, bill: nat, c: Clash)
    requires bill in books.bills
  {
    if NothingToCollect(books, kind, bill) then c == NothingDue(bill)
    else exists k :: 0 <= k < |links| && Clashes(links[k], books.receipts, kind, bill) && c == AlreadyPlanned(bill, links[k].uid)
                     && forall j :: 0 <= j < k ==> !Clashes(links[j], books.receipts, kind, bill)
  }

  /** Refuses exactly when one of the bills owes nothing to collect or is on a live task of the
      kind: for the first such bill, with the reason. */
  method EnsureNotPlanned(books: Books, links: seq<Link>, kind: string, bills: seq<nat>) returns (r: Option<Clash>)
    requires forall i :: 0 <= i < |bills| ==> bills[i] in books.bills
    ensures r == None <==> forall i :: 0 <= i < |bills| ==> !Refused(books, links, kind, bills[i])
    ensures r.Some? ==> exists i :: 0 <= i < |bills| && Refused(books, links, kind, bills[i])
                          && Reason(books, links, kind, bills[i], r.value) && forall j :: 0 <= j < i ==> !Refused(books, links, kind, bills[j])
  {
    var live := LiveTasks(links, books.receipts);
    for n := 0 to |bills|
      invariant forall i :: 0 <= i < n ==> !Refused(books, links, kind, bills[i])
    {
      var bill := bills[n];
      if kind == COLLECT && Outstanding(books.bills[bill]) == 0 {
        return Some(NothingDue(bill));
      }
      var mine := Get(live, bill);
      LinksOnMembers(links, books.receipts, bill);
      var i := FirstOfKind(mine, kind);
      if i < |mine| {
        assert mine[i] in mine;
        ghost var k := FirstClash(links, books.receipts, kind, bill, i);
        return Some(AlreadyPlanned(bill, mine[i].uid));
      }
    }
    return None;
  }

  /** The first link of the kind among those of the bill is the first clash. */
  lemma {:induction false} FirstClash(links: seq<Link>, receipts: seq<Receipt>, kind: string, bill: nat, i: nat) returns (k: nat)
    requires var mine := LinksOn(links, receipts, bill);
             i < |mine| && mine[i].kind == kind && forall j :: 0 <= j < i ==> mine[j].kind != kind
    ensures k < |links| && links[k] == LinksOn(links, receipts, bill)[i] && Clashes(links[k], receipts, kind, bill)
    ensures forall j :: 0 <= j < k ==> !Clashes(links[j], receipts, kind, bill)
  {
    var front := links[..|links| - 1];
    var mine := LinksOn(front, receipts, bill);
    assert LinksOn(links, receipts, bill)[..|mine|] == mine;
    if i < |mine| {
      assert forall j :: 0 <= j <= i ==> LinksOn(links, receipts, bill)[j] == mine[j];
      k := FirstClash(front, receipts, kind, bill, i);
    } else {
      k := |front|;
      LinksOnMembers(front, receipts, bill);
      assert forall n :: 0 <= n < |mine| ==> mine[n] == LinksOn(links, receipts, bill)[n];
      assert forall l :: l in mine ==> l.kind != kind;
      forall j | 0 <= j < k
        ensures !Clashes(links[j], receipts, kind, bill)
      {
        assert links[j] in front;
      }
    }
  }

  lemma {:induction false} LinksOnMembers(links: seq<Link>, receipts: seq<Receipt>, bill: nat)
    ensures forall l :: l in LinksOn(links, receipts, bill) <==> l in links && l.bill == bill && Reserves(l, receipts)
  {
    if links != [] {
      LinksOnMembers(links[..|links| - 1], receipts, bill);
      assert links == links[..|links| - 1] + [links[|links| - 1]];
    }
  }

  /** The links a planner reads: of the committed tasks and its own. */
  ghost predicate Shows(links: seq<Link>, tasks: map<string, Task>) {
    forall l: Link :: l in links <==>
      && l.uid in tasks && tasks[l.uid].status != Cancelled && l.bill in tasks[l.uid].linked
      && l.kind == tasks[l.uid].kind && l.status == tasks[l.uid].status && l.collected == tasks[l.uid].collected
  }

  /** The guard passes exactly when no live task of the kind carries one of the bills, be it
      committed or the planner's own, and a bill to collect owes something. */
  lemma GuardMeansNotPlanned(books: Books, x: Planner, links: seq<Link>, kind: string, bills: set<nat>)
    requires PlannerOk(books, x) && Shows(links, books.tasks + x.drafts)
    requires forall b :: b in bills ==> b in books.bills
    ensures (forall b :: b in bills ==> !Refused(books, links, kind, b)) <==>
            NotPlanned(books, x.drafts, kind, bills) && (kind == COLLECT ==> forall b :: b in bills ==> Outstanding(books.bills[b]) > 0)
  {
    var tasks := books.tasks + x.drafts;
    forall b | b in bills
      ensures (exists i :: 0 <= i < |links| && links[i].bill == b && links[i].kind == kind && Reserves(links[i], books.receipts)) <==>
              (exists u :: CarriesLive(books, x.drafts, u, kind, b))
    {
      if i :| 0 <= i < |links| && links[i].bill == b && links[i].kind == kind && Reserves(links[i], books.receipts) {
        assert links[i] in links;
        assert CarriesLive(books, x.drafts, links[i].uid, kind, b);
      }
      if u :| CarriesLive(books, x.drafts, u, kind, b) {
        var l := Link(b, u, kind, tasks[u].status, tasks[u].collected);
        assert l in links && Reserves(l, books.receipts);
      }
    }
    NotPlannedMeans(books, x.drafts, kind, bills);
  }

  ghost predicate CarriesLive(books: Books, drafts: map<string, Task>, u: string, kind: string, bill: nat) {
    || (u in drafts && drafts[u].kind == kind && bill in drafts[u].linked)
    || (Live(books, u) && books.tasks[u].kind == kind && bill in books.tasks[u].linked)
  }

  lemma NotPlannedMeans(books: Books, drafts: map<string, Task>, kind: string, bills: set<nat>)
    ensures NotPlanned(books, drafts, kind, bills) <==> forall b, u :: b in bills ==> !CarriesLive(books, drafts, u, kind, b)
  {
    if forall b, u :: b in bills ==> !CarriesLive(books, drafts, u, kind, b) {
      forall u | Live(books, u) && books.tasks[u].kind == kind
        ensures books.tasks[u].linked !! bills
      {
        assert forall b :: b in bills ==> !CarriesLive(books, drafts, u, kind, b);
      }
      forall u | u in drafts && drafts[u].kind == kind
        ensures drafts[u].linked !! bills
      {
        assert forall b :: b in bills ==> !CarriesLive(books, drafts, u, kind, b);
      }
    }
  }
}
