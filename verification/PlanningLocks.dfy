/** Who waits for whom on a desk: bills, and the clock of the business, which every payment and every
    edit of a bill takes after the bill. */
module PlanningLocks {
  import opened Wrappers
  import opened CollectionKeys
  import opened CollectionModel
  import opened CollectionRuns
  import opened CollectionSafety
  import opened Planning
  import opened LockOrder

  /** The lock on the clock, beside those on the bills. */
  const CLOCK := -1

  datatype Party = ThePlanner(p: nat) | TheApproval(uid: string) | TheTill(t: nat)

  predicate IsParty(d: Desk, x: Party) {
    match x
    case ThePlanner(p) => p in d.planners
    case TheApproval(uid) => uid in d.money.open
    case TheTill(t) => t in d.tills
  }

  function PaidBills(f: InFlight): set<int> {
    set i | 0 <= i < |f.pending| :: f.pending[i].bill as int
  }

  /** An approval that has gripped its first bill and not paid it. */
  predicate Gripping(d: Desk, uid: string) {
    uid in d.money.open && uid in d.grips && d.money.open[uid].next == 0 && d.money.open[uid].wanted != []
  }

  function ApprovalHolds(d: Desk, uid: string): set<int>
    requires uid in d.money.open
  {
    var f := d.money.open[uid];
    PaidBills(f) + (if Gripping(d, uid) then {f.wanted[0].bill as int} else {}) + (if f.pending != [] then {CLOCK} else {})
  }

  function HoldsOf(d: Desk, x: Party): set<int>
    requires IsParty(d, x)
  {
    match x
    case ThePlanner(p) => set b | b in d.planners[p].holds :: b as int
    case TheApproval(uid) => ApprovalHolds(d, uid)
    case TheTill(t) => {d.tills[t].bill as int}
  }

  predicate AsksOne(d: Desk, x: Party)
    requires IsParty(d, x)
  {
    match x
    case ThePlanner(p) => d.planners[p].todo != []
    case TheApproval(uid) => d.money.open[uid].next < |d.money.open[uid].wanted|
    case TheTill(t) => true
  }

  function AskOf(d: Desk, x: Party): int
    requires IsParty(d, x) && AsksOne(d, x)
  {
    match x
    case ThePlanner(p) => d.planners[p].todo[0]
    case TheApproval(uid) => if Gripping(d, uid) then CLOCK else d.money.open[uid].wanted[d.money.open[uid].next].bill
    case TheTill(t) => CLOCK
  }

  function Parties(d: Desk): set<Party> {
    (set p | p in d.planners :: ThePlanner(p)) + (set uid | uid in d.money.open :: TheApproval(uid))
    + (set t | t in d.tills :: TheTill(t))
  }

  /** Who holds which locks, and which lock each would take next. */
  ghost function DeskLocks(d: Desk): Waiting<Party> {
    Waiting(map x | x in Parties(d) :: HoldsOf(d, x),
            map x | x in Parties(d) && AsksOne(d, x) :: AskOf(d, x))
  }

  /** Only opening an approval adds a flight, and only a payment changes one. */
  lemma OtherStepsKeepFlights(s: System, m: Action)
    requires Enabled(s, m) && !m.Open? && !m.Record?
    ensures forall uid :: uid in Apply(s, m).open ==> uid in s.open && Apply(s, m).open[uid] == s.open[uid]
    ensures forall uid :: uid in s.open && uid !in Apply(s, m).open ==> (m.Commit? || m.Abort?) && m.uid == uid
  {
  }

  lemma OpenAddsAFlight(s: System, uid: string, allocations: seq<Portion>, expected: Option<int>)
    requires Enabled(s, Open(uid, allocations, expected))
    ensures Apply(s, Open(uid, allocations, expected)).open == s.open[uid := InFlight(expected, PositivePart(allocations), 0, [])]
  {
  }

  /** Nobody is at work. */
  ghost predicate Quiet(d: Desk) {
    d.planners == map[] && d.money.open == map[] && d.grips == {} && d.tills == map[]
  }
}
