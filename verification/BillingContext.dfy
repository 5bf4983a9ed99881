/** The per-request cache of billing customers, invoices and balances. */
module BillingContext {
  import opened Wrappers
  import opened Balances

  /** A row of billing, named by its business and its id. */
  type Key = (nat, nat)

  datatype Shop = Shop(business: nat, customer: Option<nat>)

  datatype Task = Task(business: nat, shop: Option<Shop>, lines: seq<nat>)

  /** What a task shows for one of its bills: its balance, when it is available. */
  datatype Live = Live(available: bool, balance: Option<Balance>)

  /** The customers and invoices of a business, as the tables hold them. */
  function CustomerRow(db: Database, k: Key): Option<nat> {
    if k.1 in db.customers && db.customers[k.1] == k.0 then Some(k.1) else None
  }

  function FindInvoice(rows: seq<Invoice>, k: Key): (r: Option<Invoice>)
    ensures r.Some? ==> r.value in rows && r.value.business == k.0 && r.value.id == k.1
    ensures r.None? ==> forall inv :: inv in rows && inv.business == k.0 ==> inv.id != k.1
  {
    if rows == [] then None
    else if rows[0].business == k.0 && rows[0].id == k.1 then Some(rows[0])
    else FindInvoice(rows[1..], k)
  }

  function InvoiceRow(db: Database, k: Key): Option<Invoice> {
    FindInvoice(db.invoices, k)
  }

  // ---- without a cache ----

  function CustomerOf(db: Database, shop: Shop): Option<nat> {
    if shop.customer.Some? then CustomerRow(db, (shop.business, shop.customer.value)) else None
  }

  function LiveLine(db: Database, task: Task, line: nat): Live {
    var customer := if task.shop.Some? then CustomerOf(db, task.shop.value) else None;
    var inv := InvoiceRow(db, (task.business, line));
    if customer.Some? && inv.Some? && inv.value.customer == customer && !inv.value.creditNote && !inv.value.closed
    then Live(true, Some(BalanceOf(db, inv.value)))
    else Live(false, None)
  }

  /** Per bill of the task, what it shows; a bill named twice shows once. */
  function LiveLines(db: Database, task: Task): map<nat, Live> {
    map line | line in task.lines :: LiveLine(db, task, line)
  }

  // ---- the cache ----

  class BillingReadContext {
    const db: Database
    var customers: map<Key, Option<nat>>
    var invoices: map<Key, Option<Invoice>>
    var balances: map<Key, Balance>

    /** Everything cached is what the tables hold, absences included. */
    ghost predicate Valid()
      reads this
    {
      && UniqueInvoices(db.invoices)
      && (forall k :: k in customers ==> customers[k] == CustomerRow(db, k))
      && (forall k :: k in invoices ==> invoices[k] == InvoiceRow(db, k))
      && (forall k :: k in balances <==> k in invoices && invoices[k].Some?)
      && (forall k :: k in balances ==> balances[k] == BalanceOf(db, invoices[k].value))
    }

    constructor (db: Database)
      requires UniqueInvoices(db.invoices)
      ensures Valid() && this.db == db && customers == map[] && invoices == map[]
    {
      this.db := db;
      customers, invoices, balances := map[], map[], map[];
    }

    method PrimeCustomers(keys: set<Key>)
      requires Valid()
      modifies this`customers
      ensures Valid() && customers.Keys == old(customers.Keys) + keys
    {
      customers := customers + map k | k in keys :: CustomerRow(db, k);
    }

    /** Reads the invoices of one business, and their balances in one batch. */
    method PrimeInvoices(business: nat, ids: set<nat>)
      requires Valid()
      modifies this`invoices, this`balances
      ensures Valid() && invoices.Keys == old(invoices.Keys) + set id | id in ids :: (business, id)
    {
      var keys := set id | id in ids :: (business, id);
      var some := ReadBalances(business, ids);
      invoices := invoices + map k | k in keys :: InvoiceRow(db, k);
      balances := balances + some;
    }

    method ReadBalances(business: nat, ids: set<nat>) returns (some: map<Key, Balance>)
      requires UniqueInvoices(db.invoices)
      ensures forall k :: k in some <==> k.0 == business && k.1 in ids && InvoiceRow(db, k).Some?
      ensures forall k :: k in some ==> some[k] == BalanceOf(db, InvoiceRow(db, k).value)
    {
      var rows := InvoicesIn(db.invoices, business, ids);
      InvoicesInRows(db.invoices, business, ids);
      var byId := InvoiceBalances(db, rows);
      var keys := set id | id in ids :: (business, id);
      forall k | k in keys && InvoiceRow(db, k).Some?
        ensures k.1 in byId && byId[k.1] == BalanceOf(db, InvoiceRow(db, k).value)
      {
        assert InvoiceRow(db, k).value in rows;
      }
      some := map k | k in keys && InvoiceRow(db, k).Some? :: byId[k.1];
    }

    /** Adds whatever the shops and tasks need and is not there yet. */
    method Prime(shops: seq<Shop>, tasks: seq<Task>)
      requires Valid()
      modifies this
      ensures Valid() && Primed(shops, tasks)
      ensures old(customers.Keys) <= customers.Keys && old(invoices.Keys) <= invoices.Keys
    {
      var missing: set<Key> := {};
      var all := shops + ShopsOf(tasks);
      for i := 0 to |all|
        invariant forall j :: 0 <= j < i && all[j].customer.Some? ==>
          (all[j].business, all[j].customer.value) in customers.Keys + missing
      {
        if all[i].customer.Some? && (all[i].business, all[i].customer.value) !in customers {
          missing := missing + {(all[i].business, all[i].customer.value)};
        }
      }
      PrimeCustomers(missing);
      var wanted: map<nat, set<nat>> := map[];
      for i := 0 to |tasks|
        invariant forall j, line :: 0 <= j < i && line in tasks[j].lines ==>
          (tasks[j].business, line) in invoices || line in Ids(wanted, tasks[j].business)
      {
        var ids := set line | line in tasks[i].lines && (tasks[i].business, line) !in invoices;
        wanted := wanted[tasks[i].business := Ids(wanted, tasks[i].business) + ids];
      }
      PrimeAll(wanted);
      forall i | 0 <= i < |shops|
        ensures shops[i].customer.Some? ==> (shops[i].business, shops[i].customer.value) in customers
      {
        assert all[i] == shops[i];
      }
      forall i | 0 <= i < |tasks|
        ensures PrimedTask(tasks[i])
      {
        if tasks[i].shop.Some? {
          ShopsAreThere(tasks, i);
          var k :| 0 <= k < |ShopsOf(tasks)| && ShopsOf(tasks)[k] == tasks[i].shop.value;
          assert all[|shops| + k] == tasks[i].shop.value;
        }
      }
    }

    method PrimeAll(wanted: map<nat, set<nat>>)
      requires Valid()
      modifies this`invoices, this`balances
      ensures Valid() && old(invoices.Keys) <= invoices.Keys
      ensures forall b, id :: b in wanted && id in wanted[b] ==> (b, id) in invoices
    {
      var left := wanted.Keys;
      while left != {}
        invariant Valid() && left <= wanted.Keys && old(invoices.Keys) <= invoices.Keys
        invariant forall b, id :: b in wanted.Keys - left && id in wanted[b] ==> (b, id) in invoices
        decreases |left|
      {
        var b :| b in left;
        PrimeInvoices(b, wanted[b]);
        left := left - {b};
      }
    }

    ghost predicate PrimedTask(task: Task)
      reads this
    {
      && (task.shop.Some? && task.shop.value.customer.Some? ==>
            (task.shop.value.business, task.shop.value.customer.value) in customers)
      && forall line :: line in task.lines ==> (task.business, line) in invoices
    }

    ghost predicate Primed(shops: seq<Shop>, tasks: seq<Task>)
      reads this
    {
      && (forall i :: 0 <= i < |shops| && shops[i].customer.Some? ==> (shops[i].business, shops[i].customer.value) in customers)
      && (forall i :: 0 <= i < |tasks| ==> PrimedTask(tasks[i]))
    }

    /** The customer of a shop, as without a cache. */
    method Customer(shop: Shop) returns (r: Option<nat>)
      requires Valid()
      modifies this
      ensures Valid() && r == CustomerOf(db, shop)
      ensures old(customers.Keys) <= customers.Keys && old(invoices.Keys) <= invoices.Keys
    {
      Prime([shop], []);
      assert [shop][0] == shop;
      if shop.customer.None? {
        return None;
      }
      return customers[(shop.business, shop.customer.value)];
    }

    method ReadLine(task: Task, customer: Option<nat>, line: nat) returns (live: Live)
      requires Valid() && (task.business, line) in invoices
      requires customer == if task.shop.Some? then CustomerOf(db, task.shop.value) else None
      ensures live == LiveLine(db, task, line)
    {
      var inv := invoices[(task.business, line)];
      var available := customer.Some? && inv.Some? && inv.value.customer == customer && !inv.value.creditNote && !inv.value.closed;
      return Live(available, if available then Some(balances[(task.business, line)]) else None);
    }

    /** What a task shows: whatever was primed before, just what the tables hold. */
    method TaskBalances(task: Task) returns (available: Option<bool>, due: Option<int>, live: map<nat, Live>)
      requires Valid()
      modifies this
      ensures Valid() && live == LiveLines(db, task)
      ensures available == if task.lines == [] then None else Some(AllAvailable(db, task))
      ensures due == if available == Some(true) then Some(DueOn(db, task, task.lines)) else None
    {
      Prime([], [task]);
      assert PrimedTask([task][0]);
      var customer := None;
      if task.shop.Some? {
        customer := Customer(task.shop.value);
      }
      var all, sum;
      live, all, sum := ReadLines(task, customer);
      available := if task.lines == [] then None else Some(all);
      due := if available == Some(true) then Some(sum) else None;
    }

    method ReadLines(task: Task, customer: Option<nat>) returns (live: map<nat, Live>, all: bool, sum: int)
      requires Valid() && forall line :: line in task.lines ==> (task.business, line) in invoices
      requires customer == if task.shop.Some? then CustomerOf(db, task.shop.value) else None
      ensures live == LiveLines(db, task) && all == AllAvailable(db, task) && sum == DueOn(db, task, task.lines)
    {
      live, all, sum := map[], true, 0;
      for i := 0 to |task.lines|
        invariant live == LiveLines(db, task.(lines := task.lines[..i]))
        invariant all == AllAvailable(db, task.(lines := task.lines[..i]))
        invariant sum == DueOn(db, task, task.lines[..i])
      {
        var line := task.lines[i];
        assert line in task.lines;
        var one := ReadLine(task, customer, line);
        all := all && one.available;
        sum := sum + if one.available && line !in live then one.balance.value.outstanding else 0;
        OneMoreLine(db, task, i);
        live := live[line := one];
      }
      assert task.lines[..|task.lines|] == task.lines && task.(lines := task.lines) == task;
    }
  }

  predicate AllAvailable(db: Database, task: Task) {
    forall line :: line in task.lines ==> LiveLine(db, task, line).available
  }

  /** What is owed on the lines that are available, each counted once. */
  function DueOn(db: Database, task: Task, lines: seq<nat>): int {
    if lines == [] then 0
    else
      var front, line := lines[..|lines| - 1], lines[|lines| - 1];
      var one := LiveLine(db, task, line);
      DueOn(db, task, front) + if one.available && line !in front then one.balance.value.outstanding else 0
  }

  lemma OneMoreLine(db: Database, task: Task, i: nat)
    requires i < |task.lines|
    ensures var line := task.lines[i];
            var before, after := task.(lines := task.lines[..i]), task.(lines := task.lines[..i + 1]);
            && LiveLines(db, after) == LiveLines(db, before)[line := LiveLine(db, task, line)]
            && (AllAvailable(db, after) <==> AllAvailable(db, before) && LiveLine(db, task, line).available)
            && DueOn(db, task, task.lines[..i + 1]) == DueOn(db, task, task.lines[..i])
                 + (if LiveLine(db, task, line).available && line !in LiveLines(db, before)
                    then LiveLine(db, task, line).balance.value.outstanding else 0)
  {
    assert task.lines[..i + 1] == task.lines[..i] + [task.lines[i]];
    assert task.lines[..i + 1][..i] == task.lines[..i];
    var before, after := task.(lines := task.lines[..i]), task.(lines := task.lines[..i + 1]);
    assert forall line :: line in task.lines ==> LiveLine(db, task, line) == LiveLine(db, before, line) == LiveLine(db, after, line);
  }

  // ---- what a task shows, without the lookups ----

  ghost predicate IsCustomer(db: Database, shop: Shop, customer: nat) {
    shop.customer == Some(customer) && customer in db.customers && db.customers[customer] == shop.business
  }

  /** A shop's customer is the one it names, if that is a customer of the shop's business. */
  lemma CustomerIff(db: Database, shop: Shop, customer: nat)
    ensures CustomerOf(db, shop) == Some(customer) <==> IsCustomer(db, shop, customer)
  {
  }

  /** The bill a line of a task stands for: one of the task's business, given to the customer of its shop,
      no credit note and not closed. */
  ghost predicate IsLive(db: Database, task: Task, line: nat, inv: Invoice) {
    && inv in db.invoices && inv.business == task.business && inv.id == line && !inv.creditNote && !inv.closed
    && task.shop.Some? && inv.customer.Some? && IsCustomer(db, task.shop.value, inv.customer.value)
  }

  /** A line is available exactly when there is such a bill, and then shows the balance of just that bill. */
  lemma LineIsLiveIff(db: Database, task: Task, line: nat)
    requires UniqueInvoices(db.invoices)
    ensures LiveLine(db, task, line).available <==> exists inv :: IsLive(db, task, line, inv)
    ensures forall inv :: IsLive(db, task, line, inv) ==> LiveLine(db, task, line) == Live(true, Some(BalanceOf(db, inv)))
    ensures (forall inv :: !IsLive(db, task, line, inv)) ==> LiveLine(db, task, line) == Live(false, None)
  {
    var row := InvoiceRow(db, (task.business, line));
    if LiveLine(db, task, line).available {
      CustomerIff(db, task.shop.value, row.value.customer.value);
      assert IsLive(db, task, line, row.value);
    }
    forall inv | IsLive(db, task, line, inv)
      ensures LiveLine(db, task, line) == Live(true, Some(BalanceOf(db, inv)))
    {
      CustomerIff(db, task.shop.value, inv.customer.value);
      SameInvoice(db, inv, row.value);
    }
  }

  lemma SameInvoice(db: Database, inv: Invoice, other: Invoice)
    requires UniqueInvoices(db.invoices) && inv in db.invoices && other in db.invoices && inv.id == other.id
    ensures inv == other
  {
  }

  /** The amount due: nothing on no lines, and with one more line what that bill still owes, if it is
      available and was not named before. */
  lemma DueAddsUp(db: Database, task: Task, lines: seq<nat>, line: nat)
    requires UniqueInvoices(db.invoices)
    ensures DueOn(db, task, []) == 0
    ensures line in lines || (forall inv :: !IsLive(db, task, line, inv)) ==>
              DueOn(db, task, lines + [line]) == DueOn(db, task, lines)
    ensures forall inv :: line !in lines && IsLive(db, task, line, inv) ==>
              DueOn(db, task, lines + [line]) == DueOn(db, task, lines) + BalanceOf(db, inv).outstanding
  {
    LineIsLiveIff(db, task, line);
    assert (lines + [line])[..|lines|] == lines;
  }

  function Ids(wanted: map<nat, set<nat>>, business: nat): set<nat> {
    if business in wanted then wanted[business] else {}
  }

  function ShopsOf(tasks: seq<Task>): seq<Shop> {
    if tasks == [] then []
    else (if tasks[0].shop.Some? then [tasks[0].shop.value] else []) + ShopsOf(tasks[1..])
  }

  lemma {:induction false} ShopsAreThere(tasks: seq<Task>, i: nat)
    requires i < |tasks| && tasks[i].shop.Some?
    ensures exists k :: 0 <= k < |ShopsOf(tasks)| && ShopsOf(tasks)[k] == tasks[i].shop.value
  {
    if i == 0 {
      assert ShopsOf(tasks)[0] == tasks[0].shop.value;
    } else {
      ShopsAreThere(tasks[1..], i - 1);
      var k :| 0 <= k < |ShopsOf(tasks[1..])| && ShopsOf(tasks[1..])[k] == tasks[i].shop.value;
      assert ShopsOf(tasks)[|ShopsOf(tasks)| - |ShopsOf(tasks[1..])| + k] == tasks[i].shop.value;
    }
  }

  function InvoicesIn(rows: seq<Invoice>, business: nat, ids: set<nat>): seq<Invoice> {
    if rows == [] then []
    else (if rows[0].business == business && rows[0].id in ids then [rows[0]] else []) + InvoicesIn(rows[1..], business, ids)
  }

  lemma {:induction false} InvoicesInMembers(rows: seq<Invoice>, business: nat, ids: set<nat>)
    ensures forall inv :: inv in InvoicesIn(rows, business, ids) <==> inv in rows && inv.business == business && inv.id in ids
  {
    if rows != [] {
      InvoicesInMembers(rows[1..], business, ids);
      assert rows == [rows[0]] + rows[1..];
    }
  }

  lemma InvoicesInRows(rows: seq<Invoice>, business: nat, ids: set<nat>)
    requires UniqueInvoices(rows)
    ensures UniqueInvoices(InvoicesIn(rows, business, ids))
    ensures forall inv :: inv in InvoicesIn(rows, business, ids) <==> inv in rows && inv.business == business && inv.id in ids
  {
    InvoicesInMembers(rows, business, ids);
    var some := InvoicesIn(rows, business, ids);
    forall j, k | 0 <= j < |some| && 0 <= k < |some| && some[j].id == some[k].id
      ensures some[j] == some[k]
    {
      assert some[j] in rows && some[k] in rows;
    }
  }
}
