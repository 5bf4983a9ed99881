/** How long chains of held rows can get: the foreign keys of the synced tables, and what they mean for
    the cap on attempts. */
module SchemaChains {
  import opened Wrappers
  import opened Deferral
  import opened HeldInbox
  import opened InboxDrains
  import opened InboxChains

  /** The synced tables that link to synced tables or are linked to. */
  datatype Table =
    | Customers | Vendors | Products | Godowns | RegisterShifts | Expenses
    | Invoices | Inventory | PurchaseInvoices | PurchaseOrders | StockLedger | ProductBarcodes | StockTransfers
    | ShiftCashMovements
    | InvoiceLineItems | InvoicePayments | Payments | CustomerRefunds | CustomerCreditAllocations
    | PurchaseInvoiceLineItems | PurchaseOrderLineItems | SupplierPayments | StockTransferLineItems | B2bOrders
    | B2bOrderLineItems

  /** The tables that the foreign keys of a table name; users are not synced. */
  function LinkedTables(t: Table): set<Table> {
    match t
    case Products => {Products}
    case Invoices => {Customers, Godowns, Invoices, RegisterShifts}
    case Inventory => {Vendors, Products, Godowns}
    case PurchaseInvoices => {Vendors, Godowns, PurchaseInvoices}
    case PurchaseOrders => {Vendors}
    case StockLedger => {Products, Godowns}
    case ProductBarcodes => {Products}
    case StockTransfers => {Godowns}
    case ShiftCashMovements => {RegisterShifts, Expenses}
    case InvoiceLineItems => {Invoices, Products}
    case InvoicePayments => {Invoices, Customers, RegisterShifts}
    case Payments => {Invoices, RegisterShifts}
    case CustomerRefunds => {Invoices, Customers, RegisterShifts}
    case CustomerCreditAllocations => {Invoices, Customers}
    case PurchaseInvoiceLineItems => {PurchaseInvoices, Products}
    case PurchaseOrderLineItems => {PurchaseOrders, Products}
    case SupplierPayments => {PurchaseInvoices, Vendors, RegisterShifts}
    case StockTransferLineItems => {StockTransfers, Products}
    case B2bOrders => {Invoices}
    case B2bOrderLineItems => {B2bOrders, Products}
    case _ => {}
  }

  /** The longest way down from a table without a link to itself. */
  function Rank(t: Table): (r: nat)
    ensures r <= 3
  {
    match t
    case B2bOrderLineItems => 3
    case InvoiceLineItems | InvoicePayments | Payments | CustomerRefunds | CustomerCreditAllocations => 2
    case PurchaseInvoiceLineItems | PurchaseOrderLineItems | SupplierPayments | StockTransferLineItems | B2bOrders => 2
    case Invoices | Inventory | PurchaseInvoices | PurchaseOrders | StockLedger | ProductBarcodes => 1
    case StockTransfers | ShiftCashMovements => 1
    case _ => 0
  }

  function Name(t: Table): string {
    match t
    case Customers => "customers"
    case Vendors => "vendors"
    case Products => "products"
    case Godowns => "godowns"
    case RegisterShifts => "register_shifts"
    case Expenses => "expenses"
    case Invoices => "invoices"
    case Inventory => "inventory"
    case PurchaseInvoices => "purchase_invoices"
    case PurchaseOrders => "purchase_orders"
    case StockLedger => "stock_ledger"
    case ProductBarcodes => "product_barcodes"
    case StockTransfers => "stock_transfers"
    case ShiftCashMovements => "shift_cash_movements"
    case InvoiceLineItems => "invoice_line_items"
    case InvoicePayments => "invoice_payments"
    case Payments => "payments"
    case CustomerRefunds => "customer_refunds"
    case CustomerCreditAllocations => "customer_credit_allocations"
    case PurchaseInvoiceLineItems => "purchase_invoice_line_items"
    case PurchaseOrderLineItems => "purchase_order_line_items"
    case SupplierPayments => "supplier_payments"
    case StockTransferLineItems => "stock_transfer_line_items"
    case B2bOrders => "b2b_orders"
    case B2bOrderLineItems => "b2b_order_line_items"
  }

  predicate DrainedLast(t: Table) {
    match t
    case InvoiceLineItems | PurchaseOrderLineItems | PurchaseInvoiceLineItems | InvoicePayments => true
    case StockTransferLineItems | ProductBarcodes | StockLedger | ShiftCashMovements | B2bOrderLineItems => true
    case _ => false
  }

  lemma NamesDecide(t: Table)
    ensures Name(t) in CHILD_LAST <==> DrainedLast(t)
  {
  }

  /** No table links to one that is drained last, and the others have no rank above two. */
  lemma ChildTablesAreLeaves(t: Table)
    ensures forall p :: p in LinkedTables(t) ==> !DrainedLast(p)
    ensures if DrainedLast(t) then Rank(t) > 0 else Rank(t) <= 2
  {
  }

  /** Every link but one to the same table leads to a table of lower rank. */
  lemma LinksDescend(t: Table, p: Table)
    requires p in LinkedTables(t) && p != t
    ensures Rank(p) < Rank(t)
  {
  }

  // ---- rows with any links of the schema ----

  /** The row's table is `tables[key]`, and its parents are in tables that it links to. */
  ghost predicate Typed(tables: map<ParentKey, Table>, r: Held) {
    && r.key in tables && r.key.table == Name(tables[r.key])
    && forall p :: p in r.parents ==> p in tables && p.table == Name(tables[p]) && tables[p] in LinkedTables(tables[r.key])
  }

  /** `nest` bounds the links within one table on the way down from a row. */
  ghost predicate Nested(tables: map<ParentKey, Table>, nest: map<ParentKey, nat>, r: Held) {
    && r.key in nest && r.key in tables
    && forall p :: p in r.parents && p in tables && p in nest ==> nest[p] + (if tables[p] == tables[r.key] then 1 else 0) <= nest[r.key]
  }

  /** A row of a table that is drained last is on the grade of its parents. */
  function Grade(tables: map<ParentKey, Table>, nest: map<ParentKey, nat>, k: ParentKey): nat
    requires k in nest && k in tables
  {
    ChildTablesAreLeaves(tables[k]);
    Rank(tables[k]) + nest[k] - if DrainedLast(tables[k]) then 1 else 0
  }

  lemma LinksKeepGrades(tables: map<ParentKey, Table>, nest: map<ParentKey, nat>, r: Held, q: Held)
    requires Typed(tables, r) && Nested(tables, nest, r) && Typed(tables, q) && Nested(tables, nest, q) && q.key in r.parents
    ensures var depth, parent := Grade(tables, nest, r.key), Grade(tables, nest, q.key);
            parent < depth || (parent == depth && !Late(q) && Late(r))
  {
    NamesDecide(tables[r.key]);
    NamesDecide(tables[q.key]);
    ChildTablesAreLeaves(tables[r.key]);
    if tables[q.key] != tables[r.key] {
      LinksDescend(tables[r.key], tables[q.key]);
    }
  }

  /** The row's parents are here or held. */
  ghost predicate Delivered(box: Box, r: Held) {
    forall p :: p in r.parents ==> p in box.local || exists q :: q in WaitingRows(box.slots) && q.key == p
  }

  /** Held rows whose parents are here or held, of tables that their foreign keys name, nested within
      their own table at most four deep, are all applied by seven drains, in whatever order they
      arrived. */
  lemma SchemaRowsSettle(box: Box, times: seq<int>, tables: map<ParentKey, Table>, nest: map<ParentKey, nat>)
    requires Patient(times) && |times| == MAX_ATTEMPTS && AllDue(box.slots, 0, times[0])
    requires forall r :: r in WaitingRows(box.slots) ==> Typed(tables, r) && Nested(tables, nest, r) && nest[r.key] <= 4
    requires forall r :: r in WaitingRows(box.slots) ==> Delivered(box, r)
    ensures Settles(box, times)
  {
    var depth := map k | k in nest && k in tables :: Grade(tables, nest, k);
    var rows := WaitingRows(box.slots);
    forall r | r in rows
      ensures r.key in depth && depth[r.key] < |times|
      ensures forall p :: p in r.parents ==> p in box.local || Below(rows, depth, p, r)
    {
      assert Typed(tables, r) && Nested(tables, nest, r);
      ChildTablesAreLeaves(tables[r.key]);
      forall p | p in r.parents && p !in box.local
        ensures Below(rows, depth, p, r)
      {
        assert Delivered(box, r);
        var q :| q in rows && q.key == p;
        LinksKeepGrades(tables, nest, r, q);
      }
    }
    ChainsDrainWithinTheCap(box, times, depth);
  }

  // ---- chains ----

  /** A chain of rows of these tables, each linked to the one before it. */
  ghost predicate SchemaChain(start: set<ParentKey>, rows: seq<Held>, tables: seq<Table>) {
    && Chain(start, rows) && |tables| == |rows|
    && (forall i :: 0 <= i < |rows| ==> rows[i].key.table == Name(tables[i]))
    && forall i :: 0 < i < |rows| ==> tables[i - 1] in LinkedTables(tables[i])
  }

  function SelfLinks(tables: seq<Table>): nat {
    if |tables| < 2 then 0
    else SelfLinks(tables[..|tables| - 1]) + if tables[|tables| - 1] == tables[|tables| - 2] then 1 else 0
  }

  lemma {:induction false} RankBoundsLength(tables: seq<Table>)
    requires tables != [] && forall i :: 0 < i < |tables| ==> tables[i - 1] in LinkedTables(tables[i])
    ensures |tables| <= 1 + Rank(tables[|tables| - 1]) + SelfLinks(tables)
  {
    var n := |tables| - 1;
    if n > 0 {
      RankBoundsLength(tables[..n]);
      if tables[n] != tables[n - 1] {
        LinksDescend(tables[n], tables[n - 1]);
      }
    }
  }

  /** A chain has at most four rows more than links within one table. */
  lemma ChainLength(start: set<ParentKey>, rows: seq<Held>, tables: seq<Table>)
    requires SchemaChain(start, rows, tables)
    ensures |rows| <= 4 + SelfLinks(tables)
  {
    if rows != [] {
      RankBoundsLength(tables);
    }
  }

  /** However the rows of the chain arrive, enough patient drains apply them all. */
  ghost predicate AlwaysSettles(start: set<ParentKey>, rows: seq<Held>) {
    forall box: Box, times: seq<int> ::
      Patient(times) && |times| >= |rows| && times != [] && Delivers(box, start, rows, times[0]) ==> Settles(box, times)
  }

  ghost predicate ChainsSettle(s: nat) {
    forall start: set<ParentKey>, rows: seq<Held>, tables: seq<Table> ::
      SchemaChain(start, rows, tables) && SelfLinks(tables) <= s ==> AlwaysSettles(start, rows)
  }

  // ---- which of them drain ----

  /** The rows of tables that are not drained last. */
  function EarlyRows(rows: seq<Held>): nat {
    if rows == [] then 0 else EarlyRows(rows[..|rows| - 1]) + if Late(rows[|rows| - 1]) then 0 else 1
  }

  /** Only the last row of a chain can be of a table that is drained last. */
  lemma OnlyTheLastIsLate(start: set<ParentKey>, rows: seq<Held>, tables: seq<Table>, i: nat)
    requires SchemaChain(start, rows, tables) && i + 1 < |rows|
    ensures !Late(rows[i])
  {
    ChildTablesAreLeaves(tables[i + 1]);
    NamesDecide(tables[i]);
  }

  lemma {:induction false} AllEarly(rows: seq<Held>, n: nat)
    requires n <= |rows| && forall i :: 0 <= i < n ==> !Late(rows[i])
    ensures EarlyRows(rows[..n]) == n && Turns(rows[..n]) == n
  {
    if n > 0 {
      AllEarly(rows, n - 1);
      assert rows[..n][..n - 1] == rows[..n - 1];
    }
  }

  lemma TurnsAreEarlyRows(start: set<ParentKey>, rows: seq<Held>, tables: seq<Table>)
    requires SchemaChain(start, rows, tables)
    ensures Turns(rows) <= MAX_ATTEMPTS <==> EarlyRows(rows) <= MAX_ATTEMPTS
  {
    if rows != [] {
      var n := |rows| - 1;
      forall i: nat | i < n
        ensures !Late(rows[i])
      {
        OnlyTheLastIsLate(start, rows, tables, i);
      }
      AllEarly(rows, n);
    }
  }

  lemma ChainsAlwaysSettleIff(start: set<ParentKey>, rows: seq<Held>)
    requires Chain(start, rows)
    ensures AlwaysSettles(start, rows) <==> Turns(rows) <= MAX_ATTEMPTS
  {
    if Turns(rows) <= MAX_ATTEMPTS {
      forall box: Box, times: seq<int>
        | Patient(times) && |times| >= |rows| && times != [] && Delivers(box, start, rows, times[0])
        ensures Settles(box, times)
      {
        ShortChainSettles(start, rows, box, times);
      }
    } else {
      var times := seq(|rows|, i => i * LONGEST);
      LongChainDoesNotSettle(start, rows, times);
      ChildrenFirstDelivers(start, rows, times[0]);
    }
  }

  /** The rows of a chain always drain, whatever order they arrive in, if and only if at most seven of
      them are of tables that are not drained last. */
  lemma SchemaChainSettlesIff(start: set<ParentKey>, rows: seq<Held>, tables: seq<Table>)
    requires SchemaChain(start, rows, tables)
    ensures AlwaysSettles(start, rows) <==> EarlyRows(rows) <= MAX_ATTEMPTS
  {
    ChainsAlwaysSettleIff(start, rows);
    TurnsAreEarlyRows(start, rows, tables);
  }

  // ---- how many links within one table that allows ----

  lemma EarlyRowsOfAChain(start: set<ParentKey>, rows: seq<Held>, tables: seq<Table>)
    requires SchemaChain(start, rows, tables)
    ensures EarlyRows(rows) <= 3 + SelfLinks(tables)
  {
    if rows != [] {
      var n := |rows| - 1;
      forall i: nat | i < n
        ensures !Late(rows[i])
      {
        OnlyTheLastIsLate(start, rows, tables, i);
      }
      AllEarly(rows, n);
      RankBoundsLength(tables);
      ChildTablesAreLeaves(tables[n]);
      NamesDecide(tables[n]);
    }
  }

  /** A payment, its invoice, five more invoices each linked to the next, and their customer: no row of a
      table that is drained last, and five links within one table. */
  function EightTables(): seq<Table> {
    [Customers, Invoices, Invoices, Invoices, Invoices, Invoices, Invoices, Payments]
  }

  function EightRows(): seq<Held> {
    seq(8, i requires 0 <= i < 8 => Held(KeyAt(i), if i == 0 then {} else {KeyAt(i - 1)}))
  }

  function KeyAt(i: nat): ParentKey
    requires i < 8
  {
    ParentKey(Name(EightTables()[i]), seq(i, _ => 'x'))
  }

  lemma EightAreAChain()
    ensures SchemaChain({}, EightRows(), EightTables()) && SelfLinks(EightTables()) == 5
  {
    forall i, j | 0 <= i < j < 8
      ensures KeyAt(i) != KeyAt(j)
    {
      assert |KeyAt(i).uid| == i && |KeyAt(j).uid| == j;
    }
    EightLinks();
  }

  lemma EightLinks()
    ensures SelfLinks(EightTables()) == 5
    ensures forall i :: 0 < i < 8 ==> EightTables()[i - 1] in LinkedTables(EightTables()[i])
  {
    var t := EightTables();
    assert t[..8] == t;
    SelfLinksNext(t, 2);
    SelfLinksNext(t, 3);
    SelfLinksNext(t, 4);
    SelfLinksNext(t, 5);
    SelfLinksNext(t, 6);
    SelfLinksNext(t, 7);
    SelfLinksNext(t, 8);
  }

  lemma SelfLinksNext(t: seq<Table>, n: nat)
    requires 2 <= n <= |t|
    ensures SelfLinks(t[..n]) == SelfLinks(t[..n - 1]) + if t[n - 1] == t[n - 2] then 1 else 0
    ensures SelfLinks(t[..1]) == 0
  {
    assert t[..n][..n - 1] == t[..n - 1];
  }

  lemma EightAreEarly()
    ensures EarlyRows(EightRows()) == 8
  {
    var rows := EightRows();
    forall i: nat | i < 8
      ensures !Late(rows[i])
    {
      NamesDecide(EightTables()[i]);
    }
    AllEarly(rows, 8);
    assert rows[..8] == rows;
  }

  /** Chains of rows with up to `s` links within one table always drain, whatever order the rows arrive
      in, if and only if `s` is at most four. */
  lemma SchemaChainsSettleIff(s: nat)
    ensures ChainsSettle(s) <==> s <= 4
  {
    if s <= 4 {
      forall start: set<ParentKey>, rows: seq<Held>, tables: seq<Table>
        | SchemaChain(start, rows, tables) && SelfLinks(tables) <= s
        ensures AlwaysSettles(start, rows)
      {
        EarlyRowsOfAChain(start, rows, tables);
        SchemaChainSettlesIff(start, rows, tables);
      }
    } else {
      EightAreAChain();
      EightAreEarly();
      SchemaChainSettlesIff({}, EightRows(), EightTables());
    }
  }
}
