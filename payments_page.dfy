/**
  The payments screen: invoices that are not cancelled, the tenant filter with its list of
  distinct tenant names, the pending / overdue / paid figures and totals, the state tabs,
  and the screen's own selection state.
*/
module PaymentsPage {
  import opened Wrappers
  import opened Text
  import opened Seqs

  datatype InvoiceState = Abierta | Pagada | Vencida | Cancelada

  /** An invoice (`Factura`) as the invoices query returns it; amounts are exact. */
  datatype Invoice = Invoice(
    id: int,
    contratoId: int,
    inquilinoId: int,
    inquilinoNombre: string,
    habitacionId: int,
    habitacionCodigo: string,
    periodoInicio: string,
    periodoFin: string,
    fechaVencimiento: string,
    montoRenta: real,
    estado: InvoiceState,
    esPagada: bool,
    esVencida: bool,
    diasRetraso: int)

  predicate NotCancelled(f: Invoice) { f.estado != Cancelada }

  /** `facturasActivas`. */
  function Active(fs: seq<Invoice>): seq<Invoice>
  {
    Filter(fs, NotCancelled)
  }

  /** The active list is exactly the invoices that are not cancelled, in their original order. */
  lemma ActiveExactly(a: seq<Invoice>, b: seq<Invoice>, f: Invoice)
    ensures f in Active(a) <==> f in a && f.estado != Cancelada
    ensures Active(a + b) == Active(a) + Active(b)
    ensures (forall i :: 0 <= i < |a| ==> a[i].estado != Cancelada) ==> Active(a) == a
  {
    FilterConcat(a, b, NotCancelled);
    if forall i :: 0 <= i < |a| ==> a[i].estado != Cancelada {
      FilterKeepsAll(a, NotCancelled);
    }
  }

  // ---------------------------------------------------------------------------
  // Tenant names
  // ---------------------------------------------------------------------------

  /** The names the `Map` holds after the `forEach`, in first-seen order. */
  function SeenNames(fs: seq<Invoice>): seq<string>
  {
    if fs == [] then []
    else
      var prev := SeenNames(fs[..|fs| - 1]);
      var n := fs[|fs| - 1].inquilinoNombre;
      if n in prev then prev else prev + [n]
  }

  predicate NamedIn(fs: seq<Invoice>, n: string)
  {
    exists i :: 0 <= i < |fs| && fs[i].inquilinoNombre == n
  }

  /** The map keeps each name once, and holds exactly the names of the invoices. */
  lemma {:induction false} SeenNamesProperties(fs: seq<Invoice>)
    ensures NoDuplicates(SeenNames(fs))
    ensures forall n :: n in SeenNames(fs) <==> NamedIn(fs, n)
  {
    if fs != [] {
      var init := fs[..|fs| - 1];
      SeenNamesProperties(init);
      forall n ensures n in SeenNames(fs) <==> NamedIn(fs, n) {
        if NamedIn(init, n) {
          var i :| 0 <= i < |init| && init[i].inquilinoNombre == n;
          assert fs[i] == init[i];
        }
        if NamedIn(fs, n) && n != fs[|fs| - 1].inquilinoNombre {
          var i :| 0 <= i < |fs| && fs[i].inquilinoNombre == n;
          assert init[i] == fs[i];
        }
      }
    }
  }

  lemma LexLePreorder()
    ensures TotalPreorder(LexLe)
  {
    forall a, b ensures LexLe(a, b) || LexLe(b, a) {
      LexLeTotal(a, b);
    }
    forall a, b, c | LexLe(a, b) && LexLe(b, c) ensures LexLe(a, c) {
      LexLeTransitive(a, b, c);
    }
  }

  /** `inquilinos`: each tenant name of the active invoices once, sorted. */
  method TenantNames(active: seq<Invoice>) returns (names: seq<string>)
    ensures NoDuplicates(names)
    ensures SortedBy(names, LexLe)
    ensures forall n :: n in names <==> NamedIn(active, n)
  {
    var seen: seq<string> := [];
    var i := 0;
    while i < |active|
      invariant 0 <= i <= |active|
      invariant seen == SeenNames(active[..i])
    {
      assert active[..i + 1][..i] == active[..i];
      var n := active[i].inquilinoNombre;
      if n !in seen {
        seen := seen + [n];
      }
      i := i + 1;
    }
    assert active[..i] == active;
    LexLePreorder();
    names := SortBy(seen, LexLe);
    SortedNames(active, seen, names);
  }

  lemma SortedNames(active: seq<Invoice>, seen: seq<string>, names: seq<string>)
    requires seen == SeenNames(active) && multiset(names) == multiset(seen)
    ensures NoDuplicates(names)
    ensures forall n :: n in names <==> NamedIn(active, n)
  {
    SeenNamesProperties(active);
    NoDuplicatesMultiset(seen);
    NoDuplicatesMultiset(names);
    forall n ensures n in names <==> n in seen {
      assert n in names <==> n in multiset(names);
      assert n in seen <==> n in multiset(seen);
    }
  }

  /** A sorted list without repeats is strictly ascending, so the select lists each name once in order. */
  lemma SortedDistinctStrict(names: seq<string>)
    requires NoDuplicates(names) && SortedBy(names, LexLe)
    ensures forall i, j :: 0 <= i < j < |names| ==> LexLe(names[i], names[j]) && !LexLe(names[j], names[i])
  {
    forall i, j | 0 <= i < j < |names| ensures !LexLe(names[j], names[i]) {
      if LexLe(names[j], names[i]) {
        LexLeAntisymmetric(names[i], names[j]);
      }
    }
  }

  // ---------------------------------------------------------------------------
  // Filters and figures
  // ---------------------------------------------------------------------------

  const AllTenants := "todos"

  /** `facturasFiltradas`. */
  function ByTenant(active: seq<Invoice>, tenant: string): seq<Invoice>
  {
    if tenant == AllTenants then active else Filter(active, (f: Invoice) => f.inquilinoNombre == tenant)
  }

  /** "todos" keeps the whole list; any other choice keeps exactly that tenant's invoices, in order. */
  lemma ByTenantExactly(active: seq<Invoice>, tenant: string, f: Invoice)
    ensures tenant == AllTenants ==> ByTenant(active, tenant) == active
    ensures tenant != AllTenants ==> (f in ByTenant(active, tenant) <==> f in active && f.inquilinoNombre == tenant)
    ensures tenant != AllTenants ==> forall i :: 0 <= i < |ByTenant(active, tenant)| ==>
      ByTenant(active, tenant)[i].inquilinoNombre == tenant
  {
  }

  predicate Pending(f: Invoice) { !f.esPagada }

  predicate Overdue(f: Invoice) { f.esVencida && !f.esPagada }

  predicate Paid(f: Invoice) { f.esPagada }

  /** `reduce((sum, f) => sum + f.montoRenta, 0)`. */
  function Total(fs: seq<Invoice>): real
  {
    if fs == [] then 0.0 else Total(fs[..|fs| - 1]) + fs[|fs| - 1].montoRenta
  }

  /** The running sum adds up over any split of the list. */
  lemma {:induction false} TotalAppend(a: seq<Invoice>, b: seq<Invoice>)
    ensures Total(a + b) == Total(a) + Total(b)
  {
    if b == [] {
      assert a + b == a;
    } else {
      assert (a + b)[..|a + b| - 1] == a + b[..|b| - 1];
      TotalAppend(a, b[..|b| - 1]);
    }
  }

  lemma TotalCons(x: Invoice, s: seq<Invoice>)
    ensures Total([x] + s) == x.montoRenta + Total(s)
  {
    TotalAppend([x], s);
    assert [x][..0] == [];
  }

  /** Total over a filter and over its complement add up to the whole. */
  lemma {:induction false} TotalSplit(s: seq<Invoice>, p: Invoice -> bool, q: Invoice -> bool)
    requires forall i :: 0 <= i < |s| ==> q(s[i]) == !p(s[i])
    ensures Total(Filter(s, p)) + Total(Filter(s, q)) == Total(s)
  {
    if s != [] {
      TotalSplit(s[1..], p, q);
      TotalCons(s[0], s[1..]);
      assert [s[0]] + s[1..] == s;
      if p(s[0]) {
        TotalCons(s[0], Filter(s[1..], p));
        assert Filter(s, q) == Filter(s[1..], q);
      } else {
        TotalCons(s[0], Filter(s[1..], q));
        assert Filter(s, p) == Filter(s[1..], p);
      }
    }
  }

  lemma PendingPaidSplit(filtered: seq<Invoice>)
    ensures multiset(Filter(filtered, Pending)) + multiset(Filter(filtered, Paid)) == multiset(filtered)
    ensures |Filter(filtered, Pending)| + |Filter(filtered, Paid)| == |filtered|
    ensures Total(Filter(filtered, Pending)) + Total(Filter(filtered, Paid)) == Total(filtered)
  {
    FilterPartition(filtered, Pending, Paid);
    assert |multiset(Filter(filtered, Pending)) + multiset(Filter(filtered, Paid))| == |multiset(filtered)|;
    TotalSplit(filtered, Pending, Paid);
  }

  lemma OverdueArePending(filtered: seq<Invoice>)
    ensures multiset(Filter(filtered, Overdue)) <= multiset(Filter(filtered, Pending))
    ensures |Filter(filtered, Overdue)| <= |Filter(filtered, Pending)|
  {
    FilterStronger(filtered, Pending, Overdue);
    assert |multiset(Filter(filtered, Overdue))| <= |multiset(Filter(filtered, Pending))|;
  }

  /** The figures of the summary cards. */
  datatype Summary = Summary(
    pendingCount: nat, pendingTotal: real,
    overdueCount: nat, overdueTotal: real,
    paidCount: nat, paidTotal: real)

  function Figures(filtered: seq<Invoice>): Summary
  {
    Summary(
      |Filter(filtered, Pending)|, Total(Filter(filtered, Pending)),
      |Filter(filtered, Overdue)|, Total(Filter(filtered, Overdue)),
      |Filter(filtered, Paid)|, Total(Filter(filtered, Paid)))
  }

  /**
    Pending and paid split the filtered invoices: each invoice falls in exactly one, the
    counts and the totals add up, and every overdue invoice is a pending one.
  */
  lemma FiguresConsistent(filtered: seq<Invoice>)
    ensures multiset(Filter(filtered, Pending)) + multiset(Filter(filtered, Paid)) == multiset(filtered)
    ensures Figures(filtered).pendingCount + Figures(filtered).paidCount == |filtered|
    ensures Figures(filtered).pendingTotal + Figures(filtered).paidTotal == Total(filtered)
    ensures multiset(Filter(filtered, Overdue)) <= multiset(Filter(filtered, Pending))
    ensures Figures(filtered).overdueCount <= Figures(filtered).pendingCount
  {
    PendingPaidSplit(filtered);
    OverdueArePending(filtered);
  }

  // ---------------------------------------------------------------------------
  // Tabs and screen state
  // ---------------------------------------------------------------------------

  /** `onValueChange` of the tabs: the state filter the tab asks for; an unknown value keeps the current one. */
  function TabFilter(current: Option<InvoiceState>, tab: string): Option<InvoiceState>
  {
    if tab == "todas" then None
    else if tab == "pendientes" then Some(Abierta)
    else if tab == "vencidas" then Some(Vencida)
    else if tab == "pagadas" then Some(Pagada)
    else current
  }

  /** The four tabs reach four different filters, and no tab asks for cancelled invoices. */
  lemma TabFilterMapping(current: Option<InvoiceState>, tab: string)
    ensures TabFilter(current, "todas") == None
    ensures TabFilter(current, "pendientes") == Some(Abierta)
    ensures TabFilter(current, "vencidas") == Some(Vencida)
    ensures TabFilter(current, "pagadas") == Some(Pagada)
    ensures tab !in ["todas", "pendientes", "vencidas", "pagadas"] ==> TabFilter(current, tab) == current
    ensures current != Some(Cancelada) ==> TabFilter(current, tab) != Some(Cancelada)
  {
  }

  class Screen {
    var stateFilter: Option<InvoiceState>
    var tenantFilter: string
    var selected: Option<Invoice>
    var dialogOpen: bool

    constructor ()
      ensures stateFilter == None && tenantFilter == AllTenants
      ensures selected == None && !dialogOpen
    {
      stateFilter := None;
      tenantFilter := AllTenants;
      selected := None;
      dialogOpen := false;
    }

    method ChangeTab(tab: string)
      modifies this
      ensures stateFilter == TabFilter(old(stateFilter), tab)
      ensures tenantFilter == old(tenantFilter) && selected == old(selected) && dialogOpen == old(dialogOpen)
    {
      if tab == "todas" {
        stateFilter := None;
      } else if tab == "pendientes" {
        stateFilter := Some(Abierta);
      } else if tab == "vencidas" {
        stateFilter := Some(Vencida);
      } else if tab == "pagadas" {
        stateFilter := Some(Pagada);
      }
    }

    method ChangeTenant(tenant: string)
      modifies this
      ensures tenantFilter == tenant
      ensures stateFilter == old(stateFilter) && selected == old(selected) && dialogOpen == old(dialogOpen)
    {
      tenantFilter := tenant;
    }

    /** `handleRegistrarPago`. */
    method RegisterPayment(f: Invoice)
      modifies this
      ensures selected == Some(f) && dialogOpen
      ensures stateFilter == old(stateFilter) && tenantFilter == old(tenantFilter)
    {
      selected := Some(f);
      dialogOpen := true;
    }

    /** `handleCloseDialog`. */
    method CloseDialog()
      modifies this
      ensures selected == None && !dialogOpen
      ensures stateFilter == old(stateFilter) && tenantFilter == old(tenantFilter)
    {
      dialogOpen := false;
      selected := None;
    }

    /** The invoices the table shows for the invoices the query returned, and the card figures. */
    method Shown(invoices: seq<Invoice>) returns (filtered: seq<Invoice>, figures: Summary)
      ensures filtered == ByTenant(Active(invoices), tenantFilter)
      ensures figures == Figures(filtered)
      ensures forall i :: 0 <= i < |filtered| ==> filtered[i] in invoices && filtered[i].estado != Cancelada
    {
      filtered := ByTenant(Active(invoices), tenantFilter);
      figures := Figures(filtered);
      forall i | 0 <= i < |filtered| ensures filtered[i] in invoices && filtered[i].estado != Cancelada {
        assert filtered[i] in Active(invoices);
      }
    }
  }
}
