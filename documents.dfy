/** The three document kinds and their ownership tree: a dashboard owns rows,
    a row owns panels. A node returned by a lookup carries the way back to its
    owner, which stands for the `parent` back-reference of the documents module. */
module Documents {
  import opened Errors

  /** Every JSON field of a node other than its name and its children, kept verbatim. */
  type Attrs = string

  datatype Panel = Panel(name: string, attrs: Attrs)
  datatype Row = Row(name: string, attrs: Attrs, panels: seq<Panel>)
  datatype Dashboard = Dashboard(name: string, attrs: Attrs, rows: seq<Row>)

  /** A parsed document of one of the three kinds; it is also what `.source` renders. */
  datatype Doc = DashboardDoc(dashboard: Dashboard) | RowDoc(row: Row) | PanelDoc(panel: Panel)

  datatype Kind = DashboardKind | RowKind | PanelKind

  function KindOf(d: Doc): Kind
  {
    match d
    case DashboardDoc(_) => DashboardKind
    case RowDoc(_) => RowKind
    case PanelDoc(_) => PanelKind
  }

  /** `.name` of a document. */
  function DocName(d: Doc): string
  {
    match d
    case DashboardDoc(x) => x.name
    case RowDoc(x) => x.name
    case PanelDoc(x) => x.name
  }

  /** The same document under another name. */
  function Renamed(d: Doc, name: string): Doc
  {
    match d
    case DashboardDoc(x) => DashboardDoc(x.(name := name))
    case RowDoc(x) => RowDoc(x.(name := name))
    case PanelDoc(x) => PanelDoc(x.(name := name))
  }

  /** `[row.name for row in rows]` */
  function RowNames(rows: seq<Row>): seq<string>
  {
    seq(|rows|, i requires 0 <= i < |rows| => rows[i].name)
  }

  /** `[panel.name for panel in panels]` */
  function PanelNames(panels: seq<Panel>): seq<string>
  {
    seq(|panels|, i requires 0 <= i < |panels| => panels[i].name)
  }

  /** Exact, case-sensitive lookup: the position of the first entry equal to `name`. */
  function FirstIndex(names: seq<string>, name: string): (r: Option<nat>)
    ensures r.None? <==> name !in names
    ensures r.Some? ==> r.value < |names| && names[r.value] == name && name !in names[..r.value]
  {
    if names == [] then None
    else if names[0] == name then Some(0)
    else match FirstIndex(names[1..], name)
      case None => None
      case Some(i) =>
        assert names[..i + 1] == [names[0]] + names[1..][..i];
        Some(i + 1)
  }

  // Parsing. A file of another kind lacks the fields the parser needs.

  /** `Dashboard(source, name)`: a dashboard takes its name from its file name. */
  function ParseDashboard(source: Doc, fileName: string): (r: Result<Dashboard>)
    ensures r.Ok? <==> KindOf(source) == DashboardKind
    ensures r.Err? ==> r.error == InvalidDocument
    ensures r.Ok? ==> DashboardDoc(r.value) == Renamed(source, fileName)
  {
    if source.DashboardDoc? then Ok(source.dashboard.(name := fileName)) else Err(InvalidDocument)
  }

  /** `Row(source)`: a row takes its name from its own source. */
  function ParseRow(source: Doc): (r: Result<Row>)
    ensures r.Ok? <==> KindOf(source) == RowKind
    ensures r.Err? ==> r.error == InvalidDocument
    ensures r.Ok? ==> RowDoc(r.value) == source
  {
    if source.RowDoc? then Ok(source.row) else Err(InvalidDocument)
  }

  /** `Panel(source)`: a panel takes its name from its own source. */
  function ParsePanel(source: Doc): (r: Result<Panel>)
    ensures r.Ok? <==> KindOf(source) == PanelKind
    ensures r.Err? ==> r.error == InvalidDocument
    ensures r.Ok? ==> PanelDoc(r.value) == source
  {
    if source.PanelDoc? then Ok(source.panel) else Err(InvalidDocument)
  }

  // Nodes with their way back to the owner.

  /** Where a row sits: on its own (no parent), or inside a dashboard between two runs of siblings. */
  datatype RowContext =
    | TopRow
    | InDashboard(dashboardName: string, dashboardAttrs: Attrs, rowsBefore: seq<Row>, rowsAfter: seq<Row>)

  /** Where a panel sits: on its own, or inside a row (which may itself sit inside a dashboard). */
  datatype PanelContext =
    | TopPanel
    | InRow(rowName: string, rowAttrs: Attrs, panelsBefore: seq<Panel>, panelsAfter: seq<Panel>, up: RowContext)

  /** A document node as `get` returns it: the node and its parent chain. */
  datatype Node =
    | DashboardNode(dashboard: Dashboard)
    | RowNode(row: Row, rowContext: RowContext)
    | PanelNode(panel: Panel, panelContext: PanelContext)

  /** `.source` of a node. */
  function Source(n: Node): Doc
  {
    match n
    case DashboardNode(d) => DashboardDoc(d)
    case RowNode(r, _) => RowDoc(r)
    case PanelNode(p, _) => PanelDoc(p)
  }

  function RowDepth(c: RowContext): nat
  {
    if c.TopRow? then 0 else 1
  }

  /** How many `parent` links lead from the node to its top-level owner. */
  function Depth(n: Node): (d: nat)
    ensures d <= 2
  {
    match n
    case DashboardNode(_) => 0
    case RowNode(_, c) => RowDepth(c)
    case PanelNode(_, TopPanel) => 0
    case PanelNode(_, InRow(_, _, _, _, up)) => 1 + RowDepth(up)
  }

  /** `.parent`: the owner, rebuilt around the node as it is now, so that a
      change to the node is seen through its parent as it is through the
      shared object in the documents module. */
  function Parent(n: Node): (p: Option<Node>)
    ensures p.None? <==> Depth(n) == 0
    ensures p.Some? ==> Depth(p.value) + 1 == Depth(n)
  {
    match n
    case DashboardNode(_) => None
    case RowNode(_, TopRow) => None
    case RowNode(row, InDashboard(name, attrs, before, after)) =>
      Some(DashboardNode(Dashboard(name, attrs, before + [row] + after)))
    case PanelNode(_, TopPanel) => None
    case PanelNode(panel, InRow(name, attrs, before, after, up)) =>
      Some(RowNode(Row(name, attrs, before + [panel] + after), up))
  }

  /** The node reached by following `parent` until there is none. */
  function Root(n: Node): (r: Node)
    ensures Parent(r).None?
    ensures Depth(n) == 0 ==> r == n
    decreases Depth(n)
  {
    match Parent(n)
    case None => n
    case Some(p) => Root(p)
  }

  /** `dashboard.row(name)`: the first row called `name`, whose parent is the dashboard. */
  function RowOf(dashboard: Dashboard, name: string): (r: Result<Node>)
    ensures r.Ok? <==> name in RowNames(dashboard.rows)
    ensures r.Err? ==> r.error == DocumentNotFound
    ensures r.Ok? ==>
              && r.value.RowNode? && r.value.row.name == name && r.value.rowContext.InDashboard?
              && name !in RowNames(r.value.rowContext.rowsBefore)
              && Parent(r.value) == Some(DashboardNode(dashboard))
  {
    var rows := dashboard.rows;
    match FirstIndex(RowNames(rows), name)
    case None => Err(DocumentNotFound)
    case Some(i) =>
      assert RowNames(rows[..i]) == RowNames(rows)[..i];
      assert rows[..i] + [rows[i]] + rows[i + 1..] == rows;
      Ok(RowNode(rows[i], InDashboard(dashboard.name, dashboard.attrs, rows[..i], rows[i + 1..])))
  }

  /** `row.panel(name)`: the first panel of the row called `name`, whose parent is the row. */
  function PanelOf(row: Row, rowContext: RowContext, name: string): (r: Result<Node>)
    ensures r.Ok? <==> name in PanelNames(row.panels)
    ensures r.Err? ==> r.error == DocumentNotFound
    ensures r.Ok? ==>
              && r.value.PanelNode? && r.value.panel.name == name && r.value.panelContext.InRow?
              && name !in PanelNames(r.value.panelContext.panelsBefore)
              && Parent(r.value) == Some(RowNode(row, rowContext))
  {
    var panels := row.panels;
    match FirstIndex(PanelNames(panels), name)
    case None => Err(DocumentNotFound)
    case Some(i) =>
      assert PanelNames(panels[..i]) == PanelNames(panels)[..i];
      assert panels[..i] + [panels[i]] + panels[i + 1..] == panels;
      Ok(PanelNode(panels[i], InRow(row.name, row.attrs, panels[..i], panels[i + 1..], rowContext)))
  }

  function NodeKind(n: Node): Kind
  {
    KindOf(Source(n))
  }

  /** `.name` of a node. */
  function NodeName(n: Node): string
  {
    DocName(Source(n))
  }

  /** The two nodes sit at the same place of the same owner. */
  predicate SamePlace(a: Node, b: Node)
  {
    match (a, b)
    case (DashboardNode(_), DashboardNode(_)) => true
    case (RowNode(_, c), RowNode(_, d)) => c == d
    case (PanelNode(_, c), PanelNode(_, d)) => c == d
    case _ => false
  }

  /** `target.update(incoming)`: the node takes the incoming document's content
      and keeps its own name and its place in its owner. */
  function Update(target: Node, incoming: Doc): (r: Result<Node>)
    ensures r.Ok? <==> NodeKind(target) == KindOf(incoming)
    ensures r.Err? ==> r.error == InvalidDocument
    ensures r.Ok? ==> Source(r.value) == Renamed(incoming, NodeName(target)) && SamePlace(r.value, target)
  {
    match (target, incoming)
    case (DashboardNode(d), DashboardDoc(x)) => Ok(DashboardNode(x.(name := d.name)))
    case (RowNode(r, c), RowDoc(x)) => Ok(RowNode(x.(name := r.name), c))
    case (PanelNode(p, c), PanelDoc(x)) => Ok(PanelNode(x.(name := p.name), c))
    case _ => Err(InvalidDocument)
  }
}
