/** What `list`, `get` and `save` of the local resources compute, as functions
    of the path and of the three category directories. */
module LocalSpec {
  import opened Errors
  import opened Documents
  import opened FileFormat

  /** The three top-level categories, one directory each. */
  datatype Category = Dashboards | Rows | Panels

  function CategoryName(c: Category): string
  {
    match c
    case Dashboards => "dashboards"
    case Rows => "rows"
    case Panels => "panels"
  }

  /** `directory in LOCAL_RESOURCES`, and which category it names. */
  function ParseCategory(s: string): (r: Option<Category>)
    ensures r.Some? <==> s == "dashboards" || s == "rows" || s == "panels"
    ensures r.Some? ==> CategoryName(r.value) == s
  {
    if s == "dashboards" then Some(Dashboards)
    else if s == "rows" then Some(Rows)
    else if s == "panels" then Some(Panels)
    else None
  }

  /** `DIR_DOCUMENTS`: the kind of a document stored directly in the category. */
  function DocumentKind(c: Category): Kind
  {
    match c
    case Dashboards => DashboardKind
    case Rows => RowKind
    case Panels => PanelKind
  }

  /** How many segments after the category `get` accepts. */
  function MaxGetDepth(c: Category): nat
  {
    match c
    case Dashboards => 3
    case Rows => 2
    case Panels => 1
  }

  /** One directory: file name (extension included) to the document it holds. */
  type Folder = map<string, Doc>

  /** The data directory: a category without an entry has no directory on disk. */
  type Store = map<Category, Folder>

  /** `make_local_dirs`: each missing category directory is created empty; existing ones are left alone. */
  function MakeLocalDirs(store: Store): (r: Store)
    ensures Dashboards in r && Rows in r && Panels in r
    ensures forall c :: c in store ==> c in r && r[c] == store[c]
    ensures forall c :: c in r && c !in store ==> r[c] == map[]
  {
    map c | c in store.Keys + {Dashboards, Rows, Panels} :: if c in store then store[c] else map[]
  }

  /** The i-th of the values popped by `parts.pop(0) if parts else None`. */
  function Seg(rest: seq<string>, i: nat): Option<string>
  {
    if i < |rest| then Some(rest[i]) else None
  }

  /** Python truthiness of an optional name: present and not empty. */
  predicate Truthy(s: Option<string>)
  {
    s.Some? && s.value != ""
  }

  /** What is left of a list after `k` pops from its front. */
  function Drop(s: seq<string>, k: nat): seq<string>
  {
    if k <= |s| then s[k..] else []
  }

  /** `read_file`: the document in `<name>.json`, or DocumentNotFound. */
  function ReadFile(store: Store, c: Category, name: Option<string>): (r: Result<Doc>)
    ensures r.Ok? <==> Truthy(name) && c in store && ToFileFormat(name.value) in store[c]
    ensures r.Err? ==> r.error == DocumentNotFound
    ensures r.Ok? ==> r.value == store[c][ToFileFormat(name.value)]
  {
    if !Truthy(name) || c !in store || ToFileFormat(name.value) !in store[c] then Err(DocumentNotFound)
    else Ok(store[c][ToFileFormat(name.value)])
  }

  /** `write_file`: `<name>.json` is created or overwritten; `open` fails when the directory is missing. */
  function WriteFile(store: Store, c: Category, name: string, data: Doc): (r: Result<Store>)
    ensures r.Ok? <==> c in store
    ensures r.Err? ==> r.error == OSError
    ensures r.Ok? ==> && r.value.Keys == store.Keys
                      && r.value[c].Keys == store[c].Keys + {ToFileFormat(name)}
                      && r.value[c][ToFileFormat(name)] == data
                      && (forall f :: f in store[c] && f != ToFileFormat(name) ==> r.value[c][f] == store[c][f])
                      && (forall d :: d in store && d != c ==> r.value[d] == store[d])
  {
    if c !in store then Err(OSError)
    else Ok(store[c := store[c][ToFileFormat(name) := data]])
  }

  // list

  /** What `list` returns: the entries of a directory (before `from_file_format`
      is applied to each), or the names of a node's children in order. */
  datatype Listing = Files(entries: set<string>) | Children(names: seq<string>)

  function List(store: Store, parts: seq<string>): (r: Result<Listing>)
    ensures r.Ok? ==> parts != [] && ParseCategory(parts[0]).Some?
    ensures r.Ok? && r.value.Files? ==>
              && |parts| == 1 && ParseCategory(parts[0]).value in store
              && r.value.entries == store[ParseCategory(parts[0]).value].Keys
  {
    if parts == [] then Err(IndexError)
    else match ParseCategory(parts[0])
      case None => Err(InvalidPath)
      case Some(c) =>
        var rest := parts[1..];
        if rest == [] then
          if c in store then Ok(Files(store[c].Keys)) else Err(InvalidPath)
        else match c
          case Dashboards => AsChildren(ListDashboards(store, rest))
          case Rows => AsChildren(ListRows(store, rest))
          case Panels => AsChildren(ListPanels(rest))
  }

  function AsChildren(r: Result<seq<string>>): Result<Listing>
  {
    match r
    case Ok(names) => Ok(Children(names))
    case Err(e) => Err(e)
  }

  /** `_list_dashboards`: rows of the dashboard, or panels of one of its rows.
      Naming a panel below the row is always InvalidPath, whether or not the
      row has that panel (the source only words the two messages differently). */
  function ListDashboards(store: Store, rest: seq<string>): (r: Result<seq<string>>)
    ensures r.Ok? ==> rest != [] && rest[0] != "" && Dashboards in store && ToFileFormat(rest[0]) in store[Dashboards]
  {
    var dashboardName, rowName, panelName := Seg(rest, 0), Seg(rest, 1), Seg(rest, 2);
    var source :- ReadFile(store, Dashboards, dashboardName);
    var dashboard :- ParseDashboard(source, dashboardName.value);
    if !Truthy(rowName) then Ok(RowNames(dashboard.rows))
    else
      var row :- RowOf(dashboard, rowName.value);
      if Truthy(panelName) then Err(InvalidPath)
      else Ok(PanelNames(row.row.panels))
  }

  /** `_list_rows`: panels of a stored row; nothing may follow the row's name. */
  function ListRows(store: Store, rest: seq<string>): (r: Result<seq<string>>)
    ensures r.Ok? ==> |rest| == 1 && rest[0] != "" && Rows in store && ToFileFormat(rest[0]) in store[Rows]
  {
    var rowName := Seg(rest, 0);
    if |rest| > 1 then Err(InvalidPath)
    else
      var source :- ReadFile(store, Rows, rowName);
      var row :- ParseRow(source);
      Ok(PanelNames(row.panels))
  }

  /** `_list_panels`: panels have no sub-nodes. */
  function ListPanels(rest: seq<string>): Result<seq<string>>
  {
    Err(InvalidPath)
  }

  /** How many segments `list` pops from the caller's list. */
  function ListConsumed(parts: seq<string>): nat
  {
    if parts == [] then 0
    else match ParseCategory(parts[0])
      case None => 1
      case Some(c) =>
        if |parts| == 1 then 1
        else match c
          case Dashboards => 4
          case Rows => 2
          case Panels => 1
  }

  // get

  function Get(store: Store, parts: seq<string>): (r: Result<Node>)
    ensures (r.Ok? || r == Err(DocumentNotFound)) ==> parts != [] && ParseCategory(parts[0]).Some?
    ensures r.Ok? ==> |parts| >= 2 && parts[1] != ""
  {
    if parts == [] then Err(IndexError)
    else match ParseCategory(parts[0])
      case None => Err(InvalidPath)
      case Some(Dashboards) => GetDashboards(store, parts[1..])
      case Some(Rows) => GetRows(store, parts[1..])
      case Some(Panels) => GetPanels(store, parts[1..])
  }

  /** `_get_dashboards`: the dashboard, one of its rows, or a panel of that row. */
  function GetDashboards(store: Store, rest: seq<string>): (r: Result<Node>)
    ensures r.Ok? ==> 1 <= |rest| <= 3 && rest[0] != "" && Dashboards in store && ToFileFormat(rest[0]) in store[Dashboards]
    ensures r.Ok? ==> NodeKind(Root(r.value)) == DashboardKind
  {
    var dashboardName, rowName, panelName := Seg(rest, 0), Seg(rest, 1), Seg(rest, 2);
    if |rest| > 3 then Err(InvalidPath)
    else
      var source :- ReadFile(store, Dashboards, dashboardName);
      var dashboard :- ParseDashboard(source, dashboardName.value);
      if Truthy(rowName) then
        var row :- RowOf(dashboard, rowName.value);
        if Truthy(panelName) then PanelOf(row.row, row.rowContext, panelName.value) else Ok(row)
      else Ok(DashboardNode(dashboard))
  }

  /** `_get_rows`: a stored row, or one of its panels. */
  function GetRows(store: Store, rest: seq<string>): (r: Result<Node>)
    ensures r.Ok? ==> 1 <= |rest| <= 2 && rest[0] != "" && Rows in store && ToFileFormat(rest[0]) in store[Rows]
    ensures r.Ok? ==> NodeKind(Root(r.value)) == RowKind
  {
    var rowName, panelName := Seg(rest, 0), Seg(rest, 1);
    if |rest| > 2 then Err(InvalidPath)
    else
      var source :- ReadFile(store, Rows, rowName);
      var row :- ParseRow(source);
      if Truthy(panelName) then PanelOf(row, TopRow, panelName.value) else Ok(RowNode(row, TopRow))
  }

  /** `_get_panels`: a stored panel. */
  function GetPanels(store: Store, rest: seq<string>): (r: Result<Node>)
    ensures r.Ok? ==> |rest| == 1 && rest[0] != "" && Panels in store && ToFileFormat(rest[0]) in store[Panels]
    ensures r.Ok? ==> r.value.PanelNode? && PanelDoc(r.value.panel) == store[Panels][ToFileFormat(rest[0])] && r.value.panelContext == TopPanel
  {
    var panelName := Seg(rest, 0);
    if |rest| > 1 then Err(InvalidPath)
    else
      var source :- ReadFile(store, Panels, panelName);
      var panel :- ParsePanel(source);
      Ok(PanelNode(panel, TopPanel))
  }

  /** How many segments `get` pops from the list it is given. */
  function GetConsumed(parts: seq<string>): nat
  {
    if parts == [] then 0
    else match ParseCategory(parts[0])
      case None => 1
      case Some(c) => 1 + MaxGetDepth(c)
  }

  // save

  /** The file-name rule of `save`, as written or corrected (see the README's findings). */
  datatype NamingRule = AsWritten | Corrected

  /** As written: the last segment when the path names a target, else the
      document's own name. Corrected: a merge rewrites the file it was read
      from, the segment after the category. */
  function FileName(rule: NamingRule, parts: seq<string>, written: Doc, merged: bool): string
    requires merged ==> |parts| >= 2
  {
    if rule == Corrected && merged then parts[1]
    else if |parts| >= 2 then parts[|parts| - 1]
    else DocName(written)
  }

  /** What `save` writes: a document into a file of a category directory. */
  datatype WritePlan = WritePlan(category: Category, fileName: string, data: Doc)

  /** `save` up to its final `write_file`: merge into the existing target and
      write out its top-level owner, or, when the target is not found, add the
      document as a new top-level one of the category's kind. */
  function SavePlan(rule: NamingRule, store: Store, parts: seq<string>, document: Doc): (r: Result<WritePlan>)
    ensures r.Ok? ==> parts != [] && ParseCategory(parts[0]) == Some(r.value.category)
    ensures r.Ok? && Get(store, parts).Err? ==> r.value.data == document && KindOf(document) == DocumentKind(r.value.category)
  {
    if parts == [] then Err(IndexError)
    else match Get(store, parts)
      case Ok(origin) =>
        var updated :- Update(origin, document);
        var top := Root(updated);
        Ok(WritePlan(ParseCategory(parts[0]).value, FileName(rule, parts, Source(top), true), Source(top)))
      case Err(e) =>
        if e != DocumentNotFound then Err(e)
        else
          var c := ParseCategory(parts[0]).value;
          if KindOf(document) != DocumentKind(c) then Err(InvalidDocument)
          else Ok(WritePlan(c, FileName(rule, parts, document, false), document))
  }

  /** The directories after `save`. */
  function Save(rule: NamingRule, store: Store, parts: seq<string>, document: Doc): (r: Result<Store>)
    ensures r.Ok? ==> r.value.Keys == store.Keys
    ensures r.Ok? ==> SavePlan(rule, store, parts, document).Ok?
  {
    var plan :- SavePlan(rule, store, parts, document);
    WriteFile(store, plan.category, plan.fileName, plan.data)
  }
}
