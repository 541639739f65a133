/** `LocalResources`: `list`, `get` and `save` over the three category
    directories, consuming the caller's segment list as the source does. */
module Local {
  import opened Errors
  import opened Documents
  import opened FileFormat
  import opened LocalSpec

  /** A Python list of path segments that `list` and `get` consume from the front. */
  class PathList {
    var items: seq<string>

    constructor (items: seq<string>)
      ensures this.items == items
    {
      this.items := items;
    }

    /** `parts.pop(0)` */
    method Pop() returns (r: Result<string>)
      modifies this
      ensures old(items) == [] ==> r == Err(IndexError) && items == []
      ensures old(items) != [] ==> r == Ok(old(items)[0]) && items == old(items)[1..]
    {
      if items == [] {
        return Err(IndexError);
      }
      r := Ok(items[0]);
      items := items[1..];
    }

    /** `parts.pop(0) if parts else None` */
    method PopIfAny() returns (s: Option<string>)
      modifies this
      ensures s == Seg(old(items), 0) && items == Drop(old(items), 1)
    {
      if items == [] {
        return None;
      }
      s := Some(items[0]);
      items := items[1..];
    }
  }

  /** `order` lists every entry of `files` exactly once. */
  predicate Enumerates(order: seq<string>, files: set<string>)
  {
    && (forall i, j :: 0 <= i < j < |order| ==> order[i] != order[j])
    && (forall i :: 0 <= i < |order| ==> order[i] in files)
    && (forall f :: f in files ==> f in order)
  }

  /** `names[i]` is `from_file_format` of `order[i]`. */
  predicate NamedAfter(names: seq<string>, order: seq<string>)
  {
    |names| == |order| && forall i :: 0 <= i < |order| ==> names[i] == FromFileFormat(order[i])
  }

  /** The names `list` shows for the files of a directory: `from_file_format` of
      each entry, one per entry, in some order of the entries. */
  ghost predicate NamesOfFiles(names: seq<string>, files: set<string>)
  {
    exists order :: Enumerates(order, files) && NamedAfter(names, order)
  }

  /** `list_files` on an existing directory, in whatever order the directory yields its entries. */
  method ListFiles(folder: Folder) returns (names: seq<string>)
    ensures NamesOfFiles(names, folder.Keys)
  {
    names := [];
    ghost var order: seq<string> := [];
    var remaining := folder.Keys;
    while remaining != {}
      invariant remaining <= folder.Keys
      invariant forall i, j :: 0 <= i < j < |order| ==> order[i] != order[j]
      invariant forall i :: 0 <= i < |order| ==> order[i] in folder.Keys - remaining
      invariant forall f :: f in folder.Keys - remaining ==> f in order
      invariant NamedAfter(names, order)
      decreases |remaining|
    {
      var f :| f in remaining;
      names := names + [FromFileFormat(f)];
      order := order + [f];
      remaining := remaining - {f};
    }
    assert Enumerates(order, folder.Keys);
  }

  /** Follows parent links from `origin` until a node has none. */
  method TopParent(origin: Node) returns (top: Node)
    ensures Parent(top).None?
    ensures top == Root(origin)
  {
    top := origin;
    while Parent(top).Some?
      invariant Root(top) == Root(origin)
      decreases Depth(top)
    {
      top := Parent(top).value;
    }
  }

  /** The result of `list` as the caller sees it, against the listing the specification gives. */
  ghost predicate ListedAs(r: Result<seq<string>>, spec: Result<Listing>)
  {
    match spec
    case Err(e) => r == Err(e)
    case Ok(Children(names)) => r == Ok(names)
    case Ok(Files(entries)) => r.Ok? && NamesOfFiles(r.value, entries)
  }

  class LocalResources {
    /** The three category directories under the data directory. */
    var store: Store

    /** `__init__`: `make_local_dirs` runs only when a data directory is configured. */
    constructor (existing: Store, dataDirConfigured: bool)
      ensures dataDirConfigured ==> Dashboards in store && Rows in store && Panels in store
      ensures dataDirConfigured ==> forall c :: c in existing ==> c in store && store[c] == existing[c]
      ensures dataDirConfigured ==> forall c :: c in store && c !in existing ==> store[c] == map[]
      ensures !dataDirConfigured ==> store == existing
    {
      store := if dataDirConfigured then MakeLocalDirs(existing) else existing;
    }

    method List(parts: PathList) returns (r: Result<seq<string>>)
      modifies parts
      ensures ListedAs(r, LocalSpec.List(store, old(parts.items)))
      ensures parts.items == Drop(old(parts.items), ListConsumed(old(parts.items)))
    {
      var directory :- parts.Pop();
      var category := ParseCategory(directory);
      if category.None? {
        return Err(InvalidPath);
      }
      if parts.items == [] {
        if category.value !in store {
          return Err(InvalidPath);
        }
        var names := ListFiles(store[category.value]);
        return Ok(names);
      }
      match category.value
      case Dashboards => r := ListDashboards(parts);
      case Rows => r := ListRows(parts);
      case Panels => r := ListPanels(parts);
    }

    method ListDashboards(parts: PathList) returns (r: Result<seq<string>>)
      modifies parts
      ensures r == LocalSpec.ListDashboards(store, old(parts.items))
      ensures parts.items == Drop(old(parts.items), 3)
    {
      var dashboardName := parts.PopIfAny();
      var rowName := parts.PopIfAny();
      var panelName := parts.PopIfAny();
      var source :- ReadFile(store, Dashboards, dashboardName);
      var dashboard :- ParseDashboard(source, dashboardName.value);
      if !Truthy(rowName) {
        return Ok(RowNames(dashboard.rows));
      }
      var row :- RowOf(dashboard, rowName.value);
      var panels := PanelNames(row.row.panels);
      if Truthy(panelName) {
        // The source words the cases "row has that panel" and "row has no such panel" differently; both are InvalidPath.
        return Err(InvalidPath);
      }
      return Ok(panels);
    }

    method ListRows(parts: PathList) returns (r: Result<seq<string>>)
      modifies parts
      ensures r == LocalSpec.ListRows(store, old(parts.items))
      ensures parts.items == Drop(old(parts.items), 1)
    {
      var rowName := parts.PopIfAny();
      if parts.items != [] {
        return Err(InvalidPath);
      }
      var source :- ReadFile(store, Rows, rowName);
      var row :- ParseRow(source);
      return Ok(PanelNames(row.panels));
    }

    method ListPanels(parts: PathList) returns (r: Result<seq<string>>)
      ensures r == LocalSpec.ListPanels(parts.items)
    {
      return Err(InvalidPath);
    }

    method Get(parts: PathList) returns (r: Result<Node>)
      modifies parts
      ensures r == LocalSpec.Get(store, old(parts.items))
      ensures parts.items == Drop(old(parts.items), GetConsumed(old(parts.items)))
    {
      var directory :- parts.Pop();
      var category := ParseCategory(directory);
      if category.None? {
        return Err(InvalidPath);
      }
      match category.value
      case Dashboards => r := GetDashboards(parts);
      case Rows => r := GetRows(parts);
      case Panels => r := GetPanels(parts);
    }

    method GetDashboards(parts: PathList) returns (r: Result<Node>)
      modifies parts
      ensures r == LocalSpec.GetDashboards(store, old(parts.items))
      ensures parts.items == Drop(old(parts.items), 3)
    {
      var dashboardName := parts.PopIfAny();
      var rowName := parts.PopIfAny();
      var panelName := parts.PopIfAny();
      if parts.items != [] {
        return Err(InvalidPath);
      }
      var source :- ReadFile(store, Dashboards, dashboardName);
      var dashboard :- ParseDashboard(source, dashboardName.value);
      if Truthy(rowName) {
        var row :- RowOf(dashboard, rowName.value);
        if Truthy(panelName) {
          return PanelOf(row.row, row.rowContext, panelName.value);
        }
        return Ok(row);
      }
      return Ok(DashboardNode(dashboard));
    }

    method GetRows(parts: PathList) returns (r: Result<Node>)
      modifies parts
      ensures r == LocalSpec.GetRows(store, old(parts.items))
      ensures parts.items == Drop(old(parts.items), 2)
    {
      var rowName := parts.PopIfAny();
      var panelName := parts.PopIfAny();
      if parts.items != [] {
        return Err(InvalidPath);
      }
      var source :- ReadFile(store, Rows, rowName);
      var row :- ParseRow(source);
      if Truthy(panelName) {
        return PanelOf(row, TopRow, panelName.value);
      }
      return Ok(RowNode(row, TopRow));
    }

    method GetPanels(parts: PathList) returns (r: Result<Node>)
      modifies parts
      ensures r == LocalSpec.GetPanels(store, old(parts.items))
      ensures parts.items == Drop(old(parts.items), 1)
    {
      var panelName := parts.PopIfAny();
      if parts.items != [] {
        return Err(InvalidPath);
      }
      var source :- ReadFile(store, Panels, panelName);
      var panel :- ParsePanel(source);
      return Ok(PanelNode(panel, TopPanel));
    }

    /** `save`: `get` is given a copy of the path, so the caller's list is left as it was. */
    method Save(parts: PathList, document: Doc) returns (r: Result<()>)
      modifies this
      ensures unchanged(parts)
      ensures match LocalSpec.Save(Corrected, old(store), parts.items, document)
        case Ok(after) => r == Ok(()) && store == after
        case Err(e) => r == Err(e) && store == old(store)
    {
      if parts.items == [] {
        return Err(IndexError);
      }
      var directory := parts.items[0];
      var copy := new PathList(parts.items);
      var origin := Get(copy);
      var written: Doc;
      var merged: bool;
      if origin.Ok? {
        var updated :- Update(origin.value, document);
        var top := TopParent(updated);
        written, merged := Source(top), true;
      } else if origin.error == DocumentNotFound {
        if KindOf(document) != DocumentKind(ParseCategory(directory).value) {
          return Err(InvalidDocument);
        }
        written, merged := document, false;
      } else {
        return Err(origin.error);
      }
      var fileName := FileName(Corrected, parts.items, written, merged);
      r := WriteStore(ParseCategory(directory).value, fileName, written);
    }

    /** `write_file` */
    method WriteStore(c: Category, name: string, data: Doc) returns (r: Result<()>)
      modifies this
      ensures match LocalSpec.WriteFile(old(store), c, name, data)
        case Ok(after) => r == Ok(()) && store == after
        case Err(e) => r == Err(e) && store == old(store)
    {
      if c !in store {
        return Err(OSError);
      }
      store := store[c := store[c][ToFileFormat(name) := data]];
      return Ok(());
    }
  }
}
