/** Properties of the local resources: what `list`, `get` and `save` promise
    about paths, the stored documents and each other. */
module Properties {
  import opened Errors
  import opened Documents
  import opened FileFormat
  import opened LocalSpec
  import opened Local

  // Categories and depth limits.

  /** A first segment that is not a category fails `list`, `get` and `save` with InvalidPath. */
  lemma UnknownCategoryIsInvalidPath(store: Store, parts: seq<string>, document: Doc, rule: NamingRule)
    requires parts != [] && ParseCategory(parts[0]).None?
    ensures List(store, parts) == Err(InvalidPath)
    ensures Get(store, parts) == Err(InvalidPath)
    ensures Save(rule, store, parts, document) == Err(InvalidPath)
  {
  }

  /** `get` below the deepest node a category has fails with InvalidPath, whatever is stored. */
  lemma GetDepthLimit(store: Store, parts: seq<string>, document: Doc, rule: NamingRule)
    requires parts != [] && ParseCategory(parts[0]).Some?
    requires |parts| - 1 > MaxGetDepth(ParseCategory(parts[0]).value)
    ensures Get(store, parts) == Err(InvalidPath)
    ensures Save(rule, store, parts, document) == Err(InvalidPath)
  {
  }

  /** `list` below a stored row, or below the `panels` category, fails with InvalidPath, whatever is stored. */
  lemma ListDepthLimit(store: Store, parts: seq<string>)
    requires parts != []
    requires (parts[0] == "rows" && |parts| > 2) || (parts[0] == "panels" && |parts| > 1)
    ensures List(store, parts) == Err(InvalidPath)
  {
  }

  // Listing.

  /** `list` of a bare category gives exactly the entries of its directory. */
  lemma CategoryListingIsItsDirectory(store: Store, c: Category)
    ensures List(store, [CategoryName(c)]) == if c in store then Ok(Files(store[c].Keys)) else Err(InvalidPath)
  {
  }

  /** A document stored under a name without ".json" in it is listed under that name. */
  lemma ListedNamesRecoverStoredNames(folder: Folder, names: seq<string>, name: string)
    requires NamesOfFiles(names, folder.Keys)
    requires ToFileFormat(name) in folder && !Contains(name, Extension)
    ensures name in names
  {
    FileFormatRoundTrip(name);
  }

  /** Naming a panel below a dashboard's row fails with InvalidPath when the
      row exists, whether or not the panel does; otherwise with the row's own error. */
  lemma ListBelowDashboardRow(store: Store, d: string, r: string, p: string, extra: seq<string>)
    requires r != "" && p != ""
    ensures var row := List(store, ["dashboards", d, r]);
            List(store, ["dashboards", d, r, p] + extra) == if row.Ok? then Err(InvalidPath) else row
  {
    var parts := ["dashboards", d, r, p] + extra;
    assert parts[0] == "dashboards" && parts[1..][0] == d && parts[1..][1] == r && parts[1..][2] == p;
    assert ["dashboards", d, r][1..] == [d, r];
  }

  /** An empty row segment lists the dashboard's rows, whatever follows it. */
  lemma ListEmptyRowSegment(store: Store, d: string, extra: seq<string>)
    ensures List(store, ["dashboards", d, ""] + extra) == List(store, ["dashboards", d])
  {
    var parts := ["dashboards", d, ""] + extra;
    assert parts[0] == "dashboards" && parts[1..][0] == d && parts[1..][1] == "";
    assert ["dashboards", d][1..] == [d];
  }

  /** A listing has one name per directory entry: as many names as entries. */
  lemma {:induction false} EnumerationCount(order: seq<string>, files: set<string>)
    requires Enumerates(order, files)
    ensures |order| == |files|
    decreases |order|
  {
    if order == [] {
      assert files == {};
    } else {
      var last := |order| - 1;
      var x := order[last];
      var prefix := order[..last];
      forall f | f in files - {x}
        ensures f in prefix
      {
        var i :| 0 <= i < |order| && order[i] == f;
        assert i != last;
        assert prefix[i] == f;
      }
      assert Enumerates(prefix, files - {x});
      EnumerationCount(prefix, files - {x});
    }
  }

  /** `list` of a bare category shows one name per file of its directory. */
  lemma ListingLength(names: seq<string>, files: set<string>)
    requires NamesOfFiles(names, files)
    ensures |names| == |files|
  {
    var order :| Enumerates(order, files) && NamedAfter(names, order);
    EnumerationCount(order, files);
  }

  /** Files whose names differ only by an inner ".json" are listed once each,
      under the same name: `a.json` and `a.json.json` both give `a`. */
  lemma DuplicateNamesAreListedTwice(names: seq<string>)
    requires NamesOfFiles(names, {"a.json", "a.json.json", "b.json"})
    ensures multiset(names) == multiset{"a", "a", "b"}
  {
    StripsTheExamples();
    assert "a.json" != "a.json.json" by { assert |"a.json"| != |"a.json.json"|; }
    assert "a.json" != "b.json" by { assert "a.json"[0] != "b.json"[0]; }
    assert "a.json.json" != "b.json" by { assert |"a.json.json"| != |"b.json"|; }
    ListingOfThreeFiles(names, "a.json", "a.json.json", "b.json");
  }

  /** Three entries, the first two listed under the same name. */
  lemma ListingOfThreeFiles(names: seq<string>, f: string, g: string, h: string)
    requires f != g && f != h && g != h
    requires FromFileFormat(f) == FromFileFormat(g)
    requires NamesOfFiles(names, {f, g, h})
    ensures multiset(names) == multiset{FromFileFormat(f), FromFileFormat(f), FromFileFormat(h)}
  {
    var a := FromFileFormat(f);
    var order :| Enumerates(order, {f, g, h}) && NamedAfter(names, order);
    var k := ThreeEntries(order, f, g, h);
    assert names[k] == FromFileFormat(h);
    forall i | 0 <= i < 3 && i != k
      ensures names[i] == a
    {
      assert names[i] == FromFileFormat(order[i]);
      if order[i] != f {
        assert order[i] == g;
      }
    }
    MultisetOfThree(names, a, FromFileFormat(h), k);
  }

  /** An enumeration of three entries has length three; `k` is where the third one is. */
  lemma ThreeEntries(order: seq<string>, f: string, g: string, h: string) returns (k: nat)
    requires f != g && f != h && g != h
    requires Enumerates(order, {f, g, h})
    ensures |order| == 3 && k < 3 && order[k] == h
    ensures forall i :: 0 <= i < 3 && i != k ==> order[i] == f || order[i] == g
  {
    EnumerationCount(order, {f, g, h});
    assert h in order;
    k :| 0 <= k < 3 && order[k] == h;
  }

  /** Three names, `b` at `k` and `a` elsewhere. */
  lemma MultisetOfThree(names: seq<string>, a: string, b: string, k: nat)
    requires |names| == 3 && k < 3 && names[k] == b
    requires forall i :: 0 <= i < 3 && i != k ==> names[i] == a
    ensures multiset(names) == multiset{a, a, b}
  {
    if k == 0 {
      assert names == [b, a, a];
    } else if k == 1 {
      assert names == [a, b, a];
    } else {
      assert names == [a, a, b];
    }
  }

  /** `from_file_format` of the three file names above. */
  lemma StripsTheExamples()
    ensures FromFileFormat("a.json") == "a"
    ensures FromFileFormat("a.json.json") == "a"
    ensures FromFileFormat("b.json") == "b"
  {
    assert Extension == ['.', 'j', 's', 'o', 'n'];
    assert "a.json"[..5][0] != Extension[0];
    assert "a.json"[1..] == Extension;
    assert Extension[..5] == Extension;
    assert "a.json.json"[..5][0] != Extension[0];
    assert "a.json.json"[1..] == ".json.json";
    assert ".json.json"[..5] == Extension;
    assert ".json.json"[5..] == Extension;
    assert "b.json"[..5][0] != Extension[0];
    assert "b.json"[1..] == Extension;
  }

  /** Under `dashboards`, `list` names the children of the node `get` returns:
      the rows of a dashboard, the panels of a row; a panel has none. */
  lemma ListDashboardIsChildrenOfGet(store: Store, parts: seq<string>, n: Node)
    requires |parts| >= 2 && parts[0] == "dashboards" && Get(store, parts) == Ok(n)
    ensures n.DashboardNode? ==> List(store, parts) == Ok(Children(RowNames(n.dashboard.rows)))
    ensures n.RowNode? ==> List(store, parts) == Ok(Children(PanelNames(n.row.panels)))
    ensures n.PanelNode? ==> List(store, parts) == Err(InvalidPath)
  {
  }

  /** Under `rows`, `list` of a stored row names the panels of the row `get`
      returns; with anything after the row's name, `list` fails with InvalidPath
      even where `get` succeeds. */
  lemma ListRowIsChildrenOfGet(store: Store, parts: seq<string>, n: Node)
    requires |parts| >= 2 && parts[0] == "rows" && Get(store, parts) == Ok(n)
    ensures |parts| == 2 ==> n.RowNode? && List(store, parts) == Ok(Children(PanelNames(n.row.panels)))
    ensures |parts| > 2 ==> List(store, parts) == Err(InvalidPath)
  {
  }

  /** Once `make_local_dirs` has run, every bare category can be listed,
      every write succeeds, and running it again changes nothing. */
  lemma LocalDirsAreReady(store: Store, c: Category, name: string, data: Doc)
    ensures List(MakeLocalDirs(store), [CategoryName(c)]).Ok?
    ensures WriteFile(MakeLocalDirs(store), c, name, data).Ok?
    ensures MakeLocalDirs(MakeLocalDirs(store)) == MakeLocalDirs(store)
  {
    var dirs := MakeLocalDirs(store);
    assert c in dirs by {
      match c
      case Dashboards =>
      case Rows =>
      case Panels =>
    }
    assert MakeLocalDirs(dirs).Keys == dirs.Keys;
  }

  // Missing documents.

  /** A bare category has no name to read, so `get` fails with DocumentNotFound. */
  lemma BareCategoryGetIsNotFound(store: Store, c: Category)
    ensures Get(store, [CategoryName(c)]) == Err(DocumentNotFound)
  {
  }

  /** An empty name, or one with no file, fails `get` and `list` with
      DocumentNotFound once the depth limits are met. */
  lemma MissingTopLevelIsNotFound(store: Store, c: Category, name: string, more: seq<string>)
    requires name == "" || c !in store || ToFileFormat(name) !in store[c]
    ensures |more| < MaxGetDepth(c) ==> Get(store, [CategoryName(c), name] + more) == Err(DocumentNotFound)
    ensures (c == Dashboards || (c == Rows && more == [])) ==>
              List(store, [CategoryName(c), name] + more) == Err(DocumentNotFound)
  {
    var parts := [CategoryName(c), name] + more;
    assert parts[0] == CategoryName(c) && parts[1..][0] == name && |parts[1..]| == |more| + 1;
  }

  // What `get` returns.

  /** The node `get` returns belongs to the file the path names: following its
      parents leads to the document stored there (a dashboard under its file name). */
  lemma GetFindsStoredOwner(store: Store, parts: seq<string>, n: Node)
    requires Get(store, parts) == Ok(n)
    ensures var c := ParseCategory(parts[0]).value;
            && c in store && ToFileFormat(parts[1]) in store[c]
            && Source(Root(n)) == if c == Dashboards then Renamed(store[c][ToFileFormat(parts[1])], parts[1])
                                  else store[c][ToFileFormat(parts[1])]
  {
    var c := ParseCategory(parts[0]).value;
    var rest := parts[1..];
    var stored := store[c][ToFileFormat(parts[1])];
    match c
    case Dashboards =>
      var dashboard := ParseDashboard(stored, parts[1]).value;
      if Truthy(Seg(rest, 1)) {
        var row := RowOf(dashboard, rest[1]).value;
        assert Root(row) == DashboardNode(dashboard);
        if Truthy(Seg(rest, 2)) {
          var panel := PanelOf(row.row, row.rowContext, rest[2]).value;
          assert Root(panel) == Root(row);
        }
      }
    case Rows =>
      if Truthy(Seg(rest, 1)) {
        var row := ParseRow(stored).value;
        var panel := PanelOf(row, TopRow, rest[1]).value;
        assert Root(panel) == RowNode(row, TopRow);
      }
    case Panels =>
  }

  /** Under `dashboards`, `get` returns the dashboard, its row or that row's
      panel, according to the segments given; an empty row segment means the dashboard. */
  lemma GetDashboardNodeByDepth(store: Store, d: string, more: seq<string>, n: Node)
    requires Get(store, ["dashboards", d] + more) == Ok(n)
    ensures (more == [] || more[0] == "") ==> n.DashboardNode? && n.dashboard.name == d
    ensures (|more| == 1 && more[0] != "") || (|more| == 2 && more[0] != "" && more[1] == "") ==>
              n.RowNode? && n.row.name == more[0] && Parent(n).value.dashboard.name == d
    ensures |more| == 2 && more[0] != "" && more[1] != "" ==>
              n.PanelNode? && n.panel.name == more[1] && Parent(n).value.row.name == more[0]
  {
    var parts := ["dashboards", d] + more;
    assert parts[1..] == [d] + more;
    if |more| >= 1 && more[0] != "" {
      var rest := parts[1..];
      var dashboard := ParseDashboard(store[Dashboards][ToFileFormat(d)], d).value;
      var row := RowOf(dashboard, more[0]).value;
      assert Parent(row) == Some(DashboardNode(dashboard));
    }
  }

  /** Under `rows`, `get` returns the stored row, or its panel when one is named. */
  lemma GetRowNodeByDepth(store: Store, r: string, more: seq<string>, n: Node)
    requires Get(store, ["rows", r] + more) == Ok(n)
    ensures (more == [] || more[0] == "") ==> n == RowNode(store[Rows][ToFileFormat(r)].row, TopRow)
    ensures |more| == 1 && more[0] != "" ==>
              n.PanelNode? && n.panel.name == more[0] && Parent(n) == Some(RowNode(store[Rows][ToFileFormat(r)].row, TopRow))
  {
    var parts := ["rows", r] + more;
    assert parts[1..] == [r] + more;
  }

  // save

  /** A merge writes, under the category of the path, the top-level owner of the
      updated node, which is of the category's kind: into the file that was read
      under the corrected rule, into the file named by the last segment as written. */
  lemma SaveMergeWritesOwner(rule: NamingRule, store: Store, parts: seq<string>, document: Doc, origin: Node)
    requires Get(store, parts) == Ok(origin)
    requires KindOf(document) == NodeKind(origin)
    ensures var c := ParseCategory(parts[0]).value;
            var top := Root(Update(origin, document).value);
            && SavePlan(rule, store, parts, document) ==
                 Ok(WritePlan(c, if rule == Corrected then parts[1] else parts[|parts| - 1], Source(top)))
            && KindOf(Source(top)) == DocumentKind(c)
  {
    var c := ParseCategory(parts[0]).value;
    var updated := Update(origin, document).value;
    GetFindsStoredOwner(store, parts, origin);
    RootKeepsOwnerKind(origin, updated);
  }

  /** A node updated in place has an owner of the same kind as before. */
  lemma RootKeepsOwnerKind(n: Node, m: Node)
    requires SamePlace(n, m)
    ensures NodeKind(Root(n)) == NodeKind(Root(m))
  {
    match n
    case DashboardNode(_) =>
    case RowNode(_, _) =>
    case PanelNode(_, c) =>
      if c.InRow? {
        assert NodeKind(Root(Parent(n).value)) == NodeKind(Root(Parent(m).value));
      }
  }

  /** A merge that the incoming document's kind does not allow fails with
      InvalidDocument and writes nothing. */
  lemma SaveMergeKindMismatch(rule: NamingRule, store: Store, parts: seq<string>, document: Doc, origin: Node)
    requires Get(store, parts) == Ok(origin)
    requires KindOf(document) != NodeKind(origin)
    ensures Save(rule, store, parts, document) == Err(InvalidDocument)
  {
  }

  /** When the target is not found, `save` adds the document as a new top-level
      one: only of the category's kind, under the last segment or its own name. */
  lemma SaveNewDocument(rule: NamingRule, store: Store, parts: seq<string>, document: Doc)
    requires Get(store, parts) == Err(DocumentNotFound)
    ensures var c := ParseCategory(parts[0]).value;
            SavePlan(rule, store, parts, document) ==
              if KindOf(document) != DocumentKind(c) then Err(InvalidDocument)
              else Ok(WritePlan(c, if |parts| >= 2 then parts[|parts| - 1] else DocName(document), document))
  {
  }

  /** Every error of `get` other than DocumentNotFound is the error of `save`. */
  lemma SaveOtherErrorsPropagate(rule: NamingRule, store: Store, parts: seq<string>, document: Doc)
    requires Get(store, parts).Err? && Get(store, parts).error != DocumentNotFound
    ensures Save(rule, store, parts, document) == Err(Get(store, parts).error)
  {
  }

  /** `save` changes one file of one directory and nothing else. */
  lemma SaveWritesOneFile(rule: NamingRule, store: Store, parts: seq<string>, document: Doc, after: Store)
    requires Save(rule, store, parts, document) == Ok(after)
    ensures var plan := SavePlan(rule, store, parts, document).value;
            var file := ToFileFormat(plan.fileName);
            && after.Keys == store.Keys
            && (forall c :: c in store && c != plan.category ==> after[c] == store[c])
            && after[plan.category].Keys == store[plan.category].Keys + {file}
            && after[plan.category][file] == plan.data
            && (forall f :: f in store[plan.category] && f != file ==> after[plan.category][f] == store[plan.category][f])
  {
  }

  /** A merge into a row of a stored dashboard writes the dashboard with
      exactly that row replaced: same name and place, the incoming content;
      every sibling row and its panels stay as they were. The file is the
      dashboard's own under the corrected rule, the row's name as written. */
  lemma SaveRowKeepsSiblings(rule: NamingRule, store: Store, d: string, r: string, incoming: Row)
    requires Dashboards in store && ToFileFormat(d) in store[Dashboards] && d != "" && r != ""
    requires store[Dashboards][ToFileFormat(d)].DashboardDoc?
    requires r in RowNames(store[Dashboards][ToFileFormat(d)].dashboard.rows)
    ensures var dashboard := store[Dashboards][ToFileFormat(d)].dashboard;
            var i := FirstIndex(RowNames(dashboard.rows), r).value;
            SavePlan(rule, store, ["dashboards", d, r], RowDoc(incoming)) ==
              Ok(WritePlan(Dashboards, if rule == Corrected then d else r, DashboardDoc(Dashboard(d, dashboard.attrs,
                dashboard.rows[i := Row(r, incoming.attrs, incoming.panels)]))))
  {
    var parts := ["dashboards", d, r];
    assert parts[1..] == [d, r];
    var dashboard := store[Dashboards][ToFileFormat(d)].dashboard;
    var rows := dashboard.rows;
    var i := FirstIndex(RowNames(rows), r).value;
    assert rows[..i] + [Row(r, incoming.attrs, incoming.panels)] + rows[i + 1..]
        == rows[i := Row(r, incoming.attrs, incoming.panels)];
  }

  /** A merge into a panel of a dashboard's row writes the dashboard with
      exactly that panel replaced; all other rows and panels stay as they were.
      The file is the dashboard's own under the corrected rule, the panel's name as written. */
  lemma SavePanelKeepsSiblings(rule: NamingRule, store: Store, d: string, r: string, p: string, incoming: Panel)
    requires Dashboards in store && ToFileFormat(d) in store[Dashboards] && d != "" && r != "" && p != ""
    requires store[Dashboards][ToFileFormat(d)].DashboardDoc?
    requires var rows := store[Dashboards][ToFileFormat(d)].dashboard.rows;
             && r in RowNames(rows)
             && p in PanelNames(rows[FirstIndex(RowNames(rows), r).value].panels)
    ensures var dashboard := store[Dashboards][ToFileFormat(d)].dashboard;
            var i := FirstIndex(RowNames(dashboard.rows), r).value;
            var row := dashboard.rows[i];
            var j := FirstIndex(PanelNames(row.panels), p).value;
            SavePlan(rule, store, ["dashboards", d, r, p], PanelDoc(incoming)) ==
              Ok(WritePlan(Dashboards, if rule == Corrected then d else p, DashboardDoc(Dashboard(d, dashboard.attrs,
                dashboard.rows[i := row.(panels := row.panels[j := Panel(p, incoming.attrs)])]))))
  {
    var parts := ["dashboards", d, r, p];
    assert parts[1..] == [d, r, p];
    var dashboard := store[Dashboards][ToFileFormat(d)].dashboard;
    var rows := dashboard.rows;
    var i := FirstIndex(RowNames(rows), r).value;
    var row := rows[i];
    var j := FirstIndex(PanelNames(row.panels), p).value;
    var panels := row.panels;
    assert panels[..j] + [Panel(p, incoming.attrs)] + panels[j + 1..] == panels[j := Panel(p, incoming.attrs)];
    var row' := row.(panels := panels[j := Panel(p, incoming.attrs)]);
    assert rows[..i] + [row'] + rows[i + 1..] == rows[i := row'];
    var up := InDashboard(d, dashboard.attrs, rows[..i], rows[i + 1..]);
    var origin := PanelNode(panels[j], InRow(row.name, row.attrs, panels[..j], panels[j + 1..], up));
    assert Get(store, parts) == Ok(origin);
    var u := PanelNode(Panel(p, incoming.attrs), origin.panelContext);
    assert Update(origin, PanelDoc(incoming)) == Ok(u);
    assert Parent(u) == Some(RowNode(row', up));
    assert Root(u) == DashboardNode(Dashboard(d, dashboard.attrs, rows[i := row']));
  }

  // The round trip, and the file name as written.

  /** The first entry called `name` is found where it is. */
  lemma FirstIndexAt(names: seq<string>, name: string, i: nat)
    requires i < |names| && names[i] == name && name !in names[..i]
    ensures FirstIndex(names, name) == Some(i)
  {
  }

  /** A row found by name is found again, with the same siblings, once its content is replaced. */
  lemma RowOfAfterReplace(dashboard: Dashboard, name: string, row: Row, dashboardName: string, attrs: Attrs)
    requires RowOf(dashboard, name).Ok? && row.name == name
    ensures var c := RowOf(dashboard, name).value.rowContext;
            RowOf(Dashboard(dashboardName, attrs, c.rowsBefore + [row] + c.rowsAfter), name)
              == Ok(RowNode(row, InDashboard(dashboardName, attrs, c.rowsBefore, c.rowsAfter)))
  {
    var c := RowOf(dashboard, name).value.rowContext;
    var rows := c.rowsBefore + [row] + c.rowsAfter;
    var i := |c.rowsBefore|;
    assert rows[..i] == c.rowsBefore && rows[i] == row && rows[i + 1..] == c.rowsAfter;
    assert RowNames(rows)[..i] == RowNames(c.rowsBefore);
    FirstIndexAt(RowNames(rows), name, i);
  }

  /** A panel found by name is found again, with the same siblings, once its content is replaced. */
  lemma PanelOfAfterReplace(row: Row, up: RowContext, name: string, panel: Panel, rowName: string, attrs: Attrs)
    requires PanelOf(row, up, name).Ok? && panel.name == name
    ensures var c := PanelOf(row, up, name).value.panelContext;
            PanelOf(Row(rowName, attrs, c.panelsBefore + [panel] + c.panelsAfter), up, name)
              == Ok(PanelNode(panel, InRow(rowName, attrs, c.panelsBefore, c.panelsAfter, up)))
  {
    var c := PanelOf(row, up, name).value.panelContext;
    var panels := c.panelsBefore + [panel] + c.panelsAfter;
    var i := |c.panelsBefore|;
    assert panels[..i] == c.panelsBefore && panels[i] == panel && panels[i + 1..] == c.panelsAfter;
    assert PanelNames(panels)[..i] == PanelNames(c.panelsBefore);
    FirstIndexAt(PanelNames(panels), name, i);
  }

  /** Round trip: after a merge, `get` of the same path returns the updated node,
      with the same parents, read back from the file `save` wrote. */
  lemma SaveThenGet(store: Store, parts: seq<string>, document: Doc, origin: Node)
    requires Get(store, parts) == Ok(origin)
    requires KindOf(document) == NodeKind(origin)
    ensures Save(Corrected, store, parts, document).Ok?
    ensures Get(Save(Corrected, store, parts, document).value, parts) == Update(origin, document)
  {
    var c := ParseCategory(parts[0]).value;
    var u := Update(origin, document).value;
    SaveMergeWritesOwner(Corrected, store, parts, document, origin);
    GetFindsStoredOwner(store, parts, origin);
    var after := Save(Corrected, store, parts, document).value;
    assert ReadFile(after, c, Some(parts[1])) == Ok(Source(Root(u)));
    var rest := parts[1..];
    var stored := store[c][ToFileFormat(parts[1])];
    match c
    case Dashboards =>
      var dashboard := ParseDashboard(stored, parts[1]).value;
      if Truthy(Seg(rest, 1)) {
        var row := RowOf(dashboard, rest[1]).value;
        if Truthy(Seg(rest, 2)) {
          var pc := origin.panelContext;
          var row' := Row(row.row.name, row.row.attrs, pc.panelsBefore + [u.panel] + pc.panelsAfter);
          assert Parent(u) == Some(RowNode(row', row.rowContext));
          RowOfAfterReplace(dashboard, rest[1], row', dashboard.name, dashboard.attrs);
          PanelOfAfterReplace(row.row, row.rowContext, rest[2], u.panel, row.row.name, row.row.attrs);
        } else {
          RowOfAfterReplace(dashboard, rest[1], u.row, dashboard.name, dashboard.attrs);
        }
      }
    case Rows =>
      if Truthy(Seg(rest, 1)) {
        var row := ParseRow(stored).value;
        PanelOfAfterReplace(row, TopRow, rest[1], u.panel, row.name, row.attrs);
      }
    case Panels =>
  }

  /** Round trip of an insert: when the target is not found, `get` of the
      category and the name the file got returns the saved document, at the
      top (a dashboard under its file name). */
  lemma SaveNewThenGet(rule: NamingRule, store: Store, c: Category, parts: seq<string>, document: Doc)
    requires parts == [CategoryName(c)] || (|parts| == 2 && parts[0] == CategoryName(c))
    requires Get(store, parts) == Err(DocumentNotFound)
    requires c in store && KindOf(document) == DocumentKind(c)
    ensures var n := if |parts| == 2 then parts[1] else DocName(document);
            && Save(rule, store, parts, document).Ok?
            && Get(Save(rule, store, parts, document).value, [CategoryName(c), n]) ==
                 if n == "" then Err(DocumentNotFound)
                 else match document
                   case DashboardDoc(x) => Ok(DashboardNode(x.(name := n)))
                   case RowDoc(x) => Ok(RowNode(x, TopRow))
                   case PanelDoc(x) => Ok(PanelNode(x, TopPanel))
  {
    var n := if |parts| == 2 then parts[1] else DocName(document);
    assert [CategoryName(c), n][1..] == [n];
  }

  /** An insert on a nested path is not read back: when the dashboard exists but
      has no row `r`, saving a dashboard under `["dashboards", d, r]` writes it
      to `r.json`, under either naming rule, and `get` of that path still finds
      no such row. */
  lemma NestedInsertIsNotReadBack(rule: NamingRule, store: Store, d: string, r: string, x: Dashboard)
    requires Dashboards in store && ToFileFormat(d) in store[Dashboards] && d != "" && r != "" && d != r
    requires store[Dashboards][ToFileFormat(d)].DashboardDoc?
    requires r !in RowNames(store[Dashboards][ToFileFormat(d)].dashboard.rows)
    ensures var parts := ["dashboards", d, r];
            var after := Save(rule, store, parts, DashboardDoc(x));
            && Get(store, parts) == Err(DocumentNotFound)
            && after.Ok?
            && after.value[Dashboards][ToFileFormat(r)] == DashboardDoc(x)
            && after.value[Dashboards][ToFileFormat(d)] == store[Dashboards][ToFileFormat(d)]
            && Get(after.value, parts) == Err(DocumentNotFound)
  {
    var parts := ["dashboards", d, r];
    assert parts[1..] == [d, r];
    assert ToFileFormat(d) != ToFileFormat(r) by { assert ToFileFormat(d)[..|d|] == d; }
  }

  /** The two file-name rules differ only for paths that address below a top-level document. */
  lemma NamingRulesAgreeOnShortPaths(store: Store, parts: seq<string>, document: Doc)
    requires |parts| <= 2
    ensures SavePlan(AsWritten, store, parts, document) == SavePlan(Corrected, store, parts, document)
  {
  }

  /** As written, a merge into a dashboard's row writes the whole dashboard to a
      file named after the row: the dashboard's own file keeps its old content,
      and `get` of the same path does not see the edit. */
  lemma NestedSaveAsWrittenMissesOwner()
    ensures var home := Dashboard("Home", "", [Row("Status", "", [Panel("CPU", "")])]);
            var store: Store := map[Dashboards := map["Home.json" := DashboardDoc(home)], Rows := map[], Panels := map[]];
            var parts := ["dashboards", "Home", "Status"];
            var edit := RowDoc(Row("Status", "", [Panel("CPU", ""), Panel("Mem", "")]));
            var after := Save(AsWritten, store, parts, edit);
            && after.Ok?
            && after.value[Dashboards].Keys == {"Home.json", "Status.json"}
            && after.value[Dashboards]["Home.json"] == DashboardDoc(home)
            && Get(after.value, parts) == Get(store, parts)
            && Get(store, parts) != Update(Get(store, parts).value, edit)
  {
    var home := Dashboard("Home", "", [Row("Status", "", [Panel("CPU", "")])]);
    var store: Store := map[Dashboards := map["Home.json" := DashboardDoc(home)], Rows := map[], Panels := map[]];
    var parts := ["dashboards", "Home", "Status"];
    var edit := RowDoc(Row("Status", "", [Panel("CPU", ""), Panel("Mem", "")]));
    assert ToFileFormat("Home") == "Home.json";
    assert ToFileFormat("Status") == "Status.json";
    assert "Status.json" != "Home.json" by { assert "Status.json"[0] != "Home.json"[0]; }
    assert parts[1..] == ["Home", "Status"];
    assert RowNames(home.rows) == ["Status"];
    assert FirstIndex(["Status"], "Status") == Some(0);
    var origin := Get(store, parts).value;
    assert origin == RowNode(home.rows[0], InDashboard("Home", "", [], []));
    var plan := SavePlan(AsWritten, store, parts, edit).value;
    assert plan.fileName == "Status";
  }

  /** A document saved under a name without ".json" in it is then listed under that name. */
  lemma SavedNameIsListed(rule: NamingRule, store: Store, parts: seq<string>, document: Doc, names: seq<string>)
    requires Save(rule, store, parts, document).Ok?
    requires !Contains(SavePlan(rule, store, parts, document).value.fileName, Extension)
    requires NamesOfFiles(names, Save(rule, store, parts, document).value[SavePlan(rule, store, parts, document).value.category].Keys)
    ensures SavePlan(rule, store, parts, document).value.fileName in names
  {
    var plan := SavePlan(rule, store, parts, document).value;
    var after := Save(rule, store, parts, document).value;
    ListedNamesRecoverStoredNames(after[plan.category], names, plan.fileName);
  }
}
