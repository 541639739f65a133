# grafcli local resources, modelled in Dafny

This project models `LocalResources` from grafcli, the store that keeps monitoring dashboards as JSON files in
three category directories: `dashboards`, `rows` and `panels`. It covers how a virtual path is resolved and
how a save is merged, with an in-memory map standing in for the disk.

A path is a list of segments. The first segment names a category. The rest lead into a three-level tree:
a dashboard owns rows, and a row owns panels.

- `list` returns the names of a node's children. With only the category, it returns the category's file names, with `.json` removed.
- `get` returns the node the path addresses.
- `save` merges a document into an existing node and writes out the node's top-level owner. If the target is not
  found, `save` instead adds the document as a new top-level file, provided its kind matches the category.

Layout:

- `errors.dfy`: the errors `InvalidPath`, `InvalidDocument` and `DocumentNotFound`. It also covers Python's `IndexError` (a pop from an empty path) and `OSError` (a write into a missing directory), plus `Result` and `Option`.
- `file_format.dfy`: `to_file_format` and `from_file_format`. `from_file_format` is Python's `str.replace('.json', '')`, written as a left-to-right scan.
- `documents.dfy`: the dashboard, row and panel documents, looked up by name. The `parent` link is a *context*: the node's siblings before and after it, plus its owner's name and fields. `Parent` rebuilds the owner around the node as the node is now. So an update to a node shows through its parent, just as it does through the shared Python object.
- `local_spec.dfy`: `list`, `get` and `save` as functions of the path and the store. The store is `map<Category, map<file name, document>>`. A category with no entry has no directory.
- `local.dfy`: the class `LocalResources`, whose field `store` stands for the three directories. Its methods `List` and `Get` pop segments from a `PathList` object, the caller's Python list, just as the source pops from `parts`; `Save` gives `Get` a copy. Each method is proved to give what its function in `local_spec.dfy` gives (on a bare-category `list`: one name per directory entry, in some order), and to consume as many segments as the source does. `Save` is also proved to leave the caller's path untouched and to change only `store`.
- `properties.dfy`: lemmas relating `list`, `get`, `save` and the store to one another.

Two behaviours of the code that a reader of its names might not expect:

- A bare-category `list` can return the same name twice. `from_file_format` removes *every* `.json`, so `a.json` and `a.json.json` both list as `a` (`Properties.DuplicateNamesAreListedTwice`).
- As written, a nested `save` writes the dashboard it read to a file named after the row or panel, not back to the dashboard's own file (see Findings). The code as written is `LocalSpec.Save(AsWritten, …)`; the class `Local.LocalResources.Save` uses the corrected rule.

## Model

| member | source | states |
|---|---|---|
| `FileFormat.FileFormatRoundTrip` | grafcli/resources/local.py:167-172 | `from_file_format(to_file_format(n)) == n` holds exactly when `n` does not contain `.json`, in both directions |
| `FileFormat.ToFileFormat` | grafcli/resources/local.py:167-168 | `to_file_format`: the file name starts with the name, is five characters longer and contains `.json` |
| `FileFormat.FromFileFormat` | grafcli/resources/local.py:171-172 | `from_file_format`: never longer than the file name; a file name without `.json` in it is returned as it is |
| `FileFormat.NothingToRemove` | grafcli/resources/local.py:171-172 | `replace('.json', '')` leaves a string without `.json` in it unchanged |
| `FileFormat.StripsAppendedExtension` | grafcli/resources/local.py:167-172 | for a name without `.json`, stripping the appended extension gives the name back |
| `FileFormat.RemovesTwoOccurrences` | grafcli/resources/local.py:171-172 | if the name has `.json` inside, `replace` removes that occurrence and the appended one, so the result is shorter than the name |
| `Documents.FirstIndex` | grafcli/resources/local.py:110-113 | exact-name lookup: finds the first position holding the name, or reports that the name is absent |
| `Documents.RowOf` | grafcli/resources/local.py:110 | `dashboard.row(name)`: succeeds exactly when a row has that name, and returns the first such row, whose parent is the dashboard; otherwise `DocumentNotFound` |
| `Documents.PanelOf` | grafcli/resources/local.py:113 | `row.panel(name)`: the same for panels, and the found panel's parent is the row |
| `Documents.Depth` | grafcli/resources/local.py:149-150 | a node is at most two parent links below its owner |
| `Documents.Parent` | grafcli/resources/local.py:149-150 | a node has no parent exactly when it is at the top, and each parent link goes one level up, so the walk ends |
| `Documents.Root` | grafcli/resources/local.py:148-150 | following parents ends at a node without a parent; a top-level node is its own root |
| `Documents.ParseDashboard` | grafcli/resources/local.py:107 | `Dashboard(source, dashboard_name)`: succeeds exactly on a dashboard document and returns it renamed after its file; otherwise `InvalidDocument` |
| `Documents.ParseRow` | grafcli/resources/local.py:126 | `Row(source)`: succeeds exactly on a row document and returns it as stored; otherwise `InvalidDocument` |
| `Documents.ParsePanel` | grafcli/resources/local.py:138-139 | `Panel(source)`: succeeds exactly on a panel document and returns it as stored; otherwise `InvalidDocument` |
| `Documents.Update` | grafcli/resources/local.py:146 | `update` succeeds exactly when the kinds match, else `InvalidDocument`; the node gets the incoming content and keeps its own name and place |
| `LocalSpec.ParseCategory` | grafcli/resources/local.py:13-17 | a segment is a category exactly when it is `dashboards`, `rows` or `panels`, and it names that category |
| `LocalSpec.DocumentKind` | grafcli/resources/local.py:24-28 | `DIR_DOCUMENTS`: the kind of document stored directly in each category, used by the insert branch of `save` |
| `LocalSpec.ReadFile` | grafcli/resources/local.py:184-192 | `read_file`: the stored document exactly when the name is non-empty, the directory exists and `<name>.json` is in it; otherwise `DocumentNotFound` |
| `LocalSpec.WriteFile` | grafcli/resources/local.py:195-200 | `write_file`: fails with `OSError` exactly when the directory is missing; otherwise `<name>.json` holds the data and every other file and directory is unchanged |
| `LocalSpec.List` | grafcli/resources/local.py:36-50 | `list`: succeeds only under a valid category; a directory listing comes only from a bare category and is that directory's entries |
| `LocalSpec.ListDashboards` | grafcli/resources/local.py:52-71 | `_list_dashboards`: succeeds only when the dashboard's name is non-empty and its file exists |
| `LocalSpec.ListRows` | grafcli/resources/local.py:73-81 | `_list_rows`: succeeds only for exactly one non-empty row name whose file exists |
| `LocalSpec.ListPanels` | grafcli/resources/local.py:83-84 | `_list_panels`: defined as `InvalidPath` for every path |
| `LocalSpec.Get` | grafcli/resources/local.py:86-97 | a successful `get`, or one that fails with `DocumentNotFound`, had a valid category; a successful one also had a non-empty name segment |
| `LocalSpec.GetDashboards` | grafcli/resources/local.py:99-117 | `_get_dashboards`: succeeds only for one to three segments whose first names an existing dashboard file, and the node's owner is a dashboard |
| `LocalSpec.GetRows` | grafcli/resources/local.py:119-131 | `_get_rows`: succeeds only for one or two segments whose first names an existing row file, and the node's owner is a row |
| `LocalSpec.GetPanels` | grafcli/resources/local.py:133-139 | `_get_panels`: succeeds only for one segment naming an existing panel file, and returns that stored panel at the top |
| `LocalSpec.FileName` | grafcli/resources/local.py:159-162 | the file name `save` writes: as written, the last segment of a path of two or more segments, else the document's name; the corrected rule uses the segment after the category for a merge |
| `LocalSpec.SavePlan` | grafcli/resources/local.py:141-162 | `save` up to `write_file`: the plan is always for the path's category; on an insert it writes the given document, whose kind is the category's |
| `LocalSpec.Save` | grafcli/resources/local.py:141-164 | `save` as a function of the naming rule; `Save(AsWritten, …)` is the code as written. A successful save keeps the set of directories and follows a plan |
| `Local.PathList.Pop` | grafcli/resources/local.py:37 | `parts.pop(0)`: the first segment is removed, or `IndexError` on an empty list |
| `Local.PathList.PopIfAny` | grafcli/resources/local.py:53 | `parts.pop(0) if parts else None` |
| `Local.ListFiles` | grafcli/resources/local.py:175-179 | the names are `from_file_format` of the directory's entries taken in some order, each entry exactly once, so a name appears as often as there are entries that give it |
| `Local.TopParent` | grafcli/resources/local.py:148-150 | the `while top_parent.parent` loop ends at the root of the node it started from |
| `LocalSpec.MakeLocalDirs` | grafcli/resources/local.py:203-206 | all three category directories exist afterwards; an existing one keeps its files; a missing one is created empty |
| `Local.LocalResources.constructor` | grafcli/resources/local.py:203-206 | with a data directory configured, all three directories exist, existing ones keep their files and missing ones are empty; without one, the store is as found |
| `Local.LocalResources.List` | grafcli/resources/local.py:36-50 | gives what the listing function gives; a bare category gives one name per entry of its directory, in some order. The method pops as many segments as the source does |
| `Local.LocalResources.ListDashboards` | grafcli/resources/local.py:52-71 | equals `LocalSpec.ListDashboards`, after popping up to three segments |
| `Local.LocalResources.ListRows` | grafcli/resources/local.py:73-81 | equals `LocalSpec.ListRows`, after popping one segment |
| `Local.LocalResources.ListPanels` | grafcli/resources/local.py:83-84 | always `InvalidPath` |
| `Local.LocalResources.Get` | grafcli/resources/local.py:86-97 | equals `LocalSpec.Get`, and pops the category plus at most the category's depth |
| `Local.LocalResources.GetDashboards` | grafcli/resources/local.py:99-117 | equals `LocalSpec.GetDashboards`, after popping up to three segments |
| `Local.LocalResources.GetRows` | grafcli/resources/local.py:119-131 | equals `LocalSpec.GetRows`, after popping up to two segments |
| `Local.LocalResources.GetPanels` | grafcli/resources/local.py:133-139 | equals `LocalSpec.GetPanels`, after popping up to one segment |
| `Local.LocalResources.Save` | grafcli/resources/local.py:141-164 | the store becomes what `LocalSpec.Save(Corrected, …)` gives, or stays unchanged when it fails with that error; the caller's path is unchanged |
| `Local.LocalResources.WriteStore` | grafcli/resources/local.py:195-200 | overwrites or creates `<name>.json` in an existing directory; fails with `OSError` when the directory is missing |
| `Properties.UnknownCategoryIsInvalidPath` | grafcli/resources/local.py:36-40 | a first segment that is not a category makes `list`, `get` and `save` fail with `InvalidPath` |
| `Properties.GetDepthLimit` | grafcli/resources/local.py:99-139 | more than 3, 2 or 1 segments after `dashboards`, `rows` or `panels` make `get`, and `save`, fail with `InvalidPath`, whatever is stored |
| `Properties.ListDepthLimit` | grafcli/resources/local.py:73-84 | `list` with more than one segment after `rows`, or any segment after `panels`, fails with `InvalidPath` whatever is stored |
| `Properties.CategoryListingIsItsDirectory` | grafcli/resources/local.py:42-43 | `list` of a bare category gives that directory's entries, or `InvalidPath` when the directory does not exist |
| `Properties.ListedNamesRecoverStoredNames` | grafcli/resources/local.py:175-179 | a document stored under a name without `.json` in it is listed under that name |
| `Properties.ListBelowDashboardRow` | grafcli/resources/local.py:60-71 | when the row exists, naming a panel below it fails with `InvalidPath`, whether or not the panel exists. When the row does not exist, the row's own error is returned |
| `Properties.ListingLength` | grafcli/resources/local.py:175-179 | a bare-category listing has exactly as many names as the directory has entries |
| `Properties.DuplicateNamesAreListedTwice` | grafcli/resources/local.py:167-179 | a directory holding `a.json`, `a.json.json` and `b.json` lists `a` twice and `b` once, in some order |
| `Properties.ListDashboardIsChildrenOfGet` | grafcli/resources/local.py:52-71 | under `dashboards`, `list` of a path gives the row names of the dashboard `get` returns, the panel names of the row it returns, and `InvalidPath` for a panel |
| `Properties.ListRowIsChildrenOfGet` | grafcli/resources/local.py:73-81 | under `rows`, `list` of a stored row gives the panel names of the row `get` returns; with any segment after the row's name `list` fails with `InvalidPath`, even where `get` succeeds |
| `Properties.LocalDirsAreReady` | grafcli/resources/local.py:195-206 | after `make_local_dirs`, listing any bare category and writing into any category succeed, and a second run changes nothing |
| `Properties.ListEmptyRowSegment` | grafcli/resources/local.py:60-61 | an empty row segment lists the dashboard's rows, whatever follows it |
| `Properties.BareCategoryGetIsNotFound` | grafcli/resources/local.py:184-189 | `get` of a bare category (including `["dashboards"]` and `["rows"]`) fails with `DocumentNotFound` |
| `Properties.MissingTopLevelIsNotFound` | grafcli/resources/local.py:184-189 | an empty name, or a name with no file, makes `get` fail with `DocumentNotFound` once the depth limit is met. `list` fails the same way under `dashboards`, and under `rows` when nothing follows the name |
| `Properties.GetFindsStoredOwner` | grafcli/resources/local.py:106-139 | the node `get` returns leads, through its parents, to the document in the file the path names (a dashboard under its file name) |
| `Properties.GetDashboardNodeByDepth` | grafcli/resources/local.py:106-117 | `get` returns the dashboard when there is no row segment or it is empty, else the named row, and the named panel when a panel segment is also given |
| `Properties.GetRowNodeByDepth` | grafcli/resources/local.py:125-131 | under `rows`, `get` returns the stored row, or its named panel with that row as parent |
| `Properties.SaveMergeWritesOwner` | grafcli/resources/local.py:145-160 | a merge writes the updated node's top-level owner, which has the category's document kind, under the path's category: as written into the file named by the last segment, under the corrected rule into the file it read |
| `Properties.RootKeepsOwnerKind` | grafcli/resources/local.py:146-150 | a node updated in place still has an owner of the same kind |
| `Properties.SaveMergeKindMismatch` | grafcli/resources/local.py:146 | a merge whose document the node cannot take fails with `InvalidDocument` and writes nothing |
| `Properties.SaveNewDocument` | grafcli/resources/local.py:153-162 | when the target is not found, the document is added only if its kind is the category's (otherwise `InvalidDocument`), under the last segment or else its own name |
| `Properties.SaveOtherErrorsPropagate` | grafcli/resources/local.py:144-157 | every error of `get` except `DocumentNotFound` becomes the error of `save` |
| `Properties.SaveWritesOneFile` | grafcli/resources/local.py:159-164 | a successful `save` overwrites or creates one file in one directory; every other stored entry is unchanged |
| `Properties.SaveRowKeepsSiblings` | grafcli/resources/local.py:145-160 | saving a row into a dashboard writes that dashboard with exactly that row replaced (same name, new content) and all sibling rows unchanged; the file is named after the row as written, after the dashboard under the corrected rule |
| `Properties.SavePanelKeepsSiblings` | grafcli/resources/local.py:145-160 | saving a panel into a dashboard's row writes the dashboard with exactly that panel replaced and all other rows and panels unchanged; the file is named after the panel as written, after the dashboard under the corrected rule |
| `Properties.SaveThenGet` | grafcli/resources/local.py:141-164 | under the corrected naming rule, after a merge, `get` of the same path returns exactly the updated node, parents included, read back from the written file |
| `Properties.SaveNewThenGet` | grafcli/resources/local.py:153-164 | after an insert under `[category]` or `[category, name]`, `get` of the category and the file's name returns the saved document at the top (a dashboard renamed after its file), or `DocumentNotFound` when that name is empty |
| `Properties.NestedInsertIsNotReadBack` | grafcli/resources/local.py:153-164 | under either naming rule, saving a dashboard under `["dashboards", d, r]` when `d` exists without a row `r` writes it to `r.json`, leaves `d.json` as it was, and `get` of that path still gives `DocumentNotFound` |
| `Properties.NamingRulesAgreeOnShortPaths` | grafcli/resources/local.py:159-162 | the source's file-name rule and the corrected one agree on every path of at most two segments |
| `Properties.NestedSaveAsWrittenMissesOwner` | grafcli/resources/local.py:159-164 | as written, saving a row into `Home` writes `Status.json`: `Home.json` is unchanged and `get` does not see the edit |
| `Properties.SavedNameIsListed` | grafcli/resources/local.py:159-179 | after a save under a name without `.json` in it, listing that directory shows the name |

## Findings

| source | as written | input that shows it | evidently intended | confidence | as-written member | corrected member |
|---|---|---|---|---|---|---|
| grafcli/resources/local.py:159-160 | a merge writes the top-level owner to a file named `parts[-1]`, which is the row or panel name on a nested path | `save(["dashboards","Home","Status"], row)` with `Home` holding a row `Status`: the whole dashboard is written to `Status.json` and `Home.json` keeps the old row | a merge rewrites the file it read, `parts[1]` | medium, not executed | `Properties.NestedSaveAsWrittenMissesOwner` | `Properties.SaveThenGet` |

`LocalSpec.FileName` defines both rules, selected by `NamingRule`. The class's `Save` uses the corrected rule. It changes only the merge branch. When the target is not found, `Save` still names the file `parts[-1]`, as written.

## Left out

- The disk: `os.path.isdir`, `os.listdir`, `os.path.isfile`, `open` and `os.makedirs` (with its mode) become map operations on `store`. A crash in the middle of a write is not modelled.
- JSON: `json.loads` and `json.dumps` are not modelled, and a file holds the document value itself. A file whose document is of another kind than its directory expects fails to parse with `InvalidDocument`. Every other parse failure is out of scope.
- The configuration lookup and `os.path.expanduser` for the data directory. The constructor takes whether a data directory is configured.
- Exception messages. The two `InvalidPath` messages for a panel named under a row collapse into one error value.
- The order `os.listdir` returns: `ListFiles` promises one name per entry, in some order of the entries, not which order.
- Documents.Update: the documents module is not part of this model. `update` with a document of another kind fails with `InvalidDocument`. The real module may merge, for instance, a panel into a row; that is not modelled.
- Documents.RowOf: when siblings share a name, the first match is taken. This is an assumption about the unseen module.
- Document objects being mutated in place and shared by reference are modelled on values. The `parent` link is a context (zipper) that `Parent` rebuilds around the node.
- Local.LocalResources.Save: uses the corrected file-name rule from Findings for a merge, instead of the source's `parts[-1]`.
- Properties.SaveNewThenGet: the save-then-get round trip of an insert holds only on paths of at most two segments. On a deeper path the insert writes a new top-level file named after the last segment, and `get` of the same path does not find it (`Properties.NestedInsertIsNotReadBack`). Neither naming rule changes this; the code gives no sign of what a nested insert should do, so no corrected behaviour is modelled.
- Sibling-name uniqueness and JSON consistency of a document are not enforced by this code, and are not modelled.
