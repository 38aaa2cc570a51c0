# rbkcli core, modelled in Dafny

rbkcli is a command-line client for a backup appliance's REST API. It turns the documented endpoints into shell
commands and lets the user slice, filter and chain the JSON replies without writing code. This project models,
and proves properties of, the parts of rbkcli that compute rather than talk to the outside world:

- **JSON metadata mapping** (`rbkcli/base/jsops.py`): the walk that turns a JSON reply or a documented response
  schema into path entries `[name#level#type]`, deduplicated, sorted and split into simple and nested keys
  (`MapKeys`, `MapDoc`). The walk that applies a selection (`MapSelection`), the `$ref` resolver (`ResolveRefs`),
  the pretty printer (`Pretty`), the fixed-width table (`DynaTable`), and the key/value-list and table helpers
  (`JsonOps`) are modelled too.
- **Field requests and the four selection modes** (`rbkcli/core/handlers/jsometa.py`):
  - the field grammar `f`, `f=v`, `f~v`, `f!=v`, `f!~v` and `[a][b]` (`FieldRequests`);
  - `JsonEditor` with its select, filter, context and loop modes (`JsonMeta`, `Selecting`, `Editing`, `Looping`);
  - conversion to table or list text (`Converting`).
- **Request handling**:
  - endpoint, version and query normalisation and endpoint matching (`Inputs`);
  - autocomplete and the option workflow of the CLI (`Cli`);
  - output dispatch (`Outputs`);
  - quote-aware command splitting and the callback (`Callback`).
- **Operations and authorization**:
  - the white- and blacklists of operations, key hiding and information output (`Operations`);
  - the API handler's method list, per-profile authorization lists, the authorized-endpoint gate, and header and
    URL building, including the credential choice of the requester (`Api`);
  - Basic credentials are encoded as in section 2 of RFC 7617 with the Base64 alphabet of section 4 of
    RFC 4648 (`Base64`).
- **Cmdlets** (`rbkcli/core/handlers/cmdlets.py`): selection of usable cmdlets, parameter checking and
  substitution, and the documentation paths (`Cmdlets`).
- **Bundled scripts** (`scripts/default/`): CSV to records (`JsonfyCsv`), a report grid to records
  (`ReportTable`), ingest frequencies (`Frequencies`), maximum retention per SLA (`AllSnapshots`), missed-backup
  summaries and filters (`MissedBackupsReport`), and log-line parsing, thread ordering and result filtering
  (`LogApiMetrics`).

JSON is the datatype `Json.Json`:
- `Null`, `Bool`, `Num(int)`, `Str`, `Arr`, and `Obj` over an ordered list of key/value pairs with Python `dict`
  semantics (an assignment replaces in place or appends, `del` removes);
- parsing (`json.loads`) and printing (`json.dumps`) are functions supplied by the caller.

Python exceptions become `Fail(Error(kind, message))` of `Wrappers.Result`, with the exception's class as `kind`.
Objects whose methods update their fields are Dafny classes, and their methods are proved against functions
of the old state. Pure helpers are functions, and the lemmas beside them state what the code promises.
Library modules shared by the rest: `Wrappers`, `Strings`, `Lists`, `Sorting` and `Json`.

Where the code and its own documentation part ways, the model follows the code:
- `simple_keys` and `nested_keys` need not together make up `full`. A one-segment entry that prefixes a longer
  one is dropped from the simple keys but is not among the nested keys either (`MapKeys`).
- The loop annotation stores the first element of a list value (`line['loop_<key>'] = value[0]`), not the whole
  list (`JsonMeta`).
- In `MapSelect`, a list element counts as one more level of the walk (`MapSelection`).
- `convert_to_table` refers to the undefined name `data` when a record holds a `data` key
  (rbkcli/core/handlers/jsometa.py:309). This raises `NameError`, as `Converting.DataRecordFails` states.
- `MapResponseDoc` reads `keys[0]` of an empty key, which raises `IndexError` (`MapDoc`).
- The two `_get_usable_cmdlets` of rbkcli/core/handlers/cmdlets.py lead `_gen_docs` to document a repeated
  cmdlet name differently. The cmdlets handler keeps the first cmdlet of that name; the controls keep every
  cmdlet, so the last one wins (`Cmdlets.HandlersDocumentDuplicates`).
- The documentation of a cmdlet repeats its whole parameter text once per parameter, as the name of each
  one (`Cmdlets.DocParametersRepeat`).
- A comment in `JsonfyCsv.execute` promises to skip empty lines, but its test only skips the header line.
  An empty line gives a record of empty values, or an `IndexError` when there are several columns
  (`JsonfyCsv`).

## Model

| member | source | states |
|---|---|---|
| DynaTable.MaxLen | rbkcli/base/jsops.py:111 | the longest entry's length: bounds every entry and is reached by one |
| DynaTable.ColumnWidth | rbkcli/base/jsops.py:107-111 | a column's width is at least its header's and every cell's length, and equals one of them |
| DynaTable.Widths | rbkcli/base/jsops.py:101-117 | succeeds exactly when there is a column for every header; then one width per header, each the ColumnWidth of that column |
| DynaTable.Cell | rbkcli/base/jsops.py:50-55 | a padded cell is the column width plus the two surrounding spaces long |
| DynaTable.FormatHeaders | rbkcli/base/jsops.py:47-49 | one padded cell per header |
| DynaTable.FormatColumn | rbkcli/base/jsops.py:50-55 | one padded cell per row of the column |
| DynaTable.FormatColumns | rbkcli/base/jsops.py:47-55 | one formatted column per column |
| DynaTable.DataLines | rbkcli/base/jsops.py:74-78 | one joined line per data row |
| DynaTable.TableText | rbkcli/base/jsops.py:80-88 | header line, a division line as wide as the first data line, every data line in order, and the summary line only when a summary is given |
| DynaTable.AssembledOk | rbkcli/base/jsops.py:58-92 | on consistent input the table is the header line, division and padded data lines built from the computed widths |
| DynaTable.TableShape | rbkcli/base/jsops.py:58-92 | a header per column and equal, non-empty columns always assemble, into n+2 lines (n+3 with a summary) all as wide as the header line |
| DynaTable.LineWidth | rbkcli/base/jsops.py:74-78 | every data line is exactly as wide as the header line |
| DynaTable.TableLine | rbkcli/base/jsops.py:74-78 | line i+2 of the table holds the i-th cell of every column, padded to that column's width |
| DynaTable.SizedColumnsAsWritten | rbkcli/base/jsops.py:101-117 | the as-written sizing keeps one column per column |
| DynaTable.SizedColumnsSameCells | rbkcli/base/jsops.py:112-115 | the as-written sizing only reorders a column's cells (same multiset) |
| DynaTable.AsWrittenAgreesWithoutHeaderCells | rbkcli/base/jsops.py:101-117 | when no header text occurs among its own column's cells the as-written table equals the corrected one |
| DynaTable.FirstLineLeads | rbkcli/base/jsops.py:74-78 | the corrected table's first data line starts with the first column's first cell |
| DynaTable.FirstLineLeadsAsWritten | rbkcli/base/jsops.py:112-115 | as written, the first data line starts with whatever the header-removal moved to the front of the first column |
| DynaTable.AsWrittenMisalignsRows | rbkcli/base/jsops.py:112-115 | a column whose first cell equals its header gets its rows reordered: the as-written table differs from the corrected one |
| DynaTable.RecordsExampleAsWritten | rbkcli/base/jsops.py:101-117 | for the records `{"a": "a", "b": "p"}` and `{"a": "x", "b": "q"}` under the headers `a`, `b`, the as-written table's first data line holds the cells `x`, `p` and its second `a`, `q` |
| DynaTable.RecordsExampleIntended | rbkcli/base/jsops.py:58-92 | for the same records, the intended table's first data line holds `a`, `p` and its second `x`, `q`, under the header line of `a`, `b` and a `=` line seven wide |
| DynaTable.PadColumn | rbkcli/base/jsops.py:50-55 | the padding loop yields FormatColumn |
| DynaTable.PadAll | rbkcli/base/jsops.py:47-55 | the padding loops yield FormatHeaders and FormatColumns |
| DynaTable.CollectLine | rbkcli/base/jsops.py:75-76 | some row exactly when every column has row i, and then the i-th cells in column order |
| DynaTable.CollectLines | rbkcli/base/jsops.py:74-78 | some lines exactly when every column has n rows, and then DataLines |
| DynaTable.DynaTable.constructor | rbkcli/base/jsops.py:14-34 | stores headers, columns and summary, table starts empty |
| DynaTable.DynaTable.GetRowsSize | rbkcli/base/jsops.py:101-117 | returns Widths of the stored headers and columns |
| DynaTable.DynaTable.FormatRows | rbkcli/base/jsops.py:36-56 | succeeds exactly when Widths does and then replaces headers and columns by their padded forms; otherwise leaves them |
| DynaTable.DynaTable.AssembleTable | rbkcli/base/jsops.py:58-92 | returns Assembled of the old state and stores a real table in `table` |
| MapKeys.Render | rbkcli/base/jsops.py:499 | a rendered cursor segment is bracketed: starts with `[` and ends with `]` |
| MapKeys.Path | rbkcli/base/jsops.py:499-501 | the cursor string is empty exactly when the cursor has no segments |
| MapKeys.PathNested | rbkcli/base/jsops.py:501-533 | a cursor of two or more segments contains `][`, so gen_simple_keys counts it as nested |
| MapKeys.Without | rbkcli/base/jsops.py:516-519 | removing a segment keeps exactly the other segments |
| MapKeys.LeaveSegment | rbkcli/base/jsops.py:516-519 | removing the segment just appended (deeper than every earlier one) restores the cursor before it |
| MapKeys.NestedKeysMembers | rbkcli/base/jsops.py:529-535 | nested keys are exactly the map entries containing `][`, and stay distinct |
| MapKeys.TopKeysMembers | rbkcli/base/jsops.py:532-535 | the first pass collects exactly the entries without `][`, and they stay distinct |
| MapKeys.UnprefixedMembers | rbkcli/base/jsops.py:537-541 | the kept simple keys are exactly those that prefix no nested key |
| MapKeys.SplitTop | rbkcli/base/jsops.py:529-535 | the first loop yields TopKeys and NestedKeys of the full map |
| MapKeys.DropPrefixed | rbkcli/base/jsops.py:537-541 | the second loop (with its inner loop) yields the Unprefixed keys |
| MapKeys.RemovePrefixed | rbkcli/base/jsops.py:539-541 | the inner loop removes a key exactly when it prefixes some nested key, leaving the rest in place |
| MapKeys.GenSimpleKeys | rbkcli/base/jsops.py:527-544 | nested keys are the entries with `][`; simple keys are the other entries that prefix no nested key; the two are disjoint |
| MapKeys.AllMaps | rbkcli/base/jsops.py:521-525 | the full map is strictly sorted (deduplicated) with the same elements as the recorded cursors |
| MapKeys.GenAllMaps | rbkcli/base/jsops.py:521-525 | builds AllMaps: full sorted and deduplicated, simple keys in full and not nested, nested keys exactly the entries with `][` |
| MapDoc.DeclaredType | rbkcli/base/jsops.py:493-496 | a value that is not a dictionary (so has no `type` key) is typed `empty` |
| MapDoc.DocTypeName | rbkcli/base/jsops.py:437-444 | the type translation succeeds exactly on the six documented type names and yields one of the six map kinds; any other name is a KeyError |
| MapDoc.FollowsTrans | rbkcli/base/jsops.py:455-483 | the walk's "extends the recorded map below the cursor" relation composes |
| MapDoc.Walk | rbkcli/base/jsops.py:234-245 | a successful walk restores cursor and level, keeps every earlier map entry and only adds entries below the current cursor |
| MapDoc.WalkFields | rbkcli/base/jsops.py:251-258 | walking a dictionary's fields in order keeps the same frame (cursor and level restored, entries only added below) |
| MapDoc.WalkItems | rbkcli/base/jsops.py:275-280 | walking a list's items keeps the same frame |
| MapDoc.Entry | rbkcli/base/jsops.py:455-483 | each branch of `_action_dict` (documented field, metadata key, `data`, `items` before `data`, anything else) keeps the frame |
| MapDoc.FieldEntry | rbkcli/base/jsops.py:459-462 | a documented field is appended one level deeper, walked and removed again: the frame is kept |
| MapDoc.RaisedEntry | rbkcli/base/jsops.py:469-479 | `data` and `items` raise the level for the walk of their value and lower it after: the frame is kept and `data_tag` only turns on |
| MapDoc.Paths | rbkcli/base/jsops.py:501-502 | every recorded cursor is rendered in order |
| MapDoc.DocMapSegments | rbkcli/base/jsops.py:455-504 | every recorded map entry is a non-empty run of documented segments (not metadata, not capitalised) at level one or deeper |
| MapDoc.SingleKey | rbkcli/base/jsops.py:251-258 | a one-key dictionary is walked as that key's entry |
| MapDoc.StringFieldWalk | rbkcli/base/jsops.py:459-464 | `{"type": "string"}` adds nothing: `type` is metadata and strings are leaves |
| MapDoc.StringFieldEntry | rbkcli/base/jsops.py:499-502 | a documented string field records exactly one entry, the cursor plus `[key#level+1#str]` |
| MapDoc.PropertiesWalk | rbkcli/base/jsops.py:458-464 | `properties` is skipped as metadata: its one field is recorded one level below the cursor |
| MapDoc.PropertyLevel | rbkcli/base/jsops.py:403-453 | a schema with one string property maps to the single level-1 entry of that property |
| MapDoc.ItemsLevel | rbkcli/base/jsops.py:475-479 | `items` outside `data` adds a level: its property is recorded at level 2 |
| MapDoc.ItemsAfterData | rbkcli/base/jsops.py:475-481 | once `data` was seen, `items` no longer adds a level |
| MapDoc.DataItemsLevel | rbkcli/base/jsops.py:469-481 | `data` adds the level and sets `data_tag`, so `data.items.properties.k` is recorded at level 2, not 3 |
| MapDoc.MapResponseDoc.constructor | rbkcli/base/jsops.py:403-413 | empty cursor, level 0, empty map and `data_tag` off |
| MapDoc.MapResponseDoc.MapIt | rbkcli/base/jsops.py:546-557 | the map of a model is DocMap of its schema (an empty schema where a key is missing) and is stored on success |
| MapDoc.MapResponseDoc.IterateJson | rbkcli/base/jsops.py:506-514 | the in-place walk leaves the state Walk computes, or reports its error |
| MapDoc.MapResponseDoc.IterateDict | rbkcli/base/jsops.py:251-258 | the in-place dictionary loop leaves the state WalkFields computes |
| MapDoc.MapResponseDoc.IterateList | rbkcli/base/jsops.py:275-280 | the in-place list loop leaves the state WalkItems computes |
| MapDoc.MapResponseDoc.ActionDict | rbkcli/base/jsops.py:455-483 | the in-place `_action_dict` leaves the state Entry computes |
| MapDoc.MapResponseDoc.FieldAction | rbkcli/base/jsops.py:459-462 | append, walk, remove leaves the state FieldEntry computes, or the type-translation error |
| MapDoc.MapResponseDoc.RaisedAction | rbkcli/base/jsops.py:469-479 | the level raise and lower around the walk leaves the state RaisedEntry computes |
| MapDoc.MapResponseDoc.Appender | rbkcli/base/jsops.py:489-504 | raises the level, appends `[key#level#type]` to the cursor and records the new cursor; an unknown type is an error |
| MapDoc.MapResponseDoc.Remover | rbkcli/base/jsops.py:516-519 | removes the segment from the cursor and lowers the level, leaving the map alone |
| MapSelection.Names | rbkcli/base/jsops.py:591-593 | the selection's output names are the definitions' keys, in order |
| MapSelection.PassesFirstFilter | rbkcli/base/jsops.py:631-663 | only the first non-empty filter (equal, contains, not-contains, not-equal, in that order) decides: the later ones can be anything |
| MapSelection.SelectOne | rbkcli/base/jsops.py:629-663 | one definition never moves cursor, level or map; it only removes names from the unselected set; a matching key whose filter fails stops the record from being returned; a definition for another key changes nothing |
| MapSelection.SelectFrom | rbkcli/base/jsops.py:622-663 | the definitions loop keeps cursor, level and map, only shrinks the unselected set and never turns returning back on |
| MapSelection.SelectKeys | rbkcli/base/jsops.py:625-663 | the selected dictionary keeps its key set: values are replaced, never added or removed |
| MapSelection.SelectOneKeeps | rbkcli/base/jsops.py:629-663 | one definition whose entry is the cursor stores a passing value under its name and takes the name out of `unselected`, or clears `returning` when the value fails its filter; every definition of another entry keeps its value and stays unselected, and chosen definitions stay chosen |
| MapSelection.SelectKeeps | rbkcli/base/jsops.py:622-663 | after the definitions loop every definition whose entry is the cursor holds the found value and is no longer unselected when it passes, and `returning` is cleared when one fails; every definition of another entry keeps its value |
| MapSelection.Loaded | rbkcli/base/jsops.py:681-685 | decoding a string value as JSON never yields a larger tree (so the walk terminates) |
| MapSelection.Walk | rbkcli/base/jsops.py:234-245 | the walk restores cursor and level |
| MapSelection.WalkFields | rbkcli/base/jsops.py:251-258 | the dictionary loop restores cursor and level |
| MapSelection.WalkItems | rbkcli/base/jsops.py:275-280 | the list loop restores cursor and level |
| MapSelection.Entry | rbkcli/base/jsops.py:666-699 | visiting a key restores cursor and level afterwards |
| MapSelection.Item | rbkcli/base/jsops.py:701-721 | visiting a list element raises the level while walking it and restores it after |
| MapSelection.WalkSteps | rbkcli/base/jsops.py:666-721 | a walk restores cursor and level, only appends recorded cursors, each strictly extending the starting cursor; the unselected set only shrinks, a cleared returning flag stays cleared, and definitions whose entry was not visited keep their value |
| MapSelection.WalkFieldsSteps | rbkcli/base/jsops.py:251-258 | the same progress relation over a dictionary's fields |
| MapSelection.WalkItemsSteps | rbkcli/base/jsops.py:275-280 | the same progress relation over a list's items |
| MapSelection.EntrySteps | rbkcli/base/jsops.py:666-699 | the same progress relation over one key, whose own cursor (the current one plus `[key#level+1#type]`) is recorded first, before the cursors found while its value is walked |
| MapSelection.WalkBelow | rbkcli/base/jsops.py:666-721 | every cursor a walk records extends the recorded list and lies strictly below the cursor it started from |
| MapSelection.EntryBelow | rbkcli/base/jsops.py:666-699 | visiting a key records its own cursor first and then only cursors below the starting cursor |
| MapSelection.ItemSteps | rbkcli/base/jsops.py:701-721 | the same progress relation over one list element |
| MapSelection.Enter | rbkcli/base/jsops.py:669-687 | entering a key pushes its segment and sets the level to the segment's |
| MapSelection.SelectFacts | rbkcli/base/jsops.py:622-663 | the selection step keeps the selected keys and keeps every other definition's value |
| MapSelection.NotAvailable | rbkcli/base/jsops.py:591-593 | the record starts with every definition's name mapped to `N/A` |
| MapSelection.InMapIffVisited | rbkcli/base/jsops.py:687-734 | a path is in the full map exactly when the walk visited it |
| MapSelection.FilteredNotInMap | rbkcli/base/jsops.py:606-620 | a filtered field whose key is absent from the map makes the result `{}` |
| MapSelection.PathTexts | rbkcli/base/jsops.py:676-687 | every recorded cursor is rendered in order |
| MapSelection.SelectShape | rbkcli/base/jsops.py:569-620 | the result is `{}` or a dictionary with exactly the definitions' names, in which every filtered field holds a value that passes its filter |
| MapSelection.FilteredNotFound | rbkcli/base/jsops.py:606-612 | a filtered field never visited makes the result `{}` |
| MapSelection.PlainNotFound | rbkcli/base/jsops.py:591-620 | a plain field never visited stays `N/A` (unless the record is dropped) |
| MapSelection.NotAvailableGet | rbkcli/base/jsops.py:591-593 | every definition's name reads `N/A` in the initial record |
| MapSelection.AsWrittenAgrees | rbkcli/base/jsops.py:622-663 | while no definition matches a second time, the as-written loop (with its `del`) gives the corrected result |
| MapSelection.SecondMatchFails | rbkcli/base/jsops.py:634-663 | a definition that matches again after its name left the unselected set makes the as-written loop raise KeyError |
| MapSelection.SecondMatchFrom | rbkcli/base/jsops.py:625-663 | the same KeyError from any starting definition before the second match |
| MapSelection.SecondMatchOverwrites | rbkcli/base/jsops.py:629-663 | in the corrected selection a second match takes the newest passing value |
| MapSelection.SelectTakes | rbkcli/base/jsops.py:625-663 | a passing definition's value is the found value once the loop has passed it |
| MapSelection.SelectOneTakes | rbkcli/base/jsops.py:629-663 | one step of SelectTakes |
| MapSelection.AsWrittenFlags | rbkcli/base/jsops.py:622-663 | the as-written loop raises KeyError exactly when the corrected loop records a second match, and otherwise agrees with it |
| MapSelection.SelectAsWritten | rbkcli/base/jsops.py:569-620 | the as-written selection fails exactly when some name matched twice during the walk, and otherwise equals Select |
| MapSelection.MapSelect.constructor | rbkcli/base/jsops.py:569-590 | empty cursor, level 0, no map, nothing selected, returning on |
| MapSelection.MapSelect.IterIt | rbkcli/base/jsops.py:569-620 | returns Select of the definitions over the data, leaves the sorted map of the visited paths, and records whether the as-written code would have raised KeyError |
| MapSelection.MapSelect.Initialise | rbkcli/base/jsops.py:577-593 | every name `N/A` and unselected, returning on |
| MapSelection.MapSelect.Reset | rbkcli/base/jsops.py:577-593 | sets the given selected and unselected entries with an empty cursor |
| MapSelection.MapSelect.DropUnfound | rbkcli/base/jsops.py:606-612 | clears returning exactly when some unselected name has a filter |
| MapSelection.MapSelect.MapIt | rbkcli/base/jsops.py:773-783 | the map is SelectMap of the data |
| MapSelection.MapSelect.IterateJson | rbkcli/base/jsops.py:234-245 | the in-place walk leaves the state Walk computes |
| MapSelection.MapSelect.IterateDict | rbkcli/base/jsops.py:251-258 | the in-place dictionary loop leaves the state WalkFields computes |
| MapSelection.MapSelect.IterateList | rbkcli/base/jsops.py:275-280 | the in-place list loop leaves the state WalkItems computes |
| MapSelection.MapSelect.ActionDict | rbkcli/base/jsops.py:666-699 | the in-place `_action_dict` leaves the state Entry computes |
| MapSelection.MapSelect.Ascend | rbkcli/base/jsops.py:696-697 | removes the segment from the cursor and lowers the level |
| MapSelection.MapSelect.Descend | rbkcli/base/jsops.py:669-687 | decodes a string value and leaves the state Enter computes |
| MapSelection.MapSelect.ActionList | rbkcli/base/jsops.py:701-721 | the in-place `_action_list` leaves the state Item computes |
| MapSelection.MapSelect.SelectKey | rbkcli/base/jsops.py:622-663 | the in-place `_select_key` leaves the state SelectFrom computes |
| Pretty.Render | rbkcli/base/jsops.py:297-304 | a scalar document prints nothing (only dictionary entries and list items produce lines) |
| Pretty.Indented | rbkcli/base/jsops.py:307-343 | every printed line of a value walked at counter c is indented by at least c+2 spaces |
| Pretty.FieldsIndented | rbkcli/base/jsops.py:307-325 | the same indentation bound over a dictionary's fields |
| Pretty.ItemsIndented | rbkcli/base/jsops.py:327-343 | the same indentation bound over a list's items |
| Pretty.FieldIndented | rbkcli/base/jsops.py:307-325 | every line of one entry starts with the entry's indentation |
| Pretty.ItemIndented | rbkcli/base/jsops.py:327-343 | every line of one list item starts with the item's indentation |
| Pretty.FlatFields | rbkcli/base/jsops.py:321-323 | a dictionary of scalars prints one `key: value` line per field, in order |
| Pretty.TopLine | rbkcli/base/jsops.py:299-323 | a top-level scalar entry is printed with no indentation as `key: str(value)` |
| Pretty.FlatDict | rbkcli/base/jsops.py:297-325 | a top-level dictionary of scalars renders as its `key: value` lines joined by newlines |
| Pretty.PrettyPrint.constructor | rbkcli/base/jsops.py:213-218 | counter -2, modifier 2, empty output |
| Pretty.PrettyPrint.IterIt | rbkcli/base/jsops.py:297-304 | the printed text is Render of the document and the collected lines are Lines of it |
| Pretty.PrettyPrint.IterateJson | rbkcli/base/jsops.py:234-245 | appends exactly the value's lines and restores the counter |
| Pretty.PrettyPrint.IterateDict | rbkcli/base/jsops.py:251-258 | appends exactly the fields' lines and restores the counter |
| Pretty.PrettyPrint.IterateList | rbkcli/base/jsops.py:275-280 | appends exactly the items' lines and restores the counter |
| Pretty.PrettyPrint.ActionDict | rbkcli/base/jsops.py:307-325 | appends the entry's lines at counter+2 and restores the counter |
| Pretty.PrettyPrint.ActionList | rbkcli/base/jsops.py:327-343 | appends the item's lines at counter+2 and restores the counter |
| ResolveRefs.ConvertRefToKeys | rbkcli/base/jsops.py:380-388 | a reference gives at least one key, and no key contains `/` |
| ResolveRefs.DefinitionRef | rbkcli/base/jsops.py:380-388 | `#/definitions/name` converts to the single key `name` |
| ResolveRefs.Follow | rbkcli/base/jsops.py:367-368 | following no keys is the definitions themselves; a present key gives its value; indexing a non-dictionary is a TypeError and a missing key a KeyError |
| ResolveRefs.ResolveField | rbkcli/base/jsops.py:362-373 | an ordinary key keeps its name; a `$ref` key is renamed to the reference's last key |
| ResolveRefs.ResolveRefField | rbkcli/base/jsops.py:365-388 | a resolved `$ref` is named by its last key (which has no `/`); a failed lookup gives that lookup's error |
| ResolveRefs.RefFieldResolved | rbkcli/base/jsops.py:365-370 | a `$ref` whose target resolves becomes `(last key, resolved target)` |
| ResolveRefs.RefFieldNotString | rbkcli/base/jsops.py:383 | a `$ref` whose value is not a string raises AttributeError (no `replace`) |
| ResolveRefs.RefFieldMissing | rbkcli/base/jsops.py:367-368 | a `$ref` whose path is missing gives the lookup's error |
| ResolveRefs.RefFieldExhausted | rbkcli/base/jsops.py:370 | with no recursion budget left a `$ref` raises RecursionError |
| ResolveRefs.RefFieldFailed | rbkcli/base/jsops.py:370 | a failing resolution of the target is passed on |
| ResolveRefs.ResolveOtherField | rbkcli/base/jsops.py:371-372 | an ordinary key keeps its name and succeeds exactly when its value resolves |
| ResolveRefs.Last | rbkcli/base/jsops.py:369 | the last key is one of the keys |
| ResolveRefs.DelRotated | rbkcli/base/jsops.py:253-257 | deleting the visited key from the copy leaves the rest in rotated order |
| ResolveRefs.SetRotated | rbkcli/base/jsops.py:253-257 | re-adding the visited key appends it at the end |
| ResolveRefs.ResolvePlain | rbkcli/base/jsops.py:362-378 | a document without `$ref` resolves to itself (the delete-and-reinsert loop restores the key order) |
| ResolveRefs.FieldsPlain | rbkcli/base/jsops.py:251-258 | the dictionary loop over `$ref`-free fields rebuilds the dictionary unchanged |
| ResolveRefs.ItemsPlain | rbkcli/base/jsops.py:275-280 | the list loop over `$ref`-free items rebuilds the list unchanged |
| ResolveRefs.OneField | rbkcli/base/jsops.py:251-258 | a one-key dictionary resolves to its resolved entry, or that entry's error |
| ResolveRefs.SingleRef | rbkcli/base/jsops.py:362-373 | `{"$ref": "#/definitions/name"}` resolves to `{name: definition}` for a `$ref`-free definition |
| ResolveRefs.MissingRef | rbkcli/base/jsops.py:367-368 | a reference to an undefined name raises KeyError |
| ResolveRefs.SelfRef | rbkcli/base/jsops.py:362-373 | a definition that refers to itself never finishes: RecursionError |
| ResolveRefs.ResolveRef.constructor | rbkcli/base/jsops.py:213-218 | stores the definitions and the data |
| ResolveRefs.ResolveRef.IterIt | rbkcli/base/jsops.py:197-232 | returns Resolve of the stored data |
| ResolveRefs.ResolveRef.IterateJson | rbkcli/base/jsops.py:234-245 | returns Resolve of the value |
| ResolveRefs.ResolveRef.IterateDict | rbkcli/base/jsops.py:251-258 | the dictionary loop returns ResolveFields |
| ResolveRefs.ResolveRef.IterateList | rbkcli/base/jsops.py:275-280 | the list loop returns ResolveItems |
| ResolveRefs.ResolveRef.ActionDict | rbkcli/base/jsops.py:362-373 | returns ResolveField of the entry |
| ResolveRefs.ResolveRef.ActionRef | rbkcli/base/jsops.py:365-370 | returns ResolveRefField of the reference |
| ResolveRefs.ResolveRef.FollowKeys | rbkcli/base/jsops.py:367-368 | the lookup loop returns Follow of the keys |
| JsonOps.SimpleDictNatural | rbkcli/base/jsops.py:134-143 | a given dictionary renders as its `k=v` pairs; an empty one falls back to the stored data, which must be a dictionary |
| JsonOps.NaturalText | rbkcli/base/jsops.py:149-150 | a string is used as is; a list gives its first element (IndexError when empty) |
| JsonOps.PairEntry | rbkcli/base/jsops.py:158-161 | an item converts exactly when it splits into two parts at `=`; otherwise ToolsError |
| JsonOps.PairEntries | rbkcli/base/jsops.py:153-161 | a successful conversion gives one pair per item |
| JsonOps.NaturalDictTextBadItem | rbkcli/base/jsops.py:158-161 | a bad item's ToolsError is the result |
| JsonOps.NaturalDictTextNoText | rbkcli/base/jsops.py:149-150 | an empty list's error is the result |
| JsonOps.PairSplits | rbkcli/base/jsops.py:158-159 | `k=v` without further `=` becomes `"k": "v"` |
| JsonOps.PairEntriesOfNatural | rbkcli/base/jsops.py:141-159 | the pairs written by simple_dict_natural read back as the quoted pairs |
| JsonOps.NaturalRoundTrip | rbkcli/base/jsops.py:134-165 | natural_simple_dictstr of simple_dict_natural of a dictionary (no `=` or `,` inside) is its `{"k": "v", ...}` text |
| JsonOps.MissingEquals | rbkcli/base/jsops.py:158-161 | an item with no `=` fails with the unpacking message |
| JsonOps.EmptyTextFails | rbkcli/base/jsops.py:151-161 | the empty string fails with ToolsError |
| JsonOps.TableHeaders | rbkcli/base/jsops.py:175-178 | given headers are kept; with none, the first record's keys sorted (a permutation of them); no records is IndexError |
| JsonOps.Lookup | rbkcli/base/jsops.py:184 | a record lookup succeeds exactly on a dictionary with that key, and gives its value; a missing key is KeyError |
| JsonOps.ColumnValues | rbkcli/base/jsops.py:183-184 | a column has one value per record, the record's value for the header, and exists exactly when every record has it |
| JsonOps.Columns | rbkcli/base/jsops.py:181-185 | one column per header, each ColumnValues of it |
| JsonOps.CellTexts | rbkcli/base/jsops.py:188-193 | a column prints exactly when every cell is a string, and then holds those strings |
| JsonOps.FirstNonString | rbkcli/base/jsops.py:188-193 | the first cell that is not a string |
| JsonOps.TextColumns | rbkcli/base/jsops.py:188-193 | one text column per column, each its CellTexts |
| JsonOps.UniformColumns | rbkcli/base/jsops.py:181-185 | records holding every header with string values give one full column per header |
| JsonOps.RecordsTable | rbkcli/base/jsops.py:167-195 | such records always tabulate, into one line per record plus header and division (and summary), all equally wide |
| JsonOps.DefaultHeaders | rbkcli/base/jsops.py:175-178 | without headers the first record's sorted keys are used |
| JsonOps.RbkcliJsonOps.constructor | rbkcli/base/jsops.py:122-126 | stores the data |
| JsonOps.RbkcliJsonOps.NaturalSimpleDictStr | rbkcli/base/jsops.py:145-165 | the conversion loop returns NaturalDictText |
| JsonOps.RbkcliJsonOps.PairLoop | rbkcli/base/jsops.py:153-161 | the item loop returns PairEntries |
| JsonOps.RbkcliJsonOps.SimpleDictTable | rbkcli/base/jsops.py:167-195 | the column-building loops return DictTable |
| FieldRequests.PlainHasNoOperator | rbkcli/core/handlers/jsometa.py:171-185 | a name without `!`, `~` and `=` takes the no-filter branch |
| FieldRequests.Around | rbkcli/core/handlers/jsometa.py:172-183 | the field is the text before the first operator and the filter the text after it, up to any further occurrence |
| FieldRequests.ParseField | rbkcli/core/handlers/jsometa.py:162-188 | at most one filter is set, the field is a prefix of the request, and a request with no operator is a plain field |
| FieldRequests.NotEqualAbsent | rbkcli/core/handlers/jsometa.py:171-176 | `a!~b` does not contain `!=`, so the not-contains branch is reached |
| FieldRequests.ParseComposed | rbkcli/core/handlers/jsometa.py:171-188 | `name op value` parses back to `name` with `value` in the filter that `op` selects, for each of `!=`, `!~`, `~`, `=` |
| FieldRequests.ReformatNestedKs | rbkcli/core/handlers/jsometa.py:220-224 | the output name holds no brackets |
| FieldRequests.Bracketed | rbkcli/core/handlers/jsometa.py:139 | a non-empty name list is written with brackets |
| FieldRequests.BracketedJoin | rbkcli/core/handlers/jsometa.py:139 | `[a][b]` is the names joined by `][` in one pair of brackets |
| FieldRequests.ReplaceMarks | rbkcli/core/handlers/jsometa.py:221 | replacing `][` by `_` joins the names by `_` |
| FieldRequests.ReformatBracketed | rbkcli/core/handlers/jsometa.py:220-224 | `[a][b]` becomes `a_b` |
| FieldRequests.ReformatPlain | rbkcli/core/handlers/jsometa.py:220-224 | a name without brackets is unchanged |
| FieldRequests.Prefix | rbkcli/core/handlers/jsometa.py:195-196 | the text before the first `_` starts the name and has no `_` |
| FieldRequests.CandidateInjective | rbkcli/core/handlers/jsometa.py:197 | different counters give different candidate names |
| FieldRequests.TriedNext | rbkcli/core/handlers/jsometa.py:193-197 | each step tries a new candidate |
| FieldRequests.Renumbered | rbkcli/core/handlers/jsometa.py:193-197 | the loop ends on a free name `<prefix>_<k>`, every earlier candidate from the start counter being taken |
| FieldRequests.Dedup | rbkcli/core/handlers/jsometa.py:191-197 | the output name is never taken; a free name is kept; a taken one becomes `<prefix>_<k>` with k the first free counter from 2 |
| FieldRequests.PrefixOfCandidate | rbkcli/core/handlers/jsometa.py:195-197 | renaming a candidate again starts from the same prefix |
| FieldRequests.RenameStep | rbkcli/core/handlers/jsometa.py:193-197 | one loop step keeps the prefix and moves one counter closer to Dedup's name |
| FieldRequests.FreshName | rbkcli/core/handlers/jsometa.py:193-197 | the renaming loop returns Dedup of the names already requested |
| FieldRequests.FirstStarting | rbkcli/core/handlers/jsometa.py:231-235 | the first map entry starting with the prefix, or none exactly when no entry starts with it |
| FieldRequests.LastMatching | rbkcli/core/handlers/jsometa.py:236-257 | the last map entry whose segments match the requested names, or none exactly when no entry matches |
| FieldRequests.FieldKey | rbkcli/core/handlers/jsometa.py:227-257 | a resolved field is always an entry of the full map |
| FieldRequests.PiecesMatch | rbkcli/core/handlers/jsometa.py:246-253 | the segment loop succeeds exactly when every segment starts with its requested name and `#` |
| FieldRequests.GetFieldKey | rbkcli/core/handlers/jsometa.py:227-257 | the lookup loops return FieldKey |
| FieldRequests.EntryNames | rbkcli/core/handlers/jsometa.py:132-141 | no more names than `]`-pieces |
| FieldRequests.QueryKeys | rbkcli/core/handlers/jsometa.py:113-121 | a query other than `?`, `?NK`, `?MAP` lists nothing |
| FieldRequests.PrintLines | rbkcli/core/handlers/jsometa.py:127-143 | one printed line per map entry |
| FieldRequests.ListedNames | rbkcli/core/handlers/jsometa.py:127-145 | one listed name per map entry |
| FieldRequests.EntryLine | rbkcli/core/handlers/jsometa.py:131-141 | the per-entry loop gives its `[n1][n2]` line or its concatenated name |
| FieldRequests.AvailableText | rbkcli/core/handlers/jsometa.py:112-147 | the print-mode listing is the lines joined by newline with no trailing newline |
| FieldRequests.PartialAll | rbkcli/core/handlers/jsometa.py:126-143 | the `end` trick joins the lines by newline |
| FieldRequests.AvailableNames | rbkcli/core/handlers/jsometa.py:112-147 | the list-mode listing is one name per entry |
| FieldRequests.Opening | rbkcli/base/jsops.py:499 | a rendered segment is its opening plus `]` |
| FieldRequests.PathSplits | rbkcli/core/handlers/jsometa.py:132 | splitting a cursor at `]` gives its segments' openings and an empty tail |
| FieldRequests.OpeningName | rbkcli/core/handlers/jsometa.py:134-137 | an opening reads back as its key |
| FieldRequests.OpeningsNames | rbkcli/core/handlers/jsometa.py:132-141 | a cursor's openings read back as its keys |
| FieldRequests.ListedPath | rbkcli/core/handlers/jsometa.py:127-145 | a cursor is listed as `[k1][k2]` in print mode and `k1k2` in list mode |
| FieldRequests.BracketedSplits | rbkcli/core/handlers/jsometa.py:237-238 | splitting `[a][b]` at `]` gives `[a`, `[b` and an empty tail |
| FieldRequests.ListedResolves | rbkcli/core/handlers/jsometa.py:227-257 | a field listed by `?MAP` resolves back to a map entry with the same segment names, and its output name is the names joined by `_` |
| FieldRequests.PathMatches | rbkcli/core/handlers/jsometa.py:246-253 | a cursor matches its own bracketed key list |
| FieldRequests.PlainResolves | rbkcli/core/handlers/jsometa.py:231-235 | a top-level key present in the map resolves to an entry starting with `[key#` |
| JsonMeta.Load | rbkcli/core/handlers/jsometa.py:22-57 | loading data and model (decoding text, refusing empty data, unwrapping `data`, building the map) returns Setup |
| JsonMeta.Initial | rbkcli/core/handlers/jsometa.py:22-41 | a new editor holds the loaded data and map and no requested fields |
| JsonMeta.MapData | rbkcli/core/handlers/jsometa.py:64-77 | without a documented schema the map is MapSelect's map of the data |
| JsonMeta.MapModel | rbkcli/core/handlers/jsometa.py:79 | with a documented schema the map is MapResponseDoc's map of the model |
| JsonMeta.MakeModelMap | rbkcli/core/handlers/jsometa.py:59-84 | model_map returns ModelMap (map and table order, or the KeyError of a model without `doc.responses.200.schema`) |
| JsonMeta.Remodelled | rbkcli/core/handlers/jsometa.py:86-92 | new_model replaces the data, and changes only model, map and table order; it fails exactly when the new model is invalid or unmappable |
| JsonMeta.RemodelWithoutModel | rbkcli/core/handlers/jsometa.py:64-92 | with no model the map becomes MapSelect's map of the new data and the table order is empty |
| JsonMeta.Requested | rbkcli/core/handlers/jsometa.py:150-218 | the selector's and context's request creation cannot fail |
| JsonMeta.RequestedDistinct | rbkcli/core/handlers/jsometa.py:193-214 | the created definitions have distinct names |
| JsonMeta.EditorNamesDistinct | rbkcli/core/handlers/jsometa.py:193-214 | the renaming loop gives every definition a distinct name |
| JsonMeta.ValidationKeeps | rbkcli/core/handlers/jsometa.py:94-110 | a listing query changes only the selected data; a field request changes only the definitions and the field order |
| JsonMeta.ValidationDistinct | rbkcli/core/handlers/jsometa.py:94-110 | validation keeps the definitions' names distinct |
| JsonMeta.IterationDistinct | rbkcli/core/handlers/jsometa.py:260-272 | iterating keeps the definitions' names distinct |
| JsonMeta.IterationKeeps | rbkcli/core/handlers/jsometa.py:260-272 | iterating never changes the data, model, table order or loop settings |
| JsonMeta.QueryLists | rbkcli/core/handlers/jsometa.py:260-267 | `?` returns and stores the simple-key listing and calls nothing |
| JsonMeta.QueryValidation | rbkcli/core/handlers/jsometa.py:104-106 | `?` stops validation with the simple-key listing |
| JsonMeta.EditorListsAll | rbkcli/core/handlers/jsometa.py:162-214 | every requested field gets a place in final_fields_order, including the unresolved ones |
| JsonMeta.EditorValidation | rbkcli/core/handlers/jsometa.py:94-110 | a field request validates to EditorRequests over the full map |
| JsonMeta.Finished | rbkcli/core/handlers/jsometa.py:588-644 | the loop's outcome keeps the callback texts sent and fails exactly when an error was recorded |
| JsonMeta.Selected | rbkcli/core/handlers/jsometa.py:555-576 | selection only fails for data that is neither dictionary nor list, or in the looper; only the looper sends callbacks |
| JsonMeta.Retained | rbkcli/core/handlers/jsometa.py:260-272 | storing a selection changes only the selected data, map and field order |
| JsonMeta.JsonEditor.constructor | rbkcli/core/handlers/jsometa.py:22-41 | the new editor's state is Initial of the loaded data |
| JsonMeta.JsonEditor.Assign | rbkcli/core/handlers/jsometa.py:19-41 | sets the whole editor state |
| JsonMeta.JsonEditor.NewModel | rbkcli/core/handlers/jsometa.py:86-92 | new state and error are Remodelled of the old state |
| JsonMeta.JsonEditor.EditorRequestCreator | rbkcli/core/handlers/jsometa.py:150-218 | replaces definitions and field order by EditorRequests and nothing else |
| JsonMeta.JsonEditor.GetOrderKeys | rbkcli/core/handlers/jsometa.py:440-456 | the reordering loops return OrderKeys (table-order fields first, the rest after) |
| JsonMeta.JsonEditor.Plan | rbkcli/core/handlers/jsometa.py:464-483 | the `KEY=`/`VALUE=` handling returns FilterPlan of the ordered keys, or OrderKeys' error |
| JsonMeta.JsonEditor.FilterCreate | rbkcli/core/handlers/jsometa.py:458-551 | the filter's request creation returns FilterCreated |
| JsonMeta.JsonEditor.FilterRequestCreator | rbkcli/core/handlers/jsometa.py:458-551 | on success stores FilterCreated's definitions and first-level order, on failure changes nothing |
| JsonMeta.JsonEditor.ValidateReqFields | rbkcli/core/handlers/jsometa.py:94-110 | result and new state are Validation of the old state |
| JsonMeta.JsonEditor.Iterate | rbkcli/core/handlers/jsometa.py:260-299 | result, new state and callback texts are Iteration of the old state |
| JsonMeta.JsonEditor.LoopIt | rbkcli/core/handlers/jsometa.py:661-667 | sets the loop key and API from the argument, then behaves as Iteration |
| JsonMeta.JsonEditor.ConvertToTable | rbkcli/core/handlers/jsometa.py:301-350 | returns TableString of the selected data and field order |
| JsonMeta.JsonEditor.ConvertToList | rbkcli/core/handlers/jsometa.py:352-389 | returns ListText of the selected data |
| JsonMeta.JsonEditor.ConvertToPrettyprint | rbkcli/core/handlers/jsometa.py:434-437 | returns the pretty-printed selected data |
| Selecting.Selections | rbkcli/core/handlers/jsometa.py:286-289 | each list element is selected on its own, in order |
| Selecting.Kept | rbkcli/core/handlers/jsometa.py:290-291 | dropping `{}` results never adds records |
| Selecting.KeptExactly | rbkcli/core/handlers/jsometa.py:290-291 | the kept results are exactly the non-`{}` selections |
| Selecting.KeptOrder | rbkcli/core/handlers/jsometa.py:286-293 | keeping distributes over concatenation, so order is preserved |
| Selecting.PlainSelection | rbkcli/core/handlers/jsometa.py:274-299 | selection fails exactly on data that is neither dictionary nor list; a list gives a list no longer than the data |
| Selecting.ContextOfKept | rbkcli/core/handlers/jsometa.py:698-718 | the context list is the values of the kept records |
| Selecting.ContextSelection | rbkcli/core/handlers/jsometa.py:677-731 | context selection fails exactly on data that is neither dictionary nor list, and otherwise gives a list |
| Selecting.LoopListErrorLast | rbkcli/core/handlers/jsometa.py:555-568 | after an error nothing more is called |
| Selecting.LoopListStops | rbkcli/core/handlers/jsometa.py:555-568 | an error stops the whole loop with what was sent so far |
| Selecting.LoopListCalls | rbkcli/core/handlers/jsometa.py:588-644 | the looper sends at most one call per loop value of the kept records, and exactly that many when nothing fails |
| Selecting.LoopSelection | rbkcli/core/handlers/jsometa.py:570-576 | data that is neither dictionary nor list leaves `selected_data` unassigned and calls nothing |
| Converting.Row | rbkcli/core/handlers/jsometa.py:304-332 | a list gives one cell per record; a dictionary gives one cell; anything else an empty row |
| Converting.Body | rbkcli/core/handlers/jsometa.py:304-332 | one row per ordered name, each its Row |
| Converting.BodyStops | rbkcli/core/handlers/jsometa.py:304-332 | the first failing column ends the conversion |
| Converting.LinesJoin | rbkcli/core/handlers/jsometa.py:347-348 | the table string is the lines each followed by a newline |
| Converting.TableNoResults | rbkcli/core/handlers/jsometa.py:336-345 | no field order, or an empty selection, raises DynaTableError |
| Converting.BodyOk | rbkcli/core/handlers/jsometa.py:323-330 | a non-dictionary selection always has a body (missing fields read `N/E`) |
| Converting.ListTable | rbkcli/core/handlers/jsometa.py:323-330 | a list body holds, for every name and record, that record's field text or `N/E` |
| Converting.ListRow | rbkcli/core/handlers/jsometa.py:324-330 | a list row has one cell per record |
| Converting.DictTable | rbkcli/core/handlers/jsometa.py:318-321 | a dictionary holding every name gives one-cell rows of its values |
| Converting.DictRow | rbkcli/core/handlers/jsometa.py:319-321 | a dictionary row is the `str` of its value |
| Converting.DictMissingField | rbkcli/core/handlers/jsometa.py:319 | a dictionary missing a name raises KeyError |
| Converting.DictBodyErrors | rbkcli/core/handlers/jsometa.py:318-321 | a dictionary without `data` can only fail with KeyError |
| Converting.DataRecordFails | rbkcli/core/handlers/jsometa.py:308-309 | a dictionary with a `data` key raises NameError (the code indexes with the undefined name `data`) |
| Converting.DataBodyFails | rbkcli/core/handlers/jsometa.py:308-309 | the same NameError at the body |
| Converting.Texts | rbkcli/core/handlers/jsometa.py:372 | one `str` per value |
| Converting.DictListShape | rbkcli/core/handlers/jsometa.py:365-388 | an empty dictionary raises DynaTableError; otherwise the key/value table of its keys and value texts |
| Converting.ListTextsStops | rbkcli/core/handlers/jsometa.py:359-361 | the first record that cannot be listed ends the conversion |
| Converting.DictListOk | rbkcli/core/handlers/jsometa.py:365-388 | a record lists exactly when it is a non-empty dictionary |
| Converting.ListTextsOk | rbkcli/core/handlers/jsometa.py:352-363 | a list converts exactly when every record lists |
| Looping.SingleMarks | rbkcli/core/handlers/jsometa.py:605-610 | an API with only `{k}` uses single braces |
| Looping.LoopKeyDoubled | rbkcli/core/handlers/jsometa.py:646-650 | the loop key of `a{{k}}b` is `k` |
| Looping.LoopKeySingle | rbkcli/core/handlers/jsometa.py:651-654 | the loop key of `a{k}b` is `k` |
| Looping.Substituted | rbkcli/core/handlers/jsometa.py:605-614 | substitution fails exactly when the API has no brace (unbound `start_sign`) or the value is not a string |
| Looping.SubstituteSingle | rbkcli/core/handlers/jsometa.py:612-614 | `a{k}b` with value v becomes `avb` |
| Looping.SubstituteDoubled | rbkcli/core/handlers/jsometa.py:612-614 | `a{{k}}b` with value v becomes `avb` (doubled braces preferred) |
| Looping.FirstValue | rbkcli/core/handlers/jsometa.py:622-627 | the first value is missing exactly for an empty list; a non-list is its own first value |
| Looping.AnnotateItems | rbkcli/core/handlers/jsometa.py:629-630 | annotating a result list keeps its length |
| Looping.AnnotateShape | rbkcli/core/handlers/jsometa.py:621-637 | annotation keeps a dictionary a dictionary and a list a list of the same length |
| Looping.AnnotateKeeps | rbkcli/core/handlers/jsometa.py:621-637 | annotation touches only `loop_` keys |
| Looping.AnnotateSetsLoopKeys | rbkcli/core/handlers/jsometa.py:621-637 | annotation succeeds exactly when no selected value is an empty list, and then every `loop_<key>` holds that key's first value |
| Looping.LoopValues | rbkcli/core/handlers/jsometa.py:590-599 | a missing loop key gives no values; a non-list value is the single value |
| Looping.Spread | rbkcli/core/handlers/jsometa.py:669-675 | a non-list result is appended as one element |
| Looping.FlatSnoc | rbkcli/core/handlers/jsometa.py:669-675 | list_protection concatenates a list result and appends any other |
| Looping.ProtectedFlat | rbkcli/core/handlers/jsometa.py:669-675 | folding list_protection over the results is their flattening |
| Looping.CallOne | rbkcli/core/handlers/jsometa.py:603-641 | a failed substitution sends nothing and records the error; otherwise one call is sent |
| Looping.CallsFrom | rbkcli/core/handlers/jsometa.py:603-641 | calls only append to what was sent, at most one per value |
| Looping.Calls | rbkcli/core/handlers/jsometa.py:588-644 | at most one call per loop value, exactly one each when nothing fails |
| Looping.MissingKeyNoCalls | rbkcli/core/handlers/jsometa.py:593-596 | a record without the loop key calls nothing |
| Looping.CallsOnePerValue | rbkcli/core/handlers/jsometa.py:603-618 | the i-th call is the API with the i-th value substituted |
| Looping.CallsFromResults | rbkcli/core/handlers/jsometa.py:618-641 | every reply is decoded, annotated and added with list_protection |
| Looping.CallsFromReplies | rbkcli/core/handlers/jsometa.py:618-641 | a run without error has one reply per loop value, the i-th being the decoded, annotated answer to the template filled with the i-th value, and its results are these replies flattened by list_protection in call order |
| Editing.Validated | rbkcli/core/handlers/jsometa.py:43-57 | a dictionary or list is kept; text is decoded, and empty data (an empty list only when not a model) is refused |
| Editing.Unwrapped | rbkcli/core/handlers/jsometa.py:33-35 | a dictionary with `data` is replaced by its `data`; anything else is kept |
| Editing.ModelMapOfData | rbkcli/core/handlers/jsometa.py:64-67 | an empty model maps the data itself, with no table order |
| Editing.Setup | rbkcli/core/handlers/jsometa.py:22-41 | setup succeeds only on valid data and model, and holds the unwrapped data |
| Editing.Normalized | rbkcli/core/handlers/jsometa.py:96-102 | the field list is never empty; text is split at commas (joining back gives the text); a list is kept, and refused when empty or containing `,` |
| Editing.ResolvedCount | rbkcli/core/handlers/jsometa.py:204-214 | no more definitions than requested fields |
| Editing.EditorStepKeeps | rbkcli/core/handlers/jsometa.py:162-214 | one request step adds one ordered name, and a definition exactly when the field resolves |
| Editing.EditorRequestsFacts | rbkcli/core/handlers/jsometa.py:162-214 | one definition per resolved field and one ordered name per field |
| Editing.CharStrings | rbkcli/core/handlers/jsometa.py:503 | iterating a string gives its characters |
| Editing.OrderFields | rbkcli/core/handlers/jsometa.py:445-447 | a table order list gives one name per entry; a scalar is a TypeError |
| Editing.ClaimKeeps | rbkcli/core/handlers/jsometa.py:446-449 | claiming a key moves it from the remainder to the ordered list |
| Editing.ClaimAllKeeps | rbkcli/core/handlers/jsometa.py:445-449 | the claiming loop keeps every key exactly once |
| Editing.OrderKeysPermutation | rbkcli/core/handlers/jsometa.py:440-456 | the ordered keys are a permutation of the full map with the claimed ones first |
| Editing.KeysContaining | rbkcli/core/handlers/jsometa.py:469-472 | exactly the simple keys containing the text |
| Editing.ValueRequests | rbkcli/core/handlers/jsometa.py:476-482 | the `VALUE=` request text is empty exactly when there are no simple keys |
| Editing.FilterPlan | rbkcli/core/handlers/jsometa.py:464-483 | without `KEY=`/`VALUE=` the ordered keys and fields are kept; `KEY=text` fails exactly when the text is empty, and otherwise keeps exactly the simple keys containing the text and requests its letters one by one; `VALUE=` keeps all simple keys |
| Editing.KeyRequestByLetters | rbkcli/core/handlers/jsometa.py:466-503 | after `KEY=ab` the field loop iterates the letters `a`, `b` |
| Editing.FirstLevelOfPath | rbkcli/core/handlers/jsometa.py:488-491 | a cursor's first level is its first key |
| Editing.FirstLevelsFacts | rbkcli/core/handlers/jsometa.py:487-493 | the first levels are distinct and cover every key's first level |
| Editing.LevelDefs | rbkcli/core/handlers/jsometa.py:494-500 | one unfiltered definition per first level |
| Editing.PutDef | rbkcli/core/handlers/jsometa.py:534-540 | the definition is present after it is set |
| Editing.DropDef | rbkcli/core/handlers/jsometa.py:543-544 | deleting removes exactly that name's definition |
| Editing.PutDefNames | rbkcli/core/handlers/jsometa.py:534-540 | setting adds at most the new name, keeping names distinct |
| Editing.DropDefNames | rbkcli/core/handlers/jsometa.py:543-544 | deleting removes exactly the name |
| Editing.FilterStepNames | rbkcli/core/handlers/jsometa.py:503-544 | one filter step keeps names distinct; the field's name stays exactly when it resolves |
| Editing.FilterStepDefines | rbkcli/core/handlers/jsometa.py:532-542 | one request pass defines a resolving field with its resolved key and its own filters, and keeps every definition of another name |
| Editing.FilterRequestsFacts | rbkcli/core/handlers/jsometa.py:503-544 | after the request loop names stay distinct; a requested field is defined exactly when it resolves, and then with the resolved key and the filters of the last request naming it; no other name is added |
| Editing.FilterCreatedFacts | rbkcli/core/handlers/jsometa.py:458-551 | distinct definition names and distinct first levels, each the first level of some key |
| Inputs.PathAndQuery | rbkcli/core/handlers/inputs.py:190-196 | without `?` there is no inline query; with one the inline query starts with `?` and the path holds no `?` |
| Inputs.Pieces | rbkcli/core/handlers/inputs.py:207-212 | the endpoint is split at spaces or slashes: no piece holds either |
| Inputs.NormalizedEndpoint | rbkcli/core/handlers/inputs.py:176-215 | fails (RbkcliError) exactly for `?` together with a space, or a space together with `/` in the path; otherwise gives the non-empty pieces and the inline query |
| Inputs.PiecesOfPlain | rbkcli/core/handlers/inputs.py:207-215 | joining plain words by space or slash and normalising gives the words back |
| Inputs.NormalizedOk | rbkcli/core/handlers/inputs.py:176-215 | a well-formed endpoint normalises to its non-empty pieces and inline query |
| Inputs.QuerySplits | rbkcli/core/handlers/inputs.py:191-194 | `path?q` gives endpoint `path` and inline query `?q` |
| Inputs.UrlRoundTrip | rbkcli/core/handlers/inputs.py:176-215 | a URL `a/b/c` normalises back to `[a, b, c]` with no inline query |
| Inputs.UrlQueryRoundTrip | rbkcli/core/handlers/inputs.py:176-215 | `a/b?q` normalises to `[a, b]` and `?q` |
| Inputs.WordsRoundTrip | rbkcli/core/handlers/inputs.py:179-215 | a word list normalises back to itself |
| Inputs.InlineVersion | rbkcli/core/handlers/inputs.py:217-229 | fails (IndexError) exactly on an empty endpoint; a leading supported version is popped into the inline version, otherwise the inline version is the given one |
| Inputs.Matched | rbkcli/core/handlers/inputs.py:153-174 | a match is some operation's segments agreeing with the tokens (equal count, each equal or an `{*id}` placeholder); none exactly when no operation agrees |
| Inputs.SegmentsAgree | rbkcli/core/handlers/inputs.py:161-173 | the block loop succeeds exactly when the segments agree with the tokens |
| Inputs.MatchEndpoint | rbkcli/core/handlers/inputs.py:153-174 | the operations loop returns Matched |
| Inputs.Longest | rbkcli/core/handlers/inputs.py:112-114 | the longest prefix of the tokens that matches, no longer prefix matching |
| Inputs.SplitArguments | rbkcli/core/handlers/inputs.py:107-131 | the popping loop keeps the longest matching prefix and collects the rest in original order |
| Inputs.KeysFor | rbkcli/core/handlers/inputs.py:133-151 | exactly the operations containing the search text |
| Inputs.GenEndpointKey | rbkcli/core/handlers/inputs.py:136-139 | the search loop returns KeysFor |
| Inputs.CheckedVersion | rbkcli/core/handlers/inputs.py:231-260 | a version results exactly when the given and inline versions agree with the key's where set, and it is one of the instantiated APIs |
| Inputs.CheckedData | rbkcli/core/handlers/inputs.py:269-277 | a dictionary or text with `{` is kept; anything converted becomes a `{...}` text |
| Inputs.Converted | rbkcli/core/handlers/inputs.py:273-274 | converted natural data is a `{...}` text |
| Inputs.QueryParam | rbkcli/core/handlers/inputs.py:279-295 | the query holds no `,`; it is empty exactly when the given one is; it starts with `?` without inline query and `&` with one |
| Inputs.QueryOfPairs | rbkcli/core/handlers/inputs.py:285-291 | `a=1,b=2` becomes `?a=1&b=2` |
| Inputs.ResolvedFacts | rbkcli/core/handlers/inputs.py:36-92 | a resolved request holds the matched endpoint, the keys found for it and the checked version |
| Inputs.ValidatedFacts | rbkcli/core/handlers/inputs.py:36-92 | a validated request is built from the normalised endpoint, the inline version, the longest match, and the checked version, method, data, query and format |
| Inputs.UnparsedRejected | rbkcli/core/handlers/inputs.py:123-129 | any unmatched trailing token makes validation fail |
| Inputs.InputHandler.constructor | rbkcli/core/handlers/inputs.py:24-31 | stores the operations and an empty request |
| Inputs.InputHandler.Validate | rbkcli/core/handlers/inputs.py:36-92 | returns Validation of the request and stores it on success |
| Cli.VersionFirst | rbkcli/interface/cli.py:84-92 | the versioned path of `v:/a/b:m` is `v` followed by the plain path |
| Cli.NormalizedOps | rbkcli/interface/cli.py:81-92 | one plain and one versioned path per operation, each OpPaths of it |
| Cli.RoundKeeps | rbkcli/interface/cli.py:116-124 | an operation kept by one step has the argument or a placeholder at that position |
| Cli.RoundExact | rbkcli/interface/cli.py:118-119 | an operation with the argument at that position is always kept |
| Cli.RoundFlexible | rbkcli/interface/cli.py:120-124 | while no exact match on the last argument was seen, placeholders are kept |
| Cli.RoundsSound | rbkcli/interface/cli.py:108-126 | every returnable operation follows the arguments (equal or placeholder at each position) |
| Cli.RoundsExact | rbkcli/interface/cli.py:108-126 | every operation equal to the arguments position by position is returnable |
| Cli.RoundsFlexible | rbkcli/interface/cli.py:108-126 | without an exact match on the last argument every following operation is returnable |
| Cli.ReturnableIs | rbkcli/interface/cli.py:108-126 | returnable operations follow the arguments; exact matches are always kept; placeholder matches only when no operation matches the last argument exactly |
| Cli.RoundLoop | rbkcli/interface/cli.py:116-124 | the inner loop returns Round |
| Cli.GetReturnableOps | rbkcli/interface/cli.py:108-126 | the loops return Returnable |
| Cli.NextTokens | rbkcli/interface/cli.py:133-135 | exactly the tokens at position n of the operations long enough |
| Cli.FilterReturnable | rbkcli/interface/cli.py:128-140 | the next tokens, sorted and without duplicates |
| Cli.FilterReturnableLoop | rbkcli/interface/cli.py:128-140 | the loop returns FilterReturnable |
| Cli.PrefixMatches | rbkcli/interface/cli.py:146-148 | exactly the lines starting with the prefix, in order |
| Cli.MatchIncompleteIs | rbkcli/interface/cli.py:142-152 | an empty prefix returns the input unchanged; otherwise exactly the lines starting with it |
| Cli.MatchIncompleteLoop | rbkcli/interface/cli.py:142-152 | the loop returns MatchIncomplete |
| Cli.SelectiveIs | rbkcli/interface/cli.py:94-106 | selective completion is sorted and distinct, and every entry starts with the prefix and is the next token of an operation following the arguments |
| Cli.PrefixSorted | rbkcli/interface/cli.py:146-148 | filtering by prefix keeps the order |
| Cli.FullAutocomplete | rbkcli/interface/cli.py:154-173 | fails (IndexError) exactly when some operation is empty; otherwise the sorted, distinct first tokens starting with the prefix |
| Cli.FullAutocompleteLoop | rbkcli/interface/cli.py:154-173 | the loops return FullAutocomplete |
| Cli.FlagsApart | rbkcli/interface/cli.py:178 | no workflow flag starts with another, so at most one matches an argument |
| Cli.ArgFlagsSkip | rbkcli/interface/cli.py:209-228 | flags the argument does not start with are passed over |
| Cli.ArgFlagsReject | rbkcli/interface/cli.py:224-228 | an argument starting with a flag without equalling it raises RbkcliError |
| Cli.ArgFlagsShape | rbkcli/interface/cli.py:209-228 | a flag consumes the next value of its option; a flag prefix raises; anything else is ignored |
| Cli.ArgFlagsLoop | rbkcli/interface/cli.py:209-228 | the flag loop returns ArgFlags |
| Cli.CreateRequestStructure | rbkcli/interface/cli.py:175-234 | the argument loop returns Workflow |
| Cli.KeyList | rbkcli/interface/cli.py:208-211 | no more workflow steps than arguments |
| Cli.TakenStep | rbkcli/interface/cli.py:212-220 | each use of an option takes its next value, a one-element value unwrapped |
| Cli.ConsumeOk | rbkcli/interface/cli.py:212-223 | consuming succeeds exactly when the option still has a value |
| Cli.ConsumeKey | rbkcli/interface/cli.py:212-223 | consuming one option leaves every other option's remaining values alone |
| Cli.ConsumeTracks | rbkcli/interface/cli.py:212-223 | consuming keeps the invariant: steps so far are the options' leading values, the rest remain |
| Cli.WorkflowFailed | rbkcli/interface/cli.py:224-228 | once the loop fails it stays failed |
| Cli.WorkflowStepFail | rbkcli/interface/cli.py:208-228 | a failure is kept by further arguments |
| Cli.WorkflowStepOk | rbkcli/interface/cli.py:208-228 | a successful step appends the flag's step and keeps the invariant |
| Cli.WorkflowIs | rbkcli/interface/cli.py:175-234 | the workflow succeeds exactly when no argument is a bare flag prefix and every option has a value for each use; then the steps follow the arguments' order and each takes its option's next value |
| Cli.CompletionIs | rbkcli/interface/cli.py:29-51 | completion is sorted and distinct and every entry starts with the prefix |
| Cli.FormatResponseShows | rbkcli/interface/cli.py:259-291 | non-JSON text is shown as is; empty text shows the response code |
| Cli.Rbkcli.constructor | rbkcli/interface/cli.py:15-27 | no operations, arguments or prefix |
| Cli.Rbkcli.NormalizeOps | rbkcli/interface/cli.py:81-92 | appends each operation's plain and versioned paths, keeping what was there |
| Cli.Rbkcli.ProvideAutocomplete | rbkcli/interface/cli.py:29-51 | no operations gives no completions; otherwise the paths are appended and the result is Completion (versioned paths when the first argument is an API version) |
| Outputs.StringResult | rbkcli/core/handlers/outputs.py:79-111 | the listing succeeds exactly for the queries `?`, `?NK` and `?MAP`; any other leaves `return_keys` unbound and raises |
| Outputs.GenStringResult | rbkcli/core/handlers/outputs.py:79-111 | the loop over the keys returns StringResult |
| Outputs.StringResultOfPaths | rbkcli/core/handlers/outputs.py:94-111 | the listing is the queried keys re-bracketed without their `#` annotations, one per line, with no final newline |
| Outputs.BracketedKeys | rbkcli/core/handlers/outputs.py:100-107 | each key becomes its plain segments, each in brackets |
| Outputs.Documented | rbkcli/core/handlers/outputs.py:51-62 | the documentation parses and its key map is the one MapResponseDoc builds; it counts as documented exactly when the full map is non-empty |
| Outputs.Mappable | rbkcli/core/handlers/outputs.py:64-77 | the answer is mappable exactly when it parses as JSON |
| Outputs.ApiMappable | rbkcli/core/handlers/outputs.py:64-77 | the method returns Mappable |
| Outputs.KeyMapSources | rbkcli/core/handlers/outputs.py:38-49 | documented keys win whatever the answer; otherwise a non-JSON answer raises and a JSON one gives its own key map |
| Outputs.AvailableFieldsFor | rbkcli/core/handlers/outputs.py:38-49 | the method returns AvailableFields |
| Outputs.KindOf | rbkcli/core/handlers/outputs.py:153-160 | an action is known exactly when it is select, filter, context or loop |
| Outputs.TreatField | rbkcli/core/handlers/outputs.py:140-166 | a treated field runs the selection of the action's kind on the parsed text with the requested value; the documentation is the model only for the first step |
| Outputs.Steps | rbkcli/core/handlers/outputs.py:119-122 | one selection per workflow step, and a selection exists exactly when there was a step |
| Outputs.Rendered | rbkcli/core/handlers/outputs.py:124-135 | rendering always leaves a selection, and keeps an existing one and its calls unchanged |
| Outputs.StepsCalls | rbkcli/core/handlers/outputs.py:119-122 | step k runs the kind and value of workflow step k, with the documentation only at k = 0 |
| Outputs.OutputfyCalls | rbkcli/core/handlers/outputs.py:113-138 | with steps the calls are those of the steps; with none and a rendering flag, one `filter a` is made first |
| Outputs.OutputKept | rbkcli/core/handlers/outputs.py:140-166 | one step with no rendering gives the selection's text as is, or its value dumped |
| Outputs.OutputHandler.constructor | rbkcli/core/handlers/outputs.py:29-36 | empty result text and no selection |
| Outputs.OutputHandler.AvailableFieldsOf | rbkcli/core/handlers/outputs.py:38-49 | returns AvailableFields and stores it as the result text |
| Outputs.OutputHandler.Treat | rbkcli/core/handlers/outputs.py:140-166 | the new text and selection are those of TreatField, or the error is reported |
| Outputs.OutputHandler.Render | rbkcli/core/handlers/outputs.py:124-135 | the new text and selection are those of Rendered |
| Outputs.OutputHandler.StepsFailed | rbkcli/core/handlers/outputs.py:120-122 | once a workflow step fails the later steps change nothing |
| Outputs.OutputHandler.OutputfyOf | rbkcli/core/handlers/outputs.py:113-138 | returns Outputfy's text and leaves its selection |
| Callback.UnquotedKeeps | rbkcli/core/handlers/callback.py:30-37 | every quoted piece becomes one argument, and an argument holding whitespace can only be a quoted piece |
| Callback.SplitCount | rbkcli/core/handlers/callback.py:28 | splitting on `"` gives one piece more than there are quotes |
| Callback.UnbalancedQuotes | rbkcli/core/handlers/callback.py:28-41 | a line with an odd number of quotes gives no arguments at all |
| Callback.BalancedQuotes | rbkcli/core/handlers/callback.py:28-37 | a line with an even number of quotes gives the pieces outside quotes split into words and the quoted pieces whole |
| Callback.Unprefixed | rbkcli/core/handlers/callback.py:25 | a line without `rbkcli ` is split as it is |
| Callback.PlainLine | rbkcli/core/handlers/callback.py:25-41 | a line without the program name or quotes gives its whitespace-separated words |
| Callback.QuoteFree | rbkcli/core/handlers/callback.py:28-37 | text without quotes gives its words |
| Callback.SplitThree | rbkcli/core/handlers/callback.py:28 | one quoted stretch splits the text in three pieces |
| Callback.WordsSpaceTail | rbkcli/core/handlers/callback.py:33 | a trailing space adds no word |
| Callback.WordsAround | rbkcli/core/handlers/callback.py:33 | joining words with spaces and splitting again gives the words back |
| Callback.UnquotedThree | rbkcli/core/handlers/callback.py:30-37 | three pieces give the words of the first, the second whole, the words of the third |
| Callback.ArgumentsThree | rbkcli/core/handlers/callback.py:28-37 | one quoted stretch between quote-free text is one argument between the words around it |
| Callback.QuotedArgument | rbkcli/core/handlers/callback.py:24-41 | round trip: words and one quoted value joined into a command line split back into the same arguments, the quoted value (spaces included) as one of them |
| Callback.SplitCommand | rbkcli/core/handlers/callback.py:24-41 | the splitting loop returns CommandWords |
| Callback.Restructured | rbkcli/core/handlers/callback.py:49-73 | restructuring fails exactly when the workflow of the arguments fails; otherwise the request is marked structured, raw, with the query as parameters, the parameter as data and the workflow built from the arguments |
| Callback.EndpointRoundTrip | rbkcli/core/handlers/callback.py:67 | the endpoint joined with spaces normalises back to the parsed endpoint words |
| Callback.CallResult | rbkcli/core/handlers/callback.py:86-92 | text with a brace or bracket that parses is kept as parsed JSON; anything else is wrapped as `result_text` |
| Callback.ScalarWrapped | rbkcli/core/handlers/callback.py:91-92 | text without brace or bracket is always wrapped as `{"result_text": text}` |
| Callback.Checked | rbkcli/core/handlers/callback.py:75-83 | an already structured request is validated as is; the validated request is the one InputHandler.validate returns |
| Callback.CheckedFrom | rbkcli/core/handlers/callback.py:75-83 | once structured, checking is exactly Validation of the structured request |
| Callback.CalledValidates | rbkcli/core/handlers/callback.py:75-94 | a validation failure stops the call; a valid request is executed and its text turned into CallResult |
| Callback.CalledRestructures | rbkcli/core/handlers/callback.py:77-81 | an unstructured request is restructured first, then called like a structured one |
| Callback.CalledBackCalls | rbkcli/core/handlers/callback.py:96-106 | call_back fails when the call does; otherwise it formats the dumped call result with the validated request's documentation and workflow |
| Callback.PlainCallBack | rbkcli/core/handlers/callback.py:96-106 | without workflow or rendering flags, call_back returns the call result dumped |
| Callback.CallBack.constructor | rbkcli/core/handlers/callback.py:12-18 | the validator, formatter and collaborators are the ones given |
| Callback.CallBack.ParseIt | rbkcli/core/handlers/callback.py:20-47 | the argument list is ArgsOf and the request the parser's answer, both stored |
| Callback.CallBack.StructReIt | rbkcli/core/handlers/callback.py:49-73 | returns Restructured and stores it as the structured request |
| Callback.CallBack.StructuredOf | rbkcli/core/handlers/callback.py:77-81 | returns the request, restructured when it was not structured |
| Callback.CallBack.ValidatedOf | rbkcli/core/handlers/callback.py:81-83 | returns Validation of the structured request and stores it |
| Callback.CallBack.KeepResult | rbkcli/core/handlers/callback.py:86-92 | stores CallResult of the text |
| Callback.CallBack.CallIt | rbkcli/core/handlers/callback.py:75-94 | returns Called and stores the call result and validated request |
| Callback.CallBack.CallBackOf | rbkcli/core/handlers/callback.py:96-106 | returns CalledBack |
| Base64.Utf8Char | rbkcli/base/api.py:138-143 | one to four bytes per character, one exactly for ASCII, and then the character's own code |
| Base64.Utf8CharShape | rbkcli/base/api.py:138-143 | the lead byte says the length (0xxxxxxx, 110xxxxx, 1110xxxx, 11110xxx) and every other byte is a continuation byte |
| Base64.Utf8CharRoundTrip | rbkcli/base/api.py:138-143 | decoding the bytes of a character gives the character back |
| Base64.TwoByteValue | rbkcli/base/api.py:138-143 | two-byte encodings decode back |
| Base64.ThreeByteValue | rbkcli/base/api.py:138-143 | three-byte encodings decode back |
| Base64.FourByteValue | rbkcli/base/api.py:138-143 | four-byte encodings decode back |
| Base64.Utf8Ascii | rbkcli/base/api.py:138-143 | ASCII text encodes to its own codes, one byte per character |
| Base64.Value | rbkcli/base/api.py:142 | a character's value in the alphabet is below 64, or -1 outside it |
| Base64.DigitValue | rbkcli/base/api.py:142 | each of the 64 digits decodes to its own index and is neither `=` nor a newline |
| Base64.Encode | rbkcli/base/api.py:142 | four characters for every started group of three bytes |
| Base64.GroupRoundTrip | rbkcli/base/api.py:142 | a group of three bytes is recovered from its four digits |
| Base64.GroupDecode | rbkcli/base/api.py:142 | a full group followed by an encoding that decodes decodes to the bytes together |
| Base64.DecodeFull | rbkcli/base/api.py:142 | four digits whose values hold three bytes decode to them before the rest |
| Base64.OneByte | rbkcli/base/api.py:142 | a final single byte, padded with two `=`, decodes back |
| Base64.TwoBytes | rbkcli/base/api.py:142 | a final pair of bytes, padded with one `=`, decodes back |
| Base64.GroupStep | rbkcli/base/api.py:142 | the round trip extends from the rest to one more group |
| Base64.EncodeRoundTrip | rbkcli/base/api.py:142 | round trip: decoding the encoding of any bytes gives them back |
| Base64.EncodeNoNewline | rbkcli/base/api.py:142-146 | the plain encoding holds no newline |
| Base64.LinesJoined | rbkcli/base/api.py:146 | removing the line breaks from newline-free text cut into lines gives the text back |
| Base64.EncodeBytesFlat | rbkcli/base/api.py:142-146 | removing the newlines from `encodebytes` gives the plain encoding, which decodes back to the credentials |
| Api.Holds | rbkcli/base/api.py:295 | `string in value` raises TypeError unless the value is a string, list or object; on a string it is substring search |
| Api.LineSplit | rbkcli/base/api.py:292-293 | a method line splits on `:` into version, path and method, then the tag |
| Api.LineDistinct | rbkcli/base/api.py:292-301 | two lines of one version with equal text have the same path and method |
| Api.NotInPath | rbkcli/base/api.py:291-301 | a path's lines hold no line of another path or method |
| Api.NotInDocument | rbkcli/base/api.py:290-301 | the lines of other paths hold no line of this path |
| Api.DocsLine | rbkcli/base/api.py:294-301 | scanning a method's documentation replaces its NA line by the tagged line exactly when the field holds the phrase, keeping every other line |
| Api.MethodsLines | rbkcli/base/api.py:291-301 | scanning a path's methods appends one line per method, tagged or NA |
| Api.DocumentList | rbkcli/base/api.py:285-302 | over well-formed documentation the list is exactly one line per path and method, in order, tagged when the summary holds the phrase |
| Api.DocsFoldFails | rbkcli/base/api.py:294-301 | a failure while scanning documentation ends the scan |
| Api.MethodsFoldFails | rbkcli/base/api.py:291-301 | a failure while scanning methods ends the scan |
| Api.PathsFoldFails | rbkcli/base/api.py:290-301 | a failure while scanning paths ends the scan |
| Api.AddDocs | rbkcli/base/api.py:294-301 | the inner loop returns DocsFold |
| Api.AddMethods | rbkcli/base/api.py:291-301 | the middle loop returns MethodsFold |
| Api.AddPaths | rbkcli/base/api.py:285-302 | `_create_all_methods_list` returns PathsFold from an empty list |
| Api.Matching | rbkcli/base/api.py:276-278 | exactly the lines holding the pattern |
| Api.Authorized | rbkcli/base/api.py:270-281 | a profile's list is sorted and is a permutation of the lines gathered for its methods and requirement |
| Api.GatheredHas | rbkcli/base/api.py:275-278 | a line is gathered exactly when it holds `:method:requires` for one of the profile's methods |
| Api.AdminList | rbkcli/base/api.py:272-278 | admin is authorised exactly the lines holding `:get:NA` |
| Api.ProfileList | rbkcli/base/api.py:272-278 | any other profile is authorised exactly the lines holding `:m:` for one of the supported methods |
| Api.PatternOfSome | rbkcli/base/api.py:275-278 | a line matches some method exactly when it matches one of the earlier ones or the last |
| Api.PatternOfOnly | rbkcli/base/api.py:275-278 | with one method a line matches exactly when it holds that method's pattern |
| Api.PatternOfMember | rbkcli/base/api.py:275-278 | with no requirement a line matches exactly when it holds `:m:` for a member m |
| Api.MatchLines | rbkcli/base/api.py:276-278 | the loop appends Matching |
| Api.GatherLines | rbkcli/base/api.py:275-278 | the loops return Gathered |
| Api.GatherLists | rbkcli/base/api.py:270-278 | every profile gets its gathered lines; other entries are kept |
| Api.SortLists | rbkcli/base/api.py:280-281 | each listed profile's lines are sorted in place; other entries are kept |
| Api.FillLists | rbkcli/base/api.py:270-281 | every profile gets Authorized; other entries are kept |
| Api.VersionCheck | rbkcli/base/api.py:202-209 | accepted exactly for the supported API versions; anything else raises ApiHandlerError |
| Api.VersionCheckAsWritten | rbkcli/base/api.py:187-209 | as written: the check passes for supported versions, but for others the logger is read from `local_tools` before it is set |
| Api.VersionCheckDiffers | rbkcli/base/api.py:187-209 | an unsupported version raises AttributeError as written, ApiHandlerError as intended |
| Api.Url | rbkcli/base/api.py:101-104 | a URL exists exactly when the server is known, and is `https://server/api` followed by the endpoint |
| Api.BasicDecodes | rbkcli/base/api.py:134-146 | the Basic header is `Basic ` and the base64 of the UTF-8 of `user:password`, without newlines, and decodes back to those bytes |
| Api.UsernameCredential | rbkcli/base/api.py:134-155 | succeeds exactly when username and password are known, giving the Basic header; otherwise ApiRequesterError |
| Api.Authorization | rbkcli/base/api.py:106-125 | a token is used exactly when present and not refused before, as `Bearer token`; otherwise the username header |
| Api.AuthorizationAsWritten | rbkcli/base/api.py:106-125 | as written: a refused token raises TypeError (a ToolsError is concatenated to a string); otherwise as intended |
| Api.RetryAsWrittenFails | rbkcli/base/api.py:113-125 | after a refused token the retry raises TypeError as written, while the intended header is the username one |
| Api.DemandAfterRefusal | rbkcli/base/api.py:157-169 | once the token was refused at most one more request is sent |
| Api.AtMostOneRetry | rbkcli/base/api.py:61-85 | at most two requests; two only when the token was refused and the second uses username and password |
| Api.RefusedTokenWithoutUsername | rbkcli/base/api.py:157-169 | a refused token without a username raises ApiRequesterError naming the missing key |
| Api.RefusedBeforeRequest | rbkcli/base/api.py:247-250 | an endpoint outside a non-empty focus list raises ApiHandlerError before any request |
| Api.DemandUrls | rbkcli/base/api.py:64-73 | every request goes to Url of the endpoint |
| Api.RequestUrl | rbkcli/base/api.py:252-258 | requests go to `https://server/api/version/endpoint` |
| Api.ApiRequester.constructor | rbkcli/base/api.py:45-59 | empty requester state; the Python version is the text before `(`, stripped |
| Api.ApiRequester.CreateUrl | rbkcli/base/api.py:101-104 | returns Url and stores it |
| Api.ApiRequester.CreateUsernameHeader | rbkcli/base/api.py:134-155 | returns UsernameCredential's header and records the username type |
| Api.ApiRequester.CreateAuthHeader | rbkcli/base/api.py:106-132 | returns Authorization and stores its type and the headers |
| Api.ApiRequester.Demand | rbkcli/base/api.py:61-85 | result and new state are those of Demanded |
| Api.ApiRequester.ValidateTokenAuth | rbkcli/base/api.py:157-181 | result and new state are those of Validated |
| Api.RubrikApiHandler.constructor | rbkcli/base/api.py:187-200 | the handler keeps the given settings, with no filter lists and an empty focus list |
| Api.RubrikApiHandler.CreateAllMethodsList | rbkcli/base/api.py:285-302 | returns AllMethods |
| Api.RubrikApiHandler.GenAuthorizationLists | rbkcli/base/api.py:261-283 | every profile's list is Authorized; the focus list is the user's; an unknown user profile raises KeyError |
| Api.RubrikApiHandler.ApiRequest | rbkcli/base/api.py:240-259 | returns Requested's result |
| Operations.Copies | rbkcli/core/handlers/operations.py:155-164 | n copies of one line |
| Operations.CopiesCount | rbkcli/core/handlers/operations.py:155-164 | n copies hold the line n times and nothing else |
| Operations.Without | rbkcli/core/handlers/operations.py:172-182 | every occurrence of the line removed, every other line kept as often as before |
| Operations.FlattenHas | rbkcli/core/handlers/operations.py:124-127 | a line is in the joined lists exactly when it is in the list of one of the versions |
| Operations.WhiteChange | rbkcli/core/handlers/operations.py:154-164 | one whitelisted line is appended to the operations and its version's focus list once per occurrence among all operations |
| Operations.AppendedStep | rbkcli/core/handlers/operations.py:159-164 | each further match appends one more copy |
| Operations.CountSnoc | rbkcli/core/handlers/operations.py:155 | the count of a line in a list grows by one exactly when the last element is it |
| Operations.WhiteChangeFails | rbkcli/core/handlers/operations.py:162-163 | a whitelisted line of a version with no handler raises KeyError naming the version |
| Operations.WhiteRawKeeps | rbkcli/core/handlers/operations.py:155-164 | one whitelist line changes neither the handlers nor the full operations list |
| Operations.WhiteAllKeeps | rbkcli/core/handlers/operations.py:148-164 | the whitelist changes neither the handlers nor the full operations list |
| Operations.WhitelistSucceeds | rbkcli/core/handlers/operations.py:148-164 | the whitelist applies exactly when every listed line that exists has a handler for its version |
| Operations.WhitelistAdds | rbkcli/core/handlers/operations.py:148-164 | each listed line is added as many times as it is listed times the times it exists; nothing else changes |
| Operations.WhiteRawCounts | rbkcli/core/handlers/operations.py:155-164 | one whitelist line adds exactly its own occurrences |
| Operations.BlacklistRemoves | rbkcli/core/handlers/operations.py:166-182 | blacklisted lines that exist are removed entirely from the operations, others kept; it fails exactly when such a line has no handler |
| Operations.BlackAllKeeps | rbkcli/core/handlers/operations.py:166-182 | the blacklist changes neither the handlers nor the full operations list |
| Operations.GeneratedSteps | rbkcli/core/handlers/operations.py:120-137 | generate_ops gathers, applies the whitelist, then the blacklist, then sorts; each step keeps the handlers and the full list |
| Operations.BlacklistPriority | rbkcli/core/handlers/operations.py:120-137 | generation succeeds exactly when both lists name only lines whose versions have handlers and some operation exists; the result is sorted and holds a line exactly when the profile or whitelist gives it and the blacklist does not |
| Operations.BlacklistSucceeds | rbkcli/core/handlers/operations.py:120-137 | the condition for generation to succeed |
| Operations.BlacklistContents | rbkcli/core/handlers/operations.py:129-134 | the blacklist wins over the whitelist in the sorted result |
| Operations.OpsMembers | rbkcli/core/handlers/operations.py:129-134 | membership after both lists follows from the counts |
| Operations.OpsWithoutRaw | rbkcli/core/handlers/operations.py:136-137 | with no operations at all the lists change nothing |
| Operations.BlackRawAsWrittenCounts | rbkcli/core/handlers/operations.py:172-182 | as written, one blacklist line removes one occurrence per occurrence in the full list and raises ValueError when the profile list or the focus list has fewer |
| Operations.BlacklistAsWrittenDiffers | rbkcli/core/handlers/operations.py:172-182 | the intended blacklist always removes the line; as written it does so only when the counts agree exactly |
| Operations.VersionOfLine | rbkcli/core/handlers/operations.py:162-180 | the version of a method line is its first field |
| Operations.WhiteRawStop | rbkcli/core/handlers/operations.py:155-164 | a failure ends the scan of the full list |
| Operations.WhiteAllStop | rbkcli/core/handlers/operations.py:154-164 | a failure ends the whitelist |
| Operations.BlackAllStop | rbkcli/core/handlers/operations.py:172-182 | a failure ends the blacklist |
| Operations.Dispatch | rbkcli/core/handlers/operations.py:184-203 | dispatching fails exactly when there is no endpoint key (IndexError) or no handler for the version (KeyError) |
| Operations.DispatchUrl | rbkcli/core/handlers/operations.py:190-200 | an endpoint outside the handler's non-empty focus list is refused before any request; otherwise requests go to the version's URL with the endpoint, inline query and parameters |
| Operations.SecuredGet | rbkcli/core/handlers/operations.py:307-315 | a secured key keeps its value; a missing required key reads `N/A`; other missing keys stay missing |
| Operations.SecuredPrefix | rbkcli/core/handlers/operations.py:307-315 | securing only appends entries |
| Operations.Length | rbkcli/core/handlers/operations.py:261 | `len` is defined exactly for lists, objects and strings |
| Operations.Elements | rbkcli/core/handlers/operations.py:281 | iteration visits `len` elements |
| Operations.PadWidths | rbkcli/core/handlers/operations.py:285-297 | the paddings are a space right-aligned to 12 and 14 columns |
| Operations.SecuredComplete | rbkcli/core/handlers/operations.py:278-284 | a secured parameter has every key the output reads |
| Operations.Block | rbkcli/core/handlers/operations.py:285-303 | three lines per parameter |
| Operations.ParamBlock | rbkcli/core/handlers/operations.py:284-303 | three lines per parameter, whatever keys it has |
| Operations.ParameterLinesCount | rbkcli/core/handlers/operations.py:281-305 | the parameter lines exist exactly when every parameter is an object, three per parameter |
| Operations.AllDictsSnoc | rbkcli/core/handlers/operations.py:281 | all parameters are objects exactly when the earlier ones and the last are |
| Operations.ParameterLinesSnoc | rbkcli/core/handlers/operations.py:281-303 | one more parameter adds three lines, or fails when it is not an object |
| Operations.ParameterLinesNext | rbkcli/core/handlers/operations.py:281-303 | the loop step appends the parameter's block |
| Operations.ParameterLinesNoKeys | rbkcli/core/handlers/operations.py:284 | a parameter that is not an object fails |
| Operations.ParameterLinesStop | rbkcli/core/handlers/operations.py:281-303 | a failure ends the loop |
| Operations.InfoLinesOk | rbkcli/core/handlers/operations.py:253-274 | the info text exists exactly when the documentation has a description and parameters with a length, and the parameters are `['']` or all objects |
| Operations.InfoLinesCount | rbkcli/core/handlers/operations.py:256-267 | the fourth line gives the parameter count; four lines, plus three per parameter unless the parameters are `['']` |
| Operations.BlockRequired | rbkcli/core/handlers/operations.py:290-300 | a parameter reads NOT REQUIRED exactly when it has a falsy `required`; every output key reads its value or `N/A` |
| Operations.OperationsHandler.constructor | rbkcli/core/handlers/operations.py:31-59 | empty operation lists and the handlers' focus lists; the configured white and black lists |
| Operations.OperationsHandler.Gather | rbkcli/core/handlers/operations.py:124-127 | the lists become Gathered over the instantiated versions |
| Operations.OperationsHandler.ApplyWhitelist | rbkcli/core/handlers/operations.py:148-164 | the lists and result are those of WhiteAll |
| Operations.OperationsHandler.WhitelistLine | rbkcli/core/handlers/operations.py:155-164 | the lists and result are those of WhiteRaw; the full list is kept |
| Operations.OperationsHandler.ApplyBlacklist | rbkcli/core/handlers/operations.py:166-182 | the lists and result are those of BlackAll (the intended blacklist) |
| Operations.OperationsHandler.GenerateOps | rbkcli/core/handlers/operations.py:120-146 | the lists and result are those of Generated, and the handler stays valid |
| Operations.OperationsHandler.SortOps | rbkcli/core/handlers/operations.py:134-137 | the operations are sorted; empty lists raise |
| Operations.OperationsHandler.GenInfoOutput | rbkcli/core/handlers/operations.py:253-274 | returns InfoOutput |
| Operations.OperationsHandler.GenParameterOutput | rbkcli/core/handlers/operations.py:276-305 | appends ParameterLines to the output, or fails with it |
| Operations.OperationsHandler.ParameterOutput | rbkcli/core/handlers/operations.py:284-303 | returns ParamBlock |
| Operations.OperationsHandler.SecureKeys | rbkcli/core/handlers/operations.py:307-315 | returns Secured |
| Operations.OperationsHandler.Execute | rbkcli/core/handlers/operations.py:184-203 | returns Dispatch's result |
| Cmdlets.Names | rbkcli/core/handlers/cmdlets.py:189-193 | the names of the cmdlets, in order |
| Cmdlets.NamesSnoc | rbkcli/core/handlers/cmdlets.py:189-193 | one more cmdlet adds its name at the end |
| Cmdlets.FirstOfEachNames | rbkcli/core/handlers/cmdlets.py:184-196 | the usable cmdlets have distinct names, and exactly the loaded names |
| Cmdlets.FirstOfEachPrefix | rbkcli/core/handlers/cmdlets.py:184-196 | after n cmdlets the usable ones are those among the first n that no earlier cmdlet shares a name with |
| Cmdlets.UsableAreFirsts | rbkcli/core/handlers/cmdlets.py:184-196 | the usable cmdlets are exactly the first of each name, in order |
| Cmdlets.GetUsableCmdlets | rbkcli/core/handlers/cmdlets.py:184-196 | the loop returns FirstOfEach |
| Cmdlets.Marked | rbkcli/core/handlers/cmdlets.py:554-567 | every loaded cmdlet is returned |
| Cmdlets.MarkUsable | rbkcli/core/handlers/cmdlets.py:554-567 | each cmdlet in the array is marked in place, `duplicated` when an earlier one has its name and `usable` otherwise, and all are returned |
| Cmdlets.UsableOnesPrefix | rbkcli/core/handlers/cmdlets.py:554-567 | among the first n marked cmdlets, the usable ones have the names of the first of each name |
| Cmdlets.UsableOnesStep | rbkcli/core/handlers/cmdlets.py:558-565 | one more cmdlet is usable exactly when no earlier one has its name |
| Cmdlets.MarkedUsableAreKept | rbkcli/core/handlers/cmdlets.py:554-567 | the two classes agree: the cmdlets the controls mark usable are the ones the handler keeps |
| Cmdlets.DocPath | rbkcli/core/handlers/cmdlets.py:585-586 | a path starts with `/` and holds no space |
| Cmdlets.DocPathRoundTrip | rbkcli/core/handlers/cmdlets.py:585-586 | round trip: a name without `/` is read back from its path by turning `/` into spaces |
| Cmdlets.DocPathsCollide | rbkcli/core/handlers/cmdlets.py:585-586 | `a b` and `a/b` share one path |
| Cmdlets.DocsSnoc | rbkcli/core/handlers/cmdlets.py:583-613 | one more cmdlet adds or replaces its own path and leaves the others |
| Cmdlets.DocsHas | rbkcli/core/handlers/cmdlets.py:583-613 | a path is documented exactly when a named cmdlet maps to it |
| Cmdlets.DocsLastWins | rbkcli/core/handlers/cmdlets.py:583-613 | a documented path holds the entry of the last named cmdlet mapping to it |
| Cmdlets.DocsIgnoreStatus | rbkcli/core/handlers/cmdlets.py:561-613 | the documentation does not depend on the status the controls set |
| Cmdlets.DocsSingle | rbkcli/core/handlers/cmdlets.py:583-613 | one named cmdlet documents only its own path |
| Cmdlets.FirstDocumented | rbkcli/core/handlers/cmdlets.py:199-245 | of two cmdlets with one name the handler documents the first |
| Cmdlets.LastDocumented | rbkcli/core/handlers/cmdlets.py:569-615 | of two cmdlets with one name the controls document the last |
| Cmdlets.HandlersDocumentDuplicates | rbkcli/core/handlers/cmdlets.py:199-245 | the two `_gen_docs` disagree on duplicate names: the handler keeps the first cmdlet, the controls the last |
| Cmdlets.GenDocs | rbkcli/core/handlers/cmdlets.py:583-615 | the loop returns Docs |
| Cmdlets.Substitute | rbkcli/core/handlers/cmdlets.py:153 | a replacement succeeds exactly when the value is a string (otherwise TypeError) |
| Cmdlets.RepeatedAdd | rbkcli/core/handlers/cmdlets.py:146-153 | m then n replacements are m + n replacements |
| Cmdlets.ForPiecesRepeats | rbkcli/core/handlers/cmdlets.py:150-153 | over the pieces of one name the key is replaced once per piece equal to it |
| Cmdlets.ForNamesRepeats | rbkcli/core/handlers/cmdlets.py:147-153 | over all expected names the key is replaced once per matching piece |
| Cmdlets.AssignedUnnamed | rbkcli/core/handlers/cmdlets.py:146-155 | keys no expected parameter names leave the operation unchanged, whatever their values |
| Cmdlets.RepeatedOk | rbkcli/core/handlers/cmdlets.py:153 | repeated replacement fails exactly when it happens at least once with a value that is not a string |
| Cmdlets.AssignedFails | rbkcli/core/handlers/cmdlets.py:141-155 | assignment fails exactly when a named key has a value that is not a string |
| Cmdlets.AssignedOnce | rbkcli/core/handlers/cmdlets.py:146-155 | a key named once replaces `<key>` by its value |
| Cmdlets.MatchesUniform | rbkcli/core/handlers/cmdlets.py:147-152 | when every expected name is the same text, a key matches as often as it occurs in it, times the number of names |
| Cmdlets.DocParametersRepeat | rbkcli/core/handlers/cmdlets.py:607-613 | the documentation repeats the whole `param` text as the name of each parameter, so a key listed there matches once per listed name |
| Cmdlets.AssignParameters | rbkcli/core/handlers/cmdlets.py:141-155 | an object of entered parameters gives Assigned; anything else raises AttributeError |
| Cmdlets.AssignKey | rbkcli/core/handlers/cmdlets.py:147-153 | the loops return ForNames |
| Cmdlets.ComparedKeys | rbkcli/core/handlers/cmdlets.py:370-380 | the expected dictionary keeps its keys in order; each provided key not taken gives one warning, in order |
| Cmdlets.ComparedValues | rbkcli/core/handlers/cmdlets.py:370-380 | a taken key holds the provided value; any other key keeps the expected one |
| Cmdlets.CompareProvidedExpected | rbkcli/core/handlers/cmdlets.py:370-380 | the loop returns Compared |
| Cmdlets.NewCmdletKeys | rbkcli/core/handlers/cmdlets.py:355-368 | the new cmdlet keeps its identifier, profile, name and command keys |
| Cmdlets.NewCmdletGets | rbkcli/core/handlers/cmdlets.py:355-368 | the new cmdlet has the given identifier, an empty name and an empty command |
| Cmdlets.NewCmdletName | rbkcli/core/handlers/cmdlets.py:359 | the new cmdlet's name is empty |
| Cmdlets.NewCmdletCommand | rbkcli/core/handlers/cmdlets.py:362 | the new cmdlet's command is empty |
| Cmdlets.NewCmdletFields | rbkcli/core/handlers/cmdlets.py:409-413 | the identifier is never replaced; name and command are the provided ones when given |
| Cmdlets.AddedCmdlet | rbkcli/core/handlers/cmdlets.py:383-462 | the added cmdlet keeps the generated identifier; it succeeds only with a non-empty provided name and command, and the command is then a list |
| JsonfyCsv.RecordOk | scripts/default/jsonfy_csv.py:96-99 | a line gives a record exactly when it has at least as many cells as there are keys (otherwise IndexError) |
| JsonfyCsv.Stripped | scripts/default/jsonfy_csv.py:97 | each key is stripped, in order |
| JsonfyCsv.StrippedSnoc | scripts/default/jsonfy_csv.py:96-97 | one more key adds its stripped form at the end |
| JsonfyCsv.RecordKeys | scripts/default/jsonfy_csv.py:96-99 | a record has each stripped key once and no other key |
| JsonfyCsv.RecordField | scripts/default/jsonfy_csv.py:96-99 | a key's value is its cell with newlines removed and stripped, the last column of a repeated key winning |
| JsonfyCsv.RecordNonEmpty | scripts/default/jsonfy_csv.py:102-103 | with any key a record is never empty, so it is always kept |
| JsonfyCsv.RecordsOk | scripts/default/jsonfy_csv.py:85-106 | the data lines convert exactly when each has enough cells |
| JsonfyCsv.RecordsEach | scripts/default/jsonfy_csv.py:85-106 | one object per data line, the line's record, in order |
| JsonfyCsv.CsvRecords | scripts/default/jsonfy_csv.py:85-108 | the first line gives the keys and every other line one object, in order |
| JsonfyCsv.MissingFile | scripts/default/jsonfy_csv.py:68-69 | without a `file` parameter the script raises ScriptError |
| JsonfyCsv.Execute | scripts/default/jsonfy_csv.py:47-108 | the script returns Jsonfied |
| ReportTable.KeyOf | scripts/default/jsonfy_report_table.py:44 | a column heading is a key exactly when it is a string, and is then that string |
| ReportTable.RowRecordOk | scripts/default/jsonfy_report_table.py:42-44 | a row converts exactly when it has no more cells than there are columns (otherwise IndexError) |
| ReportTable.RowRecordField | scripts/default/jsonfy_report_table.py:43-44 | cell i is the value of column i's heading, a later repeated heading winning |
| ReportTable.RowRecordKeys | scripts/default/jsonfy_report_table.py:43-44 | a record has no key other than the headings of its cells' columns |
| ReportTable.RowsEach | scripts/default/jsonfy_report_table.py:40-47 | one object per grid row, that row's record, in order |
| ReportTable.EmptyGrid | scripts/default/jsonfy_report_table.py:40-47 | an empty grid gives an empty table |
| ReportTable.MissingReport | scripts/default/jsonfy_report_table.py:26-27 | without `report_id` the script raises |
| ReportTable.LimitSent | scripts/default/jsonfy_report_table.py:30-36 | a limit is sent as `{"limit": n}` in a POST to `report/<id>/table` |
| ReportTable.JsonfyReportTable.constructor | scripts/default/jsonfy_report_table.py:8-22 | the script keeps its call-back and request |
| ReportTable.JsonfyReportTable.Execute | scripts/default/jsonfy_report_table.py:24-47 | returns Reported and leaves the prepared request in place |
| ReportTable.TableOf | scripts/default/jsonfy_report_table.py:39-47 | the loops return Table |
| Frequencies.UnitSeconds | scripts/default/all_snapshots.py:137-145 | a unit has a length exactly when it is one of the seven the table names (otherwise KeyError) |
| Frequencies.Largest | scripts/default/all_snapshots.py:153 | `max` is an element no smaller than any other |
| Frequencies.Smallest | scripts/default/missed_backups_report.py:497 | `min` is an element no larger than any other |
| Frequencies.SpansEach | scripts/default/all_snapshots.py:148-149 | one span per entry: the unit's seconds times the entry's count, in order |
| Frequencies.UnknownUnit | scripts/default/all_snapshots.py:148-149 | an entry with an unknown unit fails |
| Frequencies.MaxRetentionBounds | scripts/default/all_snapshots.py:135-153 | the maximum retention is 0 without entries, else the largest span |
| Frequencies.IngestFrequencyBounds | scripts/default/missed_backups_report.py:479-497 | the ingest frequency is 0 without entries, else the smallest span |
| Frequencies.FourWeeks | scripts/default/all_snapshots.py:135-153 | seven daily and four weekly snapshots retain for four weeks (2419200 seconds) |
| AllSnapshots.NormalizedFields | scripts/default/all_snapshots.py:53-57 | a normalised SLA holds its retention text under `frequency_max_retention` and every other field unchanged |
| AllSnapshots.IndexFiled | scripts/default/all_snapshots.py:52-58 | every SLA of a successful index was filed |
| AllSnapshots.FiledId | scripts/default/all_snapshots.py:57-58 | an SLA is filed under its own id, normalised |
| AllSnapshots.IndexFinds | scripts/default/all_snapshots.py:58 | an SLA's id maps to it unless a later SLA has the same id |
| AllSnapshots.IndexKeys | scripts/default/all_snapshots.py:58 | every key of the index is the id of some SLA |
| AllSnapshots.ByIdTable | scripts/default/all_snapshots.py:49-62 | each SLA is found under its id, normalised, the last of a repeated id winning; no other key appears |
| AllSnapshots.UnprotectedNeverExpires | scripts/default/all_snapshots.py:60-110 | a snapshot without SLA retains forever |
| AllSnapshots.UnknownSla | scripts/default/all_snapshots.py:109-112 | a snapshot whose SLA is gone gets `FOREVER-DELETED_SLAs`, which counts as forever |
| AllSnapshots.ForeverIsKept | scripts/default/all_snapshots.py:119-127 | a retention mentioning FOREVER is returned as the estimate without date arithmetic |
| AllSnapshots.AsWrittenUnbound | scripts/default/all_snapshots.py:52-60 | as written, no SLAs at all raise UnboundLocalError on `freq_max`, while intended the table then holds only UNPROTECTED; with SLAs both agree |
| AllSnapshots.GetSnapMaxLifePerSla | scripts/default/all_snapshots.py:47-62 | the loop returns MaxLifePerSla |
| MissedBackupsReport.FirstDefaults | scripts/default/missed_backups_report.py:468-477 | the three optional list parameters get their empty defaults first and cannot fail |
| MissedBackupsReport.VerifiedParameters | scripts/default/missed_backups_report.py:468-477 | verification fails exactly when `after_date` is missing (RbkcliError naming it); every parameter is then the one passed or its default |
| MissedBackupsReport.CheckedGet | scripts/default/missed_backups_report.py:469-477 | checking one parameter sets at most its own default |
| MissedBackupsReport.MatchesDistinct | scripts/default/missed_backups_report.py:178-181 | against distinct values a row is kept once when its key is one of them, dropped otherwise |
| MissedBackupsReport.FilteredSelects | scripts/default/missed_backups_report.py:176-183 | filtering on distinct values keeps exactly the rows whose key is one of them, in order, each once |
| MissedBackupsReport.ReadableSnoc | scripts/default/missed_backups_report.py:178-180 | every row has the key exactly when the earlier rows and the last do |
| MissedBackupsReport.FilteredOk | scripts/default/missed_backups_report.py:176-183 | with values filtering fails exactly when some row lacks the key; without values every row is dropped |
| MissedBackupsReport.MatchesOk | scripts/default/missed_backups_report.py:179-181 | matching one row fails exactly when there are values and the row lacks the key |
| MissedBackupsReport.MatchesFail | scripts/default/missed_backups_report.py:180 | a row without the key raises its KeyError |
| MissedBackupsReport.FilteredPrefixFail | scripts/default/missed_backups_report.py:178-181 | once a prefix of the report fails, the whole filter fails the same way |
| MissedBackupsReport.FilteredStops | scripts/default/missed_backups_report.py:178-181 | the first row without the key is the error of the whole filter |
| MissedBackupsReport.WrapValue | scripts/default/missed_backups_report.py:441-444 | a non-empty string parameter becomes a one-element list; any other value stays as it is |
| MissedBackupsReport.NarrowedByString | scripts/default/missed_backups_report.py:441-455 | a wrapped string keeps the rows whose key is that string, each once |
| MissedBackupsReport.NarrowedUnset | scripts/default/missed_backups_report.py:446-455 | an unset parameter leaves the report as it is |
| MissedBackupsReport.Bump | scripts/default/missed_backups_report.py:138-146 | bumping adds at most one key |
| MissedBackupsReport.BumpCount | scripts/default/missed_backups_report.py:138-146 | bumping adds one to the value's count and to the total, and appends the value as a key when new |
| MissedBackupsReport.TallyCounts | scripts/default/missed_backups_report.py:137-146 | a counter counts each value as often as it occurs, its counts add up to the number of values, and its keys are the distinct values seen |
| MissedBackupsReport.ClassifiedAt | scripts/default/missed_backups_report.py:137-146 | each missed backup either adds its type and id or is the error of the whole summary |
| MissedBackupsReport.Firsts | scripts/default/missed_backups_report.py:138-141 | the types of the pairs, in order |
| MissedBackupsReport.Seconds | scripts/default/missed_backups_report.py:143-146 | the ids of the pairs, in order |
| MissedBackupsReport.ClassifiedStops | scripts/default/missed_backups_report.py:137-146 | once a prefix fails, the summary fails the same way |
| MissedBackupsReport.PairsSnoc | scripts/default/missed_backups_report.py:137-146 | one more missed backup bumps each counter once |
| MissedBackupsReport.ClassifiedEach | scripts/default/missed_backups_report.py:138-146 | one type and one id per missed backup, read from its fields |
| MissedBackupsReport.SummaryCounts | scripts/default/missed_backups_report.py:133-174 | type counts and id counts each add up to the number of missed backups; each type is counted as often as it occurs; the data is the missed backups |
| MissedBackupsReport.MissedBackups.constructor | scripts/default/missed_backups_report.py:94-103 | the report, parameters and missed backups are the ones given |
| MissedBackupsReport.MissedBackups.VerifyParams | scripts/default/missed_backups_report.py:468-477 | the parameters and error are those of Verified; nothing else changes |
| MissedBackupsReport.MissedBackups.FilterObjectReport | scripts/default/missed_backups_report.py:176-183 | the report becomes Filtered, or stays when a row lacks the key |
| MissedBackupsReport.MissedBackups.Narrow | scripts/default/missed_backups_report.py:446-455 | the report becomes Narrowed by one parameter |
| MissedBackupsReport.MissedBackups.SortParams | scripts/default/missed_backups_report.py:439-465 | the parameters and report become those of Sorted; an empty report raises ZeroDivisionError |
| MissedBackupsReport.MissedBackups.Summarize | scripts/default/missed_backups_report.py:133-174 | the loop returns Summarized |
| LogApiMetrics.ParseJoined | scripts/default/log_api_metrics.py:452-466 | a line of at least four words gives date, verbosity, thread and module from the first four, the rest as message, and the line itself as its logs |
| LogApiMetrics.ParseShort | scripts/default/log_api_metrics.py:455-461 | a line of fewer than four words raises IndexError |
| LogApiMetrics.ThreadParts | scripts/default/log_api_metrics.py:325 | a thread name splits into at least one piece |
| LogApiMetrics.NonNegativeHasNoMinus | scripts/default/log_api_metrics.py:327-328 | a decremented number that is not negative adds no `-` |
| LogApiMetrics.BracketInner | scripts/default/log_api_metrics.py:328 | the previous thread is its inner text between angle brackets |
| LogApiMetrics.PrevThreadDecrements | scripts/default/log_api_metrics.py:325-328 | the previous thread keeps every piece but the last and decrements the last number by one |
| LogApiMetrics.DecrementedPieces | scripts/default/log_api_metrics.py:326-328 | the decremented pieces joined with `-` split back into the same pieces |
| LogApiMetrics.SearchedMeans | scripts/default/log_api_metrics.py:409-413 | a searched field passes exactly when the search text occurs in the field's text |
| LogApiMetrics.BoundedMeans | scripts/default/log_api_metrics.py:414-425 | the duration passes exactly when it is strictly above `min_dur` and strictly below `max_dur` when those are given |
| LogApiMetrics.VerdictMeans | scripts/default/log_api_metrics.py:408-427 | a field passes exactly when the search test and both duration bounds pass |
| LogApiMetrics.EmptySearch | scripts/default/log_api_metrics.py:426-427 | an empty search accepts |
| LogApiMetrics.DesiredAll | scripts/default/log_api_metrics.py:405-429 | a metric is desired exactly when every field passes |
| LogApiMetrics.PathsMembers | scripts/default/log_api_metrics.py:237-239 | the paths of a folder are its files other than `state`, behind the folder |
| LogApiMetrics.LogFilesMembers | scripts/default/log_api_metrics.py:230-241 | a path is a log file exactly when it is read from a folder containing the node id |
| LogApiMetrics.LogFilesSnoc | scripts/default/log_api_metrics.py:235-239 | one more folder adds only its own files |
| LogApiMetrics.SomeFolderSnoc | scripts/default/log_api_metrics.py:235-239 | some folder gives the path exactly when an earlier one or the last does |
| LogApiMetrics.GetLogFiles | scripts/default/log_api_metrics.py:230-241 | the loops return LogFiles |
| LogApiMetrics.LastUserLine | scripts/default/log_api_metrics.py:309-316 | the user line is the last one found, or empty when none was |
| LogApiMetrics.SortThreads | scripts/default/log_api_metrics.py:468-477 | the threads come back strictly sorted and are exactly those occurring in some log |
| LogApiMetrics.RememberedLast | scripts/default/log_api_metrics.py:440-444 | without a principal in the line, the id remembered for the last known thread is used |
| LogApiMetrics.RememberedNone | scripts/default/log_api_metrics.py:440-444 | with no known thread the id is NO_USER_FOUND_IN_LOGS |
| LogApiMetrics.PrincipalIn | scripts/default/log_api_metrics.py:431-444 | the method returns Principal |
| LogApiMetrics.RememberedOf | scripts/default/log_api_metrics.py:442-444 | the loop returns Remembered |
| LogApiMetrics.PrincipalRemembered | scripts/default/log_api_metrics.py:433-444 | a principal line's thread remembers its id: a later line of that thread without a principal resolves to the same id |
| LogApiMetrics.UserNameFirst | scripts/default/log_api_metrics.py:446-450 | the name is that of the first user whose id matches |
| LogApiMetrics.ApiMetric.constructor | scripts/default/log_api_metrics.py:148-156 | the search and users are the ones given, and no thread is remembered |
| LogApiMetrics.ApiMetric.IsDesiredResult | scripts/default/log_api_metrics.py:405-429 | returns Desired |
| LogApiMetrics.ApiMetric.ParsePrincipal | scripts/default/log_api_metrics.py:431-450 | remembers the thread's principal as Principal does and returns the user name and id |
| LogApiMetrics.ApiMetric.PrincipalOf | scripts/default/log_api_metrics.py:431-444 | returns Principal's id and remembers its threads |
| LogApiMetrics.ApiMetric.UserNameOf | scripts/default/log_api_metrics.py:446-450 | returns UserName |

## Left out

Values and the runtime:
- JSON numbers are integers only (`Num(int)`). Floats are not modelled, and `str()`/`repr()` of containers is a
  simplified text without escaping. The model never relies on the exact spelling of a float or an escape.
- `json.loads` and `json.dumps` are functions supplied by the caller, not modelled parsers and printers.
- Python type-name strings (`str`, `int`, `list`, ...) are datatype tags.
- Logging (`rbkcli_logger`, `local_tools.logger`) is left out everywhere, because it only writes to files.
- File reads and writes, HTTP, SSH, clocks and environment variables are functions supplied by the caller or
  left out (rbkcli/base/tools.py is not part of this model).
- Strings.ParseInt: Python's `int()` also accepts digit-group underscores (`int("1_0") == 10`) and non-ASCII
  digits; here both are a `ValueError`. This reaches Json.IntOf, used for the scripts' durations and `limit`, and
  LogApiMetrics.ThreadNumber.
- MapDoc.IsUpper: covers the ASCII capitals only, where Python's `str.isupper` knows every Unicode letter.
- Strings.Whitespace: holds the ten ASCII characters that `str.strip()` and `str.split()` treat as whitespace
  (space, tab, newline, carriage return, vertical tab, form feed and `\x1c` to `\x1f`). The non-ASCII spaces
  Python also strips, such as `\x85` and `\xa0`, are not modelled.
- MapKeys.Without: drops every segment equal to the one being left, standing for `cursor.replace(metadata, '')`
  on text. A match of the text that straddles two segments is not modelled.
- ResolveRefs.Resolve: `fuel` bounds the depth of resolution and stands for Python's recursion limit.
  Running out gives the `RecursionError` the source would raise.

Aliasing and objects updated in place:
- DynaTable.DynaTable.constructor: takes copies of the header and row lists. The source's `DynaTable` rewrites
  the caller's own lists in place, and `simple_dict_table`'s default `headers=[]` is one list shared by every call
  (rbkcli/base/jsops.py:167,175-178). Neither aliasing effect is modelled.
- Api.RubrikApiHandler.GenAuthorizationLists: the focus list is a copy of the profile's authorization list. In the
  source, `focus_list` is the same list object as `filter_lists[profile]` (rbkcli/base/api.py:283), so the
  blacklist's removals also change the stored authorization list. This sharing is not modelled.
- Operations.OperationsHandler.SecureKeys: returns the hidden copy of the dictionary, where `_secure_keys` updates
  the caller's dictionary in place.
- Inputs.InputHandler.Validate: on failure the request keeps its old value. The source has already changed some
  fields of `self.req` before it raises, and those partial changes are not modelled.
- MissedBackupsReport.MissedBackups.SortParams: on failure the contract names the error only. It does not state
  how far the parameters were wrapped before the error.

Constructors and injected calls:
- JsonOps.RbkcliJsonOps.constructor: takes the JSON value already parsed. The source's `_jsonfy` parses text with
  `json.loads` and raises on invalid text (rbkcli/base/jsops.py:128-132). That is left to the caller's parser.
- Api.RubrikApiHandler.constructor: requires a supported version. The failing path is stated by `Api.VersionCheck`
  and `Api.VersionCheckAsWritten` (see Findings), not by the constructor.
- Api.ApiRequester.Demand: the request body and query parameters (`data`, `params`) are not modelled. This includes
  the token retry, which resends with `data={}` and `params={}` (rbkcli/base/api.py:75,169). Only the URL, the
  headers and the outcome are modelled.
- Operations.OperationsHandler.Execute: drops `data` and `params` for the same reason.
- Callback.Called: the injected `execute` is a total function from the validated request to text. The source's
  `execute` can also raise `ApiHandlerError` or `ApiRequesterError`, and that path is not modelled.
- Callback.CallBack.constructor: the flags of the callback come from the parsed request supplied by the caller.
  `call_back_text` (rbkcli/core/handlers/callback.py:108-111) is not modelled, since it only runs `json.loads`
  over the output.

Operations, API and cmdlets:
- `documentation` and `information` (rbkcli/core/handlers/operations.py:205-251) are modelled only through
  `_gen_info_output`, which is handler lookups plus the `$ref` resolution. `import_apis`, `export_apis`, the
  `_instantiate_*` methods, `version_looper` and `store_all_ops` are left out: they load handlers and write files.
- `_create_all_methods_list` of the cmdlets handler copies the API handler's one. It is modelled once, in
  `Api.RubrikApiHandler.CreateAllMethodsList`.
- The download and caching of API documents (`_download_api_doc`) is HTTP and file I/O.
- The cmdlets handler's file work and management is left out: `execute_api` (rbkcli/core/handlers/cmdlets.py:88-138),
  `_load_json`, `_get_cmdlets_files`, `_load_cmdlets_files`, `initialize_callbacker`, `list_cmdlets_profiles`,
  `add_cmdlet_profile`, `list_cmdlets`, `sync_cmdlets`, `remove_cmdlet`, `_remove_cmdlet_id`, `_remove_from_file`,
  `_update_env_file` and `patch_cmdlet`. All of them read or write files or call the API.
- Cmdlets.Entry: the documentation entry keeps the fields taken from the cmdlet (description, command, parameters,
  response description, multiple output, summary). The constant fields of the source's entry (`operationId`,
  `schema`, `table_order`, `tags`, `x-group`, and each parameter's `in` and `type`) are left out.
- Cmdlets.Docs: the documentation paths are a Dafny `map`. The insertion order of the Python dictionary is not
  modelled.

JSON helpers:
- `key_metadata_key` (rbkcli/base/jsops.py:759-771) and `convert_to_list1` (rbkcli/core/handlers/jsometa.py:391-432)
  are not called anywhere in the repository, so they are left out.
- `print_table` only prints the table text that `DynaTable` builds.

Scripts:
- JsonfyCsv.Jsonfied: a reader failure stands for the `FileNotFoundError` of `open`. Other `OSError`s are not
  distinguished.
- ReportTable.Prepared: a `report_id` that is not a string is a `TypeError` when the request is prepared, where
  the source hands it on to `callit`, which is not part of this model.
- ReportTable.KeyOf: non-string scalar headings are not modelled.
- ReportTable.Rows: grid rows that are dictionaries or strings are not modelled.
- ReportTable.ColumnName: `columns` that is a dictionary or a string is a `TypeError` here. Python gives
  `KeyError: 0` for a dictionary and takes a one-character key from a string.
- Frequencies.Times: Python's `*` repeats a string or a list; here such a count is a `TypeError`.
- AllSnapshots.MaxLifePerSla: SLA ids that are not strings are not modelled, and the SLA reply is assumed to be a
  list.
- AllSnapshots.ExpiryEstimate: the date arithmetic of `gen_expiry_estimate` is a function supplied by the caller.
- `execute`, `get_snap_from_objects` and `get_snaps_from_filesets` of all_snapshots.py are left out: they are
  callback orchestration.
- The missed-backups script's orchestration is left out: `fetch_missed_backups`, `merge_missed_backups`,
  `merge_skipped_date`, `merge_missed_snaps`, `resolve_start_date`, `loop_more_results`,
  `get_sla_compliance_report`, `get_sla_domain`, `resolve_object_api`, `execute` and the file output. All of them
  are callback and date orchestration.
- MissedBackupsReport.Sorted: `now` is a parameter standing for `gmtime(time() - 300)`. The float progress weight
  `snap_weight` is not modelled; only its division by the report's length, which refuses an empty report, is.
- MissedBackupsReport.Summarized: the elapsed time is a parameter in whole seconds, standing for the clock
  difference.
- MissedBackupsReport.Filtered: ids are compared structurally. Python's `==` also equates `True` with `1` (and
  `1` with `1.0`) and dictionaries whose keys come in another order; that is not modelled.
- MissedBackupsReport.Bump: counter keys are compared structurally, so the keys `True` and `1`, which one Python
  dictionary entry would share, are counted apart. The same holds for MissedBackupsReport.TallyCounts.
- MissedBackupsReport.Hashed: refuses lists and dictionaries, which Python's `dict` cannot hash either. Other
  unhashable values do not arise from parsed JSON.
- The log-metrics script's remaining steps are left out: `gen_api_obj`, `build_metric_obj`, the line collection of
  `get_relevant_lines` (only the previous-thread computation is modelled), `refine_relevant_lines`,
  `extract_userline`, `metricfy`, `_assign_defined_param`, `get_folder_path` and `analyze_metric_logs`. They read
  files, time lines and build float metrics.
- LogApiMetrics.ApiMetric.IsDesiredResult: search values are compared as JSON values.

## Findings

| source | as written | input that shows it | evidently intended | confidence | as-written member | corrected member |
|---|---|---|---|---|---|---|
| rbkcli/base/jsops.py:634-663 | `_select_key` deletes a field's name from `self.unselected` each time the field passes. A second passing value of the same field raises `KeyError`. | `[{"a": [{"b": 1}, {"b": 2}]}]`, selecting `[a][b]` | the later value is stored and the walk goes on | not executed | MapSelection.SelectAsWritten, MapSelection.AsWrittenFlags, MapSelection.SecondMatchFails | MapSelection.Select, MapSelection.MapSelect.IterIt, MapSelection.SecondMatchOverwrites |
| rbkcli/base/jsops.py:101-117 | `_get_rows_size` appends the header to its column and then runs `list.remove(header)`. This removes the first cell equal to the header, not the one just appended, so that cell moves to the end of the column. | `simple_dict_table([{"a": "a", "b": "p"}, {"a": "x", "b": "q"}])`: the headers are the sorted keys `a`, `b`; measuring column `a` moves its cell `a` to the end, so the first data line holds `x`, `p` and the second `a`, `q` | each column keeps its order: the first data line holds `a`, `p` and the second `x`, `q` | not executed | DynaTable.AssembledAsWritten, DynaTable.AsWrittenMisalignsRows, DynaTable.RecordsExampleAsWritten | DynaTable.Assembled, DynaTable.DynaTable.AssembleTable, DynaTable.TableShape, DynaTable.RecordsExampleIntended |
| rbkcli/core/handlers/operations.py:166-182 | `_apply_blacklist` calls `remove` once per matching raw line. It raises `ValueError` for a line missing from the profile's focus list or the operations. A line that the whitelist added again keeps a copy. | the same line `v1:/cluster/me:get:NA` on the whitelist and the blacklist of a profile that already holds it: one copy stays among the operations | every copy of a blacklisted line leaves the operations, and the blacklist takes priority | not executed | Operations.GeneratedAsWritten, Operations.BlackRawAsWrittenCounts, Operations.BlacklistAsWrittenDiffers | Operations.Generated, Operations.OperationsHandler.GenerateOps, Operations.BlacklistPriority |
| rbkcli/base/api.py:106-125 | When the token is refused and a username and password are present, the retry concatenates a `ToolsError` object into a string. This raises `TypeError` before the Basic header is built. | an auth with `token`, `username` and `password` whose token the server refuses | the retry authenticates with the username and password | not executed | Api.AuthorizationAsWritten, Api.RetryAsWrittenFails | Api.Authorization, Api.ApiRequester.Demand, Api.AtMostOneRetry |
| rbkcli/base/api.py:187-209 | `_verify_api_version` logs through `self.local_tools`, which the constructor sets only after the check. An unsupported version raises `AttributeError` instead of `ApiHandlerError`. | version `v9` | `ApiHandlerError` naming the version | not executed | Api.VersionCheckAsWritten, Api.VersionCheckDiffers | Api.VersionCheck |
| scripts/default/all_snapshots.py:52-60 | `freq_max` is bound only inside the loop over the SLAs. An empty SLA list raises `UnboundLocalError`. | an SLA reply `[]` | a table holding the unprotected entry alone | not executed | AllSnapshots.MaxLifePerSlaAsWritten, AllSnapshots.AsWrittenUnbound | AllSnapshots.MaxLifePerSla, AllSnapshots.GetSnapMaxLifePerSla |
