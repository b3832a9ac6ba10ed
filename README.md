# ezdxf core in Dafny

This project models four parts of ezdxf, a Python library that reads and writes DXF drawings. Each part is written as Dafny classes, functions and methods, and each carries proved contracts.

- **Entity side-channel metadata** (`EntityAppData`, appdata.dfy).
  - `AppData` is an insertion-ordered map from a normalised application id to a tag group framed by `(102, "{appid")` … `(102, "}")`.
  - `Reactors` is a set of handles, written back as an `{ACAD_REACTORS` group in sorted order.
  - `ExtensionDict` is a three-state reference to an extension dictionary. It is absent, an unresolved handle, or a resolved dictionary object.
- **Symbol tables** (`Tables`, table.dfy).
  - `Table` is an ordered map from a lower-cased entry name to a table entry.
  - `StyleTable` adds the shape-file lookups.
  - `ViewportTable` keeps a list of VPORT entries per name.
- **MTEXT column metadata** (`MText`, mtext.dfy).
  - The three XDATA encoders of `MTextColumns` and their loaders.
  - The key/value pairing loop with its counted height list.
  - `update_total_width` and `mtext_handles`.
  - The code-3/code-1 chunking of the content text.
  - The guard of `MText.setup_columns`.
- **Graphics factory argument shaping** (`Graphics`, graphicsfactory.dfy).
  - `copy_attribs`, `_four_points` and the clockwise-arc angle swap.
  - The polyline flag bits and the mesh-size clamp.
  - The DXF-version gates of the `add_*` methods.
  - `build_and_add_entity` is a sink that records each created entity.

Shared pieces live in three support modules:

- `Tags` (tags.dfy): tags, values, the library's exceptions as an `Error` datatype, `Result`/`Option`, and a tag writer that records what it writes.
- `Strings` (strings.dfy): ASCII `lower`/`upper`, Python's `<` on `str`, and strictly sorted listings as the meaning of `sorted(set)`.
- `Collections` (collections.dfy): `OrderedDict` as a key sequence plus a map.

Methods that change state are proved against specification functions. For example, `AppData.ExportDxf` writes exactly `ExportTags()`, `Reactors.ExportDxf` writes `ReactorGroup(SortedOf(reactors))`, and `MText.ExportMTextContent` writes `ContentTags(...)`. The round trips between those functions and the loaders are lemmas.

Some collaborators are outside this model. They appear as parameters or constant fields instead:

- `uniform_appid` (`AppData.uniformAppId`);
- the entity database and `objects.add_dictionary` (`Document.entitydb`, `Document.AddDictionaryFor`, which logs its calls);
- the handle allocator of a layout (`GraphicsFactory.newHandle`);
- `caret_decode` and `escape_dxf_line_endings` (`MText.caretDecode`, `MText.escapeLineEndings`).

Calls made on a created graphic entity (`close`, `append_vertices`, `set_points`, `__setitem__`, …) are recorded as `EntityCall` values.

## Model

| member | source | states |
|---|---|---|
| EntityAppData.AppData.constructor | ezdxf/entities/appdata.py:27-29 | a new AppData holds no groups |
| EntityAppData.AppData.Contains | ezdxf/entities/appdata.py:31-32 | the normalised id is contained exactly when some stored group starts with it |
| EntityAppData.AppData.Len | ezdxf/entities/appdata.py:34-35 | the number of stored groups, one per key of the map |
| EntityAppData.AppData.Get | ezdxf/entities/appdata.py:31-41 | succeeds exactly when the normalised id is contained; returns the stored group, whose first tag carries the normalised id; otherwise DXFKeyError(appid) |
| EntityAppData.AppData.Set | ezdxf/entities/appdata.py:43-46 | empty tags change nothing; otherwise the group is stored under `tags[0].value`, an existing id keeps its position in the key order and a new id goes last |
| EntityAppData.AppData.Add | ezdxf/entities/appdata.py:48-55 | with pairs: the stored group starts with `(102, uniform_appid)` and ends with `(102, "}")`, holds the pairs in order, and adds each marker only when it is missing, so a group that already has both markers is stored unchanged; no other id changes; with no pairs it fails with IndexError and changes nothing |
| EntityAppData.AppData.Discard | ezdxf/entities/appdata.py:57-60 | the normalised id is no longer contained and every other group and the order stay as before; a missing id is a no-op |
| EntityAppData.AppData.ExportDxf | ezdxf/entities/appdata.py:62-64 | appends the stored groups to the writer in key order |
| EntityAppData.ParseReactors | ezdxf/entities/appdata.py:85-101 | None gives the empty set, fewer than 3 tags give DXFStructureError("ACAD_REACTORS error"), otherwise the set of exactly the interior tag values |
| EntityAppData.Reactors.FromTags | ezdxf/entities/appdata.py:85-101 | None gives an empty object, fewer than 3 tags the DXFStructureError, otherwise a new object holding exactly the interior handles |
| EntityAppData.ReactorGroup | ezdxf/entities/appdata.py:115-119 | the export layout: `(102, "{ACAD_REACTORS")`, one `(330, handle)` per handle in order, `(102, "}")` |
| EntityAppData.ReactorGroupRoundTrip | ezdxf/entities/appdata.py:96-119 | reading back a group written from a non-empty handle list yields exactly the listed handles |
| EntityAppData.EmptyReactorGroupRejected | ezdxf/entities/appdata.py:99-100 | the 2-tag group exported for an empty set is rejected by from_tags |
| EntityAppData.Reactors.constructor | ezdxf/entities/appdata.py:74-77 | the reactor set is the set of the given handles, empty for None |
| EntityAppData.Reactors.Get | ezdxf/entities/appdata.py:103-104 | returns the reactors in strictly ascending order, each exactly once |
| EntityAppData.Reactors.Set | ezdxf/entities/appdata.py:106-107 | replaces the set with the given handles; None clears it |
| EntityAppData.Reactors.Add | ezdxf/entities/appdata.py:109-110 | set insertion |
| EntityAppData.Reactors.Discard | ezdxf/entities/appdata.py:112-113 | set removal; an absent handle is a no-op |
| EntityAppData.Reactors.ExportDxf | ezdxf/entities/appdata.py:115-119 | writes the reactor group of the sorted handles |
| EntityAppData.WriteReactorGroup | ezdxf/entities/appdata.py:116-119 | the write loop emits exactly `ReactorGroup(handles)` |
| EntityAppData.ReactorsRoundTrip | ezdxf/entities/appdata.py:96-119 | from_tags of the exported group recovers any non-empty reactor set |
| EntityAppData.ExportOrderIsCanonical | ezdxf/entities/appdata.py:103-104 | any strictly sorted listing of the set exports the same group, so the export does not depend on set iteration order |
| EntityAppData.Document.AddDictionaryFor | ezdxf/entities/appdata.py:163-165 | returns a new dictionary owned by the given handle and logs exactly one add_dictionary call |
| EntityAppData.XDictGroup | ezdxf/entities/appdata.py:167-174 | absent writes nothing; otherwise `(102, "{ACAD_XDICTIONARY")`, `(360, handle)`, `(102, "}")` with the stored handle or the resolved dictionary's handle |
| EntityAppData.ParseXDict | ezdxf/entities/appdata.py:137-145 | None gives the absent state; DXFStructureError exactly when the group is not 3 tags with code 360 at index 1; otherwise the handle at index 1 |
| EntityAppData.XDictRoundTrip | ezdxf/entities/appdata.py:137-174 | from_tags of the exported group returns the handle that was exported |
| EntityAppData.ExtensionDict.constructor | ezdxf/entities/appdata.py:124-130 | stores the owner and the reference |
| EntityAppData.ExtensionDict.FromTags | ezdxf/entities/appdata.py:137-145 | the error of a malformed group; otherwise a new object owned by the entity, absent for no group and holding the handle at index 1 otherwise |
| EntityAppData.ExtensionDict.Clone | ezdxf/entities/appdata.py:132-135 | the copy has no owner; an absent or handle reference is kept; a resolved dictionary is replaced by a fresh copy with the same handle and owner |
| EntityAppData.ExtensionDict.Get | ezdxf/entities/appdata.py:151-165 | always ends resolved to the returned dictionary; absent: creates one dictionary owned by the owner's handle with one add_dictionary call; handle: the entity-database lookup of that handle with one lookup call; resolved: the cached object and no document change |
| EntityAppData.ExtensionDict.ExportDxf | ezdxf/entities/appdata.py:167-174 | writes exactly `XDictGroup` of the current reference |
| EntityAppData.GetTwice | ezdxf/entities/appdata.py:151-161 | two get calls on an absent reference return the same dictionary and create it only once |
| Tables.TableName | src/ezdxf/sections/table.py:39-56 | the upper-cased name maps to its listed plural for the nine known tables and to `NAME + "S"` otherwise |
| Tables.TableNameIgnoresCase | src/ezdxf/sections/table.py:52-56 | tablename does not depend on the case of its input |
| Tables.TableNameExamples | src/ezdxf/sections/table.py:39-56 | layer gives LAYERS, Vport gives VIEWPORTS, UCS gives UCS, block gives BLOCKS |
| Tables.TableKey | src/ezdxf/sections/table.py:59-64 | succeeds exactly for strings, with the lower-cased name as a key that is its own key; otherwise TypeError("Name has to be a string.") |
| Tables.KeyIgnoresCase | src/ezdxf/sections/table.py:59-64 | the key of the upper- or lower-cased name equals the key of the name |
| Tables.Drawing.DeleteEntity | src/ezdxf/sections/table.py:177 | the deleted entry is logged and no longer alive |
| Tables.AliveOf | src/ezdxf/sections/table.py:137-141 | keeps exactly the live entries, each from the input, and the whole sequence when every entry is alive |
| Tables.AliveOfConcat | src/ezdxf/sections/table.py:137-141 | filtering keeps the order: the live entries of `a + b` are those of `a` followed by those of `b` |
| Tables.AlivePut | src/ezdxf/sections/table.py:137-141 | after storing under a new name the entry, when alive, comes after all live entries; under an existing name it takes that name's place in the iteration |
| Tables.Loaded | src/ezdxf/sections/table.py:77-94 | the loaded map is well formed and each key holds an entry of the table's type whose name has that key |
| Tables.LoadedKeepsLast | src/ezdxf/sections/table.py:223-228 | a key is loaded exactly when some item of the table's type has that key, and then holds the last such item |
| Tables.Table.constructor | src/ezdxf/sections/table.py:96-106 | a new table has the given head, owner "0" and no entries |
| Tables.Table.Load | src/ezdxf/sections/table.py:77-94 | no items give StopIteration; a first item that is not a head gives DXFStructureError; otherwise the head is the first item and the entries are `Loaded` of the rest |
| Tables.Table.HasEntry | src/ezdxf/sections/table.py:127-131 | a name is present exactly when some stored entry has that name, ignoring case |
| Tables.Table.Len | src/ezdxf/sections/table.py:133-135 | the number of names stored in the table |
| Tables.Table.Iter | src/ezdxf/sections/table.py:137-141 | the live filter of the stored entries in key-insertion order: every live entry, nothing else |
| Tables.Table.Get | src/ezdxf/sections/table.py:160-169 | succeeds exactly when the case-insensitive key exists, with an entry whose name has that key; otherwise DXFTableEntryError(name) |
| Tables.GetIgnoresCase | src/ezdxf/sections/table.py:127-169 | get and has_entry give the same answer for upper- and lower-cased names |
| Tables.PutLen | src/ezdxf/sections/table.py:133-135 | storing under an existing key keeps the length; a new key adds one |
| Tables.Table.Append | src/ezdxf/sections/table.py:223-228 | stores the entry under its key, replacing any entry with that key |
| Tables.Table.New | src/ezdxf/sections/table.py:143-158 | an existing name gives DXFTableEntryError and no change; otherwise a fresh live entry of the table's type with that name, owned by the head handle, is appended |
| Tables.Table.Discard | src/ezdxf/sections/table.py:198-200 | removes only that key; a missing key gives KeyError and no change |
| Tables.Table.Remove | src/ezdxf/sections/table.py:171-178 | a missing name gives DXFTableEntryError and leaves the table, the database and every entry unchanged; otherwise that entry is deleted from the database and only its key is dropped, and no other entry changes |
| Tables.Table.Replace | src/ezdxf/sections/table.py:202-205 | a missing name gives KeyError and no change; otherwise the old name is discarded, then an entry of the wrong type gives AssertionError and an entry of the right type is stored under its key |
| Tables.Table.AddEntry | src/ezdxf/sections/table.py:230-246 | a wrong entry type gives DXFTypeError, a duplicate name DXFTableEntryError, each leaving everything unchanged; otherwise the entry gets the table's document and the head handle as owner, and is stored |
| Tables.Table.UpdateOwnerHandles | src/ezdxf/sections/table.py:274-277 | every entry's owner becomes the head handle |
| Tables.Table.SetHandle | src/ezdxf/sections/table.py:279-285 | acts only when the head handle is unset, then sets it and every entry's owner; no entry changes liveness or document |
| Tables.Table.ExportDxf | src/ezdxf/sections/table.py:248-272 | owners are updated while each entry stays alive or dead and keeps its document, the head gets owner "0" and count `len(table)`, and the export ends with `(0, "ENDTAB")` |
| Tables.FirstWithFont | src/ezdxf/sections/table.py:487-491 | the first entry whose lower-cased font equals the search name, or None when there is none |
| Tables.StyleTable.FindShx | src/ezdxf/sections/table.py:476-491 | the first entry in iteration order whose font matches case-insensitively, which is live and stored; None exactly when no live entry matches |
| Tables.StyleTable.AddShx | src/ezdxf/sections/table.py:428-458 | an existing shape file gives DXFTableEntryError and no change; otherwise a nameless entry with flags 1 and that font is stored; the head stays |
| Tables.StyleTable.GetShx | src/ezdxf/sections/table.py:460-474 | returns the first existing shape-file entry unchanged, or adds a new one; the head stays |
| Tables.LoadedConfigs | src/ezdxf/sections/table.py:555-560 | each key holds a non-empty list of entries of the table's type, all with that key |
| Tables.LoadedConfigsLen | src/ezdxf/sections/table.py:536-560 | the flattened entry count equals the number of loaded items of the table's type |
| Tables.AppendConfig | src/ezdxf/sections/table.py:555-560 | appends to the existing list of the key, or starts a one-element list under a new key placed last |
| Tables.AppendConfigLen | src/ezdxf/sections/table.py:536-560 | one append adds exactly one to the flattened count |
| Tables.AppendConfigValid | src/ezdxf/sections/table.py:555-560 | appending keeps every configuration a non-empty list of entries of its own name |
| Tables.AppendConfigFlatten | src/ezdxf/sections/table.py:555-560 | the appended entry is yielded right after the other entries of its configuration, or last for a new name |
| Tables.ViewportTable.constructor | src/ezdxf/sections/table.py:96-106 | a new viewport table has the given head and no entries |
| Tables.ViewportTable.Load | src/ezdxf/sections/table.py:77-94 | as Table.Load, with same-name entries collected into lists |
| Tables.ViewportTable.HasEntry | src/ezdxf/sections/table.py:127-131 | a name is present exactly when some entry of some configuration has that name, ignoring case |
| Tables.ViewportTable.Len | src/ezdxf/sections/table.py:532-538 | counts all entries, at least one per configuration, and 0 exactly when there is no configuration |
| Tables.ViewportTable.Iter | src/ezdxf/sections/table.py:528-538 | yields every entry of every configuration and nothing else, as many as `len` counts |
| Tables.ViewportTable.Append | src/ezdxf/sections/table.py:555-560 | the entries become `AppendConfig` of the old ones, `len` grows by one, and the entry is yielded after its configuration's entries, or last for a new name; no type check |
| Tables.ViewportTable.New | src/ezdxf/sections/table.py:498-502 | always creates a fresh entry of the table's type and appends it, even when the name exists |
| Tables.ViewportTable.GetConfig | src/ezdxf/sections/table.py:568-575 | returns the stored list of the name, non-empty and all of that name, or DXFTableEntryError(name) when the name is missing |
| Tables.ViewportTable.Remove | src/ezdxf/sections/table.py:520-526 | deletes every entry of the configuration from the database and drops that key only, leaving every other entry unchanged; a missing name gives DXFTableEntryError and changes nothing |
| Tables.ViewportTable.Discard | src/ezdxf/sections/table.py:198-200 | removes the key; a missing key gives KeyError |
| Tables.ViewportTable.UpdateOwnerHandles | src/ezdxf/sections/table.py:562-566 | every entry of every list gets the head handle as owner |
| Tables.SetOwners | src/ezdxf/sections/table.py:565-566 | every entry of one configuration list gets the given owner; nothing else about the entries changes |
| Tables.ViewportTable.SetHandle | src/ezdxf/sections/table.py:279-285 | acts only when the head handle is unset, then sets it and every entry's owner; no entry changes liveness or document |
| Tables.ViewportTable.ExportDxf | src/ezdxf/sections/table.py:248-272 | owners are updated while each entry keeps its alive state and document, the head gets owner "0" and the flattened count, and the export ends with ENDTAB |
| MText.ColumnTypeOf | src/ezdxf/entities/mtext.py:186-190 | `ColumnType(value)` succeeds exactly for 0, 1 and 2, and otherwise fails with ValueError |
| MText.ColumnTypeRoundTrip | src/ezdxf/entities/mtext.py:186-190 | converting a column type to int and back gives it unchanged |
| MText.TotalWidthIsSpan | src/ezdxf/entities/mtext.py:285-291 | for count > 0 the total width is the span of count columns with count - 1 gutters between them |
| MText.TotalWidthBounds | src/ezdxf/entities/mtext.py:285-291 | with positive width and non-negative gutter the total width is at least count × width and positive |
| MText.MTextColumns.constructor | src/ezdxf/entities/mtext.py:206-223 | the defaults: static, one column, zero sizes, no linked handles or columns, no heights |
| MText.MTextColumns.UpdateTotalWidth | src/ezdxf/entities/mtext.py:285-291 | sets total_width to `count*width + (count-1)*gutter` for count > 0 and 0 otherwise; nothing else changes |
| MText.MTextColumns.HasDynamicAutoHeight | src/ezdxf/entities/mtext.py:299-301 | only dynamic columns, and never those whose info group carries heights |
| MText.MTextColumns.HasDynamicManualHeight | src/ezdxf/entities/mtext.py:303-305 | exactly the dynamic settings whose column info group carries the heights |
| MText.InfoXData | src/ezdxf/entities/mtext.py:333-347 | a BEGIN/END framed group of 14 tags, plus 2 and one tag per height exactly for dynamic manual-height columns |
| MText.MTextColumns.AcadMTextColumnInfoXData | src/ezdxf/entities/mtext.py:333-347 | the column-info group of the object's column settings |
| MText.HeightTags | src/ezdxf/entities/mtext.py:344-345 | one `(1040, height)` tag per height, in order |
| MText.MTextColumns.AcadMTextDefinedHeightXData | src/ezdxf/entities/mtext.py:375-380 | the defined-height group of the object's defined height |
| MText.ColumnsXData | src/ezdxf/entities/mtext.py:349-357 | a BEGIN/END framed group of 4 tags plus one per handle |
| MText.HandleTags1005 | src/ezdxf/entities/mtext.py:354-355 | one `(1005, handle)` tag per handle, in order |
| MText.MTextColumns.AcadMTextColumnsXData | src/ezdxf/entities/mtext.py:349-357 | propagates the DXFStructureError of mtext_handles, and otherwise writes the columns group of the handles |
| MText.CollectHandlesSpec | src/ezdxf/entities/mtext.py:363-373 | succeeds exactly when every linked column is alive and has a handle, giving their handles in order; otherwise fails at the first bad column with "deleted" or "has no handle" |
| MText.Collect | src/ezdxf/entities/mtext.py:363-373 | the loop computes `CollectHandles` |
| MText.LinkedHandles | src/ezdxf/entities/mtext.py:359-373 | non-empty loaded handles are returned as they are; otherwise the handles of the linked columns in order, and an error exactly when some column is deleted or has no handle |
| MText.MTextColumns.MTextHandles | src/ezdxf/entities/mtext.py:359-373 | returns `LinkedHandles` of the stored handles and columns |
| MText.RunPair | src/ezdxf/entities/mtext.py:460-478 | a key tag followed by a value tag performs exactly that one assignment |
| MText.RunHeights | src/ezdxf/entities/mtext.py:449-455 | with a pending count of n, n float tags are appended to heights in order and the count returns to 0 |
| MText.AssignWritten | src/ezdxf/entities/mtext.py:464-471 | each column type, auto height, count and flow key written by the encoder sets its own field to the encoded value |
| MText.AssignWrittenSizes | src/ezdxf/entities/mtext.py:472-477 | each width, gutter and height count key written by the encoder sets its own field or the pending height count to the encoded value |
| MText.RunInfoBody | src/ezdxf/entities/mtext.py:441-479 | the loader run over the encoded body ends idle with every encoded field recovered |
| MText.RunInfoHeights | src/ezdxf/entities/mtext.py:449-477 | the height part of the group is read back into exactly the written heights |
| MText.ColumnInfoRoundTrip | src/ezdxf/entities/mtext.py:333-479 | loading the column-info group recovers column type, auto height, count, flow, width and gutter, plus the heights for manual-height columns |
| MText.FindBeginEnd | src/ezdxf/entities/mtext.py:443-444 | a BEGIN marker before an END marker, where the END is the first END of the tags and no BEGIN lies between them |
| MText.LoadMTextColumnInfo | src/ezdxf/entities/mtext.py:441-480 | no group gives None; a value conversion failure is reported; otherwise a new MTextColumns holding exactly the parsed settings, with defined height, total width and total height 0 and no linked columns |
| MText.LoadTag | src/ezdxf/entities/mtext.py:451-478 | one pass of the loader loop: the columns object and the loop variables take exactly the loader state one tag step gives, or the step's conversion error is reported; the defined height, total width, total height and linked columns are left alone |
| MText.Handles1005 | src/ezdxf/entities/mtext.py:489-491 | keeps the values of code-1005 tags only |
| MText.LoadMTextLinkedColumnHandles | src/ezdxf/entities/mtext.py:482-493 | the loop computes the code-1005 values of the group in order, and gives [] without a group |
| MText.HandleTagsRead | src/ezdxf/entities/mtext.py:489-491 | reading the written handle tags gives the handles back |
| MText.LinkedHandlesRoundTrip | src/ezdxf/entities/mtext.py:349-357 | the loader recovers exactly the handles written into the columns group |
| MText.LoadMTextDefinedHeight | src/ezdxf/entities/mtext.py:495-516 | the loop computes the last 1040 value of the group, and 0.0 without a group |
| MText.DefinedHeightRoundTrip | src/ezdxf/entities/mtext.py:375-380 | the loader recovers the height written by the defined-height encoder |
| MText.Others | src/ezdxf/entities/mtext.py:686-692 | the passed-through tags carry neither code 1 nor code 3 |
| MText.SplitChunks | src/ezdxf/entities/mtext.py:698 | the chunks are non-empty, at most `size` long, and join to the text |
| MText.ContentTags | src/ezdxf/entities/mtext.py:699-703 | the last tag has code 1 and every tag before it has code 3; an empty chunk list gives a single tag |
| MText.OneTextTag | src/ezdxf/entities/mtext.py:699-703 | the content export holds exactly one code-1 tag |
| MText.ContentRoundTrip | src/ezdxf/entities/mtext.py:683-703 | loading the exported tags joins back to the chunked text and passes nothing through |
| MText.TailIgnoresStart | src/ezdxf/entities/mtext.py:684-688 | the code-1 tail is decided by the last code-1 tag, not by the initial empty value |
| MText.WriteContent | src/ezdxf/entities/mtext.py:699-703 | the pop loop writes exactly `ContentTags(chunks)` |
| MText.MText.constructor | src/ezdxf/entities/mtext.py:580-585 | a new MTEXT has empty text and no column setup |
| MText.MText.LoadMTextContent | src/ezdxf/entities/mtext.py:683-694 | yields the other tags in order; the text is the decoded join of the code-3 parts followed by the last code-1 value |
| MText.MText.ExportMTextContent | src/ezdxf/entities/mtext.py:696-703 | writes the content tags of the escaped text split into 250-character chunks |
| MText.MText.SetupColumns | src/ezdxf/entities/mtext.py:1034-1051 | an existing setup gives DXFStructureError and no change; otherwise the setup is stored, width and defined height are copied, total height and width are filled in when below 1e-6, and the text, handle, liveness and the columns' links stay |
| Graphics.CopyAttribs | ezdxf/graphicsfactory.py:22-23 | empty for None, otherwise the same key/value pairs; attributes are values, so the caller's dict is never mutated |
| Graphics.Pop | ezdxf/graphicsfactory.py:129 | returns the stored value or the default, and the map without the key |
| Graphics.SetBitSets | ezdxf/graphicsfactory.py:137 | or-ing a flag bit into an integer sets that bit |
| Graphics.SetBitKeeps | ezdxf/graphicsfactory.py:137 | or-ing a flag bit leaves every other bit unchanged |
| Graphics.SetBitIdempotent | ezdxf/graphicsfactory.py:137 | or-ing a bit that is already set changes nothing, so or-ing twice equals once |
| Graphics.SetBitCommutes | ezdxf/graphicsfactory.py:137-158 | or-ing two flag bits gives the same value in either order |
| Graphics.SetBitGrows | ezdxf/graphicsfactory.py:137 | or-ing a bit never decreases the value and keeps it non-negative |
| Graphics.FlagValues | ezdxf/graphicsfactory.py:137-158 | the three bit positions are the flag values 8, 16 and 64 |
| Graphics.WithFlag | ezdxf/graphicsfactory.py:137 | succeeds exactly for absent or integer flags, and then stores integer flags |
| Graphics.WithFlagSpec | ezdxf/graphicsfactory.py:135-138 | succeeds exactly when flags are absent or an integer; sets the bit, keeps all other bits and all other attributes; otherwise the TypeError of `|` |
| Graphics.WithFlagTwice | ezdxf/graphicsfactory.py:135-138 | adding the same flag twice equals adding it once |
| Graphics.SupportsLater | ezdxf/graphicsfactory.py:191-193 | a version that passes a gate keeps passing it for every later version |
| Graphics.Supports | ezdxf/graphicsfactory.py:191-193 | `not version < release` holds exactly for that release and every later one |
| Graphics.ReleaseOrder | ezdxf/graphicsfactory.py:191-193 | the version strings AC1009 < AC1015 < AC1018 < AC1021 < AC1024 < AC1027 < AC1032 are ordered as releases |
| Graphics.R2000Gate | ezdxf/graphicsfactory.py:191-193 | R12 fails the R2000 gate and R2000, R2004 and R2018 pass it; R2004 fails the R2007 gate and R2007 passes it |
| Graphics.R2007SupportsR2000 | ezdxf/graphicsfactory.py:361-388 | a version that passes the surface gate also passes the gate of the inner ACIS call |
| Graphics.FourPoints | ezdxf/graphicsfactory.py:172-180 | succeeds exactly for 3 or 4 points, giving 4 points: the inputs in order with the last repeated for 3; otherwise DXFValueError("3 or 4 points required.") |
| Graphics.ArcAttribs | ezdxf/graphicsfactory.py:57-68 | sets center and radius, and stores the angles as given when counter-clockwise and swapped otherwise; other attributes unchanged |
| Graphics.ClockwiseArc | ezdxf/graphicsfactory.py:62-67 | a clockwise arc has the attributes of the counter-clockwise arc with swapped angles |
| Graphics.TextAttribs | ezdxf/graphicsfactory.py:79-83 | always sets the text, sets insert to (0, 0) only when missing, and keeps every other attribute |
| Graphics.TextAttribsTwice | ezdxf/graphicsfactory.py:79-83 | shaping twice keeps only the last text |
| Graphics.MeshCount | ezdxf/graphicsfactory.py:143-144 | `max(size, 2)` |
| Graphics.EllipseAttribs | ezdxf/graphicsfactory.py:208-214 | sets the five ellipse parameters and keeps every other attribute |
| Graphics.GraphicsFactory.constructor | ezdxf/graphicsfactory.py:30-35 | a factory with the given DXF version and no entities |
| Graphics.GraphicsFactory.BuildAndAddEntity | ezdxf/graphicsfactory.py:37-38 | appends one fresh entity with the given type and attributes |
| Graphics.GraphicsFactory.AddArc | ezdxf/graphicsfactory.py:57-68 | adds one ARC with `ArcAttribs` of a copy of the caller's attributes |
| Graphics.GraphicsFactory.AddText | ezdxf/graphicsfactory.py:79-83 | adds one TEXT with `TextAttribs` of a copy of the caller's attributes |
| Graphics.GraphicsFactory.AddQuadrilateral | ezdxf/graphicsfactory.py:165-170 | adds the entity first; with 3 or 4 points it assigns vertices 0 to 3 from `FourPoints`, otherwise it returns the DXFValueError and the entity stays in the layout without vertices |
| Graphics.GraphicsFactory.AddSolid | ezdxf/graphicsfactory.py:70-71 | adds a fresh SOLID with a copy of the attributes; with 3 or 4 points it assigns vertices 0 to 3 from `FourPoints`, otherwise it returns the DXFValueError and the entity stays without vertices |
| Graphics.GraphicsFactory.AddTrace | ezdxf/graphicsfactory.py:73-74 | adds a fresh TRACE with a copy of the attributes; with 3 or 4 points it assigns vertices 0 to 3 from `FourPoints`, otherwise it returns the DXFValueError and the entity stays without vertices |
| Graphics.GraphicsFactory.Add3dFace | ezdxf/graphicsfactory.py:76-77 | adds a fresh 3DFACE with a copy of the attributes; with 3 or 4 points it assigns vertices 0 to 3 from `FourPoints`, otherwise it returns the DXFValueError and the entity stays without vertices |
| Graphics.GraphicsFactory.AddPolyline2d | ezdxf/graphicsfactory.py:127-133 | adds a POLYLINE without the closed attribute, then closes it with the popped value and appends the points |
| Graphics.GraphicsFactory.AddPolyline3d | ezdxf/graphicsfactory.py:127-138 | fails with the TypeError of `|` on non-integer flags and adds nothing; otherwise a POLYLINE with the 3D flag or-ed into the flags, closed with the popped value and then given the points |
| Graphics.GraphicsFactory.AddPolymesh | ezdxf/graphicsfactory.py:140-154 | or-s the mesh flag, sets m_count and n_count to the clamped sizes, appends exactly m_count × n_count origin vertices and closes with the popped m_close and n_close |
| Graphics.GraphicsFactory.AddPolyface | ezdxf/graphicsfactory.py:156-163 | or-s the polyface flag and closes with the popped m_close and n_close |
| Graphics.GraphicsFactory.AddLWPolyline | ezdxf/graphicsfactory.py:191-199 | before R2000 gives DXFVersionError and adds nothing; otherwise an LWPOLYLINE with the points set and closed set from the popped value |
| Graphics.GraphicsFactory.AddEllipse | ezdxf/graphicsfactory.py:201-214 | the version gate comes first, then ratio > 1 gives DXFValueError, each adding nothing; otherwise an ELLIPSE with `EllipseAttribs` |
| Graphics.GraphicsFactory.AddMText | ezdxf/graphicsfactory.py:216-222 | gated to R2000; adds an MTEXT and sets its text |
| Graphics.GraphicsFactory.AddRayOrXLine | ezdxf/graphicsfactory.py:224-238 | gated to R2000; adds a RAY or XLINE with start and unit vector |
| Graphics.GraphicsFactory.AddSpline | ezdxf/graphicsfactory.py:240-262 | gated to R2000; adds a SPLINE with the degree and sets the fit points only when given |
| Graphics.GraphicsFactory.AddAcisEntity | ezdxf/graphicsfactory.py:352-393 | gated to R2000 with the entity's name in the message; sets the ACIS data only when given |
| Graphics.GraphicsFactory.AddSurface | ezdxf/graphicsfactory.py:361-384 | gated to R2007 with each surface's own name in the message, then the ACIS entity of the surface type |
| Graphics.GraphicsFactory.AddHatch | ezdxf/graphicsfactory.py:395-402 | gated to R2000; a solid-fill HATCH with pattern SOLID and the given color |
| Graphics.GraphicsFactory.AddMesh | ezdxf/graphicsfactory.py:404-408 | gated to R2000; adds a MESH |
| Graphics.GraphicsFactory.AddUnderlay | ezdxf/graphicsfactory.py:441-454 | gated to R2000; adds the definition's underlay type with insert, definition handle, rotation and scale, and registers the new handle as a reactor of the definition |

## Left out

- Numbers are unbounded integers and exact reals. Floating-point rounding is not modelled; the 1e-6 thresholds of `setup_columns` are compared as written.
- Tag values are typed (`Value`). Readers that the source annotates as text or float take that typing as a precondition (`HandlesAreText`, `XDictHandleIsText`, `HeightsAreFloat`, `ContentIsText`), as the tag reader delivers it.
- MText.LoadMTextColumnInfo: a text value under an integer or float key is reported as an error at the key. Python's `int()` would parse a numeric string and would store a text width as it is.
- MText.FindBeginEnd stands in for `find_begin_and_end_of_encoded_xdata_tags`. It finds the first END marker and the last BEGIN marker before it, and gives nothing when no BEGIN precedes the first END (so `[END, BEGIN, END]` gives nothing). The real search is not part of this model; the round trips use it only on well-framed groups, where both readings agree.
- MText.SplitChunks stands in for `split_mtext_string`. It cuts fixed 250-character chunks, without the caret-aware split.
- `caret_decode` and `escape_dxf_line_endings` are uninterpreted function fields of the MText object.
- Not modelled from mtext.py: `MTextColumns.copy`, `update_total_height`, `link_columns`, `transform`, the column-count inference, the embedded R2018 object, and `_create_linked_columns`. The asserts of `setup_columns` are preconditions.
- Tables.Table.ExportDxf records only the head update and the final ENDTAB. The serialisation of the head and the entries belongs to those entities, which are not part of this model.
- Not modelled from table.py: `duplicate_entry`, the `add` methods of the layer, linetype, style, viewport and other tables, `StyleTable.add`, and the per-table `new_entry` overrides. Entry creation in `factory.create_db_entry` is a fresh entry.
- Tables.Table.New: the caller's attribute dict is not mutated, as it would be in Python.
- Tables.StyleTable.AddShx: an entry's font falls back to "txt" when unset. A second nameless shape-file entry replaces the first under key "", as `_append` does.
- Tables.Table.Iter and Tables.ViewportTable.Iter return sequences instead of lazy generators.
- EntityAppData.AppData.Add reports an empty pairs list as IndexError, the error `data[0]` raises.
- EntityAppData.ExtensionDict.Get requires an owner unless the dictionary is already resolved. Without one, Python raises AttributeError.
- What the entity database returns for a dangling handle is not modelled; it is an arbitrary dictionary object.
- `clone` of a resolved dictionary is a fresh dictionary with the same handle and owner. Its other contents are not modelled.
- Graphics: Python `False` defaults are modelled as `Int(0)`. The flag values 8, 16 and 64 are written as bit positions 3, 4 and 6. Only integer flags are or-ed; a boolean is not treated as an integer.
- Not modelled from graphicsfactory.py:
  - `add_point`, `add_line`, `add_circle`, `add_blockref`, `add_auto_blockref`, `add_attrib` and `add_shape`, which are plain attribute assignments like `add_text`;
  - the spline helpers `add_spline_control_frame`, `add_spline_approx` and the open, closed and rational splines (B-spline math in the algebra package);
  - `add_image` (trigonometry);
  - `render_dimension`, the dimension and arrow methods.
- `polymesh.cast()` and `polyface.cast()` return the same entity.
- Strings.Lower and Strings.Upper fold only ASCII letters. Python's `str.lower` and `str.upper` fold every Unicode letter, so names such as "Ärger" and "ärger" are one key in ezdxf but two in Tables.TableKey, Tables.Key, Tables.TableName and Tables.StyleTable.FindShx.
- Tables.Table.Append: the type assertion of `_append` is a precondition. Every caller in the model (load, new, add_entry, add_shx) already passes an entry of the table's type. Tables.Table.Replace, the one caller that can pass another type, reports the AssertionError after discarding the old name.
- The `logger.warning` of `Table.load` for a skipped entry (table.py:91-94) and the `logger.error` of `load_mtext_column_info` for missing column heights (mtext.py:456-458) are not modelled; logging changes no state.
- EntityAppData.ParseXDict: the error message ends with the owner's handle. Python appends `str(entity)`, whose format belongs to the entity class, which is not part of this model.
