/**
 * The symbol tables of the TABLES section (src/ezdxf/sections/table.py):
 * an insertion-ordered map from a case-insensitive entry name to a table
 * entry, the shape-file lookups of the STYLE table, and the VPORT table
 * that keeps a list of entries per name.
 */
module Tables {
  import opened Tags
  import opened Strings
  import opened Collections

  // ------------------------------------------------------------ table names

  /** The attribute names of the nine table types whose plural is not just `+ "S"`. */
  const TABLENAMES: map<string, string> := map[
    "LAYER" := "LAYERS",
    "LTYPE" := "LINETYPES",
    "APPID" := "APPIDS",
    "DIMSTYLE" := "DIMSTYLES",
    "STYLE" := "STYLES",
    "UCS" := "UCS",
    "VIEW" := "VIEWS",
    "VPORT" := "VIEWPORTS",
    "BLOCK_RECORD" := "BLOCK_RECORDS"
  ]

  /** `tablename`: the table's attribute name for a DXF table type. */
  function TableName(dxfname: string): (r: string)
    ensures Upper(dxfname) in TABLENAMES ==> r == TABLENAMES[Upper(dxfname)]
    ensures Upper(dxfname) !in TABLENAMES ==> r == Upper(dxfname) + "S"
  {
    var name := Upper(dxfname);
    if name in TABLENAMES then TABLENAMES[name] else name + "S"
  }

  /** The table name does not depend on the case of the table type. */
  lemma TableNameIgnoresCase(dxfname: string)
    ensures TableName(Lower(dxfname)) == TableName(dxfname)
    ensures TableName(Upper(dxfname)) == TableName(dxfname)
  {
    UpperOfLower(dxfname);
    assert Upper(Upper(dxfname)) == Upper(dxfname) by {
      assert forall i :: 0 <= i < |dxfname| ==> UpperChar(UpperChar(dxfname[i])) == UpperChar(dxfname[i]);
    }
  }

  /** Known and unknown table types, on examples. */
  lemma TableNameExamples()
    ensures TableName("layer") == "LAYERS"
    ensures TableName("Vport") == "VIEWPORTS"
    ensures TableName("UCS") == "UCS"
    ensures TableName("block") == "BLOCKS"
  {
    assert Upper("layer") == "LAYER";
    assert Upper("Vport") == "VPORT";
    assert Upper("UCS") == "UCS";
    assert Upper("block") == "BLOCK";
  }

  /** The key of a table entry name. */
  function Key(name: string): string
  {
    Lower(name)
  }

  /** `table_key`: text is lower-cased, anything else is a `TypeError`. */
  function TableKey(name: Value): (r: Result<string>)
    ensures r.Ok? <==> name.Str?
    ensures r.Ok? ==> r.value == Key(name.s) && Key(r.value) == r.value
    ensures r.Err? ==> r.error == TypeError("Name has to be a string.")
  {
    LowerIdempotent(if name.Str? then name.s else "");
    if name.Str? then Ok(Lower(name.s)) else Err(TypeError("Name has to be a string."))
  }

  /** Names that differ only in the case of ASCII letters have the same key. */
  lemma KeyIgnoresCase(name: string)
    ensures Key(Upper(name)) == Key(name) && Key(Lower(name)) == Key(name)
  {
    LowerOfUpper(name);
    LowerIdempotent(name);
  }

  // --------------------------------------------------------------- entries

  /** Default `font` attribute of a text style entry. */
  const DEFAULT_FONT: string := "txt"

  /** The document, seen from a table: the entity database entries are deleted from. */
  class Drawing {
    var deleted: seq<TableEntry>

    constructor ()
      ensures deleted == []
    {
      deleted := [];
    }

    /** `entitydb.delete_entity(entry)`: the entry is destroyed. */
    method DeleteEntity(entry: TableEntry)
      modifies this, entry
      ensures deleted == old(deleted) + [entry]
      ensures !entry.isAlive
      ensures entry.owner == old(entry.owner) && entry.doc == old(entry.doc)
    {
      deleted := deleted + [entry];
      entry.isAlive := false;
    }
  }

  /** A table entry (LAYER, STYLE, VPORT, ...) as a table sees it. */
  class TableEntry {
    const dxftype: string
    const name: string
    const attribs: Attribs
    var owner: Option<string>
    var doc: Option<Drawing>
    var isAlive: bool

    constructor (dxftype: string, name: string, attribs: Attribs, owner: Option<string>, doc: Option<Drawing>)
      ensures this.dxftype == dxftype && this.name == name && this.attribs == attribs
      ensures this.owner == owner && this.doc == doc && isAlive
    {
      this.dxftype := dxftype;
      this.name := name;
      this.attribs := attribs;
      this.owner := owner;
      this.doc := doc;
      isAlive := true;
    }

    /** `dxf.font`, with its default when unset. */
    function Font(): string
    {
      if "font" in attribs && attribs["font"].Str? then attribs["font"].s else DEFAULT_FONT
    }
  }

  /** The entries of `es` that are alive, in order. */
  function AliveOf(es: seq<TableEntry>): (r: seq<TableEntry>)
    reads set e | e in es
    ensures forall i :: 0 <= i < |r| ==> r[i] in es && r[i].isAlive
    ensures forall i :: 0 <= i < |es| && es[i].isAlive ==> es[i] in r
    ensures |r| <= |es|
    ensures (forall i :: 0 <= i < |es| ==> es[i].isAlive) ==> r == es
  {
    if es == [] then []
    else (if es[0].isAlive then [es[0]] else []) + AliveOf(es[1..])
  }

  /** Filtering keeps the order: the live entries of `a + b` are those of `a` followed by those of `b`. */
  lemma {:induction false} AliveOfConcat(a: seq<TableEntry>, b: seq<TableEntry>)
    ensures AliveOf(a + b) == AliveOf(a) + AliveOf(b)
  {
    if a != [] {
      assert (a + b)[1..] == a[1..] + b;
      AliveOfConcat(a[1..], b);
      AppendAssoc(if a[0].isAlive then [a[0]] else [], AliveOf(a[1..]), AliveOf(b));
    } else {
      assert a + b == b;
    }
  }

  /**
   * Storing an entry under a new name puts it, when alive, after all live
   * entries; storing it under an existing name puts it in that name's place.
   */
  lemma AlivePut(d: ODict<string, TableEntry>, k: string, e: TableEntry)
    requires d.Valid()
    ensures k !in d.m ==> AliveOf(d.Put(k, e).Values()) == AliveOf(d.Values()) + AliveOf([e])
    ensures forall i :: 0 <= i < |d.keys| && d.keys[i] == k ==>
      AliveOf(d.Put(k, e).Values()) == AliveOf(d.Values()[..i]) + AliveOf([e]) + AliveOf(d.Values()[i + 1..])
  {
    var vs := d.Values();
    if k !in d.m {
      PutNewValues(d, k, e);
      AliveOfConcat(vs, [e]);
    }
    forall i | 0 <= i < |d.keys| && d.keys[i] == k
      ensures AliveOf(d.Put(k, e).Values()) == AliveOf(vs[..i]) + AliveOf([e]) + AliveOf(vs[i + 1..])
    {
      PutExistingValues(d, i, e);
      assert vs[i := e] == vs[..i] + [e] + vs[i + 1..];
      AliveOfConcat(vs[..i] + [e], vs[i + 1..]);
      AliveOfConcat(vs[..i], [e]);
    }
  }

  /** The entries a name-to-entry dictionary stores. */
  function StoredEntries(d: ODict<string, TableEntry>): set<TableEntry>
  {
    set k | k in d.m :: d.m[k]
  }

  /** The live values of a name-to-entry dictionary are exactly its live stored entries. */
  lemma AliveValues(d: ODict<string, TableEntry>)
    requires d.Valid()
    ensures forall e :: e in d.Values() ==> e in StoredEntries(d)
    ensures forall i :: 0 <= i < |AliveOf(d.Values())| ==> AliveOf(d.Values())[i] in StoredEntries(d)
    ensures forall k :: k in d.m && d.m[k].isAlive ==> d.m[k] in AliveOf(d.Values())
  {
    var values := d.Values();
    forall e | e in values
      ensures e in StoredEntries(d)
    {
      var j :| 0 <= j < |values| && values[j] == e;
      assert d.keys[j] in d.m;
    }
    forall k | k in d.m && d.m[k].isAlive
      ensures d.m[k] in AliveOf(values)
    {
      var i :| 0 <= i < |d.keys| && d.keys[i] == k;
      assert values[i] == d.m[k];
    }
  }

  /** The table head (the TABLE entity): its type name, handle, owner and entry count. */
  datatype TableHead = TableHead(name: string, handle: Option<string>, owner: string, count: int)

  /** What the table loader is given: the head first, then the entries. */
  datatype LoadItem = HeadItem(head: TableHead) | EntryItem(entry: TableEntry)

  /** An item the loader keeps for a table of entry type `dxftype`. */
  predicate Matches(item: LoadItem, dxftype: string)
  {
    item.EntryItem? && item.entry.dxftype == dxftype
  }

  const STRUCTURE_ERROR: string := "Critical structure error in TABLES section."

  // ----------------------------------------------------------------- Table

  /** The entries a table keeps from a sequence of loaded items, each under the key of its name. */
  function Loaded(items: seq<LoadItem>, dxftype: string): (r: ODict<string, TableEntry>)
    ensures r.Valid()
    ensures forall k :: k in r.m ==> Key(r.m[k].name) == k && r.m[k].dxftype == dxftype
    decreases |items|
  {
    if items == [] then Empty()
    else
      var d := Loaded(items[..|items| - 1], dxftype);
      var item := items[|items| - 1];
      if Matches(item, dxftype) then d.Put(Key(item.entry.name), item.entry) else d
  }

  /** Loading one more item puts a matching entry under its key and skips any other item. */
  lemma LoadedStep(items: seq<LoadItem>, i: nat, dxftype: string)
    requires i < |items|
    ensures Loaded(items[..i + 1], dxftype) ==
      if Matches(items[i], dxftype) then Loaded(items[..i], dxftype).Put(Key(items[i].entry.name), items[i].entry)
      else Loaded(items[..i], dxftype)
  {
    TakeNext(items, i);
    assert items[..i + 1][..i] == items[..i];
  }

  /** A name is in a loaded table iff a matching entry of that name was loaded, and the last one wins. */
  lemma {:induction false} LoadedKeepsLast(items: seq<LoadItem>, dxftype: string, k: string)
    ensures k in Loaded(items, dxftype).m <==>
      exists i :: 0 <= i < |items| && Matches(items[i], dxftype) && Key(items[i].entry.name) == k
    ensures k in Loaded(items, dxftype).m ==>
      exists i :: && 0 <= i < |items| && Matches(items[i], dxftype) && Key(items[i].entry.name) == k
                  && items[i].entry == Loaded(items, dxftype).m[k]
                  && forall j :: i < j < |items| ==> !(Matches(items[j], dxftype) && Key(items[j].entry.name) == k)
    decreases |items|
  {
    if items != [] {
      var n := |items| - 1;
      var init := items[..n];
      var d, r := Loaded(init, dxftype), Loaded(items, dxftype);
      LoadedKeepsLast(init, dxftype, k);
      forall i | 0 <= i < n
        ensures items[i] == init[i]
      {
      }
      if Matches(items[n], dxftype) && Key(items[n].entry.name) == k {
        assert r.m == d.m[k := items[n].entry];
      } else {
        assert k in r.m <==> k in d.m;
        if k in d.m {
          var i :| && 0 <= i < n && Matches(init[i], dxftype) && Key(init[i].entry.name) == k
                   && init[i].entry == d.m[k]
                   && forall j :: i < j < n ==> !(Matches(init[j], dxftype) && Key(init[j].entry.name) == k);
          assert r.m[k] == d.m[k];
        }
      }
    }
  }

  /**
   * A symbol table: the head and the entries keyed by the lower-cased
   * entry name, in insertion order.
   */
  class Table {
    const doc: Drawing
    var head: TableHead
    var entries: ODict<string, TableEntry>

    ghost predicate Valid()
      reads this
    {
      && entries.Valid()
      && forall k :: k in entries.m ==> Key(entries.m[k].name) == k && entries.m[k].dxftype == head.name
    }

    /** The entry objects of the table. */
    function Entries(): set<TableEntry>
      reads this
    {
      StoredEntries(entries)
    }

    /** `Table.new_table(name, handle, doc)`. */
    constructor (name: string, handle: Option<string>, doc: Drawing)
      ensures Valid()
      ensures this.doc == doc && head == TableHead(name, handle, "0", 0) && entries == Empty()
    {
      this.doc := doc;
      head := TableHead(name, handle, "0", 0);
      entries := Empty();
    }

    /**
     * `Table(doc, entities)`: the first item must be the head; of the
     * remaining items those of the head's entry type are appended, the
     * others are skipped.
     */
    static method Load(doc: Drawing, items: seq<LoadItem>) returns (r: Result<Table>)
      ensures items == [] ==> r == Err(StopIteration)
      ensures items != [] && !items[0].HeadItem? ==> r == Err(DXFStructureError(STRUCTURE_ERROR))
      ensures items != [] && items[0].HeadItem? ==>
        && r.Ok? && fresh(r.value) && r.value.Valid()
        && r.value.doc == doc && r.value.head == items[0].head
        && r.value.entries == Loaded(items[1..], items[0].head.name)
    {
      if items == [] {
        return Err(StopIteration);
      }
      if !items[0].HeadItem? {
        return Err(DXFStructureError(STRUCTURE_ERROR));
      }
      var t := new Table("", None, doc);
      t.head := items[0].head;
      var rest := items[1..];
      for i := 0 to |rest|
        invariant t.Valid() && t.head == items[0].head && t.doc == doc
        invariant t.entries == Loaded(rest[..i], t.head.name)
      {
        LoadedStep(rest, i, t.head.name);
        if rest[i].EntryItem? && rest[i].entry.dxftype == t.head.name {
          t.Append(rest[i].entry);
        }
      }
      assert rest[..|rest|] == rest;
      r := Ok(t);
    }

    /** `has_entry(name)`: some stored entry has that name, ignoring case. */
    predicate HasEntry(name: string)
      reads this
      ensures Valid() ==> (HasEntry(name) <==> exists e :: e in Entries() && Key(e.name) == Key(name))
    {
      assert Key(name) in entries.m ==> entries.m[Key(name)] in Entries();
      Key(name) in entries.m
    }

    /** `len(table)`: the number of names. */
    function Len(): nat
      reads this
      ensures Valid() ==> Len() == |entries.m|
    {
      LenIsCard(entries);
      entries.Len()
    }

    /** `iter(table)`: the live entries in insertion order. */
    function Iter(): (r: seq<TableEntry>)
      reads this, Entries()
      requires Valid()
      ensures r == AliveOf(entries.Values())
      ensures forall i :: 0 <= i < |r| ==> r[i] in Entries() && r[i].isAlive
      ensures forall k :: k in entries.m && entries.m[k].isAlive ==> entries.m[k] in r
    {
      AliveValues(entries);
      AliveOf(entries.Values())
    }

    function Get(name: string): (r: Result<TableEntry>)
      reads this
      requires Valid()
      ensures r.Ok? <==> HasEntry(name)
      ensures r.Ok? ==> r.value in Entries() && Key(r.value.name) == Key(name)
      ensures r.Err? ==> r.error == DXFTableEntryError(name)
    {
      if Key(name) in entries.m then Ok(entries.m[Key(name)]) else Err(DXFTableEntryError(name))
    }

    /** `_append`: stores the entry under the key of its name, replacing any entry of that key. */
    method Append(entry: TableEntry)
      requires Valid() && entry.dxftype == head.name
      modifies this
      ensures Valid() && head == old(head)
      ensures entries == old(entries).Put(Key(entry.name), entry)
    {
      entries := entries.Put(Key(entry.name), entry);
    }

    /** `new(name, dxfattribs)`: a new entry owned by the table, unless the name exists. */
    method New(name: string, attribs: Attribs) returns (r: Result<TableEntry>)
      requires Valid()
      modifies this
      ensures Valid() && head == old(head)
      ensures old(HasEntry(name)) ==>
        r == Err(DXFTableEntryError(head.name + " " + name + " already exists!")) && entries == old(entries)
      ensures !old(HasEntry(name)) ==>
        && r.Ok? && fresh(r.value)
        && r.value.dxftype == head.name && r.value.name == name && r.value.owner == head.handle
        && r.value.isAlive && r.value.doc == Some(doc)
        && entries == old(entries).Put(Key(name), r.value)
    {
      if HasEntry(name) {
        return Err(DXFTableEntryError(head.name + " " + name + " already exists!"));
      }
      var entry := new TableEntry(head.name, name, attribs, head.handle, Some(doc));
      Append(entry);
      r := Ok(entry);
    }

    /** `discard(name)`: drops the name; a missing name is a `KeyError`. */
    method Discard(name: string) returns (r: Result<()>)
      requires Valid()
      modifies this
      ensures Valid() && head == old(head)
      ensures r.Ok? <==> old(HasEntry(name))
      ensures r.Err? ==> r.error == KeyError(Key(name)) && entries == old(entries)
      ensures entries == old(entries).Remove(Key(name))
    {
      if !HasEntry(name) {
        return Err(KeyError(Key(name)));
      }
      entries := entries.Remove(Key(name));
      r := Ok(());
    }

    /** `remove(name)`: deletes the entry from the database and drops its name. */
    method Remove(name: string) returns (r: Result<()>)
      requires Valid()
      modifies this, doc, Entries()
      ensures Valid() && head == old(head)
      ensures r.Ok? <==> old(HasEntry(name))
      ensures r.Err? ==> r.error == DXFTableEntryError(name) && entries == old(entries) && unchanged(doc)
      ensures r.Err? ==> unchanged(old(Entries()))
      ensures r.Ok? ==>
        && var e := old(entries.m[Key(name)]);
        && !e.isAlive && doc.deleted == old(doc.deleted) + [e]
        && entries == old(entries).Remove(Key(name))
        && forall x :: x in old(Entries()) && x != e ==> unchanged(x)
    {
      var found := Get(name);
      if found.Err? {
        return Err(found.error);
      }
      doc.DeleteEntity(found.value);
      r := Discard(Key(name));
      LowerIdempotent(name);
    }

    /**
     * `replace(name, entry)`: `discard(name)` followed by `_append(entry)`.
     * The type assertion of `_append` fires after the old name is gone.
     */
    method Replace(name: string, entry: TableEntry) returns (r: Result<()>)
      requires Valid()
      modifies this
      ensures Valid() && head == old(head)
      ensures r.Ok? <==> old(HasEntry(name)) && entry.dxftype == head.name
      ensures !old(HasEntry(name)) ==> r == Err(KeyError(Key(name))) && entries == old(entries)
      ensures old(HasEntry(name)) && entry.dxftype != head.name ==>
        r == Err(AssertionError) && entries == old(entries).Remove(Key(name))
      ensures r.Ok? ==> entries == old(entries).Remove(Key(name)).Put(Key(entry.name), entry)
    {
      r := Discard(name);
      if r.Ok? {
        if entry.dxftype != head.name {
          return Err(AssertionError);
        }
        Append(entry);
      }
    }

    /** `add_entry(entry)`: adopts an entry created elsewhere. */
    method AddEntry(entry: TableEntry) returns (r: Result<()>)
      requires Valid()
      modifies this, entry
      ensures Valid() && head == old(head)
      ensures entry.dxftype != head.name ==>
        && r == Err(DXFTypeError("Invalid table entry type " + entry.dxftype + " for table " + TableName(head.name)))
        && entries == old(entries) && unchanged(entry)
      ensures entry.dxftype == head.name && old(HasEntry(entry.name)) ==>
        && r == Err(DXFTableEntryError(head.name + " " + entry.name + " already exists!"))
        && entries == old(entries) && unchanged(entry)
      ensures entry.dxftype == head.name && !old(HasEntry(entry.name)) ==>
        && r.Ok? && entry.doc == Some(doc) && entry.owner == head.handle && entry.isAlive == old(entry.isAlive)
        && entries == old(entries).Put(Key(entry.name), entry)
    {
      if entry.dxftype != head.name {
        return Err(DXFTypeError("Invalid table entry type " + entry.dxftype + " for table " + TableName(head.name)));
      }
      if HasEntry(entry.name) {
        return Err(DXFTableEntryError(head.name + " " + entry.name + " already exists!"));
      }
      entry.doc := Some(doc);
      entry.owner := head.handle;
      Append(entry);
      r := Ok(());
    }

    /** `update_owner_handles`: every entry is owned by the table head's handle. */
    method UpdateOwnerHandles()
      requires Valid()
      modifies Entries()
      ensures forall e :: e in Entries() ==> e.owner == head.handle
      ensures forall e :: e in Entries() ==> e.isAlive == old(e.isAlive) && e.doc == old(e.doc)
    {
      var values := entries.Values();
      for i := 0 to |values|
        invariant forall j :: 0 <= j < i ==> values[j].owner == head.handle
        invariant forall e :: e in Entries() ==> e.isAlive == old(e.isAlive) && e.doc == old(e.doc)
      {
        assert values[i] == entries.m[entries.keys[i]];
        values[i].owner := head.handle;
      }
      forall e | e in Entries()
        ensures e.owner == head.handle
      {
        var k :| k in entries.m && entries.m[k] == e;
        var i :| 0 <= i < |entries.keys| && entries.keys[i] == k;
        assert values[i] == e;
      }
    }

    /** `set_handle(handle)`: only a table without a handle takes one, and passes it to its entries. */
    method SetHandle(handle: string)
      requires Valid()
      modifies this, Entries()
      ensures Valid() && entries == old(entries)
      ensures old(head.handle).Some? ==> head == old(head) && unchanged(Entries())
      ensures old(head.handle).None? ==>
        && head == old(head).(handle := Some(handle))
        && forall e :: e in Entries() ==> e.owner == Some(handle)
      ensures forall e :: e in Entries() ==> e.isAlive == old(e.isAlive) && e.doc == old(e.doc)
    {
      if head.handle.None? {
        head := head.(handle := Some(handle));
        UpdateOwnerHandles();
      }
    }

    /**
     * The table-level part of `export_dxf`: entries are owned by the head,
     * the head is owned by "0" and counts the entries, and the table ends
     * with `(0, ENDTAB)`. The head and the entries write their own tags.
     */
    method ExportDxf(w: TagWriter)
      requires Valid()
      modifies this, Entries(), w
      ensures Valid() && entries == old(entries)
      ensures head == old(head).(owner := "0", count := old(Len()))
      ensures forall e :: e in Entries() ==> e.owner == head.handle
      ensures forall e :: e in Entries() ==> e.isAlive == old(e.isAlive) && e.doc == old(e.doc)
      ensures w.written == old(w.written) + [Tag(0, Str("ENDTAB"))]
    {
      UpdateOwnerHandles();
      head := head.(owner := "0", count := Len());
      w.WriteTag2(0, Str("ENDTAB"));
    }
  }

  /** `get`, `has_entry` and `discard` see only the key, so they ignore the case of the name. */
  lemma GetIgnoresCase(t: Table, name: string)
    requires t.Valid()
    ensures t.Get(Upper(name)) == (if t.HasEntry(name) then Ok(t.Get(name).value) else Err(DXFTableEntryError(Upper(name))))
    ensures t.HasEntry(Lower(name)) == t.HasEntry(name)
  {
    KeyIgnoresCase(name);
  }

  /** Inserting under a new name adds one entry; overwriting keeps the count. */
  lemma PutLen(d: ODict<string, TableEntry>, k: string, e: TableEntry)
    requires d.Valid()
    ensures d.Put(k, e).Len() == if k in d.m then d.Len() else d.Len() + 1
  {
  }

  // ------------------------------------------------------------ StyleTable

  /** The position of the first entry whose font, lower-cased, is `font`; `|es|` when there is none. */
  function FirstFontIndex(es: seq<TableEntry>, font: string): (i: nat)
    ensures i <= |es|
    ensures i < |es| ==> Lower(es[i].Font()) == font
    ensures forall j :: 0 <= j < i ==> Lower(es[j].Font()) != font
  {
    if es == [] || Lower(es[0].Font()) == font then 0
    else 1 + FirstFontIndex(es[1..], font)
  }

  /** The first entry whose font, lower-cased, is `font`. */
  function FirstWithFont(es: seq<TableEntry>, font: string): (r: Option<TableEntry>)
    ensures r.Some? <==> exists i :: 0 <= i < |es| && Lower(es[i].Font()) == font
    ensures r.Some? ==> exists i :: && 0 <= i < |es| && es[i] == r.value && Lower(r.value.Font()) == font
                                    && forall j :: 0 <= j < i ==> Lower(es[j].Font()) != font
  {
    var i := FirstFontIndex(es, font);
    if i < |es| then Some(es[i]) else None
  }

  /** The message of the error `add_shx` raises for a file that already has an entry. */
  function ShxExists(tableName: string, shxFile: string): string
  {
    tableName + " shape file entry for '" + shxFile + "' already exists!"
  }

  /** The STYLE table, with its shape-file (SHX) entries that have no name and are found by font. */
  class StyleTable {
    const table: Table

    ghost predicate Valid()
      reads this, table
    {
      table.Valid() && table.head.name == "STYLE"
    }

    constructor (table: Table)
      requires table.Valid() && table.head.name == "STYLE"
      ensures Valid() && this.table == table
    {
      this.table := table;
    }

    /** `find_shx(shx_file)`: the first live entry whose font matches, ignoring case. */
    function FindShx(shxFile: string): (r: Option<TableEntry>)
      reads this, table, table.Entries()
      requires Valid()
      ensures r.Some? ==> r.value in table.Entries() && r.value.isAlive && Lower(r.value.Font()) == Lower(shxFile)
      ensures r.None? <==> forall k :: k in table.entries.m && table.entries.m[k].isAlive ==>
                                      Lower(table.entries.m[k].Font()) != Lower(shxFile)
      ensures r == FirstWithFont(table.Iter(), Lower(shxFile))
    {
      var live := table.Iter();
      var r := FirstWithFont(live, Lower(shxFile));
      if r.None? then
        forall k | k in table.entries.m && table.entries.m[k].isAlive
          ensures Lower(table.entries.m[k].Font()) != Lower(shxFile)
        {
          var i :| 0 <= i < |live| && live[i] == table.entries.m[k];
        }
        r
      else
        var i :| 0 <= i < |live| && live[i] == r.value && Lower(r.value.Font()) == Lower(shxFile);
        assert live[i] in table.Entries();
        r
    }

    /**
     * `add_shx(shx_file)`: a new entry with an empty name, flag 1 and the
     * file as font, unless a live entry already has that font. All shape
     * files share the empty name, so the new entry takes the place of any
     * entry stored under it.
     */
    method AddShx(shxFile: string, attribs: Attribs) returns (r: Result<TableEntry>)
      requires Valid()
      modifies table
      ensures Valid() && table.head == old(table.head)
      ensures old(FindShx(shxFile)).Some? ==>
        && r == Err(DXFTableEntryError(ShxExists(table.head.name, shxFile)))
        && table.entries == old(table.entries)
      ensures old(FindShx(shxFile)).None? ==>
        && r.Ok? && fresh(r.value) && r.value.name == "" && r.value.Font() == shxFile
        && "flags" in r.value.attribs && r.value.attribs["flags"] == Int(1) && r.value.isAlive && r.value.owner == None
        && table.entries == old(table.entries).Put("", r.value)
    {
      if FindShx(shxFile).Some? {
        return Err(DXFTableEntryError(ShxExists(table.head.name, shxFile)));
      }
      var shxAttribs := attribs["name" := Str("")]["flags" := Int(1)]["font" := Str(shxFile)]["last_height" := Float(2.5 as real)];
      var entry := new TableEntry(table.head.name, "", shxAttribs, None, Some(table.doc));
      assert Key("") == "";
      table.Append(entry);
      r := Ok(entry);
    }

    /** `get_shx(shx_file)`: the existing entry for the file, or a new one. */
    method GetShx(shxFile: string) returns (e: TableEntry)
      requires Valid()
      modifies table
      ensures Valid() && table.head == old(table.head)
      ensures old(FindShx(shxFile)).Some? ==> e == old(FindShx(shxFile)).value && table.entries == old(table.entries)
      ensures old(FindShx(shxFile)).None? ==>
        && fresh(e) && e.name == "" && e.Font() == shxFile
        && table.entries == old(table.entries).Put("", e)
    {
      var found := FindShx(shxFile);
      if found.Some? {
        return found.value;
      }
      var added := AddShx(shxFile, map[]);
      e := added.value;
    }
  }

  // --------------------------------------------------------- ViewportTable

  /** The configurations a VPORT table keeps from loaded items: same-name entries share one list. */
  function LoadedConfigs(items: seq<LoadItem>, dxftype: string): (r: ODict<string, seq<TableEntry>>)
    ensures r.Valid()
    ensures forall k :: k in r.m ==> r.m[k] != [] && forall e :: e in r.m[k] ==> Key(e.name) == k && e.dxftype == dxftype
    decreases |items|
  {
    if items == [] then Empty()
    else
      var d := LoadedConfigs(items[..|items| - 1], dxftype);
      var item := items[|items| - 1];
      if Matches(item, dxftype) then AppendConfig(d, item.entry) else d
  }

  /** Loading one more item appends a matching entry to its configuration and skips any other item. */
  lemma LoadedConfigsStep(items: seq<LoadItem>, i: nat, dxftype: string)
    requires i < |items|
    ensures LoadedConfigs(items[..i + 1], dxftype) ==
      if Matches(items[i], dxftype) then AppendConfig(LoadedConfigs(items[..i], dxftype), items[i].entry)
      else LoadedConfigs(items[..i], dxftype)
  {
    TakeNext(items, i);
    assert items[..i + 1][..i] == items[..i];
  }

  /** The number of items the loader keeps for a table of entry type `dxftype`. */
  function MatchCount(items: seq<LoadItem>, dxftype: string): nat
    decreases |items|
  {
    if items == [] then 0
    else MatchCount(items[..|items| - 1], dxftype) + (if Matches(items[|items| - 1], dxftype) then 1 else 0)
  }

  /** A loaded VPORT table holds every matching item: none is lost to a name clash. */
  lemma {:induction false} LoadedConfigsLen(items: seq<LoadItem>, dxftype: string)
    ensures |Flatten(LoadedConfigs(items, dxftype).Values())| == MatchCount(items, dxftype)
    decreases |items|
  {
    if items != [] {
      var init := items[..|items| - 1];
      LoadedConfigsLen(init, dxftype);
      var item := items[|items| - 1];
      if Matches(item, dxftype) {
        AppendConfigLen(LoadedConfigs(init, dxftype), Key(item.entry.name), item.entry);
      }
    }
  }

  /** `ViewportTable._append` on the configuration map. */
  function AppendConfig(d: ODict<string, seq<TableEntry>>, entry: TableEntry): (r: ODict<string, seq<TableEntry>>)
    requires d.Valid()
    ensures r.Valid()
    ensures r.keys == if Key(entry.name) in d.m then d.keys else d.keys + [Key(entry.name)]
    ensures r.m == d.m[Key(entry.name) := if Key(entry.name) in d.m then d.m[Key(entry.name)] + [entry] else [entry]]
  {
    var k := Key(entry.name);
    if k in d.m then d.Put(k, d.m[k] + [entry]) else d.Put(k, [entry])
  }

  /** Appending one entry to a configuration adds exactly one to the flattened count. */
  lemma AppendConfigLen(d: ODict<string, seq<TableEntry>>, k: string, entry: TableEntry)
    requires d.Valid() && Key(entry.name) == k
    ensures |Flatten(AppendConfig(d, entry).Values())| == |Flatten(d.Values())| + 1
  {
    var r := AppendConfig(d, entry);
    if k in d.m {
      var i :| 0 <= i < |d.keys| && d.keys[i] == k;
      PutExistingValues(d, i, d.m[k] + [entry]);
      FlattenUpdateLen(d.Values(), i, entry);
    } else {
      PutNewValues(d, k, [entry]);
      FlattenAppend(d.Values(), [entry]);
    }
  }

  /** Growing one inner sequence by one element grows the flattening by one. */
  lemma {:induction false} FlattenUpdateLen<T>(ss: seq<seq<T>>, i: nat, x: T)
    requires i < |ss|
    ensures |Flatten(ss[i := ss[i] + [x]])| == |Flatten(ss)| + 1
  {
    if i > 0 {
      assert ss[i := ss[i] + [x]][1..] == ss[1..][i - 1 := ss[1..][i - 1] + [x]];
      FlattenUpdateLen(ss[1..], i - 1, x);
    } else {
      assert ss[i := ss[i] + [x]][1..] == ss[1..];
    }
  }

  /** Every configuration holds an entry, so there are at least as many entries as configurations. */
  lemma {:induction false} FlattenNonEmptyLen<T>(ss: seq<seq<T>>)
    requires forall i :: 0 <= i < |ss| ==> ss[i] != []
    ensures |Flatten(ss)| >= |ss|
    ensures |Flatten(ss)| == 0 <==> ss == []
  {
    if ss != [] {
      FlattenNonEmptyLen(ss[1..]);
    }
  }

  /** Every configuration is a non-empty list of entries of its own name. */
  ghost predicate ConfigsValid(d: ODict<string, seq<TableEntry>>)
  {
    && d.Valid()
    && forall k :: k in d.m ==> d.m[k] != [] && forall e :: e in d.m[k] ==> Key(e.name) == k
  }

  /** Appending keeps every configuration a non-empty list of entries of its own name. */
  lemma AppendConfigValid(d: ODict<string, seq<TableEntry>>, entry: TableEntry)
    requires ConfigsValid(d)
    ensures ConfigsValid(AppendConfig(d, entry))
  {
  }

  /** The entries a name-to-configuration dictionary stores. */
  function ConfigEntries(d: ODict<string, seq<TableEntry>>): set<TableEntry>
  {
    set k, e | k in d.m && e in d.m[k] :: e
  }

  /** An entry is yielded by the flattened configurations exactly when some configuration holds it. */
  lemma ConfigsMember(d: ODict<string, seq<TableEntry>>)
    requires d.Valid()
    ensures forall j :: 0 <= j < |Flatten(d.Values())| ==> Flatten(d.Values())[j] in ConfigEntries(d)
    ensures forall k, j :: k in d.m && 0 <= j < |d.m[k]| ==> d.m[k][j] in Flatten(d.Values())
  {
    var vs := d.Values();
    FlattenMember(vs);
    forall j | 0 <= j < |Flatten(d.Values())|
      ensures Flatten(d.Values())[j] in ConfigEntries(d)
    {
      var i :| 0 <= i < |vs| && Flatten(vs)[j] in vs[i];
      var k := d.keys[i];
      assert k in d.m && Flatten(vs)[j] in d.m[k];
    }
    forall k, j | k in d.m && 0 <= j < |d.m[k]|
      ensures d.m[k][j] in Flatten(vs)
    {
      var i :| 0 <= i < |d.keys| && d.keys[i] == k;
      assert vs[i] == d.m[k];
    }
  }

  /** Appending an entry to a configuration places it right after that configuration's entries. */
  lemma AppendConfigFlatten(d: ODict<string, seq<TableEntry>>, entry: TableEntry)
    requires d.Valid()
    ensures Key(entry.name) !in d.m ==> Flatten(AppendConfig(d, entry).Values()) == Flatten(d.Values()) + [entry]
    ensures forall i :: 0 <= i < |d.keys| && d.keys[i] == Key(entry.name) ==>
      Flatten(AppendConfig(d, entry).Values()) == Flatten(d.Values()[..i + 1]) + [entry] + Flatten(d.Values()[i + 1..])
    ensures entry in Flatten(AppendConfig(d, entry).Values())
  {
    var k := Key(entry.name);
    var vs := d.Values();
    if k !in d.m {
      PutNewValues(d, k, [entry]);
      FlattenAppend(vs, [entry]);
    }
    forall i | 0 <= i < |d.keys| && d.keys[i] == k
      ensures Flatten(AppendConfig(d, entry).Values()) == Flatten(vs[..i + 1]) + [entry] + Flatten(vs[i + 1..])
    {
      PutExistingValues(d, i, d.m[k] + [entry]);
      FlattenUpdate(vs, i, entry);
    }
    var r := AppendConfig(d, entry);
    assert k in r.m && r.m[k][|r.m[k]| - 1] == entry;
    ConfigsMember(r);
  }

  /** Growing one inner sequence by `x` puts `x` right after that sequence in the flattening. */
  lemma FlattenUpdate<T>(ss: seq<seq<T>>, i: nat, x: T)
    requires i < |ss|
    ensures Flatten(ss[i := ss[i] + [x]]) == Flatten(ss[..i + 1]) + [x] + Flatten(ss[i + 1..])
  {
    var pre, post := ss[..i], ss[i + 1..];
    assert ss[i := ss[i] + [x]] == pre + [ss[i] + [x]] + post;
    FlattenConcat(pre + [ss[i] + [x]], post);
    FlattenAppend(pre, ss[i] + [x]);
    assert ss[..i + 1] == pre + [ss[i]];
    FlattenAppend(pre, ss[i]);
    AppendAssoc(Flatten(pre), ss[i], [x]);
  }

  /** Gives every entry of one viewport configuration the owner handle `owner`. */
  method SetOwners(config: seq<TableEntry>, owner: Option<string>)
    modifies set e | e in config
    ensures forall e :: e in config ==> e.owner == owner && e.isAlive == old(e.isAlive) && e.doc == old(e.doc)
  {
    for n := 0 to |config|
      invariant forall m :: 0 <= m < n ==> config[m].owner == owner
      invariant forall e :: e in config ==> e.isAlive == old(e.isAlive) && e.doc == old(e.doc)
    {
      config[n].owner := owner;
    }
  }

  /**
   * The VPORT table: a viewport configuration may consist of several
   * entries of the same name, so each key holds a list of entries.
   */
  class ViewportTable {
    const doc: Drawing
    var head: TableHead
    var entries: ODict<string, seq<TableEntry>>

    ghost predicate Valid()
      reads this
    {
      ConfigsValid(entries)
    }

    /** The entry objects of all configurations. */
    function Entries(): set<TableEntry>
      reads this
    {
      ConfigEntries(entries)
    }

    constructor (name: string, handle: Option<string>, doc: Drawing)
      ensures Valid()
      ensures this.doc == doc && head == TableHead(name, handle, "0", 0) && entries == Empty()
    {
      this.doc := doc;
      head := TableHead(name, handle, "0", 0);
      entries := Empty();
    }

    /** `ViewportTable(doc, entities)`: as for any table, with same-name entries collected per name. */
    static method Load(doc: Drawing, items: seq<LoadItem>) returns (r: Result<ViewportTable>)
      ensures items == [] ==> r == Err(StopIteration)
      ensures items != [] && !items[0].HeadItem? ==> r == Err(DXFStructureError(STRUCTURE_ERROR))
      ensures items != [] && items[0].HeadItem? ==>
        && r.Ok? && fresh(r.value) && r.value.Valid()
        && r.value.doc == doc && r.value.head == items[0].head
        && r.value.entries == LoadedConfigs(items[1..], items[0].head.name)
    {
      if items == [] {
        return Err(StopIteration);
      }
      if !items[0].HeadItem? {
        return Err(DXFStructureError(STRUCTURE_ERROR));
      }
      var t := new ViewportTable("", None, doc);
      t.head := items[0].head;
      var rest := items[1..];
      for i := 0 to |rest|
        invariant t.Valid() && t.head == items[0].head && t.doc == doc
        invariant t.entries == LoadedConfigs(rest[..i], t.head.name)
      {
        LoadedConfigsStep(rest, i, t.head.name);
        if rest[i].EntryItem? && rest[i].entry.dxftype == t.head.name {
          t.Append(rest[i].entry);
        }
      }
      assert rest[..|rest|] == rest;
      r := Ok(t);
    }

    /** `has_entry(name)`: some entry of some configuration has that name, ignoring case. */
    predicate HasEntry(name: string)
      reads this
      ensures Valid() ==> (HasEntry(name) <==> exists e :: e in Entries() && Key(e.name) == Key(name))
    {
      assert Valid() && Key(name) in entries.m ==> var c := entries.m[Key(name)]; c[0] in c && c[0] in Entries();
      Key(name) in entries.m
    }

    /** `len(table)`: all entries of all configurations; every configuration has at least one. */
    function Len(): (n: nat)
      reads this
      requires Valid()
      ensures n >= |entries.keys|
      ensures n == 0 <==> entries.keys == []
    {
      FlattenNonEmptyLen(entries.Values());
      |Flatten(entries.Values())|
    }

    /** `iter(table)`: every entry of every configuration, configuration by configuration. */
    function Iter(): (r: seq<TableEntry>)
      reads this
      requires Valid()
      ensures |r| == Len()
      ensures forall i :: 0 <= i < |r| ==> r[i] in Entries()
      ensures forall e :: e in Entries() ==> e in r
    {
      ConfigsMember(entries);
      Flatten(entries.Values())
    }

    /**
     * `_append`: same-name entries go to the end of one list, so the new
     * entry is yielded after every entry of its configuration and before
     * the configurations stored after it.
     */
    method Append(entry: TableEntry)
      requires Valid()
      modifies this
      ensures Valid() && head == old(head)
      ensures entries == AppendConfig(old(entries), entry)
      ensures Len() == old(Len()) + 1
      ensures entry in Iter()
      ensures Key(entry.name) !in old(entries.m) ==> Iter() == old(Iter()) + [entry]
      ensures forall i :: 0 <= i < |old(entries.keys)| && old(entries.keys)[i] == Key(entry.name) ==>
        Iter() == old(Flatten(entries.Values()[..i + 1])) + [entry] + old(Flatten(entries.Values()[i + 1..]))
    {
      AppendConfigValid(entries, entry);
      AppendConfigLen(entries, Key(entry.name), entry);
      AppendConfigFlatten(entries, entry);
      entries := AppendConfig(entries, entry);
    }

    /** `new(name, dxfattribs)`: always adds an entry, whether or not the name exists. */
    method New(name: string, attribs: Attribs) returns (e: TableEntry)
      requires Valid()
      modifies this
      ensures Valid() && head == old(head)
      ensures fresh(e) && e.dxftype == head.name && e.name == name && e.isAlive && e.doc == Some(doc)
      ensures entries == AppendConfig(old(entries), e)
      ensures Len() == old(Len()) + 1
    {
      e := new TableEntry(head.name, name, attribs, None, Some(doc));
      Append(e);
    }

    /** `get_config(name)`: the entries of the configuration; a missing name is a `DXFTableEntryError`. */
    function GetConfig(name: string): (r: Result<seq<TableEntry>>)
      reads this
      requires Valid()
      ensures r.Ok? <==> HasEntry(name)
      ensures r.Ok? ==> r.value == entries.m[Key(name)]
      ensures r.Ok? ==> r.value != [] && forall e :: e in r.value ==> Key(e.name) == Key(name)
      ensures r.Err? ==> r.error == DXFTableEntryError(name)
    {
      if Key(name) in entries.m then Ok(entries.m[Key(name)]) else Err(DXFTableEntryError(name))
    }

    /** `remove(name)`: every entry of the configuration is deleted from the database, then the name is dropped. */
    method Remove(name: string) returns (r: Result<()>)
      requires Valid()
      modifies this, doc, Entries()
      ensures Valid() && head == old(head)
      ensures r.Ok? <==> old(HasEntry(name))
      ensures r.Err? ==> r.error == DXFTableEntryError(name) && entries == old(entries) && unchanged(doc)
      ensures r.Err? ==> unchanged(old(Entries()))
      ensures r.Ok? ==>
        && var es := old(entries.m[Key(name)]);
        && doc.deleted == old(doc.deleted) + es
        && (forall e :: e in es ==> !e.isAlive)
        && entries == old(entries).Remove(Key(name))
        && forall x :: x in old(Entries()) && x !in es ==> unchanged(x)
    {
      var found := GetConfig(name);
      if found.Err? {
        return Err(found.error);
      }
      var es := found.value;
      assert es == entries.m[Key(name)];
      for i := 0 to |es|
        invariant entries == old(entries) && head == old(head)
        invariant doc.deleted == old(doc.deleted) + es[..i]
        invariant forall j :: 0 <= j < i ==> !es[j].isAlive
        invariant forall x :: x in old(Entries()) && x !in es ==> unchanged(x)
      {
        assert es[i] in entries.m[Key(name)];
        assert es[i] in Entries();
        doc.DeleteEntity(es[i]);
        assert es[..i + 1] == es[..i] + [es[i]];
      }
      assert es[..|es|] == es;
      entries := entries.Remove(Key(name));
      r := Ok(());
    }

    /** `discard(name)`: drops the whole configuration; a missing name is a `KeyError`. */
    method Discard(name: string) returns (r: Result<()>)
      requires Valid()
      modifies this
      ensures Valid() && head == old(head)
      ensures r.Ok? <==> old(HasEntry(name))
      ensures r.Err? ==> r.error == KeyError(Key(name))
      ensures entries == old(entries).Remove(Key(name))
    {
      if !HasEntry(name) {
        return Err(KeyError(Key(name)));
      }
      entries := entries.Remove(Key(name));
      r := Ok(());
    }

    /** `update_owner_handles`: every entry of every configuration is owned by the head's handle. */
    method UpdateOwnerHandles()
      requires Valid()
      modifies Entries()
      ensures forall e :: e in Entries() ==> e.owner == head.handle
      ensures forall e :: e in Entries() ==> e.isAlive == old(e.isAlive) && e.doc == old(e.doc)
    {
      var configs := entries.Values();
      for i := 0 to |configs|
        invariant forall j, e: TableEntry :: 0 <= j < i && e in configs[j] ==> e.owner == head.handle
        invariant forall e :: e in Entries() ==> e.isAlive == old(e.isAlive) && e.doc == old(e.doc)
      {
        assert configs[i] == entries.m[entries.keys[i]];
        SetOwners(configs[i], head.handle);
      }
      forall e | e in Entries()
        ensures e.owner == head.handle
      {
        var k :| k in entries.m && e in entries.m[k];
        var i :| 0 <= i < |entries.keys| && entries.keys[i] == k;
        assert e in configs[i];
      }
    }

    /** `set_handle(handle)`, with the VPORT table's own owner update. */
    method SetHandle(handle: string)
      requires Valid()
      modifies this, Entries()
      ensures Valid() && entries == old(entries)
      ensures old(head.handle).Some? ==> head == old(head) && unchanged(Entries())
      ensures old(head.handle).None? ==>
        && head == old(head).(handle := Some(handle))
        && forall e :: e in Entries() ==> e.owner == Some(handle)
      ensures forall e :: e in Entries() ==> e.isAlive == old(e.isAlive) && e.doc == old(e.doc)
    {
      if head.handle.None? {
        head := head.(handle := Some(handle));
        UpdateOwnerHandles();
      }
    }

    /** The table-level part of `export_dxf`; the head counts every entry of every configuration. */
    method ExportDxf(w: TagWriter)
      requires Valid()
      modifies this, Entries(), w
      ensures Valid() && entries == old(entries)
      ensures head == old(head).(owner := "0", count := old(Len()))
      ensures forall e :: e in Entries() ==> e.owner == head.handle
      ensures forall e :: e in Entries() ==> e.isAlive == old(e.isAlive) && e.doc == old(e.doc)
      ensures w.written == old(w.written) + [Tag(0, Str("ENDTAB"))]
    {
      UpdateOwnerHandles();
      head := head.(owner := "0", count := Len());
      w.WriteTag2(0, Str("ENDTAB"));
    }
  }
}
