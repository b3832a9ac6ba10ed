/**
 * Side-channel metadata of a DXF entity (ezdxf/entities/appdata.py):
 * application-defined tag groups (`AppData`), the reactor handle set
 * (`Reactors`) and the lazily resolved extension dictionary
 * (`ExtensionDict`), each with the tag grammar it is read from and
 * written back as.
 */
module EntityAppData {
  import opened Tags
  import opened Strings
  import opened Collections

  /** `(102, appid)`: the tag that opens an application-defined group. */
  function OpenMarker(appid: string): Tag
  {
    Tag(APP_DATA_MARKER, Str(appid))
  }

  /** `(102, '}')`: the tag that closes every marker-framed group. */
  const CLOSE_MARKER: Tag := Tag(APP_DATA_MARKER, Str(GROUP_CLOSE))

  function PairTags(pairs: seq<(int, Value)>): (r: seq<Tag>)
    ensures |r| == |pairs|
    ensures forall i :: 0 <= i < |pairs| ==> r[i] == Tag(pairs[i].0, pairs[i].1)
  {
    seq(|pairs|, i requires 0 <= i < |pairs| => Tag(pairs[i].0, pairs[i].1))
  }

  // ---------------------------------------------------------------- AppData

  /**
   * Application-defined tag groups of one entity, in insertion order, keyed
   * by the value of each group's first tag. `uniformAppId` is the id
   * normalisation (`uniform_appid`) the store applies to every id it is
   * given; it is a parameter of the model.
   */
  class AppData {
    const uniformAppId: string -> string
    var data: ODict<Value, seq<Tag>>

    ghost predicate Valid()
      reads this
    {
      && data.Valid()
      && forall k :: k in data.m ==> |data.m[k]| > 0 && data.m[k][0].value == k
    }

    constructor (uniformAppId: string -> string)
      ensures Valid() && this.uniformAppId == uniformAppId
      ensures data == Empty()
    {
      this.uniformAppId := uniformAppId;
      data := Empty();
    }

    /** The key an application id is stored under. */
    function Key(appid: string): Value
      reads this
    {
      Str(uniformAppId(appid))
    }

    /** `appid in appdata`: some stored group starts with the normalised id. */
    predicate Contains(appid: string)
      reads this
      ensures Valid() ==> (Contains(appid) <==> exists k :: k in data.m && data.m[k][0].value == Key(appid))
    {
      Key(appid) in data.m
    }

    /** `len(appdata)`: the number of stored groups. */
    function Len(): nat
      reads this
      ensures Valid() ==> Len() == |data.m|
    {
      LenIsCard(data);
      data.Len()
    }

    function Get(appid: string): (r: Result<seq<Tag>>)
      reads this
      requires Valid()
      ensures r.Ok? <==> Contains(appid)
      ensures r.Ok? ==> r.value == data.m[Key(appid)] && r.value[0].value == Str(uniformAppId(appid))
      ensures r.Err? ==> r.error == DXFKeyError(appid)
    {
      if Key(appid) in data.m then Ok(data.m[Key(appid)]) else Err(DXFKeyError(appid))
    }

    method Set(tags: seq<Tag>)
      requires Valid()
      modifies this
      ensures Valid()
      ensures |tags| == 0 ==> data == old(data)
      ensures |tags| > 0 ==> data.m == old(data.m)[tags[0].value := tags]
      ensures |tags| > 0 && tags[0].value in old(data.m) ==> data.keys == old(data.keys)
      ensures |tags| > 0 && tags[0].value !in old(data.m) ==> data.keys == old(data.keys) + [tags[0].value]
    {
      if |tags| > 0 {
        var appid := tags[0].value;
        data := data.Put(appid, tags);
      }
    }

    /** `add`: an empty group makes Python's indexing raise before anything is stored. */
    method Add(appid: string, pairs: seq<(int, Value)>) returns (r: Result<()>)
      requires Valid()
      modifies this
      ensures Valid()
      ensures |pairs| == 0 ==> r == Err(IndexError("list index out of range")) && data == old(data)
      ensures |pairs| > 0 ==> r == Ok(()) && Contains(appid)
      ensures |pairs| > 0 ==> data.m == old(data.m)[Key(appid) := data.m[Key(appid)]]
      ensures |pairs| > 0 ==> data.keys == if Key(appid) in old(data.m) then old(data.keys) else old(data.keys) + [Key(appid)]
      ensures |pairs| > 0 ==> var g, t := data.m[Key(appid)], PairTags(pairs);
        && g[0] == OpenMarker(uniformAppId(appid))
        && g[|g| - 1] == CLOSE_MARKER
        && |g| == |t| + (if t[0] == g[0] then 0 else 1) + (if t[|t| - 1] == CLOSE_MARKER then 0 else 1)
        && g[(if t[0] == g[0] then 0 else 1)..][..|t|] == t
        && (t[0] == g[0] && t[|t| - 1] == CLOSE_MARKER ==> g == t)
    {
      var tags := PairTags(pairs);
      if |tags| == 0 {
        return Err(IndexError("list index out of range"));
      }
      var id := uniformAppId(appid);
      if tags[0] != OpenMarker(id) {
        tags := [OpenMarker(id)] + tags;
      }
      if tags[|tags| - 1] != CLOSE_MARKER {
        tags := tags + [CLOSE_MARKER];
      }
      Set(tags);
      r := Ok(());
    }

    method Discard(appid: string)
      requires Valid()
      modifies this
      ensures Valid()
      ensures !Contains(appid)
      ensures data == old(data).Remove(Key(appid))
    {
      var id := Key(appid);
      if id in data.m {
        data := data.Remove(id);
      }
    }

    /** All groups, in insertion order, each verbatim. */
    function ExportTags(): seq<Tag>
      reads this
      requires Valid()
    {
      Flatten(data.Values())
    }

    method ExportDxf(w: TagWriter)
      requires Valid()
      modifies w
      ensures w.written == old(w.written) + ExportTags()
    {
      var groups := data.Values();
      for i := 0 to |groups|
        invariant w.written == old(w.written) + Flatten(groups[..i])
      {
        assert groups[..i + 1] == groups[..i] + [groups[i]];
        FlattenAppend(groups[..i], groups[i]);
        w.WriteTags(groups[i]);
      }
      assert groups[..|groups|] == groups;
    }
  }

  // --------------------------------------------------------------- Reactors

  /** Every handle tag of the group (all but the two markers) carries text. */
  predicate HandlesAreText(tags: seq<Tag>)
  {
    forall i :: 1 <= i < |tags| - 1 ==> tags[i].value.Str?
  }

  /** `Reactors.from_tags`, as a value: the handle set a tag group holds. */
  function ParseReactors(tags: Option<seq<Tag>>): (r: Result<set<string>>)
    requires tags.Some? ==> HandlesAreText(tags.value)
    ensures tags.None? ==> r == Ok({})
    ensures tags.Some? && |tags.value| < 3 ==> r == Err(DXFStructureError("ACAD_REACTORS error"))
    ensures tags.Some? && |tags.value| >= 3 ==>
      && r.Ok?
      && forall h :: h in r.value <==> exists i :: 1 <= i < |tags.value| - 1 && tags.value[i].value == Str(h)
  {
    match tags
    case None => Ok({})
    case Some(t) =>
      if |t| < 3 then Err(DXFStructureError("ACAD_REACTORS error"))
      else Ok(set i | 1 <= i < |t| - 1 :: t[i].value.s)
  }

  /** `(330, handle)` for each handle, in the given order. */
  function HandleTags(handles: seq<string>): (r: seq<Tag>)
    ensures |r| == |handles|
    ensures forall i :: 0 <= i < |handles| ==> r[i] == Tag(REACTOR_HANDLE_CODE, Str(handles[i]))
  {
    seq(|handles|, i requires 0 <= i < |handles| => Tag(REACTOR_HANDLE_CODE, Str(handles[i])))
  }

  /** What `Reactors.export_dxf` writes for the listed handles. */
  function ReactorGroup(handles: seq<string>): (r: seq<Tag>)
    ensures |r| == |handles| + 2
    ensures r[0] == OpenMarker(ACAD_REACTORS) && r[|r| - 1] == CLOSE_MARKER
    ensures r[1..|r| - 1] == HandleTags(handles)
  {
    [OpenMarker(ACAD_REACTORS)] + HandleTags(handles) + [CLOSE_MARKER]
  }

  /** The handle tags of a written reactors group sit right after the opening marker. */
  lemma ReactorGroupAt(handles: seq<string>)
    ensures forall i :: 0 <= i < |handles| ==> ReactorGroup(handles)[i + 1] == Tag(REACTOR_HANDLE_CODE, Str(handles[i]))
  {
    var t := ReactorGroup(handles);
    forall i | 0 <= i < |handles|
      ensures t[i + 1] == Tag(REACTOR_HANDLE_CODE, Str(handles[i]))
    {
      assert t[1..|t| - 1][i] == t[i + 1];
    }
  }

  /** Reading back a written reactors group gives exactly the written handles, as a set. */
  lemma {:induction false} ReactorGroupRoundTrip(handles: seq<string>)
    requires handles != []
    ensures HandlesAreText(ReactorGroup(handles))
    ensures ParseReactors(Some(ReactorGroup(handles))) == Ok(Elems(handles))
  {
    var t := ReactorGroup(handles);
    ReactorGroupAt(handles);
    assert HandlesAreText(t) by {
      forall i | 1 <= i < |t| - 1 ensures t[i].value.Str? {
        assert t[i] == Tag(REACTOR_HANDLE_CODE, Str(handles[i - 1]));
      }
    }
    var r := ParseReactors(Some(t));
    assert |t| >= 3 && r.Ok?;
    forall h | h in Elems(handles)
      ensures h in r.value
    {
      var j :| 0 <= j < |handles| && handles[j] == h;
      assert t[j + 1].value == Str(h);
    }
    forall h | h in r.value
      ensures h in Elems(handles)
    {
      var i :| 1 <= i < |t| - 1 && t[i].value == Str(h);
      assert t[i] == Tag(REACTOR_HANDLE_CODE, Str(handles[i - 1]));
    }
    assert r.value <= Elems(handles) && Elems(handles) <= r.value;
    assert r.value == Elems(handles);
  }

  /** An empty reactor set is written as two markers, which reading rejects. */
  lemma EmptyReactorGroupRejected()
    ensures ParseReactors(Some(ReactorGroup([]))).Err?
  {
  }

  /** `set(handles or [])`. */
  function HandleSet(handles: Option<seq<string>>): set<string>
  {
    if handles.None? then {} else Elems(handles.value)
  }

  /** The handles of the entities that react to changes of the owning entity. */
  class Reactors {
    var reactors: set<string>

    constructor (handles: Option<seq<string>>)
      ensures reactors == HandleSet(handles)
    {
      reactors := HandleSet(handles);
    }

    function Len(): nat
      reads this
    {
      |reactors|
    }

    predicate Contains(handle: string)
      reads this
    {
      handle in reactors
    }

    static method FromTags(tags: Option<seq<Tag>>) returns (r: Result<Reactors>)
      requires tags.Some? ==> HandlesAreText(tags.value)
      ensures r.Ok? <==> ParseReactors(tags).Ok?
      ensures r.Err? ==> r.error == ParseReactors(tags).error
      ensures r.Ok? ==> fresh(r.value) && r.value.reactors == ParseReactors(tags).value
    {
      match ParseReactors(tags)
      case Err(e) =>
        r := Err(e);
      case Ok(handles) =>
        var reactors := new Reactors(None);
        reactors.reactors := handles;
        r := Ok(reactors);
    }

    /** `sorted(self.reactors)`. */
    method Get() returns (handles: seq<string>)
      ensures StrictlySorted(handles) && Elems(handles) == reactors
      ensures handles == SortedOf(reactors)
    {
      handles := [];
      var rest := reactors;
      while rest != {}
        invariant StrictlySorted(handles)
        invariant Elems(handles) + rest == reactors
        invariant Elems(handles) !! rest
        decreases |rest|
      {
        var h :| h in rest;
        handles := Insert(handles, h);
        rest := rest - {h};
      }
      SortedUnique(handles, SortedOf(reactors));
    }

    method Set(handles: Option<seq<string>>)
      modifies this
      ensures reactors == HandleSet(handles)
    {
      reactors := HandleSet(handles);
    }

    method Add(handle: string)
      modifies this
      ensures reactors == old(reactors) + {handle}
    {
      reactors := reactors + {handle};
    }

    method Discard(handle: string)
      modifies this
      ensures reactors == old(reactors) - {handle}
    {
      reactors := reactors - {handle};
    }

    method ExportDxf(w: TagWriter)
      modifies w
      ensures w.written == old(w.written) + ReactorGroup(SortedOf(reactors))
    {
      var handles := Get();
      WriteReactorGroup(w, handles);
    }
  }

  /** The handle tags of the first `i + 1` handles extend those of the first `i` by one tag. */
  lemma HandleTagsStep(handles: seq<string>, i: nat)
    requires i < |handles|
    ensures HandleTags(handles)[..i + 1] == HandleTags(handles)[..i] + [Tag(REACTOR_HANDLE_CODE, Str(handles[i]))]
  {
    TakeNext(HandleTags(handles), i);
  }

  /** Writes the reactors group for `handles`, one handle tag per handle. */
  method WriteReactorGroup(w: TagWriter, handles: seq<string>)
    modifies w
    ensures w.written == old(w.written) + ReactorGroup(handles)
  {
    ghost var body := HandleTags(handles);
    w.WriteTag2(APP_DATA_MARKER, Str(ACAD_REACTORS));
    ghost var head := w.written;
    for i := 0 to |handles|
      invariant w.written == head + body[..i]
    {
      HandleTagsStep(handles, i);
      AppendAssoc(head, body[..i], [Tag(REACTOR_HANDLE_CODE, Str(handles[i]))]);
      w.WriteTag2(REACTOR_HANDLE_CODE, Str(handles[i]));
    }
    assert body[..|handles|] == body;
    w.WriteTag2(APP_DATA_MARKER, Str(GROUP_CLOSE));
    assert ReactorGroup(handles) == [OpenMarker(ACAD_REACTORS)] + body + [CLOSE_MARKER];
    AppendAssoc(old(w.written), [OpenMarker(ACAD_REACTORS)] + body, [CLOSE_MARKER]);
    AppendAssoc(old(w.written), [OpenMarker(ACAD_REACTORS)], body);
  }

  /** A non-empty reactor set survives writing and reading back. */
  lemma ReactorsRoundTrip(s: set<string>)
    requires s != {}
    ensures ParseReactors(Some(ReactorGroup(SortedOf(s)))) == Ok(s)
  {
    ReactorGroupRoundTrip(SortedOf(s));
  }

  /** The written order depends on the set alone, not on the order handles were added in. */
  lemma ExportOrderIsCanonical(handles: seq<string>, s: set<string>)
    requires StrictlySorted(handles) && Elems(handles) == s
    ensures ReactorGroup(handles) == ReactorGroup(SortedOf(s))
  {
    SortedUnique(handles, SortedOf(s));
  }

  // ---------------------------------------------------------- ExtensionDict

  /** A DICTIONARY object of the document; only its handle and owner matter here. */
  class DxfDictionary {
    const handle: string
    const owner: string

    constructor (handle: string, owner: string)
      ensures this.handle == handle && this.owner == owner
    {
      this.handle := handle;
      this.owner := owner;
    }
  }

  /** The two calls an extension dictionary makes into its document. */
  datatype Call = AddDictionary(owner: string) | EntityDbGet(handle: string)

  /**
   * The owning document as the extension dictionary sees it: its entity
   * database (`entitydb`, whatever it answers for a handle) and the
   * OBJECTS section that creates dictionaries. Every call is logged.
   */
  class Document {
    const entitydb: string -> DxfDictionary
    const newHandle: nat -> string
    var calls: seq<Call>

    constructor (entitydb: string -> DxfDictionary, newHandle: nat -> string)
      ensures this.entitydb == entitydb && this.newHandle == newHandle && calls == []
    {
      this.entitydb := entitydb;
      this.newHandle := newHandle;
      calls := [];
    }

    /** `objects.add_dictionary(owner=owner)`. */
    method AddDictionaryFor(owner: string) returns (d: DxfDictionary)
      modifies this
      ensures fresh(d) && d.owner == owner
      ensures calls == old(calls) + [AddDictionary(owner)]
    {
      d := new DxfDictionary(newHandle(|calls|), owner);
      calls := calls + [AddDictionary(owner)];
    }

    /** `entitydb.get(handle)`. */
    method Lookup(handle: string) returns (d: DxfDictionary)
      modifies this
      ensures d == entitydb(handle)
      ensures calls == old(calls) + [EntityDbGet(handle)]
    {
      d := entitydb(handle);
      calls := calls + [EntityDbGet(handle)];
    }
  }

  /** The entity that owns an extension dictionary: its handle and document. */
  class Entity {
    const handle: string
    const doc: Document

    constructor (handle: string, doc: Document)
      ensures this.handle == handle && this.doc == doc
    {
      this.handle := handle;
      this.doc := doc;
    }
  }

  /** The three states of an extension dictionary reference. */
  datatype XDictRef = Absent | Unresolved(handle: string) | Resolved(xdict: DxfDictionary)
  {
    /** The handle written for a present reference. */
    function Handle(): string
      requires !Absent?
    {
      if Unresolved? then handle else xdict.handle
    }
  }

  /** The group an extension dictionary reference is written as; nothing when absent. */
  function XDictGroup(ref: XDictRef): (r: seq<Tag>)
    ensures ref.Absent? <==> r == []
    ensures !ref.Absent? ==> r == [OpenMarker(ACAD_XDICTIONARY), Tag(XDICT_HANDLE_CODE, Str(ref.Handle())), CLOSE_MARKER]
  {
    if ref.Absent? then []
    else [OpenMarker(ACAD_XDICTIONARY), Tag(XDICT_HANDLE_CODE, Str(ref.Handle())), CLOSE_MARKER]
  }

  /** The tag reader delivers the value of a handle tag as text. */
  predicate XDictHandleIsText(tags: Option<seq<Tag>>)
  {
    tags.Some? && |tags.value| == 3 && tags.value[1].code == XDICT_HANDLE_CODE ==> tags.value[1].value.Str?
  }

  /**
   * `ExtensionDict.from_tags`, as a value: no group means no dictionary;
   * otherwise exactly three tags with a handle tag in the middle.
   */
  function ParseXDict(owner: string, tags: Option<seq<Tag>>): (r: Result<Option<string>>)
    requires XDictHandleIsText(tags)
    ensures tags.None? ==> r == Ok(None)
    ensures tags.Some? ==> (r.Err? <==> |tags.value| != 3 || tags.value[1].code != XDICT_HANDLE_CODE)
    ensures r.Err? ==> r.error == DXFStructureError("ACAD_XDICTIONARY error in entity: " + owner)
    ensures tags.Some? && r.Ok? ==> r.value == Some(tags.value[1].value.s)
  {
    match tags
    case None => Ok(None)
    case Some(t) =>
      if |t| != 3 || t[1].code != XDICT_HANDLE_CODE then
        Err(DXFStructureError("ACAD_XDICTIONARY error in entity: " + owner))
      else Ok(Some(t[1].value.s))
  }

  /** A written extension dictionary reference reads back as its handle. */
  lemma XDictRoundTrip(owner: string, ref: XDictRef)
    requires !ref.Absent?
    ensures XDictHandleIsText(Some(XDictGroup(ref)))
    ensures ParseXDict(owner, Some(XDictGroup(ref))) == Ok(Some(ref.Handle()))
  {
  }

  /** The extension dictionary of one entity. */
  class ExtensionDict {
    var owner: Option<Entity>
    var xdict: XDictRef

    constructor (owner: Option<Entity>, xdict: XDictRef)
      ensures this.owner == owner && this.xdict == xdict
    {
      this.owner := owner;
      this.xdict := xdict;
    }

    /**
     * A copy without owner. The referenced dictionary is copied as a new
     * object with the same handle and owner.
     */
    method Clone() returns (c: ExtensionDict)
      ensures fresh(c) && c.owner == None
      ensures xdict.Absent? ==> c.xdict == Absent
      ensures xdict.Unresolved? ==> c.xdict == xdict
      ensures xdict.Resolved? ==>
        && c.xdict.Resolved? && fresh(c.xdict.xdict)
        && c.xdict.xdict.handle == xdict.xdict.handle
        && c.xdict.xdict.owner == xdict.xdict.owner
    {
      var copy := xdict;
      if xdict.Resolved? {
        var d := new DxfDictionary(xdict.xdict.handle, xdict.xdict.owner);
        copy := Resolved(d);
      }
      c := new ExtensionDict(None, copy);
    }

    static method FromTags(entity: Entity, tags: Option<seq<Tag>>) returns (r: Result<ExtensionDict>)
      requires XDictHandleIsText(tags)
      ensures r.Ok? <==> ParseXDict(entity.handle, tags).Ok?
      ensures r.Err? ==> r.error == ParseXDict(entity.handle, tags).error
      ensures r.Ok? ==> fresh(r.value) && r.value.owner == Some(entity)
      ensures r.Ok? ==> r.value.xdict == match ParseXDict(entity.handle, tags).value
                                        case None => Absent
                                        case Some(h) => Unresolved(h)
    {
      match ParseXDict(entity.handle, tags)
      case Err(e) =>
        r := Err(e);
      case Ok(None) =>
        var x := new ExtensionDict(Some(entity), Absent);
        r := Ok(x);
      case Ok(Some(h)) =>
        var x := new ExtensionDict(Some(entity), Unresolved(h));
        r := Ok(x);
    }

    /** The document an unresolved reference is resolved in. */
    function Docs(): set<object>
      reads this
    {
      if owner.Some? then {owner.value.doc} else {}
    }

    /**
     * The dictionary, resolving the reference first: an absent one is
     * created in the owner's document, a handle is looked up in the entity
     * database, a resolved one is returned as it is.
     */
    method Get() returns (d: DxfDictionary)
      requires xdict.Resolved? || owner.Some?
      modifies this, Docs()
      ensures owner == old(owner)
      ensures xdict == Resolved(d)
      ensures old(xdict).Absent? ==>
        && fresh(d) && d.owner == owner.value.handle
        && owner.value.doc.calls == old(owner.value.doc.calls) + [AddDictionary(owner.value.handle)]
      ensures old(xdict).Unresolved? ==>
        && d == owner.value.doc.entitydb(old(xdict).handle)
        && owner.value.doc.calls == old(owner.value.doc.calls) + [EntityDbGet(old(xdict).handle)]
      ensures old(xdict).Resolved? ==> d == old(xdict).xdict && unchanged(Docs())
    {
      if xdict.Absent? {
        var created := owner.value.doc.AddDictionaryFor(owner.value.handle);
        xdict := Resolved(created);
      } else if xdict.Unresolved? {
        var found := owner.value.doc.Lookup(xdict.handle);
        xdict := Resolved(found);
      }
      d := xdict.xdict;
    }

    method ExportDxf(w: TagWriter)
      modifies w
      ensures w.written == old(w.written) + XDictGroup(xdict)
    {
      if xdict.Absent? {
        return;
      }
      var handle := if xdict.Unresolved? then xdict.handle else xdict.xdict.handle;
      w.WriteTag2(APP_DATA_MARKER, Str(ACAD_XDICTIONARY));
      w.WriteTag2(XDICT_HANDLE_CODE, Str(handle));
      w.WriteTag2(APP_DATA_MARKER, Str(GROUP_CLOSE));
    }
  }

  /**
   * Two consecutive `get` calls on an absent extension dictionary create
   * exactly one dictionary and return the same object both times.
   */
  method GetTwice(x: ExtensionDict) returns (d1: DxfDictionary, d2: DxfDictionary)
    requires x.owner.Some? && x.xdict.Absent?
    modifies x, x.Docs()
    ensures x.owner == old(x.owner)
    ensures d1 == d2 && fresh(d1)
    ensures x.owner.value.doc.calls == old(x.owner.value.doc.calls) + [AddDictionary(x.owner.value.handle)]
  {
    d1 := x.Get();
    d2 := x.Get();
  }
}
