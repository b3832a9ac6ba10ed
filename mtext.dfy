/**
 * MTEXT columns and content (src/ezdxf/entities/mtext.py): the column
 * setup of an MTEXT entity, the ACAD XDATA groups it is stored in before
 * DXF R2018 (column info, linked column handles, defined height), the
 * loaders that read those groups back, and the splitting of the text into
 * code-3 chunks and a final code-1 tag.
 */
module MText {
  import opened Tags
  import opened Collections

  // ------------------------------------------------------ value conversion

  /** Python's `bool(value)` on a tag value. */
  function AsBool(v: Value): bool
  {
    match v
    case Str(s) => s != []
    case Int(i) => i != 0
    case Float(r) => r != 0.0
    case Vec(c) => c != []
  }

  /** Python's `int(x)` on a float: truncation toward zero. */
  function Trunc(r: real): (n: int)
    ensures r >= 0.0 ==> n as real <= r < n as real + 1.0
    ensures r < 0.0 ==> n as real - 1.0 < r <= n as real
  {
    if r >= 0.0 then r.Floor else -((-r).Floor)
  }

  /** Python's `int(value)` on a tag value; text is not converted here. */
  function AsInt(v: Value): Result<int>
  {
    match v
    case Int(i) => Ok(i)
    case Float(r) => Ok(Trunc(r))
    case Str(_) => Err(ValueError("invalid literal for int()"))
    case Vec(_) => Err(TypeError("int() argument must be a string or a number"))
  }

  /** A tag value used as a number. */
  function AsReal(v: Value): Result<real>
  {
    match v
    case Float(r) => Ok(r)
    case Int(i) => Ok(i as real)
    case Str(_) => Err(TypeError("a number is required"))
    case Vec(_) => Err(TypeError("a number is required"))
  }

  /** Python's `value == n` for an integer constant `n`. */
  predicate IsKey(v: Value, n: int)
  {
    v == Int(n) || v == Float(n as real)
  }

  // ------------------------------------------------------------ ColumnType

  datatype ColumnType = NONE | STATIC | DYNAMIC
  {
    function ToInt(): int
    {
      match this
      case NONE => 0
      case STATIC => 1
      case DYNAMIC => 2
    }
  }

  /** `ColumnType(value)`: the enum member with that value, else a `ValueError`. */
  function ColumnTypeOf(v: Value): (r: Result<ColumnType>)
    ensures r.Ok? <==> IsKey(v, 0) || IsKey(v, 1) || IsKey(v, 2)
    ensures r.Ok? ==> IsKey(v, r.value.ToInt())
    ensures r.Err? ==> r.error == ValueError("not a valid ColumnType")
  {
    if IsKey(v, 0) then Ok(NONE)
    else if IsKey(v, 1) then Ok(STATIC)
    else if IsKey(v, 2) then Ok(DYNAMIC)
    else Err(ValueError("not a valid ColumnType"))
  }

  // ------------------------------------------------------------ total width

  /** The width `update_total_width` computes. */
  function TotalWidth(count: int, width: real, gutterWidth: real): real
  {
    if count > 0 then count as real * width + (count - 1) as real * gutterWidth else 0.0
  }

  /** The span of `count` columns laid side by side, a gutter between each two. */
  function Span(count: nat, width: real, gutterWidth: real): real
    requires count > 0
  {
    if count == 1 then width else Span(count - 1, width, gutterWidth) + gutterWidth + width
  }

  /** The closed form is the span of the columns and their gutters. */
  lemma {:induction false} TotalWidthIsSpan(count: nat, width: real, gutterWidth: real)
    requires count > 0
    ensures TotalWidth(count, width, gutterWidth) == Span(count, width, gutterWidth)
  {
    if count > 1 {
      TotalWidthIsSpan(count - 1, width, gutterWidth);
    }
  }

  /** With a positive width and no negative gutter the total covers every column. */
  lemma TotalWidthBounds(count: int, width: real, gutterWidth: real)
    requires count > 0 && width > 0.0 && gutterWidth >= 0.0
    ensures TotalWidth(count, width, gutterWidth) >= count as real * width > 0.0
  {
  }

  // ------------------------------------------------------- column settings

  /** The column settings the ACAD_MTEXT_COLUMN_INFO group carries. */
  datatype ColumnInfo = ColumnInfo(
    columnType: ColumnType,
    autoHeight: bool,
    count: int,
    reversedColumnFlow: bool,
    width: real,
    gutterWidth: real,
    heights: seq<real>)
  {
    predicate DynamicManualHeight()
    {
      columnType == DYNAMIC && !autoHeight
    }
  }

  /** The settings of a new `MTextColumns`. */
  function DefaultInfo(): ColumnInfo
  {
    ColumnInfo(STATIC, false, 1, false, 0.0, 0.0, [])
  }

  /** The linked column entities and the columns object of an MTEXT entity. */
  class MTextColumns {
    var columnType: ColumnType
    var count: int
    var autoHeight: bool
    var reversedColumnFlow: bool
    var definedHeight: real
    var width: real
    var gutterWidth: real
    var totalWidth: real
    var totalHeight: real
    var linkedHandles: Option<seq<string>>
    var linkedColumns: seq<MText>
    var heights: seq<real>

    constructor ()
      ensures Info() == DefaultInfo()
      ensures definedHeight == 0.0 && totalWidth == 0.0 && totalHeight == 0.0
      ensures linkedHandles == None && linkedColumns == []
    {
      columnType := STATIC;
      count := 1;
      autoHeight := false;
      reversedColumnFlow := false;
      definedHeight := 0.0;
      width := 0.0;
      gutterWidth := 0.0;
      totalWidth := 0.0;
      totalHeight := 0.0;
      linkedHandles := None;
      linkedColumns := [];
      heights := [];
    }

    /** The settings stored in the column info group. */
    function Info(): ColumnInfo
      reads this
    {
      ColumnInfo(columnType, autoHeight, count, reversedColumnFlow, width, gutterWidth, heights)
    }

    /** `has_dynamic_auto_height`: dynamic columns whose heights are not stored. */
    predicate HasDynamicAutoHeight()
      reads this
      ensures HasDynamicAutoHeight() ==> columnType == DYNAMIC && !Info().DynamicManualHeight()
    {
      columnType == DYNAMIC && autoHeight
    }

    /** `has_dynamic_manual_height`: exactly the settings whose column info group carries the heights. */
    predicate HasDynamicManualHeight()
      reads this
      ensures HasDynamicManualHeight() <==> Info().DynamicManualHeight()
      ensures HasDynamicManualHeight() ==> columnType == DYNAMIC
    {
      columnType == DYNAMIC && !autoHeight
    }

    method UpdateTotalWidth()
      modifies this
      ensures totalWidth == TotalWidth(count, width, gutterWidth)
      ensures Info() == old(Info()) && totalHeight == old(totalHeight) && definedHeight == old(definedHeight)
      ensures linkedHandles == old(linkedHandles) && linkedColumns == old(linkedColumns)
    {
      if count > 0 {
        totalWidth := count as real * width + (count - 1) as real * gutterWidth;
      } else {
        totalWidth := 0.0;
      }
    }

    /** `acad_mtext_column_info_xdata`. */
    function AcadMTextColumnInfoXData(): (r: seq<Tag>)
      reads this
      ensures r == InfoXData(Info())
    {
      InfoXData(Info())
    }

    /** `acad_mtext_defined_height_xdata`. */
    function AcadMTextDefinedHeightXData(): (r: seq<Tag>)
      reads this
      ensures r == DefinedHeightXData(definedHeight)
    {
      DefinedHeightXData(definedHeight)
    }

    /** `mtext_handles`: the loaded handles if there are any, else the handles of the linked columns. */
    method MTextHandles() returns (r: Result<seq<string>>)
      ensures r == LinkedHandles(linkedHandles, linkedColumns)
    {
      if linkedHandles.Some? && linkedHandles.value != [] {
        return Ok(linkedHandles.value);
      }
      r := Collect(linkedColumns);
    }

    /** `acad_mtext_columns_xdata`: the column count and the linked handles. */
    method AcadMTextColumnsXData() returns (r: Result<seq<Tag>>)
      ensures LinkedHandles(linkedHandles, linkedColumns).Err? ==> r == Err(LinkedHandles(linkedHandles, linkedColumns).error)
      ensures LinkedHandles(linkedHandles, linkedColumns).Ok? ==>
        r == Ok(ColumnsXData(count, LinkedHandles(linkedHandles, linkedColumns).value))
    {
      var handles := MTextHandles();
      if handles.Err? {
        return Err(handles.error);
      }
      r := Ok(ColumnsXData(count, handles.value));
    }
  }

  const NO_HANDLE: string := "Linked MTEXT column has no handle."
  const COLUMN_DELETED: string := "Linked MTEXT column deleted!"

  /** `handles + rest` for a successful `rest`. */
  function Prefixed(handles: seq<string>, rest: Result<seq<string>>): Result<seq<string>>
  {
    if rest.Err? then rest else Ok(handles + rest.value)
  }

  /** A linked column `mtext_handles` accepts: alive and with a handle. */
  predicate Usable(column: MText)
    reads column
  {
    column.isAlive && column.handle.Some?
  }

  /** The index of the first column that is not usable, or `|columns|`. */
  function FirstBad(columns: seq<MText>): (i: nat)
    reads set c | c in columns
    ensures i <= |columns|
    ensures forall j :: 0 <= j < i ==> Usable(columns[j])
    ensures i < |columns| ==> !Usable(columns[i])
  {
    if columns == [] then 0
    else if !Usable(columns[0]) then 0
    else 1 + FirstBad(columns[1..])
  }

  /** The handles of the linked columns, in order; the first unusable column decides the error. */
  function CollectHandles(columns: seq<MText>): Result<seq<string>>
    reads set c | c in columns
  {
    if columns == [] then Ok([])
    else if !columns[0].isAlive then Err(DXFStructureError(COLUMN_DELETED))
    else if columns[0].handle.None? then Err(DXFStructureError(NO_HANDLE))
    else Prefixed([columns[0].handle.value], CollectHandles(columns[1..]))
  }

  /** Collecting succeeds exactly when every column is usable, giving their handles in order; otherwise the first unusable column decides the error. */
  lemma {:induction false} CollectHandlesSpec(columns: seq<MText>)
    ensures CollectHandles(columns).Ok? <==> FirstBad(columns) == |columns|
    ensures CollectHandles(columns).Ok? ==>
      && |CollectHandles(columns).value| == |columns|
      && forall i :: 0 <= i < |columns| ==> CollectHandles(columns).value[i] == columns[i].handle.value
    ensures CollectHandles(columns).Err? ==>
      CollectHandles(columns).error == DXFStructureError(if columns[FirstBad(columns)].isAlive then NO_HANDLE else COLUMN_DELETED)
  {
    if columns != [] && Usable(columns[0]) {
      var rest := CollectHandles(columns[1..]);
      CollectHandlesSpec(columns[1..]);
      assert FirstBad(columns) == 1 + FirstBad(columns[1..]);
      if rest.Err? {
        assert columns[FirstBad(columns)] == columns[1..][FirstBad(columns[1..])];
      } else {
        assert forall i :: 1 <= i < |columns| ==> columns[i] == columns[1..][i - 1];
      }
    }
  }

  /** One column of the loop: a usable column puts its handle in front of the rest, an unusable one decides the error. */
  lemma CollectHandlesStep(columns: seq<MText>, i: nat)
    requires i < |columns|
    ensures CollectHandles(columns[i..]) ==
      if !columns[i].isAlive then Err(DXFStructureError(COLUMN_DELETED))
      else if columns[i].handle.None? then Err(DXFStructureError(NO_HANDLE))
      else Prefixed([columns[i].handle.value], CollectHandles(columns[i + 1..]))
  {
    DropNext(columns, i);
  }

  /** Prefixing twice is prefixing once with both parts. */
  lemma PrefixedAppend(handles: seq<string>, h: string, rest: Result<seq<string>>)
    ensures Prefixed(handles, Prefixed([h], rest)) == Prefixed(handles + [h], rest)
  {
    if rest.Ok? {
      AppendAssoc(handles, [h], rest.value);
    }
  }

  /** The loop of `mtext_handles` over the linked columns. */
  method Collect(columns: seq<MText>) returns (r: Result<seq<string>>)
    ensures r == CollectHandles(columns)
  {
    var handles: seq<string> := [];
    ghost var all := CollectHandles(columns);
    assert columns[0..] == columns;
    assert all.Ok? ==> [] + all.value == all.value;
    for i := 0 to |columns|
      invariant all == Prefixed(handles, CollectHandles(columns[i..]))
    {
      CollectHandlesStep(columns, i);
      var column := columns[i];
      if !column.isAlive {
        return Err(DXFStructureError(COLUMN_DELETED));
      }
      if column.handle.None? {
        return Err(DXFStructureError(NO_HANDLE));
      }
      PrefixedAppend(handles, column.handle.value, CollectHandles(columns[i + 1..]));
      handles := handles + [column.handle.value];
    }
    assert columns[|columns|..] == [];
    assert handles + [] == handles;
    r := Ok(handles);
  }

  /** What `mtext_handles` returns. */
  function LinkedHandles(linkedHandles: Option<seq<string>>, columns: seq<MText>): (r: Result<seq<string>>)
    reads set c | c in columns
    ensures linkedHandles.Some? && linkedHandles.value != [] ==> r == Ok(linkedHandles.value)
    ensures !(linkedHandles.Some? && linkedHandles.value != []) ==>
      && r == CollectHandles(columns)
      && (r.Ok? <==> forall i :: 0 <= i < |columns| ==> Usable(columns[i]))
      && (r.Ok? ==> |r.value| == |columns| && forall i :: 0 <= i < |columns| ==> r.value[i] == columns[i].handle.value)
  {
    CollectHandlesSpec(columns);
    if linkedHandles.Some? && linkedHandles.value != [] then Ok(linkedHandles.value) else CollectHandles(columns)
  }

  // ------------------------------------------------------------- XDATA tags

  const COLUMN_INFO: string := "ACAD_MTEXT_COLUMN_INFO"
  const COLUMNS: string := "ACAD_MTEXT_COLUMNS"
  const DEFINED_HEIGHT: string := "ACAD_MTEXT_DEFINED_HEIGHT"

  function Begin(name: string): Tag
  {
    Tag(1000, Str(name + "_BEGIN"))
  }

  function End(name: string): Tag
  {
    Tag(1000, Str(name + "_END"))
  }

  /** A `(1070, key)` tag followed by the tag carrying the value. */
  function Pair(key: int, value: Tag): seq<Tag>
  {
    [Tag(1070, Int(key)), value]
  }

  function BoolInt(b: bool): int
  {
    if b then 1 else 0
  }

  function HeightTags(heights: seq<real>): (r: seq<Tag>)
    ensures |r| == |heights|
    ensures forall i :: 0 <= i < |heights| ==> r[i] == Tag(1040, Float(heights[i]))
  {
    seq(|heights|, i requires 0 <= i < |heights| => Tag(1040, Float(heights[i])))
  }

  /** The tags between the markers of the column info group. */
  function InfoBody(info: ColumnInfo): seq<Tag>
  {
    Pair(75, Tag(1070, Int(info.columnType.ToInt()))) +
    (Pair(79, Tag(1070, Int(BoolInt(info.autoHeight)))) +
    (Pair(76, Tag(1070, Int(info.count))) +
    (Pair(78, Tag(1070, Int(BoolInt(info.reversedColumnFlow)))) +
    (Pair(48, Tag(1040, Float(info.width))) +
    (Pair(49, Tag(1040, Float(info.gutterWidth))) +
    HeightPart(info))))))
  }

  /** Only dynamic columns of manual height write their heights. */
  function HeightPart(info: ColumnInfo): seq<Tag>
  {
    if info.DynamicManualHeight() then Pair(50, Tag(1070, Int(|info.heights|))) + HeightTags(info.heights) else []
  }

  /** The ACAD_MTEXT_COLUMN_INFO group for the given settings. */
  function InfoXData(info: ColumnInfo): (r: seq<Tag>)
    ensures |r| == 14 + (if info.DynamicManualHeight() then 2 + |info.heights| else 0)
    ensures r[0] == Begin(COLUMN_INFO) && r[|r| - 1] == End(COLUMN_INFO)
    ensures r[1..|r| - 1] == InfoBody(info)
  {
    var r := [Begin(COLUMN_INFO)] + InfoBody(info) + [End(COLUMN_INFO)];
    assert r[1..|r| - 1] == InfoBody(info);
    r
  }

  /** The ACAD_MTEXT_COLUMNS group: the column count and a `(1005, handle)` per linked column. */
  function ColumnsXData(count: int, handles: seq<string>): (r: seq<Tag>)
    ensures |r| == |handles| + 4
    ensures r[0] == Begin(COLUMNS) && r[|r| - 1] == End(COLUMNS)
  {
    [Begin(COLUMNS)] + Pair(47, Tag(1070, Int(count))) + HandleTags1005(handles) + [End(COLUMNS)]
  }

  function HandleTags1005(handles: seq<string>): (r: seq<Tag>)
    ensures |r| == |handles|
    ensures forall i :: 0 <= i < |handles| ==> r[i] == Tag(1005, Str(handles[i]))
  {
    seq(|handles|, i requires 0 <= i < |handles| => Tag(1005, Str(handles[i])))
  }

  /** The ACAD_MTEXT_DEFINED_HEIGHT group. */
  function DefinedHeightXData(height: real): seq<Tag>
  {
    [Begin(DEFINED_HEIGHT), Tag(1070, Int(46)), Tag(1040, Float(height)), End(DEFINED_HEIGHT)]
  }

  // ---------------------------------------------------------- group search

  /** The first index at or after `from` holding `t`. */
  function IndexOf(tags: seq<Tag>, t: Tag, from: nat): (r: Option<nat>)
    requires from <= |tags|
    ensures r.Some? ==> from <= r.value < |tags| && tags[r.value] == t
    ensures r.Some? ==> forall k :: from <= k < r.value ==> tags[k] != t
    ensures r.None? ==> forall k :: from <= k < |tags| ==> tags[k] != t
    decreases |tags| - from
  {
    if from == |tags| then None
    else if tags[from] == t then Some(from)
    else IndexOf(tags, t, from + 1)
  }

  /** The last index before `before` holding `t`. */
  function LastIndexBefore(tags: seq<Tag>, t: Tag, before: nat): (r: Option<nat>)
    requires before <= |tags|
    ensures r.Some? ==> r.value < before && tags[r.value] == t
    ensures r.Some? ==> forall k :: r.value < k < before ==> tags[k] != t
    ensures r.None? ==> forall k :: 0 <= k < before ==> tags[k] != t
  {
    if before == 0 then None
    else if tags[before - 1] == t then Some(before - 1)
    else LastIndexBefore(tags, t, before - 1)
  }

  /**
   * `find_begin_and_end_of_encoded_xdata_tags(name, tags)`: the first
   * `NAME_END` marker and the last `NAME_BEGIN` marker before it, or
   * nothing when either is missing.
   */
  function FindBeginEnd(name: string, tags: seq<Tag>): (r: Option<(nat, nat)>)
    ensures r.Some? ==> r.value.0 < r.value.1 < |tags|
    ensures r.Some? ==> tags[r.value.0] == Begin(name) && tags[r.value.1] == End(name)
    ensures r.Some? ==> forall k :: 0 <= k < r.value.1 ==> tags[k] != End(name)
    ensures r.Some? ==> forall k :: r.value.0 < k < r.value.1 ==> tags[k] != Begin(name)
  {
    match IndexOf(tags, End(name), 0)
    case None => None
    case Some(e) =>
      match LastIndexBefore(tags, Begin(name), e)
      case None => None
      case Some(b) => Some((b, e))
  }

  /** A group whose only markers are its first and last tag is found as exactly that span. */
  lemma FindFramedGroup(name: string, tags: seq<Tag>)
    requires |tags| >= 2 && tags[0] == Begin(name) && tags[|tags| - 1] == End(name)
    requires forall k :: 0 < k < |tags| - 1 ==> tags[k].code != 1000
    ensures FindBeginEnd(name, tags) == Some((0 as nat, (|tags| - 1) as nat))
  {
    assert IndexOf(tags, End(name), 0) == Some(|tags| - 1);
    assert LastIndexBefore(tags, Begin(name), |tags| - 1) == Some(0);
  }

  // --------------------------------------------------- column info loader

  /** The loop variables of `load_mtext_column_info` and the settings read so far. */
  datatype LoaderState = LoaderState(info: ColumnInfo, heightCount: int, groupCode: Option<Value>)

  function Initial(): LoaderState
  {
    LoaderState(DefaultInfo(), 0, None)
  }

  /** Applies the value `v` to the setting named by the pending group code `key`. */
  function Assign(s: LoaderState, key: Value, v: Value): (r: Result<LoaderState>)
    ensures r.Ok? ==> r.value.groupCode.None?
  {
    var info := s.info;
    var next :=
      if IsKey(key, 75) then
        match ColumnTypeOf(v)
        case Err(e) => Err(e)
        case Ok(t) => Ok(s.(info := info.(columnType := t)))
      else if IsKey(key, 79) then Ok(s.(info := info.(autoHeight := AsBool(v))))
      else if IsKey(key, 76) then
        match AsInt(v)
        case Err(e) => Err(e)
        case Ok(n) => Ok(s.(info := info.(count := n)))
      else if IsKey(key, 78) then Ok(s.(info := info.(reversedColumnFlow := AsBool(v))))
      else if IsKey(key, 48) then
        match AsReal(v)
        case Err(e) => Err(e)
        case Ok(w) => Ok(s.(info := info.(width := w)))
      else if IsKey(key, 49) then
        match AsReal(v)
        case Err(e) => Err(e)
        case Ok(g) => Ok(s.(info := info.(gutterWidth := g)))
      else if IsKey(key, 50) then
        match AsInt(v)
        case Err(e) => Err(e)
        case Ok(n) => Ok(s.(heightCount := n))
      else Ok(s);
    if next.Err? then next else Ok(next.value.(groupCode := None))
  }

  /**
   * One tag of the column info group: a pending height count takes code
   * 1040 tags as heights and is dropped at any other tag; otherwise tags
   * alternate between a group code and its value.
   */
  function Step(s: LoaderState, t: Tag): Result<LoaderState>
  {
    if s.heightCount != 0 && t.code == 1040 then
      match AsReal(t.value)
      case Err(e) => Err(e)
      case Ok(h) => Ok(s.(info := s.info.(heights := s.info.heights + [h]), heightCount := s.heightCount - 1))
    else
      var reset := s.(heightCount := 0);
      if reset.groupCode.None? then Ok(reset.(groupCode := Some(t.value)))
      else Assign(reset, reset.groupCode.value, t.value)
  }

  /** The loader run over `tags` from state `s`; the first failing tag ends it. */
  function RunFrom(s: LoaderState, tags: seq<Tag>): Result<LoaderState>
    decreases |tags|
  {
    if tags == [] then Ok(s)
    else
      match Step(s, tags[0])
      case Err(e) => Err(e)
      case Ok(next) => RunFrom(next, tags[1..])
  }

  /** What `load_mtext_column_info` returns: no group, the settings read from it, or the error raised. */
  function ParseColumnInfo(tags: seq<Tag>): Result<Option<ColumnInfo>>
  {
    match FindBeginEnd(COLUMN_INFO, tags)
    case None => Ok(None)
    case Some((b, e)) =>
      match RunFrom(Initial(), tags[b + 1..e])
      case Err(err) => Err(err)
      case Ok(s) => Ok(Some(s.info))
  }

  /** A key tag followed by its value tag sets that one setting. */
  lemma RunPair(s: LoaderState, key: int, v: Tag, rest: seq<Tag>)
    requires s.heightCount == 0 && s.groupCode.None?
    ensures var a := Assign(s, Int(key), v.value);
      RunFrom(s, Pair(key, v) + rest) == if a.Err? then Err(a.error) else RunFrom(a.value, rest)
  {
    var t := Pair(key, v) + rest;
    assert t[0] == Tag(1070, Int(key)) && t[1..][0] == v && t[1..][1..] == rest;
    var s1 := s.(groupCode := Some(Int(key)));
    assert Step(s, t[0]) == Ok(s1);
  }

  /** Written heights are read back, one per pending count. */
  lemma {:induction false} RunHeights(s: LoaderState, heights: seq<real>)
    requires s.heightCount == |heights| && s.groupCode.None?
    ensures RunFrom(s, HeightTags(heights)) == Ok(s.(info := s.info.(heights := s.info.heights + heights), heightCount := 0))
    decreases |heights|
  {
    if heights != [] {
      var t := HeightTags(heights);
      assert t[1..] == HeightTags(heights[1..]);
      var s1 := s.(info := s.info.(heights := s.info.heights + [heights[0]]), heightCount := s.heightCount - 1);
      assert Step(s, t[0]) == Ok(s1);
      assert RunFrom(s, t) == RunFrom(s1, t[1..]);
      RunHeights(s1, heights[1..]);
      assert s1.info.heights + heights[1..] == s.info.heights + heights;
    } else {
      assert s.info.heights + heights == s.info.heights;
    }
  }

  lemma ColumnTypeRoundTrip(t: ColumnType)
    ensures ColumnTypeOf(Int(t.ToInt())) == Ok(t)
  {
  }

  /** The settings a written column info group reads back as: heights only for manual-height dynamic columns. */
  function Recovered(info: ColumnInfo): ColumnInfo
  {
    info.(heights := if info.DynamicManualHeight() then info.heights else [])
  }

  /** No tag of `tags` is a code 1000 marker. */
  predicate NoMarker(tags: seq<Tag>)
  {
    forall k :: 0 <= k < |tags| ==> tags[k].code != 1000
  }

  lemma NoMarkerConcat(a: seq<Tag>, b: seq<Tag>)
    requires NoMarker(a) && NoMarker(b)
    ensures NoMarker(a + b)
  {
    forall k | 0 <= k < |a + b|
      ensures (a + b)[k].code != 1000
    {
      if k < |a| {
        assert (a + b)[k] == a[k];
      } else {
        assert (a + b)[k] == b[k - |a|];
      }
    }
  }

  /** The encoder writes no marker between the markers of the column info group. */
  lemma InfoBodyNoMarker(info: ColumnInfo)
    ensures NoMarker(InfoBody(info))
  {
    var h := HeightPart(info);
    if info.DynamicManualHeight() {
      NoMarkerConcat(Pair(50, Tag(1070, Int(|info.heights|))), HeightTags(info.heights));
    }
    var b10 := Pair(49, Tag(1040, Float(info.gutterWidth))) + h;
    var b8 := Pair(48, Tag(1040, Float(info.width))) + b10;
    var b6 := Pair(78, Tag(1070, Int(BoolInt(info.reversedColumnFlow)))) + b8;
    var b4 := Pair(76, Tag(1070, Int(info.count))) + b6;
    var b2 := Pair(79, Tag(1070, Int(BoolInt(info.autoHeight)))) + b4;
    NoMarkerConcat(Pair(49, Tag(1040, Float(info.gutterWidth))), h);
    NoMarkerConcat(Pair(48, Tag(1040, Float(info.width))), b10);
    NoMarkerConcat(Pair(78, Tag(1070, Int(BoolInt(info.reversedColumnFlow)))), b8);
    NoMarkerConcat(Pair(76, Tag(1070, Int(info.count))), b6);
    NoMarkerConcat(Pair(79, Tag(1070, Int(BoolInt(info.autoHeight)))), b4);
    NoMarkerConcat(Pair(75, Tag(1070, Int(info.columnType.ToInt()))), b2);
  }

  /** Only the markers of a written column info group are code 1000 tags. */
  lemma InfoXDataFramed(info: ColumnInfo)
    ensures forall k :: 0 < k < |InfoXData(info)| - 1 ==> InfoXData(info)[k].code != 1000
  {
    var x := InfoXData(info);
    var body := x[1..|x| - 1];
    InfoBodyNoMarker(info);
    forall k | 0 < k < |x| - 1
      ensures x[k].code != 1000
    {
      assert x[k] == body[k - 1];
    }
  }

  /** Each written type, flag and count pair assigns exactly its own setting. */
  lemma AssignWritten(s: LoaderState, info: ColumnInfo)
    requires s.heightCount == 0 && s.groupCode.None?
    ensures Assign(s, Int(75), Int(info.columnType.ToInt())) == Ok(s.(info := s.info.(columnType := info.columnType)))
    ensures Assign(s, Int(79), Int(BoolInt(info.autoHeight))) == Ok(s.(info := s.info.(autoHeight := info.autoHeight)))
    ensures Assign(s, Int(76), Int(info.count)) == Ok(s.(info := s.info.(count := info.count)))
    ensures Assign(s, Int(78), Int(BoolInt(info.reversedColumnFlow))) == Ok(s.(info := s.info.(reversedColumnFlow := info.reversedColumnFlow)))
  {
    ColumnTypeRoundTrip(info.columnType);
  }

  /** Each written width, gutter and height count pair assigns exactly its own setting. */
  lemma AssignWrittenSizes(s: LoaderState, info: ColumnInfo)
    requires s.heightCount == 0 && s.groupCode.None?
    ensures Assign(s, Int(48), Float(info.width)) == Ok(s.(info := s.info.(width := info.width)))
    ensures Assign(s, Int(49), Float(info.gutterWidth)) == Ok(s.(info := s.info.(gutterWidth := info.gutterWidth)))
    ensures Assign(s, Int(50), Int(|info.heights|)) == Ok(s.(heightCount := |info.heights|))
  {
  }

  /** Running the loader over a written column info body restores the settings. */
  lemma RunInfoBody(info: ColumnInfo)
    ensures RunFrom(Initial(), InfoBody(info)) == Ok(LoaderState(Recovered(info), 0, None))
  {
    var s0 := Initial();
    var s1 := s0.(info := s0.info.(columnType := info.columnType));
    var s2 := s1.(info := s1.info.(autoHeight := info.autoHeight));
    var s3 := s2.(info := s2.info.(count := info.count));
    var s4 := s3.(info := s3.info.(reversedColumnFlow := info.reversedColumnFlow));
    var s5 := s4.(info := s4.info.(width := info.width));
    var s6 := s5.(info := s5.info.(gutterWidth := info.gutterWidth));
    var h := HeightPart(info);
    var b10 := Pair(49, Tag(1040, Float(info.gutterWidth))) + h;
    var b8 := Pair(48, Tag(1040, Float(info.width))) + b10;
    var b6 := Pair(78, Tag(1070, Int(BoolInt(info.reversedColumnFlow)))) + b8;
    var b4 := Pair(76, Tag(1070, Int(info.count))) + b6;
    var b2 := Pair(79, Tag(1070, Int(BoolInt(info.autoHeight)))) + b4;
    AssignWritten(s0, info);
    AssignWritten(s1, info);
    AssignWritten(s2, info);
    AssignWritten(s3, info);
    AssignWrittenSizes(s4, info);
    AssignWrittenSizes(s5, info);
    RunPair(s0, 75, Tag(1070, Int(info.columnType.ToInt())), b2);
    RunPair(s1, 79, Tag(1070, Int(BoolInt(info.autoHeight))), b4);
    RunPair(s2, 76, Tag(1070, Int(info.count)), b6);
    RunPair(s3, 78, Tag(1070, Int(BoolInt(info.reversedColumnFlow))), b8);
    RunPair(s4, 48, Tag(1040, Float(info.width)), b10);
    RunPair(s5, 49, Tag(1040, Float(info.gutterWidth)), h);
    assert RunFrom(s0, InfoBody(info)) == RunFrom(s6, h);
    RunInfoHeights(s6, info);
  }

  /** The height part of a written group completes the settings. */
  lemma RunInfoHeights(s: LoaderState, info: ColumnInfo)
    requires s == LoaderState(info.(heights := []), 0, None)
    ensures RunFrom(s, HeightPart(info)) == Ok(LoaderState(Recovered(info), 0, None))
  {
    if info.DynamicManualHeight() {
      AssignWrittenSizes(s, info);
      RunPair(s, 50, Tag(1070, Int(|info.heights|)), HeightTags(info.heights));
      RunHeights(s.(heightCount := |info.heights|), info.heights);
      assert [] + info.heights == info.heights;
      assert info.(heights := []).(heights := info.heights) == Recovered(info);
    }
  }

  /** `load_mtext_column_info` reads back what `acad_mtext_column_info_xdata` wrote. */
  lemma ColumnInfoRoundTrip(info: ColumnInfo)
    ensures ParseColumnInfo(InfoXData(info)) == Ok(Some(Recovered(info)))
  {
    var x := InfoXData(info);
    InfoXDataFramed(info);
    FindFramedGroup(COLUMN_INFO, x);
    RunInfoBody(info);
  }

  /** One pass of the loop body of `load_mtext_column_info`: the tag updates the columns object and the loop variables. */
  method LoadTag(columns: MTextColumns, heightCount: int, groupCode: Option<Value>, tag: Tag)
    returns (err: Option<Error>, count: int, code: Option<Value>)
    modifies columns
    ensures var next := Step(LoaderState(old(columns.Info()), heightCount, groupCode), tag);
      if next.Err? then err == Some(next.error)
      else err.None? && next.value == LoaderState(columns.Info(), count, code)
    ensures columns.definedHeight == old(columns.definedHeight) && columns.totalWidth == old(columns.totalWidth)
    ensures columns.linkedHandles == old(columns.linkedHandles) && columns.linkedColumns == old(columns.linkedColumns)
    ensures columns.totalHeight == old(columns.totalHeight)
  {
    err, count, code := None, heightCount, groupCode;
    if count != 0 {
      if tag.code == 1040 {
        var h := AsReal(tag.value);
        if h.Err? {
          return Some(h.error), count, code;
        }
        columns.heights := columns.heights + [h.value];
        count := count - 1;
        return;
      }
      count := 0;
    }
    if code.None? {
      code := Some(tag.value);
      return;
    }
    var key := code.value;
    var value := tag.value;
    if IsKey(key, 75) {
      var t := ColumnTypeOf(value);
      if t.Err? {
        return Some(t.error), count, code;
      }
      columns.columnType := t.value;
    } else if IsKey(key, 79) {
      columns.autoHeight := AsBool(value);
    } else if IsKey(key, 76) {
      var n := AsInt(value);
      if n.Err? {
        return Some(n.error), count, code;
      }
      columns.count := n.value;
    } else if IsKey(key, 78) {
      columns.reversedColumnFlow := AsBool(value);
    } else if IsKey(key, 48) {
      var w := AsReal(value);
      if w.Err? {
        return Some(w.error), count, code;
      }
      columns.width := w.value;
    } else if IsKey(key, 49) {
      var g := AsReal(value);
      if g.Err? {
        return Some(g.error), count, code;
      }
      columns.gutterWidth := g.value;
    } else if IsKey(key, 50) {
      var n := AsInt(value);
      if n.Err? {
        return Some(n.error), count, code;
      }
      count := n.value;
    }
    code := None;
  }

  /** Creates the columns object `load_mtext_column_info` fills, and runs its loop. */
  method LoadMTextColumnInfo(tags: seq<Tag>) returns (r: Result<Option<MTextColumns>>)
    ensures ParseColumnInfo(tags).Err? ==> r == Err(ParseColumnInfo(tags).error)
    ensures ParseColumnInfo(tags) == Ok(None) ==> r == Ok(None)
    ensures ParseColumnInfo(tags).Ok? && ParseColumnInfo(tags).value.Some? ==>
      && r.Ok? && r.value.Some? && fresh(r.value.value)
      && r.value.value.Info() == ParseColumnInfo(tags).value.value
      && r.value.value.definedHeight == 0.0 && r.value.value.totalWidth == 0.0 && r.value.value.totalHeight == 0.0
      && r.value.value.linkedHandles == None && r.value.value.linkedColumns == []
  {
    var found := FindBeginEnd(COLUMN_INFO, tags);
    if found.None? {
      return Ok(None);
    }
    var (start, end) := found.value;
    var body := tags[start + 1..end];
    var columns := new MTextColumns();
    var heightCount := 0;
    var groupCode: Option<Value> := None;
    for i := 0 to |body|
      invariant fresh(columns)
      invariant columns.definedHeight == 0.0 && columns.totalWidth == 0.0 && columns.totalHeight == 0.0
      invariant columns.linkedHandles == None && columns.linkedColumns == []
      invariant RunFrom(Initial(), body) == RunFrom(LoaderState(columns.Info(), heightCount, groupCode), body[i..])
    {
      assert body[i..][0] == body[i] && body[i..][1..] == body[i + 1..];
      var err: Option<Error>;
      err, heightCount, groupCode := LoadTag(columns, heightCount, groupCode, body[i]);
      if err.Some? {
        return Err(err.value);
      }
    }
    assert body[|body|..] == [];
    r := Ok(Some(columns));
  }

  // ------------------------------------------------ linked handles, height

  /** The group's handle tags are text, as the tag reader delivers code 1005. */
  predicate HandlesAreText(tags: seq<Tag>)
  {
    forall i :: 0 <= i < |tags| && tags[i].code == 1005 ==> tags[i].value.Str?
  }

  /** The values of the code 1005 tags, in order. */
  function Handles1005(tags: seq<Tag>): (r: seq<string>)
    requires HandlesAreText(tags)
    ensures |r| <= |tags|
  {
    if tags == [] then []
    else (if tags[0].code == 1005 then [tags[0].value.s] else []) + Handles1005(tags[1..])
  }

  /** What `load_mtext_linked_column_handles` returns. */
  function ParseLinkedHandles(tags: seq<Tag>): seq<string>
    requires HandlesAreText(tags)
  {
    match FindBeginEnd(COLUMNS, tags)
    case None => []
    case Some((b, e)) => Handles1005(tags[b..e])
  }

  /** One tag of the loop: a code 1005 tag adds its handle, any other tag nothing. */
  lemma Handles1005Step(handles: seq<string>, body: seq<Tag>, i: nat)
    requires HandlesAreText(body) && i < |body|
    ensures handles + Handles1005(body[i..]) ==
      (if body[i].code == 1005 then handles + [body[i].value.s] else handles) + Handles1005(body[i + 1..])
  {
    DropNext(body, i);
  }

  method LoadMTextLinkedColumnHandles(tags: seq<Tag>) returns (handles: seq<string>)
    requires HandlesAreText(tags)
    ensures handles == ParseLinkedHandles(tags)
  {
    handles := [];
    var found := FindBeginEnd(COLUMNS, tags);
    if found.None? {
      return;
    }
    var (start, end) := found.value;
    var body := tags[start..end];
    assert HandlesAreText(body) by {
      forall k | 0 <= k < |body| && body[k].code == 1005 ensures body[k].value.Str? {
        assert body[k] == tags[start + k];
      }
    }
    for i := 0 to |body|
      invariant Handles1005(body) == handles + Handles1005(body[i..])
    {
      Handles1005Step(handles, body, i);
      if body[i].code == 1005 {
        handles := handles + [body[i].value.s];
      }
    }
    assert body[|body|..] == [];
  }

  lemma {:induction false} HandleTagsRead(handles: seq<string>)
    ensures HandlesAreText(HandleTags1005(handles))
    ensures Handles1005(HandleTags1005(handles)) == handles
  {
    if handles != [] {
      assert HandleTags1005(handles)[1..] == HandleTags1005(handles[1..]);
      HandleTagsRead(handles[1..]);
    }
  }

  /** `load_mtext_linked_column_handles` reads back the handles `acad_mtext_columns_xdata` wrote. */
  lemma LinkedHandlesRoundTrip(count: int, handles: seq<string>)
    ensures HandlesAreText(ColumnsXData(count, handles))
    ensures ParseLinkedHandles(ColumnsXData(count, handles)) == handles
  {
    var x := ColumnsXData(count, handles);
    var h := HandleTags1005(handles);
    var head := [Begin(COLUMNS), Tag(1070, Int(47)), Tag(1070, Int(count))];
    var body := head + h;
    assert x == body + [End(COLUMNS)];
    assert x[0..|x| - 1] == body;
    forall k | 0 <= k < |x|
      ensures x[k].code != 1000 || k == 0 || k == |x| - 1
      ensures x[k].code == 1005 ==> x[k].value.Str?
    {
      if 3 <= k < |x| - 1 {
        assert x[k] == h[k - 3];
      }
    }
    FindFramedGroup(COLUMNS, x);
    HandleTagsRead(handles);
    assert body[1..][1..][1..] == h;
    assert Handles1005(body) == Handles1005(body[1..]) == Handles1005(body[1..][1..]) == Handles1005(body[1..][1..][1..]);
  }

  /** The group's heights are floats, as the tag reader delivers code 1040. */
  predicate HeightsAreFloat(tags: seq<Tag>)
  {
    forall i :: 0 <= i < |tags| && tags[i].code == 1040 ==> tags[i].value.Float?
  }

  /** The value of the last code 1040 tag of `tags`, or `height` if there is none. */
  function LastHeight(tags: seq<Tag>, height: real): real
    requires HeightsAreFloat(tags)
  {
    if tags == [] then height
    else LastHeight(tags[1..], if tags[0].code == 1040 then tags[0].value.r else height)
  }

  /** What `load_mtext_defined_height` returns. */
  function ParseDefinedHeight(tags: seq<Tag>): real
    requires HeightsAreFloat(tags)
  {
    match FindBeginEnd(DEFINED_HEIGHT, tags)
    case None => 0.0
    case Some((b, e)) => LastHeight(tags[b..e], 0.0)
  }

  method LoadMTextDefinedHeight(tags: seq<Tag>) returns (height: real)
    requires HeightsAreFloat(tags)
    ensures height == ParseDefinedHeight(tags)
  {
    height := 0.0;
    var found := FindBeginEnd(DEFINED_HEIGHT, tags);
    if found.None? {
      return;
    }
    var (start, end) := found.value;
    var body := tags[start..end];
    for i := 0 to |body|
      invariant LastHeight(body, 0.0) == LastHeight(body[i..], height)
    {
      assert body[i..][1..] == body[i + 1..];
      if body[i].code == 1040 {
        height := body[i].value.r;
      }
    }
    assert body[|body|..] == [];
  }

  /** `load_mtext_defined_height` reads back the height `acad_mtext_defined_height_xdata` wrote. */
  lemma DefinedHeightRoundTrip(height: real)
    ensures HeightsAreFloat(DefinedHeightXData(height))
    ensures ParseDefinedHeight(DefinedHeightXData(height)) == height
  {
    var x := DefinedHeightXData(height);
    FindFramedGroup(DEFINED_HEIGHT, x);
    var body := x[0..3];
    assert body[1..][1..][1..] == [];
    assert LastHeight(body, 0.0) == LastHeight(body[1..], 0.0) == LastHeight(body[1..][1..], 0.0)
        == LastHeight(body[1..][1..][1..], height);
  }

  // ---------------------------------------------------------- text content

  /** The values of the code 1 and code 3 tags are text. */
  predicate ContentIsText(tags: seq<Tag>)
  {
    forall i :: 0 <= i < |tags| && (tags[i].code == 1 || tags[i].code == 3) ==> tags[i].value.Str?
  }

  /** The code 3 values, in order. */
  function Parts(tags: seq<Tag>): seq<string>
    requires ContentIsText(tags)
  {
    if tags == [] then []
    else (if tags[0].code == 3 then [tags[0].value.s] else []) + Parts(tags[1..])
  }

  /** The last code 1 value, or `tail` if there is none. */
  function Tail(tags: seq<Tag>, tail: string): string
    requires ContentIsText(tags)
  {
    if tags == [] then tail
    else Tail(tags[1..], if tags[0].code == 1 then tags[0].value.s else tail)
  }

  /** The tags that are neither code 1 nor code 3, in order. */
  function Others(tags: seq<Tag>): (r: seq<Tag>)
    ensures forall i :: 0 <= i < |r| ==> r[i].code != 1 && r[i].code != 3
    ensures |r| <= |tags|
  {
    if tags == [] then []
    else (if tags[0].code != 1 && tags[0].code != 3 then [tags[0]] else []) + Others(tags[1..])
  }

  /** One tag of the content loop: code 1 replaces the tail, code 3 adds a part, any other code is passed on. */
  lemma ContentStep(tags: seq<Tag>, i: nat, parts: seq<string>, rest: seq<Tag>, tail: string)
    requires ContentIsText(tags) && i < |tags|
    ensures ContentIsText(tags[i..]) && ContentIsText(tags[i + 1..])
    ensures Tail(tags[i..], tail) == Tail(tags[i + 1..], if tags[i].code == 1 then tags[i].value.s else tail)
    ensures parts + Parts(tags[i..]) ==
      (if tags[i].code == 3 then parts + [tags[i].value.s] else parts) + Parts(tags[i + 1..])
    ensures rest + Others(tags[i..]) ==
      (if tags[i].code != 1 && tags[i].code != 3 then rest + [tags[i]] else rest) + Others(tags[i + 1..])
  {
    DropNext(tags, i);
    var t := tags[i];
    if t.code == 3 {
      AppendAssoc(parts, [t.value.s], Parts(tags[i + 1..]));
    } else {
      assert [] + Parts(tags[i + 1..]) == Parts(tags[i + 1..]);
    }
    if t.code != 1 && t.code != 3 {
      AppendAssoc(rest, [t], Others(tags[i + 1..]));
    } else {
      assert [] + Others(tags[i + 1..]) == Others(tags[i + 1..]);
    }
  }

  /** `"".join(parts)`. */
  function Concat(parts: seq<string>): string
  {
    if parts == [] then "" else parts[0] + Concat(parts[1..])
  }

  lemma {:induction false} ConcatAppend(parts: seq<string>, s: string)
    ensures Concat(parts + [s]) == Concat(parts) + s
  {
    if parts != [] {
      assert (parts + [s])[1..] == parts[1..] + [s];
      ConcatAppend(parts[1..], s);
    }
  }

  /** A stand-in for `split_mtext_string(s, size)`: consecutive chunks of at most `size` characters. */
  function SplitChunks(s: string, size: nat): (r: seq<string>)
    requires size > 0
    ensures Concat(r) == s
    ensures forall i :: 0 <= i < |r| ==> 0 < |r[i]| <= size
    decreases |s|
  {
    if s == [] then []
    else if |s| <= size then [s]
    else
      var rest := SplitChunks(s[size..], size);
      assert s == s[..size] + s[size..];
      [s[..size]] + rest
  }

  /** What `export_mtext_content` writes for the chunks: code 3 for all but the last, code 1 for the last. */
  function ContentTags(chunks: seq<string>): (r: seq<Tag>)
    ensures |r| == if chunks == [] then 1 else |chunks|
    ensures r[|r| - 1].code == 1
    ensures forall i :: 0 <= i < |r| - 1 ==> r[i].code == 3
  {
    if chunks == [] then [Tag(1, Str(""))]
    else if |chunks| == 1 then [Tag(1, Str(chunks[0]))]
    else [Tag(3, Str(chunks[0]))] + ContentTags(chunks[1..])
  }

  /** A leading code 3 tag adds its value as the first part and changes nothing else. */
  lemma ReadPart(c: string, u: seq<Tag>)
    requires ContentIsText(u)
    ensures ContentIsText([Tag(3, Str(c))] + u)
    ensures Parts([Tag(3, Str(c))] + u) == [c] + Parts(u)
    ensures Tail([Tag(3, Str(c))] + u, "") == Tail(u, "")
    ensures Others([Tag(3, Str(c))] + u) == Others(u)
  {
    assert ([Tag(3, Str(c))] + u)[1..] == u;
  }

  lemma ConcatCons(c: string, parts: seq<string>)
    ensures Concat([c] + parts) == c + Concat(parts)
  {
    assert ([c] + parts)[1..] == parts;
  }

  /** Reading back written content joins the chunks again, and nothing else is passed through. */
  lemma {:induction false} ContentRoundTrip(chunks: seq<string>)
    ensures ContentIsText(ContentTags(chunks))
    ensures Concat(Parts(ContentTags(chunks))) + Tail(ContentTags(chunks), "") == Concat(chunks)
    ensures Others(ContentTags(chunks)) == []
    decreases |chunks|
  {
    if |chunks| > 1 {
      var c, u := chunks[0], ContentTags(chunks[1..]);
      assert ContentTags(chunks) == [Tag(3, Str(c))] + u;
      ContentRoundTrip(chunks[1..]);
      ReadPart(c, u);
      ConcatCons(c, Parts(u));
      assert Concat(chunks) == c + Concat(chunks[1..]);
      assert (c + Concat(Parts(u))) + Tail(u, "") == c + (Concat(Parts(u)) + Tail(u, ""));
    }
  }

  /** A tag sequence that ends with a code 1 tag has a tail independent of the start value. */
  lemma {:induction false} TailIgnoresStart(tags: seq<Tag>, a: string, b: string)
    requires ContentIsText(tags) && tags != [] && tags[|tags| - 1].code == 1
    ensures Tail(tags, a) == Tail(tags, b)
    decreases |tags|
  {
    if |tags| > 1 {
      TailIgnoresStart(tags[1..], if tags[0].code == 1 then tags[0].value.s else a,
                                  if tags[0].code == 1 then tags[0].value.s else b);
    }
  }

  /** Exactly one code 1 tag is written, whatever the text. */
  lemma OneTextTag(chunks: seq<string>)
    ensures |set i | 0 <= i < |ContentTags(chunks)| && ContentTags(chunks)[i].code == 1| == 1
  {
    var t := ContentTags(chunks);
    assert (set i | 0 <= i < |t| && t[i].code == 1) == {|t| - 1};
  }

  const CHUNK_SIZE: nat := 250

  /** Writing the first of several chunks as a code 3 tag leaves the tags of the others to write. */
  lemma WriteContentStep(written: seq<Tag>, todo: seq<string>)
    requires |todo| > 1
    ensures written + ContentTags(todo) == (written + [Tag(3, Str(todo[0]))]) + ContentTags(todo[1..])
  {
    assert ContentTags(todo) == [Tag(3, Str(todo[0]))] + ContentTags(todo[1..]);
    AppendAssoc(written, [Tag(3, Str(todo[0]))], ContentTags(todo[1..]));
  }

  /** Writes the chunks as content tags: all but the last as code 3, the last (or an empty text) as code 1. */
  method WriteContent(w: TagWriter, chunks: seq<string>)
    modifies w
    ensures w.written == old(w.written) + ContentTags(chunks)
  {
    ghost var goal := old(w.written) + ContentTags(chunks);
    var todo := if chunks == [] then [""] else chunks;
    assert ContentTags(todo) == ContentTags(chunks);
    while |todo| > 1
      invariant todo != []
      invariant goal == w.written + ContentTags(todo)
    {
      WriteContentStep(w.written, todo);
      w.WriteTag2(3, Str(todo[0]));
      todo := todo[1..];
    }
    assert ContentTags(todo) == [Tag(1, Str(todo[0]))];
    w.WriteTag2(1, Str(todo[0]));
  }

  /** An MTEXT entity, as far as its content and columns go. */
  class MText {
    const caretDecode: string -> string
    const escapeLineEndings: string -> string
    var text: string
    var handle: Option<string>
    var isAlive: bool
    var columns: Option<MTextColumns>
    var width: real
    var definedHeight: real

    constructor (caretDecode: string -> string, escapeLineEndings: string -> string, handle: Option<string>)
      ensures this.caretDecode == caretDecode && this.escapeLineEndings == escapeLineEndings
      ensures this.handle == handle && text == "" && isAlive && columns == None
      ensures width == 0.0 && definedHeight == 0.0
    {
      this.caretDecode := caretDecode;
      this.escapeLineEndings := escapeLineEndings;
      this.handle := handle;
      text := "";
      isAlive := true;
      columns := None;
      width := 0.0;
      definedHeight := 0.0;
    }

    /**
     * `load_mtext_content`: the text is the code 3 parts followed by the
     * last code 1 value; every other tag is passed on, in order.
     */
    method LoadMTextContent(tags: seq<Tag>) returns (rest: seq<Tag>)
      requires ContentIsText(tags)
      modifies this
      ensures rest == Others(tags)
      ensures text == escapeLineEndings(caretDecode(Concat(Parts(tags)) + Tail(tags, "")))
      ensures columns == old(columns) && handle == old(handle) && isAlive == old(isAlive)
      ensures width == old(width) && definedHeight == old(definedHeight)
    {
      var tail := "";
      var parts: seq<string> := [];
      rest := [];
      for i := 0 to |tags|
        invariant Tail(tags, "") == Tail(tags[i..], tail)
        invariant Parts(tags) == parts + Parts(tags[i..])
        invariant Others(tags) == rest + Others(tags[i..])
        invariant unchanged(this)
      {
        ContentStep(tags, i, parts, rest, tail);
        var tag := tags[i];
        if tag.code == 1 {
          tail := tag.value.s;
        } else if tag.code == 3 {
          parts := parts + [tag.value.s];
        } else {
          rest := rest + [tag];
        }
      }
      assert tags[|tags|..] == [];
      assert parts + [] == parts && rest + [] == rest;
      assert Parts(tags) == parts && Tail(tags, "") == tail;
      ConcatAppend(parts, tail);
      text := escapeLineEndings(caretDecode(Concat(parts + [tail])));
    }

    /** `export_mtext_content`. */
    method ExportMTextContent(w: TagWriter)
      modifies w
      ensures w.written == old(w.written) + ContentTags(SplitChunks(escapeLineEndings(text), CHUNK_SIZE))
    {
      var chunks := SplitChunks(escapeLineEndings(text), CHUNK_SIZE);
      WriteContent(w, chunks);
    }

    /**
     * The guard of `setup_columns`: a second column setup is refused.
     * Otherwise the entity takes the columns, their width and defined
     * height, and the columns' missing total height and width are filled in.
     */
    method SetupColumns(c: MTextColumns) returns (r: Result<()>)
      requires c.columnType != NONE && c.count > 0 && c.width > 0.0 && c.gutterWidth >= 0.0
      modifies this, c
      ensures old(columns).Some? ==> r == Err(DXFStructureError("Column setup already exist.")) && unchanged(this) && unchanged(c)
      ensures old(columns).None? ==>
        && r == Ok(()) && columns == Some(c)
        && width == c.width && definedHeight == c.definedHeight
        && c.totalHeight == (if old(c.totalHeight) < 0.000001 then c.definedHeight else old(c.totalHeight))
        && c.totalWidth == (if old(c.totalWidth) < 0.000001 then TotalWidth(c.count, c.width, c.gutterWidth) else old(c.totalWidth))
        && c.Info() == old(c.Info()) && c.definedHeight == old(c.definedHeight)
        && c.linkedHandles == old(c.linkedHandles) && c.linkedColumns == old(c.linkedColumns)
        && text == old(text) && handle == old(handle) && isAlive == old(isAlive)
    {
      if columns.Some? {
        return Err(DXFStructureError("Column setup already exist."));
      }
      columns := Some(c);
      width := c.width;
      definedHeight := c.definedHeight;
      if c.totalHeight < 0.000001 {
        c.totalHeight := c.definedHeight;
      }
      if c.totalWidth < 0.000001 {
        c.UpdateTotalWidth();
      }
      r := Ok(());
    }
  }

}
