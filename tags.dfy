/**
 * The primitive every other module works on: a DXF tag, an atomic
 * (group code, value) record, plus the error kinds the core raises and the
 * append-only tag writer the exporters write to.
 */
module Tags {

  /** A tag value. The tag reader types each value by its group code. */
  datatype Value = Str(s: string) | Int(i: int) | Float(r: real) | Vec(coords: seq<real>)

  datatype Tag = Tag(code: int, value: Value)

  /** DXF attribute dictionaries (`dxfattribs`), keyed by attribute name. */
  type Attribs = map<string, Value>

  // Group codes and marker strings of the side-channel groups.
  const APP_DATA_MARKER: int := 102
  const REACTOR_HANDLE_CODE: int := 330
  const XDICT_HANDLE_CODE: int := 360
  const ACAD_REACTORS: string := "{ACAD_REACTORS"
  const ACAD_XDICTIONARY: string := "{ACAD_XDICTIONARY"
  const GROUP_CLOSE: string := "}"

  /** The exceptions of the core, one constructor per exception class. */
  datatype Error =
    | DXFKeyError(key: string)
    | DXFStructureError(message: string)
    | DXFTableEntryError(name: string)
    | DXFTypeError(message: string)
    | DXFValueError(message: string)
    | DXFVersionError(message: string)
    | TypeError(message: string)
    | ValueError(message: string)
    | KeyError(key: string)
    | IndexError(message: string)
    | AssertionError
    | StopIteration

  datatype Result<T> = Ok(value: T) | Err(error: Error)

  datatype Option<T> = None | Some(value: T)

  /** Group codes whose values the tag reader delivers as text. */
  predicate TextCode(code: int)
  {
    0 <= code <= 9 || 100 <= code <= 109 || 300 <= code <= 369 || 1000 <= code <= 1009
  }

  /** Group codes whose values the tag reader delivers as integers. */
  predicate IntCode(code: int)
  {
    60 <= code <= 99 || 1060 <= code <= 1071
  }

  /** Group codes whose values the tag reader delivers as floats. */
  predicate FloatCode(code: int)
  {
    40 <= code <= 59 || 1040 <= code <= 1059
  }

  /** A tag as the tag reader produces it: its value has the type its group code designates. */
  predicate WellTyped(t: Tag)
  {
    && (TextCode(t.code) ==> t.value.Str?)
    && (IntCode(t.code) ==> t.value.Int?)
    && (FloatCode(t.code) ==> t.value.Float?)
  }

  predicate AllWellTyped(tags: seq<Tag>)
  {
    forall i :: 0 <= i < |tags| ==> WellTyped(tags[i])
  }

  /** The tag writer: an append-only sink of tags. */
  class TagWriter {
    var written: seq<Tag>

    constructor ()
      ensures written == []
    {
      written := [];
    }

    method WriteTag2(code: int, value: Value)
      modifies this
      ensures written == old(written) + [Tag(code, value)]
    {
      written := written + [Tag(code, value)];
    }

    method WriteTags(tags: seq<Tag>)
      modifies this
      ensures written == old(written) + tags
    {
      written := written + tags;
    }
  }
}
