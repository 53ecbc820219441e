/**
 * Meshes (`GLMesh`): named vertex and index buffers. Both dictionaries iterate in insertion
 * order, so they are ordered maps from stream names to buffers.
 */
module GLMeshes {
  import opened Wrappers
  import opened GL
  import opened TypedArrays
  import opened OrderedMaps
  import opened GLContexts
  import opened GLBuffers
  import Loki

  /** One entry of the stream schema: components per vertex, shader attribute, element kind. */
  datatype StreamInfo = StreamInfo(itemSize: int, attribute: string, kind: ArrayKind)

  /** The schema of the common vertex streams (`GLMesh.CommonBuffers`), in declaration order. */
  const COMMON_BUFFERS: seq<(string, StreamInfo)> := [
    ("P", StreamInfo(3, "a_P", Float32)),
    ("N", StreamInfo(3, "a_N", Float32)),
    ("uv", StreamInfo(2, "a_uv", Float32)),
    ("uv2", StreamInfo(2, "a_uv2", Float32)),
    ("Cd", StreamInfo(4, "a_Cd", Float32)),
    ("T", StreamInfo(3, "a_T", Float32)),
    ("size", StreamInfo(1, "a_size", Float32)),
    ("boneIndices", StreamInfo(4, "a_boneIndices", Uint8)),
    ("weights", StreamInfo(4, "a_weights", Float32))]

  /** The entry of the first pair named `name`. */
  function Lookup(entries: seq<(string, StreamInfo)>, name: string): Option<StreamInfo>
  {
    if entries == [] then None
    else if entries[0].0 == name then Some(entries[0].1)
    else Lookup(entries[1..], name)
  }

  /** A found entry is one of the pairs, under the name looked up. */
  lemma {:induction false} LookupFound(entries: seq<(string, StreamInfo)>, name: string)
    ensures Lookup(entries, name).Some? ==>
      exists i :: 0 <= i < |entries| && entries[i] == (name, Lookup(entries, name).value)
  {
    if entries != [] && entries[0].0 != name {
      LookupFound(entries[1..], name);
      if Lookup(entries, name).Some? {
        var i :| 0 <= i < |entries[1..]| && entries[1..][i] == (name, Lookup(entries, name).value);
        assert entries[i + 1] == entries[1..][i];
      }
    }
  }

  /** The schema entry of a stream name, if it has one. */
  function CommonBuffer(name: string): (r: Option<StreamInfo>)
    ensures r.Some? ==> 1 <= r.value.itemSize <= 4 && r.value.attribute != ""
  {
    LookupFound(COMMON_BUFFERS, name);
    var r := Lookup(COMMON_BUFFERS, name);
    if r.Some? then
      var i :| 0 <= i < |COMMON_BUFFERS| && COMMON_BUFFERS[i] == (name, r.value);
      SchemaEntry(i);
      r
    else r
  }

  /**
   * The schema holds exactly the nine common stream names; each names its attribute
   * `a_<name>`, and only bone indices are bytes, the others 32-bit floats.
   */
  lemma CommonBufferNames(name: string)
    ensures CommonBuffer(name).Some? <==> name in {"P", "N", "uv", "uv2", "Cd", "T", "size", "boneIndices", "weights"}
    ensures CommonBuffer(name).Some? ==>
      var info := CommonBuffer(name).value;
      info.attribute == "a_" + name && (if name == "boneIndices" then info.kind == Uint8 else info.kind == Float32)
  {
    LookupFound(COMMON_BUFFERS, name);
    if CommonBuffer(name).Some? {
      var i :| 0 <= i < |COMMON_BUFFERS| && COMMON_BUFFERS[i] == (name, CommonBuffer(name).value);
      SchemaEntry(i);
    }
  }

  /** Every schema entry names its attribute `a_<name>`, and only bone indices are bytes. */
  lemma SchemaEntry(i: int)
    requires 0 <= i < |COMMON_BUFFERS|
    ensures var e := COMMON_BUFFERS[i];
      e.1.attribute == "a_" + e.0 && e.1.attribute != "" && 1 <= e.1.itemSize <= 4
      && (if e.0 == "boneIndices" then e.1.kind == Uint8 else e.1.kind == Float32)
  {
  }

  /** The names under which `configure` expects index data (`GLMesh.CommonIndexBuffers`). */
  const COMMON_INDEX_BUFFERS: seq<string> := ["indices", "lines", "triangles"]

  /** Stream data as a caller gives it: absent (falsy), plain numbers, nested arrays, or a typed array. */
  datatype Stream = NoStream | Numbers(values: seq<real>) | Nested(rows: seq<seq<real>>) | Typed(typed: NumArray)

  /** The one-level flattening of nested index arrays. */
  function Flatten(rows: seq<seq<real>>): seq<real>
  {
    if rows == [] then [] else rows[0] + Flatten(rows[1..])
  }

  /** The total number of entries in nested arrays. */
  function TotalLength(rows: seq<seq<real>>): nat
  {
    if rows == [] then 0 else |rows[0]| + TotalLength(rows[1..])
  }

  /** Flattening joins: the flattening of two runs of rows is the two flattenings one after the other. */
  lemma {:induction false} FlattenAppend(a: seq<seq<real>>, b: seq<seq<real>>)
    ensures Flatten(a + b) == Flatten(a) + Flatten(b)
  {
    if a != [] {
      assert (a + b)[1..] == a[1..] + b;
      FlattenAppend(a[1..], b);
    } else {
      assert a + b == b;
    }
  }

  /** Flattening keeps every entry, and the rows stay in order: row i starts after the rows before it. */
  lemma {:induction false} FlattenRows(rows: seq<seq<real>>, i: nat)
    requires i < |rows|
    ensures |Flatten(rows)| == TotalLength(rows)
    ensures Flatten(rows[..i + 1]) == Flatten(rows[..i]) + rows[i]
  {
    FlattenLength(rows);
    assert rows[..i + 1] == rows[..i] + [rows[i]];
    FlattenAppend(rows[..i], [rows[i]]);
    assert Flatten([rows[i]]) == rows[i] + Flatten([]);
  }

  lemma {:induction false} FlattenLength(rows: seq<seq<real>>)
    ensures |Flatten(rows)| == TotalLength(rows)
  {
    if rows != [] {
      FlattenLength(rows[1..]);
    }
  }

  /** The element kind of index data built from plain numbers: 32 bits only beyond 65536 vertices. */
  function IndexKind(numVertices: Option<real>): (k: ArrayKind)
    ensures k == Uint32 <==> numVertices.Some? && numVertices.value > 65536.0
    ensures k == Uint16 || k == Uint32
  {
    if numVertices.Some? && numVertices.value > 65536.0 then Uint32 else Uint16
  }

  /**
   * The typed array an index stream becomes in `addBuffers`: nested arrays are flattened,
   * plain numbers are cast to 16- or 32-bit indices, and typed arrays are kept.
   */
  function IndexArray(s: Stream, numVertices: Option<real>): (r: NumArray)
    requires !s.NoStream?
    ensures s.Typed? ==> r == s.typed
    ensures s.Numbers? ==> r.kind == IndexKind(numVertices) && |r.values| == |s.values|
    ensures s.Nested? ==> r.kind == IndexKind(numVertices) && r.values == Convert(r.kind, Flatten(s.rows)).values
  {
    match s
    case Typed(a) => a
    case Numbers(xs) => Convert(IndexKind(numVertices), xs)
    case Nested(rows) => Convert(IndexKind(numVertices), Flatten(rows))
  }

  /** The typed array a vertex stream becomes: plain numbers take the schema's kind. */
  function VertexArray(name: string, s: Stream): (r: NumArray)
    requires CommonBuffer(name).Some? && (s.Numbers? || s.Typed?)
    ensures s.Typed? ==> r == s.typed
    ensures s.Numbers? ==> r == Convert(CommonBuffer(name).value.kind, s.values)
  {
    if s.Typed? then s.typed else Convert(CommonBuffer(name).value.kind, s.values)
  }

  /** Plain bone indices become bytes, every other plain vertex stream 32-bit floats. */
  lemma PlainVertexKinds(name: string, xs: seq<real>)
    requires CommonBuffer(name).Some?
    ensures VertexArray(name, Numbers(xs)).kind == (if name == "boneIndices" then Uint8 else Float32)
    ensures |VertexArray(name, Numbers(xs)).values| == |xs|
  {
    CommonBufferNames(name);
  }

  /** Whether `addBuffers` keeps a vertex stream: present, and named in the schema. */
  predicate KeptVertex(streams: OMap<string, Stream>, k: string)
  {
    k in streams.values && !streams.values[k].NoStream? && CommonBuffer(k).Some?
  }

  /** The vertex streams `addBuffers` keeps. */
  ghost function VertexNames(streams: OMap<string, Stream>): set<string>
  {
    set k | k in streams.values && KeptVertex(streams, k)
  }

  /** The index streams `addBuffers` keeps: the present ones. */
  ghost function IndexNames(streams: OMap<string, Stream>): set<string>
  {
    set k | k in streams.values && !streams.values[k].NoStream?
  }

  /** What `numVertices` and `numTriangles` evaluate to: a number, a division by zero, or a TypeError. */
  datatype Count = Count(value: real) | NotFinite | Fails

  /** A mesh value that is neither index nor vertex data: the `info` object, or an option. */
  datatype ConfigValue = Falsy | Group(entries: seq<(string, Stream)>) | StreamValue(stream: Stream) | InfoValue | OptionValue(option: Loki.JsValue)

  /** The result of sorting the entries of a `configure` argument. */
  datatype Routed = Routed(vertex: OMap<string, Stream>, index: OMap<string, Stream>, options: OMap<string, ConfigValue>, info: bool)
  {
    ghost predicate Valid()
    {
      vertex.Valid() && index.Valid() && options.Valid()
    }
  }

  /** The entries of a group, or none when the value is not a group. */
  function GroupEntries(v: ConfigValue): seq<(string, Stream)>
  {
    if v.Group? then v.entries else []
  }

  /** The stream a value holds, or none. */
  function StreamOf(v: ConfigValue): Stream
  {
    if v.StreamValue? then v.stream else NoStream
  }

  function PutAll(m: OMap<string, Stream>, entries: seq<(string, Stream)>): (r: OMap<string, Stream>)
    requires m.Valid()
    decreases |entries|
    ensures r.Valid()
    ensures forall k :: k in r.values <==> k in m.values || exists e :: e in entries && e.0 == k
  {
    if entries == [] then m
    else
      var r := PutAll(Put(m, entries[0].0, entries[0].1), entries[1..]);
      assert forall e :: e in entries[1..] ==> e in entries;
      assert forall e :: e in entries ==> e == entries[0] || e in entries[1..];
      r
  }

  /** The routing of one entry of a `configure` argument. */
  function RouteEntry(r: Routed, key: string, v: ConfigValue): (r': Routed)
    requires r.Valid()
    ensures r'.Valid() && r'.info == (r.info || (!v.Falsy? && key == "info"))
  {
    if v.Falsy? then r
    else if key == "indexBuffers" then r.(index := PutAll(r.index, GroupEntries(v)))
    else if key == "vertexBuffers" then r.(vertex := PutAll(r.vertex, GroupEntries(v)))
    else if key in COMMON_INDEX_BUFFERS then r.(index := Put(r.index, key, StreamOf(v)))
    else if CommonBuffer(key).Some? then
      CommonBufferNames(key);
      r.(vertex := Put(r.vertex, key, StreamOf(v)))
    else if key == "info" then r.(info := true)
    else r.(options := Put(r.options, key, v))
  }

  /** The routing of the first entries of a `configure` argument, in order. */
  function Route(o: seq<(string, ConfigValue)>): (r: Routed)
    ensures r.Valid()
  {
    if o == [] then Routed(Empty(), Empty(), Empty(), false)
    else RouteEntry(Route(o[..|o| - 1]), o[|o| - 1].0, o[|o| - 1].1)
  }

  /**
   * Every truthy entry lands in exactly one place: index names in the index streams, schema
   * names in the vertex streams, and every other name except the groups and `info` in the
   * options; falsy entries land nowhere.
   */
  lemma {:induction false} RouteSorts(o: seq<(string, ConfigValue)>, key: string)
    requires key !in {"indexBuffers", "vertexBuffers", "info"}
    ensures key in Route(o).options.values <==>
      key !in COMMON_INDEX_BUFFERS && CommonBuffer(key).None? && exists e :: e in o && e.0 == key && !e.1.Falsy?
    ensures key in COMMON_INDEX_BUFFERS && (exists e :: e in o && e.0 == key && !e.1.Falsy?) ==> key in Route(o).index.values
    ensures key !in COMMON_INDEX_BUFFERS && CommonBuffer(key).Some? && (exists e :: e in o && e.0 == key && !e.1.Falsy?)
      ==> key in Route(o).vertex.values
  {
    if o != [] {
      var init := o[..|o| - 1];
      var last := o[|o| - 1];
      RouteSorts(init, key);
      assert o == init + [last];
      assert Route(o) == RouteEntry(Route(init), last.0, last.1);
      if last.0 == key {
        RouteEntryKey(Route(init), key, last.1);
      } else {
        RouteEntryOther(Route(init), last.0, last.1, key);
      }
    }
  }

  /** Routing an entry stores its own key where `RouteSorts` says. */
  lemma RouteEntryKey(r: Routed, key: string, v: ConfigValue)
    requires r.Valid() && key !in {"indexBuffers", "vertexBuffers", "info"}
    ensures var r' := RouteEntry(r, key, v);
      (key in r'.options.values <==>
        key in r.options.values || (!v.Falsy? && key !in COMMON_INDEX_BUFFERS && CommonBuffer(key).None?))
      && (key in r.index.values || (!v.Falsy? && key in COMMON_INDEX_BUFFERS) ==> key in r'.index.values)
      && (key in r.vertex.values || (!v.Falsy? && key !in COMMON_INDEX_BUFFERS && CommonBuffer(key).Some?)
          ==> key in r'.vertex.values)
  {
  }

  /** Routing an entry under another key leaves `key` where it was, except through the two groups. */
  lemma RouteEntryOther(r: Routed, other: string, v: ConfigValue, key: string)
    requires r.Valid() && other != key && key !in {"indexBuffers", "vertexBuffers", "info"}
    ensures var r' := RouteEntry(r, other, v);
      (key in r'.options.values <==> key in r.options.values)
      && (key in r.index.values ==> key in r'.index.values)
      && (key in r.vertex.values ==> key in r'.vertex.values)
  {
  }

  /** The options value `addBuffers` is given as `usage`: an integral number, or 0 for absent. */
  function UsageOf(options: OMap<string, ConfigValue>): int
  {
    if "usage" in options.values && options.values["usage"].OptionValue? && options.values["usage"].option.Num?
    then Trunc(options.values["usage"].option.x)
    else 0
  }

  /** The property key `freeData` deletes for a buffer: its name, or "undefined" when it has none. */
  function NameKey(name: Option<string>): string
  {
    if name.Some? then name.value else "undefined"
  }

  const NO_ATTRIBUTE := "Buffer added to mesh without attribute name"
  const NO_VERTEX_COUNT := "TypeError: this.getNumVertices is not a function"
  const NOT_TYPED_ARRAY := "Buffer data MUST be typed array"
  const NO_DELETE := "TypeError: buffer.delete is not a function"

  /** A buffer `addBuffers` created for a schema stream: its attribute and item size come from the schema. */
  ghost predicate NewStreamBuffer(name: string, b: GLBuffer)
    reads b
  {
    CommonBuffer(name).Some? && b.attribute == Some(CommonBuffer(name).value.attribute)
    && b.itemSize == CommonBuffer(name).value.itemSize && b.target == ARRAY_BUFFER
  }

  /**
   * The buffer holds `a` as its last whole upload: the array handed to `bufferData` (widened
   * as `upload` widens it), with the element type and length recorded from it.
   */
  ghost predicate Uploaded(b: GLBuffer, a: NumArray)
    reads b
  {
    a.kind != Float64 && b.uploaded == Some(UploadedArray(b.target, a))
    && b.glType == UploadedType(b.target, a.kind) && b.length == |a.values|
  }

  /** The buffer under `k` is filed under no other name of the map. */
  ghost predicate Unshared(m: OMap<string, GLBuffer>, k: string)
  {
    k in m.values && forall j :: j in m.values && j != k ==> m.values[j] != m.values[k]
  }

  /** The buffer filed under `k`, as a set: empty when the map has none. */
  ghost function Under(m: OMap<string, GLBuffer>, k: string): set<GLBuffer>
  {
    if k in m.values then {m.values[k]} else {}
  }

  /** The context of the buffer filed under `k`, as a set. */
  ghost function ContextUnder(m: OMap<string, GLBuffer>, k: string): set<GLContext>
  {
    if k in m.values then {m.values[k].gl} else {}
  }

  /** A schema stream as `addBuffers` stores it: the schema's attribute and item size, and the stream's array uploaded. */
  ghost predicate StreamStored(k: string, b: GLBuffer, a: NumArray)
    reads b
  {
    CommonBuffer(k).Some? && b.attribute == Some(CommonBuffer(k).value.attribute)
    && b.itemSize == CommonBuffer(k).value.itemSize && Uploaded(b, a)
  }

  /** A vertex buffer `addBuffers` creates for a schema stream. */
  ghost predicate NewVertexStream(k: string, b: GLBuffer, a: NumArray)
    reads b
  {
    StreamStored(k, b, a) && b.target == ARRAY_BUFFER && b.name == Some(k)
  }

  /** Every field of a buffer, as one value. */
  datatype BufferFields = BufferFields(target: int, name: Option<string>, attribute: Option<string>, itemSize: int,
                                       data: Option<NumArray>, uploaded: Option<NumArray>, glType: int, length: nat,
                                       handle: Option<Handle>, uploadedItemSize: int)

  ghost function FieldsOf(b: GLBuffer): BufferFields
    reads b
  {
    BufferFields(b.target, b.name, b.attribute, b.itemSize, b.data, b.uploaded, b.glType, b.length, b.handle, b.uploadedItemSize)
  }

  /**
   * Whether `addBuffers` hands data to the buffer under `k`: a kept stream whose array is
   * not empty (`updateVertexBuffer` returns at once on empty data).
   */
  predicate Fed(vstreams: OMap<string, Stream>, k: string)
  {
    KeptVertex(vstreams, k) && !vstreams.values[k].Nested? && |VertexArray(k, vstreams.values[k]).values| > 0
  }

  /**
   * What the vertex loop of `addBuffers` leaves under a kept key `k`, for a buffer with
   * fields `f`: a new buffer for a name the mesh lacked, and for a buffer filed under `k`
   * alone the stream's array when it is not empty (`updateVertexBuffer` ignores empty data).
   */
  ghost predicate KeyStored(vstreams: OMap<string, Stream>, k: string, before: OMap<string, GLBuffer>, f: BufferFields)
    requires KeptVertex(vstreams, k) && !vstreams.values[k].Nested?
  {
    var a := VertexArray(k, vstreams.values[k]);
    var info := CommonBuffer(k).value;
    var stored := f.attribute == Some(info.attribute) && f.itemSize == info.itemSize && a.kind != Float64
      && f.uploaded == Some(UploadedArray(f.target, a)) && f.glType == UploadedType(f.target, a.kind) && f.length == |a.values|;
    (k !in before.values ==> stored && f.target == ARRAY_BUFFER && f.name == Some(k))
    && (Unshared(before, k) && |a.values| > 0 ==> stored)
  }

  /** `KeyStored` of a buffer's fields, in terms of the buffer. */
  lemma KeyStoredOf(vstreams: OMap<string, Stream>, k: string, before: OMap<string, GLBuffer>, b: GLBuffer)
    requires KeptVertex(vstreams, k) && !vstreams.values[k].Nested?
    ensures KeyStored(vstreams, k, before, FieldsOf(b)) <==>
      var a := VertexArray(k, vstreams.values[k]);
      (k !in before.values ==> NewVertexStream(k, b, a)) && (Unshared(before, k) && |a.values| > 0 ==> StreamStored(k, b, a))
  {
  }

  /** Every kept key among `ks` has fields in `fields`, stored as `KeyStored` says. */
  ghost predicate StoredKeys(vstreams: OMap<string, Stream>, ks: seq<string>, entry: OMap<string, GLBuffer>,
                             fields: map<string, BufferFields>)
    requires forall k :: k in vstreams.values ==> !vstreams.values[k].Nested?
    decreases |ks|
  {
    if ks == [] then true
    else
      var k := ks[|ks| - 1];
      StoredKeys(vstreams, ks[..|ks| - 1], entry, fields)
      && (KeptVertex(vstreams, k) ==> k in fields && KeyStored(vstreams, k, entry, fields[k]))
  }

  /** `StoredKeys` key by key. */
  lemma {:induction false} StoredKeysEach(vstreams: OMap<string, Stream>, ks: seq<string>, entry: OMap<string, GLBuffer>,
                                          fields: map<string, BufferFields>)
    requires forall k :: k in vstreams.values ==> !vstreams.values[k].Nested?
    ensures StoredKeys(vstreams, ks, entry, fields) <==>
      forall j :: 0 <= j < |ks| && KeptVertex(vstreams, ks[j]) ==> ks[j] in fields && KeyStored(vstreams, ks[j], entry, fields[ks[j]])
    decreases |ks|
  {
    if ks != [] {
      var init := ks[..|ks| - 1];
      StoredKeysEach(vstreams, init, entry, fields);
      assert forall j :: 0 <= j < |init| ==> init[j] == ks[j];
    }
  }

  /**
   * `StoredKeys` survives a change of fields that keeps every kept key and the fields of
   * each one whose storing `KeyStored` constrains: a new key, or one filed alone.
   */
  lemma StoredKeysFrame(vstreams: OMap<string, Stream>, ks: seq<string>, entry: OMap<string, GLBuffer>,
                        f: map<string, BufferFields>, f': map<string, BufferFields>)
    requires forall k :: k in vstreams.values ==> !vstreams.values[k].Nested?
    requires StoredKeys(vstreams, ks, entry, f)
    requires forall j :: 0 <= j < |ks| && KeptVertex(vstreams, ks[j]) && ks[j] in f ==>
      ks[j] in f' && (ks[j] !in entry.values || Unshared(entry, ks[j]) ==> f'[ks[j]] == f[ks[j]])
    ensures StoredKeys(vstreams, ks, entry, f')
  {
    StoredKeysEach(vstreams, ks, entry, f);
    StoredKeysEach(vstreams, ks, entry, f');
  }

  /** `Untouched` over a map of fields by name. */
  ghost predicate UntouchedIn(vstreams: OMap<string, Stream>, kept: set<string>, entry: OMap<string, GLBuffer>,
                              ef: map<string, BufferFields>, fields: map<string, BufferFields>)
  {
    forall k :: Unshared(entry, k) && !(k in kept && Fed(vstreams, k)) ==> k in ef && k in fields && fields[k] == ef[k]
  }

  /**
   * One kept key `name` further: if the step changed the fields of no buffer other than
   * the one under `name`, and those only when its stream was not empty, `UntouchedIn` holds
   * with `name` added to the kept keys.
   */
  lemma UntouchedStep(vstreams: OMap<string, Stream>, kept: set<string>, name: string, entry: OMap<string, GLBuffer>,
                      before: OMap<string, GLBuffer>, ef: map<string, BufferFields>, f: map<string, BufferFields>,
                      f': map<string, BufferFields>)
    requires UntouchedIn(vstreams, kept, entry, ef, f) && name !in kept && f.Keys == before.values.Keys
    requires forall k :: k in entry.values ==> k in before.values && before.values[k] == entry.values[k]
    requires name in before.values ==> name in entry.values
    requires forall k :: k in f && k != name && (name in before.values ==> before.values[k] != before.values[name]) ==>
      k in f' && f'[k] == f[k]
    requires name in f && !Fed(vstreams, name) ==> name in f' && f'[name] == f[name]
    ensures UntouchedIn(vstreams, kept + {name}, entry, ef, f')
  {
  }

  /**
   * `StoredKeys` over the keys before `name` survives a step that changed the fields of no
   * buffer other than the one under `name`: the buffers those keys constrain (new ones, and
   * ones filed under one name) are not that buffer.
   */
  lemma StoredKeysStep(vstreams: OMap<string, Stream>, ks: seq<string>, kept: set<string>, name: string,
                       entry: OMap<string, GLBuffer>, before: OMap<string, GLBuffer>,
                       f: map<string, BufferFields>, f': map<string, BufferFields>)
    requires forall k :: k in vstreams.values ==> !vstreams.values[k].Nested?
    requires StoredKeys(vstreams, ks, entry, f) && name !in ks && f.Keys == before.values.Keys && f.Keys <= f'.Keys
    requires forall j :: 0 <= j < |ks| && KeptVertex(vstreams, ks[j]) ==> ks[j] in kept
    requires forall k :: k in kept ==> k in before.values
    requires forall k :: k in entry.values ==> k in before.values && before.values[k] == entry.values[k]
    requires forall k, e :: k in kept && k !in entry.values && e in entry.values ==> before.values[k] != entry.values[e]
    requires name in before.values ==> name in entry.values
    requires forall k :: k in f && k != name && (name in before.values ==> before.values[k] != before.values[name]) ==>
      k in f' && f'[k] == f[k]
    ensures StoredKeys(vstreams, ks, entry, f')
  {
    forall j | 0 <= j < |ks| && KeptVertex(vstreams, ks[j]) && ks[j] in f
      ensures ks[j] in f' && (ks[j] !in entry.values || Unshared(entry, ks[j]) ==> f'[ks[j]] == f[ks[j]])
    {
      var k := ks[j];
      assert k != name;
      if k !in entry.values || Unshared(entry, k) {
        assert name in before.values ==> before.values[k] != entry.values[name];
      }
    }
    StoredKeysFrame(vstreams, ks, entry, f, f');
  }

  /** An index buffer `addBuffers` creates: item size 1, holding the converted indices. */
  ghost predicate NewIndexStream(b: GLBuffer, a: NumArray)
    reads b
  {
    b.target == ELEMENT_ARRAY_BUFFER && b.itemSize == 1 && Uploaded(b, a)
  }

  /** No vertex stream `addBuffers` keeps holds 64-bit floats, the one kind a buffer refuses. */
  ghost predicate VertexKindsOk(vstreams: OMap<string, Stream>)
    requires forall k :: k in vstreams.values ==> !vstreams.values[k].Nested?
  {
    forall k :: KeptVertex(vstreams, k) ==> VertexArray(k, vstreams.values[k]).kind != Float64
  }

  /** No index stream becomes an array of 64-bit floats. */
  ghost predicate IndexKindsOk(istreams: OMap<string, Stream>, numVertices: Option<real>)
  {
    forall k :: k in istreams.values && !istreams.values[k].NoStream? ==> IndexArray(istreams.values[k], numVertices).kind != Float64
  }

  /**
   * The vertex count `addBuffers` hands its index loop: this call's positions over 3, else 0,
   * or undefined (none) when the mesh already has positions, because `itemCount` is never
   * set on a buffer.
   */
  function CallVertexCount(vstreams: OMap<string, Stream>, hadPositions: bool): (n: Option<real>)
    requires forall k :: k in vstreams.values ==> !vstreams.values[k].Nested?
    ensures KeptVertex(vstreams, "P") ==> n.Some? && n.value * 3.0 == |VertexArray("P", vstreams.values["P"]).values| as real
    ensures !KeptVertex(vstreams, "P") ==> n == (if hadPositions then None else Some(0.0))
  {
    if KeptVertex(vstreams, "P") then Some(|VertexArray("P", vstreams.values["P"]).values| as real / 3.0)
    else if hadPositions then None else Some(0.0)
  }

  /**
   * The vertex count after the vertex loop has seen the keys `ks`: the last kept position
   * stream's length over 3, or the starting value.
   */
  function CountAfter(vstreams: OMap<string, Stream>, ks: seq<string>, init: Option<real>): Option<real>
    requires forall k :: k in vstreams.values ==> !vstreams.values[k].Nested?
  {
    if ks == [] then init
    else
      var k := ks[|ks| - 1];
      if KeptVertex(vstreams, k) && k == "P" then Some(|VertexArray(k, vstreams.values[k]).values| as real / 3.0)
      else CountAfter(vstreams, ks[..|ks| - 1], init)
  }

  /** One more key: the count changes only at a kept position stream. */
  lemma CountAfterStep(vstreams: OMap<string, Stream>, ks: seq<string>, i: nat, init: Option<real>)
    requires forall k :: k in vstreams.values ==> !vstreams.values[k].Nested?
    requires i < |ks|
    ensures CountAfter(vstreams, ks[..i + 1], init) ==
      if KeptVertex(vstreams, ks[i]) && ks[i] == "P" then Some(|VertexArray("P", vstreams.values["P"]).values| as real / 3.0)
      else CountAfter(vstreams, ks[..i], init)
  {
    assert ks[..i + 1][..i] == ks[..i];
  }

  /** The kept keys among `ks`. */
  ghost function KeptAmong(vstreams: OMap<string, Stream>, ks: seq<string>): set<string>
  {
    if ks == [] then {}
    else KeptAmong(vstreams, ks[..|ks| - 1]) + (if KeptVertex(vstreams, ks[|ks| - 1]) then {ks[|ks| - 1]} else {})
  }

  lemma {:induction false} KeptAmongIn(vstreams: OMap<string, Stream>, ks: seq<string>)
    ensures forall k :: k in KeptAmong(vstreams, ks) <==> k in ks && KeptVertex(vstreams, k)
  {
    if ks != [] {
      KeptAmongIn(vstreams, ks[..|ks| - 1]);
      assert ks == ks[..|ks| - 1] + [ks[|ks| - 1]];
    }
  }

  /** Only the position stream sets the count, so the loop ends with its length over 3 when it was kept. */
  lemma {:induction false} CountAfterKeys(vstreams: OMap<string, Stream>, ks: seq<string>, init: Option<real>)
    requires forall k :: k in vstreams.values ==> !vstreams.values[k].Nested?
    ensures CountAfter(vstreams, ks, init) ==
      if "P" in ks && KeptVertex(vstreams, "P") then Some(|VertexArray("P", vstreams.values["P"]).values| as real / 3.0) else init
  {
    if ks != [] {
      CountAfterKeys(vstreams, ks[..|ks| - 1], init);
      assert ks == ks[..|ks| - 1] + [ks[|ks| - 1]];
    }
  }

  /**
   * What the vertex loop of `addBuffers` has seen after its first `i` keys: exactly the
   * kept keys among them are in `kept`, and the count is the one those keys give.
   */
  ghost predicate Visited(vstreams: OMap<string, Stream>, i: int, kept: set<string>, numVertices: Option<real>, init: Option<real>)
  {
    vstreams.Valid() && 0 <= i <= |vstreams.keys|
    && (forall k :: k in vstreams.values ==> !vstreams.values[k].Nested?)
    && kept == KeptAmong(vstreams, vstreams.keys[..i])
    && numVertices == CountAfter(vstreams, vstreams.keys[..i], init)
  }

  /** One key further: a kept key is recorded, and positions set the count. */
  lemma VisitedStep(vstreams: OMap<string, Stream>, i: int, kept: set<string>, numVertices: Option<real>, init: Option<real>)
    requires Visited(vstreams, i, kept, numVertices, init) && i < |vstreams.keys|
    ensures vstreams.keys[i] !in kept
    ensures var name := vstreams.keys[i];
      Visited(vstreams, i + 1, if KeptVertex(vstreams, name) then kept + {name} else kept,
              if KeptVertex(vstreams, name) && name == "P" then Some(|VertexArray(name, vstreams.values[name]).values| as real / 3.0)
              else numVertices, init)
  {
    KeptAmongIn(vstreams, vstreams.keys[..i]);
    assert vstreams.keys[i] !in vstreams.keys[..i] by { assert Distinct(vstreams.keys); }
    assert vstreams.keys[..i + 1][..i] == vstreams.keys[..i];
    CountAfterStep(vstreams, vstreams.keys, i, init);
  }

  /** At the end of the loop `kept` holds exactly the kept keys, and the count is the call's. */
  lemma VisitedAll(vstreams: OMap<string, Stream>, kept: set<string>, numVertices: Option<real>, hadPositions: bool)
    requires Visited(vstreams, |vstreams.keys|, kept, numVertices, if hadPositions then None else Some(0.0))
    ensures forall k :: KeptVertex(vstreams, k) <==> k in kept
    ensures numVertices == CallVertexCount(vstreams, hadPositions)
  {
    assert vstreams.keys[..|vstreams.keys|] == vstreams.keys;
    KeptAmongIn(vstreams, vstreams.keys);
    CountAfterKeys(vstreams, vstreams.keys, if hadPositions then None else Some(0.0));
    assert vstreams.keys[..|vstreams.keys|] == vstreams.keys;
  }

  /** The WebGL buffers of `all`, in order. */
  function Handles(all: seq<GLBuffer>): (hs: seq<Option<Handle>>)
    reads set b | b in all
    ensures |hs| == |all| && forall m :: 0 <= m < |all| ==> hs[m] == all[m].handle
  {
    seq(|all|, m requires 0 <= m < |all| reads all => all[m].handle)
  }

  /**
   * The calls context `g` sees when the first `n` of `all` are destroyed in order, each buffer
   * having the WebGL buffer in `hs` at first: one delete per buffer of `g`, of that WebGL buffer
   * the first time and of none (it was cleared) when the same buffer comes again.
   */
  function DeleteCalls(all: seq<GLBuffer>, hs: seq<Option<Handle>>, g: GLContext, n: nat): seq<GLCall>
    requires |hs| == |all| && n <= |all|
  {
    if n == 0 then []
    else
      var call := DeleteBuffer(if all[n - 1] in all[..n - 1] then None else hs[n - 1]);
      DeleteCalls(all, hs, g, n - 1) + (if all[n - 1].gl == g then [call] else [])
  }

  class GLMesh {
    const gl: GLContext
    var vertexBuffers: OMap<string, GLBuffer>
    var indexBuffers: OMap<string, GLBuffer>
    /** Other properties set on the mesh from options. */
    var properties: map<string, ConfigValue>
    var hasInfo: bool
    /** The mesh's context and those of the buffers it was given. */
    ghost var contexts: set<GLContext>

    /** Both maps are well formed, and `contexts` holds every context the buffers use. */
    ghost predicate Valid()
      reads this`vertexBuffers, this`indexBuffers, this`contexts
    {
      vertexBuffers.Valid() && indexBuffers.Valid()
      && gl in contexts
      && (forall k :: k in vertexBuffers.values ==> vertexBuffers.values[k].gl in contexts)
      && (forall k :: k in indexBuffers.values ==> indexBuffers.values[k].gl in contexts)
    }

    /** Every buffer the mesh holds. */
    ghost function Buffers(): set<GLBuffer>
      reads this`vertexBuffers, this`indexBuffers
    {
      vertexBuffers.values.Values + indexBuffers.values.Values
    }

    /** `new GLMesh(gl)`: no buffers and no properties. */
    constructor (gl: GLContext)
      ensures Valid() && this.gl == gl && vertexBuffers == Empty() && indexBuffers == Empty()
      ensures properties == map[] && !hasInfo && contexts == {gl}
    {
      this.gl := gl;
      vertexBuffers := Empty();
      indexBuffers := Empty();
      properties := map[];
      hasInfo := false;
      contexts := {gl};
    }

    /** `numVertices`: 0 without positions, else the position data's length over its item size. */
    function NumVertices(): (r: Count)
      reads this, Buffers()
      requires Valid()
      ensures "P" !in vertexBuffers.values ==> r == Count(0.0)
      ensures "P" in vertexBuffers.values ==>
        var b := vertexBuffers.values["P"];
        (b.data.None? ==> r == Fails)
        && (b.data.Some? && b.itemSize != 0 ==> r == Count(|b.data.value.values| as real / b.itemSize as real))
        && (b.data.Some? && b.itemSize == 0 ==> r == NotFinite)
    {
      if "P" !in vertexBuffers.values then Count(0.0)
      else
        var b := vertexBuffers.values["P"];
        if b.data.None? then Fails
        else if b.itemSize == 0 then NotFinite
        else Count(|b.data.value.values| as real / b.itemSize as real)
    }

    /** `numTriangles`: the "triangles" index count over 3, or else the vertex count over 3. */
    function NumTriangles(): (r: Count)
      reads this, Buffers()
      requires Valid()
      ensures "triangles" !in indexBuffers.values ==>
        r == match NumVertices() case Count(n) => Count(n / 3.0) case NotFinite => NotFinite case Fails => Fails
      ensures "triangles" in indexBuffers.values ==>
        var b := indexBuffers.values["triangles"];
        r == if b.data.None? then Fails else Count(|b.data.value.values| as real / 3.0)
    {
      if "triangles" !in indexBuffers.values then
        match NumVertices()
        case Count(n) => Count(n / 3.0)
        case NotFinite => NotFinite
        case Fails => Fails
      else
        var b := indexBuffers.values["triangles"];
        if b.data.None? then Fails else Count(|b.data.value.values| as real / 3.0)
    }

    /** `getVertexBuffer(name)`. */
    function GetVertexBuffer(name: string): (r: Option<GLBuffer>)
      reads this
      ensures r.Some? <==> name in vertexBuffers.values
      ensures r.Some? ==> r.value == vertexBuffers.values[name]
    {
      Get(vertexBuffers, name)
    }

    /** `getIndexBuffer(name)`. */
    function GetIndexBuffer(name: string): (r: Option<GLBuffer>)
      reads this
      ensures r.Some? <==> name in indexBuffers.values
      ensures r.Some? ==> r.value == indexBuffers.values[name]
    {
      Get(indexBuffers, name)
    }

    /**
     * `addBuffer(name, buffer)`: files the buffer by its target, and gives it the schema's
     * attribute (or the stream name) when it has none.
     */
    method AddBuffer(name: string, buffer: GLBuffer)
      requires Valid()
      modifies this`vertexBuffers, this`indexBuffers, this`contexts, buffer`attribute
      ensures Valid() && contexts == old(contexts) + {buffer.gl}
      ensures buffer.target == ARRAY_BUFFER ==>
        vertexBuffers == Put(old(vertexBuffers), name, buffer) && indexBuffers == old(indexBuffers)
      ensures buffer.target != ARRAY_BUFFER ==>
        indexBuffers == Put(old(indexBuffers), name, buffer) && vertexBuffers == old(vertexBuffers)
      ensures old(buffer.attribute).None? || old(buffer.attribute) == Some("") ==>
        buffer.attribute == Some(if CommonBuffer(name).Some? then CommonBuffer(name).value.attribute else name)
      ensures old(buffer.attribute).Some? && old(buffer.attribute) != Some("") ==> buffer.attribute == old(buffer.attribute)
    {
      contexts := contexts + {buffer.gl};
      if buffer.target == ARRAY_BUFFER {
        vertexBuffers := Put(vertexBuffers, name, buffer);
      } else {
        indexBuffers := Put(indexBuffers, name, buffer);
      }
      if buffer.attribute.None? || buffer.attribute == Some("") {
        var info := CommonBuffer(name);
        if info.Some? {
          buffer.attribute := Some(info.value.attribute);
        } else {
          buffer.attribute := Some(name);
        }
      }
    }

    /**
     * `createVertexBuffer(name, data, attribute, itemSize, usage)`: the attribute and item
     * size default from the schema; without an attribute, without data or with data that is
     * not a typed array it throws; otherwise a new vertex buffer is uploaded and stored.
     */
    method CreateVertexBuffer(name: string, source: Option<BufferSource>, attribute: Option<string>, itemSize: int, usage: int)
      returns (outcome: Outcome)
      requires Valid()
      modifies this`vertexBuffers, gl`log, gl`nextHandle
      ensures Valid() && indexBuffers == old(indexBuffers)
      ensures outcome.Threw? ==> vertexBuffers == old(vertexBuffers)
      ensures outcome.Done? <==>
        ((attribute.Some? && attribute.value != "") || CommonBuffer(name).Some?)
        && source.Some? && source.value.TypedData? && source.value.typed.kind != Float64
      ensures outcome.Done? ==> name in vertexBuffers.values
      ensures outcome.Done? ==>
        var b := vertexBuffers.values[name];
        var info := CommonBuffer(name);
        vertexBuffers.values == old(vertexBuffers.values)[name := b]
        && (name in old(vertexBuffers.values) ==> vertexBuffers.keys == old(vertexBuffers.keys))
        && fresh(b) && b.gl == gl && b.target == ARRAY_BUFFER && b.name == Some(name)
        && b.attribute == (if (attribute.None? || attribute.value == "") then Some(info.value.attribute) else attribute)
        && b.itemSize == DefaultItemSize(ARRAY_BUFFER, if itemSize == 0 && info.Some? then info.value.itemSize else itemSize)
        && b.handle == Some(old(gl.nextHandle)) && b.length == |source.value.typed.values|
        && Uploaded(b, source.value.typed)
      ensures outcome.Done? ==>
        gl.log == old(gl.log) + UploadCalls(ARRAY_BUFFER, Some(old(gl.nextHandle)), source.value.typed, usage)
      ensures outcome.Threw? ==> gl.log == old(gl.log)
      ensures gl.nextHandle == old(gl.nextHandle) +
        if ((attribute.Some? && attribute.value != "") || CommonBuffer(name).Some?) && source.Some? && source.value.TypedData?
        then 1 else 0
    {
      var common := CommonBuffer(name);
      var attr := attribute;
      if (attr.None? || attr.value == "") && common.Some? {
        attr := Some(common.value.attribute);
      }
      if attr.None? || attr.value == "" {
        return Threw(NO_ATTRIBUTE);
      }
      var size := itemSize;
      if size == 0 && common.Some? {
        size := common.value.itemSize;
      }
      if source.None? {
        return Threw(NO_VERTEX_COUNT);
      }
      if source.value.PlainData? {
        return Threw(NOT_TYPED_ARRAY);
      }
      var b;
      b, outcome := NewBuffer(gl, ARRAY_BUFFER, size, source, usage);
      if outcome.Threw? {
        return;
      }
      b.name := Some(name);
      b.attribute := attr;
      vertexBuffers := Put(vertexBuffers, name, b);
    }

    /**
     * `updateVertexBuffer(name, data, attribute, itemSize, usage)`: nothing for an unknown
     * name or empty data; otherwise the given attribute and item size are stored and the data
     * uploaded into the existing buffer.
     */
    method UpdateVertexBuffer(name: string, source: BufferSource, attribute: Option<string>, itemSize: Option<int>, usage: int)
      returns (outcome: Outcome)
      requires Valid()
      modifies Under(vertexBuffers, name)`attribute, Under(vertexBuffers, name)`itemSize, Under(vertexBuffers, name)`handle,
        Under(vertexBuffers, name)`length, Under(vertexBuffers, name)`uploadedItemSize, Under(vertexBuffers, name)`glType,
        Under(vertexBuffers, name)`uploaded
      modifies ContextUnder(vertexBuffers, name)`log, ContextUnder(vertexBuffers, name)`nextHandle
      ensures name !in vertexBuffers.values || SourceLength(source) == 0 ==> outcome == Done
      ensures name in vertexBuffers.values && SourceLength(source) == 0 ==>
        unchanged(vertexBuffers.values[name], vertexBuffers.values[name].gl)
      ensures name in vertexBuffers.values && SourceLength(source) > 0 ==>
        var b := vertexBuffers.values[name];
        b.attribute == (if attribute.Some? then attribute else old(b.attribute))
        && b.itemSize == (if itemSize.Some? then itemSize.value else old(b.itemSize))
        && b.length == SourceLength(source) && b.handle.Some?
        && (old(b.handle).Some? ==> b.handle == old(b.handle))
        && (outcome.Done? <==> source.TypedData? && source.typed.kind != Float64)
        && (outcome.Done? ==> Uploaded(b, source.typed))
        && b.name == old(b.name) && b.data == old(b.data) && b.uploadedItemSize == b.itemSize
        && (outcome.Threw? ==> b.uploaded == old(b.uploaded) && b.glType == old(b.glType))
        && b.gl.nextHandle == old(b.gl.nextHandle) + (if old(b.handle).None? then 1 else 0)
        && b.gl.log == old(b.gl.log) + (if outcome.Done? then UploadCalls(b.target, b.handle, source.typed, usage) else [])
    {
      if name !in vertexBuffers.values {
        return Done;
      }
      var b := vertexBuffers.values[name];
      if SourceLength(source) == 0 {
        return Done;
      }
      if attribute.Some? {
        b.attribute := attribute;
      }
      if itemSize.Some? {
        b.itemSize := itemSize.value;
      }
      outcome := b.Upload(source, usage);
    }

    /**
     * `createIndexBuffer(name, data, usage)`: plain numbers are cast to 16-bit indices, but
     * only when the mesh has positions; the new index buffer replaces any under that name.
     */
    method CreateIndexBuffer(name: string, source: BufferSource, usage: int) returns (outcome: Outcome)
      requires Valid()
      modifies this`indexBuffers, gl`log, gl`nextHandle
      ensures Valid() && vertexBuffers == old(vertexBuffers)
      ensures outcome.Threw? ==> indexBuffers == old(indexBuffers)
      ensures outcome.Done? <==>
        (source.TypedData? && source.typed.kind != Float64) || (source.PlainData? && "P" in vertexBuffers.values)
      ensures outcome.Done? ==> name in indexBuffers.values
      ensures outcome.Done? ==>
        var b := indexBuffers.values[name];
        indexBuffers == Put(old(indexBuffers), name, b)
        && fresh(b) && b.gl == gl && b.target == ELEMENT_ARRAY_BUFFER && b.itemSize == 1
        && b.glType == (if source.PlainData? then UNSIGNED_SHORT else GLTypeOf(source.typed.kind).value)
        && b.handle == Some(old(gl.nextHandle)) && b.length == SourceLength(source)
        && Uploaded(b, if source.PlainData? then Convert(Uint16, source.values) else source.typed)
      ensures gl.nextHandle == old(gl.nextHandle) + 1
      ensures gl.log == old(gl.log) +
        if outcome.Done? then
          UploadCalls(ELEMENT_ARRAY_BUFFER, Some(old(gl.nextHandle)),
                      if source.PlainData? then Convert(Uint16, source.values) else source.typed, usage)
        else []
    {
      var data := source;
      if data.PlainData? && "P" in vertexBuffers.values {
        data := TypedData(Convert(Uint16, data.values));
      }
      var b;
      b, outcome := NewBuffer(gl, ELEMENT_ARRAY_BUFFER, 1, Some(data), usage);
      if outcome.Threw? {
        return;
      }
      indexBuffers := Put(indexBuffers, name, b);
    }

    /** `removeVertexBuffer(name, free)`: freeing throws (buffers have no `delete`); otherwise the entry goes. */
    method RemoveVertexBuffer(name: string, free: bool) returns (outcome: Outcome)
      requires Valid()
      modifies this`vertexBuffers
      ensures Valid() && indexBuffers == old(indexBuffers)
      ensures name !in old(vertexBuffers.values) ==> outcome == Done && vertexBuffers == old(vertexBuffers)
      ensures name in old(vertexBuffers.values) && free ==> outcome == Threw(NO_DELETE) && vertexBuffers == old(vertexBuffers)
      ensures name in old(vertexBuffers.values) && !free ==>
        outcome == Done && vertexBuffers.values == old(vertexBuffers.values) - {name}
    {
      if name !in vertexBuffers.values {
        return Done;
      }
      if free {
        return Threw(NO_DELETE);
      }
      vertexBuffers := Remove(vertexBuffers, name);
      return Done;
    }

    /** `removeIndexBuffer(name, free)`, as for vertex buffers. */
    method RemoveIndexBuffer(name: string, free: bool) returns (outcome: Outcome)
      requires Valid()
      modifies this`indexBuffers
      ensures Valid() && vertexBuffers == old(vertexBuffers)
      ensures name !in old(indexBuffers.values) ==> outcome == Done && indexBuffers == old(indexBuffers)
      ensures name in old(indexBuffers.values) && free ==> outcome == Threw(NO_DELETE) && indexBuffers == old(indexBuffers)
      ensures name in old(indexBuffers.values) && !free ==>
        outcome == Done && indexBuffers.values == old(indexBuffers.values) - {name}
    {
      if name !in indexBuffers.values {
        return Done;
      }
      if free {
        return Threw(NO_DELETE);
      }
      indexBuffers := Remove(indexBuffers, name);
      return Done;
    }

    /**
     * What a successful `addBuffers(vstreams, istreams, …)` leaves, from the vertex buffers
     * `entry` and index names `names` it started with: the kept vertex streams and the present
     * index streams are added to the key sets; a new vertex buffer carries the schema attribute
     * and item size, holds the converted stream and is none of the old buffers; an unshared old
     * buffer has the stream uploaded into it; and each index stream is an element buffer holding
     * the stream cast by this call's vertex count.
     */
    ghost predicate Added(entry: OMap<string, GLBuffer>, names: set<string>, vb: OMap<string, GLBuffer>, ib: OMap<string, GLBuffer>,
                          vstreams: OMap<string, Stream>, istreams: OMap<string, Stream>)
      requires vb.Valid() && ib.Valid() && forall k :: k in vstreams.values ==> !vstreams.values[k].Nested?
      reads vb.values.Values, ib.values.Values
    {
      vb.values.Keys == entry.values.Keys + VertexNames(vstreams)
      && ib.values.Keys == names + IndexNames(istreams)
      && (forall k :: KeptVertex(vstreams, k) && k !in entry.values ==>
            NewVertexStream(k, vb.values[k], VertexArray(k, vstreams.values[k])))
      && (forall k, e :: KeptVertex(vstreams, k) && k !in entry.values && e in entry.values ==>
            vb.values[k] != entry.values[e])
      && (forall k :: KeptVertex(vstreams, k) && Unshared(entry, k) ==>
            (|VertexArray(k, vstreams.values[k]).values| > 0 ==> StreamStored(k, vb.values[k], VertexArray(k, vstreams.values[k]))))
      && (forall k :: k in istreams.values && !istreams.values[k].NoStream? ==>
            NewIndexStream(ib.values[k], IndexArray(istreams.values[k], CallVertexCount(vstreams, "P" in entry.values))))
    }

    /**
     * `addBuffers(vertexStreams, indexStreams, usage)`: the present schema streams are
     * created, or uploaded into the buffer already under that name; then every present index
     * stream is created, 32-bit when this call's positions give more than 65536 vertices.
     */
    method AddBuffers(vstreams: OMap<string, Stream>, istreams: OMap<string, Stream>, usage: int)
      returns (outcome: Outcome)
      requires Valid() && vstreams.Valid() && istreams.Valid()
      requires forall k :: k in vstreams.values ==> !vstreams.values[k].Nested?
      modifies this`vertexBuffers, this`indexBuffers, vertexBuffers.values.Values`attribute, vertexBuffers.values.Values`itemSize,
        vertexBuffers.values.Values`handle, vertexBuffers.values.Values`length, vertexBuffers.values.Values`uploadedItemSize,
        vertexBuffers.values.Values`glType, vertexBuffers.values.Values`uploaded, contexts`log, contexts`nextHandle
      ensures Valid()
      ensures VertexKindsOk(vstreams) && IndexKindsOk(istreams, CallVertexCount(vstreams, "P" in old(vertexBuffers.values))) ==>
        outcome.Done?
      ensures forall k :: k in old(vertexBuffers.values) ==> k in vertexBuffers.values && vertexBuffers.values[k] == old(vertexBuffers.values[k])
      ensures outcome.Done? ==> Added(old(vertexBuffers), old(indexBuffers.values.Keys), vertexBuffers, indexBuffers, vstreams, istreams)
      ensures forall k :: k in old(indexBuffers.values) && !(k in istreams.values && !istreams.values[k].NoStream?) ==>
        k in indexBuffers.values && indexBuffers.values[k] == old(indexBuffers.values[k])
      ensures outcome.Done? ==> forall k :: k in istreams.values && !istreams.values[k].NoStream? ==> fresh(indexBuffers.values[k])
      ensures forall k :: Unshared(old(vertexBuffers), k) && !Fed(vstreams, k) ==>
        k in vertexBuffers.values && FieldsOf(vertexBuffers.values[k]) == old(FieldsOf(vertexBuffers.values[k]))
    {
      var numVertices;
      outcome, numVertices := AddVertexStreams(vstreams, usage);
      if outcome.Threw? {
        return;
      }
      outcome := AddIndexStreams(istreams, numVertices);
    }

    /**
     * The first loop of `addBuffers`. It also yields the vertex count the index loop sees:
     * this call's positions over 3, else 0, or undefined (none) when the mesh already has
     * positions, since `itemCount` is never set on a buffer.
     */
    method AddVertexStreams(vstreams: OMap<string, Stream>, usage: int) returns (outcome: Outcome, numVertices: Option<real>)
      requires Valid() && vstreams.Valid()
      requires forall k :: k in vstreams.values ==> !vstreams.values[k].Nested?
      modifies this`vertexBuffers, vertexBuffers.values.Values`attribute, vertexBuffers.values.Values`itemSize,
        vertexBuffers.values.Values`handle, vertexBuffers.values.Values`length, vertexBuffers.values.Values`uploadedItemSize,
        vertexBuffers.values.Values`glType, vertexBuffers.values.Values`uploaded, contexts`log, contexts`nextHandle
      ensures Valid() && indexBuffers == old(indexBuffers)
      ensures VertexKindsOk(vstreams) ==> outcome.Done?
      ensures forall k :: k in old(vertexBuffers.values) ==> k in vertexBuffers.values && vertexBuffers.values[k] == old(vertexBuffers.values[k])
      ensures outcome.Done? ==> vertexBuffers.values.Keys == old(vertexBuffers.values.Keys) + VertexNames(vstreams)
      ensures outcome.Done? ==> numVertices == CallVertexCount(vstreams, "P" in old(vertexBuffers.values))
      ensures outcome.Done? ==> forall k :: KeptVertex(vstreams, k) && k !in old(vertexBuffers.values) ==>
        NewVertexStream(k, vertexBuffers.values[k], VertexArray(k, vstreams.values[k]))
      ensures outcome.Done? ==> forall k, e :: KeptVertex(vstreams, k) && k !in old(vertexBuffers.values) && e in old(vertexBuffers.values) ==>
        vertexBuffers.values[k] != old(vertexBuffers.values[e])
      ensures outcome.Done? ==> forall k :: KeptVertex(vstreams, k) && Unshared(old(vertexBuffers), k) ==>
        |VertexArray(k, vstreams.values[k]).values| > 0 ==> StreamStored(k, vertexBuffers.values[k], VertexArray(k, vstreams.values[k]))
      ensures forall k :: Unshared(old(vertexBuffers), k) && !Fed(vstreams, k) ==>
        k in vertexBuffers.values && FieldsOf(vertexBuffers.values[k]) == old(FieldsOf(vertexBuffers.values[k]))
    {
      var hadPositions := "P" in vertexBuffers.values;
      ghost var kept, entry, init, bad, n;
      outcome, numVertices, kept, entry, init, bad, n := VertexLoop(vstreams, usage);
      if outcome.Done? {
        assert vstreams.keys[..|vstreams.keys|] == vstreams.keys;
        VisitedAll(vstreams, kept, numVertices, hadPositions);
        AllStored(vstreams, kept, entry);
      }
    }

    /** The loop of `AddVertexStreams`, over every key while each stream is stored. */
    method VertexLoop(vstreams: OMap<string, Stream>, usage: int)
      returns (outcome: Outcome, numVertices: Option<real>, ghost kept: set<string>, ghost entry: OMap<string, GLBuffer>, ghost init: Option<real>,
              ghost bad: string, ghost n: int)
      requires Valid() && vstreams.Valid()
      requires forall k :: k in vstreams.values ==> !vstreams.values[k].Nested?
      modifies this`vertexBuffers, vertexBuffers.values.Values`attribute, vertexBuffers.values.Values`itemSize,
        vertexBuffers.values.Values`handle, vertexBuffers.values.Values`length, vertexBuffers.values.Values`uploadedItemSize,
        vertexBuffers.values.Values`glType, vertexBuffers.values.Values`uploaded, contexts`log, contexts`nextHandle
      ensures Valid() && indexBuffers == old(indexBuffers) && entry == old(vertexBuffers)
      ensures init == if "P" in entry.values then None else Some(0.0)
      ensures outcome.Threw? ==> KeptVertex(vstreams, bad) && VertexArray(bad, vstreams.values[bad]).kind == Float64
      ensures forall k :: k in entry.values ==> k in vertexBuffers.values && vertexBuffers.values[k] == entry.values[k]
      ensures outcome.Done? ==> Progress(vstreams, n, kept, entry, numVertices, init) && Apart(kept, entry) && n == |vstreams.keys|
      ensures Untouched(vstreams, kept, entry, old(Fields()))
    {
      numVertices := if "P" in vertexBuffers.values then None else Some(0.0);
      init := numVertices;
      outcome := Done;
      kept := {};
      entry := vertexBuffers;
      bad, n := "", 0;
      ProgressStart(vstreams, init);
      var i := 0;
      while i < |vstreams.keys| && outcome.Done?
        invariant Valid() && indexBuffers == old(indexBuffers) && 0 <= i <= |vstreams.keys|
        invariant forall k :: k in entry.values ==> k in vertexBuffers.values && vertexBuffers.values[k] == entry.values[k]
        invariant outcome.Done? ==> Progress(vstreams, i, kept, entry, numVertices, init) && Apart(kept, entry)
        invariant outcome.Threw? ==> KeptVertex(vstreams, bad) && VertexArray(bad, vstreams.values[bad]).kind == Float64
        invariant Untouched(vstreams, kept, entry, old(Fields()))
        decreases |vstreams.keys| - i, if outcome.Done? then 1 else 0
      {
        outcome, kept, numVertices, bad := VertexStep(vstreams, usage, i, kept, entry, old(Fields()), numVertices, init);
        if outcome.Done? {
          i := i + 1;
        }
      }
      n := i;
    }

    /** Before the vertex loop: no key visited, nothing kept, and the count where it starts. */
    lemma ProgressStart(vstreams: OMap<string, Stream>, init: Option<real>)
      requires vstreams.Valid() && forall k :: k in vstreams.values ==> !vstreams.values[k].Nested?
      ensures Progress(vstreams, 0, {}, vertexBuffers, init, init) && Apart({}, vertexBuffers)
    {
      assert vstreams.keys[..0] == [];
    }

    /** After the whole vertex loop: each kept stream is stored as the call promises. */
    lemma AllStored(vstreams: OMap<string, Stream>, kept: set<string>, entry: OMap<string, GLBuffer>)
      requires vstreams.Valid() && StreamsStored(vstreams, kept, entry, vstreams.keys)
      requires forall k :: KeptVertex(vstreams, k) <==> k in kept
      ensures vertexBuffers.values.Keys == entry.values.Keys + VertexNames(vstreams)
      ensures forall k :: KeptVertex(vstreams, k) && k !in entry.values ==>
        NewVertexStream(k, vertexBuffers.values[k], VertexArray(k, vstreams.values[k]))
      ensures forall k :: KeptVertex(vstreams, k) && Unshared(entry, k) ==>
        |VertexArray(k, vstreams.values[k]).values| > 0 ==> StreamStored(k, vertexBuffers.values[k], VertexArray(k, vstreams.values[k]))
    {
      StoredKeysEach(vstreams, vstreams.keys, entry, Fields());
      forall k | KeptVertex(vstreams, k)
        ensures var a := VertexArray(k, vstreams.values[k]);
          (k !in entry.values ==> NewVertexStream(k, vertexBuffers.values[k], a))
          && (Unshared(entry, k) && |a.values| > 0 ==> StreamStored(k, vertexBuffers.values[k], a))
      {
        var j :| 0 <= j < |vstreams.keys| && vstreams.keys[j] == k;
        KeyStoredOf(vstreams, k, entry, vertexBuffers.values[k]);
      }
    }

    /** The buffers the loop created for the names in `kept` are none of the mesh's earlier buffers. */
    ghost predicate Apart(kept: set<string>, entry: OMap<string, GLBuffer>)
      reads this
    {
      forall k, e :: k in kept && k !in entry.values && e in entry.values && k in vertexBuffers.values ==>
        vertexBuffers.values[k] != entry.values[e]
    }

    /**
     * What the vertex loop knows after its first `i` keys: exactly the kept keys among
     * them are recorded in `kept`, each stored as `StreamsStored` says, and the count
     * is the one those keys give.
     */
    ghost predicate Progress(vstreams: OMap<string, Stream>, i: int, kept: set<string>, entry: OMap<string, GLBuffer>,
                             numVertices: Option<real>, init: Option<real>)
      reads this, vertexBuffers.values.Values
    {
      Visited(vstreams, i, kept, numVertices, init) && StreamsStored(vstreams, kept, entry, vstreams.keys[..i])
    }

    /**
     * What the vertex loop has done over the keys `ks`, whose kept ones are `kept`: the map
     * holds the entry buffers and one buffer per kept key, each as `KeyStored` says.
     */
    ghost predicate StreamsStored(vstreams: OMap<string, Stream>, kept: set<string>, entry: OMap<string, GLBuffer>, ks: seq<string>)
      reads this, vertexBuffers.values.Values
    {
      (forall k :: k in vstreams.values ==> !vstreams.values[k].Nested?)
      && (forall k :: k in entry.values ==> k in vertexBuffers.values && vertexBuffers.values[k] == entry.values[k])
      && (forall k :: k in vertexBuffers.values <==> k in entry.values || k in kept)
      && StoredKeys(vstreams, ks, entry, Fields())
    }

    /** The fields of the buffer under each name. */
    ghost function Fields(): (f: map<string, BufferFields>)
      reads this, vertexBuffers.values.Values
      ensures f.Keys == vertexBuffers.values.Keys
    {
      map k | k in vertexBuffers.values :: FieldsOf(vertexBuffers.values[k])
    }

    /**
     * Every buffer filed under one name of `entry` still has the fields it had then (`ef`),
     * unless its key is in `kept` and its stream was not empty: the loop fed no other.
     */
    ghost predicate Untouched(vstreams: OMap<string, Stream>, kept: set<string>, entry: OMap<string, GLBuffer>,
                              ef: map<string, BufferFields>)
      reads this, vertexBuffers.values.Values
    {
      UntouchedIn(vstreams, kept, entry, ef, Fields())
    }

    /** One pass of the vertex loop, over key `i`. */
    method VertexStep(vstreams: OMap<string, Stream>, usage: int, i: int, ghost kept: set<string>, ghost entry: OMap<string, GLBuffer>,
                      ghost ef: map<string, BufferFields>, numVertices: Option<real>, ghost init: Option<real>)
      returns (outcome: Outcome, ghost kept': set<string>, numVertices': Option<real>, ghost bad: string)
      requires Valid() && Progress(vstreams, i, kept, entry, numVertices, init) && i < |vstreams.keys|
      requires Apart(kept, entry) && Untouched(vstreams, kept, entry, ef)
      requires forall k :: k in entry.values ==> k in vertexBuffers.values && vertexBuffers.values[k] == entry.values[k]
      modifies this`vertexBuffers, entry.values.Values`attribute, entry.values.Values`itemSize,
        entry.values.Values`handle, entry.values.Values`length, entry.values.Values`uploadedItemSize,
        entry.values.Values`glType, entry.values.Values`uploaded, contexts`log, contexts`nextHandle
      ensures Valid() && indexBuffers == old(indexBuffers)
      ensures outcome.Threw? ==> bad == vstreams.keys[i] && KeptVertex(vstreams, bad) && VertexArray(bad, vstreams.values[bad]).kind == Float64
      ensures forall k :: k in entry.values ==> k in vertexBuffers.values && vertexBuffers.values[k] == entry.values[k]
      ensures outcome.Done? ==> Progress(vstreams, i + 1, kept', entry, numVertices', init)
      ensures outcome.Done? ==> Apart(kept', entry)
      ensures Untouched(vstreams, kept', entry, ef)
    {
      VisitedStep(vstreams, i, kept, numVertices, init);
      var name := vstreams.keys[i];
      bad := name;
      var s := vstreams.values[name];
      outcome, kept', numVertices' := Done, kept, numVertices;
      if !s.NoStream? && CommonBuffer(name).Some? {
        if name == "P" {
          numVertices' := Some(|VertexArray(name, s).values| as real / 3.0);
        }
        kept' := kept + {name};
        assert Visited(vstreams, i + 1, kept', numVertices', init);
        ghost var before := vertexBuffers;
        outcome := AddKeptStream(vstreams, usage, i, kept, entry, ef);
        if outcome.Done? {
          forall k, e | k in kept' && k !in entry.values && e in entry.values && k in vertexBuffers.values
            ensures vertexBuffers.values[k] != entry.values[e]
          {
            if k != name {
              assert vertexBuffers.values[k] == before.values[k];
            }
          }
        }
      } else {
        assert vstreams.keys[..i + 1][..i] == vstreams.keys[..i];
      }
    }

    /** One kept stream of the vertex loop, key `i`, with what the loop knows carried over. */
    method AddKeptStream(vstreams: OMap<string, Stream>, usage: int, i: int, ghost kept: set<string>, ghost entry: OMap<string, GLBuffer>,
                         ghost ef: map<string, BufferFields>)
      returns (outcome: Outcome)
      requires Valid() && vstreams.Valid() && 0 <= i < |vstreams.keys| && KeptVertex(vstreams, vstreams.keys[i])
      requires vstreams.keys[i] !in kept && StreamsStored(vstreams, kept, entry, vstreams.keys[..i])
      requires kept == KeptAmong(vstreams, vstreams.keys[..i])
      requires Apart(kept, entry) && Untouched(vstreams, kept, entry, ef)
      modifies this`vertexBuffers, entry.values.Values`attribute, entry.values.Values`itemSize,
        entry.values.Values`handle, entry.values.Values`length, entry.values.Values`uploadedItemSize,
        entry.values.Values`glType, entry.values.Values`uploaded, contexts`log, contexts`nextHandle
      ensures Valid() && indexBuffers == old(indexBuffers)
      ensures VertexArray(vstreams.keys[i], vstreams.values[vstreams.keys[i]]).kind != Float64 ==> outcome.Done?
      ensures outcome.Done? ==> StreamsStored(vstreams, kept + {vstreams.keys[i]}, entry, vstreams.keys[..i + 1])
      ensures outcome.Done? && vstreams.keys[i] !in entry.values ==> fresh(vertexBuffers.values[vstreams.keys[i]])
      ensures forall k :: k in old(vertexBuffers.values) ==> k in vertexBuffers.values && vertexBuffers.values[k] == old(vertexBuffers.values[k])
      ensures Untouched(vstreams, kept + {vstreams.keys[i]}, entry, ef)
    {
      var name := vstreams.keys[i];
      ghost var before := vertexBuffers;
      ghost var f := Fields();
      outcome := AddVertexStream(name, VertexArray(name, vstreams.values[name]), usage);
      KeptStreamStep(vstreams, i, kept, entry, ef, before, f, outcome.Done?);
    }

    /**
     * What the vertex loop knows after one kept stream, from what it knew before (the map
     * `before`, with fields `f`) and what `AddVertexStream` promises (`done` if it returned).
     */
    lemma KeptStreamStep(vstreams: OMap<string, Stream>, i: int, kept: set<string>, entry: OMap<string, GLBuffer>,
                         ef: map<string, BufferFields>, before: OMap<string, GLBuffer>, f: map<string, BufferFields>, done: bool)
      requires vstreams.Valid() && 0 <= i < |vstreams.keys| && KeptVertex(vstreams, vstreams.keys[i])
      requires forall k :: k in vstreams.values ==> !vstreams.values[k].Nested?
      requires vstreams.keys[i] !in kept && kept == KeptAmong(vstreams, vstreams.keys[..i])
      requires forall k :: k in entry.values ==> k in before.values && before.values[k] == entry.values[k]
      requires forall k :: k in before.values <==> k in entry.values || k in kept
      requires forall k, e :: k in kept && k !in entry.values && e in entry.values ==> before.values[k] != entry.values[e]
      requires f.Keys == before.values.Keys && StoredKeys(vstreams, vstreams.keys[..i], entry, f)
      requires UntouchedIn(vstreams, kept, entry, ef, f)
      requires var name := vstreams.keys[i]; var a := VertexArray(name, vstreams.values[name]);
        (name in before.values || !done ==> vertexBuffers == before)
        && (name !in before.values && done ==>
              name in vertexBuffers.values && vertexBuffers.values == before.values[name := vertexBuffers.values[name]]
              && NewVertexStream(name, vertexBuffers.values[name], a))
        && (name in before.values && done && |a.values| > 0 ==> StreamStored(name, vertexBuffers.values[name], a))
        && (name in before.values && |a.values| == 0 ==> FieldsOf(vertexBuffers.values[name]) == f[name])
        && (forall k :: k in before.values && k != name && (name in before.values ==> before.values[k] != before.values[name]) ==>
              k in Fields() && Fields()[k] == f[k])
      ensures UntouchedIn(vstreams, kept + {vstreams.keys[i]}, entry, ef, Fields())
      ensures done ==> StreamsStored(vstreams, kept + {vstreams.keys[i]}, entry, vstreams.keys[..i + 1])
    {
      var name := vstreams.keys[i];
      var ks := vstreams.keys[..i];
      var f' := Fields();
      KeptAmongIn(vstreams, ks);
      assert name !in ks by {
        assert Distinct(vstreams.keys);
        assert forall j :: 0 <= j < |ks| ==> ks[j] == vstreams.keys[j];
      }
      UntouchedStep(vstreams, kept, name, entry, before, ef, f, f');
      if done {
        StoredKeysStep(vstreams, ks, kept, name, entry, before, f, f');
        KeyStoredOf(vstreams, name, entry, vertexBuffers.values[name]);
        StoredOneMore(vstreams, i, kept, entry);
      }
    }

    /** The stores over the first `i` keys and the one under key `i` make those over the first `i + 1`. */
    lemma StoredOneMore(vstreams: OMap<string, Stream>, i: int, kept: set<string>, entry: OMap<string, GLBuffer>)
      requires vstreams.Valid() && 0 <= i < |vstreams.keys| && KeptVertex(vstreams, vstreams.keys[i])
      requires forall k :: k in vstreams.values ==> !vstreams.values[k].Nested?
      requires StoredKeys(vstreams, vstreams.keys[..i], entry, Fields())
      requires vstreams.keys[i] in Fields() && KeyStored(vstreams, vstreams.keys[i], entry, Fields()[vstreams.keys[i]])
      requires forall k :: k in entry.values ==> k in vertexBuffers.values && vertexBuffers.values[k] == entry.values[k]
      requires forall k :: k in vertexBuffers.values <==> k in entry.values || k in kept || k == vstreams.keys[i]
      ensures StreamsStored(vstreams, kept + {vstreams.keys[i]}, entry, vstreams.keys[..i + 1])
    {
      assert vstreams.keys[..i + 1][..i] == vstreams.keys[..i];
    }

    /** One schema stream of `addBuffers`: uploaded into the buffer under its name, or a new buffer. */
    method AddVertexStream(name: string, a: NumArray, usage: int) returns (outcome: Outcome)
      requires Valid() && CommonBuffer(name).Some?
      modifies this`vertexBuffers, gl`log, gl`nextHandle
      modifies Under(vertexBuffers, name)`attribute, Under(vertexBuffers, name)`itemSize, Under(vertexBuffers, name)`handle,
        Under(vertexBuffers, name)`length, Under(vertexBuffers, name)`uploadedItemSize, Under(vertexBuffers, name)`glType,
        Under(vertexBuffers, name)`uploaded
      modifies ContextUnder(vertexBuffers, name)`log, ContextUnder(vertexBuffers, name)`nextHandle
      ensures Valid() && indexBuffers == old(indexBuffers)
      ensures a.kind != Float64 ==> outcome.Done?
      ensures name in old(vertexBuffers.values) ==> vertexBuffers == old(vertexBuffers)
      ensures name in old(vertexBuffers.values) && outcome.Done? && |a.values| > 0 ==>
        StreamStored(name, vertexBuffers.values[name], a)
      ensures name in old(vertexBuffers.values) && |a.values| == 0 ==>
        outcome == Done && gl.log == old(gl.log) && gl.nextHandle == old(gl.nextHandle)
        && unchanged(vertexBuffers.values[name].gl)
        && FieldsOf(vertexBuffers.values[name]) == old(FieldsOf(vertexBuffers.values[name]))
      ensures name !in old(vertexBuffers.values) ==>
        if outcome.Done? then
          name in vertexBuffers.values && vertexBuffers.values == old(vertexBuffers.values)[name := vertexBuffers.values[name]]
          && fresh(vertexBuffers.values[name]) && NewVertexStream(name, vertexBuffers.values[name], a)
        else vertexBuffers == old(vertexBuffers)
      ensures name in old(vertexBuffers.values) && |a.values| > 0 ==>
        var b := vertexBuffers.values[name];
        b.gl.log == old(b.gl.log) + (if outcome.Done? then UploadCalls(b.target, b.handle, a, usage) else [])
        && b.gl.nextHandle == old(b.gl.nextHandle) + (if old(b.handle).None? then 1 else 0)
      ensures name !in old(vertexBuffers.values) ==>
        gl.log == old(gl.log) + (if outcome.Done? then UploadCalls(ARRAY_BUFFER, Some(old(gl.nextHandle)), a, usage) else [])
        && gl.nextHandle == old(gl.nextHandle) + 1
      ensures forall k ::
        (k in old(vertexBuffers.values) && k != name
         && (name in old(vertexBuffers.values) ==> old(vertexBuffers.values[k]) != old(vertexBuffers.values[name]))) ==>
        k in Fields() && Fields()[k] == old(Fields()[k])
    {
      var info := CommonBuffer(name).value;
      if name in vertexBuffers.values {
        outcome := FeedVertexStream(name, a, usage);
      } else {
        outcome := CreateVertexBuffer(name, Some(TypedData(a)), Some(info.attribute), info.itemSize, usage);
      }
    }

    /** A schema stream under a name the mesh has: `updateVertexBuffer` with the schema's attribute and item size. */
    method FeedVertexStream(name: string, a: NumArray, usage: int) returns (outcome: Outcome)
      requires Valid() && CommonBuffer(name).Some? && name in vertexBuffers.values
      modifies Under(vertexBuffers, name)`attribute, Under(vertexBuffers, name)`itemSize, Under(vertexBuffers, name)`handle,
        Under(vertexBuffers, name)`length, Under(vertexBuffers, name)`uploadedItemSize, Under(vertexBuffers, name)`glType,
        Under(vertexBuffers, name)`uploaded
      modifies ContextUnder(vertexBuffers, name)`log, ContextUnder(vertexBuffers, name)`nextHandle
      ensures a.kind != Float64 ==> outcome.Done?
      ensures outcome.Done? && |a.values| > 0 ==> StreamStored(name, vertexBuffers.values[name], a)
      ensures |a.values| == 0 ==>
        outcome == Done && unchanged(vertexBuffers.values[name], vertexBuffers.values[name].gl)
      ensures |a.values| > 0 ==>
        var b := vertexBuffers.values[name];
        b.gl.log == old(b.gl.log) + (if outcome.Done? then UploadCalls(b.target, b.handle, a, usage) else [])
        && b.gl.nextHandle == old(b.gl.nextHandle) + (if old(b.handle).None? then 1 else 0)
      ensures forall k :: k in vertexBuffers.values && vertexBuffers.values[k] != vertexBuffers.values[name] ==>
        FieldsOf(vertexBuffers.values[k]) == old(FieldsOf(vertexBuffers.values[k]))
    {
      var info := CommonBuffer(name).value;
      outcome := UpdateVertexBuffer(name, TypedData(a), Some(info.attribute), Some(info.itemSize), usage);
    }

    /** The second loop of `addBuffers`: every present index stream becomes a new index buffer. */
    method AddIndexStreams(istreams: OMap<string, Stream>, numVertices: Option<real>) returns (outcome: Outcome)
      requires Valid() && istreams.Valid()
      modifies this`indexBuffers, gl`log, gl`nextHandle
      ensures Valid() && vertexBuffers == old(vertexBuffers)
      ensures IndexKindsOk(istreams, numVertices) ==> outcome.Done?
      ensures unchanged(vertexBuffers.values.Values)
      ensures forall k :: k in old(indexBuffers.values) && !(k in istreams.values && !istreams.values[k].NoStream?) ==>
        k in indexBuffers.values && indexBuffers.values[k] == old(indexBuffers.values[k])
      ensures outcome.Done? ==> indexBuffers.values.Keys == old(indexBuffers.values.Keys) + IndexNames(istreams)
      ensures outcome.Done? ==> forall k :: k in istreams.values && !istreams.values[k].NoStream? ==>
        NewIndexStream(indexBuffers.values[k], IndexArray(istreams.values[k], numVertices)) && fresh(indexBuffers.values[k])
    {
      outcome := Done;
      var j := 0;
      ghost var seen: set<string> := {};
      while j < |istreams.keys| && outcome.Done?
        invariant 0 <= j <= |istreams.keys| && Valid()
        invariant vertexBuffers == old(vertexBuffers)
        invariant IndexKindsOk(istreams, numVertices) ==> outcome.Done?
        invariant seen <= istreams.values.Keys && forall i :: 0 <= i < j ==> istreams.keys[i] in seen
        invariant forall i :: j <= i < |istreams.keys| ==> istreams.keys[i] !in seen
        invariant forall k :: k in indexBuffers.values <==> k in old(indexBuffers.values) || (k in seen && !istreams.values[k].NoStream?)
        invariant forall k :: k in old(indexBuffers.values) && !(k in seen && !istreams.values[k].NoStream?) ==>
          indexBuffers.values[k] == old(indexBuffers.values[k])
        invariant forall k :: k in seen && !istreams.values[k].NoStream? ==>
          NewIndexStream(indexBuffers.values[k], IndexArray(istreams.values[k], numVertices)) && fresh(indexBuffers.values[k])
        decreases |istreams.keys| - j, if outcome.Done? then 1 else 0
      {
        var name := istreams.keys[j];
        var s := istreams.values[name];
        if !s.NoStream? {
          outcome := AddIndexStream(name, s, numVertices);
        }
        if outcome.Done? {
          seen := seen + {name};
          j := j + 1;
        }
      }
    }

    /** One present index stream of `addBuffers`: cast as `IndexArray` has it, then `createIndexBuffer`. */
    method AddIndexStream(name: string, s: Stream, numVertices: Option<real>) returns (outcome: Outcome)
      requires Valid() && !s.NoStream?
      modifies this`indexBuffers, gl`log, gl`nextHandle
      ensures Valid() && vertexBuffers == old(vertexBuffers)
      ensures outcome.Done? <==> IndexArray(s, numVertices).kind != Float64
      ensures outcome.Threw? ==> indexBuffers == old(indexBuffers)
      ensures outcome.Done? ==>
        name in indexBuffers.values && indexBuffers == Put(old(indexBuffers), name, indexBuffers.values[name])
        && NewIndexStream(indexBuffers.values[name], IndexArray(s, numVertices)) && fresh(indexBuffers.values[name])
      ensures gl.nextHandle == old(gl.nextHandle) + 1
      ensures gl.log == old(gl.log) +
        if outcome.Done? then UploadCalls(ELEMENT_ARRAY_BUFFER, Some(old(gl.nextHandle)), IndexArray(s, numVertices), 0) else []
    {
      outcome := CreateIndexBuffer(name, TypedData(IndexArray(s, numVertices)), 0);
    }

    /** `deleteBuffers()`: destroys every buffer, then empties both maps. */
    method DeleteBuffers()
      requires Valid()
      modifies this`vertexBuffers, this`indexBuffers, Buffers()`handle, contexts`log
      ensures Valid() && vertexBuffers == Empty() && indexBuffers == Empty()
      ensures forall b :: b in old(Buffers()) ==> b.handle.None?
      ensures var all := old(InOrder(vertexBuffers) + InOrder(indexBuffers));
        forall g :: g in contexts ==> g.log == old(g.log) + DeleteCalls(all, old(Handles(all)), g, |all|)
    {
      var all := InOrder(vertexBuffers) + InOrder(indexBuffers);
      InOrderWithin(all);
      DestroyAll(all, contexts);
      forall b | b in old(Buffers())
        ensures b.handle.None?
      {
        InOrderCovers(b);
      }
      vertexBuffers := Empty();
      indexBuffers := Empty();
    }

    /** The loops of `deleteBuffers` over the buffers in iteration order. */
    method DestroyAll(all: seq<GLBuffer>, ghost cs: set<GLContext>)
      requires forall m :: 0 <= m < |all| ==> all[m].gl in cs
      modifies (set b | b in all)`handle, cs`log
      ensures forall m :: 0 <= m < |all| ==> all[m].handle.None?
      ensures forall g :: g in cs ==> g.log == old(g.log) + DeleteCalls(all, old(Handles(all)), g, |all|)
    {
      ghost var hs := Handles(all);
      var i := 0;
      while i < |all|
        invariant 0 <= i <= |all|
        invariant forall m :: 0 <= m < i ==> all[m].handle.None?
        invariant forall m :: i <= m < |all| && all[m] !in all[..i] ==> all[m].handle == hs[m]
        invariant forall g :: g in cs ==> g.log == old(g.log) + DeleteCalls(all, hs, g, i)
      {
        assert all[i] in all[..i] ==> all[i].handle.None?;
        all[i].Destroy();
        assert all[..i + 1] == all[..i] + [all[i]];
        i := i + 1;
      }
    }

    /**
     * `freeData()`: drops the data every buffer keeps, and deletes the mesh property named
     * after each buffer (index buffers have no name, so "undefined" goes).
     */
    method FreeData()
      requires Valid()
      modifies this`properties, Buffers()`data
      ensures forall b :: b in old(Buffers()) ==> b.data.None?
      ensures var all := InOrder(vertexBuffers) + InOrder(indexBuffers);
        properties == old(properties) - old(NameKeysOf(all, |all|))
    {
      var all := InOrder(vertexBuffers) + InOrder(indexBuffers);
      InOrderWithin(all);
      FreeAll(all);
      forall b | b in old(Buffers())
        ensures b.data.None?
      {
        InOrderCovers(b);
      }
    }

    /** The loop of `freeData` over the buffers in iteration order. */
    method FreeAll(all: seq<GLBuffer>)
      modifies this`properties, (set b | b in all)`data
      ensures forall m :: 0 <= m < |all| ==> all[m].data.None?
      ensures properties == old(properties) - old(NameKeysOf(all, |all|))
    {
      var i := 0;
      while i < |all|
        invariant 0 <= i <= |all|
        invariant forall m :: 0 <= m < i ==> all[m].data.None?
        invariant properties == old(properties) - old(NameKeysOf(all, i))
      {
        var b := all[i];
        b.data := None;
        properties := properties - {NameKey(b.name)};
        i := i + 1;
      }
    }

    /** The iteration order holds only buffers of the mesh. */
    lemma InOrderWithin(all: seq<GLBuffer>)
      requires Valid() && all == InOrder(vertexBuffers) + InOrder(indexBuffers)
      ensures forall b :: b in all ==> b in Buffers()
    {
      forall b | b in all
        ensures b in Buffers()
      {
        var m :| 0 <= m < |all| && all[m] == b;
        if m < |vertexBuffers.keys| {
          assert b == vertexBuffers.values[vertexBuffers.keys[m]];
        } else {
          assert b == indexBuffers.values[indexBuffers.keys[m - |vertexBuffers.keys|]];
        }
      }
    }

    /** Every buffer of the mesh occurs in the iteration order. */
    lemma InOrderCovers(b: GLBuffer)
      requires Valid() && b in Buffers()
      ensures b in InOrder(vertexBuffers) + InOrder(indexBuffers)
    {
      if b in vertexBuffers.values.Values {
        var k :| k in vertexBuffers.values && vertexBuffers.values[k] == b;
        var m :| 0 <= m < |vertexBuffers.keys| && vertexBuffers.keys[m] == k;
        assert InOrder(vertexBuffers)[m] == b;
      } else {
        var k :| k in indexBuffers.values && indexBuffers.values[k] == b;
        var m :| 0 <= m < |indexBuffers.keys| && indexBuffers.keys[m] == k;
        assert (InOrder(vertexBuffers) + InOrder(indexBuffers))[|vertexBuffers.keys| + m] == b;
      }
    }

    /**
     * `configure(o)`: sorts the entries of `o` (see `Route`), notes an `info` entry as it
     * passes, adds the sorted buffers with the options' usage, then copies the options onto
     * the mesh.
     */
    method Configure(o: seq<(string, ConfigValue)>) returns (outcome: Outcome)
      requires Valid()
      requires forall k :: k in Route(o).vertex.values ==> !Route(o).vertex.values[k].Nested?
      modifies this`vertexBuffers, this`indexBuffers, this`properties, this`hasInfo, vertexBuffers.values.Values`attribute, vertexBuffers.values.Values`itemSize,
        vertexBuffers.values.Values`handle, vertexBuffers.values.Values`length, vertexBuffers.values.Values`uploadedItemSize,
        vertexBuffers.values.Values`glType, vertexBuffers.values.Values`uploaded, contexts`log, contexts`nextHandle
      ensures Valid() && hasInfo == (old(hasInfo) || Route(o).info)
      ensures outcome.Done? ==> properties == old(properties) + Route(o).options.values
      ensures outcome.Threw? ==> properties == old(properties)
      ensures VertexKindsOk(Route(o).vertex) && IndexKindsOk(Route(o).index, CallVertexCount(Route(o).vertex, "P" in old(vertexBuffers.values))) ==>
        outcome.Done?
      ensures forall k :: k in old(vertexBuffers.values) ==> k in vertexBuffers.values && vertexBuffers.values[k] == old(vertexBuffers.values[k])
      ensures outcome.Done? ==> Added(old(vertexBuffers), old(indexBuffers.values.Keys), vertexBuffers, indexBuffers, Route(o).vertex, Route(o).index)
      ensures forall k :: k in old(indexBuffers.values) && !(k in Route(o).index.values && !Route(o).index.values[k].NoStream?) ==>
        k in indexBuffers.values && indexBuffers.values[k] == old(indexBuffers.values[k])
      ensures outcome.Done? ==> forall k :: k in Route(o).index.values && !Route(o).index.values[k].NoStream? ==> fresh(indexBuffers.values[k])
      ensures forall k :: Unshared(old(vertexBuffers), k) && !Fed(Route(o).vertex, k) ==>
        k in vertexBuffers.values && FieldsOf(vertexBuffers.values[k]) == old(FieldsOf(vertexBuffers.values[k]))
    {
      var r := RouteConfig(o);
      outcome := AddRouted(r);
    }

    /** The second half of `configure`: the sorted entries become buffers and properties. */
    method AddRouted(r: Routed) returns (outcome: Outcome)
      requires Valid() && r.Valid()
      requires forall k :: k in r.vertex.values ==> !r.vertex.values[k].Nested?
      modifies this`vertexBuffers, this`indexBuffers, this`properties, vertexBuffers.values.Values`attribute, vertexBuffers.values.Values`itemSize,
        vertexBuffers.values.Values`handle, vertexBuffers.values.Values`length, vertexBuffers.values.Values`uploadedItemSize,
        vertexBuffers.values.Values`glType, vertexBuffers.values.Values`uploaded, contexts`log, contexts`nextHandle
      ensures Valid() && hasInfo == old(hasInfo)
      ensures outcome.Done? ==> properties == old(properties) + r.options.values
      ensures outcome.Threw? ==> properties == old(properties)
      ensures VertexKindsOk(r.vertex) && IndexKindsOk(r.index, CallVertexCount(r.vertex, "P" in old(vertexBuffers.values))) ==>
        outcome.Done?
      ensures forall k :: k in old(vertexBuffers.values) ==> k in vertexBuffers.values && vertexBuffers.values[k] == old(vertexBuffers.values[k])
      ensures outcome.Done? ==> Added(old(vertexBuffers), old(indexBuffers.values.Keys), vertexBuffers, indexBuffers, r.vertex, r.index)
      ensures forall k :: k in old(indexBuffers.values) && !(k in r.index.values && !r.index.values[k].NoStream?) ==>
        k in indexBuffers.values && indexBuffers.values[k] == old(indexBuffers.values[k])
      ensures outcome.Done? ==> forall k :: k in r.index.values && !r.index.values[k].NoStream? ==> fresh(indexBuffers.values[k])
      ensures forall k :: Unshared(old(vertexBuffers), k) && !Fed(r.vertex, k) ==>
        k in vertexBuffers.values && FieldsOf(vertexBuffers.values[k]) == old(FieldsOf(vertexBuffers.values[k]))
    {
      outcome := AddBuffers(r.vertex, r.index, UsageOf(r.options));
      if outcome.Done? {
        SetProperties(properties + r.options.values);
      }
    }

    /** Replaces the property map; no buffer is touched. */
    method SetProperties(p: map<string, ConfigValue>)
      modifies this`properties
      ensures properties == p && unchanged(vertexBuffers.values.Values)
    {
      properties := p;
    }

    /** The loop of `configure` that sorts the entries, noting `info` on the way. */
    method RouteConfig(o: seq<(string, ConfigValue)>) returns (r: Routed)
      modifies this`hasInfo
      ensures r == Route(o) && hasInfo == (old(hasInfo) || r.info)
    {
      r := Routed(Empty(), Empty(), Empty(), false);
      var k := 0;
      while k < |o|
        invariant 0 <= k <= |o| && r == Route(o[..k])
        invariant hasInfo == (old(hasInfo) || r.info)
      {
        assert o[..k + 1][..k] == o[..k];
        if !o[k].1.Falsy? && o[k].0 == "info" {
          hasInfo := true;
        }
        r := RouteEntry(r, o[k].0, o[k].1);
        k := k + 1;
      }
      assert o[..k] == o;
    }

    /** The buffers of both maps, in iteration order. */
    function InOrder(m: OMap<string, GLBuffer>): (r: seq<GLBuffer>)
      requires m.Valid()
      ensures |r| == |m.keys| && forall i :: 0 <= i < |r| ==> r[i] == m.values[m.keys[i]]
    {
      seq(|m.keys|, i requires 0 <= i < |m.keys| => m.values[m.keys[i]])
    }

    /** `totalMemory()`: the byte lengths of all buffers' data added up; none when a buffer has no data (a TypeError). */
    method TotalMemory() returns (size: Option<nat>)
      requires Valid()
      ensures size == MemoryOf(InOrder(vertexBuffers) + InOrder(indexBuffers))
    {
      size := SumMemory(InOrder(vertexBuffers) + InOrder(indexBuffers));
    }
  }

  /** The loop of `totalMemory()` over some buffers: their byte lengths added up, none at the first without data. */
  method SumMemory(all: seq<GLBuffer>) returns (size: Option<nat>)
    ensures size == MemoryOf(all)
  {
    var total := 0;
    var i := 0;
    while i < |all|
      invariant 0 <= i <= |all|
      invariant MemoryOf(all[..i]) == Some(total)
    {
      var b := all[i];
      MemoryOfStep(all, i);
      if b.data.None? {
        MemoryOfFailsFrom(all, i + 1);
        return None;
      }
      total := total + ByteLength(b.data.value);
      i := i + 1;
    }
    assert all[..i] == all;
    return Some(total);
  }

  /** The memory of some buffers' data: the sum of their byte lengths, or none if one has no data. */
  function MemoryOf(bufs: seq<GLBuffer>): (r: Option<nat>)
    reads set b | b in bufs
    ensures r.None? <==> exists i :: 0 <= i < |bufs| && bufs[i].data.None?
  {
    if bufs == [] then Some(0)
    else
      var last := bufs[|bufs| - 1];
      match MemoryOf(bufs[..|bufs| - 1])
      case None => None
      case Some(n) => if last.data.None? then None else Some(n + ByteLength(last.data.value))
  }

  /** The property keys `freeData` deletes for some buffers. */
  function NameKeysOf(bufs: seq<GLBuffer>, n: nat): (r: set<string>)
    requires n <= |bufs|
    reads bufs
    ensures forall i :: 0 <= i < n ==> NameKey(bufs[i].name) in r
  {
    if n == 0 then {} else NameKeysOf(bufs, n - 1) + {NameKey(bufs[n - 1].name)}
  }

  /** One more buffer: its byte length is added, or the total fails when it has no data. */
  lemma MemoryOfStep(bufs: seq<GLBuffer>, i: nat)
    requires i < |bufs|
    ensures MemoryOf(bufs[..i + 1]) ==
      match MemoryOf(bufs[..i])
      case None => None
      case Some(n) => if bufs[i].data.None? then None else Some(n + ByteLength(bufs[i].data.value))
  {
    assert bufs[..i + 1][..i] == bufs[..i];
  }

  /** A buffer without data makes the whole total fail. */
  lemma MemoryOfFailsFrom(bufs: seq<GLBuffer>, i: nat)
    requires 0 < i <= |bufs| && MemoryOf(bufs[..i]).None?
    ensures MemoryOf(bufs).None?
  {
    var j :| 0 <= j < i && bufs[..i][j].data.None?;
    assert bufs[j].data.None?;
  }

  /** The memory of two runs of buffers is the sum of their memories. */
  lemma {:induction false} MemoryOfAppend(a: seq<GLBuffer>, b: seq<GLBuffer>)
    requires MemoryOf(a).Some? && MemoryOf(b).Some?
    ensures MemoryOf(a + b) == Some(MemoryOf(a).value + MemoryOf(b).value)
  {
    if b == [] {
      assert a + b == a;
    } else {
      var init := b[..|b| - 1];
      assert (a + b)[..|a + b| - 1] == a + init;
      assert MemoryOf(init).Some? by {
        assert forall i :: 0 <= i < |init| ==> init[i] == b[i];
      }
      MemoryOfAppend(a, init);
    }
  }

  /** `GLMesh.load(gl, buffers)`: a new mesh configured from `buffers`. */
  method Load(gl: GLContext, o: seq<(string, ConfigValue)>) returns (mesh: GLMesh, outcome: Outcome)
    requires forall k :: k in Route(o).vertex.values ==> !Route(o).vertex.values[k].Nested?
    modifies gl`log, gl`nextHandle
    ensures fresh(mesh) && mesh.Valid() && mesh.gl == gl && mesh.hasInfo == Route(o).info
    ensures outcome.Done? ==>
      mesh.vertexBuffers.values.Keys == VertexNames(Route(o).vertex)
      && mesh.indexBuffers.values.Keys == IndexNames(Route(o).index)
      && mesh.properties == Route(o).options.values
    ensures outcome.Done? ==> forall k :: k in mesh.vertexBuffers.values ==>
      KeptVertex(Route(o).vertex, k) && NewVertexStream(k, mesh.vertexBuffers.values[k], VertexArray(k, Route(o).vertex.values[k]))
    ensures outcome.Done? ==> forall k :: k in mesh.indexBuffers.values ==>
      k in Route(o).index.values && !Route(o).index.values[k].NoStream?
      && NewIndexStream(mesh.indexBuffers.values[k], IndexArray(Route(o).index.values[k], CallVertexCount(Route(o).vertex, false)))
      && fresh(mesh.indexBuffers.values[k])
  {
    mesh := new GLMesh(gl);
    assert mesh.vertexBuffers.values.Values == {};
    outcome := mesh.Configure(o);
  }
}
