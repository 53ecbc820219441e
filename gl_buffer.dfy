/**
 * Vertex and index buffers (`GLBuffer`). The WebGL buffer object carries the uploaded
 * length, item size and element type; the model keeps them as fields beside the handle.
 */
module GLBuffers {
  import opened Wrappers
  import opened GL
  import opened TypedArrays
  import opened GLContexts

  /** What `upload` can be given: a typed array, or a plain array of numbers. */
  datatype BufferSource = TypedData(typed: NumArray) | PlainData(values: seq<real>)

  function SourceLength(d: BufferSource): nat
  {
    match d
    case TypedData(a) => |a.values|
    case PlainData(xs) => |xs|
  }

  /** The item size a buffer gets: the given one, or 1 for index and 3 for vertex buffers when it is 0 or absent. */
  function DefaultItemSize(target: int, itemSize: int): (n: int)
    ensures itemSize != 0 ==> n == itemSize
    ensures itemSize == 0 && target == ELEMENT_ARRAY_BUFFER ==> n == 1
    ensures itemSize == 0 && target != ELEMENT_ARRAY_BUFFER ==> n == 3
  {
    if itemSize != 0 then itemSize else if target == ELEMENT_ARRAY_BUFFER then 1 else 3
  }

  /** The WebGL element type of a typed-array kind; none for the kinds `upload` refuses. */
  function GLTypeOf(k: ArrayKind): (t: Option<int>)
    ensures t.None? <==> k == Float64
  {
    match k
    case Int8 => Some(BYTE)
    case Uint8Clamped => Some(UNSIGNED_BYTE)
    case Uint8 => Some(UNSIGNED_BYTE)
    case Int16 => Some(SHORT)
    case Uint16 => Some(UNSIGNED_SHORT)
    case Int32 => Some(INT)
    case Uint32 => Some(UNSIGNED_INT)
    case Float32 => Some(FLOAT)
    case Float64 => None
  }

  /** The size in bytes of one element of a WebGL element type. */
  function GLTypeSize(t: int): nat
  {
    if t == BYTE || t == UNSIGNED_BYTE then 1
    else if t == SHORT || t == UNSIGNED_SHORT then 2
    else 4
  }

  /** The element type chosen for a kind always has the kind's element width. */
  lemma GLTypeMatchesWidth(k: ArrayKind)
    requires k != Float64
    ensures GLTypeSize(GLTypeOf(k).value) == BytesPerElement(k)
  {
  }

  /** The mapping is one-to-one except that both 8-bit unsigned kinds share UNSIGNED_BYTE. */
  lemma GLTypeOfInjective(j: ArrayKind, k: ArrayKind)
    requires GLTypeOf(j).Some? && GLTypeOf(j) == GLTypeOf(k)
    ensures j == k || {j, k} == {Uint8, Uint8Clamped}
  {
  }

  /** The element type of an upload after widening: vertex data of 32-bit integers goes up as floats. */
  function UploadedType(target: int, k: ArrayKind): (t: int)
    requires k != Float64
    ensures target == ARRAY_BUFFER && (k == Int32 || k == Uint32) ==> t == FLOAT
    ensures !(target == ARRAY_BUFFER && (k == Int32 || k == Uint32)) ==> Some(t) == GLTypeOf(k)
  {
    var t := GLTypeOf(k).value;
    if target == ARRAY_BUFFER && (t == INT || t == UNSIGNED_INT) then FLOAT else t
  }

  /** The array handed to `bufferData`: widened to Float32 exactly when the type was widened. */
  function UploadedArray(target: int, a: NumArray): (r: NumArray)
    requires a.kind != Float64
    ensures |r.values| == |a.values|
    ensures UploadedType(target, a.kind) == FLOAT && a.kind != Float32 ==> r == Convert(Float32, a.values)
    ensures UploadedType(target, a.kind) != FLOAT || a.kind == Float32 ==> r == a
  {
    if UploadedType(target, a.kind) == FLOAT && a.kind != Float32 then Convert(Float32, a.values) else a
  }

  /** Widening keeps every element value (float rounding is not modelled). */
  lemma WideningKeepsValues(target: int, a: NumArray)
    requires a.kind == Int32 || a.kind == Uint32
    ensures UploadedArray(target, a).values == a.values
  {
  }

  /** The calls of an upload that succeeds: bind, then `bufferData` of the widened array with the usage (STATIC_DRAW for 0). */
  function UploadCalls(target: int, h: Option<Handle>, a: NumArray, usage: int): seq<GLCall>
    requires a.kind != Float64
  {
    [BindBuffer(target, h), BufferData(target, UploadedArray(target, a), if usage != 0 then usage else STATIC_DRAW)]
  }

  const UNSUPPORTED := "unsupported buffer type"
  const NO_DATA := "No data stored in this buffer"
  const NOT_TYPED := "Buffers must be typed arrays"
  const RANGE_ERROR := "RangeError: invalid typed array length"
  const NO_HANDLE := "TypeError: Cannot read properties of null (reading 'glType')"

  class GLBuffer {
    const gl: GLContext
    /** ARRAY_BUFFER or ELEMENT_ARRAY_BUFFER. */
    const target: int
    var itemSize: int
    /** The name of the shader attribute this buffer feeds. */
    var attribute: Option<string>
    /** The stream name the owning mesh stores it under. */
    var name: Option<string>
    /** The data the owning mesh keeps for it (`buffer.data`). */
    var data: Option<NumArray>
    /** The WebGL buffer, with the properties `upload` records on it. */
    var handle: Option<Handle>
    var length: nat
    var uploadedItemSize: int
    var glType: int
    /** The array the last whole upload handed to `bufferData`. */
    var uploaded: Option<NumArray>

    /** `new GLBuffer(gl, target, itemSize)`, before any upload. */
    constructor (gl: GLContext, target: int, itemSize: int)
      ensures this.gl == gl && this.target == target && this.itemSize == DefaultItemSize(target, itemSize)
      ensures handle.None? && attribute.None? && name.None? && data.None? && uploaded.None?
    {
      this.gl := gl;
      this.target := target;
      this.itemSize := DefaultItemSize(target, itemSize);
      attribute := None;
      name := None;
      data := None;
      handle := None;
      length := 0;
      uploadedItemSize := 0;
      glType := 0;
      uploaded := None;
    }

    /**
     * `upload(data, usage)`: creates the WebGL buffer once, records length and item size,
     * then the element type (throwing for kinds WebGL buffers cannot hold); vertex data of
     * 32-bit integers is widened to floats; finally binds and uploads.
     */
    method Upload(source: BufferSource, usage: int) returns (outcome: Outcome)
      modifies this`handle, this`length, this`uploadedItemSize, this`glType, this`uploaded, gl`log, gl`nextHandle
      ensures handle.Some? && (old(handle).Some? ==> handle == old(handle))
      ensures old(handle).Some? ==> gl.nextHandle == old(gl.nextHandle)
      ensures old(handle).None? ==> handle == Some(old(gl.nextHandle)) && gl.nextHandle == old(gl.nextHandle) + 1
      ensures length == SourceLength(source) && uploadedItemSize == itemSize
      ensures outcome.Threw? <==> !(source.TypedData? && source.typed.kind != Float64)
      ensures outcome.Threw? ==>
        outcome == Threw(UNSUPPORTED) && gl.log == old(gl.log) && glType == old(glType) && uploaded == old(uploaded)
      ensures outcome.Done? ==>
        glType == UploadedType(target, source.typed.kind) && uploaded == Some(UploadedArray(target, source.typed))
        && gl.log == old(gl.log) + [BindBuffer(target, handle),
                                    BufferData(target, UploadedArray(target, source.typed), if usage != 0 then usage else STATIC_DRAW)]
    {
      var u := if usage != 0 then usage else STATIC_DRAW;
      if handle.None? {
        var h := gl.NewHandle();
        handle := Some(h);
      }
      length := SourceLength(source);
      uploadedItemSize := itemSize;
      if source.PlainData? || source.typed.kind == Float64 {
        return Threw(UNSUPPORTED);
      }
      var a := source.typed;
      glType := GLTypeOf(a.kind).value;
      if target == ARRAY_BUFFER && (glType == INT || glType == UNSIGNED_INT) {
        glType := FLOAT;
        a := Convert(Float32, a.values);
      }
      gl.Call(BindBuffer(target, handle));
      gl.Call(BufferData(target, a, u));
      uploaded := Some(a);
      return Done;
    }

    /**
     * `uploadRange(data, start, size)`: throws without data, for data that is not a typed
     * array, and for a byte range outside it; otherwise binds and uploads that range.
     */
    method UploadRange(source: Option<BufferSource>, start: int, size: int) returns (outcome: Outcome)
      modifies gl`log
      ensures source.None? ==> outcome == Threw(NO_DATA) && gl.log == old(gl.log)
      ensures source.Some? && source.value.PlainData? ==> outcome == Threw(NOT_TYPED) && gl.log == old(gl.log)
      ensures source.Some? && source.value.TypedData? ==>
        var n := ByteLength(source.value.typed);
        if 0 <= start <= n && 0 <= size && start + size <= n then
          outcome == Done && gl.log == old(gl.log) + [BindBuffer(target, handle), BufferSubData(target, start, size)]
        else
          outcome == Threw(RANGE_ERROR) && gl.log == old(gl.log)
    {
      if source.None? {
        return Threw(NO_DATA);
      }
      if source.value.PlainData? {
        return Threw(NOT_TYPED);
      }
      var n := ByteLength(source.value.typed);
      if start < 0 || start > n || size < 0 || start + size > n {
        return Threw(RANGE_ERROR);
      }
      gl.Call(BindBuffer(target, handle));
      gl.Call(BufferSubData(target, start, size));
      return Done;
    }

    /** `bind(location)`: binds, and with a location enables and points the attribute at it. */
    method Bind(location: Option<int>) returns (outcome: Outcome)
      modifies gl`log
      ensures location.None? ==> outcome == Done && gl.log == old(gl.log) + [BindBuffer(target, handle)]
      ensures location.Some? && handle.None? ==>
        outcome == Threw(NO_HANDLE)
        && gl.log == old(gl.log) + [BindBuffer(target, handle), EnableVertexAttribArray(location.value)]
      ensures location.Some? && handle.Some? ==>
        outcome == Done
        && gl.log == old(gl.log) + [BindBuffer(target, handle), EnableVertexAttribArray(location.value),
                                    VertexAttribPointer(location.value, itemSize, glType)]
    {
      gl.Call(BindBuffer(target, handle));
      if location.Some? {
        gl.Call(EnableVertexAttribArray(location.value));
        if handle.None? {
          return Threw(NO_HANDLE);
        }
        gl.Call(VertexAttribPointer(location.value, itemSize, glType));
      }
      return Done;
    }

    /** `unbind(location)`: disables the attribute location when one is given. */
    method Unbind(location: Option<int>)
      modifies gl`log
      ensures gl.log == old(gl.log) + if location.Some? then [DisableVertexAttribArray(location.value)] else []
    {
      if location.Some? {
        gl.Call(DisableVertexAttribArray(location.value));
      }
    }

    /** `destroy()`: deletes the WebGL buffer (null is accepted) and forgets it. */
    method Destroy()
      modifies this`handle, gl`log
      ensures handle.None? && gl.log == old(gl.log) + [DeleteBuffer(old(handle))]
    {
      gl.Call(DeleteBuffer(handle));
      handle := None;
    }
  }

  /**
   * `new GLBuffer(gl, target, itemSize, data, usage)`, with `vertexBuffer`/`indexBuffer` as
   * the two targets: uploads straight away when data is given.
   */
  method NewBuffer(gl: GLContext, target: int, itemSize: int, source: Option<BufferSource>, usage: int)
    returns (b: GLBuffer, outcome: Outcome)
    modifies gl`log, gl`nextHandle
    ensures fresh(b) && b.gl == gl && b.target == target && b.itemSize == DefaultItemSize(target, itemSize)
    ensures source.None? ==> outcome == Done && b.handle.None? && gl.log == old(gl.log) && gl.nextHandle == old(gl.nextHandle)
    ensures source.Some? ==> b.handle == Some(old(gl.nextHandle)) && b.length == SourceLength(source.value)
    ensures source.Some? ==> gl.nextHandle == old(gl.nextHandle) + 1
    ensures source.Some? ==>
      gl.log == old(gl.log) + if source.value.TypedData? && source.value.typed.kind != Float64
                               then UploadCalls(target, b.handle, source.value.typed, usage) else []
    ensures source.Some? ==> (outcome.Threw? <==> !(source.value.TypedData? && source.value.typed.kind != Float64))
    ensures source.Some? && outcome.Done? ==>
      b.glType == UploadedType(target, source.value.typed.kind) && b.uploaded == Some(UploadedArray(target, source.value.typed))
  {
    b := new GLBuffer(gl, target, itemSize);
    outcome := Done;
    if source.Some? {
      outcome := b.Upload(source.value, usage);
    }
  }
}
