/**
 * The immediate-mode draw helper `GLDraw` (loki/gl/gl_draw.js): the 32-slot model-matrix
 * stack laid over one shared Float32Array, the camera stack, the current color and point
 * settings, `linearize`, and the reusable global mesh that immediate draws stream into.
 * Matrices are 16 entries in column-major order; Float32 rounding is not modelled.
 */
module GLDraws {
  import opened Wrappers
  import opened OrderedMaps
  import opened GLMeshes

  /** Slots of the model-matrix stack, and entries per 4x4 matrix. */
  const SLOTS := 32
  const MATRIX_SIZE := 16
  /** Bytes per Float32 entry: `byteOffset` and `byteLength` count in these. */
  const FLOAT_BYTES := 4

  const OVERFLOW := "Matrix stack overflow"
  const UNDERFLOW := "Matrix stack underflow"
  const CAMERA_UNDERFLOW := "Too many calls to popCamera"
  const NO_GLOBAL_MESH := "No global mesh to resize"
  /** What JavaScript throws on reading a property of `undefined` or calling a missing method. */
  const TYPE_ERROR := "TypeError"
  /** What `TypedArray.prototype.set` throws when the source does not fit at the offset. */
  const RANGE_ERROR := "RangeError"

  /** `n` zeros: a freshly allocated Float32Array. */
  function Zeros(n: nat): (z: seq<real>)
    ensures |z| == n && forall i :: 0 <= i < n ==> z[i] == 0.0
  {
    seq(n, _ => 0.0)
  }

  /** `Matrix4.setIdentity`: ones on the diagonal (entries 0, 5, 10 and 15), zeros elsewhere. */
  function IdentityMatrix(): (m: seq<real>)
    ensures |m| == MATRIX_SIZE
    ensures forall i :: 0 <= i < MATRIX_SIZE ==> m[i] == (if i % 5 == 0 then 1.0 else 0.0)
  {
    [1.0, 0.0, 0.0, 0.0, 0.0, 1.0, 0.0, 0.0, 0.0, 0.0, 1.0, 0.0, 0.0, 0.0, 0.0, 1.0]
  }

  // ---------------------------------------------------------------------------------------
  // The matrix stack as a value
  // ---------------------------------------------------------------------------------------

  /** The whole stack buffer: 32 matrices one after another. */
  predicate IsStack(s: seq<real>)
  {
    |s| == SLOTS * MATRIX_SIZE
  }

  /** The matrix slot `k` holds: the Matrix4 view at byte offset `k * 64`. */
  function SlotOf(s: seq<real>, k: int): (m: seq<real>)
    requires IsStack(s) && 0 <= k < SLOTS
    ensures |m| == MATRIX_SIZE
  {
    s[k * MATRIX_SIZE .. k * MATRIX_SIZE + MATRIX_SIZE]
  }

  /** The stack after `set(m)` on slot `k`'s view. */
  function WriteSlot(s: seq<real>, k: int, m: seq<real>): (r: seq<real>)
    requires IsStack(s) && 0 <= k < SLOTS && |m| == MATRIX_SIZE
    ensures IsStack(r)
  {
    s[..k * MATRIX_SIZE] + m + s[k * MATRIX_SIZE + MATRIX_SIZE..]
  }

  /** Writing slot `k` gives that slot `m` and leaves every other slot as it was. */
  lemma {:induction false} SlotAfterWrite(s: seq<real>, k: int, m: seq<real>, j: int)
    requires IsStack(s) && 0 <= k < SLOTS && |m| == MATRIX_SIZE && 0 <= j < SLOTS
    ensures SlotOf(WriteSlot(s, k, m), j) == if j == k then m else SlotOf(s, j)
  {
    var r := WriteSlot(s, k, m);
    var lo := k * MATRIX_SIZE;
    assert |s[..lo]| == lo;
    if j == k {
      assert SlotOf(r, j) == r[lo .. lo + MATRIX_SIZE];
      assert r[lo .. lo + MATRIX_SIZE] == m;
    } else if j < k {
      assert j * MATRIX_SIZE + MATRIX_SIZE <= lo;
      forall t | 0 <= t < MATRIX_SIZE
        ensures SlotOf(r, j)[t] == SlotOf(s, j)[t]
      {
        assert r[j * MATRIX_SIZE + t] == s[..lo][j * MATRIX_SIZE + t];
      }
    } else {
      assert lo + MATRIX_SIZE <= j * MATRIX_SIZE;
      forall t | 0 <= t < MATRIX_SIZE
        ensures SlotOf(r, j)[t] == SlotOf(s, j)[t]
      {
        var p := j * MATRIX_SIZE + t;
        assert r[p] == s[lo + MATRIX_SIZE..][p - lo - MATRIX_SIZE];
      }
    }
  }

  /** The stack after `push` from slot `k`: slot `k + 1` receives a copy of slot `k`. */
  function Pushed(s: seq<real>, k: int): (r: seq<real>)
    requires IsStack(s) && 0 <= k < SLOTS - 1
    ensures IsStack(r)
  {
    WriteSlot(s, k + 1, SlotOf(s, k))
  }

  /**
   * `push` never touches the slot it leaves: after `push`, any change to the new current
   * matrix, and `pop`, the model matrix is the one before `push`. `push` itself starts the
   * new slot as a copy of the old one.
   */
  lemma {:induction false} PushChangePopRestores(s: seq<real>, k: int, m: seq<real>)
    requires IsStack(s) && 0 <= k < SLOTS - 1 && |m| == MATRIX_SIZE
    ensures SlotOf(Pushed(s, k), k + 1) == SlotOf(s, k)
    ensures SlotOf(WriteSlot(Pushed(s, k), k + 1, m), k) == SlotOf(s, k)
  {
    SlotAfterWrite(s, k + 1, SlotOf(s, k), k + 1);
    SlotAfterWrite(s, k + 1, SlotOf(s, k), k);
    SlotAfterWrite(Pushed(s, k), k + 1, m, k);
  }

  // ---------------------------------------------------------------------------------------
  // linearize
  // ---------------------------------------------------------------------------------------

  /** What `linearize` is given: an array of numbers (a Float32Array or another), or of tuples. */
  datatype LinearInput =
    | Flat(isFloat32: bool, values: seq<real>)
    | Nested(items: seq<seq<real>>)

  /** What `linearize` returns: a new empty array, its argument itself, a new Float32Array, or a throw. */
  datatype Linear =
    | EmptyList
    | SameArray
    | Floats(values: seq<real>)
    | LinearThrew(message: string)

  /** `result.set(item, offset)` on a Float32Array that has room for it. */
  function Placed(r: seq<real>, item: seq<real>, offset: nat): (p: seq<real>)
    requires offset + |item| <= |r|
    ensures |p| == |r|
    ensures forall k :: 0 <= k < |r| ==> p[k] == if offset <= k < offset + |item| then item[k - offset] else r[k]
  {
    r[..offset] + item + r[offset + |item|..]
  }

  /** `a * n`, by repeated addition: the offset of tuple `a` at stride `n`. */
  function Stride(a: nat, n: nat): nat
  {
    if a == 0 then 0 else Stride(a - 1, n) + n
  }

  /**
   * The result buffer after the first `i` passes of the copy loop: tuple `a` placed at
   * offset `a * n`, or none once a tuple overruns the buffer.
   */
  function Flattened(items: seq<seq<real>>, n: nat, i: nat): (r: Option<seq<real>>)
    requires i <= |items|
    ensures r.Some? ==> |r.value| == Stride(|items|, n)
  {
    if i == 0 then Some(Zeros(Stride(|items|, n)))
    else
      match Flattened(items, n, i - 1)
      case None => None
      case Some(b) =>
        if Stride(i - 1, n) + |items[i - 1]| <= |b| then Some(Placed(b, items[i - 1], Stride(i - 1, n))) else None
  }

  /** Every tuple has `n` entries. */
  predicate Uniform(items: seq<seq<real>>, n: nat)
  {
    forall a :: 0 <= a < |items| ==> |items[a]| == n
  }

  /** The first `k` of `n`-entry tuples flatten to `k * n` entries. */
  lemma {:induction false} FlattenPrefixLength(items: seq<seq<real>>, n: nat, k: nat)
    requires Uniform(items, n) && k <= |items|
    ensures |Flatten(items[..k])| == Stride(k, n)
  {
    if k == 0 {
      assert items[..0] == [];
    } else {
      FlattenPrefixLength(items, n, k - 1);
      FlattenRows(items, k - 1);
    }
  }

  /** Placing `item` right after a prefix `c` replaces the start of what follows `c`. */
  lemma PlaceAfterPrefix(c: seq<real>, item: seq<real>, z: seq<real>)
    requires |item| <= |z|
    ensures Placed(c + z, item, |c|) == c + item + z[|item|..]
  {
    var b := c + z;
    assert b[..|c|] == c;
    assert b[|c| + |item|..] == z[|item|..];
  }

  /**
   * With tuples of equal length `n`, the first `i` passes leave the first `i` tuples
   * concatenated, followed by the zeros not yet written.
   */
  lemma {:induction false} FlattenedPrefix(items: seq<seq<real>>, n: nat, i: nat)
    requires Uniform(items, n) && i <= |items|
    ensures Flattened(items, n, i) == Some(Flatten(items[..i]) + Zeros(Stride(|items| - i, n)))
  {
    if i == 0 {
      assert items[..0] == [];
      assert Flatten(items[..0]) + Zeros(Stride(|items|, n)) == Zeros(Stride(|items|, n));
    } else {
      var L := |items|;
      FlattenedPrefix(items, n, i - 1);
      var c := Flatten(items[..i - 1]);
      FlattenPrefixLength(items, n, i - 1);
      var z := Zeros(Stride(L - (i - 1), n));
      assert Stride(L - (i - 1), n) == Stride(L - i, n) + n;
      PlaceAfterPrefix(c, items[i - 1], z);
      assert z[n..] == Zeros(Stride(L - i, n));
      FlattenRows(items, i - 1);
      assert Flattened(items, n, i) == Some(Placed(c + z, items[i - 1], Stride(i - 1, n)));
      assert Placed(c + z, items[i - 1], Stride(i - 1, n)) == (c + items[i - 1]) + z[n..];
    }
  }

  /** `linearize` on equal-length tuples returns them concatenated: tuple `a`'s entry `j` at `a * n + j`. */
  lemma {:induction false} FlattenUniform(items: seq<seq<real>>, n: nat)
    requires Uniform(items, n)
    ensures Flattened(items, n, |items|) == Some(Flatten(items))
    ensures |Flatten(items)| == Stride(|items|, n)
  {
    FlattenedPrefix(items, n, |items|);
    assert items[..|items|] == items;
    assert Zeros(Stride(0, n)) == [];
    assert Flatten(items) + [] == Flatten(items);
    FlattenPrefixLength(items, n, |items|);
  }

  // ---------------------------------------------------------------------------------------
  // The global mesh as a value
  // ---------------------------------------------------------------------------------------

  /** The vertex streams of the global mesh. */
  const STREAM_NAMES: set<string> := {"P", "N", "uv", "Cd", "size"}
  /** `_globalMeshMaxVertices` when the global mesh is first created. */
  const INITIAL_MAX_VERTICES := 1024

  /** Item size of each global-mesh stream: positions and normals 3, uvs 2, colors 4, sizes 1. */
  function StreamItemSize(name: string): nat
  {
    if name == "P" || name == "N" then 3 else if name == "uv" then 2 else if name == "Cd" then 4 else 1
  }

  /** A vertex buffer of the global mesh: its item size and what its GL buffer last received. */
  datatype MeshStream = MeshStream(itemSize: nat, contents: seq<real>)

  /** The global mesh: its vertex buffers by name and its "indices" index buffer (16-bit). */
  datatype GlobalMesh = GlobalMesh(streams: map<string, MeshStream>, indices: seq<int>)

  /** A global mesh sized for `maxVertices`: every buffer zero-filled at its capacity. */
  function FreshGlobalMesh(maxVertices: nat): (m: GlobalMesh)
    ensures m.streams.Keys == STREAM_NAMES
    ensures forall name :: name in m.streams ==>
      m.streams[name] == MeshStream(StreamItemSize(name), Zeros(maxVertices * StreamItemSize(name)))
    ensures |m.indices| == maxVertices * 3
  {
    GlobalMesh(map name | name in STREAM_NAMES :: MeshStream(StreamItemSize(name), Zeros(maxVertices * StreamItemSize(name))),
               seq(maxVertices * 3, _ => 0))
  }

  /** No buffer holds more than `maxVertices` items, and the buffers are the five streams. */
  predicate WithinCapacity(m: GlobalMesh, maxVertices: int)
  {
    && m.streams.Keys == STREAM_NAMES
    && forall name :: name in m.streams ==>
         m.streams[name].itemSize == StreamItemSize(name)
         && |m.streams[name].contents| <= maxVertices * m.streams[name].itemSize
  }

  /** The state of the stream loop in `toGlobalMesh`: the mesh, its capacity, and whether it threw. */
  datatype Streaming = Streaming(mesh: GlobalMesh, maxVertices: int, failed: bool)

  /**
   * One pass of the stream loop: a name the mesh lacks or falsy data is skipped; data that
   * fits is uploaded; data that does not fit resizes the mesh and then throws, because
   * `meshBuffer.data` is undefined (GLBuffer keeps no copy of its data).
   */
  function StreamStep(st: Streaming, name: string, data: Option<seq<real>>): (r: Streaming)
  {
    if st.failed || name !in st.mesh.streams || data.None? then st
    else if |data.value| > st.maxVertices * st.mesh.streams[name].itemSize then
      Streaming(FreshGlobalMesh(if st.maxVertices < 0 then 0 else st.maxVertices * 2), st.maxVertices * 2, true)
    else
      Streaming(st.mesh.(streams := st.mesh.streams[name := st.mesh.streams[name].(contents := data.value)]),
                st.maxVertices, false)
  }

  /** The loop state after the passes over the first `n` keys of `buffers`. */
  function Streamed(st: Streaming, buffers: OMap<string, Option<seq<real>>>, n: nat): Streaming
    requires buffers.Valid() && n <= |buffers.keys|
  {
    if n == 0 then st
    else StreamStep(Streamed(st, buffers, n - 1), buffers.keys[n - 1], buffers.values[buffers.keys[n - 1]])
  }

  /** Once a pass throws, no later pass changes anything. */
  lemma {:induction false} StreamFailurePersists(st: Streaming, buffers: OMap<string, Option<seq<real>>>, i: nat, n: nat)
    requires buffers.Valid() && i <= n <= |buffers.keys| && Streamed(st, buffers, i).failed
    ensures Streamed(st, buffers, n) == Streamed(st, buffers, i)
    decreases n
  {
    if n > i {
      StreamFailurePersists(st, buffers, i, n - 1);
    }
  }

  /** The stream loop never leaves a buffer holding more than the mesh's capacity, and capacity only grows. */
  lemma {:induction false} StreamedWithinCapacity(st: Streaming, buffers: OMap<string, Option<seq<real>>>, n: nat)
    requires buffers.Valid() && n <= |buffers.keys|
    requires st.maxVertices >= 0 && WithinCapacity(st.mesh, st.maxVertices)
    ensures WithinCapacity(Streamed(st, buffers, n).mesh, Streamed(st, buffers, n).maxVertices)
    ensures Streamed(st, buffers, n).maxVertices >= st.maxVertices
  {
    if n > 0 {
      StreamedWithinCapacity(st, buffers, n - 1);
      var prev := Streamed(st, buffers, n - 1);
      var r := Streamed(st, buffers, n);
      if !prev.failed && r.failed {
        assert r.mesh == FreshGlobalMesh(prev.maxVertices * 2);
      }
    }
  }

  /** The stream loop keeps a well-formed global mesh well formed. */
  lemma StreamedOk(st: Streaming, buffers: OMap<string, Option<seq<real>>>, n: nat)
    requires buffers.Valid() && n <= |buffers.keys| && GlobalMeshOk(Some(st.mesh), st.maxVertices)
    ensures GlobalMeshOk(Some(Streamed(st, buffers, n).mesh), Streamed(st, buffers, n).maxVertices)
  {
    StreamedWithinCapacity(st, buffers, n);
  }

  /**
   * A stream the loop does not upload to keeps its contents: one not named in `buffers`, or
   * named with falsy data, unless a resize threw.
   */
  lemma {:induction false} StreamedKeepsOthers(st: Streaming, buffers: OMap<string, Option<seq<real>>>, n: nat, name: string)
    requires buffers.Valid() && n <= |buffers.keys| && name in st.mesh.streams
    requires forall i :: 0 <= i < n && buffers.keys[i] == name ==> buffers.values[name].None?
    ensures !Streamed(st, buffers, n).failed ==>
      name in Streamed(st, buffers, n).mesh.streams
      && Streamed(st, buffers, n).mesh.streams[name] == st.mesh.streams[name]
  {
    if n > 0 {
      StreamedKeepsOthers(st, buffers, n - 1, name);
    }
  }

  /** The arguments of `setColor`: three or more components, or one array copied element-wise. */
  datatype ColorArgs = Components(values: seq<real>) | FromArray(color: seq<real>)

  /** The Float32Array `color` after `setColor` from `old`. */
  function ColorAfter(prev: seq<real>, args: ColorArgs): (c: seq<real>)
    requires |prev| == 4 && (args.Components? ==> |args.values| >= 3)
    ensures |c| == 4
  {
    match args
    case Components(v) => v[..3] + [if |v| == 4 then v[3] else prev[3]]
    case FromArray(a) => seq(4, i requires 0 <= i < 4 => if i < |a| then a[i] else prev[i])
  }

  /** `setColor` with three components leaves alpha alone; with four it sets all of them. */
  lemma {:induction false} ColorComponents(prev: seq<real>, v: seq<real>)
    requires |prev| == 4 && |v| >= 3
    ensures ColorAfter(prev, Components(v))[..3] == v[..3]
    ensures ColorAfter(prev, Components(v))[3] == if |v| == 4 then v[3] else prev[3]
    ensures |v| == 4 ==> ColorAfter(prev, Components(v)) == v
  {
    var c := ColorAfter(prev, Components(v));
    assert c == v[..3] + [c[3]];
    if |v| == 4 {
      assert v == v[..3] + [v[3]];
    }
  }

  /** A global mesh state is well formed at capacity `maxVertices`. */
  predicate GlobalMeshOk(m: Option<GlobalMesh>, maxVertices: int)
  {
    m.Some? ==> maxVertices >= INITIAL_MAX_VERTICES && WithinCapacity(m.value, maxVertices)
  }

  /** The loop state `toGlobalMesh` starts from: the existing global mesh, or a new one for 1024 vertices. */
  function StreamStart(m: Option<GlobalMesh>, maxVertices: int): Streaming
  {
    if m.None? then Streaming(FreshGlobalMesh(INITIAL_MAX_VERTICES), INITIAL_MAX_VERTICES, false)
    else Streaming(m.value, maxVertices, false)
  }

  /** `!(buffers.Cd)`: no color stream was given, or it was falsy. */
  function IgnoresColors(buffers: OMap<string, Option<seq<real>>>): bool
  {
    !("Cd" in buffers.values && buffers.values["Cd"].Some?)
  }

  class GLDraw {
    /** `stack`: the 32 model matrices in one Float32Array. */
    const stack: array<real>
    /** The slot `modelMatrix` views: its byte offset over 64. */
    var slot: int
    /** The slot `uniforms.u_model` views. */
    var uModelSlot: int
    /** `color` (a Vector4), also `uniforms.u_color`. */
    const color: array<real>
    var pointSize: real
    var lineWidth: real
    /** `uniforms.u_pointSize` and `uniforms.u_pointPerspective`. */
    var pointSizeUniform: real
    var pointPerspective: int
    /** `viewProjectionMatrix`, and the copies `pushCamera` saved. */
    const viewProjection: array<real>
    var cameraStack: seq<seq<real>>
    /** `settings.resetStackOnReset`. */
    var resetStackOnReset: bool
    /** The image cache `reset(true)` empties; undefined until then. */
    var images: Option<map<string, object>>
    /** `_globalMesh`, `_globalMeshMaxVertices`, `_globalMeshIgnoreColors`, `_globalMeshLastSize`. */
    var globalMesh: Option<GlobalMesh>
    var globalMeshMaxVertices: int
    var globalMeshIgnoreColors: Option<bool>
    var globalMeshLastSize: Option<real>

    /**
     * The buffers have their sizes and are distinct, the current slot is on the stack and
     * `u_model` views it, saved cameras are matrices, and the global mesh fits its capacity.
     */
    predicate Valid()
      reads this
    {
      && stack.Length == SLOTS * MATRIX_SIZE && color.Length == 4 && viewProjection.Length == MATRIX_SIZE
      && stack != color && stack != viewProjection && color != viewProjection
      && 0 <= slot < SLOTS && uModelSlot == slot
      && (forall m :: m in cameraStack ==> |m| == MATRIX_SIZE)
      && GlobalMeshOk(globalMesh, globalMeshMaxVertices)
    }

    /** `modelMatrix`: the current slot's matrix. */
    function ModelMatrix(): (m: seq<real>)
      reads this, stack
      requires Valid()
      ensures |m| == MATRIX_SIZE
    {
      SlotOf(stack[..], slot)
    }

    /**
     * `new GLDraw(gl)` as far as the state modelled here goes: identity in slot 0 of a zeroed
     * stack, color (0, 0, 0, 1), point size 2, line width 1, no saved cameras and no global mesh.
     * The view-projection matrix starts as `viewProjection0` (a new Matrix4).
     */
    constructor (viewProjection0: seq<real>)
      requires |viewProjection0| == MATRIX_SIZE
      ensures Valid()
      ensures fresh(stack) && fresh(color) && fresh(viewProjection)
      ensures slot == 0 && stack[..] == WriteSlot(Zeros(SLOTS * MATRIX_SIZE), 0, IdentityMatrix())
      ensures ModelMatrix() == IdentityMatrix()
      ensures color[..] == [0.0, 0.0, 0.0, 1.0] && pointSize == 2.0 && lineWidth == 1.0
      ensures pointSizeUniform == 2.0 && pointPerspective == 0
      ensures viewProjection[..] == viewProjection0 && cameraStack == []
      ensures resetStackOnReset && images.None?
      ensures globalMesh.None? && globalMeshIgnoreColors.None? && globalMeshLastSize.None?
    {
      var s := new real[SLOTS * MATRIX_SIZE](_ => 0.0);
      forall j | 0 <= j < MATRIX_SIZE {
        s[j] := IdentityMatrix()[j];
      }
      stack := s;
      slot := 0;
      uModelSlot := 0;
      color := new real[4][0.0, 0.0, 0.0, 1.0];
      pointSize := 2.0;
      lineWidth := 1.0;
      pointSizeUniform := 2.0;
      pointPerspective := 0;
      viewProjection := new real[MATRIX_SIZE](i requires 0 <= i < MATRIX_SIZE => viewProjection0[i]);
      cameraStack := [];
      resetStackOnReset := true;
      images := None;
      globalMesh := None;
      globalMeshMaxVertices := 0;
      globalMeshIgnoreColors := None;
      globalMeshLastSize := None;
      new;
      assert stack[..] == WriteSlot(Zeros(SLOTS * MATRIX_SIZE), 0, IdentityMatrix());
      SlotAfterWrite(Zeros(SLOTS * MATRIX_SIZE), 0, IdentityMatrix(), 0);
    }

    /** `setMatrix(m)`: the current matrix becomes `m`; no other slot changes. */
    method SetMatrix(m: seq<real>)
      requires Valid() && |m| == MATRIX_SIZE
      modifies stack
      ensures Valid()
      ensures stack[..] == WriteSlot(old(stack[..]), slot, m)
      ensures ModelMatrix() == m
    {
      var base := slot * MATRIX_SIZE;
      forall j | 0 <= j < MATRIX_SIZE {
        stack[base + j] := m[j];
      }
      assert stack[..] == WriteSlot(old(stack[..]), slot, m);
      SlotAfterWrite(old(stack[..]), slot, m, slot);
    }

    /** `identity()`: the current matrix becomes the identity. */
    method Identity()
      requires Valid()
      modifies stack
      ensures Valid()
      ensures stack[..] == WriteSlot(old(stack[..]), slot, IdentityMatrix())
      ensures ModelMatrix() == IdentityMatrix()
    {
      SetMatrix(IdentityMatrix());
    }

    /**
     * `push()`: throws "Matrix stack overflow" at the last slot, changing nothing. Otherwise
     * moves to the next slot, which receives a copy of the current matrix, and points
     * `u_model` at it.
     */
    method Push() returns (outcome: Outcome)
      requires Valid()
      modifies this`slot, this`uModelSlot, stack
      ensures Valid()
      ensures outcome.Threw? <==> old(slot) == SLOTS - 1
      ensures outcome.Threw? ==> outcome == Threw(OVERFLOW) && slot == old(slot) && stack[..] == old(stack[..])
      ensures outcome.Done? ==>
        slot == old(slot) + 1 && stack[..] == Pushed(old(stack[..]), old(slot))
        && ModelMatrix() == old(ModelMatrix())
    {
      if slot * MATRIX_SIZE * FLOAT_BYTES >= stack.Length * FLOAT_BYTES - MATRIX_SIZE * FLOAT_BYTES {
        return Threw(OVERFLOW);
      }
      var current := SlotOf(stack[..], slot);
      slot := slot + 1;
      uModelSlot := slot;
      SetMatrix(current);
      outcome := Done;
    }

    /**
     * `pop()`: throws "Matrix stack underflow" at slot 0. Otherwise moves back one slot and
     * points `u_model` at it; no matrix is written.
     */
    method Pop() returns (outcome: Outcome)
      requires Valid()
      modifies this`slot, this`uModelSlot
      ensures Valid()
      ensures outcome.Threw? <==> old(slot) == 0
      ensures outcome.Threw? ==> outcome == Threw(UNDERFLOW) && slot == old(slot)
      ensures outcome.Done? ==> slot == old(slot) - 1
    {
      if slot * MATRIX_SIZE * FLOAT_BYTES == 0 {
        return Threw(UNDERFLOW);
      }
      slot := slot - 1;
      uModelSlot := slot;
      outcome := Done;
    }

    /** `pushCamera()`: a copy of the view-projection matrix goes on top of the camera stack. */
    method PushCamera()
      requires Valid()
      modifies this`cameraStack
      ensures Valid()
      ensures cameraStack == old(cameraStack) + [viewProjection[..]]
    {
      cameraStack := cameraStack + [viewProjection[..]];
    }

    /**
     * `popCamera()`: throws on an empty camera stack. Otherwise the most recently pushed
     * matrix is taken off and becomes the view-projection matrix.
     */
    method PopCamera() returns (outcome: Outcome)
      requires Valid()
      modifies this`cameraStack, viewProjection
      ensures Valid()
      ensures outcome.Threw? <==> old(cameraStack) == []
      ensures outcome.Threw? ==>
        outcome == Threw(CAMERA_UNDERFLOW) && cameraStack == old(cameraStack) && viewProjection[..] == old(viewProjection[..])
      ensures outcome.Done? ==>
        viewProjection[..] == old(cameraStack)[|old(cameraStack)| - 1]
        && cameraStack == old(cameraStack)[..|old(cameraStack)| - 1]
    {
      if |cameraStack| == 0 {
        return Threw(CAMERA_UNDERFLOW);
      }
      var top := cameraStack[|cameraStack| - 1];
      assert top in cameraStack;
      cameraStack := cameraStack[..|cameraStack| - 1];
      forall j | 0 <= j < MATRIX_SIZE {
        viewProjection[j] := top[j];
      }
      outcome := Done;
    }

    /**
     * `setColor(...)`: with three or more arguments the first three are r, g, b and a fourth,
     * when there are exactly four, is alpha; otherwise the one array is copied element-wise,
     * writes past the fourth entry being ignored by the Float32Array.
     */
    method SetColor(args: ColorArgs)
      requires Valid() && (args.Components? ==> |args.values| >= 3)
      modifies color
      ensures Valid()
      ensures color[..] == ColorAfter(old(color[..]), args)
    {
      match args {
        case Components(v) =>
          color[0] := v[0];
          color[1] := v[1];
          color[2] := v[2];
          if |v| == 4 {
            color[3] := v[3];
          }
        case FromArray(a) =>
          var i := 0;
          while i < |a|
            invariant 0 <= i <= |a|
            invariant forall k :: 0 <= k < 4 ==> color[k] == if k < i then a[k] else old(color[k])
          {
            if i < color.Length {
              color[i] := a[i];
            }
            i := i + 1;
          }
      }
    }

    /** `setAlpha(alpha)`: only the fourth color entry changes. */
    method SetAlpha(alpha: real)
      requires Valid()
      modifies color
      ensures Valid()
      ensures color[..] == old(color[..])[3 := alpha]
    {
      color[3] := alpha;
    }

    /** `setPointSize(v, perspective)`: the size and its uniform become `v`; perspective is 1 or 0. */
    method SetPointSize(v: real, perspective: bool)
      requires Valid()
      modifies this`pointSize, this`pointSizeUniform, this`pointPerspective
      ensures Valid()
      ensures pointSize == v && pointSizeUniform == v
      ensures pointPerspective == if perspective then 1 else 0
    {
      pointSize := v;
      pointSizeUniform := v;
      pointPerspective := if perspective then 1 else 0;
    }

    /**
     * `reset(resetMemory)` as written: it tests `this.resetStackOnReset`, a property nothing
     * sets (the flag lives in `settings`), so the matrix stack is never rewound.
     */
    method ResetAsWritten(resetMemory: bool)
      requires Valid()
      modifies color, this`pointSize, this`lineWidth, this`images
      ensures Valid()
      ensures color[..] == [1.0, 1.0, 1.0, 1.0] && pointSize == 2.0 && lineWidth == 1.0
      ensures images == if resetMemory then Some(map[]) else old(images)
      ensures slot == old(slot) && ModelMatrix() == old(ModelMatrix())
    {
      ResetStyle(resetMemory);
    }

    /**
     * `reset(resetMemory)` as intended: the style reset, and with `settings.resetStackOnReset`
     * the model matrix goes back to slot 0, set to the identity, with `u_model` viewing it.
     */
    method Reset(resetMemory: bool)
      requires Valid()
      modifies color, this`pointSize, this`lineWidth, this`images, this`slot, this`uModelSlot, stack
      ensures Valid()
      ensures color[..] == [1.0, 1.0, 1.0, 1.0] && pointSize == 2.0 && lineWidth == 1.0
      ensures images == if resetMemory then Some(map[]) else old(images)
      ensures resetStackOnReset ==> slot == 0 && stack[..] == WriteSlot(old(stack[..]), 0, IdentityMatrix())
      ensures resetStackOnReset ==> ModelMatrix() == IdentityMatrix()
      ensures !resetStackOnReset ==> slot == old(slot) && stack[..] == old(stack[..])
    {
      ResetStyle(resetMemory);
      if resetStackOnReset {
        slot := 0;
        uModelSlot := 0;
        Identity();
      }
    }

    /** The part of `reset` both versions share: color, point size, line width and images. */
    method ResetStyle(resetMemory: bool)
      requires Valid()
      modifies color, this`pointSize, this`lineWidth, this`images
      ensures Valid()
      ensures color[..] == [1.0, 1.0, 1.0, 1.0] && pointSize == 2.0 && lineWidth == 1.0
      ensures images == if resetMemory then Some(map[]) else old(images)
    {
      color[0], color[1], color[2], color[3] := 1.0, 1.0, 1.0, 1.0;
      pointSize := 2.0;
      lineWidth := 1.0;
      if resetMemory {
        images := Some(map[]);
      }
    }

    /**
     * `linearize(array)`: an empty array gives a new empty array; a number array gives
     * itself when it is a Float32Array and a Float32 copy otherwise; tuples are copied at
     * stride `n`, the first tuple's length, into a zeroed Float32Array of `len * n` entries,
     * and a tuple that overruns it throws.
     */
    static method Linearize(input: LinearInput) returns (r: Linear)
      ensures input.Flat? ==>
        r == (if |input.values| == 0 then EmptyList else if input.isFloat32 then SameArray else Floats(input.values))
      ensures input.Nested? && |input.items| == 0 ==> r == EmptyList
      ensures input.Nested? && |input.items| > 0 ==>
        match Flattened(input.items, |input.items[0]|, |input.items|)
        case None => r == LinearThrew(RANGE_ERROR)
        case Some(v) => r == Floats(v)
    {
      match input {
        case Flat(isFloat32, values) =>
          if |values| == 0 {
            return EmptyList;
          }
          return if isFloat32 then SameArray else Floats(values);
        case Nested(items) =>
          if |items| == 0 {
            return EmptyList;
          }
          var flat := CopyTuples(items, |items[0]|);
          return if flat.None? then LinearThrew(RANGE_ERROR) else Floats(flat.value);
      }
    }

    /**
     * The copy loop of `linearize`: a zeroed Float32Array of `len * n` entries receives tuple
     * `i` at offset `i * n`, or none when a tuple overruns it.
     */
    static method CopyTuples(items: seq<seq<real>>, n: nat) returns (r: Option<seq<real>>)
      ensures r == Flattened(items, n, |items|)
    {
      var result := new real[Stride(|items|, n)](_ => 0.0);
      assert result[..] == Zeros(Stride(|items|, n));
      var i, off := 0, 0;
      while i < |items|
        invariant 0 <= i <= |items| && off == Stride(i, n)
        invariant Flattened(items, n, i) == Some(result[..])
      {
        var item := items[i];
        if off + |item| > result.Length {
          assert Flattened(items, n, i + 1).None?;
          FlattenedStaysFailed(items, n, i + 1, |items|);
          return None;
        }
        ghost var before := result[..];
        PlaceInto(result, item, off);
        assert Flattened(items, n, i + 1) == Some(Placed(before, item, off));
        i, off := i + 1, off + n;
      }
      return Some(result[..]);
    }

    /** `result.set(item, offset)`: the entries from `offset` on become `item`. */
    static method PlaceInto(result: array<real>, item: seq<real>, offset: nat)
      requires offset + |item| <= result.Length
      modifies result
      ensures result[..] == Placed(old(result[..]), item, offset)
    {
      forall k | 0 <= k < |item| {
        result[offset + k] := item[k];
      }
    }

    /** `linearize` on equal-length tuples returns a new Float32Array holding them end to end. */
    static lemma LinearizeUniform(items: seq<seq<real>>)
      requires |items| > 0 && Uniform(items, |items[0]|)
      ensures Flattened(items, |items[0]|, |items|) == Some(Flatten(items))
      ensures |Flatten(items)| == Stride(|items|, |items[0]|)
    {
      FlattenUniform(items, |items[0]|);
    }

    /**
     * `resizeGlobalMesh()`: throws without a global mesh. Otherwise the capacity doubles and
     * every buffer is reallocated, zeroed, at the new capacity.
     */
    method ResizeGlobalMesh() returns (outcome: Outcome)
      requires Valid()
      modifies this`globalMesh, this`globalMeshMaxVertices
      ensures Valid()
      ensures outcome.Threw? <==> old(globalMesh).None?
      ensures outcome.Threw? ==>
        outcome == Threw(NO_GLOBAL_MESH) && globalMesh == old(globalMesh) && globalMeshMaxVertices == old(globalMeshMaxVertices)
      ensures outcome.Done? ==>
        globalMeshMaxVertices == 2 * old(globalMeshMaxVertices) && globalMesh == Some(FreshGlobalMesh(globalMeshMaxVertices))
    {
      if globalMesh.None? {
        return Threw(NO_GLOBAL_MESH);
      }
      globalMeshMaxVertices := globalMeshMaxVertices * 2;
      globalMesh := Some(FreshGlobalMesh(globalMeshMaxVertices));
      outcome := Done;
    }

    /**
     * `toGlobalMesh(buffers, indices)`: creates the global mesh for 1024 vertices when there is
     * none, then streams each named buffer in key order (see `StreamStep`). After the loop it
     * records whether colors were absent and then the draw size: given `indices`, storing them
     * throws because GLBuffer has no `setData`; otherwise the size is the position count, and a
     * missing or falsy "P" throws.
     */
    method ToGlobalMesh(buffers: OMap<string, Option<seq<real>>>, indices: Option<seq<int>>) returns (outcome: Outcome)
      requires Valid() && buffers.Valid()
      modifies this`globalMesh, this`globalMeshMaxVertices, this`globalMeshIgnoreColors, this`globalMeshLastSize
      ensures Valid()
      ensures
        var end := Streamed(StreamStart(old(globalMesh), old(globalMeshMaxVertices)), buffers, |buffers.keys|);
        && globalMesh == Some(end.mesh) && globalMeshMaxVertices == end.maxVertices
        && (end.failed ==>
              outcome == Threw(TYPE_ERROR)
              && globalMeshIgnoreColors == old(globalMeshIgnoreColors) && globalMeshLastSize == old(globalMeshLastSize))
        && (!end.failed ==> globalMeshIgnoreColors == Some(IgnoresColors(buffers)))
        && (!end.failed && indices.Some? ==> outcome == Threw(TYPE_ERROR) && globalMeshLastSize == old(globalMeshLastSize))
        && (!end.failed && indices.None? ==>
              if "P" in buffers.values && buffers.values["P"].Some?
              then outcome == Done && globalMeshLastSize == Some(|buffers.values["P"].value| as real / 3.0)
              else outcome == Threw(TYPE_ERROR) && globalMeshLastSize == old(globalMeshLastSize))
    {
      ghost var start := StreamStart(globalMesh, globalMeshMaxVertices);
      if globalMesh.None? {
        globalMeshMaxVertices := INITIAL_MAX_VERTICES;
        globalMesh := Some(FreshGlobalMesh(INITIAL_MAX_VERTICES));
      }
      var failed := StreamBuffers(buffers, start);
      if failed {
        return Threw(TYPE_ERROR);
      }
      globalMeshIgnoreColors := Some(IgnoresColors(buffers));
      if indices.Some? {
        return Threw(TYPE_ERROR);
      }
      if "P" in buffers.values && buffers.values["P"].Some? {
        globalMeshLastSize := Some(|buffers.values["P"].value| as real / 3.0);
        return Done;
      }
      outcome := Threw(TYPE_ERROR);
    }

    /**
     * The stream loop of `toGlobalMesh` from `start`: each key of `buffers` in order gets one
     * pass (see `StreamStep`); a resize ends the loop with a throw.
     */
    method StreamBuffers(buffers: OMap<string, Option<seq<real>>>, ghost start: Streaming) returns (failed: bool)
      requires Valid() && buffers.Valid()
      requires globalMesh == Some(start.mesh) && globalMeshMaxVertices == start.maxVertices && !start.failed
      modifies this`globalMesh, this`globalMeshMaxVertices
      ensures Valid()
      ensures
        var end := Streamed(start, buffers, |buffers.keys|);
        failed == end.failed && globalMesh == Some(end.mesh) && globalMeshMaxVertices == end.maxVertices
    {
      var i := 0;
      failed := false;
      while i < |buffers.keys| && !failed
        invariant 0 <= i <= |buffers.keys| && Valid()
        invariant failed == Streamed(start, buffers, i).failed
        invariant globalMesh == Some(Streamed(start, buffers, i).mesh)
        invariant globalMeshMaxVertices == Streamed(start, buffers, i).maxVertices
      {
        failed := StreamNext(buffers, start, i);
        i := i + 1;
      }
      if failed {
        StreamFailurePersists(start, buffers, i, |buffers.keys|);
      }
    }

    /** Pass `i` of the stream loop, from where the passes before it left the mesh. */
    method StreamNext(buffers: OMap<string, Option<seq<real>>>, ghost start: Streaming, i: nat) returns (threw: bool)
      requires Valid() && buffers.Valid() && i < |buffers.keys| && GlobalMeshOk(Some(start.mesh), start.maxVertices)
      requires !Streamed(start, buffers, i).failed && globalMesh == Some(Streamed(start, buffers, i).mesh)
      requires globalMeshMaxVertices == Streamed(start, buffers, i).maxVertices
      modifies this`globalMesh, this`globalMeshMaxVertices
      ensures Valid()
      ensures threw == Streamed(start, buffers, i + 1).failed && globalMesh == Some(Streamed(start, buffers, i + 1).mesh)
      ensures globalMeshMaxVertices == Streamed(start, buffers, i + 1).maxVertices
    {
      StreamedOk(start, buffers, i + 1);
      var name := buffers.keys[i];
      threw := StreamOne(name, buffers.values[name], Streamed(start, buffers, i));
    }

    /** One pass of the stream loop over `name` (see `StreamStep`). */
    method StreamOne(name: string, data: Option<seq<real>>, ghost st: Streaming) returns (threw: bool)
      requires Valid() && globalMesh == Some(st.mesh) && globalMeshMaxVertices == st.maxVertices && !st.failed
      requires GlobalMeshOk(Some(StreamStep(st, name, data).mesh), StreamStep(st, name, data).maxVertices)
      modifies this`globalMesh, this`globalMeshMaxVertices
      ensures Valid()
      ensures threw == StreamStep(st, name, data).failed
      ensures globalMesh == Some(StreamStep(st, name, data).mesh)
      ensures globalMeshMaxVertices == StreamStep(st, name, data).maxVertices
    {
      if name in globalMesh.value.streams && data.Some? {
        var stream := globalMesh.value.streams[name];
        if |data.value| > globalMeshMaxVertices * stream.itemSize {
          var _ := ResizeGlobalMesh();
          return true;
        }
        globalMesh := Some(globalMesh.value.(streams := globalMesh.value.streams[name := stream.(contents := data.value)]));
      }
      return false;
    }
  }


  /** Once a tuple overruns, the copy loop's later passes stay failed. */
  lemma {:induction false} FlattenedStaysFailed(items: seq<seq<real>>, n: nat, i: nat, j: nat)
    requires i <= j <= |items| && Flattened(items, n, i).None?
    ensures Flattened(items, n, j).None?
    decreases j
  {
    if j > i {
      FlattenedStaysFailed(items, n, i, j - 1);
    }
  }
}
