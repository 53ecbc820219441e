/**
 * The rendering context (`GLContext`): its configuration decisions, the viewport cache and
 * the uniform-setter dispatch table. The context also stands for the underlying WebGL
 * context: every WebGL call the engine makes is appended to `log` as a `GLCall`, and every
 * object the driver creates is given the next opaque handle.
 */
module GLContexts {
  import opened Wrappers
  import opened GL
  import TypedArrays
  import Loki

  /** An opaque WebGL object (buffer, texture, program, framebuffer, ...). */
  type Handle = nat

  /** The uniform setters of a WebGL context. */
  datatype UniformSetter =
    | Uniform1f | Uniform1fv | Uniform1i | Uniform1iv
    | Uniform2fv | Uniform3fv | Uniform4fv | Uniform2iv | Uniform3iv | Uniform4iv
    | UniformMatrix2fv | UniformMatrix3fv | UniformMatrix4fv

  /** A JavaScript number that may have left the reals (a quotient by zero). */
  datatype Extended = Finite(x: real) | PlusInfinity | NotANumber

  /** The value handed to a uniform setter. */
  datatype UniformArg = Scalar(x: real) | Values(xs: seq<real>)

  /** The pixel source of a texture upload. */
  datatype PixelSource =
    | NoPixels
    | TypedPixels(data: TypedArrays.NumArray)
    | PlainPixels(values: seq<real>)
    | ElementPixels(element: nat)

  /** One call into WebGL. */
  datatype GLCall =
    // render state
    | Enable(cap: int)
    | Disable(cap: int)
    | StateCall(stateSetter: string, args: seq<Loki.JsValue>)
    | FrontFace(mode: int)
    | ViewportCall(vx: real, vy: real, vwidth: real, vheight: real)
    // buffers
    | BindBuffer(target: int, buffer: Option<Handle>)
    | BufferData(target: int, data: TypedArrays.NumArray, usage: int)
    | BufferSubData(target: int, byteOffset: int, size: int)
    | DeleteBuffer(buffer: Option<Handle>)
    // programs
    | ShaderSource(stage: int, source: string)
    | LinkProgram(program: Option<Handle>)
    | DeleteProgram(program: Option<Handle>)
    | UseProgram(program: Option<Handle>)
    | EnableVertexAttribArray(location: int)
    | DisableVertexAttribArray(location: int)
    | VertexAttribPointer(location: int, size: int, glType: int)
    | SetUniform(setter: UniformSetter, uniformLocation: Handle, transpose: Option<bool>, uniformValue: UniformArg)
    | DrawElements(mode: int, count: Extended, glType: int, elementOffset: real)
    | DrawArrays(mode: int, first: real, count: Extended)
    // textures and samplers
    | ActiveTexture(unit: int)
    | BindTexture(target: int, texture: Option<Handle>)
    | TexParameter(target: int, pname: int, value: int)
    | PixelStore(pname: int, flag: bool)
    | TexImage2D(target: int, level: int, internalFormat: int, width: real, height: real,
                 format: int, glType: int, pixels: PixelSource)
    | TexSubImage2D(target: int, level: int, format: int, glType: int, pixels: PixelSource)
    | GenerateMipmap(target: int)
    | DeleteTexture(texture: Option<Handle>)
    | SamplerParameter(sampler: Option<Handle>, pname: int, value: int)
    | BindSampler(unit: int, sampler: Option<Handle>)
    | DeleteSampler(sampler: Option<Handle>)
    // framebuffers and renderbuffers
    | BindFramebuffer(target: int, framebuffer: Option<Handle>)
    | FramebufferTexture2D(target: int, attachment: int, textarget: int, texture: Option<Handle>, level: int)
    | FramebufferRenderbuffer(target: int, attachment: int, renderbuffer: Option<Handle>)
    | DrawBuffers(buffers: seq<int>, viaExtension: bool)
    | CheckFramebufferStatus(target: int)
    | ClearColor(red: real, green: real, blue: real, alpha: real)
    | Clear(mask: int)
    | DeleteFramebuffer(framebuffer: Option<Handle>)
    | BindRenderbuffer(renderbuffer: Option<Handle>)
    | RenderbufferStorage(format: int, width: real, height: real)
    | RenderbufferStorageMultisample(samples: int, format: int, width: real, height: real)
    | DeleteRenderbuffer(renderbuffer: Option<Handle>)

  // ---------------------------------------------------------------- configuration decisions

  /** The options the application passes to the context constructor (absent ones are none). */
  datatype UserOptions = UserOptions(
    version: Option<int>,
    alpha: Option<bool>,
    depth: Option<bool>,
    stencil: Option<bool>,
    antialias: Option<bool>,
    premultipliedAlpha: Option<bool>,
    preserveDrawingBuffer: Option<bool>,
    xrCompatible: Option<bool>)

  /** The attributes requested from `canvas.getContext`. */
  datatype ContextAttributes = ContextAttributes(
    alpha: bool, depth: bool, stencil: bool, antialias: bool,
    premultipliedAlpha: bool, preserveDrawingBuffer: bool, xrCompatible: bool)

  const ALL_CONTEXT_TYPES: seq<string> := ["webgl2", "experimental-webgl2", "webgl", "experimental-webgl"]

  /**
   * The context types tried, most capable first: both WebGL 2 names for version 2, both
   * WebGL 1 names for version 1, all four when no version (or 0) is given; any other version
   * is refused (the constructor throws).
   */
  function ContextTypes(version: Option<int>): (r: Option<seq<string>>)
    ensures version == Some(2) ==> r == Some(["webgl2", "experimental-webgl2"])
    ensures version == Some(1) ==> r == Some(["webgl", "experimental-webgl"])
    ensures version.None? || version == Some(0) ==> r == Some(ALL_CONTEXT_TYPES)
    ensures r.None? <==> version.Some? && version.value !in {0, 1, 2}
  {
    if version == Some(2) then Some(["webgl2", "experimental-webgl2"])
    else if version == Some(1) then Some(["webgl", "experimental-webgl"])
    else if version.None? || version == Some(0) then Some(ALL_CONTEXT_TYPES)
    else None
  }

  /** The constructor first stores `alpha = false` into options that lack it. */
  function DefaultAlpha(o: UserOptions): (r: UserOptions)
    ensures r.alpha.Some? && (o.alpha.None? ==> r.alpha == Some(false))
    ensures r == o.(alpha := r.alpha)
  {
    if o.alpha.None? then o.(alpha := Some(false)) else o
  }

  function OrDefault(v: Option<bool>, d: bool): bool
  {
    if v.Some? then v.value else d
  }

  /** The attributes built from the (alpha-defaulted) options. */
  function Attributes(o: UserOptions): ContextAttributes
  {
    ContextAttributes(
      OrDefault(o.alpha, true), OrDefault(o.depth, true), OrDefault(o.stencil, true),
      OrDefault(o.antialias, true), OrDefault(o.premultipliedAlpha, true),
      OrDefault(o.preserveDrawingBuffer, false), o.xrCompatible == Some(true))
  }

  /**
   * The attributes the constructor requests: alpha is off unless asked for (the earlier
   * defaulting hides the `true` default), depth, stencil, antialias and premultiplied alpha
   * are on unless turned off, the drawing buffer is not preserved unless asked for, and
   * xrCompatible is on only when given as true.
   */
  lemma RequestedAttributes(o: UserOptions)
    ensures var a := Attributes(DefaultAlpha(o));
      (a.alpha <==> o.alpha == Some(true))
      && (a.depth <==> o.depth != Some(false))
      && (a.stencil <==> o.stencil != Some(false))
      && (a.antialias <==> o.antialias != Some(false))
      && (a.premultipliedAlpha <==> o.premultipliedAlpha != Some(false))
      && (a.preserveDrawingBuffer <==> o.preserveDrawingBuffer == Some(true))
      && (a.xrCompatible <==> o.xrCompatible == Some(true))
  {
  }

  /**
   * The constructor's loop over the context types: the index of the first type for which
   * `getContext` returns a context, or none.
   */
  method FirstContextType(types: seq<string>, working: set<string>) returns (chosen: Option<nat>)
    ensures chosen.Some? ==> chosen.value < |types| && types[chosen.value] in working
    ensures chosen.Some? ==> forall j :: 0 <= j < chosen.value ==> types[j] !in working
    ensures chosen.None? ==> forall j :: 0 <= j < |types| ==> types[j] !in working
  {
    var i := 0;
    while i < |types|
      invariant 0 <= i <= |types|
      invariant forall j :: 0 <= j < i ==> types[j] !in working
    {
      if types[i] in working {
        return Some(i);
      }
      i := i + 1;
    }
    return None;
  }

  /** The result of creating the underlying WebGL context. */
  datatype Creation = Created(contextType: string, attributes: ContextAttributes) | Failed(message: string)

  /**
   * Context creation: an unsupported version throws; otherwise the first context type for
   * which `getContext` returns a context wins; when none does, the message says whether plain "webgl" works
   * without the requested attributes.
   */
  method CreateContext(options: UserOptions, working: set<string>, plainWebglWorks: bool)
    returns (r: Creation)
    ensures ContextTypes(options.version).None? ==> r == Failed("Incorrect WebGL version, must be 1 or 2")
    ensures r.Created? ==>
      r.contextType in working
      && r.attributes == Attributes(DefaultAlpha(options))
      && exists i :: 0 <= i < |ContextTypes(options.version).value| && ContextTypes(options.version).value[i] == r.contextType
           && forall j :: 0 <= j < i ==> ContextTypes(options.version).value[j] !in working
    ensures r.Failed? && ContextTypes(options.version).Some? ==>
      (forall t :: t in ContextTypes(options.version).value ==> t !in working)
      && r.message == (if plainWebglWorks then "WebGL supported but not with the given parameters"
                       else "WebGL not supported")
  {
    var o := DefaultAlpha(options);
    var types := ContextTypes(o.version);
    if types.None? {
      return Failed("Incorrect WebGL version, must be 1 or 2");
    }
    var attributes := Attributes(o);
    var chosen := FirstContextType(types.value, working);
    if chosen.None? {
      if plainWebglWorks {
        return Failed("WebGL supported but not with the given parameters");
      }
      return Failed("WebGL not supported");
    }
    return Created(types.value[chosen.value], attributes);
  }

  /** The names queried in an `a || b || c` chain of `getExtension` calls. */
  function QueryChain(available: set<string>, names: seq<string>): (q: seq<string>)
    ensures |q| <= |names| && q == names[..|q|]
  {
    if names == [] then []
    else if names[0] in available then [names[0]]
    else [names[0]] + QueryChain(available, names[1..])
  }

  function AnyAvailable(available: set<string>, names: seq<string>): bool
  {
    exists i :: 0 <= i < |names| && names[i] in available
  }

  const FLOAT_LINEAR := "OES_texture_float_linear"
  const FLOAT_EXT := "OES_texture_float"
  const HALF_FLOAT_LINEAR := "OES_texture_half_float_linear"
  const HALF_FLOAT_EXT := "OES_texture_half_float"

  /** Every `getExtension` query the constructor makes, in order. */
  function ExtensionQueries(available: set<string>): seq<string>
  {
    EarlyQueries(available)
    + [FLOAT_LINEAR]
    + (if FLOAT_LINEAR in available then [FLOAT_EXT] else [])
    + ["EXT_color_buffer_float", "EXT_texture_shared_exponent", HALF_FLOAT_LINEAR]
    + (if HALF_FLOAT_LINEAR in available then [HALF_FLOAT_EXT] else [])
  }

  /** The queries made before the float-texture ones. */
  function EarlyQueries(available: set<string>): seq<string>
  {
    ["OES_standard_derivatives"]
    + QueryChain(available, ["WEBGL_depth_texture", "WEBKIT_WEBGL_depth_texture", "MOZ_WEBGL_depth_texture"])
    + ["OES_element_index_uint", "WEBGL_draw_buffers", "EXT_shader_texture_lod", "EXT_sRGB"]
    + QueryChain(available, ["EXT_texture_filter_anisotropic", "WEBKIT_EXT_texture_filter_anisotropic",
                             "MOZ_EXT_texture_filter_anisotropic"])
    + QueryChain(available, ["EXT_frag_depth", "WEBKIT_EXT_frag_depth", "MOZ_EXT_frag_depth"])
    + QueryChain(available, ["WEBGL_lose_context", "WEBKIT_WEBGL_lose_context", "MOZ_WEBGL_lose_context"])
    + ["ANGLE_instanced_arrays", "EXT_disjoint_timer_query"]
  }

  lemma {:induction false} QueryChainWithin(available: set<string>, names: seq<string>, x: string)
    requires x !in names
    ensures x !in QueryChain(available, names)
  {
  }

  /** No early query names a float-texture extension. */
  lemma EarlyQueriesAvoidFloat(available: set<string>, x: string)
    requires x == FLOAT_EXT || x == HALF_FLOAT_EXT
    ensures x !in EarlyQueries(available)
  {
    QueryChainWithin(available, ["WEBGL_depth_texture", "WEBKIT_WEBGL_depth_texture", "MOZ_WEBGL_depth_texture"], x);
    QueryChainWithin(available, ["EXT_texture_filter_anisotropic", "WEBKIT_EXT_texture_filter_anisotropic",
                                 "MOZ_EXT_texture_filter_anisotropic"], x);
    QueryChainWithin(available, ["EXT_frag_depth", "WEBKIT_EXT_frag_depth", "MOZ_EXT_frag_depth"], x);
    QueryChainWithin(available, ["WEBGL_lose_context", "WEBKIT_WEBGL_lose_context", "MOZ_WEBGL_lose_context"], x);
  }

  /** The float and half-float texture extensions are asked for only when their linear-filtering extension exists. */
  lemma FloatExtensionsNeedLinear(available: set<string>)
    ensures FLOAT_EXT in ExtensionQueries(available) <==> FLOAT_LINEAR in available
    ensures HALF_FLOAT_EXT in ExtensionQueries(available) <==> HALF_FLOAT_LINEAR in available
  {
    EarlyQueriesAvoidFloat(available, FLOAT_EXT);
    EarlyQueriesAvoidFloat(available, HALF_FLOAT_EXT);
  }

  /** The extensions the engine's decisions depend on. */
  datatype Extensions = Extensions(
    depthTexture: bool, drawBuffers: bool, anisotropic: bool, textureFloat: bool, textureHalfFloat: bool)

  /** Which extensions the constructor ends up holding, given what the driver offers. */
  function ExtensionsFound(available: set<string>): (e: Extensions)
    ensures e.textureFloat <==> FLOAT_LINEAR in available && FLOAT_EXT in available
    ensures e.textureHalfFloat <==> HALF_FLOAT_LINEAR in available && HALF_FLOAT_EXT in available
  {
    Extensions(
      AnyAvailable(available, ["WEBGL_depth_texture", "WEBKIT_WEBGL_depth_texture", "MOZ_WEBGL_depth_texture"]),
      "WEBGL_draw_buffers" in available,
      AnyAvailable(available, ["EXT_texture_filter_anisotropic", "WEBKIT_EXT_texture_filter_anisotropic",
                               "MOZ_EXT_texture_filter_anisotropic"]),
      FLOAT_LINEAR in available && FLOAT_EXT in available,
      HALF_FLOAT_LINEAR in available && HALF_FLOAT_EXT in available)
  }

  /**
   * `HIGH_PRECISION_FORMAT`: HALF_FLOAT_OES on WebGL 2; on WebGL 1 the best of half float,
   * float and unsigned byte that the extensions allow.
   */
  function HighPrecisionFormat(webglVersion: int, e: Extensions): (f: int)
    ensures webglVersion != 1 ==> f == HALF_FLOAT_OES
    ensures webglVersion == 1 && e.textureHalfFloat ==> f == HALF_FLOAT_OES
    ensures webglVersion == 1 && !e.textureHalfFloat && e.textureFloat ==> f == FLOAT
    ensures webglVersion == 1 && !e.textureHalfFloat && !e.textureFloat ==> f == UNSIGNED_BYTE
  {
    if webglVersion == 1 then
      (if e.textureHalfFloat then HALF_FLOAT_OES else if e.textureFloat then FLOAT else UNSIGNED_BYTE)
    else HALF_FLOAT_OES
  }

  /** TEXTURE_MAX_ANISOTROPY_EXT of the anisotropic-filtering extension. */
  const TEXTURE_MAX_ANISOTROPY_EXT := 0x84FE

  // ---------------------------------------------------------------- uniform setters

  /**
   * `getUniformFunction`: scalar or vector setters for FLOAT, INT and UNSIGNED_INT by size,
   * the vector and matrix setters by type, `uniform1i` for samplers, `uniform1f` otherwise.
   */
  function UniformFunction(glType: int, size: int): (f: UniformSetter)
    ensures glType == FLOAT ==> f == (if size == 1 then Uniform1f else Uniform1fv)
    ensures glType in {INT, UNSIGNED_INT} ==> f == (if size == 1 then Uniform1i else Uniform1iv)
    ensures glType in {SAMPLER_2D, SAMPLER_3D, SAMPLER_CUBE} ==> f == Uniform1i
    ensures glType == FLOAT_MAT4 ==> f == UniformMatrix4fv
    ensures glType !in {FLOAT, FLOAT_MAT2, FLOAT_MAT3, FLOAT_MAT4, FLOAT_VEC2, FLOAT_VEC3, FLOAT_VEC4,
                        UNSIGNED_INT, INT, INT_VEC2, INT_VEC3, INT_VEC4, SAMPLER_2D, SAMPLER_3D, SAMPLER_CUBE}
            ==> f == Uniform1f
  {
    if glType == FLOAT then (if size == 1 then Uniform1f else Uniform1fv)
    else if glType == FLOAT_MAT2 then UniformMatrix2fv
    else if glType == FLOAT_MAT3 then UniformMatrix3fv
    else if glType == FLOAT_MAT4 then UniformMatrix4fv
    else if glType == FLOAT_VEC2 then Uniform2fv
    else if glType == FLOAT_VEC3 then Uniform3fv
    else if glType == FLOAT_VEC4 then Uniform4fv
    else if glType == UNSIGNED_INT || glType == INT then (if size == 1 then Uniform1i else Uniform1iv)
    else if glType == INT_VEC2 then Uniform2iv
    else if glType == INT_VEC3 then Uniform3iv
    else if glType == INT_VEC4 then Uniform4iv
    else if glType == SAMPLER_2D || glType == SAMPLER_3D || glType == SAMPLER_CUBE then Uniform1i
    else Uniform1f
  }

  predicate IsMatrixSetter(f: UniformSetter)
  {
    f == UniformMatrix2fv || f == UniformMatrix3fv || f == UniformMatrix4fv
  }

  /** Exactly the three matrix types get a matrix setter. */
  lemma MatrixSetterIffMatrixType(glType: int, size: int)
    ensures IsMatrixSetter(UniformFunction(glType, size)) <==> glType in {FLOAT_MAT2, FLOAT_MAT3, FLOAT_MAT4}
  {
  }

  // ---------------------------------------------------------------- the context object

  /** A rendering context: the configuration it settled on, the viewport cache and the call log. */
  class GLContext {
    const id: nat
    const webglVersion: int
    const extensions: Extensions
    const highPrecisionFormat: int
    const anisotropyParameter: int
    const maxAnisotropy: real
    const maxTextureUnits: int
    /**
     * The WebGL drawing buffer's height, read through a getter (gl_context.js line 130). A new
     * drawing buffer is the size of its canvas, so the model starts it at the canvas height.
     */
    var drawingBufferHeight: real
    /** `viewportData`, the cached viewport (a Float32Array of four). */
    const viewportData: array<real>
    /** Every WebGL call made through this context, in order. */
    var log: seq<GLCall>
    /** The handle the driver gives to the next object it creates. */
    var nextHandle: Handle

    ghost predicate Valid()
      reads this
    {
      viewportData.Length == 4
    }

    /**
     * The state the constructor leaves once the driver has produced a context of the given
     * version offering the given extensions; its last act is `reset()`, so the only calls
     * issued are the five of `reset`.
     */
    constructor (id: nat, webglVersion: int, available: set<string>, maxTextureUnits: int,
                 driverMaxAnisotropy: real, canvasWidth: real, canvasHeight: real)
      ensures Valid() && fresh(viewportData)
      ensures this.id == id && this.webglVersion == webglVersion && this.maxTextureUnits == maxTextureUnits
      ensures extensions == ExtensionsFound(available)
      ensures highPrecisionFormat == HighPrecisionFormat(webglVersion, extensions)
      ensures anisotropyParameter == (if extensions.anisotropic then TEXTURE_MAX_ANISOTROPY_EXT else -1)
      ensures maxAnisotropy == (if extensions.anisotropic then driverMaxAnisotropy else 1.0)
      ensures viewportData[..] == [0.0, 0.0, canvasWidth, canvasHeight]
      ensures drawingBufferHeight == canvasHeight
      ensures log == [ViewportCall(0.0, 0.0, canvasWidth, canvasHeight),
                      Disable(BLEND), Disable(CULL_FACE), Disable(DEPTH_TEST), FrontFace(0x0901)]
      ensures nextHandle == 1
    {
      this.id := id;
      this.webglVersion := webglVersion;
      var e := ExtensionsFound(available);
      extensions := e;
      highPrecisionFormat := HighPrecisionFormat(webglVersion, e);
      anisotropyParameter := if e.anisotropic then TEXTURE_MAX_ANISOTROPY_EXT else -1;
      maxAnisotropy := if e.anisotropic then driverMaxAnisotropy else 1.0;
      this.maxTextureUnits := maxTextureUnits;
      // A new context's drawing buffer takes the canvas size.
      drawingBufferHeight := canvasHeight;
      viewportData := new real[4] [0.0, 0.0, canvasWidth, canvasHeight];
      log := [];
      nextHandle := 1;
      new;
      Reset(canvasWidth, canvasHeight);
    }

    /** Appends one call to the log. */
    method Call(c: GLCall)
      modifies this`log
      ensures log == old(log) + [c]
    {
      log := log + [c];
    }

    /** A `create*` call of the driver: a handle never given out before. */
    method NewHandle() returns (h: Handle)
      modifies this`nextHandle
      ensures h == old(nextHandle) && nextHandle == h + 1
    {
      h := nextHandle;
      nextHandle := nextHandle + 1;
    }

    /** `viewport(a, b, c, d)`: caches the int32-truncated values, then forwards the call. */
    method Viewport(a: real, b: real, c: real, d: real)
      requires Valid()
      modifies viewportData, this`log
      ensures viewportData[..] == [TypedArrays.ToInt32(a) as real, TypedArrays.ToInt32(b) as real,
                                   TypedArrays.ToInt32(c) as real, TypedArrays.ToInt32(d) as real]
      ensures log == old(log) + [ViewportCall(a, b, c, d)]
    {
      viewportData[0] := TypedArrays.ToInt32(a) as real;
      viewportData[1] := TypedArrays.ToInt32(b) as real;
      viewportData[2] := TypedArrays.ToInt32(c) as real;
      viewportData[3] := TypedArrays.ToInt32(d) as real;
      Call(ViewportCall(a, b, c, d));
    }

    /** `getViewport(v)`: fills the given storage with the cached values and returns it. */
    method GetViewportInto(v: array<real>) returns (r: array<real>)
      requires Valid() && v.Length >= 4 && v != viewportData
      modifies v
      ensures r == v && v[..4] == viewportData[..] && v[4..] == old(v[4..])
    {
      v[0] := viewportData[0];
      v[1] := viewportData[1];
      v[2] := viewportData[2];
      v[3] := viewportData[3];
      return v;
    }

    /** `getViewport()`: a fresh copy of the cached values. */
    method GetViewport() returns (r: array<real>)
      requires Valid()
      ensures fresh(r) && r[..] == viewportData[..]
    {
      r := new real[4] [viewportData[0], viewportData[1], viewportData[2], viewportData[3]];
    }

    /**
     * `setViewport(v, flipY)`: caches `v`, with y measured from the top of the drawing
     * buffer when flipY is set, and forwards the cached y.
     */
    method SetViewport(v: seq<real>, flipY: bool)
      requires Valid() && |v| == 4
      modifies viewportData, this`log
      ensures viewportData[..] == [v[0], if flipY then drawingBufferHeight - v[1] - v[3] else v[1], v[2], v[3]]
      ensures log == old(log) + [ViewportCall(v[0], viewportData[1], v[2], v[3])]
    {
      viewportData[0] := v[0];
      viewportData[1] := v[1];
      viewportData[2] := v[2];
      viewportData[3] := v[3];
      if flipY {
        viewportData[1] := drawingBufferHeight - v[1] - v[3];
      }
      Call(ViewportCall(v[0], viewportData[1], v[2], v[3]));
    }

    /** `reset()`: full-canvas viewport (not cached), blending, culling and depth test off, CCW winding. */
    method Reset(canvasWidth: real, canvasHeight: real)
      modifies this`log
      ensures log == old(log) + [ViewportCall(0.0, 0.0, canvasWidth, canvasHeight),
                                 Disable(BLEND), Disable(CULL_FACE), Disable(DEPTH_TEST), FrontFace(0x0901)]
    {
      Call(ViewportCall(0.0, 0.0, canvasWidth, canvasHeight));
      Call(Disable(BLEND));
      Call(Disable(CULL_FACE));
      Call(Disable(DEPTH_TEST));
      Call(FrontFace(0x0901));
    }
  }
}
