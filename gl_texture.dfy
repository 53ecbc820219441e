/**
 * Textures (`GLTexture`): the internal-format decision, the mipmap bookkeeping, allocation of
 * 2D and cube textures, upload from a DOM element, destruction, binding (with or without a
 * sampler) and the per-context table of the textures bound to each texture unit.
 */
module GLTextures {
  import opened Wrappers
  import opened GL
  import opened TypedArrays
  import opened GLContexts
  import opened GLSamplers

  // ---------------------------------------------------------------- mipmap levels

  function Pow2(k: nat): (p: nat)
    ensures p >= 1
  {
    if k == 0 then 1 else 2 * Pow2(k - 1)
  }

  /** floor(log2(n)) of a positive integer. */
  function Log2Floor(n: nat): nat
    requires n >= 1
  {
    if n == 1 then 0 else 1 + Log2Floor(n / 2)
  }

  /** `Log2Floor(n)` is the exponent of the largest power of two not above `n`. */
  lemma {:induction false} Log2FloorBounds(n: nat)
    requires n >= 1
    ensures Pow2(Log2Floor(n)) <= n < Pow2(Log2Floor(n) + 1)
  {
    if n > 1 {
      Log2FloorBounds(n / 2);
    }
  }

  /** A JavaScript number produced by `1 + Math.floor(Math.log2(m))`. */
  datatype MipLevels = Levels(n: int) | MinusInfinity | LevelsNaN

  /**
   * `numMipmapLevels` after `generateMipmap`: one level per halving of the larger side down
   * to 1; `log2(0)` is minus infinity and the log of a negative size is NaN.
   */
  function MipLevelCount(width: int, height: int): (r: MipLevels)
    ensures var m := if width >= height then width else height;
      (m >= 1 ==> r.Levels? && r.n >= 1 && Pow2(r.n - 1) <= m < Pow2(r.n)) &&
      (m == 0 ==> r == MinusInfinity) &&
      (m < 0 ==> r == LevelsNaN)
  {
    var m := if width >= height then width else height;
    if m >= 1 then
      Log2FloorBounds(m);
      Levels(1 + Log2Floor(m))
    else if m == 0 then MinusInfinity
    else LevelsNaN
  }

  // ---------------------------------------------------------------- internal format

  /**
   * What `_updateInternalFormat` decides for a format and element type: the internal format,
   * the (possibly renamed) element type, whether the minification filter is forced to
   * NEAREST, and the message it throws, if any. When it throws, the internal format has
   * already been reset to the format.
   */
  datatype FormatDecision = FormatDecision(internalFormat: int, glType: int, nearest: bool, error: Option<string>)

  function HalfFloatFormat(format: int): int
  {
    if format == RGBA then RGBA16F else RGB16F
  }

  function FloatFormat(format: int): int
  {
    if format == RGBA then RGBA32F else RGB32F
  }

  function DecideInternalFormat(format: int, glType: int, webgl2: bool): FormatDecision
  {
    if format == DEPTH_COMPONENT then
      if webgl2 then
        if glType == UNSIGNED_SHORT then FormatDecision(DEPTH_COMPONENT16, glType, true, None)
        else if glType == UNSIGNED_INT then FormatDecision(DEPTH_COMPONENT24, glType, true, None)
        else if glType == FLOAT then FormatDecision(DEPTH_COMPONENT32F, glType, true, None)
        else FormatDecision(format, glType, true, Some("Unsupported type for a depth texture"))
      else if glType == FLOAT then
        FormatDecision(format, glType, true, Some("WebGL 1.0 does not support float depth textures"))
      else FormatDecision(format, glType, true, None)
    else if format == RGBA || format == RGB then
      if webgl2 then
        if glType == FLOAT then FormatDecision(FloatFormat(format), glType, false, None)
        else if glType == HALF_FLOAT then FormatDecision(HalfFloatFormat(format), glType, false, None)
        else if glType == HALF_FLOAT_OES then FormatDecision(HalfFloatFormat(format), HALF_FLOAT, false, None)
        else FormatDecision(format, glType, false, None)
      else FormatDecision(format, if glType == HALF_FLOAT then HALF_FLOAT_OES else glType, false, None)
    else FormatDecision(format, glType, false, None)
  }

  /** The outcome of an operation that throws the given message, if any. */
  function ErrorOutcome(error: Option<string>): (o: Outcome)
    ensures o.Done? <==> error.None?
  {
    if error.Some? then Threw(error.value) else Done
  }

  /**
   * Depth textures always force NEAREST filtering. On WebGL 2 they succeed exactly for
   * UNSIGNED_SHORT, UNSIGNED_INT and FLOAT, with the 16-, 24- and 32F-bit depth formats;
   * on WebGL 1 they fail exactly for FLOAT and keep DEPTH_COMPONENT as internal format.
   */
  lemma DepthDecision(glType: int, webgl2: bool)
    ensures var d := DecideInternalFormat(DEPTH_COMPONENT, glType, webgl2);
      d.nearest && d.glType == glType &&
      (webgl2 ==> (d.error.None? <==> glType in {UNSIGNED_SHORT, UNSIGNED_INT, FLOAT})) &&
      (webgl2 && glType == UNSIGNED_SHORT ==> d.internalFormat == DEPTH_COMPONENT16) &&
      (webgl2 && glType == UNSIGNED_INT ==> d.internalFormat == DEPTH_COMPONENT24) &&
      (webgl2 && glType == FLOAT ==> d.internalFormat == DEPTH_COMPONENT32F) &&
      (!webgl2 ==> (d.error.None? <==> glType != FLOAT) && d.internalFormat == DEPTH_COMPONENT)
  {
  }

  /**
   * Colour formats never throw and never touch the filter. On WebGL 2 float and half-float
   * data get the 32F and 16F formats, with HALF_FLOAT_OES renamed HALF_FLOAT; on WebGL 1 the
   * internal format is the format and HALF_FLOAT is renamed HALF_FLOAT_OES.
   */
  lemma ColorDecision(format: int, glType: int, webgl2: bool)
    requires format == RGBA || format == RGB
    ensures var d := DecideInternalFormat(format, glType, webgl2);
      d.error.None? && !d.nearest &&
      (webgl2 && glType == FLOAT ==> d.internalFormat == FloatFormat(format) && d.glType == FLOAT) &&
      (webgl2 && (glType == HALF_FLOAT || glType == HALF_FLOAT_OES) ==>
        d.internalFormat == HalfFloatFormat(format) && d.glType == HALF_FLOAT) &&
      (webgl2 && glType !in {FLOAT, HALF_FLOAT, HALF_FLOAT_OES} ==> d.internalFormat == format && d.glType == glType) &&
      (!webgl2 ==> d.internalFormat == format && d.glType == (if glType == HALF_FLOAT then HALF_FLOAT_OES else glType))
  {
  }

  /** Any other format is its own internal format, with the type untouched. */
  lemma OtherFormatDecision(format: int, glType: int, webgl2: bool)
    requires format !in {DEPTH_COMPONENT, RGBA, RGB}
    ensures DecideInternalFormat(format, glType, webgl2) == FormatDecision(format, glType, false, None)
  {
  }

  /** Deciding again on the decided type changes nothing: `_updateInternalFormat` is idempotent. */
  lemma DecisionIdempotent(format: int, glType: int, webgl2: bool)
    requires DecideInternalFormat(format, glType, webgl2).error.None?
    ensures var d := DecideInternalFormat(format, glType, webgl2);
      DecideInternalFormat(format, d.glType, webgl2) == d
  {
  }

  // ---------------------------------------------------------------- texture data

  /** A flat pixel source: a typed array, or a plain array of numbers. */
  datatype Pixels = TypedTex(typed: NumArray) | PlainTex(values: seq<real>)

  /** The `data` option: one flat source, or one source per cube face. */
  datatype TexData = Flat(pixels: Pixels) | Faces(faces: seq<Pixels>)

  /**
   * `_toTypedArray(data, type)`: a typed array is passed through; a plain array becomes a
   * Float32Array for FLOAT, a Uint16Array for the half-float types and a Uint8Array otherwise.
   */
  function ToTypedArray(p: Pixels, glType: Option<int>): (r: PixelSource)
    ensures r.TypedPixels?
    ensures p.TypedTex? ==> r.data == p.typed
    ensures p.PlainTex? ==> |r.data.values| == |p.values|
    ensures p.PlainTex? && glType == Some(FLOAT) ==> r.data.kind == Float32
    ensures p.PlainTex? && (glType == Some(HALF_FLOAT_OES) || glType == Some(HALF_FLOAT)) ==> r.data.kind == Uint16
    ensures p.PlainTex? && glType !in {Some(FLOAT), Some(HALF_FLOAT_OES), Some(HALF_FLOAT)} ==> r.data.kind == Uint8
  {
    match p
    case TypedTex(a) => TypedPixels(a)
    case PlainTex(xs) =>
      if glType == Some(FLOAT) then TypedPixels(Convert(Float32, xs))
      else if glType == Some(HALF_FLOAT_OES) || glType == Some(HALF_FLOAT) then TypedPixels(Convert(Uint16, xs))
      else TypedPixels(Convert(Uint8, xs))
  }

  /** A `data` option fit for a 2D texture: none, or one flat source. */
  predicate FlatOrNone(data: Option<TexData>)
  {
    data.None? || data.value.Flat?
  }

  /** The pixels a 2D `create` uploads. The engine converts without a type, so plain arrays become bytes. */
  function Pixels2D(data: Option<TexData>): (r: PixelSource)
    requires FlatOrNone(data)
    ensures data.None? ==> r == NoPixels
    ensures data.Some? && data.value.pixels.PlainTex? ==> r.TypedPixels? && r.data.kind == Uint8
  {
    if data.None? then NoPixels else ToTypedArray(data.value.pixels, None)
  }

  /** The pixels of the six cube faces, or the TypeError of reading `data[0]` of an empty array. */
  datatype CubeData = CubeFaces(faces: seq<PixelSource>) | CubeTypeError

  function CubeFacesOf(data: Option<TexData>): (r: CubeData)
    ensures r.CubeFaces? ==> |r.faces| == 6
  {
    match data
    case None => CubeFaces(seq(6, i => NoPixels))
    case Some(Flat(TypedTex(a))) => CubeFaces(seq(6, i => TypedPixels(a)))
    case Some(Flat(PlainTex(xs))) =>
      if |xs| == 0 then CubeTypeError
      else
        var t := ToTypedArray(PlainTex(xs), None);
        CubeFaces(seq(6, i => t))
    case Some(Faces(fs)) =>
      if |fs| == 0 then CubeTypeError
      else CubeFaces(seq(6, i requires 0 <= i < 6 => if i < |fs| then ToTypedArray(fs[i], None) else NoPixels))
  }

  /** A single typed array, or a non-empty flat number array, is replicated to all six faces. */
  lemma CubeReplicates(p: Pixels)
    requires p.TypedTex? || |p.values| > 0
    ensures var r := CubeFacesOf(Some(Flat(p)));
      r.CubeFaces? && forall i :: 0 <= i < 6 ==> r.faces[i] == ToTypedArray(p, None)
  {
  }

  /** A list of face sources gives face i its i-th entry (none past the list's end). */
  lemma CubeFacesInOrder(fs: seq<Pixels>)
    requires |fs| > 0
    ensures var r := CubeFacesOf(Some(Faces(fs)));
      r.CubeFaces? &&
      forall i :: 0 <= i < 6 ==> r.faces[i] == (if i < |fs| then ToTypedArray(fs[i], None) else NoPixels)
  {
  }

  /** The faces in upload order: +X, -X, +Y, -Y, +Z, -Z. */
  const CUBE_FACE_TARGETS: seq<int> := [TEXTURE_CUBE_MAP_POSITIVE_X, TEXTURE_CUBE_MAP_NEGATIVE_X,
                                        TEXTURE_CUBE_MAP_POSITIVE_Y, TEXTURE_CUBE_MAP_NEGATIVE_Y,
                                        TEXTURE_CUBE_MAP_POSITIVE_Z, TEXTURE_CUBE_MAP_NEGATIVE_Z]

  /** The six `texImage2D` calls of a cube `create`. */
  function CubeUploads(level: int, internalFormat: int, width: int, height: int, format: int, glType: int,
                       faces: seq<PixelSource>): (r: seq<GLCall>)
    requires |faces| == 6
    ensures |r| == 6
    ensures forall i :: 0 <= i < 6 ==>
      r[i] == TexImage2D(CUBE_FACE_TARGETS[i], level, internalFormat, width as real, height as real, format, glType, faces[i])
  {
    seq(6, i requires 0 <= i < 6 =>
      TexImage2D(CUBE_FACE_TARGETS[i], level, internalFormat, width as real, height as real, format, glType, faces[i]))
  }

  // ---------------------------------------------------------------- call sequences

  /**
   * `_applyTextureParameters()`: filters and wraps, the anisotropy unless both filters are
   * NEAREST, and the flip-Y unpack flag.
   */
  function ParameterCalls(target: int, minFilter: int, magFilter: int, wrapS: int, wrapT: int,
                          anisotropy: real, anisotropyParameter: int, flipY: bool): seq<GLCall>
  {
    [TexParameter(target, TEXTURE_MIN_FILTER, minFilter),
     TexParameter(target, TEXTURE_MAG_FILTER, magFilter),
     TexParameter(target, TEXTURE_WRAP_S, wrapS),
     TexParameter(target, TEXTURE_WRAP_T, wrapT)] +
    (if minFilter != NEAREST || magFilter != NEAREST
     then [TexParameter(target, anisotropyParameter, ToInt32(anisotropy))] else []) +
    [PixelStore(UNPACK_FLIP_Y_WEBGL, flipY)]
  }

  /** Unbinding the other target of the unit, then binding the texture to its own. */
  function TargetBindCalls(target: int, handle: Option<Handle>): seq<GLCall>
  {
    [BindTexture(if target == TEXTURE_2D then TEXTURE_CUBE_MAP else TEXTURE_2D, None), BindTexture(target, handle)]
  }

  /** What a texture contributes to a sampler `bind`: its binding, and its mipmap when the sampler needs one it lacks. */
  function TextureSide(v: TexView, mipmap: bool): seq<GLCall>
  {
    TargetBindCalls(v.target, v.handle) +
    (if mipmap && !v.hasMipmap then [TexParameter(v.target, TEXTURE_MIN_FILTER, LINEAR), GenerateMipmap(v.target)]
     else [])
  }

  /** The texImage2D of an element upload when reallocating, its texSubImage2D otherwise. */
  function ElementUpload(e: Element, level: int, realloc: bool): GLCall
  {
    if realloc
    then TexImage2D(TEXTURE_2D, level, RGBA, e.width as real, e.height as real, RGBA, UNSIGNED_BYTE, ElementPixels(e.id))
    else TexSubImage2D(TEXTURE_2D, level, RGBA, UNSIGNED_BYTE, ElementPixels(e.id))
  }

  /** `configure` reallocates for a video, or when size, format or type differ from the texture's. */
  predicate Reallocates(e: Element, width: int, height: int, format: int, glType: int)
  {
    e.kind.Video? || width != e.width || height != e.height || format != RGBA || glType != UNSIGNED_BYTE
  }

  /** The texture as a sampler `bind` sees it. */
  datatype TexView = TexView(target: int, handle: Option<Handle>, hasMipmap: bool)

  // ---------------------------------------------------------------- options

  /** The kinds of DOM element `configure` accepts, and anything else. */
  datatype ElementKind = Canvas | Video | Image | Bitmap | ImagePixels | OtherObject

  /** A DOM pixel source; for a video, width and height are its videoWidth and videoHeight. */
  datatype Element = Element(kind: ElementKind, width: nat, height: nat, id: nat)

  /** The options of `create`; absent ones, like zeros, are falsy. */
  datatype CreateOptions = CreateOptions(
    format: Option<int>, glType: Option<int>, target: Option<int>, level: Option<int>,
    data: Option<TexData>, internalFormat: Option<int>, generateMipmap: bool)

  /** The texture options of the constructor and `init`. */
  datatype TextureOptions = TextureOptions(
    minFilter: Option<int>, magFilter: Option<int>, filter: Option<int>,
    wrapS: Option<int>, wrapT: Option<int>, wrap: Option<int>,
    format: Option<int>, internalFormat: Option<int>, glType: Option<int>,
    anisotropy: Option<real>, flipY: bool, target: Option<int>,
    source: Option<Element>, width: Option<int>, w: Option<int>, height: Option<int>, h: Option<int>,
    data: Option<TexData>, level: Option<int>, generateMipmap: bool)

  /** `a || d` over a numeric option. */
  function OrElse(a: Option<int>, d: int): int
  {
    Either(a, None, d)
  }

  /** Whether `init` throws: no internal format is given and the format/type pair is refused. */
  predicate InitFails(options: TextureOptions, webgl2: bool)
  {
    OrElse(options.internalFormat, 0) == 0 &&
    DecideInternalFormat(OrElse(options.format, RGBA), OrElse(options.glType, UNSIGNED_BYTE), webgl2).error.Some?
  }

  /** The anisotropy `init` settles on: 1 when absent or 0, the maximum when negative, else capped by the maximum. */
  function AnisotropyOf(a: Option<real>, maxAnisotropy: real): (r: real)
    ensures a.None? || a.value == 0.0 ==> r == 1.0
    ensures a.Some? && a.value < 0.0 ==> r == maxAnisotropy
    ensures a.Some? && a.value > 0.0 ==> r <= a.value && r <= maxAnisotropy && (r == a.value || r == maxAnisotropy)
  {
    if a.None? || a.value == 0.0 then 1.0
    else if a.value < 0.0 then maxAnisotropy
    else if a.value <= maxAnisotropy then a.value else maxAnisotropy
  }

  // ---------------------------------------------------------------- the texture

  class GLTexture {
    const gl: GLContext
    /** The WebGL texture, absent until created and after destruction. */
    var handle: Option<Handle>
    var isVideo: bool
    var isLoaded: bool
    var width: int
    var height: int
    var hasMipmap: bool
    var numLevels: MipLevels
    var minFilter: int
    var magFilter: int
    var wrapS: int
    var wrapT: int
    var format: int
    var internalFormat: int
    var glType: int
    var anisotropy: real
    var flipY: bool
    var target: int

    /** `hasMipmap` false and `numMipmapLevels` 0, as `_clearMipmap` leaves them. */
    predicate MipmapCleared()
      reads this
    {
      !hasMipmap && numLevels == Levels(0)
    }

    function View(): TexView
      reads this
    {
      TexView(target, handle, hasMipmap)
    }

    /** The parameters `_applyTextureParameters` writes, from the current fields. */
    function Parameters(): seq<GLCall>
      reads this, gl
    {
      ParameterCalls(target, minFilter, magFilter, wrapS, wrapT, anisotropy, gl.anisotropyParameter, flipY)
    }

    /**
     * The fields `new GLTexture(gl)` sets before `init`: no WebGL object, not a video, size
     * 0 x 0 and no mipmap. The remaining fields are given by `Init`.
     */
    constructor (gl: GLContext)
      ensures this.gl == gl && handle.None? && !isVideo && !isLoaded
      ensures width == 0 && height == 0 && MipmapCleared()
    {
      this.gl := gl;
      handle := None;
      isVideo := false;
      isLoaded := false;
      width := 0;
      height := 0;
      hasMipmap := false;
      numLevels := Levels(0);
      minFilter := LINEAR;
      magFilter := LINEAR;
      wrapS := CLAMP_TO_EDGE;
      wrapT := CLAMP_TO_EDGE;
      format := RGBA;
      internalFormat := RGBA;
      glType := UNSIGNED_BYTE;
      anisotropy := 1.0;
      flipY := false;
      target := TEXTURE_2D;
    }

    /**
     * `init(options)`: each parameter from its option, else the shared option, else the
     * default (LINEAR filters, CLAMP_TO_EDGE wraps, RGBA, UNSIGNED_BYTE, TEXTURE_2D); the
     * internal format is the given one, or decided from format and type (which may throw).
     */
    method Init(options: TextureOptions) returns (outcome: Outcome)
      modifies this`minFilter, this`magFilter, this`wrapS, this`wrapT, this`format, this`internalFormat,
               this`glType, this`anisotropy, this`flipY, this`target
      ensures magFilter == Either(options.magFilter, options.filter, LINEAR)
      ensures wrapS == Either(options.wrapS, options.wrap, CLAMP_TO_EDGE)
      ensures wrapT == Either(options.wrapT, options.wrap, CLAMP_TO_EDGE)
      ensures format == OrElse(options.format, RGBA)
      ensures anisotropy == AnisotropyOf(options.anisotropy, gl.maxAnisotropy)
      ensures flipY == options.flipY && target == OrElse(options.target, TEXTURE_2D)
      ensures OrElse(options.internalFormat, 0) != 0 ==>
        internalFormat == options.internalFormat.value && glType == OrElse(options.glType, UNSIGNED_BYTE) &&
        minFilter == Either(options.minFilter, options.filter, LINEAR) && outcome == Done
      ensures OrElse(options.internalFormat, 0) == 0 ==>
        var d := DecideInternalFormat(format, OrElse(options.glType, UNSIGNED_BYTE), gl.webglVersion == 2);
        internalFormat == d.internalFormat && glType == d.glType &&
        minFilter == (if d.nearest then NEAREST else Either(options.minFilter, options.filter, LINEAR)) &&
        outcome == ErrorOutcome(d.error)
    {
      minFilter := Either(options.minFilter, options.filter, LINEAR);
      magFilter := Either(options.magFilter, options.filter, LINEAR);
      wrapS := Either(options.wrapS, options.wrap, CLAMP_TO_EDGE);
      wrapT := Either(options.wrapT, options.wrap, CLAMP_TO_EDGE);
      format := OrElse(options.format, RGBA);
      internalFormat := OrElse(options.internalFormat, 0);
      glType := OrElse(options.glType, UNSIGNED_BYTE);
      anisotropy := AnisotropyOf(options.anisotropy, gl.maxAnisotropy);
      flipY := options.flipY;
      target := OrElse(options.target, TEXTURE_2D);
      outcome := Done;
      if internalFormat == 0 {
        outcome := UpdateInternalFormat();
      }
    }

    /**
     * `_updateInternalFormat()`: the internal format, the element type and (for depth
     * textures) the minification filter become the decision's, and its error is thrown.
     */
    method UpdateInternalFormat() returns (outcome: Outcome)
      modifies this`internalFormat, this`glType, this`minFilter
      ensures var d := DecideInternalFormat(format, old(glType), gl.webglVersion == 2);
        internalFormat == d.internalFormat && glType == d.glType &&
        minFilter == (if d.nearest then NEAREST else old(minFilter)) &&
        outcome == ErrorOutcome(d.error)
    {
      internalFormat := format;
      outcome := Done;
      var webgl2 := gl.webglVersion == 2;
      if format == DEPTH_COMPONENT {
        minFilter := NEAREST;
        if webgl2 {
          if glType == UNSIGNED_SHORT {
            internalFormat := DEPTH_COMPONENT16;
          } else if glType == UNSIGNED_INT {
            internalFormat := DEPTH_COMPONENT24;
          } else if glType == FLOAT {
            internalFormat := DEPTH_COMPONENT32F;
          } else {
            outcome := Threw("Unsupported type for a depth texture");
          }
        } else if glType == FLOAT {
          outcome := Threw("WebGL 1.0 does not support float depth textures");
        }
      } else if format == RGBA || format == RGB {
        if webgl2 {
          if glType == FLOAT {
            internalFormat := if format == RGBA then RGBA32F else RGB32F;
          } else if glType == HALF_FLOAT {
            internalFormat := if format == RGBA then RGBA16F else RGB16F;
          } else if glType == HALF_FLOAT_OES {
            glType := HALF_FLOAT;
            internalFormat := if format == RGBA then RGBA16F else RGB16F;
          }
        } else if glType == HALF_FLOAT {
          glType := HALF_FLOAT_OES;
        }
      }
    }

    /** `_applyTextureParameters()` with the texture as its own sampler. */
    method ApplyTextureParameters()
      modifies gl`log
      ensures gl.log == old(gl.log) + Parameters()
    {
      gl.Call(TexParameter(target, TEXTURE_MIN_FILTER, minFilter));
      gl.Call(TexParameter(target, TEXTURE_MAG_FILTER, magFilter));
      gl.Call(TexParameter(target, TEXTURE_WRAP_S, wrapS));
      gl.Call(TexParameter(target, TEXTURE_WRAP_T, wrapT));
      if minFilter != NEAREST || magFilter != NEAREST {
        gl.Call(TexParameter(target, gl.anisotropyParameter, ToInt32(anisotropy)));
      }
      gl.Call(PixelStore(UNPACK_FLIP_Y_WEBGL, flipY));
    }

    /** `_clearMipmap()`. */
    method ClearMipmap()
      modifies this`hasMipmap, this`numLevels
      ensures MipmapCleared()
    {
      hasMipmap := false;
      numLevels := Levels(0);
    }

    /** `generateMipmap()`: records the mipmap and its level count, and builds it. */
    method GenerateMipmap()
      modifies this`hasMipmap, this`numLevels, gl`log
      ensures hasMipmap && numLevels == MipLevelCount(width, height)
      ensures gl.log == old(gl.log) + [GLCall.GenerateMipmap(target)]
    {
      hasMipmap := true;
      numLevels := MipLevelCount(width, height);
      gl.Call(GLCall.GenerateMipmap(target));
    }

    /** The WebGL object the texture has, or a new one. */
    method EnsureHandle()
      modifies this`handle, gl`nextHandle
      ensures old(handle).Some? ==> handle == old(handle) && gl.nextHandle == old(gl.nextHandle)
      ensures old(handle).None? ==> handle == Some(old(gl.nextHandle)) && gl.nextHandle == old(gl.nextHandle) + 1
    {
      if handle.None? {
        var h := gl.NewHandle();
        handle := Some(h);
      }
    }

    /**
     * `resize(w, h)`: without a WebGL object nothing; a 2D texture is reallocated, empty, at
     * the new size and loses its mipmap; a cube texture is left as it is.
     */
    method Resize(w: int, h: int)
      modifies this`hasMipmap, this`numLevels, this`width, this`height, gl`log
      ensures handle.None? || target != TEXTURE_2D ==>
        gl.log == old(gl.log) && width == old(width) && height == old(height) &&
        hasMipmap == old(hasMipmap) && numLevels == old(numLevels)
      ensures handle.Some? && target == TEXTURE_2D ==>
        MipmapCleared() && width == w && height == h &&
        gl.log == old(gl.log) + [BindTexture(TEXTURE_2D, handle),
                                 TexImage2D(TEXTURE_2D, 0, internalFormat, w as real, h as real, format, glType, NoPixels)]
    {
      if handle.None? {
        return;
      }
      if target == TEXTURE_2D {
        ClearMipmap();
        gl.Call(BindTexture(TEXTURE_2D, handle));
        gl.Call(TexImage2D(TEXTURE_2D, 0, internalFormat, w as real, h as real, format, glType, NoPixels));
        width := w;
        height := h;
      }
    }

    /** `destroy()`: deletes the WebGL object and forgets the mipmap; nothing without a WebGL object. */
    method Destroy()
      modifies this`handle, this`hasMipmap, this`numLevels, gl`log
      ensures handle.None?
      ensures old(handle).None? ==> gl.log == old(gl.log) && hasMipmap == old(hasMipmap) && numLevels == old(numLevels)
      ensures old(handle).Some? ==> gl.log == old(gl.log) + [DeleteTexture(old(handle))] && MipmapCleared()
    {
      if handle.None? {
        return;
      }
      gl.Call(DeleteTexture(handle));
      handle := None;
      ClearMipmap();
    }

    /**
     * `create(w, h, options)`: selects the last texture unit and creates the WebGL object if
     * needed; a 2D or cube texture then gets its parameters, size, format and type, the
     * internal-format decision (which may throw) and its uploads. Any other target gets
     * nothing more.
     */
    method Create(w: int, h: int, options: CreateOptions) returns (outcome: Outcome)
      requires OrElse(options.target, TEXTURE_2D) == TEXTURE_2D ==> FlatOrNone(options.data)
      modifies this`handle, this`target, this`width, this`height, this`format, this`glType,
               this`internalFormat, this`minFilter, this`hasMipmap, this`numLevels, gl`log, gl`nextHandle
      ensures old(handle).Some? ==> handle == old(handle)
      ensures old(handle).None? ==> handle == Some(old(gl.nextHandle))
      ensures var t := OrElse(options.target, TEXTURE_2D);
        t != TEXTURE_2D && t != TEXTURE_CUBE_MAP ==>
          outcome == Done && gl.log == old(gl.log) + [ActiveTexture(TEXTURE0 + gl.maxTextureUnits - 1)] &&
          target == old(target) && width == old(width) && height == old(height)
      ensures var t := OrElse(options.target, TEXTURE_2D);
        (t == TEXTURE_2D || t == TEXTURE_CUBE_MAP) && !(t == TEXTURE_CUBE_MAP && CubeFacesOf(options.data).CubeTypeError?) ==>
          var d := DecideInternalFormat(OrElse(options.format, RGBA), OrElse(options.glType, UNSIGNED_BYTE), gl.webglVersion == 2);
          target == t && width == w && height == h && format == OrElse(options.format, RGBA) &&
          glType == d.glType && internalFormat == d.internalFormat &&
          outcome == ErrorOutcome(d.error) &&
          (hasMipmap <==> d.error.None? && options.generateMipmap)
      ensures OrElse(options.target, TEXTURE_2D) == TEXTURE_CUBE_MAP && CubeFacesOf(options.data).CubeTypeError? ==>
        outcome.Threw? && gl.log == old(gl.log) + [ActiveTexture(TEXTURE0 + gl.maxTextureUnits - 1)]
    {
      var fmt := OrElse(options.format, RGBA);
      var typ := OrElse(options.glType, UNSIGNED_BYTE);
      var tgt := OrElse(options.target, TEXTURE_2D);
      var level := OrElse(options.level, 0);
      gl.Call(ActiveTexture(TEXTURE0 + gl.maxTextureUnits - 1));
      EnsureHandle();
      if tgt == TEXTURE_2D {
        outcome := Create2D(w, h, fmt, typ, level, options.data, options.internalFormat, options.generateMipmap);
      } else if tgt == TEXTURE_CUBE_MAP {
        outcome := CreateCube(w, h, fmt, typ, level, options.data, options.internalFormat, options.generateMipmap);
      } else {
        outcome := Done;
      }
    }

    /** Binds the texture to `tgt` and writes its parameters, forgetting any mipmap. */
    method PrepareTarget(tgt: int)
      modifies this`hasMipmap, this`numLevels, gl`log
      ensures MipmapCleared()
      ensures gl.log == old(gl.log) + [BindTexture(tgt, handle)] + Parameters()
    {
      gl.Call(BindTexture(tgt, handle));
      ClearMipmap();
      ApplyTextureParameters();
    }

    /** The end of an allocation: the optional mipmap, then unbinding the target. */
    method FinishCreate(generateMipmap: bool)
      modifies this`hasMipmap, this`numLevels, gl`log
      ensures generateMipmap ==> hasMipmap
      ensures !generateMipmap ==> hasMipmap == old(hasMipmap) && numLevels == old(numLevels)
      ensures gl.log == old(gl.log) + (if generateMipmap then [GLCall.GenerateMipmap(target)] else []) + [BindTexture(target, None)]
    {
      if generateMipmap {
        GenerateMipmap();
      }
      gl.Call(BindTexture(target, None));
    }

    /** Binding, parameters and the internal-format decision shared by both branches of `create`. */
    method PrepareAndDecide() returns (outcome: Outcome)
      modifies this`hasMipmap, this`numLevels, this`internalFormat, this`glType, this`minFilter, gl`log
      ensures var d := DecideInternalFormat(format, old(glType), gl.webglVersion == 2);
        internalFormat == d.internalFormat && glType == d.glType &&
        minFilter == (if d.nearest then NEAREST else old(minFilter)) &&
        outcome == ErrorOutcome(d.error)
      ensures MipmapCleared()
      ensures gl.log == old(gl.log) + [BindTexture(target, handle)] + old(Parameters())
    {
      PrepareTarget(target);
      outcome := UpdateInternalFormat();
    }

    /** The 2D branch of `create`. */
    method Create2D(w: int, h: int, fmt: int, typ: int, level: int, data: Option<TexData>,
                    givenInternalFormat: Option<int>, generateMipmap: bool) returns (outcome: Outcome)
      requires FlatOrNone(data)
      modifies this`target, this`width, this`height, this`format, this`glType,
               this`internalFormat, this`minFilter, this`hasMipmap, this`numLevels, gl`log
      ensures var d := DecideInternalFormat(fmt, typ, gl.webglVersion == 2);
        target == TEXTURE_2D && width == w && height == h && format == fmt &&
        glType == d.glType && internalFormat == d.internalFormat &&
        minFilter == (if d.nearest then NEAREST else old(minFilter)) &&
        outcome == ErrorOutcome(d.error) &&
        (hasMipmap <==> d.error.None? && generateMipmap)
      ensures var d := DecideInternalFormat(fmt, typ, gl.webglVersion == 2);
        var prepared := old(gl.log) + [BindTexture(TEXTURE_2D, handle)] +
          ParameterCalls(TEXTURE_2D, old(minFilter), old(magFilter), old(wrapS), old(wrapT), old(anisotropy),
                         gl.anisotropyParameter, old(flipY));
        (d.error.Some? ==> gl.log == prepared) &&
        (d.error.None? ==>
          gl.log == prepared +
          [TexImage2D(TEXTURE_2D, level, OrElse(givenInternalFormat, d.internalFormat), w as real, h as real, fmt, typ,
                      Pixels2D(data))] +
          (if generateMipmap then [GLCall.GenerateMipmap(TEXTURE_2D)] else []) + [BindTexture(TEXTURE_2D, None)])
    {
      target := TEXTURE_2D;
      width := w;
      height := h;
      format := fmt;
      glType := typ;
      outcome := PrepareAndDecide();
      if outcome.Done? {
        gl.Call(TexImage2D(TEXTURE_2D, level, OrElse(givenInternalFormat, internalFormat),
                           w as real, h as real, fmt, typ, Pixels2D(data)));
        FinishCreate(generateMipmap);
      }
    }

    /** The six `texImage2D` calls of a cube allocation, one face per target. */
    method UploadCubeFaces(level: int, ifmt: int, w: int, h: int, fmt: int, typ: int, faces: seq<PixelSource>)
      requires |faces| == 6
      modifies gl`log
      ensures gl.log == old(gl.log) + CubeUploads(level, ifmt, w, h, fmt, typ, faces)
    {
      var uploads := CubeUploads(level, ifmt, w, h, fmt, typ, faces);
      var i := 0;
      while i < 6
        invariant 0 <= i <= 6
        invariant gl.log == old(gl.log) + uploads[..i]
        modifies gl`log
      {
        gl.Call(TexImage2D(CUBE_FACE_TARGETS[i], level, ifmt, w as real, h as real, fmt, typ, faces[i]));
        assert uploads[..i + 1] == uploads[..i] + [uploads[i]];
        i := i + 1;
      }
      assert uploads[..6] == uploads;
    }

    /** The cube branch of `create`: six face uploads in +X, -X, +Y, -Y, +Z, -Z order. */
    method CreateCube(w: int, h: int, fmt: int, typ: int, level: int, data: Option<TexData>,
                      givenInternalFormat: Option<int>, generateMipmap: bool) returns (outcome: Outcome)
      modifies this`target, this`width, this`height, this`format, this`glType,
               this`internalFormat, this`minFilter, this`hasMipmap, this`numLevels, gl`log
      ensures target == TEXTURE_CUBE_MAP && width == w && height == h && format == fmt
      ensures CubeFacesOf(data).CubeTypeError? ==> outcome.Threw? && gl.log == old(gl.log)
      ensures CubeFacesOf(data).CubeFaces? ==>
        var d := DecideInternalFormat(fmt, typ, gl.webglVersion == 2);
        glType == d.glType && internalFormat == d.internalFormat &&
        minFilter == (if d.nearest then NEAREST else old(minFilter)) &&
        outcome == ErrorOutcome(d.error) &&
        (hasMipmap <==> d.error.None? && generateMipmap)
      ensures CubeFacesOf(data).CubeFaces? ==>
        var d := DecideInternalFormat(fmt, typ, gl.webglVersion == 2);
        var prepared := old(gl.log) + [BindTexture(TEXTURE_CUBE_MAP, handle)] +
          ParameterCalls(TEXTURE_CUBE_MAP, old(minFilter), old(magFilter), old(wrapS), old(wrapT), old(anisotropy),
                         gl.anisotropyParameter, old(flipY));
        (d.error.Some? ==> gl.log == prepared) &&
        (d.error.None? ==>
          gl.log == prepared +
          CubeUploads(level, OrElse(givenInternalFormat, d.internalFormat), w, h, fmt, typ, CubeFacesOf(data).faces) +
          (if generateMipmap then [GLCall.GenerateMipmap(TEXTURE_CUBE_MAP)] else []) + [BindTexture(TEXTURE_CUBE_MAP, None)])
    {
      target := TEXTURE_CUBE_MAP;
      width := w;
      height := h;
      glType := typ;
      format := fmt;
      var faces := CubeFacesOf(data);
      if faces.CubeTypeError? {
        outcome := Threw("Cannot read properties of undefined (reading 'constructor')");
        return;
      }
      outcome := PrepareAndDecide();
      if outcome.Threw? {
        return;
      }
      UploadCubeFaces(level, OrElse(givenInternalFormat, internalFormat), w, h, fmt, typ, faces.faces);
      FinishCreate(generateMipmap);
    }

    /** The element upload: a reallocating `texImage2D` when needed, else `texSubImage2D`. */
    method StoreElement(e: Element, level: int)
      modifies this`width, this`height, this`glType, this`format, gl`log
      ensures width == e.width && height == e.height && format == RGBA && glType == UNSIGNED_BYTE
      ensures gl.log == old(gl.log) + [ElementUpload(e, level, Reallocates(e, old(width), old(height), old(format), old(glType)))]
    {
      if e.kind.Video? || width != e.width || height != e.height || format != RGBA || glType != UNSIGNED_BYTE {
        width := e.width;
        height := e.height;
        glType := UNSIGNED_BYTE;
        format := RGBA;
        gl.Call(TexImage2D(TEXTURE_2D, level, RGBA, e.width as real, e.height as real, RGBA, UNSIGNED_BYTE, ElementPixels(e.id)));
      } else {
        gl.Call(TexSubImage2D(TEXTURE_2D, level, RGBA, UNSIGNED_BYTE, ElementPixels(e.id)));
      }
    }

    /** Uploads an element source to the bound TEXTURE_2D target (the part of `configure` after the handle). */
    method UploadElement(e: Element, level: int, generateMipmap: bool)
      modifies this`hasMipmap, this`numLevels, this`width, this`height, this`glType, this`format, gl`log
      ensures width == e.width && height == e.height && format == RGBA && glType == UNSIGNED_BYTE
      ensures hasMipmap <==> generateMipmap
      ensures gl.log == old(gl.log) + [BindTexture(TEXTURE_2D, handle)] + Parameters() +
        [ElementUpload(e, level, Reallocates(e, old(width), old(height), old(format), old(glType)))] +
        (if generateMipmap then [GLCall.GenerateMipmap(target)] else []) + [BindTexture(TEXTURE_2D, None)]
    {
      PrepareTarget(TEXTURE_2D);
      StoreElement(e, level);
      if generateMipmap {
        GenerateMipmap();
      }
      gl.Call(BindTexture(TEXTURE_2D, None));
    }

    /**
     * `configure(element, options)` for a DOM element source: false for no source or a
     * zero-sized one (and no answer for an unsupported object). Otherwise the texture is
     * marked a video (whatever the element is), bound to TEXTURE_2D on the last unit,
     * reallocated when the source is a video or size, format or type differ (and updated in
     * place otherwise), optionally mipmapped, and unbound.
     */
    method ConfigureElement(source: Option<Element>, options: ConfigureOptions) returns (ok: bool)
      modifies this`flipY, this`isVideo, this`handle, this`hasMipmap, this`numLevels, this`width, this`height,
               this`glType, this`format, this`isLoaded, gl`log, gl`nextHandle
      ensures source.None? ==> gl.log == old(gl.log) && flipY == old(flipY) && handle == old(handle)
      ensures source.Some? && !ok ==> gl.log == old(gl.log) && flipY && handle == old(handle) && isVideo == old(isVideo)
      ensures ok <==> source.Some? && !source.value.kind.OtherObject? && source.value.width != 0 && source.value.height != 0
      ensures ok ==>
        isVideo && isLoaded && flipY && handle.Some? && (old(handle).Some? ==> handle == old(handle)) &&
        width == source.value.width && height == source.value.height && format == RGBA && glType == UNSIGNED_BYTE &&
        (hasMipmap <==> options.generateMipmap)
      ensures ok ==>
        gl.log == old(gl.log) + [ActiveTexture(TEXTURE0 + gl.maxTextureUnits - 1)] + [BindTexture(TEXTURE_2D, handle)] +
          Parameters() +
          [ElementUpload(source.value, OrElse(options.level, 0),
                         Reallocates(source.value, old(width), old(height), old(format), old(glType)))] +
          (if options.generateMipmap then [GLCall.GenerateMipmap(target)] else []) +
          [BindTexture(TEXTURE_2D, None)] + [ActiveTexture(TEXTURE0)]
    {
      var level := OrElse(options.level, 0);
      if source.None? {
        return false;
      }
      flipY := true;
      var e := source.value;
      if e.kind.OtherObject? || e.width == 0 || e.height == 0 {
        return false;
      }
      isVideo := true;
      gl.Call(ActiveTexture(TEXTURE0 + gl.maxTextureUnits - 1));
      EnsureHandle();
      UploadElement(e, level, options.generateMipmap);
      gl.Call(ActiveTexture(TEXTURE0));
      isLoaded := true;
      ok := true;
    }

    /**
     * The constructor's work after the fields' defaults: `init(options)`, then `configure` when
     * a source is given, or else `create` when both a width and a height are (`width || w`,
     * `height || h`), with the texture's own format, type, internal format and target.
     */
    method Setup(options: TextureOptions) returns (outcome: Outcome)
      requires OrElse(options.target, TEXTURE_2D) == TEXTURE_2D ==> FlatOrNone(options.data)
      modifies this, gl`log, gl`nextHandle
      ensures InitFails(options, gl.webglVersion == 2) ==> outcome.Threw? && gl.log == old(gl.log) && handle == old(handle)
      ensures options.source.Some? ==> (outcome.Done? <==> !InitFails(options, gl.webglVersion == 2))
      ensures options.source.None? && (Either(options.width, options.w, 0) == 0 || Either(options.height, options.h, 0) == 0) ==>
        gl.log == old(gl.log) && handle == old(handle) && (outcome.Done? <==> !InitFails(options, gl.webglVersion == 2)) &&
        width == old(width) && height == old(height) && target == OrElse(options.target, TEXTURE_2D)
      ensures (options.source.None? && Either(options.width, options.w, 0) != 0 && Either(options.height, options.h, 0) != 0 &&
               !InitFails(options, gl.webglVersion == 2)) ==>
        handle.Some? && (old(handle).Some? ==> handle == old(handle)) &&
        (OrElse(options.target, TEXTURE_2D) == TEXTURE_2D ==>
          target == TEXTURE_2D && width == Either(options.width, options.w, 0) && height == Either(options.height, options.h, 0) &&
          (OrElse(options.format, RGBA) != DEPTH_COMPONENT ==> outcome.Done?))
    {
      outcome := Init(options);
      if outcome.Threw? {
        return;
      }
      var w := Either(options.width, options.w, 0);
      var h := Either(options.height, options.h, 0);
      if options.source.Some? {
        var _ := ConfigureElement(options.source, ConfigureOptions(options.level, options.generateMipmap));
      } else if w != 0 && h != 0 {
        outcome := Create(w, h, CreateOptions(Some(format), Some(glType), Some(target), options.level, options.data,
                                              Some(internalFormat), options.generateMipmap));
      }
    }

    /** Selects texture unit `u`, clears the other target there and binds this texture. */
    method ActivateAndBind(u: int)
      modifies gl`log
      ensures gl.log == old(gl.log) + [ActiveTexture(TEXTURE0 + u)] + TargetBindCalls(target, handle)
    {
      gl.Call(ActiveTexture(TEXTURE0 + u));
      if target == TEXTURE_2D {
        gl.Call(BindTexture(TEXTURE_CUBE_MAP, None));
      } else {
        gl.Call(BindTexture(TEXTURE_2D, None));
      }
      gl.Call(BindTexture(target, handle));
    }

    /**
     * `bind(unit, sampler)`: records the texture in the bound-texture table under the unit as
     * given, then selects the unit (0 when falsy, clamped to the last unit), binds the
     * texture, and binds the sampler to that unit (without a texture, so the sampler selects
     * the unit again and touches no texture), or clears the unit's sampler. WebGL 1 has no
     * `bindSampler`, so there clearing the sampler is a TypeError, after the texture is bound.
     */
    method Bind(unit: Option<int>, sampler: GLSampler?, reg: BoundTextures) returns (outcome: Outcome)
      requires sampler != null ==> sampler.gl == gl
      modifies reg, gl`log, (if sampler == null then {} else {sampler})`dirty
      ensures sampler != null ==> sampler.dirty == (old(sampler.dirty) && sampler.handle.None?)
      ensures outcome.Threw? <==> sampler == null && gl.webglVersion == 1
      ensures var u0 := OrElse(unit, 0);
        var u := if u0 >= gl.maxTextureUnits then gl.maxTextureUnits - 1 else u0;
        reg.tables == SetBound(old(reg.tables), gl.id, unit, this) &&
        (sampler == null && gl.webglVersion == 1 ==>
          gl.log == old(gl.log) + [ActiveTexture(TEXTURE0 + u)] + TargetBindCalls(target, handle)) &&
        (sampler == null && gl.webglVersion != 1 ==>
          gl.log == old(gl.log) + [ActiveTexture(TEXTURE0 + u)] + TargetBindCalls(target, handle) + [BindSampler(u, None)]) &&
        (sampler != null ==>
          gl.log == old(gl.log) + [ActiveTexture(TEXTURE0 + u)] + TargetBindCalls(target, handle) +
            [ActiveTexture(TEXTURE0 + u)] + old(sampler.PendingCalls()) + [BindSampler(u, sampler.handle)])
    {
      reg.SetBoundTexture(gl.id, unit, this);
      var u := OrElse(unit, 0);
      if u >= gl.maxTextureUnits {
        u := gl.maxTextureUnits - 1;
      }
      ActivateAndBind(u);
      outcome := Done;
      if sampler != null {
        SamplerBind(sampler, Some(u), null, reg);
      } else if gl.webglVersion == 1 {
        outcome := Threw("gl.bindSampler is not a function");
      } else {
        gl.Call(BindSampler(u, None));
      }
    }

    /** `unbind(unit)`: without a unit, from every slot holding the texture; otherwise from that unit. */
    method Unbind(unit: Option<int>, reg: BoundTextures)
      modifies reg, gl`log
      ensures unit.None? ==>
        reg.tables == Unbound(old(reg.tables), gl.id, this) &&
        gl.log == old(gl.log) + UnbindCalls(old(reg.tables), gl.id, this, target)
      ensures unit.Some? ==>
        reg.tables == UnboundAt(old(reg.tables), gl.id, unit.value) &&
        gl.log == old(gl.log) + UnbindAtCalls(old(reg.tables), gl.id, unit.value, target)
    {
      if unit.None? {
        reg.UnbindTexture(gl, this);
      } else {
        reg.UnbindUnit(gl, unit.value, this);
      }
    }
  }

  /** The options `configure` reads for an element source. */
  datatype ConfigureOptions = ConfigureOptions(level: Option<int>, generateMipmap: bool)

  /**
   * `GLSampler.bind(unit, texture)`: selects the unit (0 when absent); with a texture,
   * records it in the bound-texture table, binds it, and builds its mipmap first when the
   * sampler filters with one the texture lacks; brings the sampler up to date if dirty; and
   * attaches the sampler to the unit.
   */
  method SamplerBind(s: GLSampler, unit: Option<int>, texture: GLTexture?, reg: BoundTextures)
    requires texture != null ==> texture.gl == s.gl
    modifies reg, s.gl`log, s`dirty, texture
    ensures var u := if unit.Some? then unit.value else 0;
      reg.tables == (if texture == null then old(reg.tables) else SetBound(old(reg.tables), s.gl.id, Some(u), texture)) &&
      s.gl.log == old(s.gl.log) + [ActiveTexture(TEXTURE0 + u)] +
        (if texture == null then [] else TextureSide(old(texture.View()), s.Mipmap())) +
        old(s.PendingCalls()) + [BindSampler(u, s.handle)]
    ensures s.dirty == (old(s.dirty) && s.handle.None?)
    ensures texture != null ==>
      texture.target == old(texture.target) && texture.handle == old(texture.handle) &&
      texture.width == old(texture.width) && texture.height == old(texture.height) &&
      (s.Mipmap() && !old(texture.hasMipmap) ==>
        texture.hasMipmap && texture.numLevels == MipLevelCount(texture.width, texture.height)) &&
      (!(s.Mipmap() && !old(texture.hasMipmap)) ==>
        texture.hasMipmap == old(texture.hasMipmap) && texture.numLevels == old(texture.numLevels))
  {
    var u := if unit.Some? then unit.value else 0;
    s.gl.Call(ActiveTexture(TEXTURE0 + u));
    if texture != null {
      BindForSampler(s.gl, u, texture, s.Mipmap(), reg);
    }
    if s.dirty {
      s.Update();
    }
    s.gl.Call(BindSampler(u, s.handle));
  }

  /** The texture part of a sampler `bind`. */
  method BindForSampler(gl: GLContext, u: int, texture: GLTexture, mipmap: bool, reg: BoundTextures)
    requires texture.gl == gl
    modifies reg, gl`log, texture`hasMipmap, texture`numLevels
    ensures reg.tables == SetBound(old(reg.tables), gl.id, Some(u), texture)
    ensures gl.log == old(gl.log) + TextureSide(old(texture.View()), mipmap)
    ensures mipmap && !old(texture.hasMipmap) ==>
      texture.hasMipmap && texture.numLevels == MipLevelCount(texture.width, texture.height)
    ensures !(mipmap && !old(texture.hasMipmap)) ==>
      texture.hasMipmap == old(texture.hasMipmap) && texture.numLevels == old(texture.numLevels)
  {
    reg.SetBoundTexture(gl.id, Some(u), texture);
    if texture.target == TEXTURE_2D {
      gl.Call(BindTexture(TEXTURE_CUBE_MAP, None));
    } else {
      gl.Call(BindTexture(TEXTURE_2D, None));
    }
    gl.Call(BindTexture(texture.target, texture.handle));
    if mipmap && !texture.hasMipmap {
      gl.Call(TexParameter(texture.target, TEXTURE_MIN_FILTER, LINEAR));
      texture.GenerateMipmap();
    }
  }

  // ---------------------------------------------------------------- the bound-texture table

  /** The slots of one context: the unit as given (absent for `undefined`) to a texture or null. */
  type Slots = map<Option<int>, GLTexture?>

  function TableOf(tables: map<nat, Slots>, glId: nat): Slots
  {
    if glId in tables then tables[glId] else map[]
  }

  /** `setBoundTexture`: records `t` under the unit, creating the context's table unless `t` is null. */
  function SetBound(tables: map<nat, Slots>, glId: nat, unit: Option<int>, t: GLTexture?): map<nat, Slots>
  {
    if glId !in tables && t == null then tables
    else tables[glId := TableOf(tables, glId)[unit := t]]
  }

  /** Unit `i` of the slots holds `t`. */
  predicate Holds(slots: Slots, i: int, t: GLTexture?)
  {
    Some(i) in slots && slots[Some(i)] == t
  }

  /** The slots after clearing every unit below `n` that holds `t`. */
  function ClearedBelow(slots: Slots, t: GLTexture, n: nat): Slots
  {
    if n == 0 then slots
    else
      var s := ClearedBelow(slots, t, n - 1);
      if Holds(slots, n - 1, t) then s[Some(n - 1) := null] else s
  }

  /** The calls made while clearing the units below `n`: select the unit, unbind the target. */
  function ClearCallsBelow(slots: Slots, t: GLTexture, target: int, n: nat): seq<GLCall>
  {
    if n == 0 then []
    else
      ClearCallsBelow(slots, t, target, n - 1) +
      (if Holds(slots, n - 1, t) then [ActiveTexture(TEXTURE0 + n - 1), BindTexture(target, None)] else [])
  }

  /** The table after `unbindTexture(gl, t)`: all 32 units cleared of `t`; nothing without a table. */
  function Unbound(tables: map<nat, Slots>, glId: nat, t: GLTexture): map<nat, Slots>
  {
    if glId in tables then tables[glId := ClearedBelow(tables[glId], t, 32)] else tables
  }

  function UnbindCalls(tables: map<nat, Slots>, glId: nat, t: GLTexture, target: int): seq<GLCall>
  {
    if glId in tables then ClearCallsBelow(tables[glId], t, target, 32) else []
  }

  /** The unit holds some texture. */
  predicate Occupied(tables: map<nat, Slots>, glId: nat, unit: int)
  {
    glId in tables && Some(unit) in tables[glId] && tables[glId][Some(unit)] != null
  }

  /** The table after `unbindTexture(gl, unit, t)`: that unit cleared if occupied (by any texture). */
  function UnboundAt(tables: map<nat, Slots>, glId: nat, unit: int): map<nat, Slots>
  {
    if Occupied(tables, glId, unit) then tables[glId := tables[glId][Some(unit) := null]] else tables
  }

  function UnbindAtCalls(tables: map<nat, Slots>, glId: nat, unit: int, target: int): seq<GLCall>
  {
    if Occupied(tables, glId, unit) then [ActiveTexture(TEXTURE0 + unit), BindTexture(target, None)] else []
  }

  /**
   * Clearing by texture leaves the same keys, empties exactly the units below `n` that held
   * `t`, and leaves every other entry alone; so afterwards no unit below `n` holds `t`.
   */
  lemma {:induction false} ClearedBelowSpec(slots: Slots, t: GLTexture, n: nat)
    ensures var r := ClearedBelow(slots, t, n);
      r.Keys == slots.Keys &&
      (forall k :: k in slots ==>
        r[k] == (if k.Some? && 0 <= k.value < n && slots[k] == t then null else slots[k])) &&
      (forall i :: 0 <= i < n ==> !Holds(r, i, t))
  {
    if n > 0 {
      ClearedBelowSpec(slots, t, n - 1);
    }
  }

  /** Two calls per cleared unit. */
  lemma {:induction false} ClearCallsCount(slots: Slots, t: GLTexture, target: int, n: nat)
    ensures |ClearCallsBelow(slots, t, target, n)| == 2 * |set i | 0 <= i < n && Holds(slots, i, t)|
  {
    if n > 0 {
      ClearCallsCount(slots, t, target, n - 1);
      var below := set i | 0 <= i < n - 1 && Holds(slots, i, t);
      var upTo := set i | 0 <= i < n && Holds(slots, i, t);
      if Holds(slots, n - 1, t) {
        assert upTo == below + {n - 1};
      } else {
        assert upTo == below;
      }
    }
  }

  /** `setBoundTexture(gl, unit, null)` on a context without a table creates nothing. */
  lemma SetBoundNullCreatesNothing(tables: map<nat, Slots>, glId: nat, unit: Option<int>)
    requires glId !in tables
    ensures SetBound(tables, glId, unit, null) == tables
  {
  }

  /** The static `boundTextures` map: one table of texture units per context. */
  class BoundTextures {
    var tables: map<nat, Slots>

    constructor ()
      ensures tables == map[]
    {
      tables := map[];
    }

    /** `setBoundTexture(gl, unit, t)`. */
    method SetBoundTexture(glId: nat, unit: Option<int>, t: GLTexture?)
      modifies this
      ensures tables == SetBound(old(tables), glId, unit, t)
    {
      if glId !in tables {
        if t == null {
          return;
        }
        tables := tables[glId := map[]];
      }
      tables := tables[glId := tables[glId][unit := t]];
    }

    /** `unbindTexture(gl, t)`: every one of the 32 units holding `t` is cleared and its target unbound. */
    method UnbindTexture(gl: GLContext, t: GLTexture)
      modifies this, gl`log
      ensures tables == Unbound(old(tables), gl.id, t)
      ensures gl.log == old(gl.log) + UnbindCalls(old(tables), gl.id, t, t.target)
    {
      if gl.id !in tables {
        return;
      }
      var slots := tables[gl.id];
      var i := 0;
      while i < 32
        invariant 0 <= i <= 32
        invariant gl.id in tables && tables == old(tables)[gl.id := ClearedBelow(slots, t, i)]
        invariant gl.log == old(gl.log) + ClearCallsBelow(slots, t, t.target, i)
      {
        if Some(i) in tables[gl.id] && tables[gl.id][Some(i)] == t {
          ClearedBelowSpec(slots, t, i);
          tables := tables[gl.id := tables[gl.id][Some(i) := null]];
          gl.Call(ActiveTexture(TEXTURE0 + i));
          gl.Call(BindTexture(t.target, None));
        } else {
          ClearedBelowSpec(slots, t, i);
        }
        i := i + 1;
      }
    }

    /** `unbindTexture(gl, unit, t)`: clears the unit if it holds any texture, unbinding `t`'s target. */
    method UnbindUnit(gl: GLContext, unit: int, t: GLTexture)
      modifies this, gl`log
      ensures tables == UnboundAt(old(tables), gl.id, unit)
      ensures gl.log == old(gl.log) + UnbindAtCalls(old(tables), gl.id, unit, t.target)
    {
      if gl.id !in tables {
        return;
      }
      if Some(unit) in tables[gl.id] && tables[gl.id][Some(unit)] != null {
        tables := tables[gl.id := tables[gl.id][Some(unit) := null]];
        gl.Call(ActiveTexture(TEXTURE0 + unit));
        gl.Call(BindTexture(t.target, None));
      }
    }
  }
}
