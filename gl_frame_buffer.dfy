/**
 * Framebuffers (`GLFramebuffer`): render targets made of color attachments and an optional
 * depth attachment, each a texture or a renderbuffer. The static `GLFramebuffer.active`
 * (and the framebuffer count) is a `FramebufferStatics` object shared by all framebuffers;
 * binding saves the previously active framebuffer, and unbinding makes it active again.
 */
module GLFramebuffers {
  import opened Wrappers
  import opened GL
  import opened GLContexts
  import opened GLTextures
  import opened GLRenderbuffers
  import GLShaders

  /** A color or depth attachment: a texture or a renderbuffer object. */
  datatype Attachment = TextureAttachment(texture: GLTexture) | RenderbufferAttachment(renderbuffer: GLRenderbuffer)

  /** The `colorTextures` argument of `setTextures`: none (falsy), one object, or an array. */
  datatype ColorArg = NoColors | SingleColor(item: Attachment) | ColorList(items: seq<Attachment>)

  /**
   * What `update` reads of an attachment. A renderbuffer has no `type` (none here) and no
   * `target` (never consulted for it).
   */
  datatype AttachmentView = AttachmentView(isTexture: bool, width: int, height: int, glType: Option<int>,
                                           target: int, format: int, handle: Option<Handle>)

  function ObjectOf(a: Attachment): object
  {
    match a
    case TextureAttachment(t) => t
    case RenderbufferAttachment(r) => r
  }

  /** The objects behind a list of attachment slots (an empty slot is a hole of the array). */
  function SlotObjects(slots: seq<Option<Attachment>>): set<object>
  {
    set i | 0 <= i < |slots| && slots[i].Some? :: ObjectOf(slots[i].value)
  }

  function ViewOf(a: Attachment): AttachmentView
    reads ObjectOf(a)
  {
    match a
    case TextureAttachment(t) => AttachmentView(true, t.width, t.height, Some(t.glType), t.target, t.format, t.handle)
    case RenderbufferAttachment(r) => AttachmentView(false, r.width, r.height, None, 0, r.format, r.handle)
  }

  function SlotView(s: Option<Attachment>): Option<AttachmentView>
    reads if s.Some? then {ObjectOf(s.value)} else {}
  {
    if s.Some? then Some(ViewOf(s.value)) else None
  }

  /** The views of all slots, in order. */
  function SlotViews(slots: seq<Option<Attachment>>): seq<Option<AttachmentView>>
    reads SlotObjects(slots)
  {
    seq(|slots|, i requires 0 <= i < |slots| reads SlotObjects(slots) => SlotView(slots[i]))
  }

  // ---------------------------------------------------------------- validation in `update`

  const HOLE_ERROR := "Cannot read properties of undefined (reading 'width')"
  const DIMENSIONS_ERROR := "FBO can only bind textures with the same dimensions"
  const FORMAT_ERROR := "FBO can only bind textures with the same pixel format"
  const CUBEMAP_ERROR := "Cannot bind a cubemap to an FBO"
  const NO_TEXTURES_ERROR := "FBO updated with no bound textures"
  const MULTIPLE_ERROR := "Rendering to multiple textures is not supported by this browser"
  const DEPTH_TEXTURE_ERROR := "Rendering to depth texture not supported by your browser"
  const IN_CURRENT_ERROR := "Cannot set properties of undefined (setting '_inCurrentFramebuffer')"

  /** The element type seen so far by the scan: none yet (`null`), or the first attachment's. */
  datatype TypeSeen = NoneYet | Seen(glType: Option<int>)

  /** The state of the scan over the color attachments: the size and type so far, or the error thrown. */
  datatype Scan = Scanning(w: int, h: int, seen: TypeSeen) | ScanFailed(message: string)

  /**
   * One step of the scan: the first width (and height, and type) is taken, later ones must
   * equal it (a width of -1 counts as none yet); a texture must be 2D.
   */
  function ScanStep(s: Scan, v: Option<AttachmentView>): Scan
  {
    match s
    case ScanFailed(_) => s
    case Scanning(w, h, seen) =>
      if v.None? then ScanFailed(HOLE_ERROR)
      else
        var t := v.value;
        if w != -1 && w != t.width then ScanFailed(DIMENSIONS_ERROR)
        else if h != -1 && h != t.height then ScanFailed(DIMENSIONS_ERROR)
        else if seen.Seen? && seen.glType != t.glType then ScanFailed(FORMAT_ERROR)
        else if t.isTexture && t.target != TEXTURE_2D then ScanFailed(CUBEMAP_ERROR)
        else Scanning(if w == -1 then t.width else w, if h == -1 then t.height else h,
                      if seen.NoneYet? then Seen(t.glType) else seen)
  }

  /** The scan over the first `n` color attachments. */
  function Scanned(vs: seq<Option<AttachmentView>>, n: nat): Scan
    requires n <= |vs|
  {
    if n == 0 then Scanning(-1, -1, NoneYet) else ScanStep(Scanned(vs, n - 1), vs[n - 1])
  }

  /** Once the scan has failed it stays failed with the same message. */
  lemma {:induction false} ScanFailurePersists(vs: seq<Option<AttachmentView>>, k: nat, n: nat)
    requires k <= n <= |vs| && Scanned(vs, k).ScanFailed?
    ensures Scanned(vs, n) == Scanned(vs, k)
    decreases n
  {
    if n > k {
      ScanFailurePersists(vs, k, n - 1);
    }
  }

  /** The first `n` slots hold attachments of one size and one type, and every texture among them is 2D. */
  predicate UniformUpTo(vs: seq<Option<AttachmentView>>, n: nat)
    requires n <= |vs|
  {
    n == 0 ||
    (vs[0].Some? &&
     forall i :: 0 <= i < n ==>
       && vs[i].Some?
       && vs[i].value.width == vs[0].value.width && vs[i].value.height == vs[0].value.height
       && vs[i].value.glType == vs[0].value.glType
       && (vs[i].value.isTexture ==> vs[i].value.target == TEXTURE_2D))
  }

  /** No slot holds an attachment with a negative size. */
  predicate Sized(vs: seq<Option<AttachmentView>>)
  {
    forall i :: 0 <= i < |vs| && vs[i].Some? ==> vs[i].value.width >= 0 && vs[i].value.height >= 0
  }

  /**
   * For attachments of non-negative size, the scan succeeds exactly when the attachments are
   * uniform in size and type with only 2D textures, and then it yields the first one's size.
   */
  lemma {:induction false} ScanSucceedsIffUniform(vs: seq<Option<AttachmentView>>, n: nat)
    requires n <= |vs| && Sized(vs)
    ensures Scanned(vs, n).Scanning? <==> UniformUpTo(vs, n)
    ensures Scanned(vs, n).Scanning? && n > 0 ==>
      Scanned(vs, n) == Scanning(vs[0].value.width, vs[0].value.height, Seen(vs[0].value.glType))
    ensures Scanned(vs, n).Scanning? && n == 0 ==> Scanned(vs, n) == Scanning(-1, -1, NoneYet)
  {
    if n > 0 {
      ScanSucceedsIffUniform(vs, n - 1);
      if Scanned(vs, n - 1).ScanFailed? {
        assert !UniformUpTo(vs, n - 1);
        assert !UniformUpTo(vs, n) by {
          if UniformUpTo(vs, n) {
            assert UniformUpTo(vs, n - 1);
          }
        }
      }
    }
  }

  /**
   * The size `update` settles on before binding, or the error it throws: the scan over the
   * color attachments, else the depth attachment's size; no size at all, or several color
   * attachments without multiple-target support, is refused.
   */
  function Measure(vs: seq<Option<AttachmentView>>, depth: Option<AttachmentView>, multipleUnsupported: bool): (m: Scan)
    ensures m.Scanning? ==> m.w != -1 && forall i :: 0 <= i < |vs| ==> vs[i].Some?
    ensures m.Scanning? && |vs| > 1 ==> !multipleUnsupported
    ensures |vs| == 0 && depth.None? ==> m == ScanFailed(NO_TEXTURES_ERROR)
  {
    var s := Scanned(vs, |vs|);
    if s.ScanFailed? then s
    else
      MeasuredHasNoHoles(vs, |vs|);
      var w := if |vs| == 0 && depth.Some? then depth.value.width else s.w;
      var h := if |vs| == 0 && depth.Some? then depth.value.height else s.h;
      if w == -1 then ScanFailed(NO_TEXTURES_ERROR)
      else if multipleUnsupported && |vs| > 1 then ScanFailed(MULTIPLE_ERROR)
      else Scanning(w, h, s.seen)
  }

  /** A measured framebuffer never holds a hole among its color attachments. */
  lemma {:induction false} MeasuredHasNoHoles(vs: seq<Option<AttachmentView>>, n: nat)
    requires n <= |vs| && Scanned(vs, n).Scanning?
    ensures forall i :: 0 <= i < n ==> vs[i].Some?
  {
    if n > 0 {
      MeasuredHasNoHoles(vs, n - 1);
    }
  }

  // ---------------------------------------------------------------- calls of `update`

  /** Detaching both depth slots, then attaching the depth texture or a matching depth renderbuffer. */
  function DepthCalls(target: int, depth: Option<AttachmentView>, w: int, h: int, stencil: bool): seq<GLCall>
  {
    [FramebufferRenderbuffer(target, DEPTH_ATTACHMENT, None),
     FramebufferRenderbuffer(target, DEPTH_STENCIL_ATTACHMENT, None)] +
    if depth.Some? && depth.value.isTexture then
      [FramebufferTexture2D(target, if depth.value.format == DEPTH_STENCIL then DEPTH_STENCIL_ATTACHMENT else DEPTH_ATTACHMENT,
                            TEXTURE_2D, depth.value.handle, 0)]
    else if depth.Some? && depth.value.width == w && depth.value.height == h then
      [BindRenderbuffer(depth.value.handle),
       FramebufferRenderbuffer(target, if stencil then DEPTH_STENCIL_ATTACHMENT else DEPTH_ATTACHMENT, depth.value.handle)]
    else []
  }

  /** A depth texture cannot be attached on WebGL 1 without the depth-texture extension. */
  predicate DepthUnsupported(depth: Option<AttachmentView>, webglVersion: int, e: Extensions)
  {
    depth.Some? && depth.value.isTexture && webglVersion == 1 && !e.depthTexture
  }

  /** Attaching a color attachment at slot `i`. */
  function ColorCall(target: int, i: int, v: AttachmentView): GLCall
  {
    if v.isTexture then FramebufferTexture2D(target, COLOR_ATTACHMENT0 + i, TEXTURE_2D, v.handle, 0)
    else FramebufferRenderbuffer(target, COLOR_ATTACHMENT0 + i, v.handle)
  }

  /** Attaching the first `n` color attachments, slot by slot. */
  function ColorCalls(target: int, vs: seq<Option<AttachmentView>>, n: nat): (calls: seq<GLCall>)
    requires n <= |vs| && forall i :: 0 <= i < n ==> vs[i].Some?
    ensures |calls| == n
  {
    if n == 0 then [] else ColorCalls(target, vs, n - 1) + [ColorCall(target, n - 1, vs[n - 1].value)]
  }

  /** Every color attachment goes to its own slot, COLOR_ATTACHMENT0 + i, with its own handle. */
  lemma {:induction false} ColorCallsSlots(target: int, vs: seq<Option<AttachmentView>>, n: nat)
    requires n <= |vs| && forall i :: 0 <= i < n ==> vs[i].Some?
    ensures forall i :: 0 <= i < n ==> ColorCalls(target, vs, n)[i] == ColorCall(target, i, vs[i].value)
  {
    if n > 0 {
      ColorCallsSlots(target, vs, n - 1);
    }
  }

  /** The draw-buffer order of `n` color attachments. */
  function AttachmentOrder(n: nat): (order: seq<int>)
    ensures |order| == n && forall i :: 0 <= i < n ==> order[i] == COLOR_ATTACHMENT0 + i
  {
    seq(n, i => COLOR_ATTACHMENT0 + i)
  }

  /** Detaching the color slots from `from` up to (not including) `to`. */
  function DetachCalls(target: int, from: int, to: int): seq<GLCall>
    decreases to - from
  {
    if to <= from then []
    else
      DetachCalls(target, from, to - 1) +
      [FramebufferRenderbuffer(target, COLOR_ATTACHMENT0 + to - 1, None),
       FramebufferTexture2D(target, COLOR_ATTACHMENT0 + to - 1, TEXTURE_2D, None, 0)]
  }

  /**
   * Exactly the slots from the new count up to the old one are detached, each with a
   * renderbuffer detach followed by a texture detach; nothing when the count did not shrink.
   */
  lemma {:induction false} DetachCallsExactly(target: int, from: int, to: int)
    ensures from >= to ==> DetachCalls(target, from, to) == []
    ensures from < to ==> |DetachCalls(target, from, to)| == 2 * (to - from)
    ensures forall k :: 0 <= k < to - from ==>
      && DetachCalls(target, from, to)[2 * k] == FramebufferRenderbuffer(target, COLOR_ATTACHMENT0 + from + k, None)
      && DetachCalls(target, from, to)[2 * k + 1] == FramebufferTexture2D(target, COLOR_ATTACHMENT0 + from + k, TEXTURE_2D, None, 0)
    decreases if to > from then to - from else 0
  {
    if from < to {
      DetachCallsExactly(target, from, to - 1);
    }
  }

  /** The `_framebufferErrorString` of a status code: a name for the five known codes, else the code. */
  function StatusText(code: int): string
  {
    if code == FRAMEBUFFER_INCOMPLETE_ATTACHMENT then "Incomplete Attachment"
    else if code == FRAMEBUFFER_INCOMPLETE_DIMENSIONS then "Incomplete Dimensions"
    else if code == FRAMEBUFFER_INCOMPLETE_MISSING_ATTACHMENT then "Incomplete Missing Attachment"
    else if code == FRAMEBUFFER_UNSUPPORTED then "Incomplete Unsupported"
    else if code == FRAMEBUFFER_INCOMPLETE_MULTISAMPLE then "Incomplete Multisample"
    else GLShaders.NumberText(code)
  }

  // ---------------------------------------------------------------- `setTextures` decisions

  /** The error `setTextures` throws for a depth texture of unusable format or type. */
  function DepthTextureError(format: int, glType: int): (e: Option<string>)
    ensures e.None? <==>
      (format == DEPTH_COMPONENT || format == DEPTH_STENCIL || format == DEPTH_COMPONENT16 ||
       format == DEPTH_COMPONENT24 || format == DEPTH_COMPONENT32F) &&
      (glType == UNSIGNED_SHORT || glType == UNSIGNED_INT || glType == UNSIGNED_INT_24_8_WEBGL || glType == FLOAT)
  {
    if format != DEPTH_COMPONENT && format != DEPTH_STENCIL && format != DEPTH_COMPONENT16 &&
       format != DEPTH_COMPONENT24 && format != DEPTH_COMPONENT32F
    then Some("FBO Depth texture must be of format: gl.DEPTH_COMPONENT, gl.DEPTH_STENCIL " +
              "or gl.DEPTH_COMPONENT16/24/32F (only in webgl2)")
    else if glType != UNSIGNED_SHORT && glType != UNSIGNED_INT && glType != UNSIGNED_INT_24_8_WEBGL && glType != FLOAT
    then Some("FBO Depth texture must be of type: gl.UNSIGNED_SHORT, gl.UNSIGNED_INT, gl.UNSIGNED_INT_24_8_WEBGL")
    else None
  }

  /** The error `setTextures` throws for its depth argument: only a depth texture is checked. */
  function DepthArgError(depth: Option<Attachment>): Option<string>
    reads if depth.Some? then {ObjectOf(depth.value)} else {}
  {
    if depth.Some? && depth.value.TextureAttachment?
    then DepthTextureError(depth.value.texture.format, depth.value.texture.glType)
    else None
  }

  /** The number of color attachments an argument stands for. */
  function NumColors(colors: ColorArg): nat
  {
    match colors
    case NoColors => 0
    case SingleColor(_) => 1
    case ColorList(items) => |items|
  }

  /** The slots `setTextures` stores for an argument. */
  function ColorSlots(colors: ColorArg): (slots: seq<Option<Attachment>>)
    ensures |slots| == NumColors(colors) && None !in slots
    ensures colors.ColorList? ==> forall i :: 0 <= i < |slots| ==> slots[i] == Some(colors.items[i])
    ensures colors.SingleColor? ==> slots == [Some(colors.item)]
  {
    match colors
    case NoColors => []
    case SingleColor(a) => [Some(a)]
    case ColorList(items) => seq(|items|, i requires 0 <= i < |items| => Some(items[i]))
  }

  /**
   * Whether the given color argument matches the stored slots as `setTextures` compares them:
   * the same count and the same objects (a falsy argument is not compared at all).
   */
  predicate SameColors(colors: ColorArg, slots: seq<Option<Attachment>>)
  {
    colors.NoColors? ||
    (NumColors(colors) == |slots| &&
     (colors.ColorList? ==> forall i :: 0 <= i < |slots| ==> slots[i] == Some(colors.items[i])) &&
     (colors.SingleColor? ==> slots[0] == Some(colors.item)))
  }

  /** The slots after `attach` stores `a` at `index`, the array growing (with holes) to reach it. */
  function PlaceAt(slots: seq<Option<Attachment>>, index: nat, a: Attachment): (r: seq<Option<Attachment>>)
    ensures |r| == (if index < |slots| then |slots| else index + 1)
    ensures r[index] == Some(a)
    ensures forall j :: 0 <= j < |r| && j != index ==> r[j] == (if j < |slots| then slots[j] else None)
  {
    if index < |slots| then slots[index := Some(a)]
    else slots + seq(index - |slots|, _ => None) + [Some(a)]
  }

  // ---------------------------------------------------------------- `blit` guard

  datatype BlitChoice = NoBlit | BlitFrom(index: nat) | BlitFails

  /**
   * Which color attachment `blit(colorIndex)` draws: index 0 when the index is falsy; none
   * when the index is past the end; a TypeError for a negative index or a hole.
   */
  function BlitSource(colorIndex: Option<int>, slots: seq<Option<Attachment>>): (b: BlitChoice)
    ensures b.NoBlit? <==> OrElse(colorIndex, 0) >= |slots|
    ensures b.BlitFrom? <==> 0 <= OrElse(colorIndex, 0) < |slots| && slots[OrElse(colorIndex, 0)].Some?
    ensures b.BlitFrom? ==> b.index == OrElse(colorIndex, 0)
  {
    var i := OrElse(colorIndex, 0);
    if i >= |slots| then NoBlit
    else if i < 0 || slots[i].None? then BlitFails
    else BlitFrom(i)
  }

  // ---------------------------------------------------------------- the framebuffer

  /** `GLFramebuffer.active` and `GLFramebuffer.framebufferCount`. */
  class FramebufferStatics {
    var active: GLFramebuffer?
    var framebufferCount: int

    constructor ()
      ensures active == null && framebufferCount == 0
    {
      active := null;
      framebufferCount := 0;
    }
  }

  /**
   * The values `update`'s effect is stated against: the call log, the size, the active
   * framebuffer, the bound-texture count, the draw-buffer order, the color renderbuffer (if
   * one exists yet) and the next handle WebGL hands out.
   */
  datatype Before = Before(log: seq<GLCall>, width: int, height: int, active: GLFramebuffer?, numBoundTextures: int,
                           order: Option<seq<int>>, colorRenderbuffer: GLRenderbuffer?, nextHandle: Handle)

  class GLFramebuffer {
    const gl: GLContext
    /** The WebGL framebuffer, created by the first `bind`. */
    var handle: Option<Handle>
    var width: int
    var height: int
    var colorTextures: seq<Option<Attachment>>
    var depthTexture: Option<Attachment>
    /** With no depth attachment: whether it is `undefined` (never given) rather than null. */
    var depthUndefined: bool
    var stencil: bool
    var stencilEnabled: bool
    var numBoundTextures: int
    var previousFramebuffer: GLFramebuffer?
    /** The viewport saved by `bind` (a Float32Array of four). */
    const previousViewport: array<real>
    /** The draw-buffer order set by `update`; null before. */
    var order: Option<seq<int>>
    var colorRenderbuffer: GLRenderbuffer?

    ghost predicate Valid()
      reads this, gl
    {
      previousViewport.Length == 4 && gl.Valid() && previousViewport != gl.viewportData &&
      (order.Some? ==> |order.value| >= 1)
    }

    /** `this.depthTexture === depthTexture`: null and undefined are different values. */
    predicate SameDepth(depth: Option<Attachment>, undefinedDepth: bool)
      reads this
    {
      depthTexture == depth && (depth.None? ==> depthUndefined == undefinedDepth)
    }

    /** The handle of the framebuffer `unbind` makes active again (none for the default one). */
    function PreviousHandle(): Option<Handle>
      reads this, previousFramebuffer
    {
      if previousFramebuffer != null then previousFramebuffer.handle else None
    }

    /** The handle of the color renderbuffer, none before it is made. */
    function ColorRenderbufferHandle(): Option<Handle>
      reads this, colorRenderbuffer
    {
      if colorRenderbuffer != null then colorRenderbuffer.handle else None
    }

    function ColorViews(): seq<Option<AttachmentView>>
      reads this, SlotObjects(colorTextures)
    {
      SlotViews(colorTextures)
    }

    function DepthView(): Option<AttachmentView>
      reads this, if depthTexture.Some? then {ObjectOf(depthTexture.value)} else {}
    {
      SlotView(depthTexture)
    }

    /** The framebuffer target `update` and `attach` use: FRAMEBUFFER on WebGL 1, DRAW_FRAMEBUFFER otherwise. */
    function Target(): int
    {
      if gl.webglVersion == 1 then FRAMEBUFFER else DRAW_FRAMEBUFFER
    }

    /**
     * The fields the constructor sets before its optional `setTextures`: no handle, size -1,
     * no attachments, the stencil flag, and a zeroed saved viewport.
     */
    constructor (gl: GLContext, stencil: bool)
      requires gl.Valid()
      ensures Valid() && this.gl == gl && fresh(previousViewport)
      ensures handle.None? && width == -1 && height == -1 && colorTextures == [] && depthTexture.None? && !depthUndefined
      ensures this.stencil == stencil && !stencilEnabled && numBoundTextures == 0
      ensures previousFramebuffer == null && order.None? && colorRenderbuffer == null
      ensures previousViewport[..] == [0.0, 0.0, 0.0, 0.0]
    {
      this.gl := gl;
      handle := None;
      width := -1;
      height := -1;
      colorTextures := [];
      depthTexture := None;
      depthUndefined := false;
      this.stencil := stencil;
      stencilEnabled := false;
      numBoundTextures := 0;
      previousFramebuffer := null;
      previousViewport := new real[4] [0.0, 0.0, 0.0, 0.0];
      order := None;
      colorRenderbuffer := null;
    }

    /** The rest of the constructor: `setTextures` when any color or depth attachment is given. */
    method Init(colors: ColorArg, depth: Option<Attachment>, undefinedDepth: bool, reg: FramebufferStatics, status: int)
      returns (outcome: Outcome)
      requires Valid()
      modifies this, previousViewport, reg, gl`log, gl`nextHandle
      ensures Valid()
      ensures NumColors(colors) == 0 && depth.None? ==>
        outcome == Done && gl.log == old(gl.log) && colorTextures == old(colorTextures) &&
        depthTexture == old(depthTexture) && depthUndefined == old(depthUndefined)
      ensures (NumColors(colors) != 0 || depth.Some?) && old(DepthArgError(depth)).Some? ==>
        outcome == Threw(old(DepthArgError(depth)).value) && gl.log == old(gl.log) &&
        colorTextures == old(colorTextures) && depthTexture == old(depthTexture) && depthUndefined == old(depthUndefined)
      ensures ((NumColors(colors) != 0 || depth.Some?) && old(DepthArgError(depth)).None? &&
               old(SameDepth(depth, undefinedDepth)) && SameColors(colors, old(colorTextures)) && old(stencilEnabled) == old(stencil)) ==>
        outcome == Done && gl.log == old(gl.log) && colorTextures == old(colorTextures) &&
        depthTexture == old(depthTexture) && depthUndefined == old(depthUndefined)
      ensures ((NumColors(colors) != 0 || depth.Some?) && old(DepthArgError(depth)).None? &&
               !(old(SameDepth(depth, undefinedDepth)) && SameColors(colors, old(colorTextures)) && old(stencilEnabled) == old(stencil))) ==>
        colorTextures == ColorSlots(colors) && depthTexture == depth && depthUndefined == undefinedDepth &&
        Updated(old(Snapshot(reg)), old(SlotViews(ColorSlots(colors))), old(SlotView(depth)), false, reg, status, outcome)
    {
      outcome := Done;
      if NumColors(colors) != 0 || depth.Some? {
        outcome := SetTextures(colors, depth, undefinedDepth, false, reg, status);
      }
    }

    /**
     * `bind()`: nothing when already active; otherwise saves the viewport and the active
     * framebuffer, creates the handle on first use, binds it, and becomes active. A hole among
     * the color attachments throws (a TypeError) after the bind call and before becoming active.
     */
    method Bind(reg: FramebufferStatics) returns (outcome: Outcome)
      requires Valid()
      modifies reg, this`previousFramebuffer, this`handle, previousViewport, gl`log, gl`nextHandle
      ensures Valid()
      ensures old(reg.active) == this ==>
        outcome == Done && reg.active == old(reg.active) && reg.framebufferCount == old(reg.framebufferCount) &&
        previousFramebuffer == old(previousFramebuffer) && handle == old(handle) &&
        gl.log == old(gl.log) && gl.nextHandle == old(gl.nextHandle)
      ensures old(reg.active) != this ==>
        previousViewport[..] == gl.viewportData[..] && previousFramebuffer == old(reg.active) &&
        handle == (if old(handle).Some? then old(handle) else Some(old(gl.nextHandle))) &&
        reg.framebufferCount == old(reg.framebufferCount) + (if old(handle).Some? then 0 else 1) &&
        gl.nextHandle == old(gl.nextHandle) + (if old(handle).Some? then 0 else 1) &&
        gl.log == old(gl.log) + [BindFramebuffer(FRAMEBUFFER, handle)]
      ensures old(reg.active) != this && None in colorTextures ==> outcome.Threw? && reg.active == old(reg.active)
      ensures old(reg.active) != this && None !in colorTextures ==> outcome == Done && reg.active == this
    {
      outcome := Done;
      if reg.active == this {
        return;
      }
      outcome := BindInactive(reg);
    }

    /** `bind()` for a framebuffer that is not the active one. */
    method BindInactive(reg: FramebufferStatics) returns (outcome: Outcome)
      requires Valid() && reg.active != this
      modifies reg, this`previousFramebuffer, this`handle, previousViewport, gl`log, gl`nextHandle
      ensures Valid()
      ensures previousViewport[..] == gl.viewportData[..] && previousFramebuffer == old(reg.active) &&
        handle == (if old(handle).Some? then old(handle) else Some(old(gl.nextHandle))) &&
        reg.framebufferCount == old(reg.framebufferCount) + (if old(handle).Some? then 0 else 1) &&
        gl.nextHandle == old(gl.nextHandle) + (if old(handle).Some? then 0 else 1) &&
        gl.log == old(gl.log) + [BindFramebuffer(FRAMEBUFFER, handle)]
      ensures None in colorTextures ==> outcome.Threw? && reg.active == old(reg.active)
      ensures None !in colorTextures ==> outcome == Done && reg.active == this
    {
      previousFramebuffer := reg.active;
      EnsureHandle(reg);
      gl.Call(BindFramebuffer(FRAMEBUFFER, handle));
      SaveViewport();
      if None in colorTextures {
        outcome := Threw(IN_CURRENT_ERROR);
        return;
      }
      outcome := Done;
      reg.active := this;
    }

    /** The viewport copy of `bind`. */
    method SaveViewport()
      requires Valid()
      modifies previousViewport
      ensures previousViewport[..] == gl.viewportData[..]
    {
      forall i | 0 <= i < 4 {
        previousViewport[i] := gl.viewportData[i];
      }
    }

    /** The first `bind` creates the framebuffer object and counts it. */
    method EnsureHandle(reg: FramebufferStatics)
      modifies this`handle, reg`framebufferCount, gl`nextHandle
      ensures handle == (if old(handle).Some? then old(handle) else Some(old(gl.nextHandle)))
      ensures reg.framebufferCount == old(reg.framebufferCount) + (if old(handle).Some? then 0 else 1)
      ensures gl.nextHandle == old(gl.nextHandle) + (if old(handle).Some? then 0 else 1)
    {
      if handle.None? {
        var h := gl.NewHandle();
        handle := Some(h);
        reg.framebufferCount := reg.framebufferCount + 1;
      }
    }

    /**
     * `unbind()`: nothing when no framebuffer is active; otherwise the framebuffer saved by
     * this one's `bind` becomes active and is bound (the default one when none was saved).
     */
    method Unbind(reg: FramebufferStatics) returns (outcome: Outcome)
      modifies reg`active, gl`log
      ensures old(reg.active) == null ==> outcome == Done && reg.active == null && gl.log == old(gl.log)
      ensures old(reg.active) != null ==>
        reg.active == previousFramebuffer && gl.log == old(gl.log) + [BindFramebuffer(FRAMEBUFFER, PreviousHandle())] &&
        (outcome.Threw? <==> None in colorTextures)
      ensures outcome.Threw? ==> outcome == Threw(IN_CURRENT_ERROR)
    {
      outcome := Done;
      if reg.active == null {
        return;
      }
      reg.active := previousFramebuffer;
      gl.Call(BindFramebuffer(FRAMEBUFFER, PreviousHandle()));
      if None in colorTextures {
        outcome := Threw(IN_CURRENT_ERROR);
      }
    }

    /**
     * `destroy()`: unbinds when active, decrements the framebuffer count, deletes the handle
     * if any, and resets size, attachments and stencil flag.
     */
    method Destroy(reg: FramebufferStatics) returns (outcome: Outcome)
      modifies reg, this`handle, this`width, this`height, this`colorTextures, this`depthTexture, this`depthUndefined,
               this`stencil, gl`log
      ensures old(reg.active) == this && None in old(colorTextures) ==>
        outcome == Threw(IN_CURRENT_ERROR) && handle == old(handle) && reg.active == old(previousFramebuffer) &&
        reg.framebufferCount == old(reg.framebufferCount) &&
        gl.log == old(gl.log) + [BindFramebuffer(FRAMEBUFFER, old(PreviousHandle()))] &&
        width == old(width) && height == old(height) && colorTextures == old(colorTextures) &&
        depthTexture == old(depthTexture) && depthUndefined == old(depthUndefined) && stencil == old(stencil)
      ensures !(old(reg.active) == this && None in old(colorTextures)) ==>
        outcome == Done && handle.None? && width == -1 && height == -1 && colorTextures == [] &&
        depthTexture.None? && !depthUndefined && !stencil && reg.framebufferCount == old(reg.framebufferCount) - 1 &&
        reg.active == (if old(reg.active) == this then old(previousFramebuffer) else old(reg.active)) &&
        gl.log == old(gl.log) + (if old(reg.active) == this then [BindFramebuffer(FRAMEBUFFER, old(PreviousHandle()))] else []) +
          (if old(handle).Some? then [DeleteFramebuffer(old(handle))] else [])
    {
      outcome := Done;
      if reg.active == this {
        outcome := Unbind(reg);
        if outcome.Threw? {
          return;
        }
      }
      reg.framebufferCount := reg.framebufferCount - 1;
      if handle.Some? {
        gl.Call(DeleteFramebuffer(handle));
      }
      handle := None;
      width := -1;
      height := -1;
      colorTextures := [];
      depthTexture := None;
      depthUndefined := false;
      stencil := false;
    }

    /**
     * `attach(texture, attachment)`: binds unless active, attaches the object at the given
     * point (COLOR_ATTACHMENT0 when falsy), and records it as the depth attachment or as the
     * color attachment at its index (growing the list); other points are not recorded.
     */
    method Attach(a: Attachment, attachment: Option<int>, reg: FramebufferStatics) returns (outcome: Outcome)
      requires Valid()
      modifies reg, this`previousFramebuffer, this`handle, this`depthTexture, this`colorTextures,
               previousViewport, gl`log, gl`nextHandle
      ensures Valid()
      ensures old(reg.active) != this && None in old(colorTextures) ==>
        outcome.Threw? && colorTextures == old(colorTextures) && depthTexture == old(depthTexture)
      ensures old(reg.active) == this || None !in old(colorTextures) ==>
        var point := OrElse(attachment, COLOR_ATTACHMENT0);
        outcome == Done && reg.active == this &&
        gl.log == old(gl.log) + (if old(reg.active) == this then [] else [BindFramebuffer(FRAMEBUFFER, handle)]) +
          [if a.RenderbufferAttachment? then FramebufferRenderbuffer(Target(), point, a.renderbuffer.handle)
           else FramebufferTexture2D(Target(), point, a.texture.target, a.texture.handle, 0)] &&
        (point == DEPTH_ATTACHMENT || point == DEPTH_STENCIL_ATTACHMENT ==>
          depthTexture == Some(a) && colorTextures == old(colorTextures)) &&
        (point != DEPTH_ATTACHMENT && point != DEPTH_STENCIL_ATTACHMENT && COLOR_ATTACHMENT0 <= point <= COLOR_ATTACHMENT0 + 16 ==>
          depthTexture == old(depthTexture) && colorTextures == PlaceAt(old(colorTextures), point - COLOR_ATTACHMENT0, a)) &&
        (point != DEPTH_ATTACHMENT && point != DEPTH_STENCIL_ATTACHMENT && !(COLOR_ATTACHMENT0 <= point <= COLOR_ATTACHMENT0 + 16) ==>
          depthTexture == old(depthTexture) && colorTextures == old(colorTextures))
    {
      outcome := Done;
      if reg.active != this {
        outcome := Bind(reg);
        if outcome.Threw? {
          return;
        }
      }
      var target := Target();
      var point := OrElse(attachment, COLOR_ATTACHMENT0);
      match a {
        case RenderbufferAttachment(r) =>
          gl.Call(FramebufferRenderbuffer(target, point, r.handle));
        case TextureAttachment(t) =>
          gl.Call(FramebufferTexture2D(target, point, t.target, t.handle, 0));
      }
      if point == DEPTH_ATTACHMENT || point == DEPTH_STENCIL_ATTACHMENT {
        depthTexture := Some(a);
      } else if COLOR_ATTACHMENT0 <= point <= COLOR_ATTACHMENT0 + 16 {
        colorTextures := PlaceAt(colorTextures, point - COLOR_ATTACHMENT0, a);
      }
    }

    /** `toSingle()`: with two or more color attachments, draws to the first one only. */
    method ToSingle() returns (outcome: Outcome)
      requires Valid()
      modifies gl`log
      ensures |colorTextures| < 2 ==> outcome == Done && gl.log == old(gl.log)
      ensures |colorTextures| >= 2 && order.None? ==> outcome.Threw? && gl.log == old(gl.log)
      ensures |colorTextures| >= 2 && order.Some? ==>
        outcome == Done && gl.log == old(gl.log) + [DrawBuffers([order.value[0]], gl.extensions.drawBuffers)]
    {
      outcome := Done;
      if |colorTextures| < 2 {
        return;
      }
      if order.None? {
        outcome := Threw("Cannot read properties of null (reading '0')");
        return;
      }
      gl.Call(DrawBuffers([order.value[0]], gl.extensions.drawBuffers));
    }

    /**
     * `toMulti()` as written: with two or more color attachments it hands the draw-buffer call
     * the first entry of the order, a number, where a sequence of attachments is expected;
     * WebIDL's conversion of that argument to a sequence fails, so the call throws a TypeError
     * before anything reaches WebGL.
     */
    method ToMultiAsWritten() returns (outcome: Outcome)
      requires Valid()
      ensures |colorTextures| < 2 ==> outcome == Done
      ensures |colorTextures| >= 2 ==> outcome.Threw?
      ensures |colorTextures| >= 2 && order.Some? ==>
        outcome == Threw("Failed to execute 'drawBuffers': The provided value cannot be converted to a sequence.")
    {
      outcome := Done;
      if |colorTextures| < 2 {
        return;
      }
      if order.None? {
        outcome := Threw("Cannot read properties of null (reading '0')");
        return;
      }
      outcome := Threw("Failed to execute 'drawBuffers': The provided value cannot be converted to a sequence.");
    }

    /**
     * `toMulti()` as intended: with two or more color attachments, draws to all of them again,
     * reissuing the order `update` set.
     */
    method ToMulti() returns (outcome: Outcome)
      requires Valid()
      modifies gl`log
      ensures |colorTextures| < 2 ==> outcome == Done && gl.log == old(gl.log)
      ensures |colorTextures| >= 2 && order.None? ==> outcome.Threw? && gl.log == old(gl.log)
      ensures |colorTextures| >= 2 && order.Some? ==>
        outcome == Done && gl.log == old(gl.log) + [DrawBuffers(order.value, gl.extensions.drawBuffers)]
    {
      outcome := Done;
      if |colorTextures| < 2 {
        return;
      }
      if order.None? {
        outcome := Threw("Cannot read properties of null (reading 'length')");
        return;
      }
      gl.Call(DrawBuffers(order.value, gl.extensions.drawBuffers));
    }

    /**
     * `clearSecondary(color)`: with an order of two or more, clears every color attachment but
     * the first (drawing to NONE in its place), then restores the order.
     */
    method ClearSecondary(r: real, g: real, b: real, a: real)
      modifies gl`log
      ensures order.None? || |order.value| < 2 ==> gl.log == old(gl.log)
      ensures order.Some? && |order.value| >= 2 ==>
        gl.log == old(gl.log) + [DrawBuffers([NONE] + order.value[1..], gl.extensions.drawBuffers),
                                 ClearColor(r, g, b, a), Clear(COLOR_BUFFER_BIT),
                                 DrawBuffers(order.value, gl.extensions.drawBuffers)]
    {
      if order.None? || |order.value| < 2 {
        return;
      }
      var ext := gl.extensions.drawBuffers;
      var all := order.value;
      var secondary := [NONE];
      var i := 1;
      while i < |all|
        invariant 1 <= i <= |all|
        invariant secondary == [NONE] + all[1..i]
      {
        secondary := secondary + [all[i]];
        i := i + 1;
      }
      assert secondary == [NONE] + all[1..];
      ghost var before := gl.log;
      gl.Call(DrawBuffers(secondary, ext));
      gl.Call(ClearColor(r, g, b, a));
      gl.Call(Clear(COLOR_BUFFER_BIT));
      gl.Call(DrawBuffers(all, ext));
      assert gl.log == before + [DrawBuffers(secondary, ext), ClearColor(r, g, b, a), Clear(COLOR_BUFFER_BIT),
                                 DrawBuffers(all, ext)];
    }

    /** Whether every stored color slot holds the corresponding item (the comparison loop of `setTextures`). */
    method MatchesList(items: seq<Attachment>) returns (same: bool)
      requires |items| == |colorTextures|
      ensures same <==> forall i :: 0 <= i < |items| ==> colorTextures[i] == Some(items[i])
    {
      same := true;
      var i := 0;
      while i < |items|
        invariant 0 <= i <= |items|
        invariant forall j :: 0 <= j < i ==> colorTextures[j] == Some(items[j])
      {
        if Some(items[i]) != colorTextures[i] {
          same := false;
          return;
        }
        i := i + 1;
      }
    }

    /** Stores a color argument: the list is cut or grown to its count, then filled. */
    method StoreColors(colors: ColorArg)
      modifies this`colorTextures
      ensures colorTextures == ColorSlots(colors)
    {
      match colors
      case NoColors =>
        colorTextures := [];
      case SingleColor(a) =>
        colorTextures := [Some(a)];
      case ColorList(items) =>
        colorTextures := seq(|items|, _ => None);
        var i := 0;
        while i < |items|
          invariant 0 <= i <= |items| && |colorTextures| == |items|
          invariant forall j :: 0 <= j < |items| ==> colorTextures[j] == (if j < i then Some(items[j]) else None)
        {
          colorTextures := colorTextures[i := Some(items[i])];
          i := i + 1;
        }
    }

    /**
     * `setTextures(colorTextures, depthTexture, skipDisable)`: refuses a depth texture of
     * unusable format or type; does nothing when the attachments are the stored ones and the
     * stencil flag is as last applied; otherwise stores them and runs `update`.
     */
    method SetTextures(colors: ColorArg, depth: Option<Attachment>, undefinedDepth: bool, skipDisable: bool,
                       reg: FramebufferStatics, status: int) returns (outcome: Outcome)
      requires Valid()
      modifies this`colorTextures, this`depthTexture, this`depthUndefined, this`width, this`height, this`previousFramebuffer, this`handle,
               this`order, this`colorRenderbuffer, this`numBoundTextures, this`stencilEnabled,
               previousViewport, reg, gl`log, gl`nextHandle
      ensures Valid()
      ensures old(DepthArgError(depth)).Some? ==>
        outcome == Threw(old(DepthArgError(depth)).value) && gl.log == old(gl.log) &&
        colorTextures == old(colorTextures) && depthTexture == old(depthTexture) && depthUndefined == old(depthUndefined)
      ensures (old(DepthArgError(depth)).None? &&
               old(SameDepth(depth, undefinedDepth)) && SameColors(colors, old(colorTextures)) && old(stencilEnabled) == old(stencil)) ==>
        outcome == Done && gl.log == old(gl.log) && colorTextures == old(colorTextures) &&
        depthTexture == old(depthTexture) && depthUndefined == old(depthUndefined)
      ensures (old(DepthArgError(depth)).None? &&
               !(old(SameDepth(depth, undefinedDepth)) && SameColors(colors, old(colorTextures)) && old(stencilEnabled) == old(stencil))) ==>
        colorTextures == ColorSlots(colors) && depthTexture == depth && depthUndefined == undefinedDepth &&
        Updated(old(Snapshot(reg)), old(SlotViews(ColorSlots(colors))), old(SlotView(depth)), skipDisable, reg, status, outcome)
    {
      var e := DepthArgError(depth);
      if e.Some? {
        return Threw(e.value);
      }
      var same := Unchanged(colors, depth, undefinedDepth);
      if same {
        return Done;
      }
      assert Snapshot(reg) == old(Snapshot(reg));
      assert SlotViews(ColorSlots(colors)) == old(SlotViews(ColorSlots(colors)));
      assert SlotView(depth) == old(SlotView(depth));
      outcome := StoreAndUpdate(colors, depth, undefinedDepth, skipDisable, reg, status);
    }

    /** The last part of `setTextures`: store the new attachments and run `update`. */
    method StoreAndUpdate(colors: ColorArg, depth: Option<Attachment>, undefinedDepth: bool, skipDisable: bool,
                          reg: FramebufferStatics, status: int) returns (outcome: Outcome)
      requires Valid()
      modifies this`colorTextures, this`depthTexture, this`depthUndefined, this`width, this`height, this`previousFramebuffer, this`handle,
               this`order, this`colorRenderbuffer, this`numBoundTextures, this`stencilEnabled,
               previousViewport, reg, gl`log, gl`nextHandle
      ensures Valid() && colorTextures == ColorSlots(colors) && depthTexture == depth && depthUndefined == undefinedDepth
      ensures Updated(old(Snapshot(reg)), old(SlotViews(ColorSlots(colors))), old(SlotView(depth)), skipDisable, reg, status, outcome)
    {
      StoreColors(colors);
      depthTexture := depth;
      depthUndefined := undefinedDepth;
      assert ColorViews() == old(SlotViews(ColorSlots(colors))) && DepthView() == old(SlotView(depth));
      assert Snapshot(reg) == old(Snapshot(reg));
      outcome := Update(skipDisable, reg, status);
    }

    /** The comparison of `setTextures`: the same attachments, and the stencil flag as last applied. */
    method Unchanged(colors: ColorArg, depth: Option<Attachment>, undefinedDepth: bool) returns (same: bool)
      ensures same <==> SameDepth(depth, undefinedDepth) && SameColors(colors, colorTextures) && stencilEnabled == stencil
    {
      same := SameDepth(depth, undefinedDepth);
      if same && !colors.NoColors? {
        if NumColors(colors) == |colorTextures| {
          if colors.ColorList? {
            same := MatchesList(colors.items);
          } else if colorTextures[0] != Some(colors.item) {
            same := false;
          }
        } else {
          same := false;
        }
      }
      if stencilEnabled != stencil {
        same := false;
      }
    }

    /** The depth part of `update`: detach both depth slots, then attach the depth object. */
    method AttachDepth(target: int, dv: Option<AttachmentView>, w: int, h: int) returns (outcome: Outcome)
      modifies gl`log
      ensures DepthUnsupported(dv, gl.webglVersion, gl.extensions) ==>
        outcome == Threw(DEPTH_TEXTURE_ERROR) &&
        gl.log == old(gl.log) + [FramebufferRenderbuffer(target, DEPTH_ATTACHMENT, None),
                                 FramebufferRenderbuffer(target, DEPTH_STENCIL_ATTACHMENT, None)]
      ensures !DepthUnsupported(dv, gl.webglVersion, gl.extensions) ==>
        outcome == Done && gl.log == old(gl.log) + DepthCalls(target, dv, w, h, stencil)
    {
      outcome := Done;
      gl.Call(FramebufferRenderbuffer(target, DEPTH_ATTACHMENT, None));
      gl.Call(FramebufferRenderbuffer(target, DEPTH_STENCIL_ATTACHMENT, None));
      if dv.Some? && dv.value.isTexture {
        if gl.webglVersion == 1 && !gl.extensions.depthTexture {
          return Threw(DEPTH_TEXTURE_ERROR);
        }
        var point := if dv.value.format == DEPTH_STENCIL then DEPTH_STENCIL_ATTACHMENT else DEPTH_ATTACHMENT;
        gl.Call(FramebufferTexture2D(target, point, TEXTURE_2D, dv.value.handle, 0));
      } else if dv.Some? && dv.value.width == w && dv.value.height == h {
        gl.Call(BindRenderbuffer(dv.value.handle));
        gl.Call(FramebufferRenderbuffer(target, if stencil then DEPTH_STENCIL_ATTACHMENT else DEPTH_ATTACHMENT, dv.value.handle));
      }
    }

    /** The color loop of `update`: each attachment goes to its slot, and the order lists the slots. */
    method AttachColorList(target: int, vs: seq<Option<AttachmentView>>)
      requires |vs| > 0 && forall i :: 0 <= i < |vs| ==> vs[i].Some?
      modifies this`order, gl`log
      ensures order == Some(AttachmentOrder(|vs|))
      ensures gl.log == old(gl.log) + ColorCalls(target, vs, |vs|)
    {
      var o := [];
      var i := 0;
      while i < |vs|
        invariant 0 <= i <= |vs|
        invariant o == AttachmentOrder(i)
        invariant gl.log == old(gl.log) + ColorCalls(target, vs, i)
        modifies gl`log
      {
        gl.Call(ColorCall(target, i, vs[i].value));
        o := o + [COLOR_ATTACHMENT0 + i];
        i := i + 1;
      }
      order := Some(o);
    }

    /** Without color attachments, `update` attaches a color renderbuffer, made once and then kept. */
    method AttachColorRenderbuffer(target: int, w: int, h: int)
      modifies this`colorRenderbuffer, gl`log, gl`nextHandle
      ensures colorRenderbuffer != null
      ensures old(colorRenderbuffer) != null ==> colorRenderbuffer == old(colorRenderbuffer)
      ensures old(colorRenderbuffer) == null ==>
        fresh(colorRenderbuffer) && colorRenderbuffer.handle == Some(old(gl.nextHandle))
      ensures gl.log == old(gl.log) +
        ColorRenderbufferCalls(target, old(colorRenderbuffer) == null, colorRenderbuffer.handle, w, h)
    {
      if colorRenderbuffer == null {
        colorRenderbuffer := new GLRenderbuffer(gl, Some(w), Some(h), Some(RGBA4), None);
      }
      gl.Call(FramebufferRenderbuffer(target, COLOR_ATTACHMENT0, colorRenderbuffer.handle));
    }

    /** The detach loop of `update`: slots from `num` up to the previous count, then the new count. */
    method DetachStale(target: int, num: int)
      modifies this`numBoundTextures, gl`log
      ensures numBoundTextures == num
      ensures gl.log == old(gl.log) + DetachCalls(target, num, old(numBoundTextures))
    {
      var stop := numBoundTextures;
      var i := num;
      while i < stop
        invariant i == num || num <= i <= stop
        invariant gl.log == old(gl.log) + DetachCalls(target, num, i)
        modifies gl`log
      {
        gl.Call(FramebufferRenderbuffer(target, COLOR_ATTACHMENT0 + i, None));
        gl.Call(FramebufferTexture2D(target, COLOR_ATTACHMENT0 + i, TEXTURE_2D, None, 0));
        i := i + 1;
      }
      numBoundTextures := num;
    }

    /** The color part of `update`: the attachments, or else the color renderbuffer. */
    method AttachColors(target: int, vs: seq<Option<AttachmentView>>, w: int, h: int)
      requires Valid() && forall i :: 0 <= i < |vs| ==> vs[i].Some?
      modifies this`order, this`colorRenderbuffer, gl`log, gl`nextHandle
      ensures Valid()
      ensures ColorsKept(old(order), old(colorRenderbuffer), old(gl.nextHandle), |vs|)
      ensures gl.log == old(gl.log) +
        ColorPart(target, vs, old(colorRenderbuffer) == null, ColorRenderbufferHandle(), w, h)
    {
      if |vs| > 0 {
        AttachColorList(target, vs);
      } else {
        AttachColorRenderbuffer(target, w, h);
      }
    }

    /**
     * Everything `update` issues after binding up to the completeness check: depth, colors,
     * detaching stale slots, and the draw buffers of several color attachments.
     */
    method AttachAll(target: int, vs: seq<Option<AttachmentView>>, dv: Option<AttachmentView>, w: int, h: int)
      returns (outcome: Outcome)
      requires Valid() && forall i :: 0 <= i < |vs| ==> vs[i].Some?
      modifies this`order, this`colorRenderbuffer, this`numBoundTextures, this`stencilEnabled, gl`log, gl`nextHandle
      ensures Valid()
      ensures DepthUnsupported(dv, gl.webglVersion, gl.extensions) ==>
        outcome == Threw(DEPTH_TEXTURE_ERROR) && order == old(order) && colorRenderbuffer == old(colorRenderbuffer) &&
        gl.log == old(gl.log) + [FramebufferRenderbuffer(target, DEPTH_ATTACHMENT, None),
                                 FramebufferRenderbuffer(target, DEPTH_STENCIL_ATTACHMENT, None)]
      ensures !DepthUnsupported(dv, gl.webglVersion, gl.extensions) ==>
        outcome == Done &&
        numBoundTextures == |vs| && stencilEnabled == stencil &&
        ColorsKept(old(order), old(colorRenderbuffer), old(gl.nextHandle), |vs|) &&
        gl.log == old(gl.log) +
          UpdateCalls(target, vs, dv, w, h, stencil, old(numBoundTextures), gl.extensions.drawBuffers,
                      old(colorRenderbuffer) == null, ColorRenderbufferHandle())
    {
      outcome := AttachDepth(target, dv, w, h);
      if outcome.Threw? {
        return;
      }
      ghost var afterDepth := gl.log;
      AttachRest(target, vs, w, h);
      AppendAssociates(old(gl.log), DepthCalls(target, dv, w, h, stencil),
        RestCalls(target, vs, w, h, old(numBoundTextures), gl.extensions.drawBuffers,
                  old(colorRenderbuffer) == null, ColorRenderbufferHandle()));
    }

    /** `update` after the depth part: colors, stale slots, draw buffers and the completeness check. */
    method AttachRest(target: int, vs: seq<Option<AttachmentView>>, w: int, h: int)
      requires Valid() && forall i :: 0 <= i < |vs| ==> vs[i].Some?
      modifies this`order, this`colorRenderbuffer, this`numBoundTextures, this`stencilEnabled, gl`log, gl`nextHandle
      ensures Valid()
      ensures numBoundTextures == |vs| && stencilEnabled == stencil
      ensures ColorsKept(old(order), old(colorRenderbuffer), old(gl.nextHandle), |vs|)
      ensures gl.log == old(gl.log) +
        RestCalls(target, vs, w, h, old(numBoundTextures), gl.extensions.drawBuffers,
                  old(colorRenderbuffer) == null, ColorRenderbufferHandle())
    {
      AttachColors(target, vs, w, h);
      ghost var afterColors := gl.log;
      ghost var colors := ColorPart(target, vs, old(colorRenderbuffer) == null, ColorRenderbufferHandle(), w, h);
      DetachStale(target, |vs|);
      stencilEnabled := stencil;
      ghost var afterDetach := gl.log;
      ghost var detach := DetachCalls(target, |vs|, old(numBoundTextures));
      ghost var tail := (if |vs| > 1 then [DrawBuffers(AttachmentOrder(|vs|), gl.extensions.drawBuffers)] else []) +
        [CheckFramebufferStatus(target)];
      if |vs| > 1 {
        gl.Call(DrawBuffers(order.value, gl.extensions.drawBuffers));
      }
      gl.Call(CheckFramebufferStatus(target));
      assert gl.log == afterDetach + tail;
      AppendAssociates4(old(gl.log), colors, detach, tail);
    }

    /**
     * The end of `update`: an incomplete framebuffer is unbound and refused; otherwise the
     * texture and renderbuffer bindings are cleared and, unless asked not to, it is unbound.
     */
    method Finish(skipDisable: bool, reg: FramebufferStatics, status: int) returns (outcome: Outcome)
      requires reg.active != null && None !in colorTextures
      modifies reg`active, gl`log
      ensures outcome == (if status == FRAMEBUFFER_COMPLETE then Done else Threw("FBO not complete: " + StatusText(status)))
      ensures reg.active == (if status == FRAMEBUFFER_COMPLETE && skipDisable then old(reg.active) else previousFramebuffer)
      ensures gl.log == old(gl.log) + FinishCalls(skipDisable, status, PreviousHandle())
    {
      if status != FRAMEBUFFER_COMPLETE {
        var _ := Unbind(reg);
        return Threw("FBO not complete: " + StatusText(status));
      }
      gl.Call(BindTexture(TEXTURE_2D, None));
      gl.Call(BindRenderbuffer(None));
      outcome := Done;
      if !skipDisable {
        var _ := Unbind(reg);
      }
    }

    /** The state `update` starts from, besides the attachments it reads. */
    function Snapshot(reg: FramebufferStatics): (b: Before)
      reads this, reg, gl
      ensures b.log == gl.log && b.active == reg.active
    {
      Before(gl.log, width, height, reg.active, numBoundTextures, order, colorRenderbuffer, gl.nextHandle)
    }

    /**
     * The order and color renderbuffer after `update`'s color part for `n` color attachments,
     * from the order `o` and renderbuffer `rb` before, with WebGL's next handle then `next`:
     * with attachments the order lists their slots and the renderbuffer is untouched; without,
     * the order is kept and there is a color renderbuffer, the old one or else a new one whose
     * handle was handed out after `next`.
     */
    ghost predicate ColorsKept(o: Option<seq<int>>, rb: GLRenderbuffer?, next: Handle, n: nat)
      reads this, colorRenderbuffer
    {
      (n > 0 ==> order == Some(AttachmentOrder(n)) && colorRenderbuffer == rb) &&
      (n == 0 ==>
        order == o && colorRenderbuffer != null &&
        (rb != null ==> colorRenderbuffer == rb) &&
        (rb == null ==> colorRenderbuffer.handle.Some? && colorRenderbuffer.handle.value >= next))
    }

    /**
     * What `update` leaves, started from `b`, given the views `vs` of the color attachments
     * and `dv` of the depth attachment it reads. A failed scan throws before any call,
     * changing neither size nor active framebuffer. Otherwise the size becomes the measured
     * one and the framebuffer is bound; a depth texture WebGL 1 cannot use then throws after
     * the depth slots are cleared, and in every other case all attachments are made, the
     * status is checked, and the previous framebuffer is bound back unless the framebuffer
     * stays active.
     */
    ghost predicate Updated(b: Before, vs: seq<Option<AttachmentView>>, dv: Option<AttachmentView>, skipDisable: bool,
                            reg: FramebufferStatics, status: int, outcome: Outcome)
      reads this, reg, gl, previousFramebuffer, colorRenderbuffer
    {
      var m := Measure(vs, dv, gl.webglVersion == 1 && !gl.extensions.drawBuffers);
      (m.ScanFailed? ==>
        outcome == Threw(m.message) && gl.log == b.log &&
        width == b.width && height == b.height && reg.active == b.active) &&
      ((m.ScanFailed? || DepthUnsupported(dv, gl.webglVersion, gl.extensions)) ==>
        order == b.order && colorRenderbuffer == b.colorRenderbuffer) &&
      (m.Scanning? ==>
        width == m.w && height == m.h &&
        (b.active != this ==> previousFramebuffer == b.active)) &&
      ((m.Scanning? && DepthUnsupported(dv, gl.webglVersion, gl.extensions)) ==>
        outcome == Threw(DEPTH_TEXTURE_ERROR) && reg.active == this &&
        gl.log == b.log + BindCalls(b.active == this, handle) +
          [FramebufferRenderbuffer(Target(), DEPTH_ATTACHMENT, None),
           FramebufferRenderbuffer(Target(), DEPTH_STENCIL_ATTACHMENT, None)]) &&
      ((m.Scanning? && !DepthUnsupported(dv, gl.webglVersion, gl.extensions)) ==>
        numBoundTextures == |vs| && stencilEnabled == stencil &&
        ColorsKept(b.order, b.colorRenderbuffer, b.nextHandle, |vs|) &&
        outcome == (if status == FRAMEBUFFER_COMPLETE then Done else Threw("FBO not complete: " + StatusText(status))) &&
        reg.active == (if status == FRAMEBUFFER_COMPLETE && skipDisable then this else previousFramebuffer) &&
        gl.log == b.log + BindCalls(b.active == this, handle) +
          UpdateCalls(Target(), vs, dv, m.w, m.h, stencil, b.numBoundTextures,
                      gl.extensions.drawBuffers, b.colorRenderbuffer == null, ColorRenderbufferHandle()) +
          FinishCalls(skipDisable, status, PreviousHandle()))
    }

    /**
     * `update(skipDisable)`: measures the attachments (or throws), records the size, binds,
     * attaches depth and color, detaches the slots beyond the new count, sets the draw buffers
     * of several color attachments, and checks completeness with the driver's `status`; then
     * unbinds, unless asked not to (an incomplete framebuffer is unbound and refused).
     */
    method Update(skipDisable: bool, reg: FramebufferStatics, status: int) returns (outcome: Outcome)
      requires Valid()
      modifies this`width, this`height, this`previousFramebuffer, this`handle, this`order, this`colorRenderbuffer,
               this`numBoundTextures, this`stencilEnabled, previousViewport, reg, gl`log, gl`nextHandle
      ensures Valid()
      ensures Updated(old(Snapshot(reg)), old(ColorViews()), old(DepthView()), skipDisable, reg, status, outcome)
    {
      var vs := ColorViews();
      var dv := DepthView();
      var m := Measure(vs, dv, gl.webglVersion == 1 && !gl.extensions.drawBuffers);
      if m.ScanFailed? {
        return Threw(m.message);
      }
      assert None !in colorTextures by {
        forall i | 0 <= i < |colorTextures|
          ensures colorTextures[i].Some?
        {
          assert vs[i].Some?;
        }
      }
      width := m.w;
      height := m.h;
      outcome := BindAndAttach(vs, dv, m.w, m.h, skipDisable, reg, status);
    }

    /** `update` once the size is known: bind, attach everything, and finish with the driver's `status`. */
    method BindAndAttach(vs: seq<Option<AttachmentView>>, dv: Option<AttachmentView>, w: int, h: int,
                         skipDisable: bool, reg: FramebufferStatics, status: int) returns (outcome: Outcome)
      requires Valid() && None !in colorTextures && forall i :: 0 <= i < |vs| ==> vs[i].Some?
      modifies this`previousFramebuffer, this`handle, this`order, this`colorRenderbuffer,
               this`numBoundTextures, this`stencilEnabled, previousViewport, reg, gl`log, gl`nextHandle
      ensures Valid()
      ensures old(reg.active) != this ==> previousFramebuffer == old(reg.active)
      ensures DepthUnsupported(dv, gl.webglVersion, gl.extensions) ==>
        outcome == Threw(DEPTH_TEXTURE_ERROR) && reg.active == this &&
        order == old(order) && colorRenderbuffer == old(colorRenderbuffer) &&
        gl.log == old(gl.log) + BindCalls(old(reg.active) == this, handle) +
          [FramebufferRenderbuffer(Target(), DEPTH_ATTACHMENT, None),
           FramebufferRenderbuffer(Target(), DEPTH_STENCIL_ATTACHMENT, None)]
      ensures !DepthUnsupported(dv, gl.webglVersion, gl.extensions) ==>
        numBoundTextures == |vs| && stencilEnabled == stencil &&
        ColorsKept(old(order), old(colorRenderbuffer), old(gl.nextHandle), |vs|) &&
        outcome == (if status == FRAMEBUFFER_COMPLETE then Done else Threw("FBO not complete: " + StatusText(status))) &&
        reg.active == (if status == FRAMEBUFFER_COMPLETE && skipDisable then this else previousFramebuffer) &&
        gl.log == old(gl.log) + BindCalls(old(reg.active) == this, handle) +
          UpdateCalls(Target(), vs, dv, w, h, stencil, old(numBoundTextures),
                      gl.extensions.drawBuffers, old(colorRenderbuffer) == null, ColorRenderbufferHandle()) +
          FinishCalls(skipDisable, status, PreviousHandle())
    {
      var _ := Bind(reg);
      ghost var bound := gl.log;
      assert bound == old(gl.log) + BindCalls(old(reg.active) == this, handle);
      ghost var oldNum := numBoundTextures;
      ghost var created := colorRenderbuffer == null;
      outcome := AttachAll(Target(), vs, dv, w, h);
      if outcome.Threw? {
        return;
      }
      ghost var attached := gl.log;
      assert attached == bound + UpdateCalls(Target(), vs, dv, w, h, stencil, oldNum,
        gl.extensions.drawBuffers, created, ColorRenderbufferHandle());
      outcome := Finish(skipDisable, reg, status);
      assert gl.log == attached + FinishCalls(skipDisable, status, PreviousHandle());
    }
  }

  /** The bind call of `bind()` unless the framebuffer is already active. */
  function BindCalls(active: bool, handle: Option<Handle>): seq<GLCall>
  {
    if active then [] else [BindFramebuffer(FRAMEBUFFER, handle)]
  }

  /** The color renderbuffer's allocation (when made now) and its attachment to slot 0. */
  function ColorRenderbufferCalls(target: int, created: bool, rb: Option<Handle>, w: int, h: int): seq<GLCall>
  {
    (if created && rb.Some? then AllocationCalls(rb.value, 1, RGBA4, if w != 0 then w else 1, if h != 0 then h else 1) else []) +
    [FramebufferRenderbuffer(target, COLOR_ATTACHMENT0, rb)]
  }

  /** The color part of `update`'s calls. */
  function ColorPart(target: int, vs: seq<Option<AttachmentView>>, created: bool, rb: Option<Handle>, w: int, h: int): seq<GLCall>
    requires forall i :: 0 <= i < |vs| ==> vs[i].Some?
  {
    if |vs| > 0 then ColorCalls(target, vs, |vs|) else ColorRenderbufferCalls(target, created, rb, w, h)
  }

  /**
   * What `update` issues between binding and the end: depth, colors, stale detaches, the
   * draw buffers of several attachments, and the completeness check.
   */
  function UpdateCalls(target: int, vs: seq<Option<AttachmentView>>, dv: Option<AttachmentView>, w: int, h: int,
                       stencil: bool, oldNum: int, ext: bool, created: bool, rb: Option<Handle>): seq<GLCall>
    requires forall i :: 0 <= i < |vs| ==> vs[i].Some?
  {
    DepthCalls(target, dv, w, h, stencil) + RestCalls(target, vs, w, h, oldNum, ext, created, rb)
  }

  /** The calls of `update` after the depth part, up to the completeness check. */
  function RestCalls(target: int, vs: seq<Option<AttachmentView>>, w: int, h: int,
                     oldNum: int, ext: bool, created: bool, rb: Option<Handle>): seq<GLCall>
    requires forall i :: 0 <= i < |vs| ==> vs[i].Some?
  {
    ColorPart(target, vs, created, rb, w, h) + DetachCalls(target, |vs|, oldNum) +
    ((if |vs| > 1 then [DrawBuffers(AttachmentOrder(|vs|), ext)] else []) + [CheckFramebufferStatus(target)])
  }

  /** The end of `update`: the bindings cleared on success, and the unbind unless skipped (always on failure). */
  function FinishCalls(skipDisable: bool, status: int, previous: Option<Handle>): seq<GLCall>
  {
    (if status == FRAMEBUFFER_COMPLETE then [BindTexture(TEXTURE_2D, None), BindRenderbuffer(None)] else []) +
    (if status != FRAMEBUFFER_COMPLETE || !skipDisable then [BindFramebuffer(FRAMEBUFFER, previous)] else [])
  }

  lemma AppendAssociates4<T>(a: seq<T>, b: seq<T>, c: seq<T>, d: seq<T>)
    ensures a + b + c + d == a + (b + c + d)
  {
  }

  lemma AppendAssociates<T>(a: seq<T>, b: seq<T>, c: seq<T>)
    ensures a + b + c == a + (b + c)
  {
  }

  /**
   * The attachment point `attach` uses is `attachment || COLOR_ATTACHMENT0`: an absent point
   * and the falsy point 0 both mean COLOR_ATTACHMENT0, and any other point is kept.
   */
  lemma AttachPoint(attachment: Option<int>)
    ensures attachment.None? || attachment.value == 0 ==> OrElse(attachment, COLOR_ATTACHMENT0) == COLOR_ATTACHMENT0
    ensures attachment.Some? && attachment.value != 0 ==> OrElse(attachment, COLOR_ATTACHMENT0) == attachment.value
  {
  }

  /**
   * `toMulti` as written never restores the draw buffers `update` set: for n >= 2 color
   * attachments the order holds n attachments starting at COLOR_ATTACHMENT0, which `ToMulti`
   * passes on whole, while `ToMultiAsWritten` throws for every such framebuffer and reaches
   * no WebGL call, so drawing stays on the first attachment after `toSingle`.
   */
  lemma ToMultiAsWrittenLosesOrder(n: nat)
    requires n >= 2
    ensures var order := AttachmentOrder(n);
      |order| == n && order[0] == COLOR_ATTACHMENT0 && order[1] == COLOR_ATTACHMENT0 + 1 && order != [order[0]]
  {
  }
}
