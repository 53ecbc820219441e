/**
 * The resource manager (`GLResourceManager`) of a context: pools of textures and of
 * framebuffers that are handed out (`used`) and given back (`available`) for reuse by size,
 * named resources, and the lazily made fullscreen mesh and blit shader.
 */
module GLResourceManagers {
  import opened Wrappers
  import opened GL
  import opened GLContexts
  import opened GLTextures
  import opened GLFramebuffers
  import opened GLMeshes
  import opened GLShaders
  import opened OrderedMaps

  // ---------------------------------------------------------------- pools as sequences

  /** No object occurs twice. */
  predicate NoRepeats<T(==)>(s: seq<T>)
  {
    forall i, j :: 0 <= i < j < |s| ==> s[i] != s[j]
  }

  /**
   * The discipline of a pool: neither list repeats an object, and no object is both
   * available and used.
   */
  predicate Pool<T(==)>(available: seq<T>, used: seq<T>)
  {
    NoRepeats(available) && NoRepeats(used) && forall x :: x in available ==> x !in used
  }

  /** `splice(i, 1)`: the list without its element at `i`. */
  function RemoveAt<T>(s: seq<T>, i: nat): (r: seq<T>)
    requires i < |s|
    ensures |r| == |s| - 1
    ensures forall j :: 0 <= j < |r| ==> r[j] == (if j < i then s[j] else s[j + 1])
    ensures multiset(r) + multiset{s[i]} == multiset(s)
  {
    assert s == s[..i] + [s[i]] + s[i + 1..];
    s[..i] + s[i + 1..]
  }

  /** Moving an element from one list of a pool to the end of the other keeps the discipline. */
  lemma {:induction false} MoveKeepsPool<T>(from: seq<T>, to: seq<T>, i: nat)
    requires i < |from| && (Pool(from, to) || Pool(to, from))
    ensures Pool(RemoveAt(from, i), to + [from[i]]) && Pool(to + [from[i]], RemoveAt(from, i))
  {
    var x := from[i];
    var r := RemoveAt(from, i);
    assert NoRepeats(from) && NoRepeats(to);
    assert forall y :: y in from ==> y !in to;
    forall y | y in r
      ensures y in from
    {
      var j :| 0 <= j < |r| && r[j] == y;
      assert y == from[if j < i then j else j + 1];
    }
    assert NoRepeats(r) by {
      forall a, b | 0 <= a < b < |r|
        ensures r[a] != r[b]
      {
        var a' := if a < i then a else a + 1;
        var b' := if b < i then b else b + 1;
        assert a' < b' && r[a] == from[a'] && r[b] == from[b'];
      }
    }
    assert NoRepeats(to + [x]) by {
      forall a, b | 0 <= a < b < |to + [x]|
        ensures (to + [x])[a] != (to + [x])[b]
      {
        if b < |to| {
          assert (to + [x])[a] == to[a] && (to + [x])[b] == to[b];
        } else {
          assert (to + [x])[a] == to[a] && to[a] in to;
        }
      }
    }
    forall y | y in to + [x]
      ensures y !in r
    {
      if y in to {
        assert y !in from;
      }
    }
  }

  /** Adding an object that is in neither list to the used list keeps the discipline. */
  lemma {:induction false} AddKeepsPool<T>(available: seq<T>, used: seq<T>, x: T)
    requires Pool(available, used) && x !in available && x !in used
    ensures Pool(available, used + [x])
  {
    assert NoRepeats(used + [x]) by {
      forall a, b | 0 <= a < b < |used + [x]|
        ensures (used + [x])[a] != (used + [x])[b]
      {
        if b < |used| {
          assert (used + [x])[a] == used[a] && (used + [x])[b] == used[b];
        } else {
          assert (used + [x])[a] == used[a] && used[a] in used;
        }
      }
    }
  }

  /** The first position of `x`, or none. */
  function FirstIndexOf<T(==)>(s: seq<T>, x: T): (r: Option<nat>)
    ensures r.Some? ==> r.value < |s| && s[r.value] == x && x !in s[..r.value]
    ensures r.None? <==> x !in s
  {
    if s == [] then None
    else if s[0] == x then Some(0)
    else
      var r := FirstIndexOf(s[1..], x);
      if r.None? then None
      else
        assert s[..r.value + 1] == [s[0]] + s[1..][..r.value];
        Some(r.value + 1)
  }

  /** The identity search of `releaseTexture` and `releaseFramebuffer`. */
  method PositionOf<T(==)>(s: seq<T>, x: T) returns (k: Option<nat>)
    ensures k == FirstIndexOf(s, x)
  {
    var i := 0;
    while i < |s|
      invariant 0 <= i <= |s| && x !in s[..i]
    {
      if s[i] == x {
        return Some(i);
      }
      assert s[..i + 1] == s[..i] + [s[i]];
      i := i + 1;
    }
    assert s[..i] == s;
    return None;
  }

  /** The first position holding the size `(w, h)`, or none. */
  function FirstSized(sizes: seq<(int, int)>, w: int, h: int): (r: Option<nat>)
    ensures r.Some? ==> r.value < |sizes| && sizes[r.value] == (w, h) &&
                        forall j :: 0 <= j < r.value ==> sizes[j] != (w, h)
    ensures r.None? <==> forall j :: 0 <= j < |sizes| ==> sizes[j] != (w, h)
  {
    if sizes == [] then None
    else if sizes[0] == (w, h) then Some(0)
    else
      var r := FirstSized(sizes[1..], w, h);
      if r.None? then None else Some(r.value + 1)
  }

  /** The sizes of pooled textures. */
  function TextureSizes(ts: seq<GLTexture>): seq<(int, int)>
    reads set t | t in ts
  {
    seq(|ts|, i requires 0 <= i < |ts| reads set t | t in ts => (ts[i].width, ts[i].height))
  }

  /** The sizes of pooled framebuffers. */
  function FramebufferSizes(fs: seq<GLFramebuffer>): seq<(int, int)>
    reads set f | f in fs
  {
    seq(|fs|, i requires 0 <= i < |fs| reads set f | f in fs => (fs[i].width, fs[i].height))
  }

  /** The options `{ width, height }` with which the manager makes a texture. */
  function SizeOptions(w: int, h: int): TextureOptions
  {
    TextureOptions(None, None, None, None, None, None, None, None, None, None, false, None, None,
                   Some(w), None, Some(h), None, None, None, false)
  }

  /** The handle of an attachment object. */
  function AttachmentHandle(a: Attachment): Option<Handle>
    reads ObjectOf(a)
  {
    match a
    case TextureAttachment(t) => t.handle
    case RenderbufferAttachment(r) => r.handle
  }

  /** The handle of a framebuffer's first color attachment; none when there is no such attachment. */
  function FirstColorHandle(fb: GLFramebuffer): Option<Option<Handle>>
    reads fb, if |fb.colorTextures| > 0 && fb.colorTextures[0].Some? then {ObjectOf(fb.colorTextures[0].value)} else {}
  {
    if |fb.colorTextures| > 0 && fb.colorTextures[0].Some? then Some(AttachmentHandle(fb.colorTextures[0].value))
    else None
  }

  /** The outcome of the search of `releaseFramebufferTexture`. */
  datatype ColorMatch = MatchAt(index: nat) | NoMatch | MissingColor(index: nat)

  /** The first color handles of a list of framebuffers (none for one without that attachment). */
  function FirstColorHandles(fs: seq<GLFramebuffer>): (hs: seq<Option<Option<Handle>>>)
    reads set f | f in fs,
          set f | f in fs && |f.colorTextures| > 0 && f.colorTextures[0].Some? :: ObjectOf(f.colorTextures[0].value)
    ensures |hs| == |fs| && forall i :: 0 <= i < |fs| ==> hs[i] == FirstColorHandle(fs[i])
  {
    seq(|fs|, i requires 0 <= i < |fs|
      reads set f | f in fs,
            set f | f in fs && |f.colorTextures| > 0 && f.colorTextures[0].Some? :: ObjectOf(f.colorTextures[0].value)
      => FirstColorHandle(fs[i]))
  }

  /**
   * The search of `releaseFramebufferTexture` over first color handles: the first position
   * holding `h`, unless a position without an attachment comes before it.
   */
  function ColorSearch(hs: seq<Option<Option<Handle>>>, h: Option<Handle>): (r: ColorMatch)
    ensures !r.NoMatch? ==> r.index < |hs|
    ensures r.MatchAt? ==> hs[r.index] == Some(h)
    ensures r.MissingColor? ==> hs[r.index].None?
    ensures forall j :: 0 <= j < (if r.NoMatch? then |hs| else r.index) ==> hs[j].Some? && hs[j] != Some(h)
  {
    if hs == [] then NoMatch
    else if hs[0].None? then MissingColor(0)
    else if hs[0] == Some(h) then MatchAt(0)
    else
      match ColorSearch(hs[1..], h)
      case NoMatch => NoMatch
      case MatchAt(k) => MatchAt(k + 1)
      case MissingColor(k) => MissingColor(k + 1)
  }

  /** Any outcome that meets the contract of `ColorSearch` is its outcome. */
  lemma ColorSearchUnique(hs: seq<Option<Option<Handle>>>, h: Option<Handle>, r: ColorMatch)
    requires !r.NoMatch? ==> r.index < |hs|
    requires r.MatchAt? ==> hs[r.index] == Some(h)
    requires r.MissingColor? ==> hs[r.index].None?
    requires forall j :: 0 <= j < (if r.NoMatch? then |hs| else r.index) ==> hs[j].Some? && hs[j] != Some(h)
    ensures r == ColorSearch(hs, h)
  {
  }

  /** What `destroy` throws on reaching the fullscreen mesh: `GLMesh` defines no `destroy`. */
  const MESH_DESTROY_ERROR := "this._fullscreenMesh.destroy is not a function"

  /** What `releaseFramebufferTexture` throws on a framebuffer without a first color attachment. */
  const NO_HANDLE_ERROR := "Cannot read properties of undefined (reading 'handle')"

  // ---------------------------------------------------------------- destroy

  /** The framebuffer and texture pools together, each without repeats, make a list without repeats. */
  lemma {:induction false} PoolDistinct<T>(available: seq<T>, used: seq<T>)
    requires Pool(available, used)
    ensures NoRepeats(available + used)
  {
    var s := available + used;
    forall i, j | 0 <= i < j < |s|
      ensures s[i] != s[j]
    {
      if j < |available| {
        assert s[i] == available[i] && s[j] == available[j];
      } else if i >= |available| {
        assert s[i] == used[i - |available|] && s[j] == used[j - |available|];
      } else {
        assert s[i] == available[i] && s[i] in available && s[j] == used[j - |available|] && s[j] in used;
      }
    }
  }

  /** The fields of a framebuffer that `destroy` writes, as one value. */
  datatype FramebufferState = FramebufferState(handle: Option<Handle>, width: int, height: int,
                                               colorTextures: seq<Option<Attachment>>, depthTexture: Option<Attachment>,
                                               depthUndefined: bool, stencil: bool)

  function StateOf(f: GLFramebuffer): FramebufferState
    reads f
  {
    FramebufferState(f.handle, f.width, f.height, f.colorTextures, f.depthTexture, f.depthUndefined, f.stencil)
  }

  /** What the framebuffer loops of `destroy` need to know of one framebuffer, read before they start. */
  datatype FramebufferBefore = FramebufferBefore(handle: Option<Handle>, hole: bool, previous: GLFramebuffer?,
                                                 previousAt: Option<nat>, previousHandle: Option<Handle>,
                                                 state: FramebufferState)

  /**
   * `f` as one of `fs`: its handle, whether it has a hole, the framebuffer it saved, with that
   * one's place in `fs` and handle, and the fields `destroy` writes.
   */
  function BeforeOf(f: GLFramebuffer, fs: seq<GLFramebuffer>): FramebufferBefore
    reads f, f.previousFramebuffer
  {
    var p := f.previousFramebuffer;
    FramebufferBefore(f.handle, None in f.colorTextures, p, if p != null then FirstIndexOf(fs, p) else None, f.PreviousHandle(),
                      StateOf(f))
  }

  function Befores(fs: seq<GLFramebuffer>): (bs: seq<FramebufferBefore>)
    reads set f | f in fs, set f | f in fs :: f.previousFramebuffer
    ensures |bs| == |fs| && forall i :: 0 <= i < |fs| ==> bs[i] == BeforeOf(fs[i], fs)
    ensures Coherent(fs, bs)
  {
    seq(|fs|, i requires 0 <= i < |fs| reads set f | f in fs, set f | f in fs :: f.previousFramebuffer => BeforeOf(fs[i], fs))
  }

  /**
   * Read at one time: the handle and the hole are those of the recorded fields, and the saved
   * framebuffer is at its recorded place in `fs`, with the handle recorded there.
   */
  predicate Coherent(fs: seq<GLFramebuffer>, bs: seq<FramebufferBefore>)
    requires |bs| == |fs|
  {
    forall i :: 0 <= i < |fs| ==>
      var k := bs[i].previousAt;
      bs[i].handle == bs[i].state.handle && bs[i].hole == (None in bs[i].state.colorTextures) &&
      (k.Some? ==> k.value < |fs| && fs[k.value] == bs[i].previous && bs[k.value].handle == bs[i].previousHandle) &&
      (k.None? ==> bs[i].previous == null || bs[i].previous !in fs)
  }

  /**
   * Where the framebuffer loops of `destroy` stand: the calls made so far, the active
   * framebuffer, how many framebuffers were destroyed, and whether one threw.
   */
  datatype FramebufferRun = FramebufferRun(calls: seq<GLCall>, active: GLFramebuffer?, destroyed: nat, outcome: Outcome)

  /**
   * Destroying `fs[..n]` in order, from the active framebuffer `active`, where `bs` is what each
   * held before. The active one unbinds first: the framebuffer it saved becomes active and is
   * bound, by a handle that is gone if that one was destroyed before it; a hole among its
   * color attachments then throws and stops the loops. Each destroyed one deletes its handle.
   */
  function DestroyRun(fs: seq<GLFramebuffer>, bs: seq<FramebufferBefore>, active: GLFramebuffer?, n: nat)
    : (r: FramebufferRun)
    requires |bs| == |fs| && n <= |fs|
    ensures r.destroyed <= n && (r.outcome.Done? <==> r.destroyed == n)
    ensures r.outcome.Threw? ==> r.outcome == Threw(IN_CURRENT_ERROR)
  {
    if n == 0 then FramebufferRun([], active, 0, Done)
    else
      var r := DestroyRun(fs, bs, active, n - 1);
      if r.outcome.Threw? then r
      else
        var b := bs[n - 1];
        var previousHandle := if b.previousAt.Some? && b.previousAt.value < n - 1 then None else b.previousHandle;
        var unbind := if r.active == fs[n - 1] then [BindFramebuffer(FRAMEBUFFER, previousHandle)] else [];
        var next := if r.active == fs[n - 1] then b.previous else r.active;
        if r.active == fs[n - 1] && b.hole then FramebufferRun(r.calls + unbind, next, r.destroyed, Threw(IN_CURRENT_ERROR))
        else
          var delete := if b.handle.Some? then [DeleteFramebuffer(b.handle)] else [];
          FramebufferRun(r.calls + unbind + delete, next, r.destroyed + 1, Done)
  }

  /** Once a framebuffer throws, the rest of the list changes nothing. */
  lemma {:induction false} DestroyRunStops(fs: seq<GLFramebuffer>, bs: seq<FramebufferBefore>, active: GLFramebuffer?,
                                           i: nat, n: nat)
    requires |bs| == |fs| && i <= n <= |fs| && DestroyRun(fs, bs, active, i).outcome.Threw?
    ensures DestroyRun(fs, bs, active, n) == DestroyRun(fs, bs, active, i)
    decreases n
  {
    if n > i {
      DestroyRunStops(fs, bs, active, i, n - 1);
    }
  }

  /**
   * With no framebuffer active, nothing unbinds and nothing throws: every framebuffer is
   * destroyed and each deletes its handle, in list order.
   */
  lemma {:induction false} DestroyRunInactive(fs: seq<GLFramebuffer>, bs: seq<FramebufferBefore>, n: nat)
    requires |bs| == |fs| && n <= |fs|
    ensures var r := DestroyRun(fs, bs, null, n);
      r.outcome == Done && r.active == null && r.destroyed == n && r.calls == FramebufferDeleteCalls(bs[..n])
  {
    if n > 0 {
      DestroyRunInactive(fs, bs, n - 1);
      assert bs[..n] == bs[..n - 1] + [bs[n - 1]];
    }
  }

  /** The `deleteFramebuffer` calls of framebuffers with these handles (none for a missing one). */
  function FramebufferDeleteCalls(bs: seq<FramebufferBefore>): (calls: seq<GLCall>)
    ensures |calls| <= |bs|
    ensures forall c :: c in calls ==> c.DeleteFramebuffer? && c.framebuffer.Some?
  {
    if bs == [] then []
    else
      var last := bs[|bs| - 1];
      FramebufferDeleteCalls(bs[..|bs| - 1]) + (if last.handle.Some? then [DeleteFramebuffer(last.handle)] else [])
  }

  /** The `deleteTexture` calls of textures with these handles (none for a missing one). */
  function TextureDeleteCalls(hs: seq<Option<Handle>>): (calls: seq<GLCall>)
    ensures |calls| <= |hs|
    ensures forall c :: c in calls ==> c.DeleteTexture? && c.texture.Some?
  {
    if hs == [] then []
    else TextureDeleteCalls(hs[..|hs| - 1]) + (if hs[|hs| - 1].Some? then [DeleteTexture(hs[|hs| - 1])] else [])
  }

  /** The handles of pooled textures. */
  function TextureHandles(ts: seq<GLTexture>): (hs: seq<Option<Handle>>)
    reads set t | t in ts
    ensures |hs| == |ts| && forall i :: 0 <= i < |ts| ==> hs[i] == ts[i].handle
  {
    seq(|ts|, i requires 0 <= i < |ts| reads set t | t in ts => ts[i].handle)
  }

  /** A framebuffer after a completed `destroy`: no handle, no size, no attachments, no stencil. */
  predicate Cleared(f: GLFramebuffer)
    reads f
  {
    f.handle.None? && f.width == -1 && f.height == -1 && f.colorTextures == [] && f.depthTexture.None? &&
    !f.depthUndefined && !f.stencil
  }

  /** The first `n` framebuffers of `fs` are destroyed; the others keep the fields `bs` recorded. */
  predicate FramebuffersDestroyed(fs: seq<GLFramebuffer>, n: nat, bs: seq<FramebufferBefore>)
    requires |bs| == |fs|
    reads set f | f in fs
  {
    forall j :: 0 <= j < |fs| ==>
      if j < n then Cleared(fs[j]) else StateOf(fs[j]) == bs[j].state
  }

  /**
   * The framebuffer that `fs[i]` saved, when the first `i` are destroyed: its handle is gone
   * if it is one of those, and as recorded otherwise.
   */
  lemma PreviousHandleAt(fs: seq<GLFramebuffer>, bs: seq<FramebufferBefore>, i: nat)
    requires |bs| == |fs| && i < |fs| && Coherent(fs, bs) && FramebuffersDestroyed(fs, i, bs)
    requires fs[i].previousFramebuffer == bs[i].previous
    requires bs[i].previousAt.None? && bs[i].previous != null ==> bs[i].previous.handle == bs[i].previousHandle
    requires bs[i].previous == null ==> bs[i].previousHandle.None?
    ensures fs[i].PreviousHandle() ==
      (if bs[i].previousAt.Some? && bs[i].previousAt.value < i then None else bs[i].previousHandle)
  {
    var k := bs[i].previousAt;
    if k.Some? {
      assert fs[k.value] == bs[i].previous;
      if k.value < i {
        assert Cleared(fs[k.value]);
      } else {
        assert fs[k.value].handle == bs[k.value].handle;
      }
    }
  }

  /** A list without repeats holds `fs[i]` at `i` only. */
  lemma NoRepeatsAt<T>(fs: seq<T>, i: nat)
    requires NoRepeats(fs) && i < |fs|
    ensures forall j :: 0 <= j < |fs| && j != i ==> fs[j] != fs[i]
  {
    forall j | 0 <= j < |fs| && j != i
      ensures fs[j] != fs[i]
    {
      if j < i {
        assert fs[j] != fs[i];
      }
    }
  }

  /** A texture that had handle `h`, once `destroy` has run on it (`done`) or before. */
  predicate TextureDestroyed(t: GLTexture, h: Option<Handle>, done: bool)
    reads t
  {
    if done then t.handle.None? && (h.Some? ==> t.MipmapCleared()) else t.handle == h
  }

  /** Every texture of `ts` is destroyed, `hs` being the handles they had. */
  predicate TexturesDestroyed(ts: seq<GLTexture>, hs: seq<Option<Handle>>)
    requires |hs| == |ts|
    reads set t | t in ts
  {
    forall j :: 0 <= j < |ts| ==> TextureDestroyed(ts[j], hs[j], true)
  }

  class GLResourceManager {
    const gl: GLContext
    /** The shader binding state the blit shader is made with. */
    const binding: ShaderBinding
    var availableFramebuffers: seq<GLFramebuffer>
    var usedFramebuffers: seq<GLFramebuffer>
    var availableTextures: seq<GLTexture>
    var usedTextures: seq<GLTexture>
    var fullscreenMesh: GLMesh?
    var blitShader: GLShader?
    var resources: map<string, object>

    ghost predicate Valid()
      reads this, gl, binding
    {
      gl.Valid() && binding.gl == gl && binding.Valid() &&
      Pool(availableTextures, usedTextures) && Pool(availableFramebuffers, usedFramebuffers) &&
      (forall t :: t in availableTextures ==> t.gl == gl) && (forall t :: t in usedTextures ==> t.gl == gl) &&
      (forall f :: f in availableFramebuffers ==> f.gl == gl) && (forall f :: f in usedFramebuffers ==> f.gl == gl) &&
      (fullscreenMesh != null ==> fullscreenMesh.gl == gl) && (blitShader != null ==> blitShader.gl == gl)
    }

    /** `new GLResourceManager(gl)`: empty pools, no named resources, no fullscreen mesh. */
    constructor (gl: GLContext, binding: ShaderBinding)
      requires gl.Valid() && binding.gl == gl && binding.Valid()
      ensures Valid() && this.gl == gl && this.binding == binding
      ensures availableFramebuffers == [] && usedFramebuffers == [] && availableTextures == [] && usedTextures == []
      ensures fullscreenMesh == null && blitShader == null && resources == map[]
    {
      this.gl := gl;
      this.binding := binding;
      availableFramebuffers := [];
      usedFramebuffers := [];
      availableTextures := [];
      usedTextures := [];
      fullscreenMesh := null;
      blitShader := null;
      resources := map[];
    }

    /**
     * `destroy()`: destroys every pooled framebuffer (available ones first) and then every
     * pooled texture, and empties the pools and the named resources. A framebuffer whose
     * destruction throws stops it there, with the pools still in place. A fullscreen mesh
     * stops it too, after the textures are gone: `GLMesh` has no `destroy`, so calling it throws.
     */
    method Destroy(reg: FramebufferStatics) returns (outcome: Outcome)
      requires Valid()
      modifies this`availableFramebuffers, this`usedFramebuffers, this`availableTextures, this`usedTextures,
               this`resources, reg, gl`log,
               (set f | f in availableFramebuffers + usedFramebuffers)`handle, (set f | f in availableFramebuffers + usedFramebuffers)`width, (set f | f in availableFramebuffers + usedFramebuffers)`height,
               (set f | f in availableFramebuffers + usedFramebuffers)`colorTextures, (set f | f in availableFramebuffers + usedFramebuffers)`depthTexture, (set f | f in availableFramebuffers + usedFramebuffers)`depthUndefined,
               (set f | f in availableFramebuffers + usedFramebuffers)`stencil,
               (set t | t in availableTextures + usedTextures)`handle, (set t | t in availableTextures + usedTextures)`hasMipmap, (set t | t in availableTextures + usedTextures)`numLevels
      ensures Valid()
      ensures PoolsDestroyed(old(availableFramebuffers + usedFramebuffers), old(Befores(availableFramebuffers + usedFramebuffers)),
                             old(availableTextures + usedTextures), old(TextureHandles(availableTextures + usedTextures)),
                             old(reg.active), old(gl.log), old(reg.framebufferCount), old(fullscreenMesh) != null, outcome, reg)
      ensures outcome.Threw? ==> outcome == Threw(IN_CURRENT_ERROR) || outcome == Threw(MESH_DESTROY_ERROR)
      ensures old(fullscreenMesh) != null ==> outcome.Threw?
      ensures outcome.Threw? ==>
        availableFramebuffers == old(availableFramebuffers) && usedFramebuffers == old(usedFramebuffers) &&
        availableTextures == old(availableTextures) && usedTextures == old(usedTextures) && resources == old(resources)
      ensures outcome.Done? ==>
        availableFramebuffers == [] && usedFramebuffers == [] && availableTextures == [] && usedTextures == [] &&
        resources == map[]
    {
      var fs := availableFramebuffers + usedFramebuffers;
      var ts := availableTextures + usedTextures;
      PoolDistinct(availableFramebuffers, usedFramebuffers);
      PoolDistinct(availableTextures, usedTextures);
      outcome := DestroyPools(fs, ts, fullscreenMesh != null, reg);
      if outcome.Done? {
        ClearPools();
      }
    }

    /** The end of `destroy`: the pools and the named resources emptied. */
    method ClearPools()
      modifies this`availableFramebuffers, this`usedFramebuffers, this`availableTextures, this`usedTextures, this`resources
      ensures availableFramebuffers == [] && usedFramebuffers == [] && availableTextures == [] && usedTextures == [] &&
        resources == map[]
    {
      availableFramebuffers := [];
      usedFramebuffers := [];
      availableTextures := [];
      usedTextures := [];
      resources := map[];
    }

    /**
     * Where `destroy` leaves the context, the framebuffer statics and the pooled objects, and
     * what it returns: the framebuffer loops as `DestroyRun` has them; once they are through,
     * every texture deleted in pool order, and then the throw of a fullscreen mesh, if any.
     */
    ghost predicate PoolsDestroyed(fs: seq<GLFramebuffer>, bs: seq<FramebufferBefore>, ts: seq<GLTexture>, hs: seq<Option<Handle>>,
                                   active: GLFramebuffer?, log: seq<GLCall>, count: int, meshPresent: bool,
                                   outcome: Outcome, reg: FramebufferStatics)
      requires |bs| == |fs| && |hs| == |ts|
      reads gl, reg, set f | f in fs, set t | t in ts
    {
      var r := DestroyRun(fs, bs, active, |fs|);
      reg.active == r.active && reg.framebufferCount == count - r.destroyed && FramebuffersDestroyed(fs, r.destroyed, bs) &&
      (r.outcome.Threw? ==> outcome == r.outcome && gl.log == log + r.calls) &&
      (r.outcome.Done? ==>
        gl.log == log + r.calls + TextureDeleteCalls(hs) && TexturesDestroyed(ts, hs) &&
        outcome == if meshPresent then Threw(MESH_DESTROY_ERROR) else Done)
    }

    /** The body of `destroy` up to the emptying of the pools. */
    method DestroyPools(fs: seq<GLFramebuffer>, ts: seq<GLTexture>, meshPresent: bool, reg: FramebufferStatics)
      returns (outcome: Outcome)
      requires NoRepeats(fs) && forall f :: f in fs ==> f.gl == gl
      requires NoRepeats(ts) && forall t :: t in ts ==> t.gl == gl
      modifies reg, gl`log, (set f | f in fs)`handle, (set f | f in fs)`width, (set f | f in fs)`height,
               (set f | f in fs)`colorTextures, (set f | f in fs)`depthTexture, (set f | f in fs)`depthUndefined,
               (set f | f in fs)`stencil,
               (set t | t in ts)`handle, (set t | t in ts)`hasMipmap, (set t | t in ts)`numLevels
      ensures PoolsDestroyed(fs, old(Befores(fs)), ts, old(TextureHandles(ts)), old(reg.active), old(gl.log),
                             old(reg.framebufferCount), meshPresent, outcome, reg)
    {
      outcome := DestroyFramebuffers(fs, reg);
      if outcome.Threw? {
        return;
      }
      DestroyTextures(ts);
      if meshPresent {
        return Threw(MESH_DESTROY_ERROR);
      }
    }

    /**
     * The framebuffer loops of `destroy`: each framebuffer's `destroy` in list order, stopping
     * at the first that throws; the calls, the active framebuffer and the count follow `DestroyRun`.
     */
    method DestroyFramebuffers(fs: seq<GLFramebuffer>, reg: FramebufferStatics) returns (outcome: Outcome)
      requires NoRepeats(fs) && forall f :: f in fs ==> f.gl == gl
      modifies reg, gl`log, (set f | f in fs)`handle, (set f | f in fs)`width, (set f | f in fs)`height,
               (set f | f in fs)`colorTextures, (set f | f in fs)`depthTexture, (set f | f in fs)`depthUndefined,
               (set f | f in fs)`stencil
      ensures var r := DestroyRun(fs, old(Befores(fs)), old(reg.active), |fs|);
        outcome == r.outcome && gl.log == old(gl.log) + r.calls && reg.active == r.active &&
        reg.framebufferCount == old(reg.framebufferCount) - r.destroyed &&
        FramebuffersDestroyed(fs, r.destroyed, old(Befores(fs)))
    {
      ghost var bs := Befores(fs);
      ghost var active := reg.active;
      ghost var log := gl.log;
      ghost var count := reg.framebufferCount;
      outcome := Done;
      var i := 0;
      while i < |fs| && outcome.Done?
        invariant 0 <= i <= |fs|
        invariant Destroying(fs, bs, active, log, count, i, outcome, reg)
        invariant forall j :: 0 <= j < |fs| ==> fs[j].previousFramebuffer == bs[j].previous
      {
        assert bs[i].previousAt.None? && bs[i].previous != null ==> bs[i].previous.handle == old(bs[i].previous.handle);
        NoRepeatsAt(fs, i);
        outcome := DestroyNext(fs[i], fs, bs, active, i, reg, log, count);
        i := i + 1;
      }
      if outcome.Threw? {
        DestroyRunStops(fs, bs, active, i, |fs|);
      }
    }

    /** Where the framebuffer loops of `destroy` stand after `n` steps, as `DestroyRun` has it. */
    ghost predicate Destroying(fs: seq<GLFramebuffer>, bs: seq<FramebufferBefore>, active: GLFramebuffer?,
                               log: seq<GLCall>, count: int, n: nat, outcome: Outcome, reg: FramebufferStatics)
      requires |bs| == |fs| && n <= |fs|
      reads gl, reg, set f | f in fs
    {
      var r := DestroyRun(fs, bs, active, n);
      outcome == r.outcome && gl.log == log + r.calls && reg.active == r.active &&
      reg.framebufferCount == count - r.destroyed && FramebuffersDestroyed(fs, r.destroyed, bs)
    }

    /** One step of the framebuffer loops of `destroy`: `fs[i].destroy()`, as `DestroyRun` has it. */
    method DestroyNext(f: GLFramebuffer, fs: seq<GLFramebuffer>, ghost bs: seq<FramebufferBefore>, ghost active: GLFramebuffer?,
                       i: nat, reg: FramebufferStatics, ghost log: seq<GLCall>, ghost count: int) returns (outcome: Outcome)
      requires |bs| == |fs| && i < |fs| && f == fs[i] && Coherent(fs, bs) && f.gl == gl
      requires forall j :: 0 <= j < |fs| && j != i ==> fs[j] != f
      requires Destroying(fs, bs, active, log, count, i, Done, reg)
      requires forall j :: 0 <= j < |fs| ==> fs[j].previousFramebuffer == bs[j].previous
      requires bs[i].previousAt.None? && bs[i].previous != null ==> bs[i].previous.handle == bs[i].previousHandle
      requires bs[i].previous == null ==> bs[i].previousHandle.None?
      modifies reg, gl`log, f`handle, f`width, f`height, f`colorTextures, f`depthTexture, f`depthUndefined, f`stencil
      ensures Destroying(fs, bs, active, log, count, i + 1, outcome, reg)
    {
      ghost var r := DestroyRun(fs, bs, active, i);
      PreviousHandleAt(fs, bs, i);
      assert reg.active == f <==> r.active == fs[i];
      assert f.handle == bs[i].handle && (None in f.colorTextures <==> bs[i].hole);
      ghost var throws := reg.active == f && bs[i].hole;
      ghost var unbind := if reg.active == f then [BindFramebuffer(FRAMEBUFFER, f.PreviousHandle())] else [];
      ghost var delete := if throws || f.handle.None? then [] else [DeleteFramebuffer(f.handle)];
      ghost var next := DestroyRun(fs, bs, active, i + 1);
      assert next.calls == r.calls + unbind + delete;
      assert next.active == (if reg.active == f then f.previousFramebuffer else reg.active);
      assert next.destroyed == r.destroyed + (if throws then 0 else 1);
      assert next.outcome == (if throws then Threw(IN_CURRENT_ERROR) else Done);
      ghost var before := gl.log;
      outcome := f.Destroy(reg);
      assert gl.log == before + unbind + delete;
      assert gl.log == log + next.calls by {
        assert before == log + r.calls;
        assert log + r.calls + unbind + delete == log + (r.calls + unbind + delete);
      }
    }

    /** The texture loops of `destroy`: each texture's `destroy` in list order. */
    method DestroyTextures(ts: seq<GLTexture>)
      requires NoRepeats(ts) && forall t :: t in ts ==> t.gl == gl
      modifies gl`log, (set t | t in ts)`handle, (set t | t in ts)`hasMipmap, (set t | t in ts)`numLevels
      ensures gl.log == old(gl.log) + TextureDeleteCalls(old(TextureHandles(ts)))
      ensures TexturesDestroyed(ts, old(TextureHandles(ts)))
      ensures forall j :: 0 <= j < |ts| && old(ts[j].handle).None? ==>
        ts[j].hasMipmap == old(ts[j].hasMipmap) && ts[j].numLevels == old(ts[j].numLevels)
    {
      ghost var hs := TextureHandles(ts);
      ghost var mips := seq(|ts|, j requires 0 <= j < |ts| reads set t | t in ts => ts[j].hasMipmap);
      ghost var levels := seq(|ts|, j requires 0 <= j < |ts| reads set t | t in ts => ts[j].numLevels);
      var i := 0;
      while i < |ts|
        invariant 0 <= i <= |ts|
        invariant TexturesDestroying(ts, hs, mips, levels, old(gl.log), i)
      {
        DestroyTextureNext(ts[i], ts, hs, mips, levels, old(gl.log), i);
        i := i + 1;
      }
      assert hs[..i] == hs;
    }

    /** Where the texture loops of `destroy` stand after `n` steps. */
    ghost predicate TexturesDestroying(ts: seq<GLTexture>, hs: seq<Option<Handle>>, mips: seq<bool>, levels: seq<MipLevels>,
                                      log: seq<GLCall>, n: nat)
      requires |hs| == |ts| && |mips| == |ts| && |levels| == |ts| && n <= |ts|
      reads gl, set t | t in ts
    {
      gl.log == log + TextureDeleteCalls(hs[..n]) &&
      (forall j :: 0 <= j < |ts| ==> TextureDestroyed(ts[j], hs[j], j < n)) &&
      (forall j :: 0 <= j < |ts| && hs[j].None? ==> ts[j].hasMipmap == mips[j] && ts[j].numLevels == levels[j])
    }

    /** One step of the texture loops of `destroy`: `ts[i].destroy()`. */
    method DestroyTextureNext(t: GLTexture, ts: seq<GLTexture>, ghost hs: seq<Option<Handle>>, ghost mips: seq<bool>,
                              ghost levels: seq<MipLevels>, ghost log: seq<GLCall>, i: nat)
      requires |hs| == |ts| && |mips| == |ts| && |levels| == |ts| && i < |ts| && t == ts[i] && t.gl == gl
      requires forall j :: 0 <= j < |ts| && j != i ==> ts[j] != t
      requires TexturesDestroying(ts, hs, mips, levels, log, i)
      modifies gl`log, t`handle, t`hasMipmap, t`numLevels
      ensures TexturesDestroying(ts, hs, mips, levels, log, i + 1)
    {
      assert hs[..i + 1] == hs[..i] + [hs[i]];
      t.Destroy();
    }

    /** `getResource(name)`: the stored object, or none (undefined). */
    method GetResource(name: string) returns (r: Option<object>)
      ensures r.Some? <==> name in resources
      ensures r.Some? ==> r.value == resources[name]
    {
      r := if name in resources then Some(resources[name]) else None;
    }

    /** `hasResource(name)`. */
    method HasResource(name: string) returns (b: bool)
      ensures b <==> name in resources
    {
      b := name in resources;
    }

    /** `setResource(name, object)`: null removes the name, anything else is stored under it. */
    method SetResource(name: string, o: object?)
      modifies this`resources
      ensures o == null ==> name !in resources && resources == old(resources) - {name}
      ensures o != null ==> name in resources && resources[name] == o && resources == old(resources)[name := o]
    {
      if o == null {
        resources := resources - {name};
      } else {
        resources := resources[name := o];
      }
    }

    /** `removeResource(name)`. */
    method RemoveResource(name: string)
      modifies this`resources
      ensures name !in resources && resources == old(resources) - {name}
    {
      resources := resources - {name};
    }

    /** The size search of `requestTexture`. */
    method FindTexture(w: int, h: int) returns (k: Option<nat>)
      ensures k == FirstSized(TextureSizes(availableTextures), w, h)
    {
      ghost var sizes := TextureSizes(availableTextures);
      var i := 0;
      while i < |availableTextures|
        invariant 0 <= i <= |availableTextures|
        invariant forall j :: 0 <= j < i ==> sizes[j] != (w, h)
      {
        if availableTextures[i].width == w && availableTextures[i].height == h {
          assert sizes[i] == (w, h);
          return Some(i);
        }
        i := i + 1;
      }
      return None;
    }

    /** The size search of `requestFramebuffer`. */
    method FindFramebuffer(w: int, h: int) returns (k: Option<nat>)
      ensures k == FirstSized(FramebufferSizes(availableFramebuffers), w, h)
    {
      ghost var sizes := FramebufferSizes(availableFramebuffers);
      var i := 0;
      while i < |availableFramebuffers|
        invariant 0 <= i <= |availableFramebuffers|
        invariant forall j :: 0 <= j < i ==> sizes[j] != (w, h)
      {
        if availableFramebuffers[i].width == w && availableFramebuffers[i].height == h {
          assert sizes[i] == (w, h);
          return Some(i);
        }
        i := i + 1;
      }
      return None;
    }

    /**
     * `requestTexture(width, height)`: the first available texture of that size moves to the
     * used list; without one, a new texture of that size is made and used.
     */
    method RequestTexture(w: int, h: int) returns (outcome: Outcome, t: GLTexture?)
      requires Valid()
      modifies this`availableTextures, this`usedTextures, gl`log, gl`nextHandle
      ensures Valid()
      ensures var k := old(FirstSized(TextureSizes(availableTextures), w, h));
        k.Some? ==>
          outcome == Done && t == old(availableTextures)[k.value] &&
          availableTextures == RemoveAt(old(availableTextures), k.value) &&
          usedTextures == old(usedTextures) + [t] && gl.log == old(gl.log)
      ensures var k := old(FirstSized(TextureSizes(availableTextures), w, h));
        k.None? ==>
          outcome == Done && t != null && fresh(t) && availableTextures == old(availableTextures) && usedTextures == old(usedTextures) + [t]
          && t.target == TEXTURE_2D
          && (if w != 0 && h != 0 then t.width == w && t.height == h && t.handle.Some? else t.width == 0 && t.height == 0)
    {
      var k := FindTexture(w, h);
      if k.Some? {
        t := availableTextures[k.value];
        MoveKeepsPool(availableTextures, usedTextures, k.value);
        availableTextures := RemoveAt(availableTextures, k.value);
        usedTextures := usedTextures + [t];
        return Done, t;
      }
      var nt := new GLTexture(gl);
      outcome := nt.Setup(SizeOptions(w, h));
      AddKeepsPool(availableTextures, usedTextures, nt);
      usedTextures := usedTextures + [nt];
      t := nt;
    }

    /** `releaseTexture(texture)`: a used texture becomes available; any other is ignored. */
    method ReleaseTexture(t: GLTexture)
      requires Valid()
      modifies this`availableTextures, this`usedTextures
      ensures Valid()
      ensures t !in old(usedTextures) ==> availableTextures == old(availableTextures) && usedTextures == old(usedTextures)
      ensures t in old(usedTextures) ==>
        availableTextures == old(availableTextures) + [t] &&
        usedTextures == RemoveAt(old(usedTextures), FirstIndexOf(old(usedTextures), t).value)
      ensures t !in usedTextures
    {
      var k := PositionOf(usedTextures, t);
      if k.Some? {
        MoveKeepsPool(usedTextures, availableTextures, k.value);
        availableTextures := availableTextures + [t];
        usedTextures := RemoveAt(usedTextures, k.value);
      }
    }

    /**
     * `requestFramebuffer(width, height)`: the first available framebuffer of that size, or a
     * new one around a new texture of that size, goes to the end of the used list. Making a
     * new one is the only way it can fail, and then the pools are left as they were.
     */
    method RequestFramebuffer(w: int, h: int, reg: FramebufferStatics, status: int)
      returns (outcome: Outcome, fb: GLFramebuffer?)
      requires Valid()
      modifies this`availableFramebuffers, this`usedFramebuffers, reg, gl`log, gl`nextHandle
      ensures Valid()
      ensures var k := old(FirstSized(FramebufferSizes(availableFramebuffers), w, h));
        k.Some? ==>
          outcome == Done && fb == old(availableFramebuffers)[k.value] &&
          availableFramebuffers == RemoveAt(old(availableFramebuffers), k.value) &&
          usedFramebuffers == old(usedFramebuffers) + [fb] && gl.log == old(gl.log)
      ensures var k := old(FirstSized(FramebufferSizes(availableFramebuffers), w, h));
        k.None? ==> (outcome.Done? <==> status == FRAMEBUFFER_COMPLETE && !(w == -1 && h != 0))
      ensures var k := old(FirstSized(FramebufferSizes(availableFramebuffers), w, h));
        (k.None? && outcome.Done?) ==>
          fb != null && fresh(fb) &&
          availableFramebuffers == old(availableFramebuffers) && usedFramebuffers == old(usedFramebuffers) + [fb] &&
          |fb.colorTextures| == 1 && fb.colorTextures[0].Some? && fb.colorTextures[0].value.TextureAttachment? &&
          fresh(fb.colorTextures[0].value.texture) && fb.depthTexture.None? && fb.depthUndefined &&
          fb.width == (if w != 0 && h != 0 then w else 0) && fb.height == (if w != 0 && h != 0 then h else 0) &&
          reg.active == old(reg.active)
      ensures outcome.Threw? ==>
        availableFramebuffers == old(availableFramebuffers) && usedFramebuffers == old(usedFramebuffers)
    {
      var k := FindFramebuffer(w, h);
      if k.Some? {
        fb := availableFramebuffers[k.value];
        MoveKeepsPool(availableFramebuffers, usedFramebuffers, k.value);
        availableFramebuffers := RemoveAt(availableFramebuffers, k.value);
        usedFramebuffers := usedFramebuffers + [fb];
        return Done, fb;
      }
      var tex;
      outcome, fb, tex := MakeFramebuffer(w, h, reg, status);
      if outcome.Threw? {
        return outcome, null;
      }
      AddKeepsPool(availableFramebuffers, usedFramebuffers, fb);
      usedFramebuffers := usedFramebuffers + [fb];
    }

    /**
     * `new GLFramebuffer(gl, new GLTexture(gl, { width, height }))`: the texture gets that size
     * when both are non-zero and stays 0 by 0 otherwise; the framebuffer then holds it as its
     * one color attachment, takes its size, and leaves the active framebuffer as it was. It
     * succeeds exactly when the driver reports it complete and its width is not -1 (which
     * `update` reads as no size).
     */
    method MakeFramebuffer(w: int, h: int, reg: FramebufferStatics, status: int)
      returns (outcome: Outcome, fb: GLFramebuffer, tex: GLTexture)
      requires gl.Valid()
      modifies reg, gl`log, gl`nextHandle
      ensures fresh(fb) && fresh(tex) && fb.gl == gl && tex.gl == gl
      ensures outcome.Done? <==> status == FRAMEBUFFER_COMPLETE && !(w == -1 && h != 0)
      ensures w == 0 || h == 0 ==> tex.width == 0 && tex.height == 0
      ensures w != 0 && h != 0 ==> tex.width == w && tex.height == h
      ensures outcome.Done? ==>
        fb.colorTextures == [Some(TextureAttachment(tex))] && fb.depthTexture.None? && fb.depthUndefined &&
        fb.width == tex.width && fb.height == tex.height && reg.active == old(reg.active)
    {
      tex := new GLTexture(gl);
      outcome := tex.Setup(SizeOptions(w, h));
      fb := new GLFramebuffer(gl, false);
      assert outcome.Done? && tex.target == TEXTURE_2D;
      var v := GLFramebuffers.ViewOf(TextureAttachment(tex));
      assert SlotViews(ColorSlots(SingleColor(TextureAttachment(tex)))) == [Some(v)];
      assert Scanned([Some(v)], 1) == ScanStep(Scanning(-1, -1, NoneYet), Some(v));
      assert Measure([Some(v)], None, gl.webglVersion == 1 && !gl.extensions.drawBuffers).Scanning? <==> v.width != -1;
      assert v.width == -1 <==> w == -1 && h != 0;
      outcome := fb.Init(SingleColor(TextureAttachment(tex)), None, true, reg, status);
    }

    /** `releaseFramebuffer(frameBuffer)`: null is ignored; a used framebuffer becomes available. */
    method ReleaseFramebuffer(fb: GLFramebuffer?)
      requires Valid()
      modifies this`availableFramebuffers, this`usedFramebuffers
      ensures Valid()
      ensures (fb == null || fb !in old(usedFramebuffers)) ==>
        availableFramebuffers == old(availableFramebuffers) && usedFramebuffers == old(usedFramebuffers)
      ensures (fb != null && fb in old(usedFramebuffers)) ==>
        availableFramebuffers == old(availableFramebuffers) + [fb] &&
        usedFramebuffers == RemoveAt(old(usedFramebuffers), FirstIndexOf(old(usedFramebuffers), fb).value)
      ensures fb !in usedFramebuffers
    {
      if fb == null {
        return;
      }
      var k := PositionOf(usedFramebuffers, fb);
      if k.Some? {
        MoveKeepsPool(usedFramebuffers, availableFramebuffers, k.value);
        availableFramebuffers := availableFramebuffers + [fb];
        usedFramebuffers := RemoveAt(usedFramebuffers, k.value);
      }
    }

    /**
     * The search of `releaseFramebufferTexture`: the first used framebuffer whose first color
     * attachment has the handle, unless a framebuffer without a first color attachment (a
     * TypeError) comes before it.
     */
    method FindByColorHandle(handle: Option<Handle>) returns (r: ColorMatch)
      ensures r.MatchAt? ==>
        r.index < |usedFramebuffers| && FirstColorHandle(usedFramebuffers[r.index]) == Some(handle)
      ensures r.MissingColor? ==>
        r.index < |usedFramebuffers| && FirstColorHandle(usedFramebuffers[r.index]).None?
      ensures forall j :: 0 <= j < (if r.NoMatch? then |usedFramebuffers| else r.index) ==>
        FirstColorHandle(usedFramebuffers[j]).Some? && FirstColorHandle(usedFramebuffers[j]) != Some(handle)
      ensures r == ColorSearch(FirstColorHandles(usedFramebuffers), handle)
    {
      ghost var hs := FirstColorHandles(usedFramebuffers);
      var i := 0;
      while i < |usedFramebuffers|
        invariant 0 <= i <= |usedFramebuffers|
        invariant forall j :: 0 <= j < i ==>
          FirstColorHandle(usedFramebuffers[j]).Some? && FirstColorHandle(usedFramebuffers[j]) != Some(handle)
      {
        var c := FirstColorHandle(usedFramebuffers[i]);
        if c.None? {
          ColorSearchUnique(hs, handle, MissingColor(i));
          return MissingColor(i);
        }
        if c == Some(handle) {
          ColorSearchUnique(hs, handle, MatchAt(i));
          return MatchAt(i);
        }
        i := i + 1;
      }
      ColorSearchUnique(hs, handle, NoMatch);
      return NoMatch;
    }

    /**
     * `releaseFramebufferTexture(texture)`: the search runs over the used framebuffers in
     * order. The first one whose first color attachment has the texture's handle becomes
     * available; one without a first color attachment met before that throws (reading
     * `handle` of undefined) and changes nothing; when the search finds neither, nothing changes.
     */
    method ReleaseFramebufferTexture(t: GLTexture) returns (outcome: Outcome)
      requires Valid()
      modifies this`availableFramebuffers, this`usedFramebuffers
      ensures Valid()
      ensures var m := old(ColorSearch(FirstColorHandles(usedFramebuffers), t.handle));
        (m.MatchAt? ==>
          outcome == Done && usedFramebuffers == RemoveAt(old(usedFramebuffers), m.index) &&
          availableFramebuffers == old(availableFramebuffers) + [old(usedFramebuffers)[m.index]]) &&
        (m.MissingColor? ==>
          outcome == Threw(NO_HANDLE_ERROR) &&
          usedFramebuffers == old(usedFramebuffers) && availableFramebuffers == old(availableFramebuffers)) &&
        (m.NoMatch? ==>
          outcome == Done && usedFramebuffers == old(usedFramebuffers) && availableFramebuffers == old(availableFramebuffers))
    {
      ghost var hs := FirstColorHandles(usedFramebuffers);
      var r := FindByColorHandle(t.handle);
      assert FirstColorHandles(usedFramebuffers) == hs;
      match r {
        case MissingColor(k) =>
          return Threw(NO_HANDLE_ERROR);
        case NoMatch =>
          return Done;
        case MatchAt(i) =>
          var fb := usedFramebuffers[i];
          MoveKeepsPool(usedFramebuffers, availableFramebuffers, i);
          availableFramebuffers := availableFramebuffers + [fb];
          usedFramebuffers := RemoveAt(usedFramebuffers, i);
          return Done;
      }
    }

    /** `getFullscreenMesh()`: made on the first call, the same object afterwards. */
    method GetFullscreenMesh() returns (m: GLMesh)
      requires Valid()
      modifies this`fullscreenMesh
      ensures Valid() && fullscreenMesh == m && m.gl == gl
      ensures old(fullscreenMesh) != null ==> m == old(fullscreenMesh)
      ensures old(fullscreenMesh) == null ==> fresh(m)
    {
      if fullscreenMesh == null {
        fullscreenMesh := new GLMesh(gl);
      }
      m := fullscreenMesh;
    }

    /**
     * `getBlitShader()`: made on the first call, the same object afterwards. Making it compiles
     * the two fixed blit programs, here `vertexSrc` and `fragmentSrc`, without macros; `driver`
     * and `typeLengths` stand for what the driver reports about them.
     */
    method GetBlitShader(vertexSrc: string, fragmentSrc: string, driver: Driver, typeLengths: map<int, int>)
      returns (s: GLShader)
      requires Valid()
      modifies this`blitShader, gl`log, gl`nextHandle, binding`current
      ensures Valid() && blitShader == s && s.gl == gl && binding.current == old(binding.current)
      ensures old(blitShader) != null ==> s == old(blitShader) && gl.log == old(gl.log)
      ensures old(blitShader) == null ==>
        fresh(s) && (s.valid <==> driver.vertexCompiles && driver.fragmentCompiles && driver.links) &&
        s.vertexSource == InjectCode(Preamble(Empty(), gl.webglVersion), vertexSrc) &&
        s.fragmentSource == InjectCode(Preamble(Empty(), gl.webglVersion), fragmentSrc) &&
        (s.valid ==>
          s.uniformInfo == UniformTable(driver.uniforms, typeLengths) &&
          s.textures == TextureTable(driver.uniforms) && s.attributeInfo == AttributeTable(driver.attributes)) &&
        gl.log == old(gl.log) +
          CompileCalls(s.vertexSource, s.fragmentSource, driver.vertexCompiles && driver.fragmentCompiles, s.program)
    {
      if blitShader == null {
        blitShader := MakeBlitShader(vertexSrc, fragmentSrc, driver, typeLengths);
      }
      s := blitShader;
    }

    /** `new GLShader(gl, vertexSrc, fragmentSrc)`: a new shader compiled from the two sources without macros. */
    method MakeBlitShader(vertexSrc: string, fragmentSrc: string, driver: Driver, typeLengths: map<int, int>)
      returns (s: GLShader)
      requires binding.Valid() && binding.gl == gl
      modifies gl`log, gl`nextHandle, binding`current
      ensures fresh(s) && s.gl == gl && s.binding == binding && binding.current == old(binding.current)
      ensures (s.valid <==> driver.vertexCompiles && driver.fragmentCompiles && driver.links) &&
        s.vertexSource == InjectCode(Preamble(Empty(), gl.webglVersion), vertexSrc) &&
        s.fragmentSource == InjectCode(Preamble(Empty(), gl.webglVersion), fragmentSrc) &&
        (s.valid ==>
          s.uniformInfo == UniformTable(driver.uniforms, typeLengths) &&
          s.textures == TextureTable(driver.uniforms) && s.attributeInfo == AttributeTable(driver.attributes)) &&
        gl.log == old(gl.log) +
          CompileCalls(s.vertexSource, s.fragmentSource, driver.vertexCompiles && driver.fragmentCompiles, s.program)
    {
      s := new GLShader(gl, binding);
      assert s.program.None? && binding.current != s;
      var _ := s.CreateFromSource(vertexSrc, fragmentSrc, Empty(), driver, typeLengths);
    }
  }
}
