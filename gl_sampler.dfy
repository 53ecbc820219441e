/**
 * A WebGL 2 sampler object (`GLSampler`): the filtering and wrap parameters it holds, the
 * dirty flag that says whether the WebGL object is behind those parameters, and the calls
 * that bring it up to date. Binding a sampler together with a texture touches the table of
 * bound textures and is modelled with the textures (`GLTextures.SamplerBind`).
 */
module GLSamplers {
  import opened Wrappers
  import opened GL
  import opened GLContexts

  /** The four minification filters that read a mipmap. */
  predicate IsMipFilter(f: int)
  {
    f == LINEAR_MIPMAP_LINEAR || f == LINEAR_MIPMAP_NEAREST ||
    f == NEAREST_MIPMAP_LINEAR || f == NEAREST_MIPMAP_NEAREST
  }

  /** The value the magnification-filter setter stores for `v`: mip-aware filters lose their mipmap part. */
  function MagFilterValue(v: int): (r: int)
    ensures !IsMipFilter(r)
    ensures !IsMipFilter(v) ==> r == v
    ensures v in {LINEAR_MIPMAP_LINEAR, LINEAR_MIPMAP_NEAREST} ==> r == LINEAR
    ensures v in {NEAREST_MIPMAP_LINEAR, NEAREST_MIPMAP_NEAREST} ==> r == NEAREST
  {
    if v == LINEAR_MIPMAP_LINEAR || v == LINEAR_MIPMAP_NEAREST then LINEAR
    else if v == NEAREST_MIPMAP_LINEAR || v == NEAREST_MIPMAP_NEAREST then NEAREST
    else v
  }

  /** The minification filter that assigning `mipmap = on` leaves, starting from `f`. */
  function MipmapFilter(f: int, on: bool): int
  {
    if !on then
      if f == LINEAR_MIPMAP_LINEAR || f == LINEAR_MIPMAP_NEAREST then LINEAR
      else if f == NEAREST_MIPMAP_LINEAR || f == NEAREST_MIPMAP_NEAREST then NEAREST
      else f
    else
      if f == LINEAR then LINEAR_MIPMAP_LINEAR
      else if f == NEAREST then NEAREST_MIPMAP_NEAREST
      else f
  }

  /** Whether assigning `mipmap = on` changes the filter (and so updates the WebGL object). */
  predicate MipmapChanges(f: int, on: bool)
  {
    if on then f == LINEAR || f == NEAREST else IsMipFilter(f)
  }

  /** The sampler options; an absent option, like a 0, is falsy. */
  datatype SamplerOptions = SamplerOptions(
    minFilter: Option<int>, magFilter: Option<int>, filter: Option<int>,
    wrapS: Option<int>, wrapT: Option<int>, wrapR: Option<int>, wrap: Option<int>)

  /** `a || b || d` over numeric options. */
  function Either(a: Option<int>, b: Option<int>, d: int): (r: int)
    ensures a.Some? && a.value != 0 ==> r == a.value
    ensures (a.None? || a.value == 0) && b.Some? && b.value != 0 ==> r == b.value
    ensures (a.None? || a.value == 0) && (b.None? || b.value == 0) ==> r == d
  {
    if a.Some? && a.value != 0 then a.value
    else if b.Some? && b.value != 0 then b.value
    else d
  }

  /** The five `samplerParameteri` calls of `update`, in the order the engine makes them. */
  function UpdateCalls(h: Handle, minFilter: int, magFilter: int, wrapS: int, wrapT: int, wrapR: int): seq<GLCall>
  {
    [SamplerParameter(Some(h), TEXTURE_MIN_FILTER, minFilter),
     SamplerParameter(Some(h), TEXTURE_MAG_FILTER, magFilter),
     SamplerParameter(Some(h), TEXTURE_WRAP_S, wrapS),
     SamplerParameter(Some(h), TEXTURE_WRAP_T, wrapT),
     SamplerParameter(Some(h), TEXTURE_WRAP_R, wrapR)]
  }

  class GLSampler {
    const gl: GLContext
    var minFilter: int
    var magFilter: int
    var wrapS: int
    var wrapT: int
    var wrapR: int
    /** True when the parameters changed since the WebGL object was last updated. */
    var dirty: bool
    /** The WebGL sampler, absent until created and after destruction. */
    var handle: Option<Handle>

    /** The magnification filter is never a mip-aware value. */
    predicate Valid()
      reads this
    {
      !IsMipFilter(magFilter)
    }

    /** `mipmap`: true iff the minification filter needs a mipmap. */
    predicate Mipmap()
      reads this
    {
      IsMipFilter(minFilter)
    }

    /** `isValid`: the WebGL object exists. */
    predicate IsCreated()
      reads this
    {
      handle.Some?
    }

    /** The state the five `update` calls write into the WebGL object. */
    function Calls(h: Handle): seq<GLCall>
      reads this
    {
      UpdateCalls(h, minFilter, magFilter, wrapS, wrapT, wrapR)
    }

    /** The calls a `bind` spends on `update`: all five parameters when dirty and created, none otherwise. */
    function PendingCalls(): seq<GLCall>
      reads this
    {
      if dirty && handle.Some? then Calls(handle.value) else []
    }

    /**
     * `new GLSampler(gl, options)`: LINEAR filters and CLAMP_TO_EDGE wrapping, a freshly
     * created (hence dirty) WebGL object, then the options applied.
     */
    constructor (gl: GLContext, options: SamplerOptions)
      modifies gl`nextHandle
      ensures Valid() && this.gl == gl
      ensures handle == Some(old(gl.nextHandle)) && gl.nextHandle == old(gl.nextHandle) + 1
      ensures dirty
      ensures minFilter == ConfiguredMin(options, LINEAR, LINEAR, CLAMP_TO_EDGE, CLAMP_TO_EDGE, CLAMP_TO_EDGE)
      ensures magFilter == ConfiguredMag(options, LINEAR, LINEAR, CLAMP_TO_EDGE, CLAMP_TO_EDGE, CLAMP_TO_EDGE)
      ensures wrapS == ConfiguredWrapS(options, LINEAR, LINEAR, CLAMP_TO_EDGE, CLAMP_TO_EDGE, CLAMP_TO_EDGE)
      ensures wrapT == ConfiguredWrapT(options, LINEAR, LINEAR, CLAMP_TO_EDGE, CLAMP_TO_EDGE, CLAMP_TO_EDGE)
      ensures wrapR == ConfiguredWrapR(options, LINEAR, LINEAR, CLAMP_TO_EDGE, CLAMP_TO_EDGE, CLAMP_TO_EDGE)
    {
      this.gl := gl;
      handle := None;
      minFilter := LINEAR;
      magFilter := LINEAR;
      wrapS := CLAMP_TO_EDGE;
      wrapT := CLAMP_TO_EDGE;
      wrapR := CLAMP_TO_EDGE;
      dirty := false;
      new;
      Create();
      Configure(options);
    }

    /** `minFilter = v`: stores `v` and marks the sampler dirty, unless it is already the filter. */
    method SetMinFilter(v: int)
      modifies this`minFilter, this`dirty
      ensures old(minFilter) == v ==> minFilter == v && dirty == old(dirty)
      ensures old(minFilter) != v ==> minFilter == v && dirty
    {
      if minFilter == v {
        return;
      }
      minFilter := v;
      dirty := true;
    }

    /**
     * `magFilter = v`: unless `v` is already the filter, stores `v` without its mipmap part
     * and marks the sampler dirty (even when the stored value does not change).
     */
    method SetMagFilter(v: int)
      requires Valid()
      modifies this`magFilter, this`dirty
      ensures Valid()
      ensures old(magFilter) == v ==> magFilter == v && dirty == old(dirty)
      ensures old(magFilter) != v ==> magFilter == MagFilterValue(v) && dirty
    {
      if magFilter == v {
        return;
      }
      if v == LINEAR_MIPMAP_LINEAR || v == LINEAR_MIPMAP_NEAREST {
        magFilter := LINEAR;
      } else if v == NEAREST_MIPMAP_LINEAR || v == NEAREST_MIPMAP_NEAREST {
        magFilter := NEAREST;
      } else {
        magFilter := v;
      }
      dirty := true;
    }

    /** `wrapS = v`. */
    method SetWrapS(v: int)
      modifies this`wrapS, this`dirty
      ensures wrapS == v
      ensures dirty == (old(dirty) || old(wrapS) != v)
    {
      if v == wrapS {
        return;
      }
      wrapS := v;
      dirty := true;
    }

    /** `wrapT = v`. */
    method SetWrapT(v: int)
      modifies this`wrapT, this`dirty
      ensures wrapT == v
      ensures dirty == (old(dirty) || old(wrapT) != v)
    {
      if v == wrapT {
        return;
      }
      wrapT := v;
      dirty := true;
    }

    /** `wrapR = v`. */
    method SetWrapR(v: int)
      modifies this`wrapR, this`dirty
      ensures wrapR == v
      ensures dirty == (old(dirty) || old(wrapR) != v)
    {
      if v == wrapR {
        return;
      }
      wrapR := v;
      dirty := true;
    }

    /**
     * `configure(options)`: nothing when all five options already equal the current values;
     * otherwise each parameter takes its option, else the shared option, else keeps its
     * value — and wrapR is taken from the wrapT option, never from the wrapR one.
     */
    method Configure(options: SamplerOptions)
      requires Valid()
      modifies this`minFilter, this`magFilter, this`wrapS, this`wrapT, this`wrapR, this`dirty
      ensures Valid()
      ensures minFilter == ConfiguredMin(options, old(minFilter), old(magFilter), old(wrapS), old(wrapT), old(wrapR))
      ensures magFilter == ConfiguredMag(options, old(minFilter), old(magFilter), old(wrapS), old(wrapT), old(wrapR))
      ensures wrapS == ConfiguredWrapS(options, old(minFilter), old(magFilter), old(wrapS), old(wrapT), old(wrapR))
      ensures wrapT == ConfiguredWrapT(options, old(minFilter), old(magFilter), old(wrapS), old(wrapT), old(wrapR))
      ensures wrapR == ConfiguredWrapR(options, old(minFilter), old(magFilter), old(wrapS), old(wrapT), old(wrapR))
      ensures Unchanging(options, old(minFilter), old(magFilter), old(wrapS), old(wrapT), old(wrapR)) ==> dirty == old(dirty)
      ensures old(dirty) ==> dirty
      ensures !old(dirty) && !dirty ==>
        minFilter == old(minFilter) && magFilter == old(magFilter) &&
        wrapS == old(wrapS) && wrapT == old(wrapT) && wrapR == old(wrapR)
    {
      if Unchanging(options, minFilter, magFilter, wrapS, wrapT, wrapR) {
        return;
      }
      SetMinFilter(Either(options.minFilter, options.filter, minFilter));
      SetMagFilter(Either(options.magFilter, options.filter, magFilter));
      SetWrapS(Either(options.wrapS, options.wrap, wrapS));
      SetWrapT(Either(options.wrapT, options.wrap, wrapT));
      SetWrapR(Either(options.wrapT, options.wrap, wrapR));
    }

    /** `create()`: creates the WebGL object, and marks the sampler dirty, only when there is none. */
    method Create()
      modifies this`handle, this`dirty, gl`nextHandle
      ensures old(handle).Some? ==> handle == old(handle) && dirty == old(dirty) && gl.nextHandle == old(gl.nextHandle)
      ensures old(handle).None? ==> handle == Some(old(gl.nextHandle)) && dirty && gl.nextHandle == old(gl.nextHandle) + 1
    {
      if handle.Some? {
        return;
      }
      var h := gl.NewHandle();
      handle := Some(h);
      dirty := true;
    }

    /** `destroy()`: deletes the WebGL object, if there is one. */
    method Destroy()
      modifies this`handle, gl`log
      ensures handle.None?
      ensures old(handle).None? ==> gl.log == old(gl.log)
      ensures old(handle).Some? ==> gl.log == old(gl.log) + [DeleteSampler(old(handle))]
    {
      if handle.None? {
        return;
      }
      gl.Call(DeleteSampler(handle));
      handle := None;
    }

    /** `update()`: without a WebGL object nothing; otherwise writes all five parameters and clears the dirty flag. */
    method Update()
      modifies this`dirty, gl`log
      ensures handle.None? ==> gl.log == old(gl.log) && dirty == old(dirty)
      ensures handle.Some? ==> gl.log == old(gl.log) + Calls(handle.value) && !dirty
    {
      if handle.None? {
        return;
      }
      var h := handle.value;
      gl.Call(SamplerParameter(handle, TEXTURE_MIN_FILTER, minFilter));
      gl.Call(SamplerParameter(handle, TEXTURE_MAG_FILTER, magFilter));
      gl.Call(SamplerParameter(handle, TEXTURE_WRAP_S, wrapS));
      gl.Call(SamplerParameter(handle, TEXTURE_WRAP_T, wrapT));
      gl.Call(SamplerParameter(handle, TEXTURE_WRAP_R, wrapR));
      dirty := false;
    }

    /**
     * `mipmap = on`: switches between a plain filter and its mipmapped counterpart
     * (LINEAR and LINEAR_MIPMAP_LINEAR, NEAREST and NEAREST_MIPMAP_NEAREST; turning the
     * mipmap off also maps the two mixed filters back), updating the WebGL object when
     * the filter changed; any other filter is left alone.
     */
    method SetMipmap(on: bool)
      modifies this`minFilter, this`dirty, gl`log
      ensures minFilter == MipmapFilter(old(minFilter), on)
      ensures !MipmapChanges(old(minFilter), on) ==> gl.log == old(gl.log) && dirty == old(dirty)
      ensures MipmapChanges(old(minFilter), on) && handle.Some? ==> gl.log == old(gl.log) + Calls(handle.value) && !dirty
      ensures MipmapChanges(old(minFilter), on) && handle.None? ==> gl.log == old(gl.log) && dirty
    {
      var f := minFilter;
      if !on {
        if f == LINEAR_MIPMAP_LINEAR || f == LINEAR_MIPMAP_NEAREST {
          SetMinFilter(LINEAR);
          Update();
        } else if f == NEAREST_MIPMAP_LINEAR || f == NEAREST_MIPMAP_NEAREST {
          SetMinFilter(NEAREST);
          Update();
        }
      } else {
        if f == LINEAR {
          SetMinFilter(LINEAR_MIPMAP_LINEAR);
          Update();
        } else if f == NEAREST {
          SetMinFilter(NEAREST_MIPMAP_NEAREST);
          Update();
        }
      }
    }

    /** `unbind(unit)`: clears the sampler of the unit (0 when none is given). */
    method Unbind(unit: Option<int>)
      modifies gl`log
      ensures gl.log == old(gl.log) + [BindSampler(if unit.Some? then unit.value else 0, None)]
    {
      gl.Call(BindSampler(if unit.Some? then unit.value else 0, None));
    }
  }

  /** The early-exit test of `configure`: every option present and equal to the current value. */
  predicate Unchanging(o: SamplerOptions, minFilter: int, magFilter: int, wrapS: int, wrapT: int, wrapR: int)
  {
    o.minFilter == Some(minFilter) && o.magFilter == Some(magFilter) &&
    o.wrapS == Some(wrapS) && o.wrapT == Some(wrapT) && o.wrapR == Some(wrapR)
  }

  /** The minification filter `configure` leaves. */
  function ConfiguredMin(o: SamplerOptions, minFilter: int, magFilter: int, wrapS: int, wrapT: int, wrapR: int): int
  {
    if Unchanging(o, minFilter, magFilter, wrapS, wrapT, wrapR) then minFilter
    else Either(o.minFilter, o.filter, minFilter)
  }

  /** The magnification filter `configure` leaves. */
  function ConfiguredMag(o: SamplerOptions, minFilter: int, magFilter: int, wrapS: int, wrapT: int, wrapR: int): int
  {
    if Unchanging(o, minFilter, magFilter, wrapS, wrapT, wrapR) then magFilter
    else
      var v := Either(o.magFilter, o.filter, magFilter);
      if v == magFilter then v else MagFilterValue(v)
  }

  /** The S wrap mode `configure` leaves. */
  function ConfiguredWrapS(o: SamplerOptions, minFilter: int, magFilter: int, wrapS: int, wrapT: int, wrapR: int): int
  {
    if Unchanging(o, minFilter, magFilter, wrapS, wrapT, wrapR) then wrapS
    else Either(o.wrapS, o.wrap, wrapS)
  }

  /** The T wrap mode `configure` leaves. */
  function ConfiguredWrapT(o: SamplerOptions, minFilter: int, magFilter: int, wrapS: int, wrapT: int, wrapR: int): int
  {
    if Unchanging(o, minFilter, magFilter, wrapS, wrapT, wrapR) then wrapT
    else Either(o.wrapT, o.wrap, wrapT)
  }

  /** The R wrap mode `configure` leaves: the T option, else the shared option, else unchanged. */
  function ConfiguredWrapR(o: SamplerOptions, minFilter: int, magFilter: int, wrapS: int, wrapT: int, wrapR: int): int
  {
    if Unchanging(o, minFilter, magFilter, wrapS, wrapT, wrapR) then wrapR
    else Either(o.wrapT, o.wrap, wrapR)
  }

  // ---------------------------------------------------------------- properties

  /** `configure` never stores a mip-aware magnification filter. */
  lemma ConfiguredMagNotMip(o: SamplerOptions, minFilter: int, magFilter: int, wrapS: int, wrapT: int, wrapR: int)
    requires !IsMipFilter(magFilter)
    ensures !IsMipFilter(ConfiguredMag(o, minFilter, magFilter, wrapS, wrapT, wrapR))
  {
  }

  /**
   * The wrapR option is only looked at by the early-exit test: once `configure` goes on,
   * the R wrap mode it stores is the one it stores for T whenever the two started equal,
   * whatever the wrapR option says.
   */
  lemma ConfiguredWrapRFollowsT(o: SamplerOptions, x: Option<int>, minFilter: int, magFilter: int, wrapS: int, wrap: int)
    requires !Unchanging(o, minFilter, magFilter, wrapS, wrap, wrap)
    requires !Unchanging(o.(wrapR := x), minFilter, magFilter, wrapS, wrap, wrap)
    ensures ConfiguredWrapR(o, minFilter, magFilter, wrapS, wrap, wrap) == ConfiguredWrapT(o, minFilter, magFilter, wrapS, wrap, wrap)
    ensures ConfiguredWrapR(o, minFilter, magFilter, wrapS, wrap, wrap)
         == ConfiguredWrapR(o.(wrapR := x), minFilter, magFilter, wrapS, wrap, wrap)
  {
  }

  /** Turning the mipmap off always leaves a filter that needs no mipmap. */
  lemma MipmapOffNeedsNone(f: int)
    ensures !IsMipFilter(MipmapFilter(f, false))
  {
  }

  /** Turning the mipmap on makes a plain LINEAR or NEAREST filter mip-aware, and changes nothing else. */
  lemma MipmapOnNeedsMipmap(f: int)
    ensures f == LINEAR || f == NEAREST ==> IsMipFilter(MipmapFilter(f, true))
    ensures f != LINEAR && f != NEAREST ==> MipmapFilter(f, true) == f
  {
  }

  /** On then off gives a plain filter back; off then on gives back LINEAR_MIPMAP_LINEAR and NEAREST_MIPMAP_NEAREST. */
  lemma MipmapRoundTrip(f: int)
    ensures f == LINEAR || f == NEAREST ==> MipmapFilter(MipmapFilter(f, true), false) == f
    ensures f == LINEAR_MIPMAP_LINEAR || f == NEAREST_MIPMAP_NEAREST ==> MipmapFilter(MipmapFilter(f, false), true) == f
  {
  }

  /** The WebGL object is updated exactly when the filter actually changes. */
  lemma MipmapChangesExactly(f: int, on: bool)
    ensures MipmapChanges(f, on) <==> MipmapFilter(f, on) != f
  {
  }
}
