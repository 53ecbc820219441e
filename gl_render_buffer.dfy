/**
 * Render buffers (`GLRenderbuffer`): storage for a framebuffer attachment that is never
 * sampled as a texture. `create` is skipped when the size and format are already the
 * current ones; multisample storage is used exactly when more than one sample is asked for.
 */
module GLRenderbuffers {
  import opened Wrappers
  import opened GL
  import opened GLContexts

  /** The format `create` settles on: the given one, or UNSIGNED_BYTE when it is falsy. */
  function StorageFormat(format: Option<int>): (f: int)
    ensures format.Some? && format.value != 0 ==> f == format.value
    ensures format.None? || format.value == 0 ==> f == UNSIGNED_BYTE
  {
    if format.Some? && format.value != 0 then format.value else UNSIGNED_BYTE
  }

  /** The sample count `create` settles on: the given one, or 1 when it is falsy. */
  function SampleCount(samples: Option<int>): (n: int)
    ensures samples.Some? && samples.value != 0 ==> n == samples.value
    ensures samples.None? || samples.value == 0 ==> n == 1
  {
    if samples.Some? && samples.value != 0 then samples.value else 1
  }

  /** The storage allocation call for a sample count: multisample storage exactly when samples > 1. */
  function StorageCall(samples: int, format: int, width: int, height: int): (c: GLCall)
    ensures c.RenderbufferStorageMultisample? <==> samples > 1
    ensures c.RenderbufferStorage? <==> samples <= 1
    ensures c.RenderbufferStorageMultisample? ==>
      c.samples == samples && c.format == format && c.width == width as real && c.height == height as real
    ensures c.RenderbufferStorage? ==>
      c.format == format && c.width == width as real && c.height == height as real
  {
    if samples > 1 then RenderbufferStorageMultisample(samples, format, width as real, height as real)
    else RenderbufferStorage(format, width as real, height as real)
  }

  /** The calls of one allocation: bind the new handle, allocate, unbind. */
  function AllocationCalls(h: Handle, samples: int, format: int, width: int, height: int): seq<GLCall>
  {
    [BindRenderbuffer(Some(h)), StorageCall(samples, format, width, height), BindRenderbuffer(None)]
  }

  class GLRenderbuffer {
    const gl: GLContext
    var width: int
    var height: int
    var format: int
    /** The renderbuffer object; none while the field still holds its initial 0. */
    var handle: Option<Handle>
    var samples: int
    /**
     * `destroy` tests and clears a field named `object` that nothing else sets: it starts
     * undefined (which is `!= 0`) and is 0 once `destroy` has run.
     */
    var objectCleared: bool

    /** `new GLRenderbuffer(gl, width, height, format, samples)`: a `create` with sizes defaulting to 1. */
    constructor (gl: GLContext, width: Option<int>, height: Option<int>, format: Option<int>, samples: Option<int>)
      modifies gl`log, gl`nextHandle
      ensures this.gl == gl && !objectCleared
      ensures this.width == (if width.Some? && width.value != 0 then width.value else 1)
      ensures this.height == (if height.Some? && height.value != 0 then height.value else 1)
      ensures this.format == StorageFormat(format) && this.samples == SampleCount(samples)
      ensures handle == Some(old(gl.nextHandle))
      ensures gl.log == old(gl.log) + AllocationCalls(old(gl.nextHandle), this.samples, this.format, this.width, this.height)
    {
      this.gl := gl;
      this.width := 0;
      this.height := 0;
      this.format := 0;
      handle := None;
      this.samples := 1;
      objectCleared := false;
      new;
      var w := if width.Some? && width.value != 0 then width.value else 1;
      var h := if height.Some? && height.value != 0 then height.value else 1;
      Create(w, h, format, samples);
    }

    /**
     * `create(width, height, format, samples)`: nothing when the size and (defaulted) format are
     * the current ones; otherwise destroys an existing object, records the new size, format and
     * sample count, and allocates a fresh renderbuffer.
     */
    method Create(w: int, h: int, fmt: Option<int>, smp: Option<int>)
      modifies this`width, this`height, this`format, this`handle, this`samples, this`objectCleared,
               gl`log, gl`nextHandle
      ensures var f := StorageFormat(fmt);
        w == old(width) && h == old(height) && f == old(format) ==>
          gl.log == old(gl.log) && handle == old(handle) && samples == old(samples) &&
          objectCleared == old(objectCleared) && gl.nextHandle == old(gl.nextHandle)
      ensures var f := StorageFormat(fmt);
        !(w == old(width) && h == old(height) && f == old(format)) ==>
          width == w && height == h && format == f && samples == SampleCount(smp) &&
          handle == Some(old(gl.nextHandle)) &&
          objectCleared == (old(objectCleared) || old(handle).Some?) &&
          gl.log == old(gl.log) + (if old(handle).Some? then DestroyCalls(old(objectCleared)) else []) +
            AllocationCalls(old(gl.nextHandle), samples, f, w, h)
    {
      var f := StorageFormat(fmt);
      if w == width && h == height && f == format {
        return;
      }
      if handle.Some? {
        Destroy();
      }
      width := w;
      height := h;
      format := f;
      samples := SampleCount(smp);
      var nh := gl.NewHandle();
      handle := Some(nh);
      gl.Call(BindRenderbuffer(handle));
      gl.Call(StorageCall(samples, f, w, h));
      gl.Call(BindRenderbuffer(None));
    }

    /**
     * `destroy()`: the first call deletes the (never set) misspelled field's object and zeroes
     * the size and format; later calls do nothing. The handle itself is never released.
     */
    method Destroy()
      modifies this`width, this`height, this`format, this`objectCleared, gl`log
      ensures objectCleared && handle == old(handle)
      ensures gl.log == old(gl.log) + DestroyCalls(old(objectCleared))
      ensures !old(objectCleared) ==> width == 0 && height == 0 && format == 0
      ensures old(objectCleared) ==> width == old(width) && height == old(height) && format == old(format)
    {
      if !objectCleared {
        gl.Call(DeleteRenderbuffer(None));
        objectCleared := true;
        width := 0;
        height := 0;
        format := 0;
      }
    }

    /** `bind()`. */
    method Bind()
      modifies gl`log
      ensures gl.log == old(gl.log) + [BindRenderbuffer(handle)]
    {
      gl.Call(BindRenderbuffer(handle));
    }

    /** `unbind()`. */
    method Unbind()
      modifies gl`log
      ensures gl.log == old(gl.log) + [BindRenderbuffer(None)]
    {
      gl.Call(BindRenderbuffer(None));
    }

    /**
     * `resize(width, height)`: binds and reallocates storage of the new size with the current
     * format and sample count, without recording the new size and without unbinding.
     */
    method Resize(w: int, h: int)
      modifies gl`log
      ensures gl.log == old(gl.log) + [BindRenderbuffer(handle), StorageCall(samples, format, w, h)]
    {
      Bind();
      gl.Call(StorageCall(samples, format, w, h));
    }
  }

  /** What `destroy` issues: a delete of the absent object on its first run, nothing after. */
  function DestroyCalls(objectCleared: bool): (calls: seq<GLCall>)
    ensures |calls| <= 1 && (forall c :: c in calls ==> c == DeleteRenderbuffer(None))
    ensures calls == [] <==> objectCleared
  {
    if objectCleared then [] else [DeleteRenderbuffer(None)]
  }
}
