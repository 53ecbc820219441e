# loki WebGL core in Dafny

A model of the bookkeeping core of the loki WebGL engine, with its properties proved. It covers the
render-state stack, buffers, meshes, shader programs, textures, samplers, framebuffers,
renderbuffers, the texture/framebuffer resource pools, the context configuration decisions and the
immediate-mode draw helper. It also covers the plane-mesh generator, the `#rgb`/`#rrggbb` colour
notation of CSS Color Module Level 3 (section 4.2.1), the xorwow random-number step and the
helpers of `loki.js`.

WebGL itself is not modelled: the WebGL calls of the modelled operations are appended to an
abstract call log held by the `GLContext` class (`GLContexts`), and WebGL objects are opaque
numeric handles handed out by that context. Two groups of calls are summarised rather than logged
one by one: building a shader program logs one `ShaderSource` entry per stage and a `LinkProgram`
entry (the createShader, compileShader, attachShader and deleteShader calls are not entries), and
the draw helper's global mesh is a value whose streams change without any call. What the driver answers (compile and link status, framebuffer completeness,
extension availability, active uniforms and attributes) arrives as parameters. A JavaScript
exception is an `Outcome` value (`Done` or `Threw(message)`); whatever state the source changes
before the throw is changed in the model too.

Layout: one module per source file (`GLStates`, `GLBuffers`, `GLMeshes`, `GLShaders`,
`GLTextures`, `GLSamplers`, `GLFramebuffers`, `GLRenderbuffers`, `GLResourceManagers`,
`GLContexts`, `GLDraws`, `PlaneMeshes`, `Colors`, `Randoms`, `Loki`). Helper modules:
- `Wrappers`: `Option`.
- `GL`: the WebGL enum values.
- `TypedArrays`: element types and their conversions.
- `OrderedMaps`: an insertion-ordered map, for JavaScript `Map` and object key order.

Classes stand for the source's classes whose fields change in place; a method's contract states
the fields it changes and, for most methods, the call log it appends; the methods whose log is
not stated are named under "## Left out". Pure logic (decision tables, string handling, grid generation) is functions with lemmas.

## Model

| member | source | states |
|---|---|---|
| GLStates.EmptyFrame | loki/gl/gl_state.js:17-20 | a new frame is an empty `Map`: no entries, no states, no flags |
| GLStates.PutState | loki/gl/gl_state.js:136 | writing a state into a frame replaces its value and appends the key to the insertion order only when it is new; flags are untouched |
| GLStates.PutFlag | loki/gl/gl_state.js:99-104 | recording a flag creates the frame's flag map on first use (appended to the entry order) and keeps the flag map's own insertion order |
| GLStates.NearestStateIndex | loki/gl/gl_state.js:59-70 | the index found is the highest frame holding the state: no frame above it holds it, and none means no frame holds it |
| GLStates.NearestFlagIndex | loki/gl/gl_state.js:42-56 | the index found is the highest frame whose flag map holds the flag: no frame above it does, and none means no frame does |
| GLStates.GLState.constructor | loki/gl/gl_state.js:10-15 | a new state stack is empty, bound to its context, with a zero skip count |
| GLStates.GLState.Push | loki/gl/gl_state.js:17-20 | push appends one empty frame and changes nothing else |
| GLStates.GLState.FindState | loki/gl/gl_state.js:59-70 | the downward scan returns exactly the nearest frame holding the state |
| GLStates.GLState.FindFlag | loki/gl/gl_state.js:42-56 | the downward scan over flag maps returns exactly the nearest frame holding the flag |
| GLStates.GLState.Pop | loki/gl/gl_state.js:22-77 | pop on an empty stack changes nothing; otherwise it removes the top frame, re-issues each of its entries in insertion order from the nearest remaining frame (stopping at a stored null, which throws) and resets the skip count only when the stack becomes empty |
| GLStates.GLState.ReissueAll | loki/gl/gl_state.js:34-72 | the restore loop appends exactly the calls of the entries before the first one that throws, and reports whether one threw |
| GLStates.GLState.ReissueEntry | loki/gl/gl_state.js:35-71 | one entry of the popped frame: its flag map re-enables or re-disables each flag from the nearest remaining setting; a state re-issues the nearest remaining value with arrays spread |
| GLStates.GLState.SetFlag | loki/gl/gl_state.js:84-110 | with no frame it throws and changes nothing; otherwise the flag is recorded in the top frame and exactly one enable or disable is issued (the pre-scan compares with the shadowing frame, so it never skips) |
| GLStates.GLState.EnableFlag | loki/gl/gl_state.js:112-114 | enable records the flag as on and issues one enable |
| GLStates.GLState.DisableFlag | loki/gl/gl_state.js:116-118 | disable records the flag as off and issues one disable |
| GLStates.GLState.Set | loki/gl/gl_state.js:120-142 | no frame or undefined: nothing; a value deep-equal to the nearest stored one is skipped and counted; otherwise it is written to the top frame only and its setter called once with arrays spread, and a null throws after the write |
| GLStates.GLState.FindSkip | loki/gl/gl_state.js:124-135 | the scan of set reports a skip exactly when the nearest frame holding the state has a deep-equal value |
| GLStates.GLState.Get | loki/gl/gl_state.js:144-146 | get reads the top frame only (undefined when absent) and fails exactly when there is no frame |
| GLStates.GLState.Has | loki/gl/gl_state.js:148-150 | has answers for the top frame only and fails exactly when there is no frame |
| GLStates.RestoreEntriesThrown | loki/gl/gl_state.js:59-70 | once an entry throws, no later entry of the popped frame is re-issued |
| GLStates.RestoreEntriesStep | loki/gl/gl_state.js:34-72 | the restore of one more entry extends the calls so far, unless an earlier entry threw |
| GLStates.RestoreOneState | loki/gl/gl_state.js:58-71 | popping a frame that set one state re-issues the nearest remaining value of it, or nothing when no remaining frame holds it |
| GLStates.RestoreOneFlag | loki/gl/gl_state.js:37-57 | popping a frame that toggled one flag re-issues the nearest remaining setting, or nothing when no remaining frame holds it |
| GLStates.RestoreEntries | loki/gl/gl_state.js:34-72 | the calls that pop issues for the entries of the popped frame in order, stopping at the first that throws; RestoreEntriesStep and RestoreEntriesThrown state it |
| GLStates.RestoreFlagsBound | loki/gl/gl_state.js:39-57 | restoring flags issues at most one call per flag of the popped frame |
| GLStates.SetTwiceSkips | loki/gl/gl_state.js:124-135 | setting the value just set (other than NaN) is always skipped |
| GLTextures.Log2FloorBounds | loki/gl/gl_texture.js:268 | the floor of log2 of a positive size is the exponent of the largest power of two not above it |
| GLTextures.Log2Floor | loki/gl/gl_texture.js:268 | floor(log2(n)) of a positive size; Log2FloorBounds states it |
| GLTextures.MipLevelCount | loki/gl/gl_texture.js:266-271 | the level count is 1 + floor(log2(max(width, height))) for a positive size, minus infinity for 0 and NaN for a negative size |
| GLTextures.ErrorOutcome | loki/gl/gl_texture.js:563-569 | a decision with a message throws that message, and one without completes |
| GLTextures.DepthDecision | loki/gl/gl_texture.js:554-570 | depth textures force NEAREST filtering; on WebGL 2 they succeed exactly for UNSIGNED_SHORT, UNSIGNED_INT and FLOAT with the 16, 24 and 32F depth formats, on WebGL 1 they fail exactly for FLOAT |
| GLTextures.ColorDecision | loki/gl/gl_texture.js:552-601 | RGBA and RGB never throw; on WebGL 2 FLOAT gives 32F and HALF_FLOAT 16F, with HALF_FLOAT_OES renamed HALF_FLOAT; on WebGL 1 the internal format is the format and HALF_FLOAT is renamed HALF_FLOAT_OES |
| GLTextures.OtherFormatDecision | loki/gl/gl_texture.js:551-552 | any other format is its own internal format and keeps its type |
| GLTextures.DecisionIdempotent | loki/gl/gl_texture.js:551-602 | deciding again on the decided type gives the same decision |
| GLTextures.ToTypedArray | loki/gl/gl_texture.js:604-615 | a typed array passes through; a plain array becomes Float32 for FLOAT, Uint16 for the half-float types and Uint8 otherwise, with the same values |
| GLTextures.Pixels2D | loki/gl/gl_texture.js:296-319 | a 2D create uploads no pixels without data and the bytes of a plain array otherwise |
| GLTextures.CubeFacesOf | loki/gl/gl_texture.js:335-347 | cube data gives six faces, or no pixels at all, or the TypeError of an empty list |
| GLTextures.CubeReplicates | loki/gl/gl_texture.js:337-341 | a single typed array, or a non-empty flat number array, is replicated to all six faces |
| GLTextures.CubeFacesInOrder | loki/gl/gl_texture.js:342-345 | a list of face sources gives face i its i-th entry |
| GLTextures.CubeUploads | loki/gl/gl_texture.js:357-373 | a cube allocation is six texImage2D calls in +X, -X, +Y, -Y, +Z, -Z order, each with its face's pixels |
| GLTextures.AnisotropyOf | loki/gl/gl_texture.js:70-72 | the anisotropy is 1 when absent or zero, the maximum when negative, and otherwise the option capped by the maximum |
| GLTextures.GLTexture.constructor | loki/gl/gl_texture.js:16-26 | a new texture has no WebGL object, is not a video, is 0 x 0 and has no mipmap |
| GLTextures.GLTexture.Init | loki/gl/gl_texture.js:54-79 | each parameter comes from its option, else the shared option, else its default; the internal format is the given one or the decision on format and type, which may throw |
| GLTextures.DecideInternalFormat | loki/gl/gl_texture.js:551-602 | the internal format chosen from format and type; DepthDecision, ColorDecision, OtherFormatDecision and DecisionIdempotent state it |
| GLTextures.GLTexture.UpdateInternalFormat | loki/gl/gl_texture.js:551-602 | the internal format, the type and for depth the minification filter become the decision's, and its message is thrown |
| GLTextures.GLTexture.ApplyTextureParameters | loki/gl/gl_texture.js:426-458 | filters and wraps are written, the anisotropy unless both filters are NEAREST, then the flip-Y unpack flag |
| GLTextures.GLTexture.ClearMipmap | loki/gl/gl_texture.js:91-94 | the texture no longer has a mipmap and has 0 levels |
| GLTextures.GLTexture.GenerateMipmap | loki/gl/gl_texture.js:266-271 | the texture has a mipmap with the level count of its size and one generateMipmap call is issued |
| GLTextures.GLTexture.EnsureHandle | loki/gl/gl_texture.js:298-301 | a WebGL object is created only when the texture has none |
| GLTextures.GLTexture.Resize | loki/gl/gl_texture.js:273-286 | without a WebGL object nothing changes; a 2D texture is reallocated empty at the new size and loses its mipmap; a cube texture is left unchanged |
| GLTextures.GLTexture.Destroy | loki/gl/gl_texture.js:383-389 | with a WebGL object it is deleted, the handle cleared and the mipmap forgotten; without one nothing changes |
| GLTextures.GLTexture.Create | loki/gl/gl_texture.js:288-381 | the last unit is selected and a WebGL object made if needed; 2D and cube targets then get parameters, size, format, type, the format decision and their uploads; other targets nothing more |
| GLTextures.GLTexture.PrepareTarget | loki/gl/gl_texture.js:306-351 | the texture is bound to the target, its mipmap forgotten and its parameters written |
| GLTextures.GLTexture.FinishCreate | loki/gl/gl_texture.js:323-379 | the optional mipmap is built and the target unbound |
| GLTextures.GLTexture.PrepareAndDecide | loki/gl/gl_texture.js:349-355 | binding, parameters and the format decision shared by both branches of create |
| GLTextures.GLTexture.Create2D | loki/gl/gl_texture.js:303-327 | a 2D create records size, format and type and uploads one texImage2D with the given or decided internal format |
| GLTextures.GLTexture.UploadCubeFaces | loki/gl/gl_texture.js:357-373 | the six face uploads are appended in face order |
| GLTextures.GLTexture.CreateCube | loki/gl/gl_texture.js:328-380 | a cube create records size, format and type and uploads the six faces, or throws on an empty face list |
| GLTextures.GLTexture.StoreElement | loki/gl/gl_texture.js:198-209 | the element is uploaded with texImage2D when reallocating and texSubImage2D otherwise; size, format and type follow a reallocation |
| GLTextures.GLTexture.UploadElement | loki/gl/gl_texture.js:188-217 | an element upload binds to the last unit, clears the mipmap, writes parameters, stores the pixels, optionally builds the mipmap and unbinds |
| GLTextures.GLTexture.ConfigureElement | loki/gl/gl_texture.js:96-220 | no source or a zero-sized one answers false and changes nothing; otherwise the texture becomes a video, is uploaded with reallocation exactly for a video or a changed size, format or type, and answers true |
| GLTextures.GLTexture.Setup | loki/gl/gl_texture.js:28-47 | the constructor runs init (throwing on a bad format) then configure for a source, else create when both width and height are given; without a size nothing is created and the size is kept; a created 2D texture has the given size and succeeds unless its format is depth |
| GLTextures.GLTexture.ActivateAndBind | loki/gl/gl_texture.js:399-405 | the unit is selected, the other target cleared and this texture bound to its own |
| GLTextures.GLTexture.Bind | loki/gl/gl_texture.js:391-412 | the texture is recorded under the unit as given; the unit (0 when falsy, clamped to the last) is selected and the texture bound; a sampler is bound to that unit after its pending parameter writes, with a null texture reference; without one the unit's sampler is cleared on WebGL 2, while on WebGL 1 (no `bindSampler`) the call throws a TypeError exactly then, after the texture is bound |
| GLTextures.GLTexture.Unbind | loki/gl/gl_texture.js:414-423 | without a unit the texture is cleared from every slot holding it; with one, that slot only |
| GLTextures.SamplerBind | loki/gl/gl_sampler.js:217-243 | a sampler bind selects the unit, records and binds the texture (building its mipmap first when the sampler needs one it lacks), updates a dirty sampler and attaches it to the unit |
| GLTextures.BindForSampler | loki/gl/gl_sampler.js:224-236 | the texture part of a sampler bind |
| GLTextures.ClearedBelowSpec | loki/gl/gl_texture.js:637-646 | clearing by texture empties exactly the slots holding it and leaves every other slot alone |
| GLTextures.ClearCallsCount | loki/gl/gl_texture.js:639-643 | each cleared slot costs one activeTexture and one bindTexture call |
| GLTextures.SetBoundNullCreatesNothing | loki/gl/gl_texture.js:617-621 | recording null on a context without a table creates no table |
| GLTextures.SetBound | loki/gl/gl_texture.js:617-629 | the table after setBoundTexture: the texture recorded under the unit, and no table created for null; Bind relays it |
| GLTextures.Unbound | loki/gl/gl_texture.js:631-650 | the table after unbindTexture without a unit: every one of the 32 units cleared of the texture; nothing without a table |
| GLTextures.BoundTextures.constructor | loki/gl/gl_texture.js:663 | the bound-texture map starts empty |
| GLTextures.BoundTextures.SetBoundTexture | loki/gl/gl_texture.js:617-629 | the texture is recorded under the unit, creating the context's table unless the texture is null |
| GLTextures.BoundTextures.UnbindTexture | loki/gl/gl_texture.js:631-646 | every one of the 32 slots holding the texture is cleared and its target unbound on that unit; nothing without a table |
| GLTextures.BoundTextures.UnbindUnit | loki/gl/gl_texture.js:631-656 | only the named slot is cleared, when it holds any texture |
| GLSamplers.MagFilterValue | loki/gl/gl_sampler.js:85-95 | the stored magnification filter is never mip-aware: LINEAR_MIPMAP_* become LINEAR, NEAREST_MIPMAP_* become NEAREST, anything else is kept |
| GLSamplers.Either | loki/gl/gl_sampler.js:59-63 | `a \|\| b \|\| d`: the first truthy option, else the current value |
| GLSamplers.GLSampler.constructor | loki/gl/gl_sampler.js:22-36 | a new sampler starts with LINEAR filters and CLAMP_TO_EDGE on S, T and R, is created and dirty, and then has its options applied |
| GLSamplers.GLSampler.SetMinFilter | loki/gl/gl_sampler.js:73-77 | an equal value changes nothing; another is stored and marks the sampler dirty |
| GLSamplers.GLSampler.SetMagFilter | loki/gl/gl_sampler.js:85-95 | an equal value changes nothing; another is stored without its mipmap part and marks the sampler dirty |
| GLSamplers.GLSampler.SetWrapS | loki/gl/gl_sampler.js:103-107 | an equal value changes nothing; another is stored and marks the sampler dirty |
| GLSamplers.GLSampler.SetWrapT | loki/gl/gl_sampler.js:115-119 | an equal value changes nothing; another is stored and marks the sampler dirty |
| GLSamplers.GLSampler.SetWrapR | loki/gl/gl_sampler.js:127-131 | an equal value changes nothing; another is stored and marks the sampler dirty |
| GLSamplers.GLSampler.Configure | loki/gl/gl_sampler.js:49-64 | nothing changes when all five options equal the current values; otherwise each parameter takes its option, the shared option or its old value, and wrapR takes the wrapT option |
| GLSamplers.GLSampler.Create | loki/gl/gl_sampler.js:178-184 | an existing WebGL object is kept; otherwise one is created and the sampler marked dirty |
| GLSamplers.GLSampler.Destroy | loki/gl/gl_sampler.js:189-195 | without a WebGL object nothing happens; otherwise it is deleted and forgotten |
| GLSamplers.GLSampler.Update | loki/gl/gl_sampler.js:200-211 | without a WebGL object nothing happens; otherwise the five parameters are written in order and the dirty flag cleared |
| GLSamplers.GLSampler.SetMipmap | loki/gl/gl_sampler.js:154-173 | turning the mipmap on maps LINEAR and NEAREST to their mipmapped filters, off maps each mipmapped filter back; the object is updated only when the filter changed, other filters are untouched |
| GLSamplers.GLSampler.Unbind | loki/gl/gl_sampler.js:249-251 | the unit (0 when absent) loses its sampler with one call |
| GLSamplers.ConfiguredMagNotMip | loki/gl/gl_sampler.js:60-95 | configure never stores a mip-aware magnification filter |
| GLSamplers.ConfiguredWrapRFollowsT | loki/gl/gl_sampler.js:55-63 | once configure goes on, the wrapR option has no effect: R gets what T gets |
| GLSamplers.MipmapOffNeedsNone | loki/gl/gl_sampler.js:148-163 | after turning the mipmap off the filter needs no mipmap |
| GLSamplers.MipmapOnNeedsMipmap | loki/gl/gl_sampler.js:148-172 | turning the mipmap on makes LINEAR and NEAREST mip-aware and leaves every other filter alone |
| GLSamplers.MipmapRoundTrip | loki/gl/gl_sampler.js:154-173 | on then off gives the plain filter back; off then on gives LINEAR_MIPMAP_LINEAR or NEAREST_MIPMAP_NEAREST back |
| GLSamplers.MipmapChangesExactly | loki/gl/gl_sampler.js:154-173 | the WebGL object is updated exactly when the mipmap assignment changes the filter |
| GLSamplers.MipmapFilter | loki/gl/gl_sampler.js:154-173 | the filter after assigning mipmap; MipmapOnNeedsMipmap, MipmapOffNeedsNone and MipmapRoundTrip state it |
| GLShaders.IndexOfFrom | loki/gl/gl_shader.js:131-133 | the index found is the first occurrence at or after the start; none means no occurrence there |
| GLShaders.IndexOf | loki/gl/gl_shader.js:486-488 | `indexOf`: the first occurrence of the pattern, none (-1) when it does not occur |
| GLShaders.Trim | loki/gl/gl_shader.js:487 | the result of `trim` neither starts nor ends with white space or a line terminator |
| GLShaders.TrimmedIsTrim | loki/gl/gl_shader.js:487 | a string that neither starts nor ends with white space is its own trim |
| GLShaders.DigitsOf | loki/gl/gl_shader.js:473 | the decimal text of a number is non-empty and made of digits only |
| GLShaders.MacroText | loki/gl/gl_shader.js:473 | every falsy macro value (false, 0, "", null) gives the empty text |
| GLShaders.DefineLineBreak | loki/gl/gl_shader.js:473 | a `#define` line whose name and value hold no line break has exactly one, at its end |
| GLShaders.MacroCodeLines | loki/gl/gl_shader.js:469-477 | the expanded macros hold exactly one line per macro |
| GLShaders.MacroCode | loki/gl/gl_shader.js:469-477 | one "#define name value" line per macro in key order, a falsy value written empty; MacroCodeLines states it |
| GLShaders.ExpandMacros | loki/gl/gl_shader.js:469-477 | the loop produces one `#define NAME VALUE` line per macro key, in key order |
| GLShaders.InjectAfterVersion | loki/gl/gl_shader.js:485-492 | a trimmed `#version` first line stays first, the injected text follows on its own line and the rest of the code follows unchanged |
| GLShaders.VersionLineIsTrimmed | loki/gl/gl_shader.js:487 | a first line without surrounding white space is the trimmed first line |
| GLShaders.InjectAtBreak | loki/gl/gl_shader.js:485-492 | without `#version` in the first line the injected text is prepended; with it, it goes after the trimmed first line, in front of the code from the first line break |
| GLShaders.InjectCode | loki/gl/gl_shader.js:485-492 | the meaning of injectCode; InjectAfterVersion and InjectAtBreak state where the text goes |
| GLShaders.CanonicalNameIdempotent | loki/gl/gl_shader.js:131-137 | canonicalising a uniform name twice gives the same name as once |
| GLShaders.CanonicalNameNoBracket | loki/gl/gl_shader.js:131-137 | a name cut at its first `[` holds no `[`; a name holding `].` is kept whole |
| GLShaders.CanonicalName | loki/gl/gl_shader.js:131-137 | the stored uniform name: cut at the first "[" unless it holds "]."; CanonicalNameIdempotent and CanonicalNameNoBracket state it |
| GLShaders.TypeLength | loki/gl/gl_shader.js:148 | the component count is the table's when positive, else 1 |
| GLShaders.InfoOf | loki/gl/gl_shader.js:144-158 | a uniform entry records type, size, location and type length, is a matrix exactly for MAT2/3/4 and has no array storage |
| GLShaders.CanonicalNames | loki/gl/gl_shader.js:124-137 | one canonical name per active uniform, in order |
| GLShaders.SamplerNames | loki/gl/gl_shader.js:139-142 | the canonical names of the sampler uniforms, in order |
| GLShaders.AttribNames | loki/gl/gl_shader.js:163-171 | one name per active attribute, in order |
| GLShaders.LastIndex | loki/gl/gl_shader.js:150-166 | the position found is the last one holding the name, none when absent |
| GLShaders.UniformTable | loki/gl/gl_shader.js:122-159 | the uniform table is keyed by canonical names only |
| GLShaders.UniformTableEntries | loki/gl/gl_shader.js:124-159 | the table holds exactly the canonical names of the active uniforms, each with the entry of the last uniform of that name |
| GLShaders.UniformTableCanonical | loki/gl/gl_shader.js:131-150 | every name in the uniform table is canonical |
| GLShaders.TextureTable | loki/gl/gl_shader.js:139-142 | the sampler table maps names to sampler types only |
| GLShaders.TextureTableKeys | loki/gl/gl_shader.js:139-142 | the sampler table holds exactly the canonical names of the SAMPLER_2D, SAMPLER_CUBE and SAMPLER_3D uniforms |
| GLShaders.AttributeTable | loki/gl/gl_shader.js:161-171 | the attribute table is keyed by attribute names |
| GLShaders.AttributeTableEntries | loki/gl/gl_shader.js:161-171 | the attribute table holds exactly the active attributes' names, each with the last such attribute's size, type and location |
| GLShaders.DisableAll | loki/gl/gl_shader.js:209-212 | one disable call per attribute location, in table order |
| GLShaders.PreambleCode | loki/gl/gl_shader.js:43-46 | the preamble is the given macros plus `WEBGL` set to the context's version, expanded |
| GLShaders.ApplyUniformStorage | loki/gl/gl_shader.js:314-320 | array storage is allocated once with `typeLength * size` elements and keeps that size; an array value fills its front and leaves the rest |
| GLShaders.ApplyUniformArray | loki/gl/gl_shader.js:314-326 | an array value that fits is copied into the storage and that whole storage is sent |
| GLShaders.ApplyUniformCalls | loki/gl/gl_shader.js:306-326 | no call for a null location or a null or undefined value; otherwise one call, with transpose false for matrices |
| GLShaders.ApplyUniform | loki/gl/gl_shader.js:306-326 | the effect of setUniform on a known entry; ApplyUniformStorage, ApplyUniformArray and ApplyUniformCalls state it |
| GLShaders.UploadOne | loki/gl/gl_shader.js:275-329 | a name the program lacks changes nothing; a known one is set by the uniform rules; a deleted table throws |
| GLShaders.UploadsTo | loki/gl/gl_shader.js:275-282 | the values are set one after the other, stopping at the first that throws |
| GLShaders.UploadsKeepNames | loki/gl/gl_shader.js:275-282 | setting uniforms never adds or removes a uniform: the table keeps its names and their order |
| GLShaders.UploadsUnknown | loki/gl/gl_shader.js:276-279 | values for names the program does not have make no call and store nothing |
| GLShaders.UploadsAfterThrow | loki/gl/gl_shader.js:275-282 | once a value throws, the later ones change nothing |
| GLShaders.FeedOf | loki/gl/gl_shader.js:402-417 | a stream is used only when the shader has its attribute (by `attribute` or name), with a non-null location, and it has been uploaded |
| GLShaders.Marks | loki/gl/gl_shader.js:399-418 | the 16 marks are 0 or 1 |
| GLShaders.MarksUsed | loki/gl/gl_shader.js:399-418 | a mark is set exactly at the locations below 16 that some used buffer feeds |
| GLShaders.Quotient | loki/gl/gl_shader.js:425 | `length / itemSize` is exact for a nonzero item size and infinite or NaN otherwise |
| GLShaders.RangeOffset | loki/gl/gl_shader.js:429-432 | the first element drawn is the range start when positive, else 0 |
| GLShaders.DrawCount | loki/gl/gl_shader.js:429-440 | the element count drawn: the index count less the offset with an index buffer, the vertex count without, then a smaller positive range length; IndexedCountBound states it never passes the end of the index buffer |
| GLShaders.DrawOffset | loki/gl/gl_shader.js:429-445 | the draw offset: the range start scaled by the byte size of an index element, unscaled without index data |
| GLShaders.ViewOf | loki/gl/gl_shader.js:434-444 | the index buffer as a draw reads it: its handle, length, type and data |
| GLShaders.DisableUnused | loki/gl/gl_shader.js:448-453 | one disable per shader location left unmarked, in table order |
| GLShaders.IndexedCountBound | loki/gl/gl_shader.js:434-440 | an indexed draw never counts past the end of the index buffer from its offset |
| GLShaders.DisableUnusedExact | loki/gl/gl_shader.js:448-453 | a shader location is disabled exactly when no used buffer feeds it |
| GLShaders.DisableUnusedHas | loki/gl/gl_shader.js:448-453 | a location is among the disables exactly when it is a shader location whose mark is clear |
| GLShaders.IndexSetName | loki/gl/gl_shader.js:342-366 | the default index set is "lines" for LINES and "triangles" otherwise; a given name is kept |
| GLShaders.ShaderBinding.constructor | loki/gl/gl_shader.js:501-502 | a context starts without a current shader and with 16 clear marks |
| GLShaders.GLShader.constructor | loki/gl/gl_shader.js:10-16 | a new shader is invalid, unbound, without program and with empty tables |
| GLShaders.GLShader.AttributeLocation | loki/gl/gl_shader.js:225-228 | the location of a known attribute, null for an unknown one, a throw after destroy |
| GLShaders.GLShader.UniformLocation | loki/gl/gl_shader.js:235-238 | the location of a known uniform, null for an unknown one, a throw after destroy |
| GLShaders.GLShader.Unbind | loki/gl/gl_shader.js:203-217 | an invalid shader answers false and changes nothing; a current one disables every attribute location, unsets the program and leaves no current shader; otherwise nothing changes |
| GLShaders.GLShader.DisableAllLocations | loki/gl/gl_shader.js:209-212 | every attribute location of the shader is disabled, in table order |
| GLShaders.GLShader.Bind | loki/gl/gl_shader.js:186-198 | an invalid shader answers false and changes nothing; otherwise it becomes the single current shader, after the previous current shader was unbound |
| GLShaders.GLShader.Destroy | loki/gl/gl_shader.js:22-35 | a current shader is unbound, an existing program deleted with both tables, and the shader becomes invalid |
| GLShaders.GLShader.CreateFromSource | loki/gl/gl_shader.js:37-174 | an old program is destroyed, the preamble injected into both sources and the tables reset; the shader is valid with tables read from the program exactly when both stages compile and the program links; without an old program the log grows by exactly the compile calls |
| GLShaders.GLShader.ReleaseProgram | loki/gl/gl_shader.js:39-41 | an existing program is destroyed first |
| GLShaders.GLShader.Compile | loki/gl/gl_shader.js:50-120 | failure of either stage deletes both shaders and answers false with empty tables; otherwise the link decides |
| GLShaders.GLShader.ResetSources | loki/gl/gl_shader.js:50-56 | the sources are stored, the tables emptied and the shader invalid |
| GLShaders.GLShader.Link | loki/gl/gl_shader.js:97-173 | a program is created when missing, both stages attached and linked; on success the tables hold the program's uniforms, samplers and attributes |
| GLShaders.GLShader.ReadUniforms | loki/gl/gl_shader.js:122-159 | the uniform and sampler tables are built from the active uniforms |
| GLShaders.GLShader.ReadAttributes | loki/gl/gl_shader.js:161-171 | the attribute table is built from the active attributes |
| GLShaders.GLShader.MakeCurrent | loki/gl/gl_shader.js:261-264 | the shader becomes current with one useProgram, or nothing when it already is; the previous one is not unbound |
| GLShaders.GLShader.SetUniformValue | loki/gl/gl_shader.js:294-329 | the shader becomes current and the named uniform is set by the uniform rules; unknown names change nothing |
| GLShaders.GLShader.SetUniforms | loki/gl/gl_shader.js:248-283 | the shader becomes current and each known uniform is set in turn, unknown ones skipped |
| GLShaders.GLShader.UploadValues | loki/gl/gl_shader.js:275-282 | the loop of setUniforms leaves the table and calls of the fold over the values |
| GLShaders.GLShader.ResetMarks | loki/gl/gl_shader.js:399-400 | all 16 marks are cleared |
| GLShaders.GLShader.UseFeeds | loki/gl/gl_shader.js:402-426 | each used buffer is bound, enabled and described, its location marked, and the vertex count is the last one's |
| GLShaders.GLShader.DisableUnusedLocations | loki/gl/gl_shader.js:447-453 | every shader location without a mark is disabled, in table order |
| GLShaders.DisableLocations | loki/gl/gl_shader.js:447-453 | the loop over the attribute names disables, in name order, each listed location whose mark is clear, and issues nothing else |
| GLShaders.GLShader.DrawBuffers | loki/gl/gl_shader.js:384-467 | a zero range length does nothing; otherwise the shader becomes current, used buffers are bound, unused locations disabled and one draw made with the clamped count and scaled offset, only when the count is nonzero |
| GLShaders.GLShader.DrawCurrent | loki/gl/gl_shader.js:397-466 | the draw once the shader is current: marks, vertex buffers, then the tail |
| GLShaders.GLShader.BindAndDraw | loki/gl/gl_shader.js:402-466 | the vertex buffers then the count, disables and draw |
| GLShaders.GLShader.FinishDraw | loki/gl/gl_shader.js:428-464 | count, offset, disables and the draw call |
| GLShaders.GLShader.DrawMesh | loki/gl/gl_shader.js:340-351 | the mesh's vertex buffers are drawn with its default or named index set, in TRIANGLES mode when no mode is given |
| GLShaders.GLShader.DrawRange | loki/gl/gl_shader.js:362-373 | the same for a sub-range of the mesh |
| GLMeshes.CommonBuffer | loki/gl/gl_mesh.js:527-537 | the stream schema: exactly the nine common names, each with its item size and attribute `a_<name>`, bone indices as bytes and the rest as 32-bit floats |
| GLMeshes.FlattenAppend | loki/gl/gl_mesh.js:150-157 | flattening two runs of rows gives the two flattenings one after the other |
| GLMeshes.FlattenRows | loki/gl/gl_mesh.js:150-157 | flattening keeps every entry in order: row i starts after the entries of the rows before it |
| GLMeshes.FlattenLength | loki/gl/gl_mesh.js:150-157 | the flattened length is the total number of entries |
| GLMeshes.Flatten | loki/gl/gl_mesh.js:150-157 | the one-level linearisation of nested index arrays; FlattenAppend, FlattenRows and FlattenLength state it |
| GLMeshes.IndexKind | loki/gl/gl_mesh.js:159-166 | plain index numbers become 32-bit only when the vertex count exceeds 65536, else 16-bit |
| GLMeshes.IndexArray | loki/gl/gl_mesh.js:145-166 | nested index arrays are flattened, plain numbers cast to the index kind, typed arrays kept, with the same values |
| GLMeshes.VertexArray | loki/gl/gl_mesh.js:107-118 | plain vertex numbers take the schema's kind, typed arrays are kept, with the same values |
| GLMeshes.PlainVertexKinds | loki/gl/gl_mesh.js:112-118 | plain bone indices become bytes and every other plain schema stream 32-bit floats |
| GLMeshes.PutAll | loki/gl/gl_mesh.js:459-467 | copying a group's entries stores each of them, later entries winning |
| GLMeshes.RouteEntry | loki/gl/gl_mesh.js:454-476 | one entry of a configure argument is routed by its key, and `info` is noted exactly when a truthy `info` entry passes |
| GLMeshes.Route | loki/gl/gl_mesh.js:449-477 | the entries are routed one after the other, in order, into three well-formed insertion-ordered maps |
| GLMeshes.RouteSorts | loki/gl/gl_mesh.js:454-543 | every truthy entry lands in exactly one place: index names with the index streams, schema names with the vertex streams, every other name except the groups and `info` with the options; falsy entries land nowhere |
| GLMeshes.RouteEntryKey | loki/gl/gl_mesh.js:468-476 | routing an entry stores its own key where the sorting rule says |
| GLMeshes.RouteEntryOther | loki/gl/gl_mesh.js:454-477 | routing another key leaves this one where it was, except through the two groups |
| GLMeshes.GLMesh.constructor | loki/gl/gl_mesh.js:10-14 | a new mesh has no buffers and no properties |
| GLMeshes.GLMesh.NumVertices | loki/gl/gl_mesh.js:44-50 | 0 without positions, else the position data's length over its item size (a throw without data) |
| GLMeshes.GLMesh.NumTriangles | loki/gl/gl_mesh.js:55-61 | the "triangles" index count over 3 when that set exists, else the vertex count over 3 |
| GLMeshes.GLMesh.GetVertexBuffer | loki/gl/gl_mesh.js:277-279 | the vertex buffer under the name, none when absent |
| GLMeshes.GLMesh.GetIndexBuffer | loki/gl/gl_mesh.js:286-288 | the index buffer under the name, none when absent |
| GLMeshes.GLMesh.AddBuffer | loki/gl/gl_mesh.js:68-83 | the buffer is filed by its target under the name and, without an attribute, gets the schema's or the name |
| GLMeshes.GLMesh.CreateVertexBuffer | loki/gl/gl_mesh.js:185-223 | attribute and item size default from the schema; no attribute, no data or untyped data throw; otherwise a new uploaded vertex buffer is stored under the name |
| GLMeshes.GLMesh.UpdateVertexBuffer | loki/gl/gl_mesh.js:233-254 | an unknown name or empty data changes nothing, with no call; otherwise the given attribute and item size are stored and the data is uploaded into the existing buffer: its name and data stay, the upload's item size is the buffer's item size, a throw keeps the uploaded array and element type, and its context's log grows by exactly that upload's calls; only that buffer's attribute, item size and upload fields and its context's log and handle counter may change |
| GLMeshes.GLMesh.CreateIndexBuffer | loki/gl/gl_mesh.js:297-315 | plain numbers are accepted only when the mesh has positions and are then always cast to 16-bit indices, since the item count that would select 32 bits is never set; a typed array other than Float64 is kept; the new buffer replaces any under the name and holds exactly the cast values |
| GLMeshes.GLMesh.RemoveVertexBuffer | loki/gl/gl_mesh.js:261-270 | only the named vertex entry goes; freeing throws because buffers have no `delete` |
| GLMeshes.GLMesh.RemoveIndexBuffer | loki/gl/gl_mesh.js:322-331 | only the named index entry goes; freeing throws because buffers have no `delete` |
| GLMeshes.GLMesh.AddBuffers | loki/gl/gl_mesh.js:91-171 | with acceptable kinds the call succeeds; old vertex buffers stay under their names, and old index buffers under names with no present index stream; the vertex and index names become the old ones plus the present streams; each new vertex buffer is new, distinct from every old one, has the schema attribute and item size, and holds the stream converted to its kind; an unshared old buffer holds the new data, or keeps every field (data included) when its stream is empty; each index buffer is fresh and holds the index data cast for the vertex count; only the old vertex buffers' attribute, item size and upload fields and the contexts' logs and handle counters may change, so names and data stay |
| GLMeshes.GLMesh.AddVertexStreams | loki/gl/gl_mesh.js:92-136 | with acceptable kinds the vertex loop succeeds; it keeps exactly the present schema streams; old buffers stay and the index map is unchanged; each new buffer is distinct from the old ones and holds the converted stream with the schema attribute; an unshared buffer holds the uploaded data, or keeps every field when its stream is empty; it yields the vertex count of this call's positions, or none when the mesh already had positions; only the old vertex buffers' attribute, item size and upload fields and the contexts' logs and handle counters may change |
| GLMeshes.GLMesh.VertexLoop | loki/gl/gl_mesh.js:97-136 | the vertex loop over every key: the entry buffers stay under their names; the count starts undefined when the mesh has positions and 0 otherwise; a throw names a kept key whose data is Float64; on success every key is visited (Progress), each kept stream is stored as KeyStored says, the new buffers are apart from the old ones, and every old buffer not fed a non-empty stream keeps all its fields (Untouched); the frame is the old buffers' attribute, item size and upload fields and the contexts' logs and handle counters |
| GLMeshes.GLMesh.VertexStep | loki/gl/gl_mesh.js:97-136 | one pass of the loop, key i: a stream that is absent or not in the schema is skipped; a kept one is stored (the count becomes its length over 3 for "P"); the loop's knowledge (Progress, Apart, Untouched) extends from i to i + 1 keys, or the step throws for a Float64 stream; it may change only the entry buffers' attribute, item size and upload fields |
| GLMeshes.GLMesh.AddKeptStream | loki/gl/gl_mesh.js:106-135 | one kept stream: it succeeds unless its data is Float64; on success it is stored as StreamsStored says for the keys up to i, a new buffer is fresh, an existing buffer given an empty stream keeps its fields, and the buffers under the other names are unchanged; it may change only the entry buffers' attribute, item size and upload fields |
| GLMeshes.GLMesh.KeptStreamStep | loki/gl/gl_mesh.js:97-136 | from what the vertex loop knew before a kept stream and what the stream's step promises, the loop's knowledge extends by that key: every buffer filed under one old name and not fed a non-empty stream keeps its fields, and on success the stores cover the keys up to i + 1 |
| GLMeshes.GLMesh.AddVertexStream | loki/gl/gl_mesh.js:120-135 | one schema stream is uploaded into the existing buffer (its log grows by exactly that upload, none for empty data, and buffers filed under other names keep all their fields) or stored as a fresh buffer with the schema's attribute and item size (the mesh context's log grows by the create-bind-upload calls of the next handle); only the buffer under that name may change, and only its attribute, item size and upload fields |
| GLMeshes.GLMesh.FeedVertexStream | loki/gl/gl_mesh.js:130-131 | a schema stream under a name the mesh has: it succeeds unless the data is Float64; on success a non-empty stream is stored with the schema attribute and item size; empty data changes nothing; the buffer's context's log grows by exactly the upload; every buffer not the one under that name keeps all its fields |
| GLMeshes.GLMesh.AddIndexStream | loki/gl/gl_mesh.js:150-168 | one index stream becomes a fresh buffer under its name holding the data flattened and cast for the vertex count; the context hands out one handle and logs exactly the upload of that cast data |
| GLMeshes.GLMesh.AddIndexStreams | loki/gl/gl_mesh.js:138-170 | with acceptable kinds it succeeds; index buffers not named by a present stream are kept; every present stream gets a fresh buffer holding its data flattened and cast for the given vertex count |
| GLMeshes.GLMesh.DeleteBuffers | loki/gl/gl_mesh.js:352-364 | every buffer loses its WebGL buffer, both maps are left empty, and each context's log grows by DeleteCalls: one delete per buffer of that context, vertex buffers then index buffers in iteration order, of the buffer's old WebGL buffer, or of none when a shared buffer comes a second time |
| GLMeshes.GLMesh.DestroyAll | loki/gl/gl_mesh.js:353-362 | the destroy loops reach every buffer in order, clearing its WebGL buffer; each context's log grows by exactly DeleteCalls of the sequence and the handles it started with |
| GLMeshes.GLMesh.FreeData | loki/gl/gl_mesh.js:489-498 | every buffer drops its data and the mesh property named after each buffer is deleted |
| GLMeshes.GLMesh.FreeAll | loki/gl/gl_mesh.js:490-497 | the freeing loops reach every buffer in iteration order |
| GLMeshes.GLMesh.InOrderWithin | loki/gl/gl_mesh.js:515-519 | the iteration order holds only buffers of the mesh |
| GLMeshes.GLMesh.InOrderCovers | loki/gl/gl_mesh.js:515-519 | every buffer of the mesh occurs in the iteration order |
| GLMeshes.GLMesh.Configure | loki/gl/gl_mesh.js:449-484 | `info` is noted exactly when an entry named info is truthy; the entries are sorted (Route) and, with acceptable kinds, the sorted streams are added as addBuffers promises (old vertex buffers kept, old index buffers kept unless a routed index stream replaces them, an unshared one given an empty stream with all its fields, new names, new buffers holding the converted streams, fresh index buffers holding the cast indices) and the options are copied onto the mesh; on a throw the properties are unchanged; the frame is that of AddBuffers plus the properties and `info` |
| GLMeshes.GLMesh.AddRouted | loki/gl/gl_mesh.js:470-483 | with acceptable kinds the call succeeds; on success the buffers are added as addBuffers promises (Added: the names grow by exactly the routed streams, each new buffer holds its converted stream, each index buffer is fresh and holds the cast indices; an unshared old buffer given an empty stream keeps its fields; old index buffers not replaced stay) and the options are copied onto the mesh; on a throw the properties are unchanged |
| GLMeshes.GLMesh.RouteConfig | loki/gl/gl_mesh.js:454-477 | the sorting loop yields the routing of all entries |
| GLMeshes.GLMesh.InOrder | loki/gl/gl_mesh.js:515-519 | the buffers of a map in iteration order, one per name |
| GLMeshes.GLMesh.TotalMemory | loki/gl/gl_mesh.js:513-522 | the sum of the byte lengths of every vertex and index buffer's data, none when a buffer has no data |
| GLMeshes.SumMemory | loki/gl/gl_mesh.js:514-521 | the summing loop over buffers in iteration order yields MemoryOf of them |
| GLMeshes.MemoryOf | loki/gl/gl_mesh.js:514-521 | the memory of buffers is the sum of their data's byte lengths, none when one has no data |
| GLMeshes.NameKeysOf | loki/gl/gl_mesh.js:492-496 | the keys freeData deletes: each buffer's name, or "undefined" |
| GLMeshes.MemoryOfFailsFrom | loki/gl/gl_mesh.js:516-519 | one buffer without data makes the whole total fail |
| GLMeshes.MemoryOfAppend | loki/gl/gl_mesh.js:513-522 | the memory of two runs of buffers is the sum of their memories |
| GLMeshes.Load | loki/gl/gl_mesh.js:34-39 | load makes a new mesh and configures it: `info` as the entries say, and on success exactly the routed vertex and index names and the options as properties; each vertex buffer is new and holds its routed stream converted, with the schema attribute and item size (NewVertexStream), and each index buffer is fresh and holds its routed indices cast for this call's vertex count (NewIndexStream); only the context's log and handle counter change |
| GLBuffers.DefaultItemSize | loki/gl/gl_buffer.js:13 | the item size is the given one when nonzero, else 1 for index buffers and 3 for vertex buffers |
| GLBuffers.GLTypeOf | loki/gl/gl_buffer.js:69-79 | Int8 gives BYTE, Uint8 and Uint8Clamped UNSIGNED_BYTE, Int16 SHORT, Uint16 UNSIGNED_SHORT, Int32 INT, Uint32 UNSIGNED_INT, Float32 FLOAT, and every other kind is refused |
| GLBuffers.GLTypeMatchesWidth | loki/gl/gl_buffer.js:69-79 | the element type chosen for a kind has the kind's element width |
| GLBuffers.GLTypeOfInjective | loki/gl/gl_buffer.js:69-79 | distinct kinds get distinct element types, except the two 8-bit unsigned kinds |
| GLBuffers.UploadedType | loki/gl/gl_buffer.js:81-87 | vertex data of 32-bit integers is uploaded as FLOAT; index data keeps its integer type |
| GLBuffers.UploadedArray | loki/gl/gl_buffer.js:81-87 | the uploaded array is a Float32 copy exactly when the type was widened, of the same length |
| GLBuffers.WideningKeepsValues | loki/gl/gl_buffer.js:86 | widening keeps every element value |
| GLBuffers.GLBuffer.constructor | loki/gl/gl_buffer.js:8-13 | a new buffer has no WebGL buffer and no attribute, and the default item size |
| GLBuffers.GLBuffer.Upload | loki/gl/gl_buffer.js:55-91 | the WebGL buffer is created only when missing and reused after; it records the data's length and the item size, then the element type (throwing for refused kinds), widens 32-bit integer vertex data and binds and uploads once |
| GLBuffers.GLBuffer.UploadRange | loki/gl/gl_buffer.js:98-114 | missing data and untyped data throw with their messages, a byte range outside the data throws; otherwise one bind and one sub-upload |
| GLBuffers.GLBuffer.Bind | loki/gl/gl_buffer.js:31-38 | the buffer is bound and, with a location, that location is enabled and described |
| GLBuffers.GLBuffer.Unbind | loki/gl/gl_buffer.js:44-48 | a given location is disabled; none does nothing |
| GLBuffers.GLBuffer.Destroy | loki/gl/gl_buffer.js:119-123 | the WebGL buffer is deleted and the buffer has none afterwards |
| GLBuffers.NewBuffer | loki/gl/gl_buffer.js:8-25 | a buffer is made for the target with the default item size and uploaded at once when data is given |
| GLFramebuffers.ScanFailurePersists | loki/gl/gl_frame_buffer.js:142-167 | once the dimension scan over the color attachments has thrown, scanning further attachments keeps the same error |
| GLFramebuffers.ScanSucceedsIffUniform | loki/gl/gl_frame_buffer.js:142-167 | the scan succeeds exactly when all color attachments share width, height and element type and none is a non-2D texture; it then reports the first attachment's size, and -1 by -1 for no attachments |
| GLFramebuffers.Measure | loki/gl/gl_frame_buffer.js:142-181 | a size is settled only when every color slot is filled and the size is not -1, and never for several color attachments on WebGL 1 without WEBGL_draw_buffers; no attachments at all throws "FBO updated with no bound textures" |
| GLFramebuffers.MeasuredHasNoHoles | loki/gl/gl_frame_buffer.js:142-167 | a successful scan implies no hole among the scanned color slots |
| GLFramebuffers.ColorCalls | loki/gl/gl_frame_buffer.js:234-244 | one attach call per color attachment |
| GLFramebuffers.ColorCallsSlots | loki/gl/gl_frame_buffer.js:234-242 | color attachment i goes to COLOR_ATTACHMENT0 + i with its own handle, as a texture or a renderbuffer attachment |
| GLFramebuffers.AttachmentOrder | loki/gl/gl_frame_buffer.js:233-243 | the draw-buffer order of n attachments is COLOR_ATTACHMENT0 + i for every i below n |
| GLFramebuffers.DetachCallsExactly | loki/gl/gl_frame_buffer.js:255-259 | exactly the slots from the new count up to the old one are detached, a renderbuffer detach then a texture detach each, and nothing when the count did not shrink |
| GLFramebuffers.DepthTextureError | loki/gl/gl_frame_buffer.js:65-82 | a depth texture is accepted exactly when its format is DEPTH_COMPONENT, DEPTH_STENCIL or DEPTH_COMPONENT16/24/32F and its type is UNSIGNED_SHORT, UNSIGNED_INT, UNSIGNED_INT_24_8_WEBGL or FLOAT |
| GLFramebuffers.ColorSlots | loki/gl/gl_frame_buffer.js:61-119 | the stored slots have the argument's count (0, 1 or the array length), no holes, and hold the argument's objects in order |
| GLFramebuffers.PlaceAt | loki/gl/gl_frame_buffer.js:384-390 | attaching at a color index stores the object there, grows the list to reach it (holes between), and leaves every other slot unchanged |
| GLFramebuffers.BlitSource | loki/gl/gl_frame_buffer.js:465-471 | blit draws nothing for an index past the end, draws slot colorIndex (0 when falsy) when it is filled, and fails otherwise |
| GLFramebuffers.FramebufferStatics.constructor | loki/gl/gl_frame_buffer.js:493-495 | no framebuffer is active and none has been counted |
| GLFramebuffers.GLFramebuffer.constructor | loki/gl/gl_frame_buffer.js:20-39 | no handle, size -1 by -1, no attachments, the stencil flag as given, no order and a zeroed saved viewport |
| GLFramebuffers.GLFramebuffer.Init | loki/gl/gl_frame_buffer.js:20-43 | with neither colors nor depth nothing is issued; a bad depth texture throws and changes nothing; unchanged attachments issue nothing; otherwise the given attachments are stored and the framebuffer ends as update leaves it |
| GLFramebuffers.GLFramebuffer.Bind | loki/gl/gl_frame_buffer.js:309-332 | an active framebuffer is left alone; otherwise the viewport and the active framebuffer are saved, the handle is created and counted on first use (advancing WebGL's next handle), the framebuffer is bound and becomes active (a hole among the color slots throws before it becomes active) |
| GLFramebuffers.GLFramebuffer.BindInactive | loki/gl/gl_frame_buffer.js:313-331 | for a framebuffer that is not active: the viewport and the active framebuffer are saved, the handle is created and counted on first use, one bind call is issued, and it becomes active unless a color slot is a hole (which throws) |
| GLFramebuffers.GLFramebuffer.SaveViewport | loki/gl/gl_frame_buffer.js:314 | the saved viewport equals the context's viewport |
| GLFramebuffers.GLFramebuffer.EnsureHandle | loki/gl/gl_frame_buffer.js:317-320 | the handle is kept when present, otherwise a new one is created, WebGL's next handle advances by one and the framebuffer count goes up by one |
| GLFramebuffers.GLFramebuffer.Unbind | loki/gl/gl_frame_buffer.js:337-357 | with nothing active nothing happens; otherwise the framebuffer saved by bind becomes active and is bound (the default one when none was saved) |
| GLFramebuffers.GLFramebuffer.Destroy | loki/gl/gl_frame_buffer.js:290-304 | unbinds when active, decrements the count, deletes the handle if any, and resets handle, size, attachments, depth and stencil |
| GLFramebuffers.GLFramebuffer.Attach | loki/gl/gl_frame_buffer.js:359-390 | binds unless active, attaches at the given point (COLOR_ATTACHMENT0 when falsy), records a depth point as the depth attachment and a point up to COLOR_ATTACHMENT0 + 16 at its color index, and records nothing for other points |
| GLFramebuffers.AttachPoint | loki/gl/gl_frame_buffer.js:367 | the point attach uses: an absent point and the falsy point 0 both mean COLOR_ATTACHMENT0; any other point is kept |
| GLFramebuffers.GLFramebuffer.ToSingle | loki/gl/gl_frame_buffer.js:398-409 | with two or more color attachments the draw buffers become the first entry of the order alone; otherwise nothing |
| GLFramebuffers.GLFramebuffer.ToMultiAsWritten | loki/gl/gl_frame_buffer.js:411-422 | with fewer than two color attachments nothing happens; with two or more the call throws: a TypeError reading a null order, or, with an order, the TypeError WebIDL raises when the single number `order[0]` cannot be converted to the sequence `drawBuffers` expects; no draw-buffer call reaches WebGL; nothing is changed |
| GLFramebuffers.GLFramebuffer.ToMulti | loki/gl/gl_frame_buffer.js:411-422 | with two or more color attachments, the whole order set by update is reissued as the draw buffers |
| GLFramebuffers.ToMultiAsWrittenLosesOrder | loki/gl/gl_frame_buffer.js:418-420 | for n >= 2 color attachments the order update sets is the n-entry list starting [COLOR_ATTACHMENT0, COLOR_ATTACHMENT0 + 1], more than the single number toMulti as written passes, so the as-written call (which throws) never restores it |
| GLFramebuffers.GLFramebuffer.ClearSecondary | loki/gl/gl_frame_buffer.js:427-454 | with an order of two or more: draw to NONE followed by the secondary slots, clear color, clear, then restore the full order; otherwise nothing |
| GLFramebuffers.GLFramebuffer.MatchesList | loki/gl/gl_frame_buffer.js:87-93 | the comparison loop finds a match exactly when every stored slot holds the corresponding list item |
| GLFramebuffers.GLFramebuffer.StoreColors | loki/gl/gl_frame_buffer.js:110-119 | the stored color slots are those of the argument |
| GLFramebuffers.GLFramebuffer.Unchanged | loki/gl/gl_frame_buffer.js:84-104 | the attachments count as unchanged exactly when the depth argument is `===` the stored one (null and undefined differ), the colors are the stored ones, and the stencil flag is as last applied |
| GLFramebuffers.GLFramebuffer.SetTextures | loki/gl/gl_frame_buffer.js:60-124 | an unusable depth texture throws and changes nothing; unchanged attachments issue nothing; otherwise the new attachments are stored (an undefined depth stays distinct from null) and the outcome, size, active framebuffer and calls are those of update |
| GLFramebuffers.GLFramebuffer.StoreAndUpdate | loki/gl/gl_frame_buffer.js:110-123 | the color slots and depth become the ones given, and the framebuffer ends as update leaves it when started from the views of those attachments |
| GLFramebuffers.GLFramebuffer.AttachDepth | loki/gl/gl_frame_buffer.js:190-230 | both depth slots are detached; a depth texture on WebGL 1 without WEBGL_depth_texture then throws; otherwise the depth texture (DEPTH_STENCIL or DEPTH point by its format) or a same-sized depth renderbuffer (by the stencil flag) is attached |
| GLFramebuffers.GLFramebuffer.AttachColorList | loki/gl/gl_frame_buffer.js:232-244 | each color attachment goes to its own slot and the order lists those slots |
| GLFramebuffers.GLFramebuffer.AttachColorRenderbuffer | loki/gl/gl_frame_buffer.js:245-252 | without color attachments an RGBA4 renderbuffer of the size is made once, then kept, and attached to COLOR_ATTACHMENT0 |
| GLFramebuffers.GLFramebuffer.DetachStale | loki/gl/gl_frame_buffer.js:254-260 | the slots from the new count up to the previously bound count are detached and the bound count becomes the new one |
| GLFramebuffers.GLFramebuffer.AttachColors | loki/gl/gl_frame_buffer.js:232-252 | with color attachments the order lists their slots (COLOR_ATTACHMENT0 + i) and the color renderbuffer is untouched; without, the order is kept and a color renderbuffer exists afterwards, the old one or else a new one with a newly handed-out handle (ColorsKept) |
| GLFramebuffers.GLFramebuffer.AttachAll | loki/gl/gl_frame_buffer.js:188-272 | an unsupported depth texture throws after the two depth detaches with the order and color renderbuffer unchanged; otherwise the calls after binding: depth, colors, stale detaches, the draw buffers of several attachments and the status query; the bound count and stencil flag are updated, and the order and color renderbuffer are as ColorsKept states |
| GLFramebuffers.GLFramebuffer.AttachRest | loki/gl/gl_frame_buffer.js:232-272 | after the depth part: the color attachments (or the color renderbuffer), the stale-slot detaches, the draw buffers of several attachments and the status query, in that order; the bound count becomes the number of attachments, the stencil flag is recorded, and the order and color renderbuffer are as ColorsKept states |
| GLFramebuffers.GLFramebuffer.Finish | loki/gl/gl_frame_buffer.js:272-284 | an incomplete status unbinds and throws "FBO not complete: " with the status name; a complete one clears the texture and renderbuffer bindings and unbinds unless skipDisable |
| GLFramebuffers.GLFramebuffer.Update | loki/gl/gl_frame_buffer.js:132-285 | ends as described by Updated: a failed measurement throws with nothing issued; otherwise the size is recorded, the framebuffer bound, and the full call sequence runs up to the completeness check, leaving it active only when complete and skipDisable |
| GLFramebuffers.GLFramebuffer.Snapshot | loki/gl/gl_frame_buffer.js:132-140 | the state update reads: the call log, size, active framebuffer, bound-texture count, order, color renderbuffer and WebGL's next handle |
| GLFramebuffers.GLFramebuffer.Updated | loki/gl/gl_frame_buffer.js:132-285 | the end state of update: a failed scan throws with nothing changed; an unusable depth texture throws after the depth detach, keeping the order and color renderbuffer; otherwise every attachment is made, the order becomes the list of color slots when there are colors (kept otherwise), the color renderbuffer is kept with colors and exists without them (new only when there was none), the status is checked, "FBO not complete: " and the status text thrown when incomplete, and the previous framebuffer bound back unless it stays active |
| GLFramebuffers.UpdateCalls | loki/gl/gl_frame_buffer.js:185-270 | the calls of update between the bind and the completeness check: the depth part, then the colors, the stale detaches and the draw buffers |
| GLFramebuffers.DepthCalls | loki/gl/gl_frame_buffer.js:185-232 | both depth slots are detached; a depth texture is then attached to the depth-stencil slot when its format is DEPTH_STENCIL and to the depth slot otherwise; a depth renderbuffer of the framebuffer size is bound and attached, to the depth-stencil slot when stencil is on |
| GLFramebuffers.RestCalls | loki/gl/gl_frame_buffer.js:233-270 | each color attachment attached in slot order (a texture or a renderbuffer), or the color renderbuffer when there is none; then the slots beyond the new count detached and the draw buffers set for several attachments |
| GLFramebuffers.DetachCalls | loki/gl/gl_frame_buffer.js:255-259 | a renderbuffer detach and a texture detach for each slot in the range; DetachCallsExactly states their count and order |
| GLFramebuffers.StatusText | loki/gl/gl_frame_buffer.js:473-490 | the five known incomplete-status codes get their names; any other code is returned as is and so written in decimal by the message concatenation (NumberText) |
| GLFramebuffers.GLFramebuffer.BindAndAttach | loki/gl/gl_frame_buffer.js:186-285 | once the size is known: bind, then an unsupported depth texture throws after the two depth detaches with the order and color renderbuffer kept; otherwise the whole attach sequence and the finish, with order and color renderbuffer as ColorsKept states, ending active only when complete and asked to stay bound |
| GLRenderbuffers.StorageFormat | loki/gl/gl_render_buffer.js:21-22 | a falsy format defaults to UNSIGNED_BYTE; any other is kept |
| GLRenderbuffers.SampleCount | loki/gl/gl_render_buffer.js:33 | a falsy sample count defaults to 1; any other is kept |
| GLRenderbuffers.StorageCall | loki/gl/gl_render_buffer.js:38-41 | more than one sample allocates multisampled storage with the sample count, otherwise plain storage, with the format and size given |
| GLRenderbuffers.DestroyCalls | loki/gl/gl_render_buffer.js:47-48 | destroy deletes at most once, and only before its flag field has been cleared; the deleted handle is the undefined value of the misspelled field |
| GLRenderbuffers.GLRenderbuffer.constructor | loki/gl/gl_render_buffer.js:9-17 | the size defaults to 1 when falsy, format and samples default as in create, and a fresh renderbuffer is bound, allocated and unbound |
| GLRenderbuffers.GLRenderbuffer.Create | loki/gl/gl_render_buffer.js:19-44 | nothing happens when size and defaulted format are the current ones; otherwise an existing object is destroyed, the new size, format and sample count are recorded and a fresh renderbuffer is allocated |
| GLRenderbuffers.GLRenderbuffer.Destroy | loki/gl/gl_render_buffer.js:46-54 | the first call issues one delete and zeroes size and format; later calls do nothing; the handle field is never cleared |
| GLRenderbuffers.GLRenderbuffer.Bind | loki/gl/gl_render_buffer.js:56-58 | binds the renderbuffer's handle |
| GLRenderbuffers.GLRenderbuffer.Unbind | loki/gl/gl_render_buffer.js:60-62 | binds no renderbuffer |
| GLRenderbuffers.GLRenderbuffer.Resize | loki/gl/gl_render_buffer.js:64-72 | binds the renderbuffer and reallocates its storage at the new size with the stored format and sample count; the recorded size is unchanged |
| GLResourceManagers.RemoveAt | loki/gl/gl_resource_manager.js:81-165 | splice(i, 1) leaves the list one shorter, with the elements before i in place and those after shifted down, and removes exactly one occurrence of the element |
| GLResourceManagers.MoveKeepsPool | loki/gl/gl_resource_manager.js:81-165 | moving an element from one list of a pool to the end of the other keeps both lists free of repeats and disjoint |
| GLResourceManagers.AddKeepsPool | loki/gl/gl_resource_manager.js:87-129 | appending a fresh object to the used list keeps the pool discipline |
| GLResourceManagers.FirstIndexOf | loki/gl/gl_resource_manager.js:94-145 | the found position holds the object and no earlier one does; nothing is found exactly when the object is absent |
| GLResourceManagers.PositionOf | loki/gl/gl_resource_manager.js:94-150 | the search loop finds the first position of the object, or none |
| GLResourceManagers.FirstSized | loki/gl/gl_resource_manager.js:78-117 | the found entry has the requested width and height and no earlier one does; nothing is found exactly when no entry has that size |
| GLResourceManagers.GLResourceManager.constructor | loki/gl/gl_resource_manager.js:14-22 | empty texture and framebuffer pools, no named resources, no fullscreen mesh |
| GLResourceManagers.GLResourceManager.Destroy | loki/gl/gl_resource_manager.js:24-55 | the pooled framebuffers (available ones first) are destroyed in pool order as DestroyRun has it: an active one rebinds the framebuffer it saved, each logs the delete of its handle, and a hole in an active one's colors throws and stops it with the lists kept; the framebuffers not reached keep every field destroy writes; then every texture's handle is deleted in pool order and its mipmap state cleared; a fullscreen mesh then makes it throw, since the mesh has no destroy method; otherwise pools and named resources are emptied; only the fields the framebuffer and texture destroy methods write may change |
| GLResourceManagers.GLResourceManager.DestroyFramebuffers | loki/gl/gl_resource_manager.js:25-31 | each framebuffer in turn is destroyed, stopping at the first throw; the log, the active framebuffer, the framebuffer count and the cleared framebuffers are those of DestroyRun, and the framebuffers from the one that threw on keep their handle, size, attachments, depth and stencil; the only throw is the TypeError of unbinding an active framebuffer that has an empty color slot; only those fields may change |
| GLResourceManagers.DestroyRun | loki/gl/gl_resource_manager.js:25-31 | the framebuffer loops over a list: all are destroyed exactly when none throws, and the only throw is the unbind TypeError |
| GLResourceManagers.DestroyRunStops | loki/gl/gl_resource_manager.js:25-31 | once one framebuffer throws, the rest of the loop changes nothing |
| GLResourceManagers.DestroyRunInactive | loki/gl/gl_resource_manager.js:25-31 | with no active framebuffer every framebuffer is destroyed, none throws, and the calls are exactly one delete per handle in pool order |
| GLResourceManagers.GLResourceManager.DestroyTextures | loki/gl/gl_resource_manager.js:33-39 | every texture loses its handle, the log grows by one delete per handle in pool order, and a texture that had a handle has its mipmap state cleared; one without a handle keeps its mipmap state; only the handle and mipmap fields may change |
| GLResourceManagers.GLResourceManager.DestroyPools | loki/gl/gl_resource_manager.js:24-44 | the body of destroy before the pools are emptied: framebuffers as DestroyRun has them (the ones not reached unchanged), then, if none threw, every texture's delete in pool order, then the throw of a fullscreen mesh; only the fields the destroy methods write may change |
| GLResourceManagers.GLResourceManager.DestroyNext | loki/gl/gl_resource_manager.js:26-30 | one framebuffer's destroy extends the DestroyRun state by one: its unbind when active, its delete, or the throw of a hole |
| GLResourceManagers.GLResourceManager.DestroyTextureNext | loki/gl/gl_resource_manager.js:34-38 | one texture's destroy extends the run by the delete of its handle and clears its mipmap state |
| GLResourceManagers.GLResourceManager.GetResource | loki/gl/gl_resource_manager.js:57-59 | the named resource when present, nothing otherwise |
| GLResourceManagers.GLResourceManager.HasResource | loki/gl/gl_resource_manager.js:61-63 | true exactly when the name is present |
| GLResourceManagers.GLResourceManager.SetResource | loki/gl/gl_resource_manager.js:65-71 | null deletes the name; any other object is stored under it; no other name changes |
| GLResourceManagers.GLResourceManager.RemoveResource | loki/gl/gl_resource_manager.js:73-75 | the name is deleted and no other name changes |
| GLResourceManagers.GLResourceManager.FindTexture | loki/gl/gl_resource_manager.js:78-85 | the search loop finds the first available texture of the size |
| GLResourceManagers.GLResourceManager.FindFramebuffer | loki/gl/gl_resource_manager.js:115-122 | the search loop finds the first available framebuffer of the size |
| GLResourceManagers.GLResourceManager.RequestTexture | loki/gl/gl_resource_manager.js:77-91 | the first available texture of the size moves to the end of the used list and is returned with no WebGL call; without one the call always succeeds with a fresh 2D texture appended to the used list, of that width and height with a handle when both are nonzero, and still 0 by 0 (no storage) otherwise; the pools stay disjoint and free of repeats |
| GLResourceManagers.GLResourceManager.ReleaseTexture | loki/gl/gl_resource_manager.js:93-102 | a used texture moves to the end of the available list; any other texture changes nothing; afterwards it is not in use |
| GLResourceManagers.GLResourceManager.RequestFramebuffer | loki/gl/gl_resource_manager.js:113-132 | the first available framebuffer of the size moves to the end of the used list; without one, a fresh framebuffer with one fresh color texture of that size (0 by 0 when either is 0), no depth texture and an unchanged active framebuffer is made and used; the creation succeeds exactly when the status is complete and the size is measurable |
| GLResourceManagers.GLResourceManager.MakeFramebuffer | loki/gl/gl_resource_manager.js:125-126 | a fresh framebuffer of this context around a fresh texture of the size; it succeeds exactly when the status is complete and the size is measurable; then its one color attachment is that texture, it has no depth texture, its size is the texture's and the active framebuffer is unchanged |
| GLResourceManagers.GLResourceManager.ReleaseFramebuffer | loki/gl/gl_resource_manager.js:139-151 | null and unknown framebuffers change nothing; a used one moves to the end of the available list; afterwards it is not in use |
| GLResourceManagers.GLResourceManager.FindByColorHandle | loki/gl/gl_resource_manager.js:160-163 | the search finds the first used framebuffer whose first color attachment has the handle, or the first one without a first color attachment if it comes earlier |
| GLResourceManagers.GLResourceManager.ReleaseFramebufferTexture | loki/gl/gl_resource_manager.js:159-169 | the first used framebuffer whose first color attachment has the texture's handle is removed from the used list and appended to the available list; a first color slot that is empty before any match throws the handle error and changes nothing; without a match nothing changes |
| GLResourceManagers.GLResourceManager.GetFullscreenMesh | loki/gl/gl_resource_manager.js:176-181 | made on the first call, the same object on every later call |
| GLResourceManagers.GLResourceManager.GetBlitShader | loki/gl/gl_resource_manager.js:186-204 | made on the first call from the blit sources with the context preamble, valid exactly when both stages compile and the program links, and logged as one compile; the same object with no call on every later call |
| GLResourceManagers.GLResourceManager.MakeBlitShader | loki/gl/gl_resource_manager.js:188-202 | a fresh shader over the preamble-injected sources, valid exactly when both stages compile and the program links, with the compile calls logged |
| GLContexts.ContextTypes | loki/gl/gl_context.js:80-91 | version 2 tries both WebGL 2 names, version 1 both WebGL 1 names, no version (or 0) all four most capable first, and any other version is refused |
| GLContexts.DefaultAlpha | loki/gl/gl_context.js:67-69 | missing alpha becomes false and no other option changes |
| GLContexts.RequestedAttributes | loki/gl/gl_context.js:67-103 | the requested alpha is on only when asked for; depth, stencil, antialias and premultipliedAlpha are on unless turned off; preserveDrawingBuffer only when asked for; xrCompatible only when true |
| GLContexts.Attributes | loki/gl/gl_context.js:93-103 | the context attributes built from the options; RequestedAttributes states each default |
| GLContexts.FirstContextType | loki/gl/gl_context.js:107-117 | the chosen context type is the first one that yields a context; none is chosen exactly when none does |
| GLContexts.CreateContext | loki/gl/gl_context.js:80-126 | an unsupported version throws "Incorrect WebGL version, must be 1 or 2"; a created context is of the first listed type that works (every earlier one fails), with the requested attributes; when none works the message says whether plain "webgl" would have worked |
| GLContexts.QueryChain | loki/gl/gl_context.js:204-227 | an a-or-b-or-c chain of extension queries asks a prefix of the names, in order |
| GLContexts.QueryChainWithin | loki/gl/gl_context.js:204-227 | a name outside a chain is never queried by it |
| GLContexts.EarlyQueriesAvoidFloat | loki/gl/gl_context.js:201-231 | no query before the float-texture block names a float-texture extension |
| GLContexts.FloatExtensionsNeedLinear | loki/gl/gl_context.js:234-247 | OES_texture_float is queried exactly when OES_texture_float_linear exists, and OES_texture_half_float exactly when OES_texture_half_float_linear exists |
| GLContexts.ExtensionsFound | loki/gl/gl_context.js:234-247 | float and half-float textures count as supported exactly when both the extension and its linear-filtering extension are offered |
| GLContexts.HighPrecisionFormat | loki/gl/gl_context.js:249-255 | HALF_FLOAT_OES on WebGL 2; on WebGL 1 HALF_FLOAT_OES with half-float textures, else FLOAT with float textures, else UNSIGNED_BYTE |
| GLContexts.UniformFunction | loki/gl/gl_context.js:426-484 | FLOAT and INT/UNSIGNED_INT pick the scalar setter for size 1 and the array setter otherwise, samplers get uniform1i, each vector and matrix type its own setter, and any other type uniform1f |
| GLContexts.MatrixSetterIffMatrixType | loki/gl/gl_context.js:437-445 | exactly the three matrix types get a matrix setter |
| GLContexts.GLContext.constructor | loki/gl/gl_context.js:199-321 | the extensions found, the high-precision format, the anisotropy parameter (-1 without the extension) and maximum (1 without it); the cached viewport is the canvas; the log is exactly the reset: full-canvas viewport, blending, culling and depth test disabled, counter-clockwise front faces |
| GLContexts.GLContext.Call | loki/gl/gl_context.js:132-135 | each WebGL call is appended to the log |
| GLContexts.GLContext.NewHandle | loki/gl/gl_context.js:318 | every object the driver creates gets a handle never given out before |
| GLContexts.GLContext.Viewport | loki/gl/gl_context.js:382-389 | the cache holds the int32-truncated values and the call forwards the original ones |
| GLContexts.GLContext.GetViewportInto | loki/gl/gl_context.js:395-401 | the given storage gets the cached values in its first four places, keeps the rest, and is returned |
| GLContexts.GLContext.GetViewport | loki/gl/gl_context.js:403 | a fresh copy of the cached viewport |
| GLContexts.GLContext.SetViewport | loki/gl/gl_context.js:412-418 | the cache holds v, with y measured from the top of the drawing buffer when flipY is set, and the call uses the cached y |
| GLContexts.GLContext.Reset | loki/gl/gl_context.js:665-675 | full-canvas viewport (not cached), blending, culling and depth test disabled, counter-clockwise front faces |
| GLDraws.Zeros | loki/gl/gl_draw.js:66 | a fresh Float32Array of n entries is all zeros |
| GLDraws.IdentityMatrix | loki/gl/gl_draw.js:68 | the identity has ones at entries 0, 5, 10 and 15 and zeros elsewhere |
| GLDraws.SlotOf | loki/gl/gl_draw.js:535-544 | a matrix view over the stack has 16 entries |
| GLDraws.WriteSlot | loki/gl/gl_draw.js:523-538 | writing a slot keeps the stack's size |
| GLDraws.SlotAfterWrite | loki/gl/gl_draw.js:523-550 | writing slot k gives that slot the new matrix and leaves every other slot unchanged |
| GLDraws.Pushed | loki/gl/gl_draw.js:530-539 | push keeps the stack's size |
| GLDraws.PushChangePopRestores | loki/gl/gl_draw.js:530-547 | push starts the new slot as a copy of the current matrix, and after push, a change to the new matrix and pop, the model matrix is the one before push |
| GLDraws.Placed | loki/gl/gl_draw.js:1132 | result.set(item, offset) replaces exactly the entries from offset on with the item and keeps the rest |
| GLDraws.Flattened | loki/gl/gl_draw.js:1128-1133 | when the copy loop does not throw, the result has len * n entries |
| GLDraws.FlattenPrefixLength | loki/gl/gl_draw.js:1128-1133 | k tuples of n entries flatten to k * n entries |
| GLDraws.PlaceAfterPrefix | loki/gl/gl_draw.js:1132 | placing a tuple right after what is already written overwrites the zeros that follow |
| GLDraws.FlattenedPrefix | loki/gl/gl_draw.js:1128-1133 | with equal-length tuples, the first i passes leave the first i tuples end to end followed by zeros |
| GLDraws.FlattenUniform | loki/gl/gl_draw.js:1119-1135 | linearizing equal-length tuples gives them concatenated, len * n entries |
| GLDraws.FlattenedStaysFailed | loki/gl/gl_draw.js:1131-1133 | once a tuple overruns the buffer, the copy loop stays failed |
| GLDraws.FreshGlobalMesh | loki/gl/gl_draw.js:1146-1215 | the global mesh has exactly the streams P, N, uv, Cd and size, each zero-filled at capacity times its item size, and 3 indices per vertex of capacity |
| GLDraws.StreamFailurePersists | loki/gl/gl_draw.js:1158-1183 | once a pass of the stream loop throws, later passes change nothing |
| GLDraws.StreamedWithinCapacity | loki/gl/gl_draw.js:1158-1183 | the stream loop never leaves a buffer holding more than the capacity, and the capacity only grows |
| GLDraws.StreamedOk | loki/gl/gl_draw.js:1158-1183 | the stream loop keeps a well-formed global mesh well formed: at least the initial capacity, the five streams, none over capacity |
| GLDraws.StreamedKeepsOthers | loki/gl/gl_draw.js:1158-1168 | a stream that is not named, or is given falsy data, keeps its contents unless a resize threw |
| GLDraws.ColorAfter | loki/gl/gl_draw.js:450-463 | the color stays four entries long |
| GLDraws.ColorComponents | loki/gl/gl_draw.js:451-457 | with three components alpha is kept, with four all four are set |
| GLDraws.GLDraw.ModelMatrix | loki/gl/gl_draw.js:67 | the model matrix is 16 entries |
| GLDraws.GLDraw.constructor | loki/gl/gl_draw.js:50-93 | identity in slot 0 of a zeroed 32-matrix stack, color (0, 0, 0, 1), point size 2, line width 1, no saved cameras, no global mesh |
| GLDraws.GLDraw.SetMatrix | loki/gl/gl_draw.js:522-524 | the current matrix becomes the given one and no other slot changes |
| GLDraws.GLDraw.Identity | loki/gl/gl_draw.js:549-551 | the current matrix becomes the identity and no other slot changes |
| GLDraws.GLDraw.Push | loki/gl/gl_draw.js:530-539 | at the last slot throws "Matrix stack overflow" and changes nothing; otherwise moves up one slot, which receives a copy of the current matrix |
| GLDraws.GLDraw.Pop | loki/gl/gl_draw.js:541-547 | at slot 0 throws "Matrix stack underflow"; otherwise moves down one slot without writing any matrix |
| GLDraws.GLDraw.PushCamera | loki/gl/gl_draw.js:501-503 | a copy of the view-projection matrix goes on top of the camera stack |
| GLDraws.GLDraw.PopCamera | loki/gl/gl_draw.js:505-510 | an empty camera stack throws "Too many calls to popCamera"; otherwise the top copy is removed and becomes the view-projection matrix |
| GLDraws.GLDraw.SetColor | loki/gl/gl_draw.js:450-463 | the color becomes the one computed from the arguments |
| GLDraws.GLDraw.SetAlpha | loki/gl/gl_draw.js:469-471 | only the alpha entry changes |
| GLDraws.GLDraw.SetPointSize | loki/gl/gl_draw.js:478-482 | the size and its uniform become v, and the perspective uniform 1 or 0 |
| GLDraws.GLDraw.ResetAsWritten | loki/gl/gl_draw.js:430-444 | white color, point size 2, line width 1, images emptied when asked; the model-matrix slot and matrix are never reset, because the flag it checks is not the one in settings |
| GLDraws.GLDraw.Reset | loki/gl/gl_draw.js:430-444 | as ResetAsWritten, and with settings.resetStackOnReset the model matrix is back in slot 0 set to the identity; without it the stack is untouched |
| GLDraws.GLDraw.ResetStyle | loki/gl/gl_draw.js:431-437 | white color, point size 2, line width 1, images emptied when asked |
| GLDraws.GLDraw.Linearize | loki/gl/gl_draw.js:1119-1135 | an empty array gives a new empty array; numbers give the same Float32Array or a Float32 copy; tuples give the result of the copy loop, or a RangeError when a tuple overruns |
| GLDraws.GLDraw.CopyTuples | loki/gl/gl_draw.js:1128-1133 | the copy loop computes the flattened tuples, or fails when one overruns |
| GLDraws.GLDraw.PlaceInto | loki/gl/gl_draw.js:1132 | the array receives the item at the offset and keeps the rest |
| GLDraws.GLDraw.LinearizeUniform | loki/gl/gl_draw.js:1119-1135 | linearizing equal-length tuples concatenates them |
| GLDraws.GLDraw.ResizeGlobalMesh | loki/gl/gl_draw.js:1198-1216 | without a global mesh throws "No global mesh to resize"; otherwise the capacity doubles and every buffer is reallocated, zeroed, at it |
| GLDraws.GLDraw.ToGlobalMesh | loki/gl/gl_draw.js:1142-1196 | the global mesh is made for 1024 vertices when missing and each stream is processed in key order; afterwards the colors flag is recorded, given indices throw, and otherwise the size is the position count over 3, a missing P throwing |
| GLDraws.GLDraw.StreamBuffers | loki/gl/gl_draw.js:1158-1183 | the loop leaves the mesh and capacity computed by the passes over every key |
| GLDraws.GLDraw.StreamOne | loki/gl/gl_draw.js:1159-1182 | one pass: the mesh and capacity after the pass, and whether it threw |
| GLDraws.GLDraw.StreamNext | loki/gl/gl_draw.js:1159-1182 | pass i of the stream loop, from the state the passes before it left: the mesh, capacity and throw of the passes up to i + 1 |
| PlaneMeshes.GridOf | loki/gl/shapes/gl_plane_mesh.js:8-12 | each subdivision count is detailX (or detailY), else detail, else 1; each half extent is half of width (or height), else size, else 1; the orientation flag is kept |
| PlaneMeshes.NormalOf | loki/gl/shapes/gl_plane_mesh.js:19-22 | the plane's normal has three entries |
| PlaneMeshes.VisitedCount | loki/gl/shapes/gl_plane_mesh.js:24-27 | the loops visit whole rows of detailX + 1 vertices |
| PlaneMeshes.EmittedLength | loki/gl/shapes/gl_plane_mesh.js:29-35 | each vertex array grows by its item size (3 positions, 2 uvs, 3 normals) per vertex visited |
| PlaneMeshes.VertexCounts | loki/gl/shapes/gl_plane_mesh.js:24-35 | the plane has (detailX + 1) * (detailY + 1) vertices, with 3 position, 2 uv and 3 normal entries each |
| PlaneMeshes.TriangleLength | loki/gl/shapes/gl_plane_mesh.js:37-46 | each cell pushes six indices and the last row and column push none |
| PlaneMeshes.TriangleCount | loki/gl/shapes/gl_plane_mesh.js:37-46 | the plane has 2 * detailX * detailY triangles |
| PlaneMeshes.CellCorner | loki/gl/shapes/gl_plane_mesh.js:38-44 | the largest index of a cell, the corner diagonally across, names a grid vertex |
| PlaneMeshes.WholeIndex | loki/gl/shapes/gl_plane_mesh.js:38 | a natural number below the vertex count is a vertex index |
| PlaneMeshes.CellIndices | loki/gl/shapes/gl_plane_mesh.js:38-45 | every index a cell pushes names a vertex of the grid, in both orientations |
| PlaneMeshes.TriangleIndices | loki/gl/shapes/gl_plane_mesh.js:24-48 | every emitted index is a whole number below the vertex count |
| PlaneMeshes.ParamInUnit | loki/gl/shapes/gl_plane_mesh.js:25-27 | the grid parameters y / detailY and x / detailX lie in [0, 1] |
| PlaneMeshes.CoordsInUnit | loki/gl/shapes/gl_plane_mesh.js:34 | every uv entry lies in [0, 1] |
| PlaneMeshes.NormalsUniform | loki/gl/shapes/gl_plane_mesh.js:35 | every vertex gets the same normal, +Z, or +Y for a horizontal plane |
| PlaneMeshes.Generate | loki/gl/shapes/gl_plane_mesh.js:14-48 | the loops produce exactly the positions, uvs, normals and indices of the grid, in loop order |
| PlaneMeshes.Visit | loki/gl/shapes/gl_plane_mesh.js:27-46 | one pass appends that vertex's position, uv, normal and cell indices |
| PlaneMeshes.PlaneStreams | loki/gl/shapes/gl_plane_mesh.js:50-54 | the vertex data has exactly the P, N and uv streams, each plain numbers |
| PlaneMeshes.PlaneStreamsKept | loki/gl/shapes/gl_plane_mesh.js:50-56 | all three plane streams are named in the mesh schema and so are kept |
| PlaneMeshes.NewPlaneMesh | loki/gl/shapes/gl_plane_mesh.js:5-57 | the new mesh always succeeds, has exactly the P, N and uv vertex buffers and the triangles index buffer, and they hold the emitted positions, normals and coordinates as Float32 and the emitted triangles cast for the vertex count |
| PlaneMeshes.FillPlane | loki/gl/shapes/gl_plane_mesh.js:50-56 | an empty mesh given the plane's streams always succeeds and holds exactly the P, N and uv buffers with those values as Float32 and the triangles buffer with the indices cast for the vertex count |
| PlaneMeshes.PlaneStreamsConvert | loki/gl/shapes/gl_plane_mesh.js:50-56 | the plane's streams are all kept, their arrays are the Float32 conversions of the data, and the vertex count is a third of the position count |
| PlaneMeshes.PlaneStored | loki/gl/shapes/gl_plane_mesh.js:50-56 | what addBuffers promises of an empty mesh given the plane's streams is exactly the three vertex buffers and the triangles buffer with the converted data |
| Loki.ConstructorOf | loki/loki.js:121-127 | a value reports Array exactly when it is an array, and Number exactly when it is a number (NaN included) or a boxed number |
| Loki.IsEqual | loki/loki.js:108-139 | the early-returning comparison loop computes deep equality |
| Loki.DeepEqualNullish | loki/loki.js:109-120 | identical values and any pair of null and undefined are equal; exactly one nullish side makes them unequal |
| Loki.DeepEqualScalars | loki/loki.js:109-138 | numbers are equal only when identical (so NaN never equals itself); values of different constructors are unequal; an object other than an array equals only itself |
| Loki.DeepEqualArrays | loki/loki.js:127-137 | distinct arrays are equal exactly when they have the same length and pairwise equal elements |
| Loki.DeepEqualSymmetric | loki/loki.js:108-139 | isEqual(a, b) and isEqual(b, a) agree |
| Loki.DeepEqualReflexive | loki/loki.js:108-139 | a value without NaN inside a distinct array is equal to itself |
| Loki.DeepEqual | loki/loki.js:108-139 | the meaning of isEqual; DeepEqualNullish, DeepEqualScalars, DeepEqualArrays, DeepEqualSymmetric and DeepEqualReflexive state it |
| Loki.IsEmpty | loki/loki.js:90-101 | null and undefined are empty; a plain object is empty exactly when it has no entries; anything else exactly when its length is 0 |
| Loki.AllNameChars | loki/loki.js:26-27 | true exactly when every character is a letter, digit, white space, '-', '_' or '.' |
| Loki.ValidateName | loki/loki.js:24-28 | a name is valid exactly when it is a non-empty string of letters, digits, white space, '-', '_' and '.' |
| Loki.EscapeChar | loki/loki.js:148-155 | the eight escaped characters become a backslash and one letter; every other character is kept |
| Loki.ReplaceAllConcat | loki/loki.js:148-155 | a global one-character replacement acts on the parts of a concatenation separately |
| Loki.ReplaceChainConcat | loki/loki.js:147-155 | the whole replacement chain acts on the parts of a concatenation separately |
| Loki.ReplaceAllMiss | loki/loki.js:148-155 | a string without the target passes a replacement unchanged |
| Loki.ReplaceChainMiss | loki/loki.js:147-155 | a string without any target passes the chain unchanged |
| Loki.ReplaceChainChar | loki/loki.js:147-155 | when no replacement introduces a later target, the chain acts on one character as the first rule that targets it |
| Loki.FirstReplacementAt | loki/loki.js:147-155 | the first rule targeting a character decides its replacement |
| Loki.FirstReplacementNone | loki/loki.js:147-155 | a character no rule targets is kept |
| Loki.EscapesHaveNoLaterTargets | loki/loki.js:148-155 | no escape sequence contains a character that a later replacement targets, so no character is escaped twice |
| Loki.EscapeChainChar | loki/loki.js:147-155 | the chain turns one character into its escape |
| Loki.EscapeStringCharwise | loki/loki.js:146-157 | escapeString escapes each character on its own |
| Loki.EscapeStringLength | loki/loki.js:146-157 | escaping adds exactly one backslash per escaped character |
| Loki.EscapeEachLength | loki/loki.js:146-157 | character-wise escaping adds one character per escaped character |
| Loki.EscapeStringIdentity | loki/loki.js:146-157 | a string without any of the eight characters is returned unchanged |
| Loki.EscapeEachIdentity | loki/loki.js:146-157 | character-wise escaping keeps a string without escaped characters |
| Loki.EscapeString | loki/loki.js:146-157 | the chain of the eight replacements; EscapeStringCharwise, EscapeStringLength and EscapeStringIdentity state it |
| Loki.HashOf | loki/loki.js:369-383 | the hash is a signed 32-bit integer |
| Loki.HashOfAppend | loki/loki.js:374-378 | one more code unit updates the hash to int32(31 * h + c) |
| Loki.ShiftStep | loki/loki.js:376-377 | ((h << 5) - h) + c truncated to int32 equals int32(31 * h + c) |
| Loki.HashCode | loki/loki.js:371-380 | the loop computes the hash of the code units, a signed 32-bit integer, 0 for the empty string |
| Loki.VariableStore.constructor | loki/loki.js:283 | no variables and no notifications |
| Loki.VariableStore.SetVariable | loki/loki.js:181-187 | the value is stored; a change is notified exactly when the previous value (undefined for a new name) is not loosely equal to the new one |
| Loki.LooseEquals | loki/loki.js:184 | the `!=` test of setVariable: nullish values equal each other only, same-type values compare as `===`, a boolean against a number compares as 0 or 1 |
| Loki.SetVariableNotifies | loki/loki.js:181-187 | re-storing the same non-NaN value notifies nothing, while giving a new name a value other than null or undefined always notifies |
| Loki.VariableStore.HasVariable | loki/loki.js:194-196 | true exactly when the name has been set |
| Loki.VariableStore.GetVariable | loki/loki.js:203-205 | the stored value, or undefined for a name never set |
| Colors.Channel | loki/math/color.js:25-27 | a channel is clamped to [0, 255] and truncated: 0 below range, 255 at or above it, otherwise the integer part |
| Colors.HexDigit | loki/math/color.js:28 | a digit value is written as a lowercase hex digit |
| Colors.ToHex | loki/math/color.js:28 | toString(16) writes at least one digit |
| Colors.Byte2 | loki/math/color.js:28 | a byte is written as two hex digits |
| Colors.ToHexAppend | loki/math/color.js:28 | toString(16) of 16m + d is that of m followed by the digit d |
| Colors.PackedDigits | loki/math/color.js:28 | the packed value 2^24 + r 2^16 + g 2^8 + b is written as "1" followed by two digits per channel, so slicing off the "1" keeps leading zeros |
| Colors.Rgb8ToHexDigits | loki/math/color.js:24-29 | the result is "#" followed by two lowercase hex digits per clamped channel, in r, g, b order |
| Colors.Rgb8ToHexShape | loki/math/color.js:24-29 | the result is seven characters: "#" and six lowercase hex digits |
| Colors.Rgb8ToHex | loki/math/color.js:24-29 | the meaning of rgb8ToHex; Rgb8ToHexDigits, Rgb8ToHexShape and Rgb8ToHexParses state its digits, shape and round trip |
| Colors.HexValue | loki/math/color.js:122-124 | a hex digit of either case has a value below 16 |
| Colors.Body | loki/math/color.js:112-117 | the optional leading "#" is dropped, and nothing else |
| Colors.ExpandShorthand | loki/math/color.js:111-115 | the shorthand replace: a three-digit form, with or without "#", becomes six digits, each doubled; ShorthandDoubles states it |
| Colors.HexTriple | loki/math/color.js:117-125 | the six-digit match and its three bytes; SixDigitsParsed and HexStringReads state it |
| Colors.ParsedRgb | loki/math/color.js:52-125 | what parseHtmlColor writes into slots 0..2: the named colour, else the hex bytes over 255, else nothing |
| Colors.ByteOf | loki/math/color.js:122-124 | two hex digits make a value below 256 |
| Colors.ParseHtmlColor | loki/math/color.js:40-126 | slot 3 of a four-slot array gets the alpha (1 when absent), times the entry's alpha for "transparent"; slots 0..2 get the named colour or the hex bytes over 255, and keep their values for any other string or a non-string; null or undefined throws after the alpha is written |
| Colors.NonStringWritesAlphaOnly | loki/math/color.js:43-50 | a non-string colour writes only the alpha, 1 when absent |
| Colors.NamedColorCopied | loki/math/color.js:53-61 | a named colour copies its table entry into slots 0..2, and a four-component entry multiplies its alpha by the given one |
| Colors.TransparentClearsAlpha | loki/math/color.js:58-60 | "transparent" sets the alpha to 0 whatever is given; every other named colour leaves the given alpha |
| Colors.NoMatchKeepsColor | loki/math/color.js:117-120 | a string that is no named colour and no hex form leaves slots 0..2 alone |
| Colors.SixDigitsParsed | loki/math/color.js:117-125 | a six-digit hex string, with or without "#", gives each byte over 255 |
| Colors.ShorthandDoubles | loki/math/color.js:112-117 | the three-digit form, with or without "#", reads as the six-digit form with each digit doubled |
| Colors.HexCaseInsensitive | loki/math/color.js:112-117 | upper- and lowercase hex letters have the same value |
| Colors.HexDigitValue | loki/math/color.js:122-124 | a written hex digit reads back as its value |
| Colors.Byte2Value | loki/math/color.js:122-124 | a byte written as two hex digits reads back as the byte |
| Colors.ChannelOfByte | loki/math/color.js:25-27 | a byte value passes the clamp unchanged |
| Colors.HexStringReads | loki/math/color.js:117-125 | "#" and two digits per byte matches the hex form with those bytes and is no named colour |
| Colors.NotNamed | loki/math/color.js:188-206 | no named colour starts with "#" |
| Colors.Rgb8ToHexParses | loki/math/color.js:24-126 | round trip: parsing rgb8ToHex(r, g, b) of bytes gives r/255, g/255 and b/255 in slots 0..2 |
| Colors.NoParenthesis | loki/math/color.js:65-100 | a string without "(" takes none of the functional-notation branches |
| Randoms.Pow2Plus | loki/math/random.js:45-47 | 2^(a+b) is 2^a times 2^b, the base of the shift reasoning |
| Randoms.XorBits | loki/math/random.js:45-47 | the bitwise xor of two k-bit values is a k-bit value |
| Randoms.XorBitsZero | loki/math/random.js:45-47 | the xor of two k-bit values is zero exactly when they are equal |
| Randoms.XorZero | loki/math/random.js:45-47 | the xor of two words is zero exactly when they are equal |
| Randoms.Sar2 | loki/math/random.js:45 | the sign-copying shift divides the int32 reading of a word by 4, rounding down |
| Randoms.Shr2 | loki/math/random.js:45 | the unsigned shift divides a word by 4, rounding down |
| Randoms.SignShiftFixed | loki/math/random.js:45 | the sign-copying shift leaves 0 and 0xFFFFFFFF unchanged |
| Randoms.SignShiftCollapses | loki/math/random.js:45-48 | the step as written sends the nonzero xorshift state (0, 0, 0, 0xFFFFFFFF) to the zero state |
| Randoms.NextW0 | loki/math/random.js:44-47 | the new word 0 of the step as written, with the sign-copying shift |
| Randoms.Next | loki/math/random.js:40-51 | the six words after one step as written: the new word, the shifted words 0..2, the counter plus 362437 and the output word |
| Randoms.ZeroStep | loki/math/random.js:40-48 | the step keeps the zero xorshift state zero |
| Randoms.ZeroStaysZero | loki/math/random.js:40-48 | once zero, the xorshift state of the step as written stays zero forever |
| Randoms.CounterStep | loki/math/random.js:49 | one xorwow step adds 362437 to the counter word, modulo 2^32 |
| Randoms.CounterAfter | loki/math/random.js:49 | after n steps the Weyl counter is its start plus 362437 n, modulo 2^32 |
| Randoms.ShiftLeftMoves | loki/math/random.js:46 | a nonzero word changes under a shift left by one |
| Randoms.ScrambleNonzero | loki/math/random.js:45-46 | t ^ (t >>> 2) and t ^ (t << 1) are nonzero for a nonzero word |
| Randoms.MixZero | loki/math/random.js:47 | mixing in a zero word s leaves t unchanged |
| Randoms.XorBitsZeroRight | loki/math/random.js:47 | xor with zero is the identity |
| Randoms.XorwowW0Zero | loki/math/random.js:45-47 | with s zero, the new word 0 is nonzero whenever the old word 3 is |
| Randoms.XorwowW0 | loki/math/random.js:44-47 | the new word 0 with the unsigned shift of Marsaglia's xorwow |
| Randoms.XorwowNext | loki/math/random.js:40-51 | the six words after one xorwow step: the new word, the shifted words 0..2, the counter plus 362437 and the output word |
| Randoms.XorwowNonzeroPreserved | loki/math/random.js:40-48 | the xorwow step keeps a nonzero xorshift state nonzero |
| Randoms.XorwowNeverZero | loki/math/random.js:40-48 | a nonzero xorshift state stays nonzero through any number of xorwow steps |
| Randoms.SeedWords | loki/math/random.js:19-24 | word 0 is the seed modulo 2^32 and each of words 1..3 is the mix of the one before |
| Randoms.Random.constructor | loki/math/random.js:8-12 | the seed is the given one, or the clock when it is absent or 0; words 0..3 are derived from it and words 4 and 5 are 0 |
| Randoms.Random.Seed | loki/math/random.js:17 | the seed read back is word 0 |
| Randoms.Random.SetSeed | loki/math/random.js:19-25 | the seed is remembered, words 0..3 are derived from it, and the counter and last output are kept |
| Randoms.Random.Reset | loki/math/random.js:30-32 | words 0..3 are derived again from the remembered seed, and the seed read back is that seed modulo 2^32 |
| Randoms.Random.RandomUint32 | loki/math/random.js:38-52 | the state becomes the xorwow step of the old state and the result is the new word 5 |

## Left out

- GLMeshes.GLMesh.AddBuffers, GLMeshes.GLMesh.AddVertexStreams, GLMeshes.GLMesh.AddRouted, GLMeshes.GLMesh.Configure: a new vertex buffer is promised distinct from every buffer the mesh held before, not freshly allocated; each single step (AddVertexStream) promises freshness, but the vertex loop carries only distinctness. Index buffers are promised fresh.
- GLMeshes.GLMesh.AddBuffers, GLMeshes.GLMesh.AddVertexStreams, GLMeshes.GLMesh.VertexLoop, GLMeshes.GLMesh.Configure, GLMeshes.GLMesh.AddRouted, GLMeshes.Load (and the vertex-stream helpers they use): require that no vertex stream is a nested array. The source accepts one and `new Float32Array(rows)` turns each row into one number (an empty row 0, a one-entry row its entry, a longer row NaN); the model's typed arrays hold reals with no NaN, so this case is not modelled. Nested index streams are modelled (they are flattened).
- GLMeshes.GLMesh.AddBuffers, GLMeshes.GLMesh.AddVertexStreams, GLMeshes.GLMesh.VertexLoop, GLMeshes.GLMesh.VertexStep, GLMeshes.GLMesh.AddKeptStream, GLMeshes.GLMesh.AddIndexStreams, GLMeshes.GLMesh.Configure, GLMeshes.GLMesh.AddRouted, GLMeshes.Load, PlaneMeshes.NewPlaneMesh, PlaneMeshes.FillPlane, GLTextures.GLTexture.Setup, GLResourceManagers.GLResourceManager.RequestTexture, GLResourceManagers.GLResourceManager.RequestFramebuffer, GLResourceManagers.GLResourceManager.MakeFramebuffer: the WebGL calls these loops and constructions append are not stated, except in the branches that issue none. The single steps they run state their calls: GLMeshes.GLMesh.AddVertexStream, GLMeshes.GLMesh.AddIndexStream, GLMeshes.GLMesh.CreateVertexBuffer, GLMeshes.GLMesh.UpdateVertexBuffer, GLMeshes.GLMesh.CreateIndexBuffer, GLBuffers.NewBuffer, GLTextures.GLTexture.Create and GLFramebuffers.GLFramebuffer.SetTextures.
- GLMeshes.GLMesh.AddBuffers, GLMeshes.GLMesh.AddVertexStreams, GLMeshes.GLMesh.AddIndexStreams, GLMeshes.GLMesh.Configure, GLMeshes.GLMesh.AddRouted: a stream given as a MeshBuffer or GLBuffer object (`data.data !== undefined`, `gl_mesh.js` lines 107-128 and 145-148) is not modelled. For such an object the source unwraps `data`, and for a vertex stream the object's `type`, `itemSize` and `attribute` replace the schema's. The model's streams are plain or typed arrays only.
- GLSamplers.GLSampler.constructor, GLSamplers.GLSampler.Create, GLSamplers.GLSampler.Update, GLSamplers.GLSampler.Destroy, GLSamplers.GLSampler.Unbind, GLTextures.SamplerBind: WebGL 1 has no sampler objects, so on a WebGL 1 context each of these source calls throws a TypeError at its first `gl.*Sampler*` call; the sampler model follows a WebGL 2 context only. GLTextures.GLTexture.Bind without a sampler does model the WebGL 1 throw.
- GLDraws.GLDraw.ToGlobalMesh: models `toGlobalMesh` as written, where two paths always throw a TypeError: the resize path reads `meshBuffer.data.length`, but `getBuffer` (`gl_mesh.js` line 505) returns a GLBuffer, which has no `data`; and the indices path calls `setData`, which GLBuffer lacks, so `_globalMeshLastSize = indices.length` is never reached. The evidently intended behaviour (data cut to the resized capacity and uploaded; indices stored and the draw size set to their count) is not modelled.
- GLShaders.MacroText, GLShaders.NumberText: a numeric macro value is an integer, written in decimal; fractional numbers, which JavaScript writes in its shortest round-trip form, and NaN or infinities are not modelled (floating point).
- Loki.VariableStore.SetVariable (and Loki.LooseEquals): the `!=` coercions between a string and a number or boolean, and of an object to a primitive, are not modelled; so after `1`, setting `"1"`, `0` then `""`, or `[1]` then `1` notifies in the model but not in the source.
- OrderedMaps and every `for...in` over it: keys are visited in insertion order; the source's `for...in` visits integer-like keys first in ascending order, which the model does not follow.
- PlaneMeshes.NewPlaneMesh: the detail counts are whole numbers of at least 1; the source's defaults also let fractional details through, whose grids are not modelled.
- GLResourceManagers.GLResourceManager.GetBlitShader: the two shader sources, the compile and link results and the per-type component counts are parameters, not the fixed text.
- WebGL and the driver: calls are log entries, and their results (compile/link status, framebuffer status, extensions, `getParameter`, active uniforms and attributes) are inputs.
- DOM, events and timers in `gl_context.js`: canvas lookup and creation, the resize listener, `updateResolution`, `animate`/`drawFrame`/`requestFrame`, `snapshot`, fullscreen, mouse capture, context loss, `dump` and `destroy`. All of these are I/O or timer-driven.
- `GLTexture.configure` from a URL (asynchronous image decode), `loadVideo`, `readPixels`, `blit` and `_getFormat`: decoding and GPU readback are outside the model; only the element-source branch is modelled.
- `GLMesh` constructor streams, `upload`, `bindBuffers`/`unbindBuffers`, `clone`/`cloneShared`, `serialize` and `getBuffer`: these pass data to WebGL or to JSON and have no bookkeeping beyond what `addBuffers` and the buffer model already state.
- Floating-point numerics: values are exact reals, with no Float32 or double rounding. For the same reason, the matrix and trigonometry parts of `gl_draw.js` are left out: `multMatrix`, `translate`, `scale`, `rotate`, `lookAt`, `billboard`, the camera setters, `setLineWidth`, the line/circle/sphere/cone/cylinder/box mesh generators and the drawing methods. The GLSL source strings and the blit shader text are opaque values.
- `gl.js` (the enum constants and `TYPE_LENGTH`) is not part of this model: enum values are the published WebGL values, and the per-type component counts are a parameter map.
- `Randoms.Random.constructor`: the seed derivation `x * 1812433253 + 1` is rounded in double precision before truncation, so it is the parameter `mix`; the clock read when no seed is given is the parameter `now`.
- `randomFloat` and `randomDouble` in `random.js`: floating-point results.
- Randoms.Random.RandomUint32: uses the corrected unsigned shift of the first Findings row, not the sign-copying shift as written; the as-written step is `Randoms.Next`.
- Colors.ParseHtmlColor: requires an out array of at least three entries and leaves out the `rgb(`/`rgba(`/`hsl(`/`hsla(` notations, which need `parseInt`/`parseFloat` and `hslToRGB` in floating point. Names inherited from `Object.prototype` are not looked up as colour names.
- Colors.Channel: a NaN component is not modelled; components are reals.
- `rgbToHex`, `hslToRGB` and `rgbToLuminance` in `color.js`: floating-point.
- GLResourceManagers.GLResourceManager.Destroy: drops the named resources without modelling their own `destroy()` calls (`gl_resource_manager.js` lines 41-43), since they may be any object.
- GLFramebuffers.GLFramebuffer.Attach: the block that tests `this._width === -1` (`gl_frame_buffer.js` lines 392-395) never runs, because nothing assigns `_width` (it stays undefined), so it is modelled as having no effect.
- `loki/math` geometry files, `object_util.js`, `loki_object.js`, `guid.js`, `time.js`, `platform.js`, the fullscreen quad's constant data and the re-export modules are not part of this model.
- Loki.ValidateName: follows the regular expression in the code (letters, digits, white space, `-`, `_`, `.`; any start), not the doc comment above it (which says a letter first, then only letters, digits and `_`).

## Findings

| source | as written | input that shows it | evidently intended | confidence | as-written member | corrected member |
|---|---|---|---|---|---|---|
| loki/math/random.js:45 | `t ^= t >> 2` uses the sign-copying shift on a 32-bit word | words `[0, 0, 0, 0xFFFFFFFF, c, o]`: the step yields the all-zero xorshift state, which then stays zero forever | the unsigned shift `>>>` of Marsaglia's xorwow, which never reaches the zero state from a nonzero one | not executed | `Randoms.Next`, `Randoms.SignShiftCollapses`, `Randoms.ZeroStaysZero` | `Randoms.XorwowNext`, `Randoms.XorwowNeverZero`, `Randoms.XorwowNonzeroPreserved` (used by `Randoms.Random.RandomUint32`) |
| loki/gl/gl_frame_buffer.js:418-420 | `toMulti` passes `this.order[0]`, a single number, to `drawBuffers` (or `drawBuffersWEBGL`), whose parameter is a sequence | a framebuffer with two color attachments after `update`: WebIDL cannot convert the number to a sequence, so `toMulti()` throws a TypeError and the draw buffers stay as `toSingle` left them | pass the whole `this.order` list | not executed | `GLFramebuffers.GLFramebuffer.ToMultiAsWritten`, `GLFramebuffers.ToMultiAsWrittenLosesOrder` | `GLFramebuffers.GLFramebuffer.ToMulti` |
| loki/gl/gl_draw.js:439 | `reset` tests `this.resetStackOnReset`, a field nothing sets; the option lives in `this.settings` (line 29) | after one `push()`, `reset()` with the option on leaves the stack slot at 1 | test `this.settings.resetStackOnReset` | not executed | `GLDraws.GLDraw.ResetAsWritten` | `GLDraws.GLDraw.Reset` |
