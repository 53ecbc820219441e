/**
 * Shader programs (`GLShader`): the macro preamble and its injection after a `#version`
 * line, the uniform and attribute tables read from a linked program, the rule that a
 * context has one current program, uniform uploads and the draw of a mesh's buffers.
 * Compile and link status and the program's active uniforms and attributes are answers of
 * the driver, given as a `Driver` value.
 */
module GLShaders {
  import opened Wrappers
  import opened GL
  import opened OrderedMaps
  import opened GLContexts
  import opened TypedArrays
  import opened GLBuffers
  import GLMeshes
  import Loki

  // ---------------------------------------------------------------- source text

  /** `s` holds `pat` starting at index `j`. */
  predicate OccursAt(s: string, pat: string, j: int)
  {
    0 <= j && j + |pat| <= |s| && s[j..j + |pat|] == pat
  }

  /** `s.indexOf(pat, from)`: the first occurrence at or after `from`; none for -1. */
  function IndexOfFrom(s: string, pat: string, from: nat): (r: Option<nat>)
    ensures r.Some? ==> from <= r.value && OccursAt(s, pat, r.value)
    ensures r.Some? ==> forall j :: from <= j < r.value ==> !OccursAt(s, pat, j)
    ensures r.None? ==> forall j :: from <= j ==> !OccursAt(s, pat, j)
    decreases |s| - from
  {
    if from + |pat| > |s| then None
    else if s[from..from + |pat|] == pat then Some(from)
    else IndexOfFrom(s, pat, from + 1)
  }

  /** `s.indexOf(pat)`. */
  function IndexOf(s: string, pat: string): (r: Option<nat>)
    ensures r.Some? ==> OccursAt(s, pat, r.value) && forall j :: 0 <= j < r.value ==> !OccursAt(s, pat, j)
    ensures r.None? ==> forall j :: !OccursAt(s, pat, j)
  {
    IndexOfFrom(s, pat, 0)
  }

  /** Drops leading white space and line terminators. */
  function TrimStart(s: string): (r: string)
    ensures |r| <= |s| && r == s[|s| - |r|..]
    ensures r == [] || !Loki.IsRegExpSpace(r[0])
  {
    if s != [] && Loki.IsRegExpSpace(s[0]) then TrimStart(s[1..]) else s
  }

  /** Drops trailing white space and line terminators. */
  function TrimEnd(s: string): (r: string)
    ensures |r| <= |s| && r == s[..|r|]
    ensures r == [] || !Loki.IsRegExpSpace(r[|r| - 1])
  {
    if s != [] && Loki.IsRegExpSpace(s[|s| - 1]) then TrimEnd(s[..|s| - 1]) else s
  }

  /** `String.prototype.trim`. */
  function Trim(s: string): (r: string)
    ensures r == [] || (!Loki.IsRegExpSpace(r[0]) && !Loki.IsRegExpSpace(r[|r| - 1]))
  {
    TrimEnd(TrimStart(s))
  }

  /** A string that neither starts nor ends with white space is its own trim. */
  lemma TrimmedIsTrim(s: string)
    requires s == [] || (!Loki.IsRegExpSpace(s[0]) && !Loki.IsRegExpSpace(s[|s| - 1]))
    ensures Trim(s) == s
  {
  }

  /** The value of a macro as the application gives it. */
  datatype MacroValue = MacroString(text: string) | MacroNumber(n: int) | MacroBool(flag: bool) | MacroNull

  function Digit(d: nat): (c: char)
    requires d < 10
    ensures '0' <= c <= '9'
  {
    (48 + d) as char
  }

  /** The decimal digits of a natural number, most significant first. */
  function DigitsOf(n: nat): (s: string)
    ensures |s| >= 1 && forall i :: 0 <= i < |s| ==> '0' <= s[i] <= '9'
  {
    if n < 10 then [Digit(n)] else DigitsOf(n / 10) + [Digit(n % 10)]
  }

  /** The text an integer is converted to inside a template literal. */
  function NumberText(n: int): string
  {
    if n < 0 then "-" + DigitsOf(-n) else DigitsOf(n)
  }

  /** `${v ? v : ""}`: the text substituted for a macro; every falsy value gives "". */
  function MacroText(v: MacroValue): (t: string)
    ensures t == "" <==> v.MacroNull? || v == MacroNumber(0) || v == MacroBool(false) || v == MacroString("")
    ensures v.MacroString? ==> t == v.text
  {
    match v
    case MacroString(s) => s
    case MacroNumber(n) => if n == 0 then "" else NumberText(n)
    case MacroBool(b) => if b then "true" else ""
    case MacroNull => ""
  }

  /** The preamble line of one macro. */
  function DefineLine(name: string, v: MacroValue): string
  {
    "#define " + name + " " + MacroText(v) + "\n"
  }

  /** The preamble of the macros with the given keys, one line per key in key order. */
  function MacroCode(keys: seq<string>, values: map<string, MacroValue>): string
    requires forall k :: k in keys ==> k in values
  {
    if keys == [] then ""
    else MacroCode(keys[..|keys| - 1], values) + DefineLine(keys[|keys| - 1], values[keys[|keys| - 1]])
  }

  /** The number of occurrences of `c` in `s`. */
  function CountChar(s: string, c: char): nat
  {
    if s == [] then 0 else CountChar(s[..|s| - 1], c) + (if s[|s| - 1] == c then 1 else 0)
  }

  lemma {:induction false} CountCharAppend(a: string, b: string, c: char)
    ensures CountChar(a + b, c) == CountChar(a, c) + CountChar(b, c)
    decreases |b|
  {
    if b == [] {
      assert a + b == a;
    } else {
      assert (a + b)[..|a + b| - 1] == a + b[..|b| - 1];
      CountCharAppend(a, b[..|b| - 1], c);
    }
  }

  lemma {:induction false} CountCharAbsent(s: string, c: char)
    requires forall i :: 0 <= i < |s| ==> s[i] != c
    ensures CountChar(s, c) == 0
  {
    if s != [] {
      CountCharAbsent(s[..|s| - 1], c);
    }
  }

  /** A macro line whose name and text hold no line break holds exactly one, at its end. */
  lemma DefineLineBreak(k: string, v: MacroValue)
    requires '\n' !in k && '\n' !in MacroText(v)
    ensures CountChar(DefineLine(k, v), '\n') == 1
  {
    var t := MacroText(v);
    var line := "#define " + k + " " + t;
    forall i | 0 <= i < |line| ensures line[i] != '\n' {
      if 8 <= i < 8 + |k| {
        assert line[i] == k[i - 8];
      } else if i > 8 + |k| {
        assert line[i] == t[i - 9 - |k|];
      }
    }
    CountCharAbsent(line, '\n');
    CountCharAppend(line, "\n", '\n');
    assert "\n"[..0] == "";
  }

  /**
   * The preamble has exactly one line per macro: when no name and no value text holds a
   * line break, it holds exactly as many line breaks as there are macros.
   */
  lemma {:induction false} MacroCodeLines(keys: seq<string>, values: map<string, MacroValue>)
    requires forall k :: k in keys ==> k in values
    requires forall k :: k in keys ==> '\n' !in k && '\n' !in MacroText(values[k])
    ensures CountChar(MacroCode(keys, values), '\n') == |keys|
  {
    if keys != [] {
      var k := keys[|keys| - 1];
      assert k in keys;
      MacroCodeLines(keys[..|keys| - 1], values);
      DefineLineBreak(k, values[k]);
      CountCharAppend(MacroCode(keys[..|keys| - 1], values), DefineLine(k, values[k]), '\n');
    }
  }

  /** The preamble of one more key is the shorter preamble followed by that key's line. */
  lemma MacroCodeStep(keys: seq<string>, values: map<string, MacroValue>, i: int)
    requires forall k :: k in keys ==> k in values
    requires 0 <= i < |keys|
    ensures MacroCode(keys[..i + 1], values) == MacroCode(keys[..i], values) + DefineLine(keys[i], values[keys[i]])
  {
    assert keys[..i + 1][..i] == keys[..i];
  }

  /** `GLShader._expandMacros(macros)`: one `#define NAME VALUE` line per macro, in key order. */
  method ExpandMacros(macros: OMap<string, MacroValue>) returns (code: string)
    requires macros.Valid()
    ensures code == MacroCode(macros.keys, macros.values)
  {
    code := "";
    var i := 0;
    while i < |macros.keys|
      invariant 0 <= i <= |macros.keys|
      invariant code == MacroCode(macros.keys[..i], macros.values)
    {
      var k := macros.keys[i];
      code := code + DefineLine(k, macros.values[k]);
      MacroCodeStep(macros.keys, macros.values, i);
      i := i + 1;
    }
    assert macros.keys[..i] == macros.keys;
  }

  /**
   * `GLShader.injectCode(inject, code)`: the injected text goes first, unless the trimmed
   * first line holds `#version`; then it goes after that line (itself trimmed), in front of
   * the rest of the code from its first line break on.
   */
  function InjectCode(inject: string, code: string): string
  {
    match IndexOf(code, "\n")
    case None => inject + code
    case Some(index) =>
      var first := Trim(code[..index]);
      if IndexOf(first, "#version").None? then inject + code
      else first + "\n" + inject + code[index..]
  }

  /** A one-character pattern occurs exactly where that character is. */
  lemma OccursAtChar(s: string, c: char, j: int)
    ensures OccursAt(s, [c], j) <==> 0 <= j < |s| && s[j] == c
  {
    if 0 <= j < |s| {
      assert s[j..j + 1] == [s[j]];
    }
  }

  /** The first line break of `line + rest` is the one that starts `rest`. */
  lemma FirstLineBreak(line: string, rest: string)
    requires '\n' !in line && rest != [] && rest[0] == '\n'
    ensures IndexOf(line + rest, "\n") == Some(|line|)
  {
    var code := line + rest;
    OccursAtChar(code, '\n', |line|);
    var r := IndexOf(code, "\n");
    assert r.Some?;
    if r.value < |line| {
      OccursAtChar(code, '\n', r.value);
      assert false;
    }
  }

  /**
   * A `#version` first line already trimmed stays first: the injected text follows it on its
   * own line, and the rest of the code follows unchanged.
   */
  lemma InjectAfterVersion(inject: string, line: string, rest: string)
    requires '\n' !in line && OccursAt(line, "#version", 0)
    requires !Loki.IsRegExpSpace(line[|line| - 1])
    requires rest != [] && rest[0] == '\n'
    ensures InjectCode(inject, line + rest) == line + "\n" + inject + rest
  {
    var code := line + rest;
    FirstLineBreak(line, rest);
    VersionLineIsTrimmed(line, rest);
    InjectAtBreak(inject, code, |line|);
    assert code[|line|..] == rest;
  }

  lemma VersionLineIsTrimmed(line: string, rest: string)
    requires OccursAt(line, "#version", 0) && !Loki.IsRegExpSpace(line[|line| - 1])
    ensures |line| <= |line + rest| && Trim((line + rest)[..|line|]) == line
    ensures IndexOf(line, "#version").Some?
  {
    assert (line + rest)[..|line|] == line;
    assert line[0] == '#' by {
      assert line[0..8] == "#version";
    }
    TrimmedIsTrim(line);
  }

  lemma InjectAtBreak(inject: string, code: string, index: nat)
    requires IndexOf(code, "\n") == Some(index)
    requires IndexOf(Trim(code[..index]), "#version").Some?
    ensures InjectCode(inject, code) == Trim(code[..index]) + "\n" + inject + code[index..]
  {
  }

  /**
   * The name a uniform is stored under: everything from the first `[` is dropped, unless the
   * name holds `].` (an array of structures keeps its full name).
   */
  function CanonicalName(name: string): string
  {
    var pos := IndexOf(name, "[");
    if pos.Some? && IndexOf(name, "].").None? then name[..pos.value] else name
  }

  /** Storing a uniform name twice changes nothing more: the stored names are canonical. */
  lemma CanonicalNameIdempotent(name: string)
    ensures CanonicalName(CanonicalName(name)) == CanonicalName(name)
  {
    var pos := IndexOf(name, "[");
    if pos.Some? && IndexOf(name, "].").None? {
      var r := name[..pos.value];
      forall j ensures !OccursAt(r, "[", j) {
        if OccursAt(r, "[", j) {
          assert r[j] == '[';
          assert OccursAt(name, "[", j);
        }
      }
      assert IndexOf(r, "[").None?;
    }
  }

  /** A cut name holds no `[`. */
  lemma CanonicalNameNoBracket(name: string)
    requires IndexOf(name, "].").None?
    ensures forall i :: 0 <= i < |CanonicalName(name)| ==> CanonicalName(name)[i] != '['
  {
    var r := CanonicalName(name);
    forall i | 0 <= i < |r| ensures r[i] != '[' {
      if r[i] == '[' {
        assert OccursAt(name, "[", i);
      }
    }
  }

  // ---------------------------------------------------------------- program tables

  /** An entry of the program's active uniforms, with its location (none for null). */
  datatype ActiveUniform = ActiveUniform(name: string, glType: int, size: int, location: Option<Handle>)

  /** An entry of the program's active attributes, with its location (-1 when absent). */
  datatype ActiveAttrib = ActiveAttrib(name: string, glType: int, size: int, location: int)

  /** The driver's answers while a program is built. */
  datatype Driver = Driver(
    vertexCompiles: bool,
    fragmentCompiles: bool,
    links: bool,
    uniforms: seq<ActiveUniform>,
    attributes: seq<ActiveAttrib>)

  /** What the shader keeps about a uniform; `data` is the Float32Array array values go through. */
  datatype UniformInfo = UniformInfo(
    glType: int,
    size: int,
    location: Option<Handle>,
    setter: UniformSetter,
    typeLength: int,
    isMatrix: bool,
    data: Option<seq<real>>)

  /** What the shader keeps about an attribute. */
  datatype AttribInfo = AttribInfo(size: int, glType: int, location: int)

  predicate IsSamplerType(t: int)
  {
    t == SAMPLER_2D || t == SAMPLER_CUBE || t == SAMPLER_3D
  }

  predicate IsMatrixType(t: int)
  {
    t == FLOAT_MAT2 || t == FLOAT_MAT3 || t == FLOAT_MAT4
  }

  /** `TYPE_LENGTH[type] || 1`: the number of components of a uniform type, 1 when unknown. */
  function TypeLength(typeLengths: map<int, int>, t: int): (n: int)
    ensures n != 0
    ensures t in typeLengths && typeLengths[t] != 0 ==> n == typeLengths[t]
    ensures t !in typeLengths ==> n == 1
  {
    if t in typeLengths && typeLengths[t] != 0 then typeLengths[t] else 1
  }

  /** The entry stored for one active uniform. */
  function InfoOf(u: ActiveUniform, typeLengths: map<int, int>): (e: UniformInfo)
    ensures e.glType == u.glType && e.size == u.size && e.location == u.location && e.data.None?
    ensures e.typeLength != 0 && (e.isMatrix <==> IsMatrixType(e.glType)) && e.setter == UniformFunction(e.glType, e.size)
  {
    UniformInfo(u.glType, u.size, u.location, UniformFunction(u.glType, u.size),
                TypeLength(typeLengths, u.glType), IsMatrixType(u.glType), None)
  }

  /** The canonical names of the active uniforms, in order. */
  function CanonicalNames(us: seq<ActiveUniform>): (names: seq<string>)
    ensures |names| == |us|
    ensures forall i :: 0 <= i < |us| ==> names[i] == CanonicalName(us[i].name)
  {
    if us == [] then [] else CanonicalNames(us[..|us| - 1]) + [CanonicalName(us[|us| - 1].name)]
  }

  /** The canonical names of the active sampler uniforms, in order. */
  function SamplerNames(us: seq<ActiveUniform>): (names: seq<string>)
    ensures forall k :: k in names <==> exists i :: 0 <= i < |us| && IsSamplerType(us[i].glType) && CanonicalName(us[i].name) == k
  {
    if us == [] then []
    else
      var init := us[..|us| - 1];
      var u := us[|us| - 1];
      assert forall i :: 0 <= i < |init| ==> init[i] == us[i];
      SamplerNames(init) + (if IsSamplerType(u.glType) then [CanonicalName(u.name)] else [])
  }

  /** The names of the active attributes, in order. */
  function AttribNames(attrs: seq<ActiveAttrib>): (names: seq<string>)
    ensures |names| == |attrs|
    ensures forall i :: 0 <= i < |attrs| ==> names[i] == attrs[i].name
  {
    if attrs == [] then [] else AttribNames(attrs[..|attrs| - 1]) + [attrs[|attrs| - 1].name]
  }

  /** The position of the last occurrence of `k`, if any. */
  function LastIndex(names: seq<string>, k: string): (r: Option<nat>)
    ensures r.None? <==> k !in names
    ensures r.Some? ==> r.value < |names| && names[r.value] == k && k !in names[r.value + 1..]
  {
    if names == [] then None
    else if names[|names| - 1] == k then Some(|names| - 1)
    else
      var r := LastIndex(names[..|names| - 1], k);
      assert names == names[..|names| - 1] + [names[|names| - 1]];
      if r.Some? then
        assert names[r.value + 1..] == names[..|names| - 1][r.value + 1..] + [names[|names| - 1]];
        r
      else r
  }

  /**
   * The uniform table of a linked program: one entry per canonical name (a later uniform
   * with the same canonical name replaces an earlier one), with no array storage yet.
   */
  function UniformTable(us: seq<ActiveUniform>, typeLengths: map<int, int>): (t: OMap<string, UniformInfo>)
    ensures t.Valid()
  {
    if us == [] then Empty()
    else
      var u := us[|us| - 1];
      Put(UniformTable(us[..|us| - 1], typeLengths), CanonicalName(u.name), InfoOf(u, typeLengths))
  }

  /**
   * The uniform table holds exactly the canonical names of the active uniforms; each entry is
   * the one of the last uniform with that name.
   */
  lemma {:induction false} UniformTableEntries(us: seq<ActiveUniform>, typeLengths: map<int, int>, k: string)
    ensures k in UniformTable(us, typeLengths).values <==> k in CanonicalNames(us)
    ensures k in UniformTable(us, typeLengths).values ==>
      var e := UniformTable(us, typeLengths).values[k];
      e == InfoOf(us[LastIndex(CanonicalNames(us), k).value], typeLengths)
  {
    if us != [] {
      var init := us[..|us| - 1];
      var names := CanonicalNames(us);
      UniformTableEntries(init, typeLengths, k);
      assert names[..|names| - 1] == CanonicalNames(init);
      if names[|names| - 1] != k && k in CanonicalNames(init) {
        var i := LastIndex(CanonicalNames(init), k).value;
        assert LastIndex(names, k) == Some(i);
        assert us[i] == init[i];
      }
    }
  }

  /** Every name in the uniform table is canonical. */
  lemma UniformTableCanonical(us: seq<ActiveUniform>, typeLengths: map<int, int>, k: string)
    requires k in UniformTable(us, typeLengths).values
    ensures CanonicalName(k) == k
  {
    UniformTableEntries(us, typeLengths, k);
    var i := LastIndex(CanonicalNames(us), k).value;
    CanonicalNameIdempotent(us[i].name);
  }

  /** The sampler table: the canonical names of the sampler uniforms, with their types. */
  function TextureTable(us: seq<ActiveUniform>): (t: OMap<string, int>)
    ensures t.Valid()
  {
    if us == [] then Empty()
    else
      var u := us[|us| - 1];
      var t0 := TextureTable(us[..|us| - 1]);
      if IsSamplerType(u.glType) then Put(t0, CanonicalName(u.name), u.glType) else t0
  }

  /** The sampler table holds exactly the canonical names of the sampler uniforms, each with a sampler type. */
  lemma {:induction false} TextureTableKeys(us: seq<ActiveUniform>, k: string)
    ensures k in TextureTable(us).values <==> k in SamplerNames(us)
    ensures k in TextureTable(us).values ==> IsSamplerType(TextureTable(us).values[k])
  {
    if us != [] {
      TextureTableKeys(us[..|us| - 1], k);
    }
  }

  /** The attribute table: one entry per attribute name, with its location. */
  function AttributeTable(attrs: seq<ActiveAttrib>): (t: OMap<string, AttribInfo>)
    ensures t.Valid()
  {
    if attrs == [] then Empty()
    else
      var a := attrs[|attrs| - 1];
      Put(AttributeTable(attrs[..|attrs| - 1]), a.name, AttribInfo(a.size, a.glType, a.location))
  }

  /** The attribute table holds exactly the active attributes' names, each with the last such attribute's size, type and location. */
  lemma {:induction false} AttributeTableEntries(attrs: seq<ActiveAttrib>, k: string)
    ensures k in AttributeTable(attrs).values <==> k in AttribNames(attrs)
    ensures k in AttributeTable(attrs).values ==>
      var a := attrs[LastIndex(AttribNames(attrs), k).value];
      AttributeTable(attrs).values[k] == AttribInfo(a.size, a.glType, a.location)
  {
    if attrs != [] {
      var init := attrs[..|attrs| - 1];
      AttributeTableEntries(init, k);
      assert AttribNames(attrs) == AttribNames(init) + [attrs[|attrs| - 1].name];
    }
  }

  /** The locations of the attributes with the first `n` of the given names, in order. */
  function LocationsTo(keys: seq<string>, values: map<string, AttribInfo>, n: nat): (r: seq<int>)
    requires n <= |keys|
  {
    if n == 0 then []
    else LocationsTo(keys, values, n - 1) + (if keys[n - 1] in values then [values[keys[n - 1]].location] else [])
  }

  /** The locations of the attributes with the given names, in order. */
  function Locations(keys: seq<string>, values: map<string, AttribInfo>): seq<int>
  {
    LocationsTo(keys, values, |keys|)
  }

  /** One `disableVertexAttribArray` per location, in order. */
  function DisableAll(locs: seq<int>): (r: seq<GLCall>)
    ensures |r| == |locs|
  {
    if locs == [] then [] else DisableAll(locs[..|locs| - 1]) + [DisableVertexAttribArray(locs[|locs| - 1])]
  }

  /** What `unbind` sends when it acts: every attribute location disabled, then no program. */
  function UnbindCalls(attrs: OMap<string, AttribInfo>): seq<GLCall>
  {
    DisableAll(Locations(attrs.keys, attrs.values)) + [UseProgram(None)]
  }

  /** What `destroy` sends: the unbind when bound and valid, then the program's deletion. */
  function DestroyCalls(bound: bool, valid: bool, attrs: OMap<string, AttribInfo>, program: Option<Handle>): seq<GLCall>
  {
    (if bound && valid then UnbindCalls(attrs) else []) + (if program.Some? then [DeleteProgram(program)] else [])
  }

  /** What making a shader current sends: nothing when it already is. */
  function SwitchCalls(bound: bool, program: Option<Handle>): seq<GLCall>
  {
    if bound then [] else [UseProgram(program)]
  }

  /** The preamble `createFromSource` injects: the given macros plus `WEBGL` set to the version. */
  function Preamble(macros: OMap<string, MacroValue>, webglVersion: int): string
    requires macros.Valid()
  {
    var m := Put(macros, "WEBGL", MacroNumber(webglVersion));
    MacroCode(m.keys, m.values)
  }

  /** The calls `createFromSource` logs: both sources, then the link when both stages compiled. */
  function CompileCalls(vertexSource: string, fragmentSource: string, compiled: bool, program: Option<Handle>): seq<GLCall>
  {
    [ShaderSource(VERTEX_SHADER, vertexSource), ShaderSource(FRAGMENT_SHADER, fragmentSource)]
    + (if compiled then [LinkProgram(program)] else [])
  }

  /** `macros["WEBGL"] = gl.webglVersion` followed by `_expandMacros`. */
  method PreambleCode(macros: OMap<string, MacroValue>, webglVersion: int) returns (code: string)
    requires macros.Valid()
    ensures code == Preamble(macros, webglVersion)
  {
    code := ExpandMacros(Put(macros, "WEBGL", MacroNumber(webglVersion)));
  }

  // ---------------------------------------------------------------- uniform uploads

  /** A value given for a uniform. */
  datatype UniformValue =
    | NoValue                   // null or undefined
    | Number(x: real)
    | PlainArray(values: seq<real>)
    | TypedValue(typed: NumArray)

  /** The result of setting one uniform: the updated entry, the calls made, how it ended. */
  datatype UniformEffect = UniformEffect(info: UniformInfo, calls: seq<GLCall>, outcome: Outcome)

  const RANGE := "RangeError: offset is out of bounds"
  const BAD_LENGTH := "RangeError: Invalid typed array length"
  const NO_TABLES := "TypeError: Cannot read properties of undefined"
  const NO_INDEX_HANDLE := "TypeError: Cannot read properties of null (reading 'length')"

  function Zeros(n: nat): (r: seq<real>)
    ensures |r| == n && forall i :: 0 <= i < n ==> r[i] == 0.0
  {
    seq(n, i => 0.0)
  }

  /** The uniform call for a value, with `transpose = false` for matrices. */
  function UniformCall(info: UniformInfo, arg: UniformArg): GLCall
    requires info.location.Some?
  {
    SetUniform(info.setter, info.location.value, if info.isMatrix then Some(false) else None, arg)
  }

  /**
   * `setUniform` on a known entry: nothing for a null location or a null value; an array is
   * copied into the entry's Float32Array of `typeLength * size` elements (allocated on first
   * use, and refusing a longer array) and that whole array is sent.
   */
  function ApplyUniform(info: UniformInfo, value: UniformValue): (e: UniformEffect)
  {
    if info.location.None? || value.NoValue? then UniformEffect(info, [], Done)
    else match value
      case Number(x) => UniformEffect(info, [UniformCall(info, Scalar(x))], Done)
      case TypedValue(a) => UniformEffect(info, [UniformCall(info, Values(a.values))], Done)
      case PlainArray(vs) =>
        var n := info.typeLength * info.size;
        if info.data.None? && n < 0 then UniformEffect(info, [], Threw(BAD_LENGTH))
        else
          var data := if info.data.Some? then info.data.value else Zeros(n);
          if |vs| > |data| then UniformEffect(info.(data := Some(data)), [], Threw(RANGE))
          else
            var data' := vs + data[|vs|..];
            UniformEffect(info.(data := Some(data')), [UniformCall(info, Values(data'))], Done)
  }

  /**
   * The array storage is allocated once, with `typeLength * size` elements, and keeps its
   * size; an array value fills its front and leaves the rest as it was.
   */
  lemma ApplyUniformStorage(info: UniformInfo, value: UniformValue)
    ensures var e := ApplyUniform(info, value);
      (info.data.Some? ==> e.info.data.Some? && |e.info.data.value| == |info.data.value|)
      && (info.data.None? && e.info.data.Some? ==> |e.info.data.value| == info.typeLength * info.size)
      && e.info.(data := info.data) == info
  {
  }

  lemma ApplyUniformArray(info: UniformInfo, vs: seq<real>)
    requires info.location.Some?
    requires info.data.Some? ==> |vs| <= |info.data.value|
    requires info.data.None? ==> 0 <= |vs| <= info.typeLength * info.size
    ensures var e := ApplyUniform(info, PlainArray(vs));
      e.outcome == Done && e.info.data.Some? && e.info.data.value[..|vs|] == vs
      && e.calls == [UniformCall(info, Values(e.info.data.value))]
      && (info.data.Some? ==> e.info.data.value[|vs|..] == info.data.value[|vs|..])
  {
  }

  /** No call is made for a null location or a null value, and a matrix is never transposed. */
  lemma ApplyUniformCalls(info: UniformInfo, value: UniformValue)
    ensures info.location.None? || value.NoValue? ==> ApplyUniform(info, value) == UniformEffect(info, [], Done)
    ensures forall c :: c in ApplyUniform(info, value).calls ==>
      c.SetUniform? && c.setter == info.setter && Some(c.uniformLocation) == info.location
      && (c.transpose == Some(false) <==> info.isMatrix) && (c.transpose.Some? ==> c.transpose == Some(false))
  {
  }

  /** The result of setting several uniforms: the table after, the calls, how it ended. */
  datatype Uploads = Uploads(table: OMap<string, UniformInfo>, calls: seq<GLCall>, outcome: Outcome)

  /** `setUniform(name, value)` once the shader is current. */
  function UploadOne(table: OMap<string, UniformInfo>, deleted: bool, name: string, value: UniformValue): (u: Uploads)
    requires table.Valid()
    ensures u.table.Valid() && u.table.keys == table.keys
  {
    if deleted then Uploads(table, [], Threw(NO_TABLES))
    else if name !in table.values then Uploads(table, [], Done)
    else
      var e := ApplyUniform(table.values[name], value);
      Uploads(Put(table, name, e.info), e.calls, e.outcome)
  }

  /** The values of `setUniforms`, one after the other, stopping at the first that throws. */
  function UploadAll(table: OMap<string, UniformInfo>, deleted: bool, values: seq<(string, UniformValue)>): (u: Uploads)
    requires table.Valid()
    ensures u.table.Valid()
  {
    UploadsTo(table, deleted, values, |values|)
  }

  /** The same for the first `n` values. */
  function UploadsTo(table: OMap<string, UniformInfo>, deleted: bool, values: seq<(string, UniformValue)>, n: nat): (u: Uploads)
    requires table.Valid() && n <= |values|
    ensures u.table.Valid()
  {
    if n == 0 then Uploads(table, [], Done)
    else
      var prev := UploadsTo(table, deleted, values, n - 1);
      if prev.outcome.Threw? then prev
      else
        var next := UploadOne(prev.table, deleted, values[n - 1].0, values[n - 1].1);
        Uploads(next.table, prev.calls + next.calls, next.outcome)
  }

  /** `setUniforms` never adds a uniform: the table keeps its names and their order. */
  lemma {:induction false} UploadsKeepNames(table: OMap<string, UniformInfo>, deleted: bool,
                                            values: seq<(string, UniformValue)>, n: nat)
    requires table.Valid() && n <= |values|
    ensures UploadsTo(table, deleted, values, n).table.keys == table.keys
  {
    if n > 0 {
      UploadsKeepNames(table, deleted, values, n - 1);
    }
  }

  /** Names the program does not have are skipped: no call, nothing stored. */
  lemma {:induction false} UploadsUnknown(table: OMap<string, UniformInfo>, values: seq<(string, UniformValue)>, n: nat)
    requires table.Valid() && n <= |values|
    requires forall i :: 0 <= i < |values| ==> values[i].0 !in table.values
    ensures UploadsTo(table, false, values, n) == Uploads(table, [], Done)
  {
    if n > 0 {
      UploadsUnknown(table, values, n - 1);
    }
  }

  /** Once a value of `setUniforms` throws, the later ones change nothing. */
  lemma {:induction false} UploadsAfterThrow(table: OMap<string, UniformInfo>, deleted: bool,
                                             values: seq<(string, UniformValue)>, i: nat, n: nat)
    requires table.Valid() && i <= n <= |values|
    requires UploadsTo(table, deleted, values, i).outcome.Threw?
    ensures UploadsTo(table, deleted, values, n) == UploadsTo(table, deleted, values, i)
  {
    if i < n {
      UploadsAfterThrow(table, deleted, values, i, n - 1);
    }
  }

  // ---------------------------------------------------------------- drawing

  /** What a draw reads from a vertex buffer it uses. */
  datatype Feed = Feed(location: int, buffer: Handle, itemSize: int, glType: int, length: nat)

  /** `buffer.attribute || name`. */
  function AttributeName(name: string, attribute: Option<string>): string
  {
    if attribute.Some? && attribute.value != "" then attribute.value else name
  }

  /**
   * The vertex buffers a draw uses, in stream order: those whose attribute the shader has and
   * that have been uploaded, with the attribute's location.
   */
  function Feeds(names: seq<string>, bufs: map<string, GLBuffer>, attrs: map<string, AttribInfo>): (f: seq<Feed>)
    reads bufs.Values
  {
    FeedsTo(names, bufs, attrs, |names|)
  }

  /** The same for the first `n` streams. */
  function FeedsTo(names: seq<string>, bufs: map<string, GLBuffer>, attrs: map<string, AttribInfo>, n: nat): (f: seq<Feed>)
    requires n <= |names|
    reads bufs.Values
  {
    if n == 0 then [] else FeedsTo(names, bufs, attrs, n - 1) + FeedOf(names[n - 1], bufs, attrs)
  }

  /** What one stream contributes: its buffer, when the shader has its attribute and it has been uploaded. */
  function FeedOf(name: string, bufs: map<string, GLBuffer>, attrs: map<string, AttribInfo>): (f: seq<Feed>)
    reads bufs.Values
    ensures |f| <= 1
  {
    if name in bufs && AttributeName(name, bufs[name].attribute) in attrs && bufs[name].handle.Some? then
      var b := bufs[name];
      [Feed(attrs[AttributeName(name, b.attribute)].location, b.handle.value, b.uploadedItemSize, b.glType, b.length)]
    else []
  }

  /** Per used buffer: bind it, enable its location, describe its layout. */
  function FeedCalls(f: seq<Feed>): seq<GLCall>
  {
    if f == [] then []
    else
      var x := f[|f| - 1];
      FeedCalls(f[..|f| - 1])
      + [BindBuffer(ARRAY_BUFFER, Some(x.buffer)), EnableVertexAttribArray(x.location),
         VertexAttribPointer(x.location, x.itemSize, x.glType)]
  }

  /** A location is used when some used buffer feeds it. */
  predicate Used(f: seq<Feed>, loc: int)
  {
    exists j :: 0 <= j < |f| && f[j].location == loc
  }

  /** The 16 marks a draw leaves: 1 at each used location below 16; larger ones are not kept. */
  function Marks(f: seq<Feed>): (m: seq<int>)
    ensures |m| == 16
  {
    if f == [] then Zeros16()
    else
      var prev := Marks(f[..|f| - 1]);
      var loc := f[|f| - 1].location;
      if 0 <= loc < 16 then prev[loc := 1] else prev
  }

  /** A mark is set exactly at the locations below 16 that some used buffer feeds. */
  lemma {:induction false} MarksUsed(f: seq<Feed>, i: int)
    requires 0 <= i < 16
    ensures Marks(f)[i] == (if Used(f, i) then 1 else 0)
  {
    if f != [] {
      var init := f[..|f| - 1];
      MarksUsed(init, i);
      if Used(init, i) {
        var j :| 0 <= j < |init| && init[j].location == i;
        assert f[j] == init[j];
      }
      if Used(f, i) && f[|f| - 1].location != i {
        var j :| 0 <= j < |f| && f[j].location == i;
        assert init[j] == f[j];
      }
    }
  }

  /** `length / itemSize` as a JavaScript number. */
  function Quotient(n: nat, d: int): (q: Extended)
    ensures d != 0 ==> q == Finite(n as real / d as real)
  {
    if d == 0 then (if n == 0 then NotANumber else PlusInfinity) else Finite(n as real / d as real)
  }

  /** The vertex count of a non-indexed draw: from the last used buffer, 0 when none. */
  function VertexCount(f: seq<Feed>): Extended
  {
    if f == [] then Finite(0.0) else Quotient(f[|f| - 1].length, f[|f| - 1].itemSize)
  }

  /** `x < n` for a JavaScript number `n`. */
  predicate Below(x: real, n: Extended)
  {
    match n
    case Finite(y) => x < y
    case PlusInfinity => true
    case NotANumber => false
  }

  /** The truth value of a JavaScript number. */
  predicate Truthy(n: Extended)
  {
    match n
    case Finite(y) => y != 0.0
    case PlusInfinity => true
    case NotANumber => false
  }

  /** The first element drawn: `rangeStart` when positive, else 0. */
  function RangeOffset(rangeStart: Option<real>): (o: real)
    ensures o >= 0.0
  {
    if rangeStart.Some? && rangeStart.value > 0.0 then rangeStart.value else 0.0
  }

  /** What a draw reads from the index buffer. */
  datatype IndexView = IndexView(handle: Option<Handle>, length: nat, glType: int, data: Option<NumArray>)

  function ViewOf(ib: GLBuffer?): (v: Option<IndexView>)
    reads ib
    ensures v.Some? <==> ib != null
  {
    if ib == null then None else Some(IndexView(ib.handle, ib.length, ib.glType, ib.data))
  }

  /**
   * The element count drawn: the index count less the offset with an index buffer, the
   * vertex count without; then `rangeLength` when it is positive and smaller.
   */
  function DrawCount(f: seq<Feed>, ib: Option<IndexView>, rangeStart: Option<real>, rangeLength: Option<real>): Extended
  {
    var n := if ib.Some? then Finite(ib.value.length as real - RangeOffset(rangeStart)) else VertexCount(f);
    if rangeLength.Some? && rangeLength.value > 0.0 && Below(rangeLength.value, n) then Finite(rangeLength.value) else n
  }

  /** The offset passed to the draw: the range start times the element size of the index data, or 1. */
  function DrawOffset(ib: Option<IndexView>, rangeStart: Option<real>): real
  {
    var bytes := if ib.Some? && ib.value.data.Some? then BytesPerElement(ib.value.data.value.kind) else 1;
    RangeOffset(rangeStart) * bytes as real
  }

  /** The attribute locations of the shader that the marks leave unused, disabled in order. */
  function DisableUnused(locs: seq<int>, marks: seq<int>): (r: seq<GLCall>)
    ensures forall c :: c in r ==>
      c.DisableVertexAttribArray? && c.location in locs && !(0 <= c.location < |marks| && marks[c.location] != 0)
  {
    if locs == [] then []
    else
      var loc := locs[|locs| - 1];
      DisableUnused(locs[..|locs| - 1], marks)
      + (if 0 <= loc < |marks| && marks[loc] != 0 then [] else [DisableVertexAttribArray(loc)])
  }

  /** One more location: disabled after the others unless its mark is set. */
  lemma DisableUnusedSnoc(locs: seq<int>, loc: int, marks: seq<int>)
    ensures DisableUnused(locs + [loc], marks) ==
      DisableUnused(locs, marks) + (if 0 <= loc < |marks| && marks[loc] != 0 then [] else [DisableVertexAttribArray(loc)])
  {
    assert (locs + [loc])[..|locs|] == locs;
  }

  /** The draw itself: indexed (bracketed by binding the index buffer) or not; nothing for a zero count. */
  function DrawCalls(mode: int, ib: Option<IndexView>, count: Extended, offset: real): seq<GLCall>
  {
    if !Truthy(count) then []
    else if ib.Some? then
      [BindBuffer(ELEMENT_ARRAY_BUFFER, ib.value.handle), DrawElements(mode, count, ib.value.glType, offset),
       BindBuffer(ELEMENT_ARRAY_BUFFER, None)]
    else [DrawArrays(mode, offset, count)]
  }

  /** The calls and the ending of a `drawBuffers` once the shader is current. */
  datatype DrawEffect = DrawEffect(calls: seq<GLCall>, outcome: Outcome)

  function DrawResult(deleted: bool, streams: seq<string>, f: seq<Feed>, attrLocs: seq<int>, ib: Option<IndexView>,
                      mode: int, rangeStart: Option<real>, rangeLength: Option<real>): DrawEffect
  {
    if deleted && streams != [] then DrawEffect([], Threw(NO_TABLES))
    else if ib.Some? && ib.value.handle.None? then DrawEffect(FeedCalls(f), Threw(NO_INDEX_HANDLE))
    else DrawEffect(FeedCalls(f) + DrawTail(f, attrLocs, ib, mode, rangeStart, rangeLength), Done)
  }

  /** What follows the vertex buffers: the disables of unused locations, then the draw. */
  function DrawTail(f: seq<Feed>, attrLocs: seq<int>, ib: Option<IndexView>,
                    mode: int, rangeStart: Option<real>, rangeLength: Option<real>): seq<GLCall>
  {
    DisableUnused(attrLocs, Marks(f)) + DrawCalls(mode, ib, DrawCount(f, ib, rangeStart, rangeLength), DrawOffset(ib, rangeStart))
  }

  /** An indexed draw never draws past the end of the index buffer. */
  lemma IndexedCountBound(f: seq<Feed>, ib: IndexView, rangeStart: Option<real>, rangeLength: Option<real>)
    ensures var n := DrawCount(f, Some(ib), rangeStart, rangeLength);
      n.Finite? && n.x <= ib.length as real - RangeOffset(rangeStart)
      && (rangeLength.Some? && 0.0 < rangeLength.value < ib.length as real - RangeOffset(rangeStart) ==> n.x == rangeLength.value)
      && (rangeLength.None? ==> n.x == ib.length as real - RangeOffset(rangeStart))
  {
  }

  /** A draw uses exactly the marked locations below 16, and leaves every other shader location disabled. */
  lemma DisableUnusedExact(locs: seq<int>, f: seq<Feed>, loc: int)
    requires loc in locs
    ensures DisableVertexAttribArray(loc) in DisableUnused(locs, Marks(f)) <==> !(0 <= loc < 16 && Used(f, loc))
  {
    var k :| 0 <= k < |locs| && locs[k] == loc;
    DisableUnusedHas(locs, Marks(f), k);
    if 0 <= loc < 16 {
      MarksUsed(f, loc);
    }
  }

  lemma {:induction false} DisableUnusedHas(locs: seq<int>, marks: seq<int>, k: int)
    requires 0 <= k < |locs|
    ensures DisableVertexAttribArray(locs[k]) in DisableUnused(locs, marks)
      <==> !(0 <= locs[k] < |marks| && marks[locs[k]] != 0)
  {
    if k < |locs| - 1 {
      DisableUnusedHas(locs[..|locs| - 1], marks, k);
    }
  }

  /** The index set `drawMesh` and `drawRange` use by default: "lines" for LINES, else "triangles". */
  function IndexSetName(mode: Option<int>, name: Option<string>): (r: string)
    ensures name.Some? ==> r == name.value
    ensures name.None? ==> (r == "lines" <==> mode == Some(LINES)) && (r != "lines" ==> r == "triangles")
  {
    if name.Some? then name.value else if mode == Some(LINES) then "lines" else "triangles"
  }

  lemma AppendAssociates(a: seq<GLCall>, b: seq<GLCall>, c: seq<GLCall>)
    ensures (a + b) + c == a + (b + c)
  {
  }

  // ---------------------------------------------------------------- objects

  /** The disabling loop over the attribute names `keys`, reading the marks in `marks`. */
  method DisableLocations(gl: GLContext, keys: seq<string>, values: map<string, AttribInfo>, marks: array<int>)
    requires marks.Length == 16
    modifies gl`log
    ensures gl.log == old(gl.log) + DisableUnused(Locations(keys, values), marks[..])
  {
    ghost var m := marks[..];
    var i := 0;
    while i < |keys|
      invariant 0 <= i <= |keys|
      invariant gl.log == old(gl.log) + DisableUnused(LocationsTo(keys, values, i), m)
    {
      ghost var before := LocationsTo(keys, values, i);
      if keys[i] in values {
        var loc := values[keys[i]].location;
        assert LocationsTo(keys, values, i + 1) == before + [loc];
        DisableUnusedSnoc(before, loc, m);
        if !(0 <= loc < 16 && marks[loc] != 0) {
          gl.Call(DisableVertexAttribArray(loc));
          AppendAssociates(old(gl.log), DisableUnused(before, m), [DisableVertexAttribArray(loc)]);
        }
      } else {
        assert LocationsTo(keys, values, i + 1) == before;
      }
      i := i + 1;
    }
  }

  /**
   * The shader state of one context: its current shader (`gl.currentShader`) and the scratch
   * marks of `drawBuffers` (`GLShader._tempAttribsArray`, 16 bytes, reset by every draw).
   */
  class ShaderBinding {
    const gl: GLContext
    var current: GLShader?
    const attribsInUse: array<int>

    ghost predicate Valid()
      reads this
    {
      attribsInUse.Length == 16 && (current != null ==> current.binding == this && current.gl == gl)
    }

    constructor (gl: GLContext)
      ensures Valid() && this.gl == gl && current == null && fresh(attribsInUse)
    {
      this.gl := gl;
      current := null;
      attribsInUse := new int[16](i => 0);
    }
  }

  class GLShader {
    const gl: GLContext
    const binding: ShaderBinding
    var valid: bool
    var program: Option<Handle>
    var attributeInfo: OMap<string, AttribInfo>
    var uniformInfo: OMap<string, UniformInfo>
    var textures: OMap<string, int>
    /** Set by `destroy`, which deletes both info tables: reading them then throws. */
    var tablesDeleted: bool
    var vertexSource: string
    var fragmentSource: string

    ghost predicate Valid()
      reads this, binding
    {
      attributeInfo.Valid() && uniformInfo.Valid() && textures.Valid()
      && binding.gl == gl && binding.Valid()
    }

    /** `new GLShader(gl)` without sources: invalid, no program, empty tables. */
    constructor (gl: GLContext, binding: ShaderBinding)
      requires binding.Valid() && binding.gl == gl
      ensures Valid() && this.gl == gl && this.binding == binding
      ensures !valid && program.None? && !tablesDeleted
      ensures attributeInfo == Empty() && uniformInfo == Empty() && textures == Empty()
    {
      this.gl := gl;
      this.binding := binding;
      valid := false;
      program := None;
      attributeInfo := Empty();
      uniformInfo := Empty();
      textures := Empty();
      tablesDeleted := false;
      vertexSource := "";
      fragmentSource := "";
    }

    /** `isBound`: this shader is the context's current one. */
    predicate IsBound()
      reads this, binding
    {
      binding.current == this
    }

    /** `attributeLocation(name)`: none when the table is gone (the lookup throws), else the location or null. */
    function AttributeLocation(name: string): (r: Option<Option<int>>)
      reads this
      ensures r.None? <==> tablesDeleted
      ensures r.Some? ==> (r.value.Some? <==> name in attributeInfo.values)
      ensures r.Some? && r.value.Some? ==> r.value.value == attributeInfo.values[name].location
    {
      if tablesDeleted then None
      else if name in attributeInfo.values then Some(Some(attributeInfo.values[name].location))
      else Some(None)
    }

    /** `uniformLocation(name)`, in the same way. */
    function UniformLocation(name: string): (r: Option<Option<Handle>>)
      reads this
      ensures r.None? <==> tablesDeleted
      ensures r.Some? && name !in uniformInfo.values ==> r.value.None?
      ensures r.Some? && name in uniformInfo.values ==> r.value == uniformInfo.values[name].location
    {
      if tablesDeleted then None
      else if name in uniformInfo.values then Some(uniformInfo.values[name].location)
      else Some(None)
    }

    /**
     * `unbind()`: false for an invalid shader; when current, disables every attribute
     * location, unsets the program and leaves the context without a current shader.
     */
    method Unbind() returns (r: bool)
      requires binding.Valid() && binding.gl == gl
      modifies gl`log, binding`current
      ensures r == valid && binding.Valid()
      ensures !valid || old(binding.current) != this ==>
        gl.log == old(gl.log) && binding.current == old(binding.current)
      ensures valid && old(binding.current) == this ==>
        gl.log == old(gl.log) + UnbindCalls(attributeInfo) && binding.current == null
    {
      if !valid {
        return false;
      }
      if binding.current == this {
        DisableAllLocations();
        gl.Call(UseProgram(None));
        binding.current := null;
      }
      return true;
    }

    /** The loop of `unbind`: disables every attribute location of the shader, in table order. */
    method DisableAllLocations()
      modifies gl`log
      ensures gl.log == old(gl.log) + DisableAll(Locations(attributeInfo.keys, attributeInfo.values))
    {
      var keys := attributeInfo.keys;
      var i := 0;
      while i < |keys|
        invariant 0 <= i <= |keys|
        invariant gl.log == old(gl.log) + DisableAll(LocationsTo(keys, attributeInfo.values, i))
      {
        ghost var before := LocationsTo(keys, attributeInfo.values, i);
        if keys[i] in attributeInfo.values {
          var loc := attributeInfo.values[keys[i]].location;
          assert LocationsTo(keys, attributeInfo.values, i + 1) == before + [loc];
          assert (before + [loc])[..|before|] == before;
          assert DisableAll(before + [loc]) == DisableAll(before) + [DisableVertexAttribArray(loc)];
          gl.Call(DisableVertexAttribArray(loc));
          assert gl.log == old(gl.log) + DisableAll(before + [loc]);
        } else {
          assert LocationsTo(keys, attributeInfo.values, i + 1) == before;
        }
        i := i + 1;
      }
    }

    /**
     * `bind()`: false for an invalid shader; otherwise the shader becomes current, after the
     * shader that was current (if any) has been unbound.
     */
    method Bind() returns (r: bool)
      requires Valid()
      modifies gl`log, binding`current
      ensures r == valid && Valid()
      ensures !valid || old(binding.current) == this ==>
        gl.log == old(gl.log) && binding.current == old(binding.current)
      ensures valid && old(binding.current) != this ==> binding.current == this
      ensures valid && old(binding.current) == null ==> gl.log == old(gl.log) + [UseProgram(program)]
      ensures valid && old(binding.current) != null && old(binding.current) != this ==>
        gl.log == old(gl.log) + (if old(binding.current.valid) then UnbindCalls(old(binding.current.attributeInfo)) else [])
                  + [UseProgram(program)]
    {
      if !valid {
        return false;
      }
      if binding.current != this {
        if binding.current != null {
          var _ := binding.current.Unbind();
        }
        gl.Call(UseProgram(program));
        binding.current := this;
      }
      return true;
    }

    /** `destroy()`: unbinds when current, deletes the program and both info tables, and becomes invalid. */
    method Destroy()
      requires Valid()
      modifies this, gl`log, binding`current
      ensures Valid() && !valid
      ensures gl.log == old(gl.log) + DestroyCalls(old(binding.current) == this, old(valid), old(attributeInfo), old(program))
      ensures binding.current == (if old(binding.current) == this && old(valid) then null else old(binding.current))
      ensures old(program).Some? ==>
        program.None? && tablesDeleted && attributeInfo == Empty() && uniformInfo == Empty()
      ensures old(program).None? ==>
        program.None? && tablesDeleted == old(tablesDeleted)
        && attributeInfo == old(attributeInfo) && uniformInfo == old(uniformInfo)
      ensures textures == old(textures) && vertexSource == old(vertexSource) && fragmentSource == old(fragmentSource)
    {
      if binding.current == this {
        var _ := Unbind();
      }
      if program.Some? {
        gl.Call(DeleteProgram(program));
        program := None;
        tablesDeleted := true;
        uniformInfo := Empty();
        attributeInfo := Empty();
      }
      valid := false;
    }

    /**
     * `createFromSource(vs, fs, macros)`: destroys an existing program, injects the macro
     * preamble (with `WEBGL` set to the context's version) into both sources and resets the
     * tables; then, when both stages compile and the program links, it is valid and its
     * tables hold the program's active uniforms, samplers and attributes.
     */
    method CreateFromSource(vertexSrc: string, fragmentSrc: string, macros: OMap<string, MacroValue>,
                            driver: Driver, typeLengths: map<int, int>) returns (ok: bool)
      requires Valid() && macros.Valid()
      modifies this, gl`log, gl`nextHandle, binding`current
      ensures Valid() && !tablesDeleted
      ensures ok <==> driver.vertexCompiles && driver.fragmentCompiles && driver.links
      ensures valid == ok
      ensures vertexSource == InjectCode(Preamble(macros, gl.webglVersion), vertexSrc)
      ensures fragmentSource == InjectCode(Preamble(macros, gl.webglVersion), fragmentSrc)
      ensures ok ==>
        uniformInfo == UniformTable(driver.uniforms, typeLengths)
        && textures == TextureTable(driver.uniforms) && attributeInfo == AttributeTable(driver.attributes)
      ensures !ok ==> uniformInfo == Empty() && textures == Empty() && attributeInfo == Empty()
      ensures driver.vertexCompiles && driver.fragmentCompiles ==> program == Some(old(gl.nextHandle) + 2)
      ensures !(driver.vertexCompiles && driver.fragmentCompiles) ==> program.None?
      ensures gl.log == old(gl.log)
        + (if old(program).Some? then DestroyCalls(old(binding.current) == this, old(valid), old(attributeInfo), old(program)) else [])
        + CompileCalls(vertexSource, fragmentSource, driver.vertexCompiles && driver.fragmentCompiles, program)
      ensures old(program).None? ==>
        gl.log == old(gl.log) + CompileCalls(vertexSource, fragmentSource, driver.vertexCompiles && driver.fragmentCompiles, program)
      ensures binding.current ==
        (if old(program).Some? && old(binding.current) == this && old(valid) then null else old(binding.current))
    {
      ReleaseProgram();
      var preamble := PreambleCode(macros, gl.webglVersion);
      ok := Compile(InjectCode(preamble, vertexSrc), InjectCode(preamble, fragmentSrc), driver, typeLengths);
    }

    /** The first step of `createFromSource`: `destroy()` when there is a program. */
    method ReleaseProgram()
      requires Valid()
      modifies this, gl`log, binding`current
      ensures Valid() && program.None?
      ensures gl.log == old(gl.log)
        + (if old(program).Some? then DestroyCalls(old(binding.current) == this, old(valid), old(attributeInfo), old(program)) else [])
      ensures binding.current ==
        (if old(program).Some? && old(binding.current) == this && old(valid) then null else old(binding.current))
    {
      if program.Some? {
        Destroy();
      }
    }

    /** `createFromSource` once no program is left and the sources hold the preamble: the reset tables, the compile and the link. */
    method Compile(vertexSrc: string, fragmentSrc: string,
                   driver: Driver, typeLengths: map<int, int>) returns (ok: bool)
      requires Valid() && program.None?
      modifies this`valid, this`program, this`attributeInfo, this`uniformInfo, this`textures, this`tablesDeleted,
        this`vertexSource, this`fragmentSource, gl`log, gl`nextHandle
      ensures Valid() && !tablesDeleted
      ensures ok <==> driver.vertexCompiles && driver.fragmentCompiles && driver.links
      ensures valid == ok
      ensures vertexSource == vertexSrc && fragmentSource == fragmentSrc
      ensures ok ==>
        uniformInfo == UniformTable(driver.uniforms, typeLengths)
        && textures == TextureTable(driver.uniforms) && attributeInfo == AttributeTable(driver.attributes)
      ensures !ok ==> uniformInfo == Empty() && textures == Empty() && attributeInfo == Empty()
      ensures driver.vertexCompiles && driver.fragmentCompiles ==> program == Some(old(gl.nextHandle) + 2)
      ensures !(driver.vertexCompiles && driver.fragmentCompiles) ==> program.None?
      ensures gl.log == old(gl.log)
        + CompileCalls(vertexSource, fragmentSource, driver.vertexCompiles && driver.fragmentCompiles, program)
    {
      ResetSources(vertexSrc, fragmentSrc);
      var sources := [ShaderSource(VERTEX_SHADER, vertexSource), ShaderSource(FRAGMENT_SHADER, fragmentSource)];
      var _ := gl.NewHandle();
      var _ := gl.NewHandle();
      gl.log := gl.log + sources;
      if !(driver.vertexCompiles && driver.fragmentCompiles) {
        return false;
      }
      ok := Link(driver, typeLengths);
      AppendAssociates(old(gl.log), sources, [LinkProgram(program)]);
    }

    /** The resets of `createFromSource` before compiling: new sources, empty tables, not valid. */
    method ResetSources(vertexSrc: string, fragmentSrc: string)
      requires Valid()
      modifies this`valid, this`attributeInfo, this`uniformInfo, this`textures, this`tablesDeleted,
        this`vertexSource, this`fragmentSource
      ensures Valid() && !valid && !tablesDeleted && vertexSource == vertexSrc && fragmentSource == fragmentSrc
      ensures uniformInfo == Empty() && textures == Empty() && attributeInfo == Empty()
    {
      vertexSource, fragmentSource := vertexSrc, fragmentSrc;
      valid := false;
      attributeInfo, uniformInfo, textures := Empty(), Empty(), Empty();
      tablesDeleted := false;
    }

    /** The link step of `createFromSource`: a new program, linked; on success its tables are read. */
    method Link(driver: Driver, typeLengths: map<int, int>) returns (ok: bool)
      requires Valid() && program.None? && !tablesDeleted
      requires uniformInfo == Empty() && textures == Empty() && attributeInfo == Empty()
      modifies this`valid, this`program, this`attributeInfo, this`uniformInfo, this`textures, gl`log, gl`nextHandle
      ensures Valid() && ok == driver.links && valid == ok
      ensures program == Some(old(gl.nextHandle)) && gl.nextHandle == old(gl.nextHandle) + 1
      ensures gl.log == old(gl.log) + [LinkProgram(program)]
      ensures ok ==>
        uniformInfo == UniformTable(driver.uniforms, typeLengths)
        && textures == TextureTable(driver.uniforms) && attributeInfo == AttributeTable(driver.attributes)
      ensures !ok ==> uniformInfo == Empty() && textures == Empty() && attributeInfo == Empty()
    {
      var p := gl.NewHandle();
      program := Some(p);
      gl.Call(LinkProgram(program));
      valid := driver.links;
      ok := valid;
      if ok {
        ReadUniforms(driver.uniforms, typeLengths);
        ReadAttributes(driver.attributes);
      }
    }

    /** The uniform loop of `createFromSource`, on the reset tables. */
    method ReadUniforms(us: seq<ActiveUniform>, typeLengths: map<int, int>)
      requires uniformInfo == Empty() && textures == Empty()
      modifies this`uniformInfo, this`textures
      ensures uniformInfo == UniformTable(us, typeLengths) && textures == TextureTable(us)
    {
      var i := 0;
      while i < |us|
        invariant 0 <= i <= |us|
        invariant uniformInfo == UniformTable(us[..i], typeLengths) && textures == TextureTable(us[..i])
      {
        var u := us[i];
        var name := CanonicalName(u.name);
        if IsSamplerType(u.glType) {
          textures := Put(textures, name, u.glType);
        }
        uniformInfo := Put(uniformInfo, name, InfoOf(u, typeLengths));
        assert us[..i + 1][..i] == us[..i];
        i := i + 1;
      }
      assert us[..i] == us;
    }

    /** The attribute loop of `createFromSource`, on the reset table. */
    method ReadAttributes(attrs: seq<ActiveAttrib>)
      requires attributeInfo == Empty()
      modifies this`attributeInfo
      ensures attributeInfo == AttributeTable(attrs)
    {
      var i := 0;
      while i < |attrs|
        invariant 0 <= i <= |attrs|
        invariant attributeInfo == AttributeTable(attrs[..i])
      {
        var a := attrs[i];
        attributeInfo := Put(attributeInfo, a.name, AttribInfo(a.size, a.glType, a.location));
        assert attrs[..i + 1][..i] == attrs[..i];
        i := i + 1;
      }
      assert attrs[..i] == attrs;
    }

    /** Makes the shader current without unbinding the previous one, as the upload and draw paths do. */
    method MakeCurrent()
      requires Valid()
      modifies gl`log, binding`current
      ensures Valid() && binding.current == this
      ensures gl.log == old(gl.log) + SwitchCalls(old(binding.current) == this, program)
    {
      if binding.current != this {
        gl.Call(UseProgram(program));
        binding.current := this;
      }
    }

    /** `setUniform(name, value)`: makes the shader current, then sets the named uniform if the program has it. */
    method SetUniformValue(name: string, value: UniformValue) returns (outcome: Outcome)
      requires Valid()
      modifies this`uniformInfo, gl`log, binding`current
      ensures Valid() && binding.current == this
      ensures var u := UploadOne(old(uniformInfo), tablesDeleted, name, value);
        uniformInfo == u.table && outcome == u.outcome
        && gl.log == old(gl.log) + SwitchCalls(old(binding.current) == this, program) + u.calls
    {
      MakeCurrent();
      var u := UploadOne(uniformInfo, tablesDeleted, name, value);
      uniformInfo := u.table;
      gl.log := gl.log + u.calls;
      outcome := u.outcome;
    }

    /** `setUniforms({name: value, ...})`: makes the shader current, then sets each known uniform in turn. */
    method SetUniforms(values: seq<(string, UniformValue)>) returns (outcome: Outcome)
      requires Valid()
      modifies this`uniformInfo, gl`log, binding`current
      ensures Valid() && binding.current == this
      ensures var u := UploadAll(old(uniformInfo), tablesDeleted, values);
        uniformInfo == u.table && outcome == u.outcome
        && gl.log == old(gl.log) + SwitchCalls(old(binding.current) == this, program) + u.calls
    {
      MakeCurrent();
      outcome := UploadValues(values);
    }

    /** The loop of `setUniforms` once the shader is current. */
    method UploadValues(values: seq<(string, UniformValue)>) returns (outcome: Outcome)
      requires uniformInfo.Valid()
      modifies this`uniformInfo, gl`log
      ensures var u := UploadAll(old(uniformInfo), tablesDeleted, values);
        uniformInfo == u.table && outcome == u.outcome && gl.log == old(gl.log) + u.calls
    {
      outcome := Done;
      var i := 0;
      while i < |values|
        invariant 0 <= i <= |values|
        invariant var u := UploadsTo(old(uniformInfo), tablesDeleted, values, i);
          uniformInfo == u.table && outcome == u.outcome && gl.log == old(gl.log) + u.calls
        invariant outcome.Done?
      {
        ghost var prev := UploadsTo(old(uniformInfo), tablesDeleted, values, i);
        var u := UploadOne(uniformInfo, tablesDeleted, values[i].0, values[i].1);
        assert UploadsTo(old(uniformInfo), tablesDeleted, values, i + 1) == Uploads(u.table, prev.calls + u.calls, u.outcome);
        AppendAssociates(old(gl.log), prev.calls, u.calls);
        uniformInfo := u.table;
        gl.log := gl.log + u.calls;
        outcome := u.outcome;
        i := i + 1;
        if outcome.Threw? {
          UploadsAfterThrow(old(uniformInfo), tablesDeleted, values, i, |values|);
          return;
        }
      }
    }

    /** The marks loop: clears the 16 scratch marks. */
    method ResetMarks()
      requires binding.Valid()
      modifies binding.attribsInUse
      ensures binding.attribsInUse[..] == Zeros16()
    {
      var a := binding.attribsInUse;
      forall i | 0 <= i < a.Length {
        a[i] := 0;
      }
    }

    /** Binds, enables and describes each used buffer in turn, marking its location. */
    method UseFeeds(feeds: seq<Feed>) returns (count: Extended)
      requires binding.Valid() && binding.attribsInUse[..] == Zeros16()
      modifies gl`log, binding.attribsInUse
      ensures gl.log == old(gl.log) + FeedCalls(feeds) && binding.attribsInUse[..] == Marks(feeds)
      ensures count == VertexCount(feeds)
    {
      var marks := binding.attribsInUse;
      count := Finite(0.0);
      var i := 0;
      while i < |feeds|
        invariant 0 <= i <= |feeds|
        invariant gl.log == old(gl.log) + FeedCalls(feeds[..i]) && marks[..] == Marks(feeds[..i])
        invariant count == VertexCount(feeds[..i])
      {
        var x := feeds[i];
        ghost var f := feeds[..i];
        assert feeds[..i + 1] == f + [x];
        assert (f + [x])[..|f|] == f;
        if 0 <= x.location < 16 {
          marks[x.location] := 1;
        }
        gl.Call(BindBuffer(ARRAY_BUFFER, Some(x.buffer)));
        gl.Call(EnableVertexAttribArray(x.location));
        gl.Call(VertexAttribPointer(x.location, x.itemSize, x.glType));
        count := Quotient(x.length, x.itemSize);
        i := i + 1;
      }
      assert feeds[..i] == feeds;
    }

    /** The loop of `drawBuffers` that disables the shader's attribute locations the draw does not use. */
    method DisableUnusedLocations()
      requires binding.Valid()
      modifies gl`log
      ensures gl.log == old(gl.log) + DisableUnused(Locations(attributeInfo.keys, attributeInfo.values), binding.attribsInUse[..])
    {
      DisableLocations(gl, attributeInfo.keys, attributeInfo.values, binding.attribsInUse);
    }

    /**
     * `drawBuffers(vertexBuffers, indexBuffer, mode, rangeStart, rangeLength)`: nothing for a
     * zero range length; otherwise the shader becomes current and the calls of `DrawResult`
     * follow.
     */
    method DrawBuffers(vertexBuffers: OMap<string, GLBuffer>, indexBuffer: GLBuffer?, mode: int,
                       rangeStart: Option<real>, rangeLength: Option<real>) returns (outcome: Outcome)
      requires Valid()
      modifies gl`log, binding`current, binding.attribsInUse
      ensures Valid()
      ensures rangeLength == Some(0.0) ==>
        outcome == Done && gl.log == old(gl.log) && binding.current == old(binding.current)
      ensures rangeLength != Some(0.0) ==> binding.current == this
      ensures rangeLength != Some(0.0) ==>
        var d := old(DrawResult(tablesDeleted, vertexBuffers.keys, Feeds(vertexBuffers.keys, vertexBuffers.values, attributeInfo.values),
                                Locations(attributeInfo.keys, attributeInfo.values), ViewOf(indexBuffer), mode, rangeStart, rangeLength));
        gl.log == old(gl.log) + SwitchCalls(old(binding.current) == this, program) + d.calls && outcome == d.outcome
    {
      if rangeLength == Some(0.0) {
        return Done;
      }
      var feeds := Feeds(vertexBuffers.keys, vertexBuffers.values, attributeInfo.values);
      var ib := ViewOf(indexBuffer);
      MakeCurrent();
      outcome := DrawCurrent(vertexBuffers.keys, feeds, ib, mode, rangeStart, rangeLength);
    }

    /** `drawBuffers` once the shader is current: the marks, the vertex buffers, then the draw. */
    method DrawCurrent(streams: seq<string>, feeds: seq<Feed>, ib: Option<IndexView>, mode: int,
                       rangeStart: Option<real>, rangeLength: Option<real>) returns (outcome: Outcome)
      requires binding.Valid()
      modifies gl`log, binding.attribsInUse
      ensures var d := DrawResult(tablesDeleted, streams, feeds, Locations(attributeInfo.keys, attributeInfo.values),
                                  ib, mode, rangeStart, rangeLength);
        gl.log == old(gl.log) + d.calls && outcome == d.outcome
    {
      ResetMarks();
      if tablesDeleted && streams != [] {
        return Threw(NO_TABLES);
      }
      outcome := BindAndDraw(feeds, ib, mode, rangeStart, rangeLength);
    }

    /** `drawBuffers` once the marks are clear and the tables are known present: the vertex buffers, then the draw. */
    method BindAndDraw(feeds: seq<Feed>, ib: Option<IndexView>, mode: int,
                       rangeStart: Option<real>, rangeLength: Option<real>) returns (outcome: Outcome)
      requires binding.Valid() && binding.attribsInUse[..] == Zeros16()
      modifies gl`log, binding.attribsInUse
      ensures var d := DrawResult(false, [], feeds, Locations(attributeInfo.keys, attributeInfo.values),
                                  ib, mode, rangeStart, rangeLength);
        gl.log == old(gl.log) + d.calls && outcome == d.outcome
    {
      var count := UseFeeds(feeds);
      if ib.Some? && ib.value.handle.None? {
        return Threw(NO_INDEX_HANDLE);
      }
      ghost var rest := DrawTail(feeds, Locations(attributeInfo.keys, attributeInfo.values), ib, mode, rangeStart, rangeLength);
      FinishDraw(feeds, count, ib, mode, rangeStart, rangeLength);
      AppendAssociates(old(gl.log), FeedCalls(feeds), rest);
      outcome := Done;
    }

    /** The rest of `drawBuffers` once the vertex buffers are bound: the count, the offset, the disables and the draw. */
    method FinishDraw(feeds: seq<Feed>, vertexCount: Extended, ib: Option<IndexView>, mode: int,
                      rangeStart: Option<real>, rangeLength: Option<real>)
      requires binding.Valid() && vertexCount == VertexCount(feeds) && binding.attribsInUse[..] == Marks(feeds)
      requires ib.Some? ==> ib.value.handle.Some?
      modifies gl`log
      ensures gl.log == old(gl.log) + DrawTail(feeds, Locations(attributeInfo.keys, attributeInfo.values), ib, mode, rangeStart, rangeLength)
    {
      var count := vertexCount;
      var offset := RangeOffset(rangeStart);
      if ib.Some? {
        count := Finite(ib.value.length as real - offset);
      }
      if rangeLength.Some? && rangeLength.value > 0.0 && Below(rangeLength.value, count) {
        count := Finite(rangeLength.value);
      }
      offset := DrawOffset(ib, rangeStart);
      DisableUnusedLocations();
      gl.log := gl.log + DrawCalls(mode, ib, count, offset);
    }

    /**
     * `drawMesh(mesh, mode, indexBufferName)`: draws the mesh's vertex buffers with its index
     * set of the given name ("lines" for LINES and "triangles" otherwise by default; none for
     * an empty name or a missing set), in TRIANGLES mode when no mode is given.
     */
    method DrawMesh(mesh: GLMeshes.GLMesh, mode: Option<int>, indexBufferName: Option<string>) returns (outcome: Outcome)
      requires Valid() && mesh.Valid()
      modifies gl`log, binding`current, binding.attribsInUse
      ensures Valid() && binding.current == this
      ensures var name := IndexSetName(mode, indexBufferName);
        var ib := if name != "" && name in mesh.indexBuffers.values then old(ViewOf(mesh.indexBuffers.values[name])) else None;
        var f := old(Feeds(mesh.vertexBuffers.keys, mesh.vertexBuffers.values, attributeInfo.values));
        var d := DrawResult(tablesDeleted, mesh.vertexBuffers.keys, f, Locations(attributeInfo.keys, attributeInfo.values),
                            ib, if mode.None? then TRIANGLES else mode.value, None, None);
        gl.log == old(gl.log) + SwitchCalls(old(binding.current) == this, program) + d.calls && outcome == d.outcome
    {
      var name := IndexSetName(mode, indexBufferName);
      var ib: GLBuffer? := null;
      if name != "" && name in mesh.indexBuffers.values {
        ib := mesh.indexBuffers.values[name];
      }
      outcome := DrawBuffers(mesh.vertexBuffers, ib, if mode.None? then TRIANGLES else mode.value, None, None);
    }

    /** `drawRange(mesh, mode, start, length, indexBufferName)`: the same, for a sub-range. */
    method DrawRange(mesh: GLMeshes.GLMesh, mode: int, start: real, length: real, indexBufferName: Option<string>)
      returns (outcome: Outcome)
      requires Valid() && mesh.Valid()
      modifies gl`log, binding`current, binding.attribsInUse
      ensures Valid()
      ensures length != 0.0 ==> binding.current == this
      ensures length != 0.0 ==>
        var name := IndexSetName(Some(mode), indexBufferName);
        var ib := if name != "" && name in mesh.indexBuffers.values then old(ViewOf(mesh.indexBuffers.values[name])) else None;
        var f := old(Feeds(mesh.vertexBuffers.keys, mesh.vertexBuffers.values, attributeInfo.values));
        var d := DrawResult(tablesDeleted, mesh.vertexBuffers.keys, f, Locations(attributeInfo.keys, attributeInfo.values),
                            ib, mode, Some(start), Some(length));
        gl.log == old(gl.log) + SwitchCalls(old(binding.current) == this, program) + d.calls && outcome == d.outcome
      ensures length == 0.0 ==> gl.log == old(gl.log) && outcome == Done
    {
      var name := IndexSetName(Some(mode), indexBufferName);
      var ib: GLBuffer? := null;
      if name != "" && name in mesh.indexBuffers.values {
        ib := mesh.indexBuffers.values[name];
      }
      outcome := DrawBuffers(mesh.vertexBuffers, ib, mode, Some(start), Some(length));
    }
  }

  function Zeros16(): (z: seq<int>)
    ensures |z| == 16 && forall i :: 0 <= i < 16 ==> z[i] == 0
  {
    seq(16, i => 0)
  }

}
