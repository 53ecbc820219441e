/**
 * The helpers of the engine's `Loki` singleton: deep equality, emptiness, name validation,
 * string escaping, the 31-multiplier string hash and the variable store.
 * JavaScript values are modelled by `JsValue`; arrays and objects carry the identity of the
 * object they are, so that `===` on them compares identities.
 */
module Loki {
  import opened Wrappers
  import TypedArrays

  /** The classes of non-array objects that the helpers tell apart. */
  datatype ObjectClass =
    | PlainObject
    | BoxedNumber
    | MapObject
    | SetObject
    | TypedArrayObject(kind: TypedArrays.ArrayKind)
    | OtherClass(name: string)

  /** A JavaScript value. */
  datatype JsValue =
    | Undefined
    | Null
    | Bool(b: bool)
    | Num(x: real)
    | NaN
    | Str(s: string)
    | Arr(ref: nat, elems: seq<JsValue>)
    | Obj(ref: nat, cls: ObjectClass, entries: nat, length: Option<nat>)

  /** The constructor function a non-nullish value reports as `.constructor`. */
  datatype Constructor = NumberCtor | StringCtor | BooleanCtor | ArrayCtor | ObjectCtor(cls: ObjectClass)

  predicate IsNullish(v: JsValue)
  {
    v.Undefined? || v.Null?
  }

  function ConstructorOf(v: JsValue): (c: Constructor)
    requires !IsNullish(v)
    ensures c == ArrayCtor <==> v.Arr?
    ensures c == NumberCtor <==> v.Num? || v.NaN? || (v.Obj? && v.cls == BoxedNumber)
  {
    match v
    case Bool(_) => BooleanCtor
    case Num(_) => NumberCtor
    case NaN => NumberCtor
    case Str(_) => StringCtor
    case Arr(_, _) => ArrayCtor
    case Obj(_, cls, _, _) => if cls == BoxedNumber then NumberCtor else ObjectCtor(cls)
  }

  /**
   * `a === b`: primitives by value (NaN is never equal), arrays and objects by identity
   * (the same object: same reference, hence the same contents).
   */
  predicate StrictEquals(a: JsValue, b: JsValue)
  {
    match (a, b)
    case (Undefined, Undefined) => true
    case (Null, Null) => true
    case (Bool(x), Bool(y)) => x == y
    case (Num(x), Num(y)) => x == y
    case (Str(x), Str(y)) => x == y
    case (Arr(_, _), Arr(_, _)) => a == b
    case (Obj(_, _, _, _), Obj(_, _, _, _)) => a == b
    case _ => false
  }

  /**
   * `a == b`. Nullish values equal each other and nothing else; values of one type compare
   * as `===`; a number and a boolean compare after the boolean becomes 0 or 1.
   */
  predicate LooseEquals(a: JsValue, b: JsValue)
  {
    if IsNullish(a) || IsNullish(b) then IsNullish(a) && IsNullish(b)
    else if a.Num? && b.Bool? then a.x == (if b.b then 1.0 else 0.0)
    else if a.Bool? && b.Num? then b.x == (if a.b then 1.0 else 0.0)
    else StrictEquals(a, b)
  }

  // ---------------------------------------------------------------- isEqual

  /**
   * The meaning of `Loki.isEqual`: identical values and a null/undefined pair are equal;
   * a nullish value equals no other value; values with different constructors, numbers that
   * are not `===` and non-array objects that are not identical are unequal; arrays are equal
   * when they have the same length and their elements are pairwise equal.
   */
  predicate DeepEqual(a: JsValue, b: JsValue)
    decreases a
  {
    if StrictEquals(a, b) then true
    else if IsNullish(a) || IsNullish(b) then IsNullish(a) && IsNullish(b)
    else if ConstructorOf(a) != ConstructorOf(b) then false
    else if a.Arr? then
      |a.elems| == |b.elems| && forall i :: 0 <= i < |a.elems| ==> DeepEqual(a.elems[i], b.elems[i])
    else false
  }

  /** `Loki.isEqual(a, b)`, with its early-returning element loop. */
  method IsEqual(a: JsValue, b: JsValue) returns (r: bool)
    ensures r == DeepEqual(a, b)
    decreases a
  {
    if StrictEquals(a, b) {
      return true;
    }
    if IsNullish(a) && !IsNullish(b) {
      return false;
    }
    if IsNullish(b) && !IsNullish(a) {
      return false;
    }
    if (a.Null? && b.Undefined?) || (a.Undefined? && b.Null?) {
      return true;
    }
    if ConstructorOf(a) != ConstructorOf(b) {
      return false;
    }
    if ConstructorOf(a) == NumberCtor {
      return false;
    }
    if a.Arr? {
      if |a.elems| != |b.elems| {
        return false;
      }
      var i := 0;
      while i < |a.elems|
        invariant 0 <= i <= |a.elems|
        invariant forall k :: 0 <= k < i ==> DeepEqual(a.elems[k], b.elems[k])
      {
        var same := IsEqual(a.elems[i], b.elems[i]);
        if !same {
          return false;
        }
        i := i + 1;
      }
      return true;
    }
    return false;
  }

  /** Identical values and null/undefined pairs are equal; one nullish side makes them unequal. */
  lemma DeepEqualNullish(a: JsValue, b: JsValue)
    ensures StrictEquals(a, b) ==> DeepEqual(a, b)
    ensures IsNullish(a) && IsNullish(b) ==> DeepEqual(a, b)
    ensures IsNullish(a) != IsNullish(b) ==> !DeepEqual(a, b)
  {
  }

  /**
   * Numbers are equal exactly when they are `===` (so NaN equals nothing); values of
   * different constructors never are; non-array objects only when identical.
   */
  lemma DeepEqualScalars(a: JsValue, b: JsValue)
    ensures (a.Num? || a.NaN?) && (b.Num? || b.NaN?) ==> (DeepEqual(a, b) <==> StrictEquals(a, b))
    ensures !IsNullish(a) && !IsNullish(b) && ConstructorOf(a) != ConstructorOf(b) ==> !DeepEqual(a, b)
    ensures a.Obj? ==> (DeepEqual(a, b) <==> a == b)
  {
  }

  /** Distinct arrays are equal exactly when they have equal lengths and pairwise equal elements. */
  lemma DeepEqualArrays(a: JsValue, b: JsValue)
    requires a.Arr? && b.Arr? && a != b
    ensures DeepEqual(a, b) <==>
      |a.elems| == |b.elems| && forall i :: 0 <= i < |a.elems| ==> DeepEqual(a.elems[i], b.elems[i])
  {
  }

  /** Deep equality does not depend on the order of its arguments. */
  lemma {:induction false} DeepEqualSymmetric(a: JsValue, b: JsValue)
    ensures DeepEqual(a, b) == DeepEqual(b, a)
    decreases a
  {
    if a.Arr? && b.Arr? && !StrictEquals(a, b) && |a.elems| == |b.elems| {
      forall i | 0 <= i < |a.elems|
        ensures DeepEqual(a.elems[i], b.elems[i]) == DeepEqual(b.elems[i], a.elems[i])
      {
        DeepEqualSymmetric(a.elems[i], b.elems[i]);
      }
    }
  }

  /** A value is deep-equal to itself unless it is, or holds in a fresh array, a NaN. */
  lemma DeepEqualReflexive(a: JsValue)
    requires !a.NaN?
    ensures DeepEqual(a, a)
  {
    assert StrictEquals(a, a) by {
      match a
      case Arr(_, _) =>
      case Obj(_, _, _, _) =>
      case _ =>
    }
  }

  // ---------------------------------------------------------------- isEmpty

  /** The `length` property of a value, when it has one. */
  function LengthOf(v: JsValue): Option<nat>
  {
    match v
    case Str(s) => Some(|s|)
    case Arr(_, e) => Some(|e|)
    case Obj(_, _, _, n) => n
    case _ => None
  }

  /**
   * `Loki.isEmpty`: nullish values, plain objects without own entries, and any other value
   * whose `length` is 0.
   */
  function IsEmpty(v: JsValue): (r: bool)
    ensures IsNullish(v) ==> r
    ensures v.Obj? && v.cls == PlainObject ==> (r <==> v.entries == 0)
    ensures !IsNullish(v) && !(v.Obj? && v.cls == PlainObject) ==> (r <==> LengthOf(v) == Some(0))
  {
    match v
    case Undefined => true
    case Null => true
    case Obj(_, PlainObject, entries, _) => entries == 0
    case _ => LengthOf(v) == Some(0)
  }

  // ---------------------------------------------------------------- validateName

  /** The characters `\s` matches in a JavaScript regular expression. */
  predicate IsRegExpSpace(c: char)
  {
    ('\t' <= c <= '\r') || c == ' ' || c == '\U{00A0}' || c == '\U{1680}'
    || ('\U{2000}' <= c <= '\U{200A}') || c == '\U{2028}' || c == '\U{2029}'
    || c == '\U{202F}' || c == '\U{205F}' || c == '\U{3000}' || c == '\U{FEFF}'
  }

  /** The class `[a-z\s0-9\-_.]` under the case-insensitive flag. */
  predicate IsNameChar(c: char)
  {
    ('a' <= c <= 'z') || ('A' <= c <= 'Z') || ('0' <= c <= '9')
    || c == '-' || c == '_' || c == '.' || IsRegExpSpace(c)
  }

  /** Whether every character of `s` is in the name class, checked left to right. */
  function AllNameChars(s: string): (r: bool)
    ensures r <==> forall i :: 0 <= i < |s| ==> IsNameChar(s[i])
  {
    if s == [] then true else IsNameChar(s[0]) && AllNameChars(s[1..])
  }

  /**
   * `Loki.validateName`: only a non-empty string made entirely of letters, digits, white
   * space, `-`, `_` and `.` is accepted (the match result is truthy exactly then).
   */
  function ValidateName(v: JsValue): (ok: bool)
    ensures ok <==> v.Str? && |v.s| > 0 && forall i :: 0 <= i < |v.s| ==> IsNameChar(v.s[i])
  {
    v.Str? && |v.s| > 0 && AllNameChars(v.s)
  }

  // ---------------------------------------------------------------- escapeString

  const BACKSPACE: char := '\U{0008}'
  const FORM_FEED: char := '\U{000C}'

  /** `s.replace(/[c]/g, rep)`. */
  function ReplaceAll(s: string, c: char, rep: string): string
  {
    if s == [] then [] else (if s[0] == c then rep else [s[0]]) + ReplaceAll(s[1..], c, rep)
  }

  /** A chain of global single-character replacements, applied in order. */
  function ReplaceChain(s: string, rules: seq<(char, string)>): string
    decreases |rules|
  {
    if rules == [] then s else ReplaceChain(ReplaceAll(s, rules[0].0, rules[0].1), rules[1..])
  }

  /** The replacements `Loki.escapeString` chains, in the order it applies them. */
  const ESCAPES: seq<(char, string)> := [
    ('\n', "\\n"), ('\r', "\\r"), ('\t', "\\t"), (BACKSPACE, "\\b"), (FORM_FEED, "\\f"),
    ('\'', "\\'"), ('"', "\\\""), ('&', "\\&")]

  /** `Loki.escapeString`. */
  function EscapeString(s: string): string
  {
    ReplaceChain(s, ESCAPES)
  }

  predicate IsEscaped(c: char)
  {
    c == '\n' || c == '\r' || c == '\t' || c == BACKSPACE || c == FORM_FEED
    || c == '\'' || c == '"' || c == '&'
  }

  /** The escape of one character: a backslash and a letter for the eight escaped ones. */
  function EscapeChar(c: char): (r: string)
    ensures IsEscaped(c) ==> |r| == 2 && r[0] == '\\'
    ensures !IsEscaped(c) ==> r == [c]
  {
    if c == '\n' then "\\n"
    else if c == '\r' then "\\r"
    else if c == '\t' then "\\t"
    else if c == BACKSPACE then "\\b"
    else if c == FORM_FEED then "\\f"
    else if c == '\'' then "\\'"
    else if c == '"' then "\\\""
    else if c == '&' then "\\&"
    else [c]
  }

  /** Character-wise escaping: each character replaced by its escape. */
  function EscapeEach(s: string): string
  {
    if s == [] then [] else EscapeChar(s[0]) + EscapeEach(s[1..])
  }

  function CountEscaped(s: string): nat
  {
    if s == [] then 0 else (if IsEscaped(s[0]) then 1 else 0) + CountEscaped(s[1..])
  }

  lemma {:induction false} ReplaceAllConcat(a: string, b: string, c: char, rep: string)
    ensures ReplaceAll(a + b, c, rep) == ReplaceAll(a, c, rep) + ReplaceAll(b, c, rep)
  {
    if a == [] {
      assert a + b == b;
    } else {
      assert (a + b)[0] == a[0];
      assert (a + b)[1..] == a[1..] + b;
      ReplaceAllConcat(a[1..], b, c, rep);
    }
  }

  lemma {:induction false} ReplaceChainConcat(a: string, b: string, rules: seq<(char, string)>)
    ensures ReplaceChain(a + b, rules) == ReplaceChain(a, rules) + ReplaceChain(b, rules)
    decreases |rules|
  {
    if rules != [] {
      ReplaceAllConcat(a, b, rules[0].0, rules[0].1);
      ReplaceChainConcat(ReplaceAll(a, rules[0].0, rules[0].1), ReplaceAll(b, rules[0].0, rules[0].1), rules[1..]);
    }
  }

  lemma {:induction false} ReplaceAllMiss(s: string, c: char, rep: string)
    requires c !in s
    ensures ReplaceAll(s, c, rep) == s
  {
    if s != [] {
      ReplaceAllMiss(s[1..], c, rep);
    }
  }

  /** A string holding none of the targets of a chain passes through it unchanged. */
  lemma {:induction false} ReplaceChainMiss(s: string, rules: seq<(char, string)>)
    requires forall i :: 0 <= i < |rules| ==> rules[i].0 !in s
    ensures ReplaceChain(s, rules) == s
    decreases |rules|
  {
    if rules != [] {
      ReplaceAllMiss(s, rules[0].0, rules[0].1);
      ReplaceChainMiss(s, rules[1..]);
    }
  }

  /** The replacement the first rule targeting `c` gives, or `c` itself. */
  function FirstReplacement(c: char, rules: seq<(char, string)>): string
    decreases |rules|
  {
    if rules == [] then [c] else if rules[0].0 == c then rules[0].1 else FirstReplacement(c, rules[1..])
  }

  /** No replacement of a chain contains the target of a later rule. */
  ghost predicate NoLaterTargets(rules: seq<(char, string)>)
  {
    forall i, j :: 0 <= i < j < |rules| ==> rules[j].0 !in rules[i].1
  }

  /** Over one character, such a chain acts as the first rule that targets it. */
  lemma {:induction false} ReplaceChainChar(c: char, rules: seq<(char, string)>)
    requires NoLaterTargets(rules)
    ensures ReplaceChain([c], rules) == FirstReplacement(c, rules)
    decreases |rules|
  {
    if rules != [] {
      var rep := rules[0].1;
      assert NoLaterTargets(rules[1..]) by {
        forall i, j | 0 <= i < j < |rules[1..]| ensures rules[1..][j].0 !in rules[1..][i].1 {
          assert rules[1..][j] == rules[j + 1] && rules[1..][i] == rules[i + 1];
        }
      }
      assert ReplaceChain([c], rules) == ReplaceChain(ReplaceAll([c], rules[0].0, rep), rules[1..]);
      if rules[0].0 == c {
        assert ReplaceAll([c], c, rep) == rep + ReplaceAll([], c, rep);
        assert ReplaceAll([c], c, rep) == rep;
        forall j | 0 <= j < |rules[1..]| ensures rules[1..][j].0 !in rep {
          assert rules[1..][j] == rules[j + 1];
        }
        ReplaceChainMiss(rep, rules[1..]);
      } else {
        assert ReplaceAll([c], rules[0].0, rep) == [c] + ReplaceAll([], rules[0].0, rep);
        assert ReplaceAll([c], rules[0].0, rep) == [c];
        ReplaceChainChar(c, rules[1..]);
      }
    }
  }

  lemma {:induction false} FirstReplacementAt(c: char, rules: seq<(char, string)>, k: nat)
    requires k < |rules| && rules[k].0 == c
    requires forall j :: 0 <= j < k ==> rules[j].0 != c
    ensures FirstReplacement(c, rules) == rules[k].1
    decreases k
  {
    if k > 0 {
      FirstReplacementAt(c, rules[1..], k - 1);
    }
  }

  lemma {:induction false} FirstReplacementNone(c: char, rules: seq<(char, string)>)
    requires forall j :: 0 <= j < |rules| ==> rules[j].0 != c
    ensures FirstReplacement(c, rules) == [c]
    decreases |rules|
  {
    if rules != [] {
      FirstReplacementNone(c, rules[1..]);
    }
  }

  lemma EscapesHaveNoLaterTargets()
    ensures NoLaterTargets(ESCAPES)
  {
    forall i, j | 0 <= i < j < |ESCAPES| ensures ESCAPES[j].0 !in ESCAPES[i].1 {
      assert ESCAPES[i].1[0] == '\\' && |ESCAPES[i].1| == 2;
      assert ESCAPES[i].1[1] == ESCAPES[i].0 || !IsEscaped(ESCAPES[i].1[1]);
    }
  }

  /** Running the escape chain over one character gives that character's escape. */
  lemma EscapeChainChar(c: char)
    ensures ReplaceChain([c], ESCAPES) == EscapeChar(c)
  {
    EscapesHaveNoLaterTargets();
    ReplaceChainChar(c, ESCAPES);
    if c == '\n' { FirstReplacementAt(c, ESCAPES, 0); }
    else if c == '\r' { FirstReplacementAt(c, ESCAPES, 1); }
    else if c == '\t' { FirstReplacementAt(c, ESCAPES, 2); }
    else if c == BACKSPACE { FirstReplacementAt(c, ESCAPES, 3); }
    else if c == FORM_FEED { FirstReplacementAt(c, ESCAPES, 4); }
    else if c == '\'' { FirstReplacementAt(c, ESCAPES, 5); }
    else if c == '"' { FirstReplacementAt(c, ESCAPES, 6); }
    else if c == '&' { FirstReplacementAt(c, ESCAPES, 7); }
    else { FirstReplacementNone(c, ESCAPES); }
  }

  /**
   * The chained replacements of `escapeString` amount to escaping every character on its
   * own: no replacement introduces a character that a later replacement targets.
   */
  lemma {:induction false} EscapeStringCharwise(s: string)
    ensures EscapeString(s) == EscapeEach(s)
  {
    if s != [] {
      assert s == [s[0]] + s[1..];
      ReplaceChainConcat([s[0]], s[1..], ESCAPES);
      EscapeChainChar(s[0]);
      EscapeStringCharwise(s[1..]);
      calc {
        EscapeString(s);
        ReplaceChain([s[0]] + s[1..], ESCAPES);
        ReplaceChain([s[0]], ESCAPES) + ReplaceChain(s[1..], ESCAPES);
        EscapeChar(s[0]) + EscapeEach(s[1..]);
      }
    } else {
      ReplaceChainMiss(s, ESCAPES);
    }
  }

  /** Escaping adds exactly one backslash per escaped character. */
  lemma {:induction false} EscapeStringLength(s: string)
    ensures |EscapeString(s)| == |s| + CountEscaped(s)
  {
    EscapeStringCharwise(s);
    EscapeEachLength(s);
  }

  lemma {:induction false} EscapeEachLength(s: string)
    ensures |EscapeEach(s)| == |s| + CountEscaped(s)
  {
    if s != [] {
      EscapeEachLength(s[1..]);
    }
  }

  /** A string without any of the eight characters is returned unchanged. */
  lemma {:induction false} EscapeStringIdentity(s: string)
    requires forall i :: 0 <= i < |s| ==> !IsEscaped(s[i])
    ensures EscapeString(s) == s
  {
    EscapeStringCharwise(s);
    EscapeEachIdentity(s);
  }

  lemma {:induction false} EscapeEachIdentity(s: string)
    requires forall i :: 0 <= i < |s| ==> !IsEscaped(s[i])
    ensures EscapeEach(s) == s
  {
    if s != [] {
      EscapeEachIdentity(s[1..]);
    }
  }

  // ---------------------------------------------------------------- String.hashCode

  /** A UTF-16 code unit, the value `charCodeAt` returns. */
  type CodeUnit = c: int | 0 <= c < 0x1_0000

  /** The hash `hashCode` defines: 0 for the empty string, then `int32(31 * h + c)` per unit. */
  function HashOf(units: seq<CodeUnit>): (h: int)
    ensures -0x8000_0000 <= h < 0x8000_0000
  {
    if units == [] then 0
    else TypedArrays.Int32Of(31 * HashOf(units[..|units| - 1]) + units[|units| - 1])
  }

  /** Appending a unit updates the hash by the 31-multiplier step. */
  lemma HashOfAppend(units: seq<CodeUnit>, c: CodeUnit)
    ensures HashOf(units + [c]) == TypedArrays.Int32Of(31 * HashOf(units) + c)
  {
    assert (units + [c])[..|units|] == units;
  }

  /** `((h << 5) - h) + c`, then `|= 0`, equals the 31-multiplier step. */
  lemma ShiftStep(h: int, c: int)
    ensures TypedArrays.Int32Of(TypedArrays.Int32Of(h * 32) - h + c) == TypedArrays.Int32Of(31 * h + c)
  {
    var s := TypedArrays.Int32Of(h * 32);
    assert (h * 32 - s) % TypedArrays.TWO_32 == 0;
    var q := (h * 32 - s) / TypedArrays.TWO_32;
    assert h * 32 - s == TypedArrays.TWO_32 * q;
    assert (s - h + c) - (31 * h + c) == TypedArrays.TWO_32 * (-q);
    TypedArrays.Int32OfCongruent(s - h + c, 31 * h + c);
  }

  /** `String.prototype.hashCode`, over the string's UTF-16 code units. */
  method HashCode(units: seq<CodeUnit>) returns (hash: int)
    ensures hash == HashOf(units)
    ensures -0x8000_0000 <= hash < 0x8000_0000
  {
    hash := 0;
    if |units| == 0 {
      return hash;
    }
    var i := 0;
    while i < |units|
      invariant 0 <= i <= |units|
      invariant hash == HashOf(units[..i])
    {
      var c := units[i];
      ShiftStep(hash, c);
      HashOfAppend(units[..i], c);
      assert units[..i] + [c] == units[..i + 1];
      hash := TypedArrays.Int32Of(TypedArrays.Int32Of(hash * 32) - hash + c);
      i := i + 1;
    }
    assert units[..i] == units;
  }

  // ---------------------------------------------------------------- variables

  /** The value `Map.prototype.get` returns: the stored one, or undefined. */
  function Lookup(vars: map<string, JsValue>, name: string): JsValue
  {
    if name in vars then vars[name] else Undefined
  }

  /** `Loki._variables` and the `onVariableChange` notifications it has emitted. */
  class VariableStore {
    var variables: map<string, JsValue>
    var changes: seq<string>

    constructor ()
      ensures variables == map[] && changes == []
    {
      variables := map[];
      changes := [];
    }

    /**
     * `Loki.setVariable`: always stores the value; notifies a change only when the previous
     * value (undefined for a new name) is not `==` to the new one.
     */
    method SetVariable(name: string, value: JsValue)
      modifies this
      ensures variables == old(variables)[name := value]
      ensures changes == old(changes) + (if LooseEquals(Lookup(old(variables), name), value) then [] else [name])
    {
      var prevValue := Lookup(variables, name);
      variables := variables[name := value];
      if !LooseEquals(prevValue, value) {
        changes := changes + [name];
      }
    }

    /** `Loki.hasVariable`: whether the name has been given a value, whatever that value is. */
    method HasVariable(name: string) returns (b: bool)
      ensures b <==> name in variables
    {
      b := name in variables;
    }

    /** `Loki.getVariable`: the stored value, or undefined for a name never set. */
    method GetVariable(name: string) returns (v: JsValue)
      ensures name in variables ==> v == variables[name]
      ensures name !in variables ==> v == Undefined
    {
      v := Lookup(variables, name);
    }
  }

  /**
   * Storing the value a name already holds notifies nothing (unless it is NaN), while giving
   * a new name a value other than null or undefined always notifies.
   */
  lemma SetVariableNotifies(vars: map<string, JsValue>, name: string, value: JsValue)
    ensures name in vars && vars[name] == value && !value.NaN? ==> LooseEquals(Lookup(vars, name), value)
    ensures name !in vars && !IsNullish(value) ==> !LooseEquals(Lookup(vars, name), value)
  {
  }
}
