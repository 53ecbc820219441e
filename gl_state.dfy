/**
 * The render-state stack (`GLState`). Each frame maps state setter names to the value last
 * given to them in that frame and, under the frame's "flags" entry, capabilities to whether
 * they were enabled. A frame's entries iterate in insertion order, as a JavaScript `Map`.
 * The `_top` field of the engine always holds the last frame (or null on an empty stack),
 * so the model reads it off the stack.
 */
module GLStates {
  import opened Wrappers
  import opened OrderedMaps
  import opened GLContexts
  import Loki

  /** A key of a frame: its flag map, or a state setter name. */
  datatype Key = FlagsKey | StateKey(name: string)

  /** One frame: entry order, state values, and the flag map (itself insertion-ordered). */
  datatype Frame = Frame(order: seq<Key>, states: map<string, Loki.JsValue>, flags: OMap<int, bool>)
  {
    ghost predicate Valid()
    {
      Distinct(order)
      && (forall n :: StateKey(n) in order <==> n in states)
      && (FlagsKey in order <==> flags.keys != [])
      && flags.Valid()
    }
  }

  function EmptyFrame(): (f: Frame)
    ensures f.Valid() && f.order == [] && f.states == map[] && f.flags.keys == []
  {
    Frame([], map[], Empty())
  }

  /** `frame.set(name, value)`. */
  function PutState(f: Frame, name: string, v: Loki.JsValue): (r: Frame)
    requires f.Valid()
    ensures r.Valid() && r.states == f.states[name := v] && r.flags == f.flags
    ensures r.order == if StateKey(name) in f.order then f.order else f.order + [StateKey(name)]
  {
    Frame(if StateKey(name) in f.order then f.order else f.order + [StateKey(name)],
          f.states[name := v], f.flags)
  }

  /** `frame.get('flags').set(flag, on)`, creating the flag map first when the frame has none. */
  function PutFlag(f: Frame, flag: int, on: bool): (r: Frame)
    requires f.Valid()
    ensures r.Valid() && r.states == f.states && r.flags.values == f.flags.values[flag := on]
    ensures r.flags.keys == if flag in f.flags.values then f.flags.keys else f.flags.keys + [flag]
    ensures r.order == if FlagsKey in f.order then f.order else f.order + [FlagsKey]
  {
    var flags := Put(f.flags, flag, on);
    Frame(if FlagsKey in f.order then f.order else f.order + [FlagsKey], f.states, flags)
  }

  /** The arguments a stored value is passed to its setter with: arrays are spread. */
  function SetterArgs(v: Loki.JsValue): seq<Loki.JsValue>
  {
    if v.Arr? then v.elems else [v]
  }

  /** The index of the nearest (highest) frame holding the state `name`. */
  function NearestStateIndex(stack: seq<Frame>, name: string): (r: Option<nat>)
    ensures r.Some? ==> r.value < |stack| && name in stack[r.value].states
    ensures r.Some? ==> forall j :: r.value < j < |stack| ==> name !in stack[j].states
    ensures r.None? ==> forall j :: 0 <= j < |stack| ==> name !in stack[j].states
  {
    if stack == [] then None
    else if name in stack[|stack| - 1].states then Some(|stack| - 1)
    else NearestStateIndex(stack[..|stack| - 1], name)
  }

  /** The index of the nearest (highest) frame whose flag map holds `flag`. */
  function NearestFlagIndex(stack: seq<Frame>, flag: int): (r: Option<nat>)
    ensures r.Some? ==> r.value < |stack| && flag in stack[r.value].flags.values
    ensures r.Some? ==> forall j :: r.value < j < |stack| ==> flag !in stack[j].flags.values
    ensures r.None? ==> forall j :: 0 <= j < |stack| ==> flag !in stack[j].flags.values
  {
    if stack == [] then None
    else if flag in stack[|stack| - 1].flags.values then Some(|stack| - 1)
    else NearestFlagIndex(stack[..|stack| - 1], flag)
  }

  /** The calls re-issued for some flags of a popped frame: each takes the nearest remaining value. */
  function RestoreFlags(flags: seq<int>, below: seq<Frame>): seq<GLCall>
  {
    if flags == [] then []
    else
      var last := flags[|flags| - 1];
      RestoreFlags(flags[..|flags| - 1], below)
      + match NearestFlagIndex(below, last)
        case None => []
        case Some(i) => if below[i].flags.values[last] then [Enable(last)] else [Disable(last)]
  }

  /** What re-issuing entries of a popped frame produces: calls, and whether it threw. */
  datatype Restore = Restore(calls: seq<GLCall>, threw: bool)

  /**
   * The restore of one entry: the flag map restores each of its flags; a state re-issues the
   * nearest remaining value (a stored null throws when its constructor is read); an entry no
   * remaining frame holds produces nothing.
   */
  function RestoreEntry(k: Key, popped: Frame, below: seq<Frame>): Restore
  {
    match k
    case FlagsKey => Restore(RestoreFlags(popped.flags.keys, below), false)
    case StateKey(n) =>
      match NearestStateIndex(below, n)
      case None => Restore([], false)
      case Some(i) =>
        var v := below[i].states[n];
        if v.Null? then Restore([], true) else Restore([StateCall(n, SetterArgs(v))], false)
  }

  /** The restore of the first entries of a popped frame, stopping at the first throw. */
  function RestoreEntries(keys: seq<Key>, popped: Frame, below: seq<Frame>): Restore
  {
    if keys == [] then Restore([], false)
    else
      var before := RestoreEntries(keys[..|keys| - 1], popped, below);
      if before.threw then before
      else
        var last := RestoreEntry(keys[|keys| - 1], popped, below);
        Restore(before.calls + last.calls, last.threw)
  }

  const NULL_CONSTRUCTOR := "TypeError: Cannot read properties of null (reading 'constructor')"
  const NO_TOP := "TypeError: Cannot read properties of null (reading 'get')"

  /** The render-state stack of one context. */
  class GLState {
    const gl: GLContext
    var stack: seq<Frame>
    /** `_skipped`: how many sets were skipped as redundant. */
    var skipped: nat

    ghost predicate Valid()
      reads this
    {
      forall i :: 0 <= i < |stack| ==> stack[i].Valid()
    }

    constructor (gl: GLContext)
      ensures Valid() && this.gl == gl && stack == [] && skipped == 0
    {
      this.gl := gl;
      stack := [];
      skipped := 0;
    }

    /** `push()`: a new empty frame on top. */
    method Push()
      requires Valid()
      modifies this`stack
      ensures Valid() && stack == old(stack) + [EmptyFrame()]
    {
      stack := stack + [EmptyFrame()];
    }

    /** The inner scan of `pop` and `set`: the nearest frame holding a state. */
    static method FindState(stack: seq<Frame>, name: string) returns (r: Option<nat>)
      ensures r == NearestStateIndex(stack, name)
    {
      var i := |stack| - 1;
      while i >= 0
        invariant -1 <= i < |stack|
        invariant NearestStateIndex(stack, name) == NearestStateIndex(stack[..i + 1], name)
      {
        assert stack[..i + 1][..i] == stack[..i];
        if name in stack[i].states {
          return Some(i);
        }
        i := i - 1;
      }
      return None;
    }

    /** The inner scan of `pop` over flags: the nearest frame whose flag map holds `flag`. */
    static method FindFlag(stack: seq<Frame>, flag: int) returns (r: Option<nat>)
      ensures r == NearestFlagIndex(stack, flag)
    {
      var i := |stack| - 1;
      while i >= 0
        invariant -1 <= i < |stack|
        invariant NearestFlagIndex(stack, flag) == NearestFlagIndex(stack[..i + 1], flag)
      {
        assert stack[..i + 1][..i] == stack[..i];
        if flag in stack[i].flags.values {
          return Some(i);
        }
        i := i - 1;
      }
      return None;
    }

    /**
     * `pop()`: nothing on an empty stack. Otherwise the top frame is removed and each of its
     * entries, in insertion order, is re-issued from the nearest remaining frame holding it;
     * the skip counter is reset once the stack is empty.
     */
    method Pop() returns (outcome: Outcome)
      requires Valid()
      modifies this`stack, this`skipped, gl`log
      ensures Valid()
      ensures old(stack) == [] ==> stack == [] && skipped == old(skipped) && gl.log == old(gl.log) && outcome == Done
      ensures old(stack) != [] ==>
        var popped := old(stack)[|old(stack)| - 1];
        var r := RestoreEntries(popped.order, popped, stack);
        stack == old(stack)[..|old(stack)| - 1]
        && gl.log == old(gl.log) + r.calls
        && outcome == (if r.threw then Threw(NULL_CONSTRUCTOR) else Done)
        && skipped == (if stack == [] && !r.threw then 0 else old(skipped))
    {
      if |stack| == 0 {
        return Done;
      }
      var top := stack[|stack| - 1];
      var below := stack[..|stack| - 1];
      stack := below;
      var threw := ReissueAll(top, below);
      if threw {
        return Threw(NULL_CONSTRUCTOR);
      }
      if |below| == 0 {
        skipped := 0;
      }
      return Done;
    }

    /** The loop of `pop`: every entry of the popped frame, in order, until one throws. */
    method ReissueAll(top: Frame, below: seq<Frame>) returns (threw: bool)
      modifies gl`log
      ensures threw == RestoreEntries(top.order, top, below).threw
      ensures gl.log == old(gl.log) + RestoreEntries(top.order, top, below).calls
    {
      var k := 0;
      while k < |top.order|
        invariant 0 <= k <= |top.order|
        invariant !RestoreEntries(top.order[..k], top, below).threw
        invariant gl.log == old(gl.log) + RestoreEntries(top.order[..k], top, below).calls
      {
        RestoreEntriesStep(top.order, k, top, below);
        threw := ReissueEntry(top.order[k], top, below);
        if threw {
          RestoreEntriesThrown(top.order, k + 1, top, below);
          return;
        }
        k := k + 1;
      }
      assert top.order[..k] == top.order;
      return false;
    }

    /** The body of `pop`'s loop for one entry of the popped frame. */
    method ReissueEntry(entry: Key, top: Frame, below: seq<Frame>) returns (threw: bool)
      modifies gl`log
      ensures threw == RestoreEntry(entry, top, below).threw
      ensures gl.log == old(gl.log) + RestoreEntry(entry, top, below).calls
    {
      if entry == FlagsKey {
        var fs := top.flags.keys;
        var m := 0;
        while m < |fs|
          invariant 0 <= m <= |fs|
          invariant gl.log == old(gl.log) + RestoreFlags(fs[..m], below)
        {
          assert fs[..m + 1][..m] == fs[..m];
          var near := FindFlag(below, fs[m]);
          if near.Some? {
            if below[near.value].flags.values[fs[m]] {
              gl.Call(Enable(fs[m]));
            } else {
              gl.Call(Disable(fs[m]));
            }
          }
          m := m + 1;
        }
        assert fs[..m] == fs;
        return false;
      }
      var near := FindState(below, entry.name);
      if near.Some? {
        var value := below[near.value].states[entry.name];
        if value.Null? {
          return true;
        }
        gl.Call(StateCall(entry.name, SetterArgs(value)));
      }
      return false;
    }

    /**
     * `setFlag(flag, on)`: throws on an empty stack. Otherwise the flag is recorded in the
     * top frame and exactly one enable or disable is issued. The scan before it compares the
     * stored flag with the frame it is looking at (the loop variable shadows the argument),
     * so it never skips.
     */
    method SetFlag(flag: int, on: bool) returns (outcome: Outcome)
      requires Valid()
      modifies this`stack, gl`log
      ensures Valid() && skipped == old(skipped)
      ensures old(stack) == [] ==> stack == [] && gl.log == old(gl.log) && outcome == Threw(NO_TOP)
      ensures old(stack) != [] ==>
        var n := |old(stack)|;
        stack == old(stack)[..n - 1] + [PutFlag(old(stack)[n - 1], flag, on)]
        && gl.log == old(gl.log) + [if on then Enable(flag) else Disable(flag)]
        && outcome == Done
    {
      if |stack| == 0 {
        return Threw(NO_TOP);
      }
      var n := |stack|;
      stack := stack[..n - 1] + [PutFlag(stack[n - 1], flag, on)];
      if on {
        gl.Call(Enable(flag));
      } else {
        gl.Call(Disable(flag));
      }
      return Done;
    }

    /** `enable(flag)`. */
    method EnableFlag(flag: int) returns (outcome: Outcome)
      requires Valid()
      modifies this`stack, gl`log
      ensures Valid() && skipped == old(skipped)
      ensures old(stack) == [] ==> stack == [] && gl.log == old(gl.log) && outcome.Threw?
      ensures old(stack) != [] ==>
        var n := |old(stack)|;
        stack == old(stack)[..n - 1] + [PutFlag(old(stack)[n - 1], flag, true)]
        && gl.log == old(gl.log) + [Enable(flag)] && outcome == Done
    {
      outcome := SetFlag(flag, true);
    }

    /** `disable(flag)`. */
    method DisableFlag(flag: int) returns (outcome: Outcome)
      requires Valid()
      modifies this`stack, gl`log
      ensures Valid() && skipped == old(skipped)
      ensures old(stack) == [] ==> stack == [] && gl.log == old(gl.log) && outcome.Threw?
      ensures old(stack) != [] ==>
        var n := |old(stack)|;
        stack == old(stack)[..n - 1] + [PutFlag(old(stack)[n - 1], flag, false)]
        && gl.log == old(gl.log) + [Disable(flag)] && outcome == Done
    {
      outcome := SetFlag(flag, false);
    }

    /**
     * `set(name, value)`: nothing without a frame or for undefined. If the nearest frame
     * holding `name` has an equal value the set is skipped and counted. Otherwise the value
     * is written to the top frame only and its setter called once, with arrays spread
     * (reading the constructor of null throws after the write).
     */
    method Set(name: string, value: Loki.JsValue) returns (outcome: Outcome)
      requires Valid()
      modifies this`stack, this`skipped, gl`log
      ensures Valid() && outcome.Threw? == (old(stack) != [] && value.Null? && !SkipsSet(old(stack), name, value))
      ensures old(stack) == [] || value.Undefined? ==>
        stack == old(stack) && skipped == old(skipped) && gl.log == old(gl.log) && outcome == Done
      ensures old(stack) != [] && !value.Undefined? && SkipsSet(old(stack), name, value) ==>
        stack == old(stack) && skipped == old(skipped) + 1 && gl.log == old(gl.log)
      ensures old(stack) != [] && !value.Undefined? && !SkipsSet(old(stack), name, value) ==>
        var n := |old(stack)|;
        stack == old(stack)[..n - 1] + [PutState(old(stack)[n - 1], name, value)]
        && skipped == old(skipped)
        && gl.log == old(gl.log) + (if value.Null? then [] else [StateCall(name, SetterArgs(value))])
    {
      if |stack| == 0 || value.Undefined? {
        return Done;
      }
      var skip := FindSkip(stack, name, value);
      if skip {
        skipped := skipped + 1;
        return Done;
      }
      var n := |stack|;
      stack := stack[..n - 1] + [PutState(stack[n - 1], name, value)];
      if value.Null? {
        return Threw(NULL_CONSTRUCTOR);
      }
      gl.Call(StateCall(name, SetterArgs(value)));
      return Done;
    }

    /** The scan of `set`: whether the nearest frame holding `name` already has `value`. */
    static method FindSkip(stack: seq<Frame>, name: string, value: Loki.JsValue) returns (skip: bool)
      ensures skip == SkipsSet(stack, name, value)
    {
      var near := FindState(stack, name);
      if near.None? {
        return false;
      }
      skip := Loki.IsEqual(stack[near.value].states[name], value);
    }

    /** `get(name)`: the top frame's value (undefined when absent); none means it throws. */
    function Get(name: string): (r: Option<Loki.JsValue>)
      reads this
      ensures r.None? <==> stack == []
      ensures r.Some? ==> r.value == if name in stack[|stack| - 1].states then stack[|stack| - 1].states[name] else Loki.Undefined
    {
      if stack == [] then None
      else Some(if name in stack[|stack| - 1].states then stack[|stack| - 1].states[name] else Loki.Undefined)
    }

    /** `has(name)`: whether the top frame holds `name`; none means it throws. */
    function Has(name: string): (r: Option<bool>)
      reads this
      ensures r.None? <==> stack == []
      ensures r.Some? ==> (r.value <==> name in stack[|stack| - 1].states)
    {
      if stack == [] then None else Some(name in stack[|stack| - 1].states)
    }
  }

  /** Whether `set(name, value)` is skipped: the nearest frame holding `name` has an equal value. */
  predicate SkipsSet(stack: seq<Frame>, name: string, value: Loki.JsValue)
  {
    var near := NearestStateIndex(stack, name);
    near.Some? && Loki.DeepEqual(stack[near.value].states[name], value)
  }

  // ---------------------------------------------------------------- laws of the stack

  /** Once an entry throws, the later entries of the popped frame are not re-issued. */
  lemma {:induction false} RestoreEntriesThrown(keys: seq<Key>, j: nat, popped: Frame, below: seq<Frame>)
    requires j <= |keys| && RestoreEntries(keys[..j], popped, below).threw
    ensures RestoreEntries(keys, popped, below) == RestoreEntries(keys[..j], popped, below)
    decreases |keys| - j
  {
    if j == |keys| {
      assert keys[..j] == keys;
    } else {
      RestoreEntriesStep(keys, j, popped, below);
      RestoreEntriesThrown(keys, j + 1, popped, below);
    }
  }

  /** One more entry of the popped frame extends the restore, unless it already threw. */
  lemma RestoreEntriesStep(keys: seq<Key>, k: nat, popped: Frame, below: seq<Frame>)
    requires k < |keys|
    ensures var before := RestoreEntries(keys[..k], popped, below);
      var step := RestoreEntry(keys[k], popped, below);
      RestoreEntries(keys[..k + 1], popped, below)
        == if before.threw then before else Restore(before.calls + step.calls, step.threw)
  {
    assert keys[..k + 1][..k] == keys[..k];
  }

  /**
   * Popping a frame that set one state re-issues the nearest value below it, or nothing when
   * no remaining frame holds that state.
   */
  lemma RestoreOneState(name: string, v: Loki.JsValue, below: seq<Frame>)
    ensures var popped := PutState(EmptyFrame(), name, v);
      var r := RestoreEntries(popped.order, popped, below);
      var near := NearestStateIndex(below, name);
      (near.None? ==> r == Restore([], false))
      && (near.Some? && !below[near.value].states[name].Null? ==>
            r == Restore([StateCall(name, SetterArgs(below[near.value].states[name]))], false))
  {
    var popped := PutState(EmptyFrame(), name, v);
    assert popped.order == [StateKey(name)];
    assert popped.order[..0] == [];
  }

  /**
   * Popping a frame that toggled one flag re-issues the nearest remaining setting of that
   * flag, or nothing when no remaining frame holds it.
   */
  lemma RestoreOneFlag(flag: int, on: bool, below: seq<Frame>)
    ensures var popped := PutFlag(EmptyFrame(), flag, on);
      var r := RestoreEntries(popped.order, popped, below);
      var near := NearestFlagIndex(below, flag);
      (near.None? ==> r == Restore([], false))
      && (near.Some? ==>
            r == Restore([if below[near.value].flags.values[flag] then Enable(flag) else Disable(flag)], false))
  {
    var popped := PutFlag(EmptyFrame(), flag, on);
    assert popped.order == [FlagsKey];
    assert popped.order[..0] == [];
    assert popped.flags.keys == [flag];
    assert popped.flags.keys[..0] == [];
    assert RestoreEntries(popped.order, popped, below).calls == RestoreFlags([flag], below);
  }

  /** Re-issuing never produces more calls than the popped frame has flags and states. */
  lemma {:induction false} RestoreFlagsBound(flags: seq<int>, below: seq<Frame>)
    ensures |RestoreFlags(flags, below)| <= |flags|
  {
    if flags != [] {
      RestoreFlagsBound(flags[..|flags| - 1], below);
    }
  }

  /** A set is skipped exactly when the nearest frame holding the state already has an equal value, so re-setting the value just set is always skipped. */
  lemma SetTwiceSkips(stack: seq<Frame>, name: string, value: Loki.JsValue)
    requires stack != [] && stack[|stack| - 1].Valid() && !value.NaN?
    ensures SkipsSet(stack[..|stack| - 1] + [PutState(stack[|stack| - 1], name, value)], name, value)
  {
    var n := |stack|;
    var after := stack[..n - 1] + [PutState(stack[n - 1], name, value)];
    assert after[n - 1].states[name] == value;
    assert NearestStateIndex(after, name) == Some(n - 1);
    Loki.DeepEqualReflexive(value);
  }
}
