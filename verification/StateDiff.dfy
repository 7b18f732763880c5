/** State diffs: a recursive differ that emits pointer-addressed operations (RFC 6902,
    section 4), a patcher that applies them, and the envelopes built on both. */
module StateDiff {
  import opened Arithmetic
  import opened Basics
  import opened SortedKeys
  import opened JsonPointer

  datatype NumberKind = Bool | Int | Float

  /** A JSON state.  True, 1 and 1.0 are different values that compare equal in Python. */
  datatype State =
    | SNull
    | SNumber(kind: NumberKind, value: real)
    | SString(s: string)
    | SList(items: seq<State>)
    | SDict(fields: map<string, State>)

  /** Python's == on states. */
  predicate PyEq(a: State, b: State) {
    match a
    case SNull => b.SNull?
    case SNumber(_, value) => b.SNumber? && value == b.value
    case SString(_) => a == b
    case SList(items) =>
      b.SList? && |items| == |b.items| && forall i :: 0 <= i < |items| ==> PyEq(items[i], b.items[i])
    case SDict(fields) =>
      b.SDict? && fields.Keys == b.fields.Keys && forall k :: k in fields ==> PyEq(fields[k], b.fields[k])
  }

  lemma {:induction false} PyEqReflexive(a: State)
    ensures PyEq(a, a)
  {
    match a
    case SList(items) => forall i | 0 <= i < |items| ensures PyEq(items[i], items[i]) { PyEqReflexive(items[i]); }
    case SDict(fields) => forall k | k in fields ensures PyEq(fields[k], fields[k]) { PyEqReflexive(fields[k]); }
    case _ =>
  }

  lemma {:induction false} PyEqSymmetric(a: State, b: State)
    requires PyEq(a, b)
    ensures PyEq(b, a)
  {
    match a
    case SList(items) =>
      forall i | 0 <= i < |items| ensures PyEq(b.items[i], items[i]) { PyEqSymmetric(items[i], b.items[i]); }
    case SDict(fields) =>
      forall k | k in fields ensures PyEq(b.fields[k], fields[k]) { PyEqSymmetric(fields[k], b.fields[k]); }
    case _ =>
  }

  lemma {:induction false} PyEqTransitive(a: State, b: State, c: State)
    requires PyEq(a, b) && PyEq(b, c)
    ensures PyEq(a, c)
  {
    match a
    case SList(items) =>
      forall i | 0 <= i < |items| ensures PyEq(items[i], c.items[i]) {
        PyEqTransitive(items[i], b.items[i], c.items[i]);
      }
    case SDict(fields) =>
      forall k | k in fields ensures PyEq(fields[k], c.fields[k]) {
        PyEqTransitive(fields[k], b.fields[k], c.fields[k]);
      }
    case _ =>
  }

  /** The state with every number stored as one kind: 1.0 and true both become 1, say. */
  function Recast(a: State, kind: NumberKind): State {
    match a
    case SNumber(_, value) => SNumber(kind, value)
    case SList(items) => SList(seq(|items|, i requires 0 <= i < |items| => Recast(items[i], kind)))
    case SDict(fields) => SDict(map k | k in fields :: Recast(fields[k], kind))
    case _ => a
  }

  /** All numbers in the state are of that kind. */
  predicate OneKind(a: State, kind: NumberKind) {
    match a
    case SNumber(k, _) => k == kind
    case SList(items) => forall i :: 0 <= i < |items| ==> OneKind(items[i], kind)
    case SDict(fields) => forall k :: k in fields ==> OneKind(fields[k], kind)
    case _ => true
  }

  /** Between states with numbers of one kind == is equality ... */
  lemma {:induction false} SameKindIff(a: State, b: State, kind: NumberKind)
    requires OneKind(a, kind) && OneKind(b, kind)
    ensures PyEq(a, b) <==> a == b
  {
    if a.SList? && b.SList? && |a.items| == |b.items| {
      forall i | 0 <= i < |a.items| ensures PyEq(a.items[i], b.items[i]) <==> a.items[i] == b.items[i] {
        SameKindIff(a.items[i], b.items[i], kind);
      }
    } else if a.SDict? && b.SDict? && a.fields.Keys == b.fields.Keys {
      forall k | k in a.fields ensures PyEq(a.fields[k], b.fields[k]) <==> a.fields[k] == b.fields[k] {
        SameKindIff(a.fields[k], b.fields[k], kind);
      }
      assert PyEq(a, b) ==> a.fields == b.fields;
    }
  }

  /** ... and the kinds of the numbers are all that it overlooks. */
  lemma {:induction false} RecastIsEqual(a: State, kind: NumberKind)
    ensures PyEq(a, Recast(a, kind)) && OneKind(Recast(a, kind), kind)
  {
    match a
    case SList(items) => forall i | 0 <= i < |items| { RecastIsEqual(items[i], kind); }
    case SDict(fields) => forall k | k in fields { RecastIsEqual(fields[k], kind); }
    case _ =>
  }

  /** So == holds exactly between states that differ in the kinds of their numbers only. */
  lemma PyEqIff(a: State, b: State, kind: NumberKind)
    ensures PyEq(a, b) <==> Recast(a, kind) == Recast(b, kind)
    ensures OneKind(a, kind) && OneKind(b, kind) ==> (PyEq(a, b) <==> a == b)
  {
    hide PyEq, Recast, OneKind;
    var x, y := Recast(a, kind), Recast(b, kind);
    RecastIsEqual(a, kind);
    RecastIsEqual(b, kind);
    PyEqSymmetric(a, x);
    PyEqSymmetric(b, y);
    SameKindIff(x, y, kind);
    if PyEq(a, b) {
      PyEqTransitive(x, a, b);
      PyEqTransitive(x, b, y);
    }
    if PyEq(x, y) {
      PyEqTransitive(a, x, y);
      PyEqTransitive(a, y, b);
    }
    if OneKind(a, kind) && OneKind(b, kind) { SameKindIff(a, b, kind); }
  }

  // ---------- operations ----------

  /** One patch operation, as it is stored: the name and the path are plain text, and the
      value may be missing. */
  datatype Operation = Operation(op: string, path: string, value: Option<State>)

  /** Sets or removes what `keys` lead to, inside nested dictionaries only. */
  function SetAt(state: State, keys: seq<string>, op: string, value: Option<State>): Result<State>
    requires keys != []
  {
    if !state.SDict? then Err("TypeError")
    else if |keys| > 1 then
      if keys[0] !in state.fields then Err("KeyError")
      else
        match SetAt(state.fields[keys[0]], keys[1..], op, value)
        case Err(why) => Err(why)
        case Ok(child) => Ok(SDict(state.fields[keys[0] := child]))
    else if op == "remove" then
      if keys[0] in state.fields then Ok(SDict(state.fields - {keys[0]})) else Err("KeyError")
    else if op == "add" || op == "replace" then
      if value.Some? then Ok(SDict(state.fields[keys[0] := value.value])) else Err("KeyError")
    else Err("ValueError")
  }

  function ApplyOperation(state: State, operation: Operation): Result<State> {
    if operation.path == "" then Ok(operation.value.GetOr(SNull))
    else SetAt(state, Parts(operation.path), operation.op, operation.value)
  }

  function ApplyAll(state: State, operations: seq<Operation>): Result<State> {
    if operations == [] then Ok(state)
    else
      match ApplyAll(state, operations[..|operations| - 1])
      case Err(why) => Err(why)
      case Ok(before) => ApplyOperation(before, operations[|operations| - 1])
  }

  /** apply_state_diff: the first operation that fails ends it. */
  method ApplyStateDiff(previous: State, operations: seq<Operation>) returns (r: Result<State>)
    ensures r == ApplyAll(previous, operations)
  {
    var state := previous;
    for i := 0 to |operations|
      invariant ApplyAll(previous, operations[..i]) == Ok(state)
    {
      assert operations[..i + 1][..i] == operations[..i];
      var step := ApplyOperation(state, operations[i]);
      if step.Err? {
        FailureStays(previous, operations, i + 1);
        return step;
      }
      state := step.value;
    }
    assert operations[..|operations|] == operations;
    return Ok(state);
  }

  lemma {:induction false} FailureStays(state: State, operations: seq<Operation>, n: nat)
    requires n <= |operations| && ApplyAll(state, operations[..n]).Err?
    ensures ApplyAll(state, operations) == ApplyAll(state, operations[..n])
  {
    if n < |operations| {
      var init := operations[..|operations| - 1];
      assert init[..n] == operations[..n];
      FailureStays(state, init, n);
    } else {
      assert operations[..n] == operations;
    }
  }

  // ---------- the differ ----------

  /** A change addressed by keys instead of pointer text. */
  datatype Change =
    | Remove(at: seq<string>)
    | Add(at: seq<string>, value: State)
    | Replace(at: seq<string>, value: State)

  function Render(prefix: seq<string>, c: Change): Operation {
    match c
    case Remove(at) => Operation("remove", Pointer(prefix + at), None)
    case Add(at, value) => Operation("add", Pointer(prefix + at), Some(value))
    case Replace(at, value) => Operation("replace", Pointer(prefix + at), Some(value))
  }

  function RenderAll(prefix: seq<string>, changes: seq<Change>): (r: seq<Operation>)
    ensures |r| == |changes|
  {
    seq(|changes|, i requires 0 <= i < |changes| => Render(prefix, changes[i]))
  }

  function Under(key: string, changes: seq<Change>): seq<Change> {
    seq(|changes|, i requires 0 <= i < |changes| =>
      match changes[i]
      case Remove(at) => Remove([key] + at)
      case Add(at, value) => Add([key] + at, value)
      case Replace(at, value) => Replace([key] + at, value))
  }

  function Removals(keys: seq<string>): seq<Change> {
    seq(|keys|, i requires 0 <= i < |keys| => Remove([keys[i]]))
  }

  function Additions(keys: seq<string>, fields: map<string, State>): seq<Change>
    requires forall k :: k in keys ==> k in fields
  {
    seq(|keys|, i requires 0 <= i < |keys| => Add([keys[i]], fields[keys[i]]))
  }

  function Changes(previous: State, current: State): seq<Change>
    decreases previous, 1
  {
    if previous.SDict? && current.SDict? then
      var f, g := previous.fields, current.fields;
      Removals(Sorted(f.Keys - g.Keys)) + Additions(Sorted(g.Keys - f.Keys), g)
      + CommonChanges(previous, current, Sorted(f.Keys * g.Keys))
    else if PyEq(previous, current) then []
    else [Replace([], current)]
  }

  /** What changes below the keys that both states have. */
  function CommonChanges(previous: State, current: State, keys: seq<string>): seq<Change>
    requires previous.SDict? && current.SDict?
    requires forall k :: k in keys ==> k in previous.fields && k in current.fields
    decreases previous, 0, |keys|
  {
    if keys == [] then []
    else
      var n := |keys| - 1;
      CommonChanges(previous, current, keys[..n])
      + Under(keys[n], Changes(previous.fields[keys[n]], current.fields[keys[n]]))
  }

  /** The list that every level of the recursion appends to. */
  class OperationList {
    var list: seq<Operation>

    constructor ()
      ensures list == []
    {
      list := [];
    }
  }

  lemma RenderConcat(prefix: seq<string>, a: seq<Change>, b: seq<Change>)
    ensures RenderAll(prefix, a + b) == RenderAll(prefix, a) + RenderAll(prefix, b)
  {
  }

  lemma RenderUnder(prefix: seq<string>, key: string, changes: seq<Change>)
    ensures RenderAll(prefix, Under(key, changes)) == RenderAll(prefix + [key], changes)
  {
    forall i | 0 <= i < |changes|
      ensures RenderAll(prefix, Under(key, changes))[i] == RenderAll(prefix + [key], changes)[i]
    {
      assert prefix + ([key] + changes[i].at) == (prefix + [key]) + changes[i].at;
    }
  }

  lemma PointerBelow(prefix: seq<string>, key: string)
    ensures Pointer(prefix + [key]) == Pointer(prefix) + "/" + Escape(key)
  {
    PointerConcat(prefix, [key]);
    assert Pointer([key]) == "/" + Escape(key);
  }

  lemma RenderDict(prefix: seq<string>, previous: State, current: State, start: seq<Operation>)
    requires previous.SDict? && current.SDict?
    ensures var f, g := previous.fields, current.fields;
            start + RenderAll(prefix, Changes(previous, current))
            == start + RenderAll(prefix, Removals(Sorted(f.Keys - g.Keys)))
               + RenderAll(prefix, Additions(Sorted(g.Keys - f.Keys), g))
               + RenderAll(prefix, CommonChanges(previous, current, Sorted(f.Keys * g.Keys)))
  {
    hide CommonChanges, SortedKeys.Sorted, RenderAll, PyEq;
    var f, g := previous.fields, current.fields;
    var gone, come := Removals(Sorted(f.Keys - g.Keys)), Additions(Sorted(g.Keys - f.Keys), g);
    var kept := CommonChanges(previous, current, Sorted(f.Keys * g.Keys));
    RenderConcat(prefix, gone, come);
    RenderConcat(prefix, gone + come, kept);
    Regroup(start, RenderAll(prefix, gone), RenderAll(prefix, come), RenderAll(prefix, kept));
  }

  lemma Regroup<T>(a: seq<T>, b: seq<T>, c: seq<T>, d: seq<T>)
    ensures a + ((b + c) + d) == ((a + b) + c) + d
  {
  }

  lemma RenderReplace(prefix: seq<string>, current: State)
    ensures RenderAll(prefix, [Replace([], current)]) == [Operation("replace", Pointer(prefix), Some(current))]
    ensures RenderAll(prefix, []) == []
  {
    assert prefix + [] == prefix;
  }

  /** _diff: removed keys, then added keys, then the keys in common, each in order. */
  method Diff(previous: State, current: State, ghost prefix: seq<string>, path: string, operations: OperationList)
    requires path == Pointer(prefix)
    modifies operations
    ensures operations.list == old(operations.list) + RenderAll(prefix, Changes(previous, current))
    decreases previous, 2
  {
    hide CommonChanges, SortedKeys.Sorted, Escape, Pointer, RenderAll, PyEq, Removals, Additions, Render;
    if previous.SDict? && current.SDict? {
      ghost var start := operations.list;
      DiffRemoved(Sorted(previous.fields.Keys - current.fields.Keys), prefix, path, operations);
      DiffAdded(Sorted(current.fields.Keys - previous.fields.Keys), current.fields, prefix, path, operations);
      DiffCommon(previous, current, Sorted(previous.fields.Keys * current.fields.Keys), prefix, path, operations);
      RenderDict(prefix, previous, current, start);
      return;
    }
    if !PyEq(previous, current) {
      RenderReplace(prefix, current);
      operations.list := operations.list + [Operation("replace", path, Some(current))];
    }
  }

  method DiffRemoved(keys: seq<string>, ghost prefix: seq<string>, path: string, operations: OperationList)
    requires path == Pointer(prefix)
    modifies operations
    ensures operations.list == old(operations.list) + RenderAll(prefix, Removals(keys))
  {
    for i := 0 to |keys|
      invariant operations.list == old(operations.list) + RenderAll(prefix, Removals(keys[..i]))
    {
      PointerBelow(prefix, keys[i]);
      operations.list := operations.list + [Operation("remove", path + "/" + Escape(keys[i]), None)];
    }
    assert keys[..|keys|] == keys;
  }

  method DiffAdded(
    keys: seq<string>, fields: map<string, State>, ghost prefix: seq<string>, path: string, operations: OperationList)
    requires path == Pointer(prefix) && forall k :: k in keys ==> k in fields
    modifies operations
    ensures operations.list == old(operations.list) + RenderAll(prefix, Additions(keys, fields))
  {
    for i := 0 to |keys|
      invariant operations.list == old(operations.list) + RenderAll(prefix, Additions(keys[..i], fields))
    {
      PointerBelow(prefix, keys[i]);
      operations.list := operations.list + [Operation("add", path + "/" + Escape(keys[i]), Some(fields[keys[i]]))];
    }
    assert keys[..|keys|] == keys;
  }

  lemma CommonStep(previous: State, current: State, keys: seq<string>, i: nat, prefix: seq<string>)
    requires previous.SDict? && current.SDict? && i < |keys|
    requires forall k :: k in keys ==> k in previous.fields && k in current.fields
    ensures RenderAll(prefix, CommonChanges(previous, current, keys[..i + 1]))
            == RenderAll(prefix, CommonChanges(previous, current, keys[..i]))
               + RenderAll(prefix + [keys[i]], Changes(previous.fields[keys[i]], current.fields[keys[i]]))
  {
    hide Changes, RenderAll, PyEq;
    var below := Changes(previous.fields[keys[i]], current.fields[keys[i]]);
    RenderUnder(prefix, keys[i], below);
    assert keys[..i + 1][..i] == keys[..i];
    RenderConcat(prefix, CommonChanges(previous, current, keys[..i]), Under(keys[i], below));
  }

  method DiffCommon(
    previous: State, current: State, keys: seq<string>, ghost prefix: seq<string>, path: string,
    operations: OperationList)
    requires path == Pointer(prefix) && previous.SDict? && current.SDict?
    requires forall k :: k in keys ==> k in previous.fields && k in current.fields
    modifies operations
    ensures operations.list == old(operations.list) + RenderAll(prefix, CommonChanges(previous, current, keys))
    decreases previous, 1
  {
    hide Changes, PyEq, Pointer, Escape;
    for i := 0 to |keys|
      invariant operations.list == old(operations.list) + RenderAll(prefix, CommonChanges(previous, current, keys[..i]))
    {
      var key := keys[i];
      PointerBelow(prefix, key);
      Diff(previous.fields[key], current.fields[key], prefix + [key], path + "/" + Escape(key), operations);
      CommonStep(previous, current, keys, i, prefix);
    }
    assert keys[..|keys|] == keys;
  }

  /** diff_states */
  method DiffStates(previous: State, current: State) returns (operations: seq<Operation>)
    ensures operations == Delta(previous, current)
  {
    var collected := new OperationList();
    Diff(previous, current, [], "", collected);
    operations := collected.list;
  }

  function Delta(previous: State, current: State): seq<Operation> {
    RenderAll([], Changes(previous, current))
  }

  // ---------- applying changes by keys ----------

  function ApplyChange(state: State, c: Change): Result<State> {
    match c
    case Remove(at) => if at == [] then Ok(SNull) else SetAt(state, at, "remove", None)
    case Add(at, value) => if at == [] then Ok(value) else SetAt(state, at, "add", Some(value))
    case Replace(at, value) => if at == [] then Ok(value) else SetAt(state, at, "replace", Some(value))
  }

  function ApplyChanges(state: State, changes: seq<Change>): Result<State> {
    if changes == [] then Ok(state)
    else
      match ApplyChanges(state, changes[..|changes| - 1])
      case Err(why) => Err(why)
      case Ok(before) => ApplyChange(before, changes[|changes| - 1])
  }

  /** Reading the keys off a pointer loses nothing, so the text of the operations may be
      ignored from here on. */
  lemma RenderedChange(state: State, c: Change)
    ensures ApplyOperation(state, Render([], c)) == ApplyChange(state, c)
  {
    assert [] + c.at == c.at;
    if c.at != [] { PointerRoundTrip(c.at); }
  }

  lemma {:induction false} RenderedChanges(state: State, changes: seq<Change>)
    ensures ApplyAll(state, RenderAll([], changes)) == ApplyChanges(state, changes)
  {
    if changes != [] {
      var n := |changes| - 1;
      assert RenderAll([], changes)[..n] == RenderAll([], changes[..n]);
      RenderedChanges(state, changes[..n]);
      var before := ApplyChanges(state, changes[..n]);
      if before.Ok? { RenderedChange(before.value, changes[n]); }
    }
  }

  lemma {:induction false} ApplyConcat(state: State, a: seq<Change>, b: seq<Change>)
    ensures ApplyChanges(state, a + b)
            == match ApplyChanges(state, a) { case Err(why) => Err(why) case Ok(mid) => ApplyChanges(mid, b) }
  {
    if b == [] {
      assert a + b == a;
    } else {
      var n := |b| - 1;
      assert (a + b)[..|a + b| - 1] == a + b[..n];
      ApplyConcat(state, a, b[..n]);
    }
  }

  /** No change removes the whole state. */
  predicate Proper(changes: seq<Change>) {
    forall i :: 0 <= i < |changes| && changes[i].Remove? ==> changes[i].at != []
  }

  lemma {:induction false} ChangesAreProper(previous: State, current: State)
    ensures Proper(Changes(previous, current))
    decreases previous, 1
  {
    hide CommonChanges, SortedKeys.Sorted, PyEq;
    if previous.SDict? && current.SDict? {
      CommonAreProper(previous, current, Sorted(previous.fields.Keys * current.fields.Keys));
    }
  }

  lemma {:induction false} CommonAreProper(previous: State, current: State, keys: seq<string>)
    requires previous.SDict? && current.SDict?
    requires forall k :: k in keys ==> k in previous.fields && k in current.fields
    ensures Proper(CommonChanges(previous, current, keys))
    decreases previous, 0, |keys|
  {
    if keys != [] {
      CommonAreProper(previous, current, keys[..|keys| - 1]);
    }
  }

  /** Changes below a key act on the value under that key and on nothing else. */
  lemma ChangeUnder(fields: map<string, State>, key: string, c: Change)
    requires key in fields && (c.Remove? ==> c.at != [])
    requires ApplyChange(fields[key], c).Ok?
    ensures ApplyChange(SDict(fields), Under(key, [c])[0])
            == Ok(SDict(fields[key := ApplyChange(fields[key], c).value]))
  {
    assert ([key] + c.at)[1..] == c.at;
  }

  lemma {:induction false} ChangesUnder(fields: map<string, State>, key: string, changes: seq<Change>)
    requires key in fields && Proper(changes) && ApplyChanges(fields[key], changes).Ok?
    ensures ApplyChanges(SDict(fields), Under(key, changes))
            == Ok(SDict(fields[key := ApplyChanges(fields[key], changes).value]))
  {
    if changes == [] {
      assert fields[key := fields[key]] == fields;
    } else {
      var n := |changes| - 1;
      assert Under(key, changes)[..n] == Under(key, changes[..n]);
      ChangesUnder(fields, key, changes[..n]);
      var mid := fields[key := ApplyChanges(fields[key], changes[..n]).value];
      ChangeUnder(mid, key, changes[n]);
      assert Under(key, changes)[n] == Under(key, [changes[n]])[0];
      var after := ApplyChange(mid[key], changes[n]).value;
      assert mid[key := after] == fields[key := after];
    }
  }

  // ---------- the round trip ----------

  lemma {:induction false} RemovalsRemove(fields: map<string, State>, keys: seq<string>)
    requires forall k :: k in keys ==> k in fields
    requires forall i, j :: 0 <= i < j < |keys| ==> keys[i] != keys[j]
    ensures ApplyChanges(SDict(fields), Removals(keys)) == Ok(SDict(map k | k in fields && k !in keys :: fields[k]))
  {
    if keys == [] {
      assert (map k | k in fields && k !in keys :: fields[k]) == fields;
    } else {
      var n := |keys| - 1;
      assert Removals(keys)[..n] == Removals(keys[..n]);
      RemovalsRemove(fields, keys[..n]);
      var mid := map k | k in fields && k !in keys[..n] :: fields[k];
      assert mid - {keys[n]} == map k | k in fields && k !in keys :: fields[k];
    }
  }

  function Picked(keys: seq<string>, from: map<string, State>): map<string, State>
    requires forall k :: k in keys ==> k in from
  {
    map k | k in keys :: from[k]
  }

  lemma {:induction false} AdditionsAdd(fields: map<string, State>, keys: seq<string>, from: map<string, State>)
    requires forall k :: k in keys ==> k in from
    ensures ApplyChanges(SDict(fields), Additions(keys, from)) == Ok(SDict(fields + Picked(keys, from)))
  {
    hide PyEq;
    if keys == [] {
      assert fields + Picked(keys, from) == fields;
    } else {
      var n := |keys| - 1;
      assert Additions(keys, from)[..n] == Additions(keys[..n], from);
      AdditionsAdd(fields, keys[..n], from);
      OneMoreKey(fields, keys, from);
    }
  }

  lemma OneMoreKey(fields: map<string, State>, keys: seq<string>, from: map<string, State>)
    requires keys != [] && forall k :: k in keys ==> k in from
    ensures var n := |keys| - 1;
            (fields + Picked(keys[..n], from))[keys[n] := from[keys[n]]] == fields + Picked(keys, from)
  {
    hide PyEq;
    var n := |keys| - 1;
    var mid, end := fields + Picked(keys[..n], from), fields + Picked(keys, from);
    forall k ensures k in keys <==> k in keys[..n] || k == keys[n] {
      assert keys == keys[..n] + [keys[n]];
    }
    assert mid[keys[n] := from[keys[n]]].Keys == end.Keys;
  }

  /** Bringing every common key up to date leaves the other keys alone. */
  lemma {:induction false} CommonChangesApply(
    previous: State, current: State, keys: seq<string>, fields: map<string, State>)
    returns (r: map<string, State>)
    requires previous.SDict? && current.SDict?
    requires forall k :: k in keys ==> k in previous.fields && k in current.fields
    requires forall k :: k in keys ==> k in fields && PyEq(fields[k], previous.fields[k])
    requires forall i, j :: 0 <= i < j < |keys| ==> keys[i] != keys[j]
    ensures ApplyChanges(SDict(fields), CommonChanges(previous, current, keys)) == Ok(SDict(r))
    ensures r.Keys == fields.Keys
    ensures forall k :: k in fields && k !in keys ==> r[k] == fields[k]
    ensures forall k :: k in keys ==> PyEq(r[k], current.fields[k])
    decreases previous, 0, |keys|
  {
    hide PyEq, Changes, ApplyChange;
    if keys == [] {
      r := fields;
    } else {
      var n := |keys| - 1;
      var key := keys[n];
      var before := CommonChangesApply(previous, current, keys[..n], fields);
      assert key !in keys[..n];
      var below := Changes(previous.fields[key], current.fields[key]);
      RoundTripFromEqual(previous.fields[key], current.fields[key], before[key]);
      ChangesAreProper(previous.fields[key], current.fields[key]);
      ChangesUnder(before, key, below);
      ApplyConcat(SDict(fields), CommonChanges(previous, current, keys[..n]), Under(key, below));
      r := before[key := ApplyChanges(before[key], below).value];
      assert keys == keys[..n] + [key];
    }
  }

  /** Applied to any state equal to `previous`, the changes succeed and give `current`. */
  lemma {:induction false} RoundTripFromEqual(previous: State, current: State, base: State)
    requires PyEq(base, previous)
    ensures ApplyChanges(base, Changes(previous, current)).Ok?
    ensures PyEq(ApplyChanges(base, Changes(previous, current)).value, current)
    decreases previous, 1
  {
    if previous.SDict? && current.SDict? {
      DictRoundTrip(previous, current, base);
    } else if PyEq(previous, current) {
      PyEqTransitive(base, previous, current);
    } else {
      PyEqReflexive(current);
    }
  }

  function Grown(h: map<string, State>, gone: seq<string>, come: seq<string>, g: map<string, State>): map<string, State>
    requires forall k :: k in come ==> k in g
  {
    (map k | k in h && k !in gone :: h[k]) + Picked(come, g)
  }

  lemma RemovedThenAdded(h: map<string, State>, gone: seq<string>, come: seq<string>, g: map<string, State>)
    requires (forall k :: k in gone ==> k in h) && (forall k :: k in come ==> k in g)
    requires forall i, j :: 0 <= i < j < |gone| ==> gone[i] != gone[j]
    ensures ApplyChanges(SDict(h), Removals(gone) + Additions(come, g)) == Ok(SDict(Grown(h, gone, come, g)))
  {
    hide ApplyChanges;
    RemovalsRemove(h, gone);
    AdditionsAdd(map k | k in h && k !in gone :: h[k], come, g);
    ApplyConcat(SDict(h), Removals(gone), Additions(come, g));
  }

  /** After the removals and additions the keys are those of the current state. */
  lemma GrownFields(
    h: map<string, State>, f: map<string, State>, g: map<string, State>, gone: seq<string>, come: seq<string>)
    requires h.Keys == f.Keys
    requires forall k :: k in gone <==> k in f && k !in g
    requires forall k :: k in come <==> k in g && k !in f
    ensures Grown(h, gone, come, g).Keys == g.Keys
    ensures forall k :: k in g && k in f ==> Grown(h, gone, come, g)[k] == h[k]
    ensures forall k :: k in g && k !in f ==> Grown(h, gone, come, g)[k] == g[k]
  {
    var grown := Grown(h, gone, come, g);
    forall k ensures k in grown <==> k in g { assert k in h <==> k in f; }
  }

  lemma {:induction false} DictRoundTrip(previous: State, current: State, base: State)
    requires PyEq(base, previous) && previous.SDict? && current.SDict?
    ensures ApplyChanges(base, Changes(previous, current)).Ok?
    ensures PyEq(ApplyChanges(base, Changes(previous, current)).value, current)
    decreases previous, 0, |previous.fields| + 2
  {
    hide PyEq, Changes, ApplyChanges, SortedKeys.Sorted, CommonChanges;
    EqualDicts(base, previous);
    var f, g, h := previous.fields, current.fields, base.fields;
    var gone, come := Sorted(f.Keys - g.Keys), Sorted(g.Keys - f.Keys);
    RemovedThenAdded(h, gone, come, g);
    GrownFields(h, f, g, gone, come);
    var grown := Grown(h, gone, come, g);
    var r := CommonBroughtUpToDate(previous, current, base, grown);
    SameDict(r, g);
  }

  lemma EqualDicts(a: State, b: State)
    requires PyEq(a, b) && b.SDict?
    ensures a.SDict? && a.fields.Keys == b.fields.Keys
    ensures forall k :: k in b.fields ==> PyEq(a.fields[k], b.fields[k])
  {
  }

  lemma SameDict(r: map<string, State>, g: map<string, State>)
    requires r.Keys == g.Keys && forall k :: k in g ==> PyEq(r[k], g[k])
    ensures PyEq(SDict(r), SDict(g))
  {
  }

  lemma {:induction false} CommonBroughtUpToDate(
    previous: State, current: State, base: State, grown: map<string, State>)
    returns (r: map<string, State>)
    requires PyEq(base, previous) && previous.SDict? && current.SDict?
    requires ApplyChanges(base, Removals(Sorted(previous.fields.Keys - current.fields.Keys))
                                + Additions(Sorted(current.fields.Keys - previous.fields.Keys), current.fields))
             == Ok(SDict(grown))
    requires grown.Keys == current.fields.Keys
    requires forall k :: k in current.fields && k in previous.fields ==> grown[k] == base.fields[k]
    requires forall k :: k in current.fields && k !in previous.fields ==> grown[k] == current.fields[k]
    ensures ApplyChanges(base, Changes(previous, current)) == Ok(SDict(r))
    ensures r.Keys == current.fields.Keys && forall k :: k in current.fields ==> PyEq(r[k], current.fields[k])
    decreases previous, 0, |previous.fields| + 1
  {
    EqualDicts(base, previous);
    hide PyEq, ApplyChange, ApplyChanges, SortedKeys.Sorted, CommonChanges;
    var f, g := previous.fields, current.fields;
    var kept := Sorted(f.Keys * g.Keys);
    assert forall k :: k in kept <==> k in f && k in g;
    assert |kept| <= |f| by { SubsetSize(f.Keys * g.Keys, f.Keys); }
    r := CommonChangesApply(previous, current, kept, grown);
    ApplyConcat(base, Removals(Sorted(f.Keys - g.Keys)) + Additions(Sorted(g.Keys - f.Keys), g),
                CommonChanges(previous, current, kept));
    forall k | k in g ensures PyEq(r[k], g[k]) {
      PyEqReflexive(g[k]);
    }
  }

  lemma DeltaRestores(previous: State, current: State, base: State)
    requires PyEq(base, previous)
    ensures ApplyAll(base, Delta(previous, current)).Ok?
    ensures PyEq(ApplyAll(base, Delta(previous, current)).value, current)
  {
    hide PyEq, Changes, ApplyChanges, ApplyAll, RenderAll;
    RoundTripFromEqual(previous, current, base);
    RenderedChanges(base, Changes(previous, current));
  }

  /** The delta of two states, applied to the first, gives the second up to ==. */
  lemma RoundTrip(previous: State, current: State)
    ensures ApplyAll(previous, Delta(previous, current)).Ok?
    ensures PyEq(ApplyAll(previous, Delta(previous, current)).value, current)
  {
    PyEqReflexive(previous);
    DeltaRestores(previous, current, previous);
  }

  // ---------- what one operation touches ----------

  /** What a list of keys leads to. */
  function Get(state: State, keys: seq<string>): Option<State> {
    if keys == [] then Some(state)
    else if state.SDict? && keys[0] in state.fields then Get(state.fields[keys[0]], keys[1..])
    else None
  }

  lemma GetTop(state: State, at: seq<string>)
    requires state.SDict? && |at| == 1
    ensures Get(state, at) == if at[0] in state.fields then Some(state.fields[at[0]]) else None
    ensures at[..0] == []
  {
  }

  /** A successful operation leaves its value (or nothing) at its own keys. */
  lemma {:induction false} SetAtWrites(state: State, keys: seq<string>, op: string, value: Option<State>)
    requires keys != [] && SetAt(state, keys, op, value).Ok?
    ensures Get(SetAt(state, keys, op, value).value, keys) == if op == "remove" then None else value
  {
    if |keys| > 1 { SetAtWrites(state.fields[keys[0]], keys[1..], op, value); }
  }

  /** It changes nothing that neither lies below its keys nor contains them. */
  lemma {:induction false} SetAtFrame(
    state: State, keys: seq<string>, op: string, value: Option<State>, other: seq<string>)
    requires keys != [] && SetAt(state, keys, op, value).Ok?
    requires !(keys <= other) && !(other <= keys)
    ensures Get(SetAt(state, keys, op, value).value, other) == Get(state, other)
  {
    if |keys| > 1 && other[0] == keys[0] {
      assert keys == [keys[0]] + keys[1..] && other == [other[0]] + other[1..];
      SetAtFrame(state.fields[keys[0]], keys[1..], op, value, other[1..]);
    } else if |keys| == 1 {
      assert other[0] != keys[0];
    }
  }

  /** Which operations are carried out: those with a known name whose parent is a dictionary,
      that remove a key which is there, or have a value to put. */
  lemma {:induction false} SetAtSucceedsIff(state: State, keys: seq<string>, op: string, value: Option<State>)
    requires keys != []
    ensures
      SetAt(state, keys, op, value).Ok?
      <==>
      && Get(state, keys[..|keys| - 1]).Some? && Get(state, keys[..|keys| - 1]).value.SDict?
      && op in {"remove", "add", "replace"}
      && (op == "remove" ==> Get(state, keys).Some?)
      && (op != "remove" ==> value.Some?)
  {
    if |keys| > 1 {
      assert keys[..|keys| - 1][1..] == keys[1..][..|keys| - 2];
      if state.SDict? && keys[0] in state.fields { SetAtSucceedsIff(state.fields[keys[0]], keys[1..], op, value); }
    } else if state.SDict? {
      GetTop(state, keys);
    }
  }

  /** Operations of a delta change only the subtree at their own pointer. */
  lemma OperationTouchesOwnPointer(state: State, c: Change, other: seq<string>)
    requires c.at != [] && ApplyOperation(state, Render([], c)).Ok?
    ensures var after := ApplyOperation(state, Render([], c)).value;
            && Get(after, c.at) == (if c.Remove? then None else Some(c.value))
            && (!(c.at <= other) && !(other <= c.at) ==> Get(after, other) == Get(state, other))
  {
    RenderedChange(state, c);
    var op := if c.Remove? then "remove" else if c.Add? then "add" else "replace";
    var value := if c.Remove? then None else Some(c.value);
    SetAtWrites(state, c.at, op, value);
    if !(c.at <= other) && !(other <= c.at) { SetAtFrame(state, c.at, op, value, other); }
  }

  // ---------- what a delta holds ----------

  /** Both states have a dictionary there. */
  predicate BothDicts(previous: State, current: State, at: seq<string>) {
    && Get(previous, at).Some? && Get(previous, at).value.SDict?
    && Get(current, at).Some? && Get(current, at).value.SDict?
  }

  /** The two states differ at the place the change names, in the way it names: a key that
      only one of two dictionaries has, or values of which not both are dictionaries. */
  predicate Differs(previous: State, current: State, c: Change) {
    var x, y := Get(previous, c.at), Get(current, c.at);
    match c
    case Remove(at) => at != [] && BothDicts(previous, current, at[..|at| - 1]) && x.Some? && y.None?
    case Add(at, value) => at != [] && BothDicts(previous, current, at[..|at| - 1]) && x.None? && y == Some(value)
    case Replace(at, value) =>
      x.Some? && y == Some(value) && !BothDicts(previous, current, at) && !PyEq(x.value, value)
  }

  /** The change, seen from below its first key. */
  function Below(c: Change): Change
    requires c.at != []
  {
    match c
    case Remove(at) => Remove(at[1..])
    case Add(at, value) => Add(at[1..], value)
    case Replace(at, value) => Replace(at[1..], value)
  }

  lemma UnderHolds(key: string, changes: seq<Change>, c: Change)
    ensures c in Under(key, changes) <==> c.at != [] && c.at[0] == key && Below(c) in changes
  {
    forall i | 0 <= i < |changes|
      ensures Under(key, changes)[i].at != [] && Under(key, changes)[i].at[0] == key
      ensures Below(Under(key, changes)[i]) == changes[i]
    {
      assert ([key] + changes[i].at)[1..] == changes[i].at;
    }
    if c.at != [] && c.at[0] == key && Below(c) in changes {
      var i :| 0 <= i < |changes| && changes[i] == Below(c);
      assert [key] + c.at[1..] == c.at;
      assert Under(key, changes)[i] == c;
    }
  }

  lemma {:induction false} CommonHolds(previous: State, current: State, keys: seq<string>, c: Change)
    requires previous.SDict? && current.SDict?
    requires forall k :: k in keys ==> k in previous.fields && k in current.fields
    ensures c in CommonChanges(previous, current, keys)
            <==> c.at != [] && c.at[0] in keys
                 && Below(c) in Changes(previous.fields[c.at[0]], current.fields[c.at[0]])
  {
    hide Changes, Under, Below;
    if keys != [] {
      var n := |keys| - 1;
      CommonHolds(previous, current, keys[..n], c);
      UnderHolds(keys[n], Changes(previous.fields[keys[n]], current.fields[keys[n]]), c);
      assert c.at != [] ==> (c.at[0] in keys <==> c.at[0] in keys[..n] || c.at[0] == keys[n]);
    }
  }

  lemma BothBelow(previous: State, current: State, at: seq<string>)
    requires previous.SDict? && current.SDict? && at != []
    ensures BothDicts(previous, current, at)
            <==> at[0] in previous.fields && at[0] in current.fields
                 && BothDicts(previous.fields[at[0]], current.fields[at[0]], at[1..])
  {
  }

  /** A difference below a common key is one of the values under it. */
  lemma DiffersBelow(previous: State, current: State, c: Change)
    requires previous.SDict? && current.SDict? && c.at != []
    requires |c.at| > 1 || (c.at[0] in previous.fields && c.at[0] in current.fields)
    ensures Differs(previous, current, c)
            <==> c.at[0] in previous.fields && c.at[0] in current.fields
                 && Differs(previous.fields[c.at[0]], current.fields[c.at[0]], Below(c))
  {
    var at := c.at;
    BothBelow(previous, current, at);
    hide PyEq, BothDicts;
    if |at| > 1 {
      BothBelow(previous, current, at[..|at| - 1]);
      assert at[..|at| - 1][1..] == at[1..][..|at| - 2];
    } else {
      GetTop(previous, at);
      GetTop(current, at);
      assert Below(c).at == [];
    }
  }

  lemma RemovalsHold(keys: seq<string>, c: Change)
    ensures c in Removals(keys) <==> |c.at| == 1 && c.Remove? && c.at[0] in keys
  {
    if |c.at| == 1 && c.Remove? && c.at[0] in keys {
      var i :| 0 <= i < |keys| && keys[i] == c.at[0];
      assert Removals(keys)[i] == Remove([c.at[0]]) == c;
    }
  }

  lemma AdditionsHold(keys: seq<string>, fields: map<string, State>, c: Change)
    requires forall k :: k in keys ==> k in fields
    ensures c in Additions(keys, fields) <==> |c.at| == 1 && c.Add? && c.at[0] in keys && c.value == fields[c.at[0]]
  {
    if |c.at| == 1 && c.Add? && c.at[0] in keys && c.value == fields[c.at[0]] {
      var i :| 0 <= i < |keys| && keys[i] == c.at[0];
      assert Additions(keys, fields)[i] == Add([c.at[0]], fields[c.at[0]]) == c;
    }
  }

  lemma TopHolds(previous: State, current: State, c: Change)
    requires previous.SDict? && current.SDict?
    ensures var f, g := previous.fields, current.fields;
            c in Changes(previous, current)
            <==> (|c.at| == 1 && c.Remove? && c.at[0] in f && c.at[0] !in g)
                 || (|c.at| == 1 && c.Add? && c.at[0] !in f && c.at[0] in g && c.value == g[c.at[0]])
                 || c in CommonChanges(previous, current, Sorted(f.Keys * g.Keys))
  {
    hide CommonChanges, PyEq, SortedKeys.Sorted, Removals, Additions;
    var f, g := previous.fields, current.fields;
    RemovalsHold(Sorted(f.Keys - g.Keys), c);
    AdditionsHold(Sorted(g.Keys - f.Keys), g, c);
  }

  /** A difference at a key that only one of two dictionaries has. */
  lemma DiffersHere(previous: State, current: State, c: Change)
    requires previous.SDict? && current.SDict?
    requires |c.at| <= 1 && (c.at != [] ==> c.at[0] !in previous.fields || c.at[0] !in current.fields)
    ensures Differs(previous, current, c)
            <==> c.at != []
                 && ((c.Remove? && c.at[0] in previous.fields && c.at[0] !in current.fields)
                     || (c.Add? && c.at[0] !in previous.fields && c.at[0] in current.fields
                         && c.value == current.fields[c.at[0]]))
  {
    hide PyEq;
    if c.at != [] {
      GetTop(previous, c.at);
      GetTop(current, c.at);
    }
  }

  lemma OnlyReplaced(previous: State, current: State, c: Change)
    requires !(previous.SDict? && current.SDict?)
    ensures c in Changes(previous, current) <==> Differs(previous, current, c)
  {
    hide PyEq;
  }

  /** A delta holds exactly the differences between the two states, however deep. */
  lemma {:induction false} ChangesAreTheDifferences(previous: State, current: State, c: Change)
    ensures c in Changes(previous, current) <==> Differs(previous, current, c)
    decreases previous
  {
    if previous.SDict? && current.SDict? {
      var f, g := previous.fields, current.fields;
      var kept := Sorted(f.Keys * g.Keys);
      TopHolds(previous, current, c);
      CommonHolds(previous, current, kept, c);
      hide Changes, CommonChanges, Differs, SortedKeys.Sorted, PyEq, Below;
      if |c.at| > 1 || (c.at != [] && c.at[0] in f && c.at[0] in g) {
        DiffersBelow(previous, current, c);
        if c.at[0] in f && c.at[0] in g { ChangesAreTheDifferences(f[c.at[0]], g[c.at[0]], Below(c)); }
      } else {
        DiffersHere(previous, current, c);
      }
    } else {
      OnlyReplaced(previous, current, c);
    }
  }

  lemma {:induction false} NoCommonChangesIff(previous: State, current: State, keys: seq<string>)
    requires previous.SDict? && current.SDict?
    requires forall k :: k in keys ==> k in previous.fields && k in current.fields
    ensures CommonChanges(previous, current, keys) == []
            <==> forall k :: k in keys ==> Changes(previous.fields[k], current.fields[k]) == []
  {
    hide Changes;
    if keys != [] {
      var n := |keys| - 1;
      NoCommonChangesIff(previous, current, keys[..n]);
      var below := Changes(previous.fields[keys[n]], current.fields[keys[n]]);
      assert |Under(keys[n], below)| == |below|;
      assert forall k :: k in keys <==> k in keys[..n] || k == keys[n];
    }
  }

  lemma NoTopChangesIff(previous: State, current: State)
    requires previous.SDict? && current.SDict?
    ensures Changes(previous, current) == []
            <==> previous.fields.Keys == current.fields.Keys
                 && CommonChanges(previous, current, Sorted(previous.fields.Keys * current.fields.Keys)) == []
  {
    hide CommonChanges, PyEq, SortedKeys.Sorted;
    var f, g := previous.fields, current.fields;
    var gone, come := Sorted(f.Keys - g.Keys), Sorted(g.Keys - f.Keys);
    assert gone == [] <==> f.Keys <= g.Keys by {
      if gone == [] { forall k | k in f.Keys ensures k in g.Keys { assert k !in gone; } }
      if gone != [] { assert gone[0] in gone; }
    }
    assert come == [] <==> g.Keys <= f.Keys by {
      if come == [] { forall k | k in g.Keys ensures k in f.Keys { assert k !in come; } }
      if come != [] { assert come[0] in come; }
    }
    assert |Removals(gone)| == |gone| && |Additions(come, g)| == |come|;
  }

  /** So it is empty exactly when the states are equal. */
  lemma {:induction false} NoChangesIff(previous: State, current: State)
    ensures Changes(previous, current) == [] <==> PyEq(previous, current)
    decreases previous
  {
    if previous.SDict? && current.SDict? {
      hide Changes, CommonChanges, SortedKeys.Sorted;
      var f, g := previous.fields, current.fields;
      NoTopChangesIff(previous, current);
      NoCommonChangesIff(previous, current, Sorted(f.Keys * g.Keys));
      forall k | k in f && k in g ensures Changes(f[k], g[k]) == [] <==> PyEq(f[k], g[k]) {
        NoChangesIff(f[k], g[k]);
      }
    } else {
      hide PyEq, CommonChanges, SortedKeys.Sorted;
    }
  }

  /** The text of one difference. */
  ghost predicate Tells(previous: State, current: State, operation: Operation) {
    exists c :: Differs(previous, current, c) && operation == Render([], c)
  }

  /** The operations of a delta are the texts of the differences, and equal states need none. */
  lemma DeltaTellsTheDifferences(previous: State, current: State)
    ensures forall operation :: operation in Delta(previous, current) <==> Tells(previous, current, operation)
    ensures Delta(previous, current) == [] <==> PyEq(previous, current)
  {
    hide Changes, Differs, PyEq, Render;
    var changes := Changes(previous, current);
    NoChangesIff(previous, current);
    forall operation
      ensures operation in Delta(previous, current) <==> Tells(previous, current, operation)
    {
      if operation in Delta(previous, current) {
        var i :| 0 <= i < |changes| && Render([], changes[i]) == operation;
        ChangesAreTheDifferences(previous, current, changes[i]);
      }
      if Tells(previous, current, operation) {
        var c :| Differs(previous, current, c) && operation == Render([], c);
        ChangesAreTheDifferences(previous, current, c);
        var i :| 0 <= i < |changes| && changes[i] == c;
        assert Delta(previous, current)[i] == operation;
      }
    }
  }

  // ---------- envelopes ----------

  datatype Settings = Settings(enabled: bool, fullEvery: int)

  datatype Envelope =
    | StateFull(sequence: int, state: State)
    | StateDelta(sequence: int, baseSequence: int, operations: seq<Operation>)
    | OtherKind(kind: string)

  /** build_state_payload; a null previous state counts as none. */
  function BuildStatePayload(
    current: State, sequence: int, previous: State, baseSequence: Option<int>, settings: Settings): Result<Envelope>
  {
    if !settings.enabled || previous.SNull? then Ok(StateFull(sequence, current))
    else if settings.fullEvery == 0 then Err("ZeroDivisionError")
    else if sequence % settings.fullEvery == 0 then Ok(StateFull(sequence, current))
    else Ok(StateDelta(sequence, baseSequence.GetOr(sequence - 1), Delta(previous, current)))
  }

  function RestoreState(payload: Envelope, previous: State): Result<State> {
    match payload
    case StateFull(_, state) => Ok(state)
    case StateDelta(_, _, operations) =>
      if previous.SNull? then Err("ValueError") else ApplyAll(previous, operations)
    case OtherKind(_) => Err("ValueError")
  }

  /** The envelope of each of a run of states numbered from `first`. */
  function EnvelopeOf(states: seq<State>, first: int, settings: Settings, i: nat): Result<Envelope>
    requires i < |states|
  {
    BuildStatePayload(states[i], first + i, if i == 0 then SNull else states[i - 1], None, settings)
  }

  /** Restoring the envelopes `from` to `i` in order, starting with nothing. */
  function RestoreRun(states: seq<State>, first: int, settings: Settings, from: nat, i: nat): Result<State>
    requires from <= i < |states|
  {
    match EnvelopeOf(states, first, settings, i)
    case Err(why) => Err(why)
    case Ok(envelope) =>
      if i == from then RestoreState(envelope, SNull)
      else
        match RestoreRun(states, first, settings, from, i - 1)
        case Err(why) => Err(why)
        case Ok(before) => RestoreState(envelope, before)
  }

  lemma PayloadKinds(current: State, sequence: int, previous: State, settings: Settings)
    requires settings.fullEvery != 0
    ensures var e := BuildStatePayload(current, sequence, previous, None, settings);
            e.Ok? && (e.value == StateFull(sequence, current)
                      || (!previous.SNull? && e.value == StateDelta(sequence, sequence - 1, Delta(previous, current))))
  {
    hide Delta;
  }

  lemma RestoreOne(current: State, sequence: int, previous: State, base: State, settings: Settings)
    requires settings.fullEvery != 0 && PyEq(base, previous)
    ensures var e := BuildStatePayload(current, sequence, previous, None, settings);
            e.Ok? && RestoreState(e.value, base).Ok? && PyEq(RestoreState(e.value, base).value, current)
  {
    EqualToNull(base, previous);
    PayloadKinds(current, sequence, previous, settings);
    hide PyEq, Delta, ApplyAll, BuildStatePayload;
    PyEqReflexive(current);
    DeltaRestores(previous, current, base);
  }

  lemma EqualToNull(a: State, b: State)
    requires PyEq(a, b)
    ensures a.SNull? <==> b.SNull?
  {
  }

  /** A diff is stored exactly when there is a state to diff from and the number is no
      multiple of the period; it holds the differences to that state, and is based on the
      given number or else on the one before. */
  lemma DiffIsStoredIff(current: State, sequence: int, previous: State, base: Option<int>, settings: Settings)
    ensures
      var e := BuildStatePayload(current, sequence, previous, base, settings);
      var due := settings.enabled && previous != SNull;
      && (e.Err? <==> due && settings.fullEvery == 0)
      && (e.Ok? && e.value.StateDelta? <==> due && settings.fullEvery != 0 && sequence % settings.fullEvery != 0)
      && (e.Ok? && !e.value.StateDelta? ==> e.value == StateFull(sequence, current))
      && (e.Ok? && e.value.StateDelta? ==>
            && e.value.sequence == sequence
            && e.value.baseSequence == (if base.Some? then base.value else sequence - 1)
            && (e.value.operations == [] <==> PyEq(previous, current))
            && forall operation :: operation in e.value.operations <==> Tells(previous, current, operation))
  {
    DeltaTellsTheDifferences(previous, current);
    hide Delta, PyEq, Tells;
  }

  /** Restoring from any full envelope onwards gives back every state. */
  lemma {:induction false} RestoredRun(states: seq<State>, first: int, settings: Settings, from: nat, i: nat)
    requires settings.fullEvery != 0 && from <= i < |states|
    requires EnvelopeOf(states, first, settings, from).Ok? && EnvelopeOf(states, first, settings, from).value.StateFull?
    ensures RestoreRun(states, first, settings, from, i).Ok?
    ensures PyEq(RestoreRun(states, first, settings, from, i).value, states[i])
  {
    if i == from {
      PyEqReflexive(states[i]);
    } else {
      RestoredRun(states, first, settings, from, i - 1);
      var before := RestoreRun(states, first, settings, from, i - 1).value;
      RestoreOne(states[i], first + i, states[i - 1], before, settings);
    }
  }

  /** A consecutive run restored from its start gives back every original state. */
  lemma WholeRunRestores(states: seq<State>, first: int, settings: Settings, i: nat)
    requires settings.fullEvery != 0 && i < |states|
    ensures RestoreRun(states, first, settings, 0, i).Ok?
    ensures PyEq(RestoreRun(states, first, settings, 0, i).value, states[i])
  {
    RestoredRun(states, first, settings, 0, i);
  }

  /** Every state is rebuilt from a full envelope and at most full_every - 1 deltas. */
  lemma {:induction false} RebuiltWithinPeriod(states: seq<State>, first: int, settings: Settings, i: nat)
    returns (from: nat)
    requires settings.fullEvery >= 1 && i < |states|
    ensures from <= i && i - from <= settings.fullEvery - 1
    ensures RestoreRun(states, first, settings, from, i).Ok?
    ensures PyEq(RestoreRun(states, first, settings, from, i).value, states[i])
  {
    hide EnvelopeOf, RestoreRun, PyEq;
    var back := (first + i) % settings.fullEvery;
    from := if back <= i then i - back else 0;
    MultipleBefore(first + i, settings.fullEvery);
    FullAtMultiple(states, first, settings, from);
    RestoredRun(states, first, settings, from, i);
  }

  lemma FullAtMultiple(states: seq<State>, first: int, settings: Settings, i: nat)
    requires settings.fullEvery >= 1 && i < |states| && (i == 0 || (first + i) % settings.fullEvery == 0)
    ensures EnvelopeOf(states, first, settings, i).Ok? && EnvelopeOf(states, first, settings, i).value.StateFull?
  {
  }

  lemma MultipleBefore(n: int, d: int)
    requires d >= 1
    ensures 0 <= n % d < d && (n - n % d) % d == 0
  {
    var q := n / d;
    assert n - n % d == q * d;
    RemainderUnique(q * d, d, q, 0);
  }
}
