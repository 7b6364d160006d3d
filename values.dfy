/**
 * JSON-like dynamic values, as held in the override maps, and the dot-path
 * update that `addOverride` performs on them.
 */
module Values {
  import opened Wrappers

  /** A JSON-compatible value; `Obj` is a JavaScript plain object. */
  datatype Value =
    | Null
    | Bool(b: bool)
    | Num(n: int)
    | Str(s: string)
    | Arr(items: seq<Value>)
    | Obj(fields: map<string, Value>)

  /** A list of strings as a list of string values. */
  function Strs(ss: seq<string>): (r: seq<Value>)
    ensures |r| == |ss| && forall i :: 0 <= i < |ss| ==> r[i] == Str(ss[i])
  {
    seq(|ss|, i requires 0 <= i < |ss| => Str(ss[i]))
  }

  /** True when `m[key]` is a plain object (not missing, not null, not an array, not a scalar). */
  predicate IsObjectAt(m: map<string, Value>, key: string)
  {
    key in m && m[key].Obj?
  }

  /**
   * One step of the `addOverride` walk: the object stored under `key`, or a
   * fresh `{}` when the value there is missing, null, an array or a scalar.
   */
  function Step(m: map<string, Value>, key: string): map<string, Value>
  {
    if IsObjectAt(m, key) then m[key].fields else map[]
  }

  /** The object the walk has reached after consuming `keys`. */
  function Descend(m: map<string, Value>, keys: seq<string>): map<string, Value>
    decreases |keys|
  {
    if |keys| == 0 then m else Step(Descend(m, keys[..|keys| - 1]), keys[|keys| - 1])
  }

  /**
   * The map after `addOverride(parts.join("."), v)`: intermediate keys that do
   * not hold an object get a fresh `{}`, objects found on the way are kept with
   * their other keys, and the last key receives `v`.
   */
  function SetPath(m: map<string, Value>, parts: seq<string>, v: Value): (r: map<string, Value>)
    requires |parts| >= 1
    ensures r.Keys == m.Keys + {parts[0]}
    ensures forall k :: k in m && k != parts[0] ==> r[k] == m[k]
    ensures |parts| == 1 ==> r[parts[0]] == v
    ensures |parts| >= 2 ==> r[parts[0]].Obj?
    ensures |parts| >= 2 && !IsObjectAt(m, parts[0]) ==> r[parts[0]].fields.Keys == {parts[1]}
    ensures |parts| >= 2 && IsObjectAt(m, parts[0]) ==>
      r[parts[0]].fields.Keys == m[parts[0]].fields.Keys + {parts[1]}
    decreases |parts|
  {
    if |parts| == 1 then m[parts[0] := v]
    else m[parts[0] := Obj(SetPath(Step(m, parts[0]), parts[1..], v))]
  }

  /** One more key walked: the walk over `keys[..i+1]` is one `Step` past the walk over `keys[..i]`. */
  lemma DescendSnoc(m: map<string, Value>, keys: seq<string>, i: nat)
    requires i < |keys|
    ensures Descend(m, keys[..i + 1]) == Step(Descend(m, keys[..i]), keys[i])
  {
    assert keys[..i + 1][..i] == keys[..i];
  }

  /** Setting the rest of the path from level `i` writes the update of level `i + 1` back under `parts[i]`. */
  lemma SetPathFromLevel(m: map<string, Value>, parts: seq<string>, i: nat, v: Value)
    requires i + 1 < |parts|
    ensures SetPath(Descend(m, parts[..i]), parts[i..], v) ==
      Descend(m, parts[..i])[parts[i] := Obj(SetPath(Descend(m, parts[..i + 1]), parts[i + 1..], v))]
  {
    DescendSnoc(m, parts, i);
    assert parts[i..][0] == parts[i] && parts[i..][1..] == parts[i + 1..];
  }

  /**
   * The `addOverride` walk as a loop: go down the parts, remembering the
   * object met at every level (a fresh `{}` where there was none), store `v`
   * under the last part, then write every level back into the one above.
   */
  method StorePath(root: map<string, Value>, parts: seq<string>, v: Value) returns (acc: map<string, Value>)
    requires |parts| >= 1
    ensures acc == SetPath(root, parts, v)
  {
    var spine: seq<map<string, Value>> := [];
    var curr := root;
    var i := 0;
    while i < |parts| - 1
      invariant 0 <= i <= |parts| - 1
      invariant |spine| == i
      invariant forall j :: 0 <= j < i ==> spine[j] == Descend(root, parts[..j])
      invariant curr == Descend(root, parts[..i])
    {
      DescendSnoc(root, parts, i);
      spine := spine + [curr];
      curr := Step(curr, parts[i]);
      i := i + 1;
    }
    acc := curr[parts[i] := v];
    assert parts[i..] == [parts[i]];
    while i > 0
      invariant 0 <= i <= |parts| - 1
      invariant acc == SetPath(Descend(root, parts[..i]), parts[i..], v)
    {
      i := i - 1;
      SetPathFromLevel(root, parts, i, v);
      acc := spine[i][parts[i] := Obj(acc)];
    }
    assert parts[..0] == [] && parts[0..] == parts;
  }

  /** Reading the dot path `m.p0.p1...`: None when a key is missing or an intermediate is not an object. */
  function GetPath(m: map<string, Value>, parts: seq<string>): Option<Value>
    requires |parts| >= 1
    decreases |parts|
  {
    if parts[0] !in m then None
    else if |parts| == 1 then Some(m[parts[0]])
    else if m[parts[0]].Obj? then GetPath(m[parts[0]].fields, parts[1..])
    else None
  }

  /** Every key of `keys`, walked from `m`, names an object. */
  predicate ObjectsAlong(m: map<string, Value>, keys: seq<string>)
    decreases |keys|
  {
    |keys| == 0 || (IsObjectAt(m, keys[0]) && ObjectsAlong(m[keys[0]].fields, keys[1..]))
  }

  /** After setting a path, reading it back gives the value that was set. */
  lemma {:induction false} GetAfterSet(m: map<string, Value>, parts: seq<string>, v: Value)
    requires |parts| >= 1
    ensures GetPath(SetPath(m, parts, v), parts) == Some(v)
    decreases |parts|
  {
    if |parts| > 1 {
      GetAfterSet(Step(m, parts[0]), parts[1..], v);
    }
  }

  /**
   * Setting a path leaves every other path alone when the two part ways at
   * position `j` and the shared prefix holds objects: existing intermediate
   * objects keep their other keys.
   */
  lemma {:induction false} SetKeepsOtherPaths(m: map<string, Value>, parts: seq<string>, q: seq<string>, j: nat, v: Value)
    requires j < |parts| && j < |q|
    requires parts[..j] == q[..j] && parts[j] != q[j]
    requires ObjectsAlong(m, q[..j])
    ensures GetPath(SetPath(m, parts, v), q) == GetPath(m, q)
    decreases j
  {
    var r := SetPath(m, parts, v);
    if j > 0 {
      assert parts[0] == parts[..j][0] == q[..j][0] == q[0];
      assert q[..j][1..] == q[1..][..j - 1];
      assert parts[1..][..j - 1] == parts[..j][1..];
      var f := m[q[0]].fields;
      assert Step(m, parts[0]) == f;
      SetKeepsOtherPaths(f, parts[1..], q[1..], j - 1, v);
    }
  }
}
