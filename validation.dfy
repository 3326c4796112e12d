/**
 * Sentinel normalisation of request payloads (src/utils/validation.js).
 *
 * `validateObjectRecursive` walks a payload and rewrites, in place, every
 * property and every array element that holds the string "undefined" to
 * `undefined` and every one that holds the string "null" to `null`, at any
 * depth. Payloads are finite trees here; the walk is modelled on values: the
 * method returns the tree the in-place walk leaves behind.
 */
module Validation {
  import opened Wrappers

  /** A request payload: a finite JSON-like tree with JavaScript's two empty values. */
  datatype Value =
    | Undefined
    | Null
    | Bool(b: bool)
    | Num(n: int)
    | Str(s: string)
    | Arr(items: seq<Value>)
    | Obj(members: seq<Member>)
  {
    /** JavaScript truthiness. */
    predicate Truthy() {
      match this
      case Undefined => false
      case Null => false
      case Bool(b) => b
      case Num(n) => n != 0
      case Str(s) => s != ""
      case _ => true
    }

    /** `Object.keys(this).length`: a string's keys are its character indices. */
    function KeyCount(): nat {
      match this
      case Str(s) => |s|
      case Arr(items) => |items|
      case Obj(members) => |members|
      case _ => 0
    }

    /** `typeof this === "object"` (true of `null` as well). */
    predicate IsObjectType() {
      Null? || Arr? || Obj?
    }
  }

  /** One own property of an object, in `Object.keys` order. */
  datatype Member = Member(key: string, value: Value)

  const UndefinedSentinel: string := "undefined"
  const NullSentinel: string := "null"

  predicate IsSentinel(v: Value) {
    v == Str(UndefinedSentinel) || v == Str(NullSentinel)
  }

  /** A value with no properties to visit. */
  predicate IsScalar(v: Value) {
    !v.Arr? && !v.Obj?
  }

  function Keys(members: seq<Member>): seq<string> {
    seq(|members|, i requires 0 <= i < |members| => members[i].key)
  }

  /** The value of the last property named `key` (a later definition of a key wins). */
  function Field(v: Value, key: string): Value {
    if v.Obj? then FieldIn(v.members, key) else Undefined
  }

  function FieldIn(members: seq<Member>, key: string): Value {
    if members == [] then Undefined
    else if members[|members| - 1].key == key then members[|members| - 1].value
    else FieldIn(members[..|members| - 1], key)
  }

  // ---------------------------------------------------------------------------
  // Specification of the walk

  /** What a property or array element holds after its parent has been visited. */
  function NormalizeSlot(v: Value): Value
    decreases v, 1
  {
    if v == Str(UndefinedSentinel) then Undefined
    else if v == Str(NullSentinel) then Null
    else Normalize(v)
  }

  /**
   * The tree left behind by `validateObjectRecursive(v)`: every property of
   * every object and every element of every array goes through NormalizeSlot.
   * The root itself is never replaced (a caller's reference cannot be).
   */
  function Normalize(v: Value): Value
    decreases v, 0
  {
    match v
    case Arr(items) =>
      Arr(seq(|items|, i requires 0 <= i < |items| => NormalizeSlot(items[i])))
    case Obj(members) =>
      Obj(seq(|members|, i requires 0 <= i < |members| =>
        Member(members[i].key, NormalizeSlot(members[i].value))))
    case _ => v
  }

  /** No property and no element, at any depth, holds a sentinel string. */
  predicate Clean(v: Value)
    decreases v
  {
    match v
    case Arr(items) =>
      forall i | 0 <= i < |items| :: !IsSentinel(items[i]) && Clean(items[i])
    case Obj(members) =>
      forall i | 0 <= i < |members| :: !IsSentinel(members[i].value) && Clean(members[i].value)
    case _ => true
  }

  /**
   * The value reached from `v` by positional steps: step `i` goes to the
   * i-th property of an object or the i-th element of an array.
   */
  function At(v: Value, path: seq<nat>): Option<Value>
    decreases |path|
  {
    if path == [] then Some(v)
    else
      match v
      case Arr(items) => if path[0] < |items| then At(items[path[0]], path[1..]) else None
      case Obj(members) => if path[0] < |members| then At(members[path[0]].value, path[1..]) else None
      case _ => None
  }

  // ---------------------------------------------------------------------------
  // Properties of the specification

  /**
   * Pointwise meaning of the walk. Every position exists before iff it exists
   * after; below the root a sentinel string becomes `undefined` or `null`;
   * every other scalar is left as it was; objects keep their keys in order and
   * arrays their length.
   */
  lemma {:induction false} NormalizeAt(v: Value, path: seq<nat>)
    ensures At(Normalize(v), path).Some? <==> At(v, path).Some?
    ensures path != [] && At(v, path) == Some(Str(UndefinedSentinel)) ==>
      At(Normalize(v), path) == Some(Undefined)
    ensures path != [] && At(v, path) == Some(Str(NullSentinel)) ==>
      At(Normalize(v), path) == Some(Null)
    ensures (At(v, path).Some? && IsScalar(At(v, path).value)
             && (path == [] || !IsSentinel(At(v, path).value))) ==>
      At(Normalize(v), path) == At(v, path)
    ensures At(v, path).Some? && At(v, path).value.Obj? ==>
      At(Normalize(v), path).Some? && At(Normalize(v), path).value.Obj?
      && Keys(At(Normalize(v), path).value.members) == Keys(At(v, path).value.members)
    ensures At(v, path).Some? && At(v, path).value.Arr? ==>
      At(Normalize(v), path).Some? && At(Normalize(v), path).value.Arr?
      && |At(Normalize(v), path).value.items| == |At(v, path).value.items|
    decreases |path|
  {
    if path == [] {
      if v.Obj? {
        assert Keys(Normalize(v).members) == Keys(v.members);
      }
    } else {
      match v
      case Arr(items) =>
        if path[0] < |items| {
          var child := items[path[0]];
          assert At(Normalize(v), path) == At(NormalizeSlot(child), path[1..]);
          if !IsSentinel(child) {
            NormalizeAt(child, path[1..]);
          }
        }
      case Obj(members) =>
        if path[0] < |members| {
          var child := members[path[0]].value;
          assert At(Normalize(v), path) == At(NormalizeSlot(child), path[1..]);
          if !IsSentinel(child) {
            NormalizeAt(child, path[1..]);
          }
        }
      case _ =>
    }
  }

  /** No step of the walk produces a sentinel string. */
  lemma {:induction false} NormalizeIsClean(v: Value)
    ensures Clean(Normalize(v))
    decreases v
  {
    match v
    case Arr(items) =>
      var r := Normalize(v);
      forall i | 0 <= i < |items|
        ensures !IsSentinel(r.items[i]) && Clean(r.items[i])
      {
        assert r.items[i] == NormalizeSlot(items[i]);
        if !IsSentinel(items[i]) {
          NormalizeIsClean(items[i]);
        }
      }
    case Obj(members) =>
      var r := Normalize(v);
      forall i | 0 <= i < |members|
        ensures !IsSentinel(r.members[i].value) && Clean(r.members[i].value)
      {
        assert r.members[i].value == NormalizeSlot(members[i].value);
        if !IsSentinel(members[i].value) {
          NormalizeIsClean(members[i].value);
        }
      }
    case _ =>
  }

  /** A tree without sentinels is left exactly as it is. */
  lemma {:induction false} CleanIsFixed(v: Value)
    requires Clean(v)
    ensures Normalize(v) == v
    decreases v
  {
    match v
    case Arr(items) =>
      forall i | 0 <= i < |items|
        ensures NormalizeSlot(items[i]) == items[i]
      {
        CleanIsFixed(items[i]);
      }
      assert Normalize(v).items == items;
    case Obj(members) =>
      forall i | 0 <= i < |members|
        ensures Member(members[i].key, NormalizeSlot(members[i].value)) == members[i]
      {
        CleanIsFixed(members[i].value);
      }
      assert Normalize(v).members == members;
    case _ =>
  }

  /** The walk changes a tree exactly when the tree holds a sentinel below its root. */
  lemma NormalizeFixedPoints(v: Value)
    ensures Normalize(v) == v <==> Clean(v)
  {
    NormalizeIsClean(v);
    if Clean(v) {
      CleanIsFixed(v);
    }
  }

  /** A second walk over an already normalised tree changes nothing. */
  lemma NormalizeIdempotent(v: Value)
    ensures Normalize(Normalize(v)) == Normalize(v)
  {
    NormalizeIsClean(v);
    CleanIsFixed(Normalize(v));
  }

  /** A falsy value, or one without keys, is left as it is (line 2). */
  lemma NormalizeNoOp(v: Value)
    requires !v.Truthy() || v.KeyCount() == 0
    ensures Normalize(v) == v
  {
    match v
    case Arr(items) => assert Normalize(v).items == [];
    case Obj(members) => assert Normalize(v).members == [];
    case _ =>
  }

  // ---------------------------------------------------------------------------
  // A size measure: the walk re-visits array elements it has already rewritten,
  // so its termination is argued on sizes, which the walk preserves.

  function Size(v: Value): nat {
    match v
    case Arr(items) => 1 + ItemsSize(items)
    case Obj(members) => 1 + MembersSize(members)
    case _ => 1
  }

  function ItemsSize(items: seq<Value>): nat {
    if items == [] then 0 else Size(items[0]) + ItemsSize(items[1..])
  }

  function MembersSize(members: seq<Member>): nat {
    if members == [] then 0 else Size(members[0].value) + MembersSize(members[1..])
  }

  lemma {:induction false} ItemSmaller(items: seq<Value>, i: nat)
    requires i < |items|
    ensures Size(items[i]) <= ItemsSize(items)
    decreases i
  {
    if i > 0 {
      ItemSmaller(items[1..], i - 1);
    }
  }

  lemma {:induction false} MemberSmaller(members: seq<Member>, i: nat)
    requires i < |members|
    ensures Size(members[i].value) <= MembersSize(members)
    decreases i
  {
    if i > 0 {
      MemberSmaller(members[1..], i - 1);
    }
  }

  lemma {:induction false} ItemsSizeAlike(a: seq<Value>, b: seq<Value>)
    requires |a| == |b|
    requires forall i | 0 <= i < |a| :: Size(a[i]) == Size(b[i])
    ensures ItemsSize(a) == ItemsSize(b)
    decreases |a|
  {
    if a != [] {
      ItemsSizeAlike(a[1..], b[1..]);
    }
  }

  lemma {:induction false} MembersSizeAlike(a: seq<Member>, b: seq<Member>)
    requires |a| == |b|
    requires forall i | 0 <= i < |a| :: Size(a[i].value) == Size(b[i].value)
    ensures MembersSize(a) == MembersSize(b)
    decreases |a|
  {
    if a != [] {
      MembersSizeAlike(a[1..], b[1..]);
    }
  }

  /** The walk replaces only leaves by leaves, so the size of the tree is unchanged. */
  lemma {:induction false} NormalizeKeepsSize(v: Value)
    ensures Size(Normalize(v)) == Size(v)
    decreases v
  {
    match v
    case Arr(items) =>
      var r := Normalize(v).items;
      forall i | 0 <= i < |items|
        ensures Size(r[i]) == Size(items[i])
      {
        assert r[i] == NormalizeSlot(items[i]);
        if !IsSentinel(items[i]) {
          NormalizeKeepsSize(items[i]);
        }
      }
      ItemsSizeAlike(r, items);
    case Obj(members) =>
      var r := Normalize(v).members;
      forall i | 0 <= i < |members|
        ensures Size(r[i].value) == Size(members[i].value)
      {
        assert r[i].value == NormalizeSlot(members[i].value);
        if !IsSentinel(members[i].value) {
          NormalizeKeepsSize(members[i].value);
        }
      }
      MembersSizeAlike(r, members);
    case _ =>
  }

  // ---------------------------------------------------------------------------
  // The walk itself

  /**
   * `validateObjectRecursive(object)` (lines 1-3 and 18-20): a truthy value
   * with at least one key has each of its keys visited in order; the result
   * is the tree as the in-place rewrite leaves it.
   */
  method ValidateObjectRecursive(v: Value) returns (r: Value)
    ensures r == Normalize(v)
    decreases Size(v), 0
  {
    if !v.Truthy() || v.KeyCount() == 0 {
      return v;
    }
    match v {
      case Obj(members) =>
        var ms := members;
        var i := 0;
        while i < |ms|
          invariant 0 <= i <= |ms| == |members|
          invariant forall k | 0 <= k < i ::
            ms[k] == Member(members[k].key, NormalizeSlot(members[k].value))
          invariant forall k | i <= k < |ms| :: ms[k] == members[k]
        {
          MemberSmaller(members, i);
          var value := VisitProperty(ms[i].value);
          ms := ms[i := Member(ms[i].key, value)];
          i := i + 1;
        }
        r := Obj(ms);
      case Arr(items) =>
        // Object.keys of an array enumerates its indices.
        var xs := items;
        var i := 0;
        while i < |xs|
          invariant 0 <= i <= |xs| == |items|
          invariant forall k | 0 <= k < i :: xs[k] == NormalizeSlot(items[k])
          invariant forall k | i <= k < |xs| :: xs[k] == items[k]
        {
          ItemSmaller(items, i);
          var value := VisitProperty(xs[i]);
          xs := xs[i := value];
          i := i + 1;
        }
        r := Arr(xs);
      case _ =>
        // A non-empty string: its keys are character indices, no single
        // character is a sentinel and a string cannot be changed.
        r := v;
    }
  }

  /**
   * The callback run for one key (lines 4-17), `x` being `object[key]`: the
   * result is what the property holds once the callback returns. Elements of
   * an array are properties keyed by their index, so they take this path too.
   */
  method VisitProperty(x: Value) returns (y: Value)
    ensures y == NormalizeSlot(x)
    decreases Size(x), 1
  {
    y := x;
    if y == Str(UndefinedSentinel) {
      y := Undefined;
    }
    if y == Str(NullSentinel) {
      y := Null;
    }
    if y.IsObjectType() {
      y := ValidateObjectRecursive(y);
    }
    if y.Arr? {
      // The elements are visited a second time, each as the root of a walk.
      assert x.Arr? && y == Normalize(x);
      NormalizeKeepsSize(x);
      NormalizeIsClean(x);
      var children := y.items;
      var j := 0;
      while j < |children|
        invariant 0 <= j <= |children|
        invariant children == y.items
      {
        ItemSmaller(children, j);
        CleanIsFixed(children[j]);
        var child := ValidateObjectRecursive(children[j]);
        children := children[j := child];
        j := j + 1;
      }
      y := Arr(children);
    }
  }
}
