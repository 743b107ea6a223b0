/**
 * The helpers of src/utils/util.js that the connector depends on: the
 * status-bit, transport-mode and return-code constants, the structural copy
 * `clone` and the jQuery-style merge `extendObj`.
 */
module Util {
  import opened Json
  import opened Indicator

  // CommStatus: progress bits
  const LB: nat := 1
  const SIGN: nat := 2
  const SIGN_CODE: nat := 4
  const OPEN_ID: nat := 8
  const LOGINED: nat := 16
  // CommStatus: requirement bits
  const REQ_SIGN: nat := 1024
  const REQ_LB: nat := 2048
  const REQ_OPEN_ID: nat := 4096

  /** Every CommStatus value, in declaration order, and the bit each one is. */
  const CommStatusValues: seq<nat> := [LB, SIGN, SIGN_CODE, OPEN_ID, LOGINED, REQ_SIGN, REQ_LB, REQ_OPEN_ID]
  const CommStatusBitIndex: seq<nat> := [0, 1, 2, 3, 4, 10, 11, 12]
  /** The first five CommStatus values are progress bits, the last three requirement bits. */
  const ProgressCount: nat := 5

  // CommMode
  const MODE_WS: string := "webSocket"
  const MODE_GET: string := "get"
  const MODE_POST: string := "post"

  // ReturnCode
  const SUCCESS: int := 0

  /**
   * Each CommStatus value is a single power of two, the bits are pairwise
   * distinct, and every progress bit lies below every requirement bit.
   */
  lemma CommStatusBits()
    ensures |CommStatusValues| == |CommStatusBitIndex| == 8
    ensures forall i :: 0 <= i < 8 ==> CommStatusValues[i] == Pow2(CommStatusBitIndex[i])
    ensures forall i, j :: 0 <= i < j < 8 ==> CommStatusBitIndex[i] < CommStatusBitIndex[j]
    ensures forall i, j :: 0 <= i < ProgressCount <= j < 8 ==> CommStatusBitIndex[i] < 5 <= 10 <= CommStatusBitIndex[j]
  {
    assert Pow2(1) == 2;
    assert Pow2(2) == 4;
    assert Pow2(3) == 8;
    assert Pow2(4) == 16;
    assert Pow2(5) == 32;
    assert Pow2(6) == 64;
    assert Pow2(7) == 128;
    assert Pow2(8) == 256;
    assert Pow2(9) == 512;
    assert Pow2(10) == 1024;
    assert Pow2(11) == 2048;
    assert Pow2(12) == 4096;
  }

  /** The named bits, as powers of two, for use by the session model. */
  lemma CommStatusPowers()
    ensures LB == Pow2(0) && SIGN == Pow2(1) && SIGN_CODE == Pow2(2)
    ensures OPEN_ID == Pow2(3) && LOGINED == Pow2(4)
    ensures REQ_SIGN == Pow2(10) && REQ_LB == Pow2(11) && REQ_OPEN_ID == Pow2(12)
  {
    CommStatusBits();
    assert CommStatusValues[7] == Pow2(CommStatusBitIndex[7]);
    assert CommStatusValues[6] == Pow2(CommStatusBitIndex[6]);
    assert CommStatusValues[5] == Pow2(CommStatusBitIndex[5]);
  }

  /**
   * Setting a requirement bit never changes whether a progress bit checks,
   * and setting a progress bit never changes whether a requirement bit checks.
   */
  lemma ProgressIndependentOfRequirements(v: nat, p: nat, q: nat)
    requires 0 <= p < ProgressCount <= q < |CommStatusValues|
    ensures Check(Set(v, CommStatusValues[q]), CommStatusValues[p]) <==> Check(v, CommStatusValues[p])
    ensures Check(Set(v, CommStatusValues[p]), CommStatusValues[q]) <==> Check(v, CommStatusValues[q])
  {
    CommStatusBits();
    SetSingleBit(v, CommStatusBitIndex[q], CommStatusBitIndex[p]);
    SetSingleBit(v, CommStatusBitIndex[p], CommStatusBitIndex[q]);
  }

  // ---------------------------------------------------------------- clone

  /**
   * `clone(obj)`: null, undefined and primitives are returned as they are;
   * an array becomes a new array of the cloned elements, an object a new
   * object holding a clone of each own field. The copy is structurally equal
   * to its input.
   */
  function Clone(v: Value): (r: Value)
    ensures r == v
    decreases v
  {
    match v
    case Arr(e) =>
      var copy := seq(|e|, i requires 0 <= i < |e| => Clone(e[i]));
      assert copy == e;
      Arr(copy)
    case Obj(m) =>
      var copy := map k | k in m :: Clone(m[k]);
      assert copy == m;
      Obj(copy)
    case _ => v
  }

  /** Clone keeps the shape of arrays and objects, element by element. */
  lemma {:induction false} CloneShape(v: Value)
    ensures v.Arr? ==> (Clone(v).Arr? && |Clone(v).elems| == |v.elems| &&
                        forall i :: 0 <= i < |v.elems| ==> Clone(v).elems[i] == Clone(v.elems[i]))
    ensures v.Obj? ==> (Clone(v).Obj? && Clone(v).fields.Keys == v.fields.Keys &&
                        forall k :: k in v.fields ==> Clone(v).fields[k] == Clone(v.fields[k]))
  {
  }

  // ------------------------------------------------------------ extendObj

  function MapGet(t: map<string, Value>, k: string): Value {
    if k in t then t[k] else Undefined
  }

  /**
   * Whether `extendObj` writes a key: the source value differs from the
   * target's current value (`src === copy` skips) and is not undefined.
   */
  predicate Writes(src: Value, copy: Value) {
    src != copy && copy != Undefined
  }

  /**
   * The value a key holds after merging `copy` over `src`: unchanged when
   * nothing is written; in deep mode an object or array is merged
   * recursively into the existing one (or a fresh one); otherwise `copy`.
   */
  function MergedField(src: Value, copy: Value, deep: bool): Value
    decreases copy, 2
  {
    if !Writes(src, copy) then src
    else if deep && (copy.Obj? || copy.Arr?) then DeepMerge(src, copy)
    else copy
  }

  /**
   * The recursive call `extendObj(deep, clone, copy)`: `clone` is the
   * existing value when it has the same kind as `copy`, else an empty one.
   */
  function DeepMerge(src: Value, copy: Value): Value
    requires copy.Obj? || copy.Arr?
    decreases copy, 1
  {
    if copy.Obj? then
      var base := if src.Obj? then src.fields else map[];
      Obj(MergeOn(base, copy.fields, copy.fields.Keys, true))
    else
      var base := if src.Arr? then src.elems else [];
      Arr(MergeElems(base, copy.elems, 0))
  }

  /**
   * The target object after the keys `done` of the source `s` have been
   * visited by the inner `for (name in options)` loop.
   */
  function MergeOn(t: map<string, Value>, s: map<string, Value>, done: set<string>, deep: bool): map<string, Value>
    decreases Obj(s), 0
  {
    map k | k in t.Keys + (set j | j in s && j in done && Writes(MapGet(t, j), s[j])) ::
      if k in s && k in done then MergedField(MapGet(t, k), s[k], deep) else t[k]
  }

  /** Key by key: which keys the merged object has, and what each holds. */
  lemma MergeOnFacts(t: map<string, Value>, s: map<string, Value>, done: set<string>, deep: bool)
    ensures forall k :: k in MergeOn(t, s, done, deep) <==>
      (k in t || (k in s && k in done && Writes(MapGet(t, k), s[k])))
    ensures forall k :: k in MergeOn(t, s, done, deep) ==>
      MergeOn(t, s, done, deep)[k] == if k in s && k in done then MergedField(MapGet(t, k), s[k], deep) else t[k]
  {
  }

  /** `arr[i] = v` on a JavaScript array: writing past the end leaves holes. */
  function StoreAt(a: seq<Value>, i: nat, v: Value): (r: seq<Value>)
    ensures |r| == if i < |a| then |a| else i + 1
    ensures r[i] == v
    ensures forall j :: 0 <= j < |a| && j != i ==> r[j] == a[j]
    ensures forall j :: |a| <= j < i ==> r[j] == Undefined
  {
    if i < |a| then a[i := v] else a + seq(i - |a|, _ => Undefined) + [v]
  }

  /** Deep merge of an array source into an array target, index by index. */
  function MergeElems(cur: seq<Value>, c: seq<Value>, i: nat): seq<Value>
    decreases Arr(c), 0, |c| - i
  {
    if i >= |c| then cur
    else
      var src := if i < |cur| then cur[i] else Undefined;
      var next := if Writes(src, c[i]) then StoreAt(cur, i, MergedField(src, c[i], true)) else cur;
      MergeElems(next, c, i + 1)
  }

  /**
   * One source merged into the target. Null, undefined and primitive
   * sources contribute no keys. In shallow mode every key the source
   * defines (with a value other than undefined) takes the source's value,
   * and every other key keeps the target's value.
   */
  function MergeOne(t: map<string, Value>, src: Value, deep: bool): (r: map<string, Value>)
    ensures forall k :: k in t ==> k in r
    ensures !deep ==> forall k :: src.Obj? && k in src.fields && src.fields[k] != Undefined ==>
      k in r && r[k] == src.fields[k]
    ensures forall k :: !(src.Obj? && k in src.fields && src.fields[k] != Undefined) ==>
      (k in r <==> k in t) && (k in t ==> r[k] == t[k])
  {
    if src.Obj? then
      MergeOnFacts(t, src.fields, src.fields.Keys, deep);
      MergeOn(t, src.fields, src.fields.Keys, deep)
    else t
  }

  /**
   * `extendObj(deep, target, s1, ..., sn)`: the sources are merged in
   * order, left to right.
   */
  function MergeAll(t: map<string, Value>, srcs: seq<Value>, deep: bool): map<string, Value>
    decreases |srcs|
  {
    if srcs == [] then t
    else MergeOne(MergeAll(t, srcs[..|srcs| - 1], deep), srcs[|srcs| - 1], deep)
  }

  /** The value that the last source defining `k` (not as undefined) gives it. */
  function LastDefined(srcs: seq<Value>, k: string): Option<Value>
    decreases |srcs|
  {
    if srcs == [] then None
    else
      var last := srcs[|srcs| - 1];
      if last.Obj? && k in last.fields && last.fields[k] != Undefined then Some(last.fields[k])
      else LastDefined(srcs[..|srcs| - 1], k)
  }

  /**
   * A shallow `extendObj` over several sources: the last source that
   * defines a key wins, and a key no source defines keeps its target value
   * (or stays absent).
   */
  lemma {:induction false} LastSourceWins(t: map<string, Value>, srcs: seq<Value>, k: string)
    ensures LastDefined(srcs, k).Some? ==>
      k in MergeAll(t, srcs, false) && MergeAll(t, srcs, false)[k] == LastDefined(srcs, k).value
    ensures LastDefined(srcs, k).None? ==>
      (k in MergeAll(t, srcs, false) <==> k in t) && (k in t ==> MergeAll(t, srcs, false)[k] == t[k])
    decreases |srcs|
  {
    if srcs != [] {
      LastSourceWins(t, srcs[..|srcs| - 1], k);
    }
  }

  /** Merging an object into itself changes nothing (`src === copy` everywhere). */
  lemma SelfMerge(a: map<string, Value>, deep: bool)
    ensures MergeOn(a, a, a.Keys, deep) == a
  {
  }

  /**
   * A deep `extendObj`: a plain-object source value is merged recursively
   * into the plain object the target already holds, so the target's nested
   * keys that the source does not define survive.
   */
  lemma DeepMergesNestedObjects(t: map<string, Value>, s: map<string, Value>, k: string)
    requires k in t && k in s && t[k].Obj? && s[k].Obj?
    ensures var r := MergeOne(t, Obj(s), true);
      k in r && r[k] == Obj(MergeOn(t[k].fields, s[k].fields, s[k].fields.Keys, true))
    ensures var r := MergeOne(t, Obj(s), true);
      forall j :: j in t[k].fields && !(j in s[k].fields && s[k].fields[j] != Undefined) ==>
        r[k].Obj? && j in r[k].fields && r[k].fields[j] == t[k].fields[j]
  {
    MergeOnFacts(t, s, s.Keys, true);
    var r := MergeOne(t, Obj(s), true);
    assert r == MergeOn(t, s, s.Keys, true);
    assert r[k] == MergedField(t[k], s[k], true);
    var inner := MergeOn(t[k].fields, s[k].fields, s[k].fields.Keys, true);
    if t[k] == s[k] {
      SelfMerge(t[k].fields, true);
      assert inner == t[k].fields;
    } else {
      assert r[k] == DeepMerge(t[k], s[k]);
    }
    assert inner == MergeOne(t[k].fields, s[k], true);
  }

  lemma MergeOnNone(t: map<string, Value>, s: map<string, Value>, deep: bool)
    ensures MergeOn(t, s, {}, deep) == t
  {
  }

  /** Visiting one more key of the source changes at most that key. */
  lemma MergeOnStep(t: map<string, Value>, s: map<string, Value>, done: set<string>, k: string, deep: bool)
    requires k in s && k !in done
    ensures MapGet(MergeOn(t, s, done, deep), k) == MapGet(t, k)
    ensures MergeOn(t, s, done + {k}, deep) ==
      if Writes(MapGet(t, k), s[k]) then MergeOn(t, s, done, deep)[k := MergedField(MapGet(t, k), s[k], deep)]
      else MergeOn(t, s, done, deep)
  {
    var before := MergeOn(t, s, done, deep);
    var after := MergeOn(t, s, done + {k}, deep);
    if Writes(MapGet(t, k), s[k]) {
      assert after.Keys == before.Keys + {k};
      assert after == before[k := MergedField(MapGet(t, k), s[k], deep)];
    } else {
      assert after.Keys == before.Keys;
      assert forall j :: j in after ==> after[j] == before[j];
    }
  }

  /** The inner loop of `extendObj`: the keys of one object source, in any order. */
  method MergeSource(deep: bool, target: JsObject, opts: map<string, Value>)
    requires target.Valid()
    modifies target
    ensures target.Valid()
    ensures target.props.fields == MergeOn(old(target.props.fields), opts, opts.Keys, deep)
    ensures |old(target.props.keys)| <= |target.props.keys|
    ensures target.props.keys[..|old(target.props.keys)|] == old(target.props.keys)
  {
    ghost var base := target.props.fields;
    ghost var k0 := target.props.keys;
    var rest := opts.Keys;
    MergeOnNone(base, opts, deep);
    while rest != {}
      invariant rest <= opts.Keys
      invariant target.Valid()
      invariant target.props.fields == MergeOn(base, opts, opts.Keys - rest, deep)
      invariant |k0| <= |target.props.keys| && target.props.keys[..|k0|] == k0
      decreases rest
    {
      var name :| name in rest;
      MergeOnStep(base, opts, opts.Keys - rest, name, deep);
      var src := target.props.Get(name);
      var copy := opts[name];
      if src == copy {
        // `continue`
      } else if deep && (copy.Obj? || copy.Arr?) {
        target.Put(name, DeepMerge(src, copy));
      } else if copy != Undefined {
        target.Put(name, copy);
      }
      assert opts.Keys - (rest - {name}) == (opts.Keys - rest) + {name};
      rest := rest - {name};
    }
    assert opts.Keys - rest == opts.Keys;
  }

  /**
   * `extendObj(deep, target, ...sources)`: writes the sources' keys into
   * `target` in place, source by source and key by key, and returns the
   * same object. Keys already in `target` keep their place in its key
   * order; new keys are appended.
   */
  method ExtendObj(deep: bool, target: JsObject, sources: seq<Value>) returns (r: JsObject)
    requires target.Valid() && |sources| > 0
    modifies target
    ensures r == target && target.Valid()
    ensures target.props.fields == MergeAll(old(target.props.fields), sources, deep)
    ensures |old(target.props.keys)| <= |target.props.keys|
    ensures target.props.keys[..|old(target.props.keys)|] == old(target.props.keys)
  {
    ghost var f0 := target.props.fields;
    ghost var k0 := target.props.keys;
    var i := 0;
    while i < |sources|
      invariant 0 <= i <= |sources|
      invariant target.Valid()
      invariant target.props.fields == MergeAll(f0, sources[..i], deep)
      invariant |k0| <= |target.props.keys| && target.props.keys[..|k0|] == k0
    {
      var options := sources[i];
      assert sources[..i + 1][..i] == sources[..i];
      if !(options.Null? || options.Undefined?) && options.Obj? {
        MergeSource(deep, target, options.fields);
      }
      i := i + 1;
    }
    assert sources[..i] == sources;
    r := target;
  }
}
