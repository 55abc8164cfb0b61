/**
 * The change detector of the binding layer: the three-way props merge, the
 * SameValue identity test `is`, the one-level comparison `shallowEqual`,
 * `strictEqual`, and the memoised merge that `mergedPropsFactory` returns.
 */
module MergeProps {
  import opened JsValues

  // ---------------------------------------------------------------------------
  // Merging

  /**
   * The own properties that `{ ...v }` copies out of `v`. Only plain objects
   * contribute properties here; null, undefined and the other primitives
   * contribute none.
   */
  function Spread(v: Value): map<string, Value>
    reads Footprint(v)
  {
    if v.ObjectRef? then v.obj.fields else map[]
  }

  /**
   * `{ ...own, ...state, ...dispatch }` on property maps: every key of the
   * three, each taking its value from the last bag that has it.
   */
  function Combine(own: map<string, Value>, state: map<string, Value>, dispatch: map<string, Value>): (r: map<string, Value>)
    ensures r.Keys == own.Keys + state.Keys + dispatch.Keys
    ensures forall k :: k in dispatch ==> r[k] == dispatch[k]
    ensures forall k :: k in state && k !in dispatch ==> r[k] == state[k]
    ensures forall k :: k in own && k !in state && k !in dispatch ==> r[k] == own[k]
  {
    own + state + dispatch
  }

  /** `mergeProps`: a new plain object holding the merge of the three bags. */
  method MergeProps(stateProps: Value, dispatchProps: Value, ownProps: Value) returns (merged: PlainObject)
    ensures fresh(merged)
    ensures merged.fields == Combine(Spread(ownProps), Spread(stateProps), Spread(dispatchProps))
  {
    merged := new PlainObject(Spread(ownProps) + Spread(stateProps) + Spread(dispatchProps));
  }

  // ---------------------------------------------------------------------------
  // Identity

  /**
   * `is`: strict equality, except that `+0` and `-0` are told apart by the
   * sign of their reciprocal and that NaN, the one value not strictly equal
   * to itself, is equal to NaN. In this value space that is exactly identity.
   */
  function Is(x: Value, y: Value): (r: bool)
    ensures r <==> x == y
  {
    if StrictEquals(x, y) then
      !StrictEquals(x, PlusZero) || !StrictEquals(y, PlusZero)
      || StrictEquals(Num(Reciprocal(x.n)), Num(Reciprocal(y.n)))
    else
      !StrictEquals(x, x) && !StrictEquals(y, y)
  }

  /**
   * `strictEqual`: `a === b`. It agrees with `Is` except that NaN is not equal
   * to itself and the two zeros are equal.
   */
  function StrictEqual(a: Value, b: Value): (r: bool)
    ensures r <==> (Is(a, b) && a != Num(NaN)) || (a.Num? && a.n.Zero? && b.Num? && b.n.Zero?)
  {
    StrictEquals(a, b)
  }

  lemma SignedZeroAndNaN()
    ensures !Is(Num(Zero(false)), Num(Zero(true))) && StrictEqual(Num(Zero(false)), Num(Zero(true)))
    ensures Is(Num(NaN), Num(NaN)) && !StrictEqual(Num(NaN), Num(NaN))
  {
  }

  // ---------------------------------------------------------------------------
  // Shallow equality

  /** Same own keys, and `Is`-equal values under every key. */
  predicate SameOwnProperties(a: map<string, Value>, b: map<string, Value>)
  {
    a.Keys == b.Keys && forall k :: k in a ==> Is(a[k], b[k])
  }

  /**
   * What `shallowEqual` decides: `Is`-identical values, or two plain objects
   * with the same own properties. Values nested in the objects are compared
   * with `Is`, that is by identity only.
   */
  predicate ShallowlyEqual(objA: Value, objB: Value)
    reads Footprint(objA), Footprint(objB)
  {
    Is(objA, objB)
    || (objA.ObjectRef? && objB.ObjectRef? && SameOwnProperties(objA.obj.fields, objB.obj.fields))
  }

  /** `Object.keys`: the own keys of an object, each once, in some order. */
  method KeysOf(m: map<string, Value>) returns (keys: seq<string>)
    ensures |keys| == |m|
    ensures forall k :: k in keys <==> k in m
    ensures forall i, j :: 0 <= i < j < |keys| ==> keys[i] != keys[j]
  {
    keys := [];
    var rest := m.Keys;
    while rest != {}
      invariant rest <= m.Keys
      invariant forall k :: k in keys <==> k in m && k !in rest
      invariant forall i, j :: 0 <= i < j < |keys| ==> keys[i] != keys[j]
      invariant |keys| + |rest| == |m|
      decreases |rest|
    {
      var k :| k in rest;
      keys := keys + [k];
      rest := rest - {k};
    }
  }

  /** Two finite sets, one inside the other, of the same size are equal. */
  lemma SubsetOfSameSize(a: set<string>, b: set<string>)
    requires a <= b && |a| == |b|
    ensures a == b
  {
    assert b == a + (b - a);
    assert |b - a| == 0;
  }

  /**
   * `shallowEqual`: the identity test first, then the object test, the key
   * count, and a pass over the first object's keys that stops at the first
   * key the second object lacks or holds a different value under.
   */
  method ShallowEqual(objA: Value, objB: Value) returns (equal: bool)
    ensures equal == ShallowlyEqual(objA, objB)
  {
    if Is(objA, objB) {
      return true;
    }
    if !objA.ObjectRef? || !objB.ObjectRef? {
      return false;
    }
    var a, b := objA.obj.fields, objB.obj.fields;
    var keysA := KeysOf(a);
    var keysB := KeysOf(b);
    if |keysA| != |keysB| {
      return false;
    }
    for i := 0 to |keysA|
      invariant forall j :: 0 <= j < i ==> keysA[j] in b && Is(a[keysA[j]], b[keysA[j]])
    {
      if keysA[i] !in b || !Is(a[keysA[i]], b[keysA[i]]) {
        return false;
      }
    }
    assert a.Keys <= b.Keys by {
      forall k | k in a ensures k in b {
        var j :| 0 <= j < |keysA| && keysA[j] == k;
      }
    }
    SubsetOfSameSize(a.Keys, b.Keys);
    return true;
  }

  lemma ShallowlyEqualReflexive(a: Value)
    ensures ShallowlyEqual(a, a)
  {
  }

  lemma ShallowlyEqualSymmetric(a: Value, b: Value)
    ensures ShallowlyEqual(a, b) <==> ShallowlyEqual(b, a)
  {
  }

  lemma ShallowlyEqualTransitive(a: Value, b: Value, c: Value)
    requires ShallowlyEqual(a, b) && ShallowlyEqual(b, c)
    ensures ShallowlyEqual(a, c)
  {
  }

  /** Anything that is not a plain object is shallow-equal only to itself. */
  lemma NonObjectsCompareByIdentity(a: Value, b: Value)
    requires !a.ObjectRef? || !b.ObjectRef?
    ensures ShallowlyEqual(a, b) <==> a == b
  {
  }

  /**
   * Two plain objects, the same one or not, are shallow-equal exactly when
   * they have the same own keys and identical values under each key.
   */
  lemma ObjectsCompareByOwnProperties(a: PlainObject, b: PlainObject)
    ensures ShallowlyEqual(ObjectRef(a), ObjectRef(b))
        <==> a.fields.Keys == b.fields.Keys && forall k :: k in a.fields ==> Is(a.fields[k], b.fields[k])
  {
  }

  /** Objects with different numbers of own keys are never shallow-equal. */
  lemma KeyCountsDiffer(a: PlainObject, b: PlainObject)
    requires |a.fields| != |b.fields|
    ensures !ShallowlyEqual(ObjectRef(a), ObjectRef(b))
  {
  }

  /** `{x: NaN}` and another `{x: NaN}` are shallow-equal. */
  lemma NaNPropertiesEqual(a: PlainObject, b: PlainObject)
    requires a.fields == map["x" := Num(NaN)] && b.fields == map["x" := Num(NaN)]
    ensures ShallowlyEqual(ObjectRef(a), ObjectRef(b))
  {
  }

  /** `{x: 0}` and `{x: -0}` are not shallow-equal. */
  lemma SignedZeroPropertiesDiffer(a: PlainObject, b: PlainObject)
    requires a.fields == map["x" := Num(Zero(false))] && b.fields == map["x" := Num(Zero(true))]
    ensures !ShallowlyEqual(ObjectRef(a), ObjectRef(b))
  {
    assert a != b;
    assert a.fields["x"] != b.fields["x"];
  }

  /** A nested bag is compared by reference: equal contents do not help. */
  lemma NestedObjectsByReference(a: PlainObject, b: PlainObject, p: PlainObject, q: PlainObject)
    requires p != q
    requires a.fields == map["x" := ObjectRef(p)] && b.fields == map["x" := ObjectRef(q)]
    ensures !ShallowlyEqual(ObjectRef(a), ObjectRef(b))
  {
    assert a != b;
    assert a.fields["x"] != b.fields["x"];
  }

  // ---------------------------------------------------------------------------
  // The memoised merge

  /**
   * The closure that `mergedPropsFactory` returns, with the variables it
   * captures as fields. `Call` is one invocation of the closure.
   */
  class MergedPropsMemo {
    var hasOnceRun: bool
    var stateProps: Value
    var dispatchProps: Value
    var ownProps: Value
    var mergedProps: Value

    ghost predicate Valid()
      reads this
    {
      && (!hasOnceRun ==> stateProps == Null && dispatchProps == Null && ownProps == Null && mergedProps == Null)
      && (hasOnceRun ==> mergedProps.ObjectRef?)
    }

    /** `mergedPropsFactory()`: nothing has run and every cached value is null. */
    constructor ()
      ensures Valid()
      ensures !hasOnceRun
      ensures stateProps == Null && dispatchProps == Null && ownProps == Null && mergedProps == Null
    {
      hasOnceRun := false;
      stateProps := Null;
      dispatchProps := Null;
      ownProps := Null;
      mergedProps := Null;
    }

    /**
     * Whether a call with these state and own props reuses the cached merge:
     * a call has run before and both bags are shallow-equal to the previous
     * call's. The dispatch props play no part.
     */
    ghost predicate Reuses(newStateProps: Value, newOwnProps: Value)
      reads this, Footprint(stateProps), Footprint(ownProps), Footprint(newStateProps), Footprint(newOwnProps)
    {
      hasOnceRun && ShallowlyEqual(stateProps, newStateProps) && ShallowlyEqual(ownProps, newOwnProps)
    }

    /**
     * `shallowEqual(stateProps, newStateProps) && shallowEqual(ownProps, newOwnProps)`,
     * asked only after a first call has run.
     */
    method InputsUnchanged(newStateProps: Value, newOwnProps: Value) returns (same: bool)
      requires hasOnceRun
      ensures same == Reuses(newStateProps, newOwnProps)
    {
      same := ShallowEqual(stateProps, newStateProps);
      if same {
        same := ShallowEqual(ownProps, newOwnProps);
      }
    }

    /** The three assignments every branch makes: the cache takes the newest arguments. */
    method RecordInputs(newStateProps: Value, newDispatchProps: Value, newOwnProps: Value)
      modifies this`stateProps, this`dispatchProps, this`ownProps
      ensures stateProps == newStateProps && dispatchProps == newDispatchProps && ownProps == newOwnProps
    {
      stateProps := newStateProps;
      dispatchProps := newDispatchProps;
      ownProps := newOwnProps;
    }

    /** `mergedProps = mergeProps(stateProps, dispatchProps, ownProps)` */
    method Remerge()
      modifies this`mergedProps
      ensures mergedProps.ObjectRef? && fresh(mergedProps.obj)
      ensures mergedProps.obj.fields == Combine(Spread(ownProps), Spread(stateProps), Spread(dispatchProps))
    {
      var m := MergeProps(stateProps, dispatchProps, ownProps);
      mergedProps := ObjectRef(m);
    }

    /** One call of the closure that `mergedPropsFactory` returns (src/mergeProps.js:58-81). */
    method Call(newStateProps: Value, newDispatchProps: Value, newOwnProps: Value) returns (merged: Value)
      requires Valid()
      modifies this
      ensures Valid() && hasOnceRun
      ensures stateProps == newStateProps && dispatchProps == newDispatchProps && ownProps == newOwnProps
      ensures merged == mergedProps
      ensures old(Reuses(newStateProps, newOwnProps)) ==> merged == old(mergedProps)
      ensures !old(Reuses(newStateProps, newOwnProps)) ==>
        && merged.ObjectRef? && fresh(merged.obj)
        && merged.obj.fields == Combine(Spread(ownProps), Spread(stateProps), Spread(dispatchProps))
    {
      if !hasOnceRun {
        RecordInputs(newStateProps, newDispatchProps, newOwnProps);
        Remerge();
        hasOnceRun := true;
        return mergedProps;
      }
      var same := InputsUnchanged(newStateProps, newOwnProps);
      if same {
        RecordInputs(newStateProps, newDispatchProps, newOwnProps);
      } else {
        RecordInputs(newStateProps, newDispatchProps, newOwnProps);
        Remerge();
      }
      return mergedProps;
    }
  }

  /**
   * A store update whose selector output is a new object with the same text,
   * together with a new dispatch closure: the previous merge is handed back.
   */
  method UpdateWithSameStateKeepsMerge()
  {
    var memo := new MergedPropsMemo();
    var own := new PlainObject(map[]);
    var state1 := new PlainObject(map["text" := Str("hello world")]);
    var dispatch1 := new PlainObject(map["reverse" := Closure(0)]);
    var first := memo.Call(ObjectRef(state1), ObjectRef(dispatch1), ObjectRef(own));
    assert first.obj.fields == map["text" := Str("hello world"), "reverse" := Closure(0)];

    var state2 := new PlainObject(map["text" := Str("hello world")]);
    var dispatch2 := new PlainObject(map["reverse" := Closure(1)]);
    var second := memo.Call(ObjectRef(state2), ObjectRef(dispatch2), ObjectRef(own));
    assert second == first;
    assert second.obj.fields["reverse"] == Closure(0);
  }

  /** A store update that reverses the text: a new merge with the new text. */
  method UpdateWithNewStateRemerges()
  {
    var memo := new MergedPropsMemo();
    var own := new PlainObject(map[]);
    var state1 := new PlainObject(map["text" := Str("hello world")]);
    var dispatch := new PlainObject(map["reverse" := Closure(0)]);
    var first := memo.Call(ObjectRef(state1), ObjectRef(dispatch), ObjectRef(own));

    var state2 := new PlainObject(map["text" := Str("dlrow olleh")]);
    assert state2.fields["text"] != state1.fields["text"];
    var second := memo.Call(ObjectRef(state2), ObjectRef(dispatch), ObjectRef(own));
    assert second != first;
    assert second.obj.fields["text"] == Str("dlrow olleh");
  }
}
