# mini-react-redux: the change detector and the reducer, in Dafny

This project models the two pieces of logic in mini-react-redux that decide
what a bound component sees:

- the props utilities of the binding layer (`src/mergeProps.js`): the
  three-way merge of state-derived, dispatch-derived and own props; the
  SameValue identity test `is`; `shallowEqual`, a one-level comparison of
  property bags; `strictEqual`; and the memoised merge that
  `mergedPropsFactory` returns, which hands back the *same* merged object
  while the state props and own props stay shallow-equal to the previous
  call's;
- the application's reducer (`src/redux.js`), which reverses `text` or
  `bottomText` of the shared state object in place and returns that object.

`js_values.dfy` holds the JavaScript value space the two need: numbers with
NaN, both zeros and both infinities kept apart, strings, booleans, `null`,
`undefined`, functions (compared by identity) and plain objects. A plain
object is a Dafny class instance, so "the same object" is Dafny reference
equality and "a newly made object" is `fresh`. The file also defines `===`,
truthiness and `||`. `merge_props.dfy` models `src/mergeProps.js`, and
`redux.dfy` models `src/redux.js`.

The memoised merge is the class `MergedPropsMemo`. Its fields are the
variables the closure captures: `hasOnceRun`, `stateProps`, `dispatchProps`,
`ownProps` and `mergedProps`. Its constructor is the call to
`mergedPropsFactory()`, and `Call` is one call of the returned closure.
`shallowEqual` is the method `ShallowEqual`. It runs the source's steps in
order: the `is` test, the object test, the key count, then a `for` loop over
the keys of the first object. It is proved equal to the specification
predicate `ShallowlyEqual`. The reducer is a method over the class `State`;
a `reverse_text` or `reverse_button` action assigns one field in place.

The `switch` in the reducer tests `action.name || action.type`. So a truthy
`name` decides the case even when `type` is set; `type` counts only when
`name` is falsy.

## Model

| member | source | states |
|---|---|---|
| `JsValues.Or` | src/redux.js:7 | the short-circuit or of `name` and `type` is truthy exactly when one operand is; a truthy first operand is the result, and a falsy one gives the second operand |
| `JsValues.StrictEquals` | src/mergeProps.js:9-12 | `x === y` holds exactly when `x` and `y` are the same value other than NaN, or both are zeros of either sign |
| `JsValues.Truthy` | src/redux.js:7 | a value is falsy exactly when it is `undefined`, `null`, `false`, NaN, `+0` or `-0`, or the empty string; every other value is truthy |
| `JsValues.ReciprocalInvolution` | src/mergeProps.js:10 | +0 and -0 have reciprocals +∞ and -∞, which map back, so the sign survives; with the model's exact reals, 1/(1/x) is x for every non-NaN x |
| `Redux.Discriminant` | src/redux.js:7 | `action.name || action.type` is `name` when `name` is truthy, and `type` otherwise |
| `MergeProps.Combine` | src/mergeProps.js:3-5 | the merge's keys are the union of the three bags; each key takes its value from `dispatchProps` if present, else from `stateProps`, else from `ownProps` |
| `MergeProps.MergeProps` | src/mergeProps.js:3-5 | `mergeProps` returns a newly allocated object whose properties are that merge of the three bags' own properties |
| `MergeProps.Is` | src/mergeProps.js:8-14 | `is(x, y)` holds exactly when `x` and `y` are the same value: `+0`/`-0` differ, NaN equals NaN, objects by reference |
| `MergeProps.SignedZeroAndNaN` | src/mergeProps.js:8-14 | `is(+0, -0)` is false while `+0 === -0`; `is(NaN, NaN)` is true while `NaN !== NaN` |
| `MergeProps.StrictEqual` | src/mergeProps.js:47-49 | `strictEqual` agrees with `is` except that NaN is unequal to itself and the two zeros are equal |
| `MergeProps.KeysOf` | src/mergeProps.js:29-30 | `Object.keys` yields each own key exactly once and nothing else, so its length is the number of own keys |
| `MergeProps.ShallowEqual` | src/mergeProps.js:17-44 | the loop with its early returns decides exactly `ShallowlyEqual`: identical values, or two plain objects with the same own properties |
| `MergeProps.ShallowlyEqualReflexive` | src/mergeProps.js:18 | every value is shallow-equal to itself, through the `is` test |
| `MergeProps.ShallowlyEqualSymmetric` | src/mergeProps.js:29-43 | the one-directional loop over the first object's keys still gives a symmetric relation |
| `MergeProps.ShallowlyEqualTransitive` | src/mergeProps.js:17-44 | shallow equality is transitive, so comparing against the previous call equals comparing against any chain of shallow-equal predecessors |
| `MergeProps.NonObjectsCompareByIdentity` | src/mergeProps.js:20-27 | when either value is null, a primitive or a function, the result is true only for identical values |
| `MergeProps.ObjectsCompareByOwnProperties` | src/mergeProps.js:29-43 | two plain objects are shallow-equal exactly when their own key sets are equal and each key holds identical values |
| `MergeProps.KeyCountsDiffer` | src/mergeProps.js:32 | objects with different numbers of own keys are never shallow-equal |
| `MergeProps.NaNPropertiesEqual` | src/mergeProps.js:34-41 | `{x: NaN}` is shallow-equal to another `{x: NaN}` |
| `MergeProps.SignedZeroPropertiesDiffer` | src/mergeProps.js:34-41 | `{x: 0}` is not shallow-equal to `{x: -0}` |
| `MergeProps.NestedObjectsByReference` | src/mergeProps.js:37 | nested objects are compared by reference: two distinct nested objects make the outer objects unequal |
| `MergeProps.MergedPropsMemo.constructor` | src/mergeProps.js:51-56 | a new memo has not run and caches null for all four values |
| `MergeProps.MergedPropsMemo.InputsUnchanged` | src/mergeProps.js:69 | the reuse test is `shallowEqual` of the cached and new state props, and then of the own props |
| `MergeProps.MergedPropsMemo.RecordInputs` | src/mergeProps.js:70-76 | the cache takes the newest call's three arguments, and nothing else changes |
| `MergeProps.MergedPropsMemo.Remerge` | src/mergeProps.js:77 | the cached merge becomes a new object holding the merge of the cached inputs |
| `MergeProps.MergedPropsMemo.Call` | src/mergeProps.js:58-81 | after any call the memo has run and caches the call's arguments; if the memo had run before and the state and own props are shallow-equal to the previous call's, it returns the previously returned object whatever the dispatch props are; otherwise it returns a new object holding the merge of the new inputs |
| `Redux.Reversed` | src/redux.js:9 | the reversal of a text has the text's length |
| `Redux.ReversedAt` | src/redux.js:9 | position `i` of the reversal holds the character `i` places from the end |
| `Redux.ReversedInvolution` | src/redux.js:9 | reversing twice restores the text |
| `Redux.State.Init` | src/redux.js:2-5 | `initState` has `text` "hello world" and `bottomText` "click bottom" |
| `Redux.CaseOf` | src/redux.js:7-16 | `reverse_text` is chosen exactly when `name` is that string, or `name` is falsy and `type` is; the same holds for `reverse_button`; any other action is unmatched |
| `Redux.NameTakesPrecedence` | src/redux.js:7 | with a truthy `name`, the `type` field does not affect the case |
| `Redux.FalsyNameDefersToType` | src/redux.js:7 | with a falsy `name`, the case is the one `type` alone selects |
| `Redux.Reducer` | src/redux.js:6-17 | the reducer returns the same state object; `reverse_text` reverses `text` and keeps `bottomText`; `reverse_button` does the reverse; any other action changes nothing |
| `Redux.ReverseTextTwice` | src/redux.js:8-10 | any two dispatches of an action that selects `reverse_text` (by `name` or by `type`) restore both fields of the state |
| `Redux.ReversedHelloWorld` | src/redux.js:2-10 | reversing the initial text gives "dlrow olleh" |

Three methods without contracts are verified scenarios:
`MergeProps.UpdateWithSameStateKeepsMerge`, where a shallow-equal update with
a new dispatch closure gets back the first merged object, which still holds
the old closure; `MergeProps.UpdateWithNewStateRemerges`, where an update with
a reversed text gets a new object; and `Redux.ReverseFromInitialState`, where
`reverse_text` on a fresh initial state yields "dlrow olleh".

## Left out

- The connect layer in `src/reactRedux.js` is not part of this model. That covers React's `useState`, `useEffect`, `useRef`, `useMemo` and `React.memo`, which depend on React's scheduling. Its one comparison of the cached merged object with a new merge by reference is what `MergedPropsMemo.Call` states.
- `src/provider.js`, `src/App.js`, `src/header.js` and `src/bottom.js` are not part of this model. They hold a React context, JSX assembly and one-line selector projections.
- `createStore` from the `redux` package is a foreign library. Dispatch, subscriber ordering and unsubscription live there.
- The reducer's default parameter `state = initState` is not modelled. The store always passes a state object, so `Reducer` takes a non-null `State`.
- Numbers are not floating point. Only NaN, the signed zeros, the signed infinities and a non-zero finite value are kept, which is what `is` and `===` distinguish. `1 / x` is evaluated only on the two zeros.
- ReciprocalInvolution: finite reciprocals are exact reals here, while IEEE doubles round and overflow (`1 / (1 / 5e-324)` is `0`); the source takes reciprocals only of zeros, where the lemma agrees with JavaScript.
- `split('')` works on UTF-16 code units. Texts here are sequences of Dafny characters.
- Spreading a string into `{...}` copies index keys in JavaScript. In the model, only plain objects contribute properties to the merge; strings, functions and other primitives contribute none. Key insertion order of the merged object is not modelled.
- `Object.keys` order is not modelled: `KeysOf` returns the own keys in some order, and `shallowEqual`'s result does not depend on the order.
- Prototype properties, symbol keys and non-enumerable properties do not exist in the model. A plain object is exactly its own string-keyed properties.
