# Helpers of the molecule visualisation, modelled in Dafny

The visualisation builds its settings from a default settings object and a
caller's partial one with the static helper class `Helpers`. This project
models that class's logic:

- `isObject`, the test for a plain (non-null, non-array) object;
- `mergeDeep`, the right-biased deep merge of settings objects;
- `on4kScreen`, the decision whether the screen's larger side reaches 4k.

The model has three modules.

- `JsValue` (`js_value.dfy`) holds the JavaScript values a settings object can
  contain: `undefined`, `null`, booleans, numbers, strings, arrays and plain
  objects. It also holds the pieces of JavaScript semantics the helpers rely
  on: truthiness, `typeof`, `Array.isArray`, the property key of an array
  index, and `Object.assign({}, v)` (`AssignCopy`). A plain object is a
  `map<string, Json>`.
- `Helpers` (`helpers.dfy`) holds the helpers themselves. `MergeDeep` is a
  recursive method with a loop over the source's keys, as in the source. It is
  proved equal to the recursive specification function `Merged`, and the
  merge's promises are proved as lemmas about `Merged`.
- `MergeFindings` (`merge_findings.dfy`) records a case where the merge does
  not do what its documentation says. It also gives the corrected merge.

The merge is modelled as written. When the target holds a non-object where the
source holds a plain object, the recursive call returns
`Object.assign({}, targetValue)`:

- for `null`, `undefined`, a boolean or a number, that copy is `{}`;
- for a string or an array, it is an object keyed `"0"`, `"1"`, … .

In both cases the source's object is dropped. `Helpers.MergedDropsSourceUnderNonObject`
states this, and the Findings section below discusses it.

`key in target` is read as own-key membership: keys reachable only through the
prototype chain (`toString`, `constructor`, …) are not modelled.

## Model

| member | source | states |
|---|---|---|
| `Helpers.IsObject` | src/Helpers.js:12-14 | truthy, of type "object" and not an array holds exactly for plain objects: `undefined`, `null`, arrays, booleans, numbers and strings are all rejected |
| `Helpers.MergeDeep` | src/Helpers.js:25-42 | the method that copies the target and stores each source key in a loop, recursing on nested objects, returns exactly `Merged(target, source)` |
| `Helpers.MergedOfNonObjects` | src/Helpers.js:26-27 | when either argument is not a plain object (e.g. an undefined, null or array source), the result is the copy of the target and nothing of the source |
| `Helpers.MergedKeys` | src/Helpers.js:26-38 | merging two plain objects gives exactly the union of the target's and the source's keys, so every default key survives |
| `Helpers.MergedKeepsTargetOnly` | src/Helpers.js:26 | a key only the target has keeps the target's value unchanged |
| `Helpers.MergedOverwritesNonObjects` | src/Helpers.js:35-36 | a source value that is not a plain object (number, string, boolean, null, undefined, array) replaces the target's value wholesale |
| `Helpers.MergedCopiesNewObjects` | src/Helpers.js:29-31 | a plain-object source value under a key the target lacks appears in the result verbatim |
| `Helpers.MergedRecursesOnShared` | src/Helpers.js:32-33 | a plain-object source value under a key the target has becomes the deep merge of the target's value with it |
| `Helpers.MergedDropsSourceUnderNonObject` | src/Helpers.js:32-33 | if the target's value there is not a plain object, the stored value is only the object copy of the target's value |
| `Helpers.MergedPreservesUntouched` | src/Helpers.js:26-38 | any nested target property whose path the source does not mention (the source stops at a missing key, only plain objects on the way) survives at every depth |
| `Helpers.MergedSourceLeafWins` | src/Helpers.js:28-36 | a non-object source value at any depth appears in the result at the same path, provided the target holds only plain objects or nothing along the way |
| `Helpers.On4kScreen` | src/Helpers.js:111-124 | true if and only if the width or the height is at least 3840, i.e. the larger side exceeds 3839 |
| `JsValue.AssignCopyOfArray` | src/Helpers.js:26 | the object copy of an array has exactly the index keys "0" … "n-1", key "i" holding element i |
| `JsValue.AssignCopyOfString` | src/Helpers.js:26 | the object copy of a string has exactly the index keys "0" … "n-1", key "i" holding the one-character string at i |
| `JsValue.AssignCopyOfScalar` | src/Helpers.js:26 | the object copy of undefined, null, a boolean or a number is the empty object |
| `JsValue.ParseIndexKeyRoundTrip` | src/Helpers.js:26 | the property key of an array index is a decimal numeral that reads back as that index, so distinct indices have distinct keys |
| `MergeFindings.MergedDropsNestedSource` | src/Helpers.js:32-33 | merging target {a: 5} with source {a: {b: 1}} gives {a: {}} as written, losing a.b, while the corrected merge keeps a.b = 1 |
| `MergeFindings.MergedIntendedSourceLeafWins` | src/Helpers.js:19 | in the corrected merge every non-object source value at any depth appears in the result, whatever the target holds there |
| `MergeFindings.MergedIntendedPreservesUntouched` | src/Helpers.js:26-38 | the corrected merge still keeps every nested target property the source does not mention |
| `MergeFindings.MergedAgreesWithIntended` | src/Helpers.js:29-34 | the corrected merge equals the one as written on every input where no source object meets a non-object target value at any depth |

## Findings

| source | as written | input that shows it | evidently intended | confidence | as-written member | corrected member |
|---|---|---|---|---|---|---|
| src/Helpers.js:32-33 | a plain-object source value under a key whose target value is not a plain object is merged recursively; the recursive call returns `Object.assign({}, targetValue)` and ignores the source | `mergeDeep({a: 5}, {a: {b: 1}})` returns `{a: {}}` | the source overwrites the target (line 19), giving `{a: {b: 1}}` | high, not executed | `MergeFindings.MergedDropsNestedSource` | `MergeFindings.MergedIntendedSourceLeafWins` |

`Helpers.Merged` and `Helpers.MergeDeep` follow the code as written.
`MergeFindings.MergedIntended` is the corrected merge: it recurses only when
both values are plain objects and otherwise lets the source value replace the
target's. `MergeFindings.MergedAgreesWithIntended` shows that the two differ
only on such clashes.

## Left out

- `degToRad`, `getAngleInRadians`, `getAngleInDegrees`, `rotate` (src/Helpers.js:50-104): floating-point trigonometry (`Math.PI`, `atan2`, `cos`, `sin`), which Dafny's integers and reals cannot express.
- The constructor's console message (src/Helpers.js:2-4): output only.
- `Helpers.On4kScreen`: reads its size from parameters instead of the global `screen` (src/Helpers.js:114-115), an environment read.
- `Helpers.IsObject`: the source returns the falsy operand itself (e.g. `0` or `""`) rather than `false`; the model returns a boolean with the same truthiness, which is all the callers use.
- Numbers are integers: `NaN` (falsy), fractions and `-0` are not modelled; the merge never inspects numbers, and `on4kScreen` compares integral screen sizes.
- Values other than JSON-like data and `undefined` (functions, dates, class instances, symbols, sparse arrays) are not modelled.
- Property enumeration order of the result is not modelled: each source key is stored independently of the others, so the order of the loop does not change the result's contents.
- Prototype-chain keys for `key in target`, and special keys such as `__proto__`, are not modelled; objects are plain maps.
- Object identity and aliasing are not modelled: values are immutable, so "verbatim" means an equal value, and the shared references the source's shallow copy creates are not tracked.
- Strings are sequences of Dafny characters, not UTF-16 code units, so a string's index keys count characters.
- src/Molecule.js, src/MoleculeEmitter.js, src/MoleculeVizualisation.js, src/MoleculeVizualisationEditor.js, src/enums.js, src/states/thyroid.js and webpack.config.js are not part of this model: rendering, GUI wiring, random placement, static data and build configuration.
