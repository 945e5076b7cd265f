/**
 The static helper class of the visualisation: the plain-object test, the
 deep merge of settings objects, and the 4k-screen check.
 */
module Helpers {
  import opened JsValue

  /** `isObject`: truthy, of type "object" and not an array. */
  predicate IsObject(v: Json)
    ensures IsObject(v) <==> v.JObj?
  {
    Truthy(v) && TypeOf(v) == "object" && !IsArray(v)
  }

  /**
   The value the deep merge stores under `key` when the source holds `sv`
   there and the target's own properties are `t`.
   */
  function MergedValue(t: map<string, Json>, key: string, sv: Json): Json
    decreases sv, 1
  {
    if !IsObject(sv) then sv
    else if key !in t then sv
    else JObj(Merged(t[key], sv))
  }

  /** The properties of the plain object `mergeDeep(target, source)` returns. */
  function Merged(target: Json, source: Json): map<string, Json>
    decreases source, 0
  {
    if IsObject(target) && IsObject(source) then
      AssignCopy(target) + map key | key in source.fields :: MergedValue(target.fields, key, source.fields[key])
    else
      AssignCopy(target)
  }

  /**
   `mergeDeep`: starts from a shallow copy of the target and, when both
   arguments are plain objects, stores each source property in turn.
   */
  method MergeDeep(target: Json, source: Json) returns (output: map<string, Json>)
    ensures output == Merged(target, source)
    decreases source
  {
    output := AssignCopy(target);
    if IsObject(target) && IsObject(source) {
      var keys := source.fields.Keys;
      while keys != {}
        invariant keys <= source.fields.Keys
        invariant output == AssignCopy(target) +
          map key | key in source.fields.Keys - keys :: MergedValue(target.fields, key, source.fields[key])
        decreases keys
      {
        var key :| key in keys;
        var sv := source.fields[key];
        if IsObject(sv) {
          if key !in target.fields {
            output := output[key := sv];
          } else {
            var sub := MergeDeep(target.fields[key], sv);
            output := output[key := JObj(sub)];
          }
        } else {
          output := output[key := sv];
        }
        keys := keys - {key};
      }
    }
  }

  /** Unless both arguments are plain objects, the result is the copy of the target alone. */
  lemma MergedOfNonObjects(target: Json, source: Json)
    requires !IsObject(target) || !IsObject(source)
    ensures Merged(target, source) == AssignCopy(target)
  {
  }

  /** Merging two plain objects yields exactly the union of their keys. */
  lemma MergedKeys(target: Json, source: Json)
    requires IsObject(target) && IsObject(source)
    ensures Merged(target, source).Keys == target.fields.Keys + source.fields.Keys
  {
  }

  /** A key only the target has keeps the target's value. */
  lemma MergedKeepsTargetOnly(target: Json, source: Json, key: string)
    requires IsObject(target) && IsObject(source)
    requires key in target.fields && key !in source.fields
    ensures key in Merged(target, source) && Merged(target, source)[key] == target.fields[key]
  {
  }

  /** A source value that is not a plain object (arrays included) replaces the target's wholesale. */
  lemma MergedOverwritesNonObjects(target: Json, source: Json, key: string)
    requires IsObject(target) && IsObject(source)
    requires key in source.fields && !IsObject(source.fields[key])
    ensures key in Merged(target, source) && Merged(target, source)[key] == source.fields[key]
  {
  }

  /** A plain-object source value under a key the target lacks is taken verbatim. */
  lemma MergedCopiesNewObjects(target: Json, source: Json, key: string)
    requires IsObject(target) && IsObject(source)
    requires key in source.fields && IsObject(source.fields[key]) && key !in target.fields
    ensures key in Merged(target, source) && Merged(target, source)[key] == source.fields[key]
  {
  }

  /** A plain-object source value under a key the target has is merged into the target's value. */
  lemma MergedRecursesOnShared(target: Json, source: Json, key: string)
    requires IsObject(target) && IsObject(source)
    requires key in source.fields && IsObject(source.fields[key]) && key in target.fields
    ensures key in Merged(target, source)
    ensures Merged(target, source)[key] == JObj(Merged(target.fields[key], source.fields[key]))
  {
  }

  /**
   When the target's value there is not a plain object, that recursive merge
   returns only the copy of the target's value: the source's object is lost.
   */
  lemma MergedDropsSourceUnderNonObject(target: Json, source: Json, key: string)
    requires IsObject(target) && IsObject(source)
    requires key in source.fields && IsObject(source.fields[key])
    requires key in target.fields && !IsObject(target.fields[key])
    ensures key in Merged(target, source)
    ensures Merged(target, source)[key] == JObj(AssignCopy(target.fields[key]))
  {
    assert Merged(target.fields[key], source.fields[key]) == AssignCopy(target.fields[key]);
  }

  /** The source names no prefix of `path` except through plain objects, and stops before its end. */
  ghost predicate Untouched(source: Json, path: seq<string>)
    decreases |path|
  {
    && |path| > 0
    && (|| !IsObject(source)
        || path[0] !in source.fields
        || (IsObject(source.fields[path[0]]) && Untouched(source.fields[path[0]], path[1..])))
  }

  /** Nested target properties the source does not mention survive the merge, at any depth. */
  lemma {:induction false} MergedPreservesUntouched(target: Json, source: Json, path: seq<string>, x: Json)
    requires Lookup(target, path) == Some(x)
    requires Untouched(source, path)
    ensures Lookup(JObj(Merged(target, source)), path) == Some(x)
    decreases |path|
  {
    var key := path[0];
    if IsObject(source) && key in source.fields {
      var sv := source.fields[key];
      assert Merged(target, source)[key] == JObj(Merged(target.fields[key], sv));
      MergedPreservesUntouched(target.fields[key], sv, path[1..], x);
    } else {
      assert Merged(target, source)[key] == target.fields[key];
    }
  }

  /** Along `path`, every target value met before its last key is a plain object or absent. */
  ghost predicate OpenAlong(target: Json, path: seq<string>)
    decreases |path|
  {
    && IsObject(target)
    && (|path| <= 1 || path[0] !in target.fields || OpenAlong(target.fields[path[0]], path[1..]))
  }

  /** A non-object source leaf reached through plain objects of the target ends up in the result. */
  lemma {:induction false} MergedSourceLeafWins(target: Json, source: Json, path: seq<string>, x: Json)
    requires |path| > 0 && Lookup(source, path) == Some(x) && !IsObject(x)
    requires OpenAlong(target, path)
    ensures Lookup(JObj(Merged(target, source)), path) == Some(x)
    decreases |path|
  {
    var key := path[0];
    var sv := source.fields[key];
    if |path| == 1 {
      assert Merged(target, source)[key] == sv;
    } else if key !in target.fields {
      assert Merged(target, source)[key] == sv;
    } else {
      assert Merged(target, source)[key] == JObj(Merged(target.fields[key], sv));
      MergedSourceLeafWins(target.fields[key], sv, path[1..], x);
    }
  }

  /** `on4kScreen` on a screen of the given size. */
  function On4kScreen(width: int, height: int): (r: bool)
    ensures r <==> width >= 3840 || height >= 3840
  {
    var test := if height > width then height else width;
    test > 3839
  }
}
