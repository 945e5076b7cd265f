/**
 The deep merge promises that the source overwrites the target. As written it
 breaks that promise when the target holds a non-object where the source holds
 a plain object: the recursive call returns the copy of the target's value and
 the source's object is lost. This module exhibits the case and gives the
 merge that recurses only when both values are plain objects.
 */
module MergeFindings {
  import opened JsValue
  import opened Helpers

  /** The value stored under `key` by the corrected merge. */
  function MergedIntendedValue(t: map<string, Json>, key: string, sv: Json): Json
    decreases sv, 1
  {
    if IsObject(sv) && key in t && IsObject(t[key]) then JObj(MergedIntended(t[key], sv))
    else sv
  }

  /** The corrected merge: a source value replaces the target's unless both are plain objects. */
  function MergedIntended(target: Json, source: Json): map<string, Json>
    decreases source, 0
  {
    if IsObject(target) && IsObject(source) then
      AssignCopy(target) + map key | key in source.fields :: MergedIntendedValue(target.fields, key, source.fields[key])
    else
      AssignCopy(target)
  }

  /** Target {a: 5} and source {a: {b: 1}}: as written the result is {a: {}}. */
  lemma MergedDropsNestedSource()
    ensures var target := JObj(map["a" := JNum(5)]);
            var source := JObj(map["a" := JObj(map["b" := JNum(1)])]);
            && Lookup(source, ["a", "b"]) == Some(JNum(1))
            && Merged(target, source) == map["a" := JObj(map[])]
            && Lookup(JObj(Merged(target, source)), ["a", "b"]) == None
            && Lookup(JObj(MergedIntended(target, source)), ["a", "b"]) == Some(JNum(1))
  {
    var target := JObj(map["a" := JNum(5)]);
    var source := JObj(map["a" := JObj(map["b" := JNum(1)])]);
    assert Merged(JNum(5), source.fields["a"]) == map[];
    assert Merged(target, source) == map["a" := JObj(map[])];
    assert MergedIntended(target, source) == map["a" := source.fields["a"]];
  }

  /** Every non-object source leaf ends up in the corrected result, whatever the target holds. */
  lemma {:induction false} MergedIntendedSourceLeafWins(target: Json, source: Json, path: seq<string>, x: Json)
    requires IsObject(target)
    requires |path| > 0 && Lookup(source, path) == Some(x) && !IsObject(x)
    ensures Lookup(JObj(MergedIntended(target, source)), path) == Some(x)
    decreases |path|
  {
    var key := path[0];
    var sv := source.fields[key];
    if |path| > 1 && key in target.fields && IsObject(target.fields[key]) {
      assert MergedIntended(target, source)[key] == JObj(MergedIntended(target.fields[key], sv));
      MergedIntendedSourceLeafWins(target.fields[key], sv, path[1..], x);
    } else {
      assert MergedIntended(target, source)[key] == sv;
    }
  }

  /** Nested target properties the source does not mention survive the corrected merge too. */
  lemma {:induction false} MergedIntendedPreservesUntouched(target: Json, source: Json, path: seq<string>, x: Json)
    requires Lookup(target, path) == Some(x)
    requires Untouched(source, path)
    ensures Lookup(JObj(MergedIntended(target, source)), path) == Some(x)
    decreases |path|
  {
    var key := path[0];
    if IsObject(source) && key in source.fields {
      var sv := source.fields[key];
      assert MergedIntended(target, source)[key] == JObj(MergedIntended(target.fields[key], sv));
      MergedIntendedPreservesUntouched(target.fields[key], sv, path[1..], x);
    } else {
      assert MergedIntended(target, source)[key] == target.fields[key];
    }
  }

  /** No plain-object source value meets a non-object target value, at any depth. */
  ghost predicate NoClash(target: Json, source: Json)
    decreases source
  {
    IsObject(target) && IsObject(source) ==>
      forall key :: key in source.fields && key in target.fields && IsObject(source.fields[key]) ==>
        IsObject(target.fields[key]) && NoClash(target.fields[key], source.fields[key])
  }

  /** The corrected merge differs from the one as written only where a clash occurs. */
  lemma {:induction false} MergedAgreesWithIntended(target: Json, source: Json)
    requires NoClash(target, source)
    ensures Merged(target, source) == MergedIntended(target, source)
    decreases source
  {
    if IsObject(target) && IsObject(source) {
      forall key | key in source.fields
        ensures MergedValue(target.fields, key, source.fields[key])
             == MergedIntendedValue(target.fields, key, source.fields[key])
      {
        if key in target.fields && IsObject(source.fields[key]) {
          MergedAgreesWithIntended(target.fields[key], source.fields[key]);
        }
      }
    }
  }
}
