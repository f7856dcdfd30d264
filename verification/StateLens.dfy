/**
  Forward-compatible state of src/agent_session_harness/supervisor.py: stripping the fields a
  newer build added, keeping their values aside, and merging them back on every rewrite.
 */
module StateLens {
  import opened Options
  import opened JsonTrees
  import opened Sequences

  /** The fields a model declares; some hold a model of their own. */
  datatype Schema = Schema(fields: map<string, Field>)

  datatype Field = Plain | Nested(schema: Schema)

  /** A dotted name, as the keys along the way. */
  type Path = seq<string>

  function Strip(s: Schema, payload: Json): Json
    decreases payload
  {
    if !payload.Dict? then payload
    else Dict(map k | k in payload.entries && k in s.fields ::
                if s.fields[k].Nested? then Strip(s.fields[k].schema, payload.entries[k]) else payload.entries[k])
  }

  /** The values set aside: unknown ones, and nested remainders that are not empty. */
  function Preserved(s: Schema, payload: Json): map<string, Json>
    decreases payload
  {
    if !payload.Dict? then map[]
    else map k | k in payload.entries
                 && (k !in s.fields || (s.fields[k].Nested? && Preserved(s.fields[k].schema, payload.entries[k]) != map[])) ::
           if k !in s.fields then payload.entries[k] else Dict(Preserved(s.fields[k].schema, payload.entries[k]))
  }

  predicate SetsAside(s: Schema, k: string, value: Json) {
    k !in s.fields || (s.fields[k].Nested? && Preserved(s.fields[k].schema, value) != map[])
  }

  lemma PreservedAt(s: Schema, payload: Json, k: string)
    requires payload.Dict?
    ensures k in Preserved(s, payload) <==> k in payload.entries && SetsAside(s, k, payload.entries[k])
    ensures k in Preserved(s, payload) ==>
              Preserved(s, payload)[k] == (if k !in s.fields then payload.entries[k] else Dict(Preserved(s.fields[k].schema, payload.entries[k])))
  {
  }

  /** A path this build does not know. */
  predicate Unknown(s: Schema, payload: Json, path: Path)
    decreases |path|
  {
    && path != [] && payload.Dict? && path[0] in payload.entries
    && if path[0] !in s.fields then |path| == 1
       else s.fields[path[0]].Nested? && Unknown(s.fields[path[0]].schema, payload.entries[path[0]], path[1..])
  }

  /** Known values win; only keys missing from the dump are restored. */
  function Merge(payload: Json, preserved: Json): Json
    requires payload.Dict? && preserved.Dict?
    decreases preserved
  {
    Dict(map k | k in payload.entries.Keys + preserved.entries.Keys ::
           if k in payload.entries && k in preserved.entries && payload.entries[k].Dict? && preserved.entries[k].Dict?
           then Merge(payload.entries[k], preserved.entries[k])
           else if k in payload.entries then payload.entries[k] else preserved.entries[k])
  }

  lemma StripAt(s: Schema, payload: Json, k: string)
    requires payload.Dict?
    ensures Strip(s, payload).Dict?
    ensures k in Strip(s, payload).entries <==> k in payload.entries && k in s.fields
    ensures k in payload.entries && k in s.fields ==>
              Strip(s, payload).entries[k] == (if s.fields[k].Nested? then Strip(s.fields[k].schema, payload.entries[k]) else payload.entries[k])
  {
  }

  lemma MergeAt(payload: Json, preserved: Json, k: string)
    requires payload.Dict? && preserved.Dict?
    ensures Merge(payload, preserved).Dict?
    ensures k in Merge(payload, preserved).entries <==> k in payload.entries || k in preserved.entries
    ensures k in payload.entries && k in preserved.entries && payload.entries[k].Dict? && preserved.entries[k].Dict? ==>
              Merge(payload, preserved).entries[k] == Merge(payload.entries[k], preserved.entries[k])
    ensures k in payload.entries && !(k in preserved.entries && payload.entries[k].Dict? && preserved.entries[k].Dict?) ==>
              Merge(payload, preserved).entries[k] == payload.entries[k]
    ensures k !in payload.entries && k in preserved.entries ==>
              Merge(payload, preserved).entries[k] == preserved.entries[k]
  {
  }

  // ---------------------------------------------------------------- what a build dumps and sets aside

  /** A dump writes every declared field, nested ones too, and nothing else. */
  ghost predicate Full(s: Schema, known: Json)
    decreases known
  {
    && known.Dict? && known.entries.Keys == s.fields.Keys
    && forall k :: k in known.entries && s.fields[k].Nested? && known.entries[k].Dict? ==> Full(s.fields[k].schema, known.entries[k])
  }

  /** Only unknown keys, and remainders of nested models that are not empty. */
  ghost predicate Residue(s: Schema, preserved: Json)
    decreases preserved
  {
    && preserved.Dict?
    && forall k :: k in preserved.entries && k in s.fields ==>
         s.fields[k].Nested? && preserved.entries[k] != Dict(map[]) && Residue(s.fields[k].schema, preserved.entries[k])
  }

  /** Every nested remainder still finds its model in the dump. */
  ghost predicate Fits(s: Schema, known: Json, preserved: Json)
    requires Residue(s, preserved)
    decreases preserved
  {
    && known.Dict?
    && forall k :: k in preserved.entries && k in s.fields ==>
         k in known.entries && Fits(s.fields[k].schema, known.entries[k], preserved.entries[k])
  }

  lemma {:induction false} PreservedIsResidue(s: Schema, payload: Json)
    ensures Residue(s, Dict(Preserved(s, payload)))
    decreases payload
  {
    var kept := Dict(Preserved(s, payload));
    forall k | k in kept.entries && k in s.fields
      ensures s.fields[k].Nested? && kept.entries[k] != Dict(map[]) && Residue(s.fields[k].schema, kept.entries[k])
    {
      PreservedIsResidue(s.fields[k].schema, payload.entries[k]);
    }
  }

  // ---------------------------------------------------------------- the laws

  /** Merging back what was set aside restores the original, for every model and every tree. */
  lemma {:induction false} MergeRestores(s: Schema, payload: Json)
    requires payload.Dict?
    ensures Merge(Strip(s, payload), Dict(Preserved(s, payload))) == payload
    decreases payload
  {
    var cleaned := Strip(s, payload);
    var kept := Dict(Preserved(s, payload));
    var merged := Merge(cleaned, kept);
    forall k | k in payload.entries ensures k in merged.entries && merged.entries[k] == payload.entries[k] {
      hide Strip, Preserved, Merge;
      PreservedAt(s, payload, k);
      StripAt(s, payload, k);
      MergeAt(cleaned, kept, k);
      if k in s.fields && s.fields[k].Nested? && payload.entries[k].Dict? {
        StripAt(s.fields[k].schema, payload.entries[k], k);
        MergeRestores(s.fields[k].schema, payload.entries[k]);
        MergeNothing(cleaned.entries[k]);
      } else if k in s.fields && s.fields[k].Nested? {
        AtomsPass(s.fields[k].schema, payload.entries[k]);
      }
    }
    assert merged.entries == payload.entries;
  }

  /** What is no mapping is handed on as it is, for validation to judge. */
  lemma AtomsPass(s: Schema, payload: Json)
    requires !payload.Dict?
    ensures Strip(s, payload) == payload && Preserved(s, payload) == map[]
  {
  }

  lemma MergeNothing(payload: Json)
    requires payload.Dict?
    ensures Merge(payload, Dict(map[])) == payload
  {
    assert Merge(payload, Dict(map[])).entries == payload.entries;
  }

  /** Stripping a merge gives back exactly what this build dumped. */
  lemma {:induction false} StripIgnoresPreserved(s: Schema, known: Json, preserved: Json)
    requires Full(s, known) && Residue(s, preserved)
    ensures Strip(s, Merge(known, preserved)) == known
    decreases known
  {
    var merged := Merge(known, preserved);
    var cleaned := Strip(s, merged);
    forall k | k in known.entries ensures k in cleaned.entries && cleaned.entries[k] == known.entries[k] {
      hide Strip, Merge, Preserved;
      MergeAt(known, preserved, k);
      StripAt(s, merged, k);
      if s.fields[k].Nested? && known.entries[k].Dict? {
        if k in preserved.entries {
          StripIgnoresPreserved(s.fields[k].schema, known.entries[k], preserved.entries[k]);
        } else {
          StripFull(s.fields[k].schema, known.entries[k]);
        }
      } else if s.fields[k].Nested? {
        AtomsPass(s.fields[k].schema, known.entries[k]);
      }
    }
    assert cleaned.entries == known.entries;
  }

  lemma {:induction false} StripFull(s: Schema, known: Json)
    requires Full(s, known)
    ensures Strip(s, known) == known && Preserved(s, known) == map[]
    decreases known
  {
    forall k | k in known.entries && s.fields[k].Nested?
      ensures Strip(s.fields[k].schema, known.entries[k]) == known.entries[k] && Preserved(s.fields[k].schema, known.entries[k]) == map[]
    {
      if known.entries[k].Dict? {
        StripFull(s.fields[k].schema, known.entries[k]);
      }
    }
    assert Strip(s, known).entries == known.entries;
  }

  /** And reading a merge sets aside exactly what was merged, as long as every nested model is still there. */
  lemma {:induction false} PreservedSurvives(s: Schema, known: Json, preserved: Json)
    requires Full(s, known) && Residue(s, preserved) && Fits(s, known, preserved)
    ensures Preserved(s, Merge(known, preserved)) == preserved.entries
    decreases preserved
  {
    var merged := Merge(known, preserved);
    var kept := Preserved(s, merged);
    forall k | k in preserved.entries ensures k in kept && kept[k] == preserved.entries[k] {
      PreservedAt(s, merged, k);
      if k in s.fields {
        PreservedSurvives(s.fields[k].schema, known.entries[k], preserved.entries[k]);
        assert merged.entries[k] == Merge(known.entries[k], preserved.entries[k]);
        assert preserved.entries[k].entries != map[];
      }
    }
    forall k | k in kept ensures k in preserved.entries {
      if k !in preserved.entries {
        KnownSetsNothingAside(s, known, merged, k);
      }
    }
    assert kept == preserved.entries;
  }

  lemma KnownSetsNothingAside(s: Schema, known: Json, merged: Json, k: string)
    requires Full(s, known) && merged.Dict? && k in merged.entries
    requires k in known.entries && merged.entries[k] == known.entries[k]
    ensures k !in Preserved(s, merged)
  {
    if s.fields[k].Nested? && known.entries[k].Dict? {
      StripFull(s.fields[k].schema, known.entries[k]);
    }
  }

  /**
    The condition is needed: a remainder whose model is gone from the dump (a claim that became
    null, say) is not written back.
  */
  lemma {:induction false} LostWithItsModel(s: Schema, known: Json, preserved: Json)
    requires Full(s, known) && Residue(s, preserved)
    ensures Fits(s, known, preserved) <==> Preserved(s, Merge(known, preserved)) == preserved.entries
    decreases preserved
  {
    if Fits(s, known, preserved) {
      PreservedSurvives(s, known, preserved);
    } else {
      var merged := Merge(known, preserved);
      var k :| k in preserved.entries && k in s.fields && !Fits(s.fields[k].schema, known.entries[k], preserved.entries[k]);
      if known.entries[k].Dict? {
        LostWithItsModel(s.fields[k].schema, known.entries[k], preserved.entries[k]);
        assert merged.entries[k] == Merge(known.entries[k], preserved.entries[k]);
        assert k in Preserved(s, merged) ==>
                 Preserved(s, merged)[k] == Dict(Preserved(s.fields[k].schema, merged.entries[k]));
      } else {
        assert merged.entries[k] == known.entries[k];
        KnownSetsNothingAside(s, known, merged, k);
      }
    }
  }

  // ---------------------------------------------------------------- top-level values

  /** The top-level values this build does not know. */
  function UnknownTop(s: Schema, payload: Json): map<string, Json> {
    if payload.Dict? then map k | k in payload.entries && k !in s.fields :: payload.entries[k] else map[]
  }

  lemma TopSurvives(s: Schema, known: Json, preserved: Json)
    requires Full(s, known) && Residue(s, preserved)
    ensures UnknownTop(s, Merge(known, preserved)) == UnknownTop(s, preserved)
    ensures Merge(known, preserved).Dict?
  {
  }

  lemma TopSetAside(s: Schema, payload: Json)
    requires payload.Dict?
    ensures UnknownTop(s, Dict(Preserved(s, payload))) == UnknownTop(s, payload)
  {
    var (aside, top) := (UnknownTop(s, Dict(Preserved(s, payload))), UnknownTop(s, payload));
    forall k ensures k in aside <==> k in top {
      PreservedAt(s, payload, k);
    }
  }

  // ---------------------------------------------------------------- the loops

  /** `_strip_unknown_fields`: cleaned payload, unknown names appended to `found`, values set aside. */
  method StripUnknownFields(s: Schema, payload: Json, path: Path, found: seq<Path>)
    returns (cleaned: Json, found': seq<Path>, preserved: map<string, Json>)
    ensures cleaned == Strip(s, payload) && preserved == Preserved(s, payload)
    ensures found <= found'
    ensures forall q :: q in found'[|found|..] <==> path <= q && Unknown(s, payload, q[|path|..])
    ensures Distinct(found'[|found|..])
    decreases payload, 1
  {
    found', preserved := found, map[];
    if !payload.Dict? {
      return payload, found, map[];
    }
    hide Strip, Preserved, Visited, Through, Distinct;
    var done: map<string, Json> := map[];
    var left := payload.entries.Keys;
    NothingVisited(s, payload, path, found);
    while left != {}
      invariant left <= payload.entries.Keys
      invariant forall k :: k in done <==> k in payload.entries && k !in left && k in s.fields
      invariant forall k :: k in done ==> done[k] == StripValue(s, k, payload.entries[k])
      invariant forall k :: k in preserved <==> k in payload.entries && k !in left && SetsAside(s, k, payload.entries[k])
      invariant forall k :: k in preserved ==> preserved[k] == AsideValue(s, k, payload.entries[k])
      invariant found <= found'
      invariant forall q :: q in found'[|found|..] <==> Visited(s, payload, path, left, q)
      invariant Distinct(found'[|found|..])
      decreases |left|
    {
      var key :| key in left;
      left := left - {key};
      ghost var before := found';
      var kept, added, aside := StripKey(s, payload, path, key);
      if kept.Some? {
        done := done[key := kept.value];
      }
      if aside.Some? {
        preserved := preserved[key := aside.value];
      }
      found' := found' + added;
      VisitedGrows(s, payload, path, left, key, before[|found|..], added);
      assert found'[|found|..] == before[|found|..] + added;
    }
    cleaned := Dict(done);
    StripIs(s, payload, done, preserved);
    AllVisited(s, payload, path, found'[|found|..]);
  }

  function StripValue(s: Schema, k: string, value: Json): Json
    requires k in s.fields
  {
    if s.fields[k].Nested? then Strip(s.fields[k].schema, value) else value
  }

  function AsideValue(s: Schema, k: string, value: Json): Json
    requires SetsAside(s, k, value)
  {
    if k !in s.fields then value else Dict(Preserved(s.fields[k].schema, value))
  }

  /** One key: kept, set aside with its name recorded, or split by its own model. */
  method StripKey(s: Schema, payload: Json, path: Path, key: string)
    returns (kept: Option<Json>, added: seq<Path>, aside: Option<Json>)
    requires payload.Dict? && key in payload.entries
    ensures kept == if key in s.fields then Some(StripValue(s, key, payload.entries[key])) else None
    ensures aside == if SetsAside(s, key, payload.entries[key]) then Some(AsideValue(s, key, payload.entries[key])) else None
    ensures Distinct(added) && forall q :: q in added <==> Through(s, payload, path, key, q)
    decreases payload, 0
  {
    var value := payload.entries[key];
    if key !in s.fields {
      added := [path + [key]];
      kept, aside := None, Some(value);
    } else if s.fields[key].Plain? {
      added := [];
      kept, aside := Some(value), None;
    } else {
      var inner, names, rest := StripUnknownFields(s.fields[key].schema, value, path + [key], []);
      assert names[0..] == names;
      added := names;
      kept, aside := Some(inner), if rest != map[] then Some(Dict(rest)) else None;
    }
    AddedAre(s, payload, path, key, added);
  }

  lemma StripIs(s: Schema, payload: Json, done: map<string, Json>, preserved: map<string, Json>)
    requires payload.Dict?
    requires forall k :: k in done <==> k in payload.entries && k in s.fields
    requires forall k :: k in done ==> done[k] == StripValue(s, k, payload.entries[k])
    requires forall k :: k in preserved <==> k in payload.entries && SetsAside(s, k, payload.entries[k])
    requires forall k :: k in preserved ==> preserved[k] == AsideValue(s, k, payload.entries[k])
    ensures Dict(done) == Strip(s, payload) && preserved == Preserved(s, payload)
  {
    assert done == Strip(s, payload).entries;
    assert preserved == Preserved(s, payload);
  }

  lemma NothingVisited(s: Schema, payload: Json, path: Path, found: seq<Path>)
    requires payload.Dict?
    ensures forall q :: q in found[|found|..] <==> Visited(s, payload, path, payload.entries.Keys, q)
    ensures Distinct(found[|found|..])
  {
  }

  lemma AllVisited(s: Schema, payload: Json, path: Path, names: seq<Path>)
    requires forall q :: q in names <==> Visited(s, payload, path, {}, q)
    ensures forall q :: q in names <==> path <= q && Unknown(s, payload, q[|path|..])
  {
  }

  lemma DistinctConcat(a: seq<Path>, b: seq<Path>)
    requires Distinct(a) && Distinct(b) && forall q :: !(q in a && q in b)
    ensures Distinct(a + b)
  {
    var c := a + b;
    forall i, j | 0 <= i < j < |c| ensures c[i] != c[j] {
      if i < |a| <= j {
        assert a[i] in a && b[j - |a|] in b;
      }
    }
  }

  /** An unknown path below `path` whose first key was already handled. */
  ghost predicate Visited(s: Schema, payload: Json, path: Path, left: set<string>, q: Path) {
    path <= q && Unknown(s, payload, q[|path|..]) && q[|path|] !in left
  }

  ghost predicate Through(s: Schema, payload: Json, path: Path, key: string, q: Path) {
    path <= q && Unknown(s, payload, q[|path|..]) && q[|path|] == key
  }

  lemma VisitedGrows(s: Schema, payload: Json, path: Path, left: set<string>, key: string, before: seq<Path>, added: seq<Path>)
    requires key !in left && Distinct(before) && Distinct(added)
    requires forall q :: q in before <==> Visited(s, payload, path, left + {key}, q)
    requires forall q :: q in added <==> Through(s, payload, path, key, q)
    ensures forall q :: q in before + added <==> Visited(s, payload, path, left, q)
    ensures Distinct(before + added)
  {
    DistinctConcat(before, added);
  }

  lemma AddedAre(s: Schema, payload: Json, path: Path, key: string, added: seq<Path>)
    requires payload.Dict? && key in payload.entries
    requires key !in s.fields ==> added == [path + [key]]
    requires key in s.fields && s.fields[key].Plain? ==> added == []
    requires key in s.fields && s.fields[key].Nested? ==>
               forall q :: q in added <==> path + [key] <= q && Unknown(s.fields[key].schema, payload.entries[key], q[|path| + 1..])
    ensures forall q :: q in added <==> Through(s, payload, path, key, q)
  {
    forall q ensures q in added <==> Through(s, payload, path, key, q) {
      if path <= q && |q| > |path| {
        assert q[|path|..][1..] == q[|path| + 1..];
        assert path + [key] <= q <==> q[|path|] == key;
        if key !in s.fields {
          assert |q| == |path| + 1 && q[|path|] == key <==> q == path + [key];
        }
      }
    }
  }

  /** `_merge_preserved`. */
  method MergePreserved(payload: Json, preserved: Json) returns (merged: Json)
    requires payload.Dict? && preserved.Dict?
    ensures merged == Merge(payload, preserved)
    decreases preserved, 0
  {
    if preserved.entries == map[] {
      MergeNothing(payload);
      return payload;
    }
    hide Merge;
    var result := payload.entries;
    var left := preserved.entries.Keys;
    while left != {}
      invariant left <= preserved.entries.Keys
      invariant forall k :: k in result <==> k in payload.entries || (k in preserved.entries && k !in left)
      invariant forall k :: k in payload.entries && k in left ==> result[k] == payload.entries[k]
      invariant forall k :: k in result && k !in left ==> result[k] == MergeValue(payload, preserved, k)
      decreases |left|
    {
      var key :| key in left;
      left := left - {key};
      result := MergeKey(result, key, preserved.entries[key]);
    }
    merged := Dict(result);
    MergeIs(payload, preserved, result);
  }

  function MergeValue(payload: Json, preserved: Json, k: string): Json
    requires payload.Dict? && preserved.Dict? && (k in payload.entries || k in preserved.entries)
  {
    if k in payload.entries && k in preserved.entries && payload.entries[k].Dict? && preserved.entries[k].Dict?
    then Merge(payload.entries[k], preserved.entries[k])
    else if k in payload.entries then payload.entries[k] else preserved.entries[k]
  }

  lemma MergeIs(payload: Json, preserved: Json, result: map<string, Json>)
    requires payload.Dict? && preserved.Dict?
    requires forall k :: k in result <==> k in payload.entries || k in preserved.entries
    requires forall k :: k in result ==> result[k] == MergeValue(payload, preserved, k)
    ensures Dict(result) == Merge(payload, preserved)
  {
    assert result == Merge(payload, preserved).entries;
  }

  method MergeKey(payload: map<string, Json>, key: string, value: Json) returns (merged: map<string, Json>)
    ensures merged == if key in payload && value.Dict? && payload[key].Dict? then payload[key := Merge(payload[key], value)]
                      else if key !in payload then payload[key := value] else payload
    decreases value, 1
  {
    merged := payload;
    if key in merged && value.Dict? && merged[key].Dict? {
      var inner := MergePreserved(merged[key], value);
      merged := merged[key := inner];
    } else if key !in merged {
      merged := merged[key := value];
    }
  }

  // ---------------------------------------------------------------- load, change, persist

  /** A stripped payload holds nothing this build does not know, and there is nothing more to set aside. */
  lemma {:induction false} StrippedIsKnown(s: Schema, payload: Json)
    ensures forall q :: !Unknown(s, Strip(s, payload), q)
    ensures Preserved(s, Strip(s, payload)) == map[]
    ensures Strip(s, Strip(s, payload)) == Strip(s, payload)
    decreases payload
  {
    if payload.Dict? {
      var stripped := Strip(s, payload);
      forall k | k in stripped.entries && s.fields[k].Nested?
        ensures Preserved(s.fields[k].schema, stripped.entries[k]) == map[]
        ensures Strip(s.fields[k].schema, stripped.entries[k]) == stripped.entries[k]
        ensures forall q :: !Unknown(s.fields[k].schema, stripped.entries[k], q)
      {
        StrippedIsKnown(s.fields[k].schema, payload.entries[k]);
      }
      assert Strip(s, stripped).entries == stripped.entries;
    }
  }

  class SupervisorState {
    const schema: Schema
    /** Validation against the model: a snapshot with every field, or an error. */
    const validate: Json -> Option<Json>
    var disk: Json
    var snapshot: Json
    var preservedUnknown: map<string, Json>

    ghost predicate Valid()
      reads this
    {
      && (forall j :: validate(j).Some? ==> Full(schema, validate(j).value))
      && disk.Dict?
      && Full(schema, snapshot)
      && Residue(schema, Dict(preservedUnknown))
      && UnknownTop(schema, Dict(preservedUnknown)) == UnknownTop(schema, disk)
    }

    /** `_load` of an existing file. */
    constructor Load(schema: Schema, validate: Json -> Option<Json>, payload: Json)
      requires payload.Dict? && validate(Strip(schema, payload)).Some?
      requires forall j :: validate(j).Some? ==> Full(schema, validate(j).value)
      ensures Valid() && disk == payload && this.schema == schema && this.validate == validate
      ensures Some(snapshot) == validate(Strip(schema, payload)) && preservedUnknown == Preserved(schema, payload)
    {
      var cleaned, unknown, preserved := StripUnknownFields(schema, payload, [], []);
      this.schema, this.validate, disk := schema, validate, payload;
      snapshot := validate(cleaned).value;
      preservedUnknown := preserved;
      PreservedIsResidue(schema, payload);
      TopSetAside(schema, payload);
    }

    /** `_refresh`: read again what is on disk; a payload that does not validate raises. */
    method Refresh() returns (r: Result<seq<Path>>)
      requires Valid()
      modifies this`snapshot, this`preservedUnknown
      ensures Valid() && disk == old(disk)
      ensures r.Raised? <==> validate(Strip(schema, disk)).None?
      ensures r.Raised? ==> snapshot == old(snapshot) && preservedUnknown == old(preservedUnknown)
      ensures r.Ok? ==> Some(snapshot) == validate(Strip(schema, disk)) && preservedUnknown == Preserved(schema, disk)
      ensures r.Ok? ==> forall q :: q in r.value <==> Unknown(schema, disk, q)
    {
      var cleaned, unknown, preserved := StripUnknownFields(schema, disk, [], []);
      if validate(cleaned).None? {
        return Raised(InvalidValue);
      }
      snapshot := validate(cleaned).value;
      preservedUnknown := preserved;
      PreservedIsResidue(schema, disk);
      TopSetAside(schema, disk);
      assert unknown[0..] == unknown;
      assert forall q: Path :: q[0..] == q;
      return Ok(unknown);
    }

    /** `_persist`: the next reader of this build gets exactly this snapshot, and no unknown top-level value is lost. */
    method Persist()
      requires Valid()
      modifies this`disk
      ensures Valid()
      ensures Strip(schema, disk) == snapshot
      ensures UnknownTop(schema, disk) == old(UnknownTop(schema, disk))
      ensures Fits(schema, snapshot, Dict(preservedUnknown)) ==> Preserved(schema, disk) == preservedUnknown
    {
      disk := MergePreserved(snapshot, Dict(preservedUnknown));
      TopSurvives(schema, snapshot, Dict(preservedUnknown));
      StripIgnoresPreserved(schema, snapshot, Dict(preservedUnknown));
      LostWithItsModel(schema, snapshot, Dict(preservedUnknown));
    }

    /** `model_copy(update=...)`. */
    method Change(known: Json)
      requires Valid() && Full(schema, known)
      modifies this`snapshot
      ensures Valid() && snapshot == known
    {
      snapshot := known;
    }

    /** A new claim is a new object: what was set aside for the predecessor's is dropped. */
    method ReplaceClaim(known: Json)
      requires Valid() && Full(schema, known) && "claim" in schema.fields
      modifies this`snapshot, this`preservedUnknown
      ensures Valid() && snapshot == known && "claim" !in preservedUnknown
      ensures preservedUnknown == old(preservedUnknown) - {"claim"}
    {
      preservedUnknown := preservedUnknown - {"claim"};
      snapshot := known;
      assert UnknownTop(schema, Dict(preservedUnknown)) == UnknownTop(schema, Dict(old(preservedUnknown)));
    }

    /** Any number of load, change and persist cycles keeps every unknown top-level value as the newer build wrote it. */
    method Supervise(changes: seq<(Json, bool)>)
      requires Valid() && "claim" in schema.fields
      requires forall k :: 0 <= k < |changes| ==> Full(schema, changes[k].0)
      modifies this
      ensures Valid() && UnknownTop(schema, disk) == old(UnknownTop(schema, disk))
      ensures changes != [] && validate(Strip(schema, old(disk))).Some?
              && (forall k :: 0 <= k < |changes| ==> validate(changes[k].0).Some?) ==>
                Strip(schema, disk) == changes[|changes| - 1].0
    {
      hide Strip, Preserved, UnknownTop, Full, Residue, Unknown;
      for k := 0 to |changes|
        invariant Valid() && UnknownTop(schema, disk) == old(UnknownTop(schema, disk))
        invariant validate(Strip(schema, old(disk))).Some? && (forall j :: 0 <= j < |changes| ==> validate(changes[j].0).Some?) ==>
                    validate(Strip(schema, disk)).Some? && (k > 0 ==> Strip(schema, disk) == changes[k - 1].0)
      {
        Cycle(changes[k].0, changes[k].1);
      }
    }

    /** One read, change and rewrite; a payload that does not validate is left alone. */
    method Cycle(known: Json, newClaim: bool)
      requires Valid() && "claim" in schema.fields && Full(schema, known)
      modifies this
      ensures Valid() && UnknownTop(schema, disk) == old(UnknownTop(schema, disk))
      ensures if validate(Strip(schema, old(disk))).Some? then Strip(schema, disk) == known else disk == old(disk)
    {
      hide Strip, Preserved, UnknownTop, Full, Residue, Unknown;
      var refreshed := Refresh();
      if refreshed.Ok? {
        if newClaim {
          ReplaceClaim(known);
        } else {
          Change(known);
        }
        Persist();
      }
    }
  }
}
