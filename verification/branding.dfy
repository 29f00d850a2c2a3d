/** A tenant's branding over the global one: only the difference is stored, and merging brings it
    back. */
module Branding {
  /** A JSON value. What is not a container is known by its text. */
  datatype Json = Atom(text: string) | List(items: seq<Json>) | Object(fields: map<string, Json>)

  type Fields = map<string, Json>

  predicate BothObjects(base: Fields, key: string, value: Json) {
    value.Object? && key in base && base[key].Object?
  }

  /** mergeBranding: objects are merged key by key, anything else is replaced. */
  function Merge(base: Fields, value: Fields): Fields
    decreases Object(value)
  {
    map key | key in base.Keys + value.Keys ::
      if key !in value then base[key]
      else if BothObjects(base, key, value[key]) then Object(Merge(base[key].fields, value[key].fields))
      else value[key]
  }

  /** What brandingDiff keeps under a key; nothing if the base says the same. */
  function DiffAt(base: Fields, key: string, value: Json): Fields
    decreases value, 1
  {
    if BothObjects(base, key, value) then
      var child := Diff(base[key].fields, value.fields);
      if child == map[] then map[] else map[key := Object(child)]
    else if key in base && base[key] == value then map[]
    else map[key := value]
  }

  function Diff(base: Fields, value: Fields): Fields
    decreases Object(value), 0
  {
    map key | key in value && DiffAt(base, key, value[key]) != map[] :: DiffAt(base, key, value[key])[key]
  }

  /** The value has every key that the base has, at every level where both are objects. */
  predicate HasEveryKey(base: Fields, value: Fields)
    decreases Object(value)
  {
    forall key :: key in base ==>
      key in value && (BothObjects(base, key, value[key]) ==> HasEveryKey(base[key].fields, value[key].fields))
  }

  // ---- merging and diffing, key by key ----

  function MergedChild(base: Fields, key: string, value: Json): Json {
    if BothObjects(base, key, value) then Object(Merge(base[key].fields, value.fields)) else value
  }

  lemma MergedAt(base: Fields, value: Fields, key: string)
    ensures key in Merge(base, value) <==> key in base || key in value
    ensures key in value ==> Merge(base, value)[key] == MergedChild(base, key, value[key])
    ensures key in base && key !in value ==> Merge(base, value)[key] == base[key]
  {
  }

  lemma DiffedAt(base: Fields, value: Fields, key: string)
    ensures key in Diff(base, value) <==> key in value && DiffAt(base, key, value[key]) != map[]
    ensures key in Diff(base, value) ==> Diff(base, value)[key] == DiffAt(base, key, value[key])[key]
  {
  }

  // ---- main results ----

  /** Storing the difference loses nothing: merging it gives what merging the whole value gives. */
  lemma {:induction false} DiffIsEnough(base: Fields, value: Fields)
    ensures Merge(base, Diff(base, value)) == Merge(base, value)
    decreases Object(value)
  {
    var stored := Diff(base, value);
    forall key | key in base || key in value
      ensures key in Merge(base, stored) && Merge(base, stored)[key] == Merge(base, value)[key]
    {
      MergedAt(base, value, key);
      MergedAt(base, stored, key);
      DiffedAt(base, value, key);
      if key in value && BothObjects(base, key, value[key]) {
        DiffIsEnough(base[key].fields, value[key].fields);
        if key !in stored { EmptyChangesNothing(base[key].fields); }
      }
    }
    assert Merge(base, stored).Keys == Merge(base, value).Keys by {
      forall key ensures key in Merge(base, stored) <==> key in Merge(base, value) {
        MergedAt(base, value, key);
        MergedAt(base, stored, key);
        DiffedAt(base, value, key);
      }
    }
  }

  lemma EmptyChangesNothing(base: Fields)
    ensures Merge(base, map[]) == base
  {
  }

  /** Merging gives back the value itself exactly when the value has every key of the base. */
  lemma {:induction false} MergedIsTheValue(base: Fields, value: Fields)
    ensures Merge(base, value) == value <==> HasEveryKey(base, value)
    decreases Object(value)
  {
    forall key | key in value && BothObjects(base, key, value[key])
      ensures Merge(base[key].fields, value[key].fields) == value[key].fields
              <==> HasEveryKey(base[key].fields, value[key].fields)
    {
      MergedIsTheValue(base[key].fields, value[key].fields);
    }
    forall key ensures key in Merge(base, value) <==> key in base || key in value { MergedAt(base, value, key); }
    if Merge(base, value) == value {
      forall key | key in base
        ensures key in value && (BothObjects(base, key, value[key]) ==> HasEveryKey(base[key].fields, value[key].fields))
      {
        MergedAt(base, value, key);
      }
    }
    if HasEveryKey(base, value) {
      forall key | key in value ensures Merge(base, value)[key] == value[key] { MergedAt(base, value, key); }
    }
  }

  /** The difference is empty exactly when merging the value into the base changes nothing. */
  lemma {:induction false} EmptyDiffMeansNoChange(base: Fields, value: Fields)
    ensures Diff(base, value) == map[] <==> Merge(base, value) == base
    decreases Object(value), 0
  {
    forall key | key in value
      ensures key !in Diff(base, value) <==> key in base && Merge(base, value)[key] == base[key]
    {
      MergedAt(base, value, key);
      DiffedAt(base, value, key);
      NothingKeptAt(base, key, value[key]);
    }
    forall key ensures key in Merge(base, value) <==> key in base || key in value { MergedAt(base, value, key); }
    forall key | key in base && key !in value ensures Merge(base, value)[key] == base[key] { MergedAt(base, value, key); }
    if Diff(base, value) != map[] {
      var key :| key in Diff(base, value);
      DiffedAt(base, value, key);
    }
  }

  lemma {:induction false} NothingKeptAt(base: Fields, key: string, value: Json)
    ensures DiffAt(base, key, value) == map[] <==> key in base && MergedChild(base, key, value) == base[key]
    decreases value, 1
  {
    if BothObjects(base, key, value) {
      EmptyDiffMeansNoChange(base[key].fields, value.fields);
      var child := Object(Diff(base[key].fields, value.fields));
      assert key in map[key := child] && map[key := child] != map[];
    } else {
      assert map[key := value] != map[] by { assert key in map[key := value]; }
    }
  }

  const VERSION := "version"

  /** What updateBranding stores for a tenant, and what reading it back gives. */
  function Stored(global: Fields, config: Fields, version: Json): Fields {
    Diff(global, config[VERSION := version])[VERSION := version]
  }

  /** A saved configuration reads back, over the global one, as the configuration that was saved with
      its new version, if it had every key; and in any case as merging it whole would have read. */
  lemma SavedReadsBack(global: Fields, config: Fields, version: Json)
    requires !version.Object?
    ensures Merge(global, Stored(global, config, version)) == Merge(global, config[VERSION := version])
    ensures HasEveryKey(global, config[VERSION := version]) ==>
      Merge(global, Stored(global, config, version)) == config[VERSION := version]
  {
    var value := config[VERSION := version];
    var diff, stored := Diff(global, value), Stored(global, config, version);
    DiffIsEnough(global, value);
    MergedIsTheValue(global, value);
    forall key ensures key in Merge(global, stored) <==> key in Merge(global, value) {
      MergedAt(global, stored, key);
      MergedAt(global, value, key);
      MergedAt(global, diff, key);
    }
    forall key | key in Merge(global, value) ensures Merge(global, stored)[key] == Merge(global, value)[key] {
      MergedAt(global, stored, key);
      MergedAt(global, value, key);
      MergedAt(global, diff, key);
      DiffedAt(global, value, key);
    }
  }

  // ---- the loops ----

  /** The keys are visited in no particular order. */
  method MergeBranding(base: Fields, value: Fields) returns (out: Fields)
    ensures out == Merge(base, value)
    decreases Object(value)
  {
    out := base;
    var rest := value.Keys;
    while rest != {}
      invariant rest <= value.Keys
      invariant out.Keys == base.Keys + (value.Keys - rest)
      invariant forall key :: key in out ==>
        out[key] == if key in value && key !in rest then Merge(base, value)[key] else base[key]
    {
      var key :| key in rest;
      rest := rest - {key};
      if value[key].Object? && key in out && out[key].Object? {
        var child := MergeBranding(out[key].fields, value[key].fields);
        out := out[key := Object(child)];
      } else {
        out := out[key := value[key]];
      }
    }
  }

  method BrandingDiff(base: Fields, value: Fields) returns (out: Fields)
    ensures out == Diff(base, value)
    decreases Object(value)
  {
    out := map[];
    var rest := value.Keys;
    while rest != {}
      invariant rest <= value.Keys
      invariant out.Keys == (set key | key in Diff(base, value) && key !in rest)
      invariant forall key :: key in out ==> out[key] == Diff(base, value)[key]
    {
      var key :| key in rest;
      rest := rest - {key};
      DiffedAt(base, value, key);
      if BothObjects(base, key, value[key]) {
        var child := BrandingDiff(base[key].fields, value[key].fields);
        if child != map[] { out := out[key := Object(child)]; }
      } else if key !in base || value[key] != base[key] {
        out := out[key := value[key]];
      }
    }
  }
}
