// Capability specifications of the local models: the complexity ranges a
// model handles, the "prefer over external" conditions, and the loader that
// keeps them by model id. Reading the YAML file is I/O: the loader receives
// the already-parsed `models` entries in file order.
module CapabilitySpecs {
  import opened Wrappers
  import opened Json
  import opened Seqs

  /** One entry of `prefer_over_external_when`. Entries that are not dicts are ignored. */
  datatype Condition =
    | NotADict
    | Condition(complexityBelow: Option<real>, hasWebSearch: Json, hasCodeExec: Json, userPrefersPrivacy: Json)

  /** The fields of one model's entry that the code reads; `None` is a missing key. */
  datatype SpecData = SpecData(
    displayName: Option<string>,
    description: Option<string>,
    optimalRange: Option<(real, real)>,
    withToolsRange: Option<(real, real)>,
    confidenceMultiplier: Option<real>,
    prefer: Option<seq<Condition>>,
    avgResponseTimeMs: Option<real>)

  datatype Spec = Spec(
    modelId: string,
    displayName: string,
    description: string,
    optimalRange: (real, real),
    withToolsRange: (real, real),
    confidenceMultiplier: real,
    prefer: seq<Condition>,
    avgResponseTimeMs: real)

  /** `CapabilitySpec(model_id, spec_data)`: every missing key takes its documented default. */
  function NewSpec(modelId: string, data: SpecData): (s: Spec)
    ensures s.modelId == modelId
    ensures s.displayName == data.displayName.GetOr(modelId)
    ensures s.optimalRange == data.optimalRange.GetOr((0.0, 1.0))
    ensures s.withToolsRange == data.withToolsRange.GetOr((0.0, 1.0))
    ensures s.prefer == data.prefer.GetOr([])
    ensures s.confidenceMultiplier == data.confidenceMultiplier.GetOr(1.0)
  {
    Spec(modelId, data.displayName.GetOr(modelId), data.description.GetOr(""),
      data.optimalRange.GetOr((0.0, 1.0)), data.withToolsRange.GetOr((0.0, 1.0)),
      data.confidenceMultiplier.GetOr(1.0), data.prefer.GetOr([]), data.avgResponseTimeMs.GetOr(0.0))
  }

  /** `can_handle_complexity`: the score lies in the range for the tool situation, both ends included. */
  predicate CanHandle(s: Spec, score: real, hasTools: bool)
  {
    var range := if hasTools then s.withToolsRange else s.optimalRange;
    range.0 <= score <= range.1
  }

  /** A spec whose entry gives no ranges handles every score from 0 to 1, with or without tools. */
  lemma DefaultRangesHandleUnit(modelId: string, data: SpecData, score: real, hasTools: bool)
    requires data.optimalRange.None? && data.withToolsRange.None?
    requires 0.0 <= score <= 1.0
    ensures CanHandle(NewSpec(modelId, data), score, hasTools)
  {
  }

  /** A score outside a given range is refused. */
  lemma OutsideRangeRefused(s: Spec, score: real, hasTools: bool)
    requires score < (if hasTools then s.withToolsRange else s.optimalRange).0
    ensures !CanHandle(s, score, hasTools)
  {
  }

  /** One condition prefers the local model: a complexity bound above the score, or a tool flag that is set and available. */
  predicate Matches(c: Condition, score: real, hasWebSearch: bool, hasCodeExec: bool)
  {
    c.Condition? &&
    ((c.complexityBelow.Some? && score < c.complexityBelow.value)
     || (Truthy(c.hasWebSearch) && hasWebSearch)
     || (Truthy(c.hasCodeExec) && hasCodeExec))
  }

  /** `should_prefer_over_external`: some condition matches, or else the capability check with tools when any tool is available. */
  predicate ShouldPrefer(s: Spec, score: real, hasWebSearch: bool, hasCodeExec: bool)
  {
    (exists i :: 0 <= i < |s.prefer| && Matches(s.prefer[i], score, hasWebSearch, hasCodeExec))
    || CanHandle(s, score, hasWebSearch || hasCodeExec)
  }

  /** The condition loop with its early returns. */
  method ShouldPreferScan(s: Spec, score: real, hasWebSearch: bool, hasCodeExec: bool) returns (r: bool)
    ensures r == ShouldPrefer(s, score, hasWebSearch, hasCodeExec)
  {
    if s.prefer == [] {
      return CanHandle(s, score, hasWebSearch || hasCodeExec);
    }
    var i := 0;
    while i < |s.prefer|
      invariant 0 <= i <= |s.prefer|
      invariant forall k :: 0 <= k < i ==> !Matches(s.prefer[k], score, hasWebSearch, hasCodeExec)
    {
      var c := s.prefer[i];
      if c.Condition? {
        if c.complexityBelow.Some? && score < c.complexityBelow.value {
          return true;
        }
        if Truthy(c.hasWebSearch) && hasWebSearch {
          return true;
        }
        if Truthy(c.hasCodeExec) && hasCodeExec {
          return true;
        }
        // `user_prefers_privacy` is read but has no effect.
      }
      i := i + 1;
    }
    return CanHandle(s, score, hasWebSearch || hasCodeExec);
  }

  /** Without conditions the preference is exactly the capability check. */
  lemma NoConditionsIsCapability(s: Spec, score: real, hasWebSearch: bool, hasCodeExec: bool)
    requires s.prefer == []
    ensures ShouldPrefer(s, score, hasWebSearch, hasCodeExec) <==> CanHandle(s, score, hasWebSearch || hasCodeExec)
  {
  }

  /** A matching condition prefers the local model whatever the ranges say. */
  lemma MatchingConditionPrefers(s: Spec, score: real, hasWebSearch: bool, hasCodeExec: bool, i: nat)
    requires i < |s.prefer| && Matches(s.prefer[i], score, hasWebSearch, hasCodeExec)
    ensures ShouldPrefer(s, score, hasWebSearch, hasCodeExec)
  {
  }

  /** Handling the complexity implies preferring the local model: conditions only add reasons. */
  lemma CapabilityImpliesPreference(s: Spec, score: real, hasWebSearch: bool, hasCodeExec: bool)
    requires CanHandle(s, score, hasWebSearch || hasCodeExec)
    ensures ShouldPrefer(s, score, hasWebSearch, hasCodeExec)
  {
  }

  /** A privacy-only condition, or an entry that is not a dict, never changes the answer. */
  lemma InertConditionsIgnored(s: Spec, score: real, hasWebSearch: bool, hasCodeExec: bool)
    requires forall i :: 0 <= i < |s.prefer| ==>
      s.prefer[i].NotADict? ||
      (s.prefer[i].complexityBelow.None? && !Truthy(s.prefer[i].hasWebSearch) && !Truthy(s.prefer[i].hasCodeExec))
    ensures ShouldPrefer(s, score, hasWebSearch, hasCodeExec) <==> CanHandle(s, score, hasWebSearch || hasCodeExec)
  {
  }

  /** The dict the loader builds from the entries: a later entry with the same id overwrites an earlier one. */
  function SpecsOf(models: seq<(string, SpecData)>): (m: map<string, Spec>)
    ensures m.Keys == set i | 0 <= i < |models| :: models[i].0
  {
    if models == [] then map[]
    else
      var last := models[|models| - 1];
      var m := SpecsOf(models[..|models| - 1])[last.0 := NewSpec(last.0, last.1)];
      assert forall i :: 0 <= i < |models| - 1 ==> models[..|models| - 1][i] == models[i];
      m
  }

  /** The dict's keys in insertion order: each id once, where it first appears. */
  function IdsOf(models: seq<(string, SpecData)>): (ids: seq<string>)
    ensures Distinct(ids)
    ensures forall id :: id in ids <==> id in SpecsOf(models)
  {
    if models == [] then []
    else
      var init := IdsOf(models[..|models| - 1]);
      var id := models[|models| - 1].0;
      if id in init then init
      else
        DistinctSnoc(init, id);
        init + [id]
  }

  /** The spec stored under an id is built from the last entry with that id. */
  lemma {:induction false} LastEntryWins(models: seq<(string, SpecData)>, i: nat)
    requires i < |models|
    requires forall j :: i < j < |models| ==> models[j].0 != models[i].0
    ensures SpecsOf(models)[models[i].0] == NewSpec(models[i].0, models[i].1)
  {
    if i < |models| - 1 {
      var init := models[..|models| - 1];
      assert forall j :: i < j < |init| ==> init[j] == models[j];
      LastEntryWins(init, i);
      assert init[i] == models[i];
    }
  }

  class SpecLoader {
    var specs: map<string, Spec>
    var order: seq<string>

    /** The keys listed in `order` are exactly the dict's, each once. */
    ghost predicate Valid()
      reads this
    {
      Distinct(order) && forall id :: id in order <==> id in specs
    }

    /**
     * `_load_specs`: a missing file, a file without `models`, or an unreadable
     * file (all `None` here) leaves the dict empty; otherwise each entry is
     * stored under its id, in file order.
     */
    constructor (models: Option<seq<(string, SpecData)>>)
      ensures Valid()
      ensures models.None? ==> specs == map[] && order == []
      ensures models.Some? ==> specs == SpecsOf(models.value) && order == IdsOf(models.value)
    {
      var loaded: map<string, Spec> := map[];
      var ids: seq<string> := [];
      if models.Some? {
        var entries := models.value;
        var i := 0;
        while i < |entries|
          invariant 0 <= i <= |entries|
          invariant loaded == SpecsOf(entries[..i]) && ids == IdsOf(entries[..i])
        {
          assert entries[..i + 1][..i] == entries[..i];
          var (id, data) := entries[i];
          if id !in ids {
            ids := ids + [id];
          }
          loaded := loaded[id := NewSpec(id, data)];
          i := i + 1;
        }
        assert entries[..i] == entries;
      }
      specs := loaded;
      order := ids;
    }

    /** `get_spec`: the spec stored under the id, `None` for an unknown id. */
    function GetSpec(modelId: string): (r: Option<Spec>)
      reads this
      ensures r.Some? <==> modelId in specs
      ensures r.Some? ==> r.value == specs[modelId]
    {
      if modelId in specs then Some(specs[modelId]) else None
    }

    /** `has_spec`: exactly the ids `get_spec` finds. */
    predicate HasSpec(modelId: string)
      reads this
    {
      modelId in specs
    }

    /** `list_models`: the ids in insertion order. */
    function ListModels(): (ids: seq<string>)
      reads this
      requires Valid()
      ensures Distinct(ids)
      ensures forall id :: id in ids <==> HasSpec(id)
    {
      order
    }
  }

  /** `get_spec` and `has_spec` agree on every id. */
  lemma HasSpecIffGetSpec(loader: SpecLoader, modelId: string)
    ensures loader.HasSpec(modelId) <==> loader.GetSpec(modelId).Some?
  {
  }
}
