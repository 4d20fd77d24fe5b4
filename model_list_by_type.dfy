/**
 * `getModelListByType`: the enabled models of one provider and one model type, projected
 * to the fields the model pickers show, with one entry per model id (the first one wins).
 * Image models carry their parameters, or the fallback lookup's value when they have none.
 */
module ModelListByType {
  import opened Wrappers

  type Abilities = map<string, bool>
  type Parameters = map<string, string>

  datatype EnabledAiModel = EnabledAiModel(
    id: string,
    providerId: string,
    modelType: string,
    abilities: Option<Abilities>,
    contextWindowTokens: Option<int>,
    displayName: Option<string>,
    enabled: bool,
    parameters: Option<Parameters>)

  /** The projected entry; `parameters` is present exactly for image models. */
  datatype ListedModel = ListedModel(
    abilities: Abilities,
    contextWindowTokens: Option<int>,
    displayName: string,
    id: string,
    parameters: Option<Parameters>)

  /** The fallback parameter lookup by model id and provider. */
  type ParameterLookup = (string, string) -> Parameters

  predicate Selected(m: EnabledAiModel, providerId: string, modelType: string) {
    m.providerId == providerId && m.modelType == modelType
  }

  /** The models of the provider and type, in input order. */
  function Matching(models: seq<EnabledAiModel>, providerId: string, modelType: string): (r: seq<EnabledAiModel>)
    ensures forall m :: m in r <==> m in models && Selected(m, providerId, modelType)
  {
    if |models| == 0 then []
    else
      var rest := Matching(models[..|models| - 1], providerId, modelType);
      var last := models[|models| - 1];
      assert models == models[..|models| - 1] + [last];
      if Selected(last, providerId, modelType) then rest + [last] else rest
  }

  /** No earlier model has the same id. */
  predicate FirstOfId(ms: seq<EnabledAiModel>, i: nat)
    requires i < |ms|
  {
    forall j :: 0 <= j < i ==> ms[j].id != ms[i].id
  }

  /** The models among the first `n` that are the first of their id, in order. */
  function FirstOccurrences(ms: seq<EnabledAiModel>, n: nat): seq<EnabledAiModel>
    requires n <= |ms|
  {
    if n == 0 then []
    else FirstOccurrences(ms, n - 1) + (if FirstOfId(ms, n - 1) then [ms[n - 1]] else [])
  }

  function Project(m: EnabledAiModel, modelType: string, fallback: ParameterLookup): ListedModel {
    ListedModel(
      m.abilities.GetOr(map[]),
      m.contextWindowTokens,
      m.displayName.GetOr(""),
      m.id,
      if modelType == "image" then Some(if m.parameters.Some? then m.parameters.value else fallback(m.id, m.providerId))
      else None)
  }

  function ProjectAll(ms: seq<EnabledAiModel>, modelType: string, fallback: ParameterLookup): (r: seq<ListedModel>)
    ensures |r| == |ms| && forall k :: 0 <= k < |ms| ==> r[k] == Project(ms[k], modelType, fallback)
  {
    seq(|ms|, k requires 0 <= k < |ms| => Project(ms[k], modelType, fallback))
  }

  function GetModelListByType(models: seq<EnabledAiModel>, providerId: string, modelType: string,
                              fallback: ParameterLookup): seq<ListedModel>
  {
    var matching := Matching(models, providerId, modelType);
    ProjectAll(FirstOccurrences(matching, |matching|), modelType, fallback)
  }

  // ---------------------------------------------------------------------------
  // Properties

  predicate FromFirsts(r: seq<EnabledAiModel>, ms: seq<EnabledAiModel>, n: nat)
    requires n <= |ms|
  {
    forall k :: 0 <= k < |r| ==> KeptFrom(r[k], ms, n)
  }

  /** The model is, among the first `n`, the first of its id. */
  predicate KeptFrom(e: EnabledAiModel, ms: seq<EnabledAiModel>, n: nat)
    requires n <= |ms|
  {
    exists i :: 0 <= i < n && ms[i] == e && FirstOfId(ms, i)
  }

  predicate DistinctIds(r: seq<EnabledAiModel>) {
    forall a, b :: 0 <= a < b < |r| ==> r[a].id != r[b].id
  }

  predicate CoversIds(r: seq<EnabledAiModel>, ms: seq<EnabledAiModel>, n: nat)
    requires n <= |ms|
  {
    forall i :: 0 <= i < n ==> exists k :: 0 <= k < |r| && r[k].id == ms[i].id
  }

  /** Each kept model is, among the first `n`, the first of its id. */
  lemma {:induction false} KeptAreFirst(ms: seq<EnabledAiModel>, n: nat)
    requires n <= |ms|
    ensures FromFirsts(FirstOccurrences(ms, n), ms, n)
  {
    if n > 0 {
      KeptAreFirst(ms, n - 1);
      var prev := FirstOccurrences(ms, n - 1);
      var r := FirstOccurrences(ms, n);
      forall k | 0 <= k < |r| ensures KeptFrom(r[k], ms, n) {
        if k < |prev| {
          assert r[k] == prev[k];
          var i :| 0 <= i < n - 1 && ms[i] == prev[k] && FirstOfId(ms, i);
          assert 0 <= i < n && ms[i] == r[k] && FirstOfId(ms, i);
        } else {
          assert r == prev + [ms[n - 1]] && k == |prev|;
          assert 0 <= n - 1 < n && ms[n - 1] == r[k] && FirstOfId(ms, n - 1);
        }
      }
      assert FromFirsts(r, ms, n);
    }
  }

  /** The kept models have distinct ids. */
  lemma {:induction false} KeptDistinct(ms: seq<EnabledAiModel>, n: nat)
    requires n <= |ms|
    ensures DistinctIds(FirstOccurrences(ms, n))
  {
    if n > 0 {
      KeptDistinct(ms, n - 1);
      KeptAreFirst(ms, n - 1);
      var prev := FirstOccurrences(ms, n - 1);
      var r := FirstOccurrences(ms, n);
      forall a, b | 0 <= a < b < |r| ensures r[a].id != r[b].id {
        if b < |prev| {
          assert r[a] == prev[a] && r[b] == prev[b];
        } else {
          assert r[b] == ms[n - 1] && FirstOfId(ms, n - 1);
          assert r[a] == prev[a];
          var i :| 0 <= i < n - 1 && ms[i] == prev[a] && FirstOfId(ms, i);
          assert ms[i].id != ms[n - 1].id;
        }
      }
    }
  }

  /** Every id among the first `n` models is kept. */
  lemma {:induction false} KeptCovers(ms: seq<EnabledAiModel>, n: nat)
    requires n <= |ms|
    ensures CoversIds(FirstOccurrences(ms, n), ms, n)
  {
    if n > 0 {
      KeptCovers(ms, n - 1);
      var prev := FirstOccurrences(ms, n - 1);
      var r := FirstOccurrences(ms, n);
      assert forall k :: 0 <= k < |prev| ==> r[k] == prev[k];
      forall i | 0 <= i < n ensures exists k :: 0 <= k < |r| && r[k].id == ms[i].id {
        if i < n - 1 {
          var k :| 0 <= k < |prev| && prev[k].id == ms[i].id;
          assert r[k].id == ms[i].id;
        } else if FirstOfId(ms, n - 1) {
          assert r[|r| - 1].id == ms[i].id;
        } else {
          var j :| 0 <= j < n - 1 && ms[j].id == ms[n - 1].id;
          var k :| 0 <= k < |prev| && prev[k].id == ms[j].id;
          assert r[k].id == ms[i].id;
        }
      }
    }
  }

  /** Every model that is the first of its id is kept. */
  lemma {:induction false} FirstsKept(ms: seq<EnabledAiModel>, n: nat, i: nat)
    requires i < n <= |ms| && FirstOfId(ms, i)
    ensures ms[i] in FirstOccurrences(ms, n)
  {
    if i < n - 1 {
      FirstsKept(ms, n - 1, i);
    }
  }

  /** The listed ids are distinct. */
  lemma ResultDistinct(models: seq<EnabledAiModel>, providerId: string, modelType: string, fallback: ParameterLookup)
    ensures var r := GetModelListByType(models, providerId, modelType, fallback);
      forall a, b :: 0 <= a < b < |r| ==> r[a].id != r[b].id
  {
    var matching := Matching(models, providerId, modelType);
    KeptDistinct(matching, |matching|);
  }

  /** Every model of the provider and type has its id listed. */
  lemma ResultComplete(models: seq<EnabledAiModel>, providerId: string, modelType: string, fallback: ParameterLookup)
    ensures var r := GetModelListByType(models, providerId, modelType, fallback);
      forall m :: m in models && Selected(m, providerId, modelType) ==> exists k :: 0 <= k < |r| && r[k].id == m.id
  {
    var matching := Matching(models, providerId, modelType);
    var kept := FirstOccurrences(matching, |matching|);
    KeptCovers(matching, |matching|);
    var r := GetModelListByType(models, providerId, modelType, fallback);
    forall m | m in models && Selected(m, providerId, modelType) ensures exists k :: 0 <= k < |r| && r[k].id == m.id {
      var i :| 0 <= i < |matching| && matching[i] == m;
      var k :| 0 <= k < |kept| && kept[k].id == matching[i].id;
      assert r[k].id == kept[k].id;
    }
  }

  predicate ListedFrom(r: seq<ListedModel>, models: seq<EnabledAiModel>, providerId: string, modelType: string,
                       fallback: ParameterLookup)
  {
    forall k :: 0 <= k < |r| ==> ProjectionOfSelected(r[k], models, providerId, modelType, fallback)
  }

  predicate ProjectionOfSelected(e: ListedModel, models: seq<EnabledAiModel>, providerId: string, modelType: string,
                                 fallback: ParameterLookup)
  {
    exists m :: m in models && Selected(m, providerId, modelType) && e == Project(m, modelType, fallback)
  }

  /** Every listed entry is the projection of a model of the provider and type. */
  lemma ResultSound(models: seq<EnabledAiModel>, providerId: string, modelType: string, fallback: ParameterLookup)
    ensures ListedFrom(GetModelListByType(models, providerId, modelType, fallback), models, providerId, modelType, fallback)
  {
    var matching := Matching(models, providerId, modelType);
    var kept := FirstOccurrences(matching, |matching|);
    KeptAreFirst(matching, |matching|);
    var r := GetModelListByType(models, providerId, modelType, fallback);
    forall k | 0 <= k < |r| ensures ProjectionOfSelected(r[k], models, providerId, modelType, fallback) {
      var i :| 0 <= i < |matching| && matching[i] == kept[k] && FirstOfId(matching, i);
      assert matching[i] in matching;
      assert r[k] == Project(matching[i], modelType, fallback);
    }
    assert ListedFrom(r, models, providerId, modelType, fallback);
  }

  /** The first matching model of an id is the one listed; later duplicates are dropped. */
  lemma FirstDuplicateWins(models: seq<EnabledAiModel>, providerId: string, modelType: string, fallback: ParameterLookup, i: nat)
    requires i < |models| && Selected(models[i], providerId, modelType)
    requires forall j :: 0 <= j < i ==> !(Selected(models[j], providerId, modelType) && models[j].id == models[i].id)
    ensures Project(models[i], modelType, fallback) in GetModelListByType(models, providerId, modelType, fallback)
  {
    var matching := Matching(models, providerId, modelType);
    var kept := FirstOccurrences(matching, |matching|);
    MatchingIndex(models, providerId, modelType, i);
    var p :| 0 <= p < |matching| && matching[p] == models[i] && FirstOfId(matching, p);
    FirstsKept(matching, |matching|, p);
    var k :| 0 <= k < |kept| && kept[k] == models[i];
    assert GetModelListByType(models, providerId, modelType, fallback)[k] == Project(models[i], modelType, fallback);
  }

  predicate FirstIn(matching: seq<EnabledAiModel>, m: EnabledAiModel) {
    exists p :: 0 <= p < |matching| && matching[p] == m && FirstOfId(matching, p)
  }

  /** A matching model with no earlier matching model of its id is the first of its id in the filtered list. */
  lemma {:induction false} MatchingIndex(models: seq<EnabledAiModel>, providerId: string, modelType: string, i: nat)
    requires i < |models| && Selected(models[i], providerId, modelType)
    requires forall j :: 0 <= j < i ==> !(Selected(models[j], providerId, modelType) && models[j].id == models[i].id)
    ensures FirstIn(Matching(models, providerId, modelType), models[i])
  {
    var init := models[..|models| - 1];
    var last := models[|models| - 1];
    var rest := Matching(init, providerId, modelType);
    var matching := Matching(models, providerId, modelType);
    if i == |models| - 1 {
      assert matching == rest + [last];
      forall q | 0 <= q < |rest| ensures matching[q].id != models[i].id {
        assert matching[q] == rest[q];
        assert rest[q] in init;
        var j :| 0 <= j < |init| && init[j] == rest[q];
        assert models[j] == init[j];
      }
      assert matching[|rest|] == models[i];
      assert FirstOfId(matching, |rest|);
    } else {
      assert init[i] == models[i];
      MatchingIndex(init, providerId, modelType, i);
      var p :| 0 <= p < |rest| && rest[p] == models[i] && FirstOfId(rest, p);
      assert forall q :: 0 <= q < |rest| ==> matching[q] == rest[q];
      assert matching[p] == models[i];
      assert FirstOfId(matching, p);
    }
  }

  /** Filtering distributes over concatenation, so the matching models keep their input order. */
  lemma {:induction false} MatchingAppend(a: seq<EnabledAiModel>, b: seq<EnabledAiModel>, providerId: string, modelType: string)
    ensures Matching(a + b, providerId, modelType) == Matching(a, providerId, modelType) + Matching(b, providerId, modelType)
  {
    if |b| == 0 {
      assert a + b == a;
    } else {
      var init := b[..|b| - 1];
      var last := b[|b| - 1];
      MatchingAppend(a, init, providerId, modelType);
      assert (a + b)[..|a + b| - 1] == a + init;
      assert (a + b)[|a + b| - 1] == last;
    }
  }

  /** Whether a model is the first of its id depends only on the models before it. */
  lemma {:induction false} FirstOccurrencesOfPrefix(ms: seq<EnabledAiModel>, x: EnabledAiModel, n: nat)
    requires n <= |ms|
    ensures FirstOccurrences(ms + [x], n) == FirstOccurrences(ms, n)
  {
    if n > 0 {
      FirstOccurrencesOfPrefix(ms, x, n - 1);
      assert FirstOfId(ms + [x], n - 1) == FirstOfId(ms, n - 1) by {
        assert forall j :: 0 <= j < n ==> (ms + [x])[j] == ms[j];
      }
    }
  }

  /**
   * The list for one more model is the list for the models before it, followed by that
   * model's entry exactly when it is of the provider and type and no earlier such model has
   * its id: the entries are the first-of-id models in input order.
   */
  lemma ListGrowsByLast(a: seq<EnabledAiModel>, m: EnabledAiModel, providerId: string, modelType: string,
                        fallback: ParameterLookup)
    ensures GetModelListByType(a + [m], providerId, modelType, fallback)
      == GetModelListByType(a, providerId, modelType, fallback)
         + (if Selected(m, providerId, modelType) && forall x :: x in a && Selected(x, providerId, modelType) ==> x.id != m.id
            then [Project(m, modelType, fallback)] else [])
  {
    var ms := Matching(a, providerId, modelType);
    var ms2 := Matching(a + [m], providerId, modelType);
    assert (a + [m])[..|a + [m]| - 1] == a;
    if Selected(m, providerId, modelType) {
      assert ms2 == ms + [m];
      FirstOccurrencesOfPrefix(ms, m, |ms|);
      var kept := FirstOccurrences(ms, |ms|);
      var unseen := forall x :: x in a && Selected(x, providerId, modelType) ==> x.id != m.id;
      assert FirstOfId(ms2, |ms|) <==> unseen by {
        assert forall j :: 0 <= j < |ms| ==> ms2[j] == ms[j];
        if !unseen {
          var x :| x in a && Selected(x, providerId, modelType) && x.id == m.id;
          assert x in ms;
          var j :| 0 <= j < |ms| && ms[j] == x;
          assert ms2[j].id == ms2[|ms|].id;
        }
        if !FirstOfId(ms2, |ms|) {
          var j :| 0 <= j < |ms| && ms2[j].id == ms2[|ms|].id;
          assert ms[j] in ms;
        }
      }
      var kept2 := FirstOccurrences(ms2, |ms2|);
      assert kept2 == kept + (if unseen then [m] else []);
      var tail := if unseen then [m] else [];
      assert ProjectAll(kept + tail, modelType, fallback) == ProjectAll(kept, modelType, fallback) + ProjectAll(tail, modelType, fallback);
    } else {
      assert ms2 == ms;
    }
  }

  /** Chat entries have no parameters; image entries have their own, else the fallback's. */
  lemma ParametersByType(models: seq<EnabledAiModel>, providerId: string, modelType: string, fallback: ParameterLookup)
    ensures var r := GetModelListByType(models, providerId, modelType, fallback);
      forall k :: 0 <= k < |r| ==> (r[k].parameters.Some? <==> modelType == "image")
  {
  }

  /** A missing display name is listed as `''` and missing abilities as `{}`. */
  lemma MissingFieldDefaults(m: EnabledAiModel, modelType: string, fallback: ParameterLookup)
    ensures m.displayName.None? ==> Project(m, modelType, fallback).displayName == ""
    ensures m.abilities.None? ==> Project(m, modelType, fallback).abilities == map[]
    ensures modelType == "image" && m.parameters.None? ==>
              Project(m, modelType, fallback).parameters == Some(fallback(m.id, m.providerId))
    ensures modelType == "image" && m.parameters.Some? ==> Project(m, modelType, fallback).parameters == m.parameters
  {
  }

  /** No model of the provider and type, as with an empty list, an unknown provider or an unknown type, gives []. */
  lemma NoMatchEmpty(models: seq<EnabledAiModel>, providerId: string, modelType: string, fallback: ParameterLookup)
    requires forall m :: m in models ==> !Selected(m, providerId, modelType)
    ensures GetModelListByType(models, providerId, modelType, fallback) == []
  {
    NoMatchNothing(models, providerId, modelType);
  }

  lemma {:induction false} NoMatchNothing(models: seq<EnabledAiModel>, providerId: string, modelType: string)
    requires forall m :: m in models ==> !Selected(m, providerId, modelType)
    ensures Matching(models, providerId, modelType) == []
  {
    if |models| > 0 {
      NoMatchNothing(models[..|models| - 1], providerId, modelType);
      assert models[|models| - 1] in models;
    }
  }
}
