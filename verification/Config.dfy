/** The runtime configuration and its validation (internal/config/sentinel.go). */
module Config {
  import opened Common
  import RateLimiter

  datatype Key = Key(provider: string, value: string)

  datatype KeyInstance = KeyInstance(keyRef: string, priority: int, enabled: bool)

  datatype Pricing = Pricing(inputCost: real, outputCost: real)

  datatype Model = Model(
    enabled: bool, provider: string, modelId: string, keyInstance: string, keyInstances: seq<string>,
    pricing: Pricing, limits: RateLimiter.Limits, displayName: string)

  type Keys = map<string, Key>
  type Instances = map<string, KeyInstance>
  type Models = map<string, Model>

  datatype Configuration = Configuration(
    keys: Keys, instances: Instances, models: Models,
    weakOrder: seq<string>, strongOrder: seq<string>, judgeEnabled: bool, judgeOrder: seq<string>)

  datatype ConfigError =
    | NoKeys | NoKeyInstances | NoModels
    | MissingKey(id: string)
    | BadModel(id: string, fault: ModelFault)
    | EmptyWeakTier | EmptyStrongTier
    | MissingInTier(id: string) | DisabledInTier(id: string) | InBothTiers(id: string)
    | EmptyJudgeOrder | MissingJudge(id: string)

  datatype ModelFault = NoInstances | Duplicate(i: string) | MissingInstance(i: string) | WrongProvider(i: string) | NoneEnabled

  /** The old single key_instance stands for a list of one. */
  function InstancesOf(m: Model): seq<string> {
    if m.keyInstances == [] && m.keyInstance != "" then [m.keyInstance] else m.keyInstances
  }

  function Normal(m: Model): Model {
    m.(keyInstances := InstancesOf(m))
  }

  function NormalModels(models: Models): Models {
    map id | id in models :: Normal(models[id])
  }

  // ---- What a valid configuration is --------------------------------------

  ghost predicate NoRepeats(s: seq<string>) {
    forall i, j :: 0 <= i < j < |s| ==> s[i] != s[j]
  }

  ghost predicate RefersTo(i: string, provider: string, keys: Keys, instances: Instances) {
    i in instances && instances[i].keyRef in keys && keys[instances[i].keyRef].provider == provider
  }

  ghost predicate GoodModel(m: Model, keys: Keys, instances: Instances) {
    var used := InstancesOf(m);
    && used != [] && NoRepeats(used)
    && (forall k :: 0 <= k < |used| ==> RefersTo(used[k], m.provider, keys, instances))
    && (m.enabled ==> exists k :: 0 <= k < |used| && used[k] in instances && instances[used[k]].enabled)
  }

  ghost predicate InTier(id: string, models: Models) {
    id in models && models[id].enabled
  }

  ghost predicate KeysFound(keys: Keys, instances: Instances) {
    forall id :: id in instances ==> instances[id].keyRef in keys
  }

  ghost predicate GoodModels(models: Models, keys: Keys, instances: Instances) {
    forall id :: id in models ==> GoodModel(models[id], keys, instances)
  }

  /** Both tiers name enabled models only, and no model twice across them. */
  ghost predicate GoodTiers(weak: seq<string>, strong: seq<string>, models: Models) {
    && weak != [] && strong != []
    && (forall id :: id in weak ==> InTier(id, models))
    && (forall id :: id in strong ==> InTier(id, models) && id !in weak)
  }

  ghost predicate GoodJudge(enabled: bool, order: seq<string>, models: Models) {
    (enabled ==> order != []) && forall id :: id in order ==> id in models
  }

  ghost predicate WellFormed(c: Configuration) {
    && |c.keys| > 0 && |c.instances| > 0 && |c.models| > 0
    && KeysFound(c.keys, c.instances)
    && GoodModels(c.models, c.keys, c.instances)
    && GoodTiers(c.weakOrder, c.strongOrder, c.models)
    && GoodJudge(c.judgeEnabled, c.judgeOrder, c.models)
  }

  // ---- What an error says -------------------------------------------------

  ghost predicate Repeats(s: seq<string>, x: string) {
    exists j, k :: 0 <= j < k < |s| && s[j] == x && s[k] == x
  }

  /** The reported fault is one the model has. */
  ghost predicate HasFault(m: Model, f: ModelFault, keys: Keys, instances: Instances) {
    var used := InstancesOf(m);
    match f
    case NoInstances => used == []
    case Duplicate(i) => Repeats(used, i)
    case MissingInstance(i) => i in used && i !in instances
    case WrongProvider(i) => i in used && i in instances && !RefersTo(i, m.provider, keys, instances)
    case NoneEnabled => m.enabled && forall i :: i in used && i in instances ==> !instances[i].enabled
  }

  /** The reported error is one the configuration has. */
  ghost predicate HasError(c: Configuration, e: ConfigError) {
    match e
    case NoKeys => c.keys == map[]
    case NoKeyInstances => c.instances == map[]
    case NoModels => c.models == map[]
    case MissingKey(id) => id in c.instances && c.instances[id].keyRef !in c.keys
    case BadModel(id, fault) => id in c.models && HasFault(c.models[id], fault, c.keys, c.instances)
    case EmptyWeakTier => c.weakOrder == []
    case EmptyStrongTier => c.strongOrder == []
    case MissingInTier(id) => (id in c.weakOrder || id in c.strongOrder) && id !in c.models
    case DisabledInTier(id) => (id in c.weakOrder || id in c.strongOrder) && id in c.models && !c.models[id].enabled
    case InBothTiers(id) => id in c.weakOrder && id in c.strongOrder
    case EmptyJudgeOrder => c.judgeEnabled && c.judgeOrder == []
    case MissingJudge(id) => id in c.judgeOrder && id !in c.models
  }

  lemma FaultMeansBad(m: Model, f: ModelFault, keys: Keys, instances: Instances)
    requires HasFault(m, f, keys, instances)
    ensures !GoodModel(m, keys, instances)
  {
    var used := InstancesOf(m);
    if f.MissingInstance? || f.WrongProvider? {
      var k :| 0 <= k < |used| && used[k] == f.i;
      assert !RefersTo(used[k], m.provider, keys, instances);
    }
  }

  /** A configuration with an error is not well-formed. */
  lemma ErrorMeansIllFormed(c: Configuration, e: ConfigError)
    requires HasError(c, e)
    ensures !WellFormed(c)
  {
    if e.BadModel? {
      FaultMeansBad(c.models[e.id], e.fault, c.keys, c.instances);
    } else if e.MissingInTier? || e.DisabledInTier? {
      assert !InTier(e.id, c.models);
    }
  }

  /** Errors of the tiers and of the judges do not depend on how models name their keys. */
  lemma ErrorSeesOnlyNormal(c: Configuration, e: ConfigError)
    requires HasError(c.(models := NormalModels(c.models)), e) && !e.BadModel?
    ensures HasError(c, e)
  {
    var normal := NormalModels(c.models);
    assert normal.Keys == c.models.Keys;
    if c.models != map[] {
      var id :| id in c.models;
      assert id in normal;
    }
  }

  lemma NormalKeepsGood(m: Model, keys: Keys, instances: Instances)
    ensures Normal(Normal(m)) == Normal(m)
    ensures GoodModel(Normal(m), keys, instances) <==> GoodModel(m, keys, instances)
  {
    assert InstancesOf(Normal(m)) == InstancesOf(m);
  }

  lemma NormalModelsFacts(models: Models, keys: Keys, instances: Instances)
    ensures var normal := NormalModels(models);
      && normal.Keys == models.Keys && |normal| == |models|
      && NormalModels(normal) == normal
      && (GoodModels(normal, keys, instances) <==> GoodModels(models, keys, instances))
      && (forall id :: InTier(id, normal) <==> InTier(id, models))
  {
    var normal := NormalModels(models);
    assert normal.Keys == models.Keys;
    assert |normal| == |normal.Keys| && |models| == |models.Keys|;
    forall id | id in models
      ensures GoodModel(normal[id], keys, instances) <==> GoodModel(models[id], keys, instances)
      ensures Normal(normal[id]) == normal[id]
    {
      NormalKeepsGood(models[id], keys, instances);
    }
  }

  lemma TiersSeeOnlyNormal(weak: seq<string>, strong: seq<string>, a: Models, b: Models)
    requires forall id :: InTier(id, a) <==> InTier(id, b)
    ensures GoodTiers(weak, strong, a) <==> GoodTiers(weak, strong, b)
  {
  }

  /** Normalising neither makes nor breaks a configuration, and once is enough: validating
      what was validated accepts it again and changes nothing. */
  lemma ValidationIdempotent(c: Configuration)
    ensures var d := c.(models := NormalModels(c.models));
      && (WellFormed(d) <==> WellFormed(c))
      && NormalModels(d.models) == d.models
  {
    var normal := NormalModels(c.models);
    NormalModelsFacts(c.models, c.keys, c.instances);
    TiersSeeOnlyNormal(c.weakOrder, c.strongOrder, c.models, normal);
    assert GoodJudge(c.judgeEnabled, c.judgeOrder, normal) <==> GoodJudge(c.judgeEnabled, c.judgeOrder, c.models);
  }

  /** What normalising does: a model that lists no key instances gets its single old one, if it names
      one, and nothing else changes. */
  lemma NormalMeans(models: Models, id: string)
    requires id in models
    ensures var before, after := models[id], NormalModels(models)[id];
      && after == before.(keyInstances := after.keyInstances)
      && (before.keyInstances != [] || before.keyInstance == "" ==> after.keyInstances == before.keyInstances)
      && (before.keyInstances == [] && before.keyInstance != "" ==> after.keyInstances == [before.keyInstance])
  {
  }

  /** Some models still as they were, the rest normalised. */
  ghost function NormalExcept(models: Models, left: set<string>): Models {
    map id | id in models :: if id in left then models[id] else Normal(models[id])
  }

  /** The models outside `left` are good and normalised by now. */
  ghost predicate CheckedExcept(now: Models, before: Models, left: set<string>, keys: Keys, instances: Instances) {
    now == NormalExcept(before, left) && GoodModels(before - left, keys, instances)
  }

  lemma GoodModelsStep(models: Models, left: set<string>, id: string, keys: Keys, instances: Instances)
    requires GoodModels(models - left, keys, instances) && id in models && GoodModel(models[id], keys, instances)
    ensures GoodModels(models - (left - {id}), keys, instances)
  {
    var more := models - (left - {id});
    forall k | k in more ensures GoodModel(more[k], keys, instances) {
      if k != id {
        assert k in models - left && (models - left)[k] == more[k];
      }
    }
  }

  // ---- The loops that check it --------------------------------------------

  method CheckModel(m: Model, keys: Keys, instances: Instances) returns (fault: Option<ModelFault>)
    requires KeysFound(keys, instances)
    ensures fault.None? <==> GoodModel(m, keys, instances)
    ensures fault.Some? ==> HasFault(m, fault.value, keys, instances)
  {
    var used := InstancesOf(m);
    if |used| == 0 {
      return Some(NoInstances);
    }
    var seen: set<string> := {};
    var enabled := 0;
    for k := 0 to |used|
      invariant seen == set i | 0 <= i < k :: used[i]
      invariant NoRepeats(used[..k])
      invariant forall i :: 0 <= i < k ==> RefersTo(used[i], m.provider, keys, instances)
      invariant enabled > 0 <==> exists i :: 0 <= i < k && used[i] in instances && instances[used[i]].enabled
      invariant enabled >= 0
    {
      if used[k] in seen {
        return Some(Duplicate(used[k]));
      }
      seen := seen + {used[k]};
      if used[k] !in instances {
        assert !RefersTo(used[k], m.provider, keys, instances);
        return Some(MissingInstance(used[k]));
      }
      var inst := instances[used[k]];
      if keys[inst.keyRef].provider != m.provider {
        assert !RefersTo(used[k], m.provider, keys, instances);
        return Some(WrongProvider(used[k]));
      }
      if inst.enabled {
        enabled := enabled + 1;
      }
    }
    assert used[..|used|] == used;
    if m.enabled && enabled == 0 {
      return Some(NoneEnabled);
    }
    fault := None;
  }

  class SentinelConfig {
    var keys: Keys
    var keyInstances: Instances
    var models: Models
    var weakOrder: seq<string>
    var strongOrder: seq<string>
    var judgeEnabled: bool
    var judgeOrder: seq<string>

    constructor (c: Configuration)
      ensures Now() == c
    {
      keys, keyInstances, models := c.keys, c.instances, c.models;
      weakOrder, strongOrder := c.weakOrder, c.strongOrder;
      judgeEnabled, judgeOrder := c.judgeEnabled, c.judgeOrder;
    }

    ghost function Now(): Configuration
      reads this
    {
      Configuration(keys, keyInstances, models, weakOrder, strongOrder, judgeEnabled, judgeOrder)
    }

    /** Maps are visited in whatever order they yield their keys. */
    method CheckKeyInstances() returns (err: Option<ConfigError>)
      ensures err.None? ==> KeysFound(keys, keyInstances)
      ensures err.Some? ==> HasError(Now(), err.value)
    {
      var left := keyInstances.Keys;
      while left != {}
        invariant left <= keyInstances.Keys
        invariant forall id :: id in keyInstances && id !in left ==> keyInstances[id].keyRef in keys
        decreases |left|
      {
        var id :| id in left;
        if keyInstances[id].keyRef !in keys {
          return Some(MissingKey(id));
        }
        left := left - {id};
      }
      err := None;
    }

    /** Normalises one model in place and checks it. */
    method CheckOne(id: string, ghost before: Models, ghost left: set<string>) returns (fault: Option<ModelFault>)
      requires KeysFound(keys, keyInstances) && id in before && id in left
      requires CheckedExcept(models, before, left, keys, keyInstances)
      modifies this`models
      ensures fault.None? ==> CheckedExcept(models, before, left - {id}, keys, keyInstances)
      ensures fault.Some? ==> models == NormalExcept(before, left - {id})
                              && HasFault(before[id], fault.value, keys, keyInstances)
    {
      var model := models[id];
      fault := CheckModel(model, keys, keyInstances);
      if model.keyInstances == [] && model.keyInstance != "" {
        models := models[id := model.(keyInstances := [model.keyInstance])];
      }
      assert models == NormalExcept(before, left - {id});
      if fault.None? {
        GoodModelsStep(before, left, id, keys, keyInstances);
      }
    }

    /** Checks every model and normalises its key instances on the way; when it stops early,
        some models are already normalised and the rest are as they were. */
    method CheckModels() returns (err: Option<ConfigError>)
      requires KeysFound(keys, keyInstances)
      modifies this`models
      ensures exists left :: models == NormalExcept(old(models), left)
      ensures err.None? ==> GoodModels(old(models), keys, keyInstances) && models == NormalModels(old(models))
      ensures err.Some? ==> err.value.BadModel? && err.value.id in old(models)
                            && HasFault(old(models)[err.value.id], err.value.fault, keys, keyInstances)
    {
      ghost var before := models;
      var left := models.Keys;
      assert models == NormalExcept(before, left);
      while left != {}
        invariant left <= before.Keys
        invariant CheckedExcept(models, before, left, keys, keyInstances)
        decreases |left|
      {
        var id :| id in left;
        var fault := CheckOne(id, before, left);
        if fault.Some? {
          return Some(BadModel(id, fault.value));
        }
        left := left - {id};
      }
      assert before - left == before;
      assert NormalExcept(before, left) == NormalModels(before);
      err := None;
    }

    method CheckTiers() returns (err: Option<ConfigError>)
      ensures err.None? ==> GoodTiers(weakOrder, strongOrder, models)
      ensures err.Some? ==> HasError(Now(), err.value) && !err.value.BadModel?
    {
      if |weakOrder| == 0 {
        return Some(EmptyWeakTier);
      }
      if |strongOrder| == 0 {
        return Some(EmptyStrongTier);
      }
      var weak: set<string> := {};
      for k := 0 to |weakOrder|
        invariant weak == set i | 0 <= i < k :: weakOrder[i]
        invariant forall i :: 0 <= i < k ==> InTier(weakOrder[i], models)
      {
        var id := weakOrder[k];
        if id !in models {
          assert !InTier(id, models);
          return Some(MissingInTier(id));
        }
        if !models[id].enabled {
          assert !InTier(id, models);
          return Some(DisabledInTier(id));
        }
        weak := weak + {id};
      }
      assert forall id :: id in weak <==> id in weakOrder;
      for k := 0 to |strongOrder|
        invariant forall i :: 0 <= i < k ==> InTier(strongOrder[i], models) && strongOrder[i] !in weakOrder
      {
        var id := strongOrder[k];
        if id !in models {
          assert !InTier(id, models);
          return Some(MissingInTier(id));
        }
        if !models[id].enabled {
          assert !InTier(id, models);
          return Some(DisabledInTier(id));
        }
        if id in weak {
          return Some(InBothTiers(id));
        }
      }
      err := None;
    }

    method CheckJudge() returns (err: Option<ConfigError>)
      ensures err.None? ==> GoodJudge(judgeEnabled, judgeOrder, models)
      ensures err.Some? ==> HasError(Now(), err.value) && !err.value.BadModel?
    {
      if judgeEnabled && |judgeOrder| == 0 {
        return Some(EmptyJudgeOrder);
      }
      for k := 0 to |judgeOrder|
        invariant forall i :: 0 <= i < k ==> judgeOrder[i] in models
      {
        if judgeOrder[k] !in models {
          return Some(MissingJudge(judgeOrder[k]));
        }
      }
      err := None;
    }

    /** The sections in the order they are looked at, up to the first error. */
    method CheckAll() returns (err: Option<ConfigError>)
      modifies this`models
      ensures exists left :: models == NormalExcept(old(models), left)
      ensures err.None? ==> WellFormed(old(Now())) && models == NormalModels(old(models))
      ensures err.Some? ==> HasError(old(Now()), err.value)
    {
      ghost var was := Now();
      assert models == NormalExcept(models, models.Keys);
      if |keys| == 0 {
        return Some(NoKeys);
      }
      if |keyInstances| == 0 {
        return Some(NoKeyInstances);
      }
      if |models| == 0 {
        return Some(NoModels);
      }
      err := CheckKeyInstances();
      if err.Some? {
        return;
      }
      err := CheckModels();
      if err.Some? {
        return;
      }
      err := CheckTiers();
      if err.Some? {
        ErrorSeesOnlyNormal(was, err.value);
        return;
      }
      err := CheckJudge();
      if err.Some? {
        ErrorSeesOnlyNormal(was, err.value);
        return;
      }
      NormalModelsFacts(was.models, keys, keyInstances);
      TiersSeeOnlyNormal(weakOrder, strongOrder, was.models, models);
      assert GoodJudge(judgeEnabled, judgeOrder, was.models);
    }

    /** Accepts exactly the well-formed configurations, whatever order the maps are visited
        in, and otherwise names an error the configuration has. An accepted one has all its
        models normalised; nothing else ever changes. */
    method Validate() returns (err: Option<ConfigError>)
      modifies this`models
      ensures err.None? <==> WellFormed(old(Now()))
      ensures err.Some? ==> HasError(old(Now()), err.value)
      ensures exists left :: models == NormalExcept(old(models), left)
      ensures err.None? ==> models == NormalModels(old(models)) && WellFormed(Now())
    {
      ghost var was := Now();
      err := CheckAll();
      if err.Some? {
        ErrorMeansIllFormed(was, err.value);
      } else {
        ValidationIdempotent(was);
        assert Now() == was.(models := NormalModels(was.models));
      }
    }
  }
}
