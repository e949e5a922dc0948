/**
 Translating a legacy model list into a runtime configuration
 (internal/config/sentinel.go, LoadLegacyConfig). The models come out of a map in any order;
 sorting is what makes the result independent of it.
 */
module LegacyConfig {
  import opened Common
  import opened Config
  import RateLimiter

  datatype LegacyModel = LegacyModel(
    displayName: string, provider: string, modelKey: string, status: string,
    priorityGroup: string, order: int, limits: RateLimiter.Limits, pricing: Pricing)

  type Legacy = map<string, LegacyModel>

  /** An entry of a tier before sorting. */
  datatype Item = Item(id: string, order: int)

  // ---- The order ----------------------------------------------------------

  /** Strings compare by their first difference; a proper prefix comes first. */
  predicate StringLess(a: string, b: string) {
    b != [] && (a == [] || a[0] < b[0] || (a[0] == b[0] && StringLess(a[1..], b[1..])))
  }

  predicate ItemLess(a: Item, b: Item) {
    a.order < b.order || (a.order == b.order && StringLess(a.id, b.id))
  }

  lemma {:induction false} StringTrichotomy(a: string, b: string)
    ensures !(StringLess(a, b) && StringLess(b, a)) && !StringLess(a, a)
    ensures StringLess(a, b) || StringLess(b, a) || a == b
    decreases |a|
  {
    if a == [] {
    } else {
      StringTrichotomy(a[1..], a[1..]);
      if b != [] && a[0] == b[0] {
        StringTrichotomy(a[1..], b[1..]);
        assert a == [a[0]] + a[1..] && b == [b[0]] + b[1..];
      }
    }
  }

  lemma {:induction false} StringTransitive(a: string, b: string, c: string)
    requires StringLess(a, b) && StringLess(b, c)
    ensures StringLess(a, c)
    decreases |a|
  {
    if a == [] || !(a[0] == b[0] == c[0]) {
    } else {
      StringTransitive(a[1..], b[1..], c[1..]);
    }
  }

  lemma ItemTrichotomy(a: Item, b: Item)
    ensures !(ItemLess(a, b) && ItemLess(b, a)) && !ItemLess(a, a)
    ensures ItemLess(a, b) || ItemLess(b, a) || a == b
  {
    StringTrichotomy(a.id, b.id);
    StringTrichotomy(a.id, a.id);
  }

  lemma ItemTransitive(a: Item, b: Item, c: Item)
    requires ItemLess(a, b) && ItemLess(b, c)
    ensures ItemLess(a, c)
  {
    if a.order == b.order == c.order {
      StringTransitive(a.id, b.id, c.id);
    }
  }

  predicate Sorted(items: seq<Item>) {
    forall i :: 0 < i < |items| ==> ItemLess(items[i - 1], items[i])
  }

  lemma {:induction false} SortedAt(items: seq<Item>, i: nat, j: nat)
    requires Sorted(items) && i < j < |items|
    ensures ItemLess(items[i], items[j])
    decreases j - i
  {
    if i + 1 == j {
    } else {
      SortedAt(items, i + 1, j);
      ItemTransitive(items[i], items[i + 1], items[j]);
    }
  }

  ghost predicate Lists(items: seq<Item>, s: set<Item>) {
    Sorted(items) && forall x :: x in items <==> x in s
  }

  /** A set of items has only one sorted listing. */
  lemma {:induction false} ListingUnique(a: seq<Item>, b: seq<Item>, s: set<Item>)
    requires Lists(a, s) && Lists(b, s)
    ensures a == b
    decreases |a|
  {
    EmptyListing(a, s);
    EmptyListing(b, s);
    if a == [] {
    } else {
      assert a[0] in s && b[0] in s;
      LeastFirst(a, b[0]);
      LeastFirst(b, a[0]);
      ItemTrichotomy(a[0], b[0]);
      RestLists(a, s);
      RestLists(b, s);
      ListingUnique(a[1..], b[1..], s - {a[0]});
      assert a == [a[0]] + a[1..] && b == [b[0]] + b[1..];
    }
  }

  lemma EmptyListing(items: seq<Item>, s: set<Item>)
    requires Lists(items, s)
    ensures items == [] <==> s == {}
  {
    if items != [] {
      assert items[0] in items;
    }
  }

  lemma LeastFirst(items: seq<Item>, x: Item)
    requires Sorted(items) && x in items
    ensures items[0] == x || ItemLess(items[0], x)
  {
    var k :| 0 <= k < |items| && items[k] == x;
    if k > 0 {
      SortedAt(items, 0, k);
    }
  }

  lemma RestLists(items: seq<Item>, s: set<Item>)
    requires Lists(items, s) && items != []
    ensures Lists(items[1..], s - {items[0]})
  {
    var rest := items[1..];
    assert items == [items[0]] + rest;
    forall k | 0 <= k < |rest| ensures rest[k] != items[0] {
      SortedAt(items, 0, k + 1);
      ItemTrichotomy(items[0], rest[k]);
    }
    forall i | 0 < i < |rest| ensures ItemLess(rest[i - 1], rest[i]) {
      assert rest[i - 1] == items[i] && rest[i] == items[i + 1];
    }
  }

  lemma InsertedAt(items: seq<Item>, k: nat, x: Item, i: nat)
    requires Sorted(items) && k <= |items| && 0 < i <= |items|
    requires k > 0 ==> ItemLess(items[k - 1], x)
    requires k < |items| ==> ItemLess(x, items[k])
    ensures var out := items[..k] + [x] + items[k..];
      ItemLess(out[i - 1], out[i])
  {
    var out := items[..k] + [x] + items[k..];
    if i > k + 1 {
      assert out[i - 1] == items[i - 2] && out[i] == items[i - 1];
    } else if i == k + 1 {
      assert out[i - 1] == x && out[i] == items[k];
    } else if i == k {
      assert out[i - 1] == items[k - 1] && out[i] == x;
    } else {
      assert out[i - 1] == items[i - 1] && out[i] == items[i];
    }
  }

  lemma InsertedLists(items: seq<Item>, k: nat, x: Item, s: set<Item>)
    requires Lists(items, s) && k <= |items|
    requires k > 0 ==> ItemLess(items[k - 1], x)
    requires k < |items| ==> ItemLess(x, items[k])
    ensures Lists(items[..k] + [x] + items[k..], s + {x})
  {
    var out := items[..k] + [x] + items[k..];
    forall i | 0 < i < |out| ensures ItemLess(out[i - 1], out[i]) {
      InsertedAt(items, k, x, i);
    }
    assert items == items[..k] + items[k..];
    assert forall y :: y in out <==> y in items || y == x;
  }

  /** Inserting into a sorted listing, as each step of the sort does. */
  method Insert(items: seq<Item>, x: Item, ghost s: set<Item>) returns (out: seq<Item>)
    requires Lists(items, s) && x !in s
    ensures Lists(out, s + {x})
  {
    var k := 0;
    while k < |items| && ItemLess(items[k], x)
      invariant 0 <= k <= |items|
      invariant k > 0 ==> ItemLess(items[k - 1], x)
    {
      k := k + 1;
    }
    if k < |items| {
      ItemTrichotomy(items[k], x);
      assert items[k] in s;
    }
    InsertedLists(items, k, x, s);
    out := items[..k] + [x] + items[k..];
  }

  /** The sort the translation relies on: distinct items in, their one sorted listing out. */
  method SortLegacy(items: seq<Item>) returns (out: seq<Item>)
    requires forall i, j :: 0 <= i < j < |items| ==> items[i] != items[j]
    ensures Lists(out, set x | x in items)
  {
    out := [];
    ghost var s: set<Item> := {};
    for k := 0 to |items|
      invariant s == set i | 0 <= i < k :: items[i]
      invariant Lists(out, s)
    {
      out := Insert(out, items[k], s);
      s := s + {items[k]};
    }
    assert s == set x | x in items;
  }

  function Ids(items: seq<Item>): (r: seq<string>)
    ensures |r| == |items| && forall i :: 0 <= i < |r| ==> r[i] == items[i].id
  {
    seq(|items|, i requires 0 <= i < |items| => items[i].id)
  }

  // ---- What the translation is --------------------------------------------

  function UpperChar(c: char): char {
    if 'a' <= c <= 'z' then (c as int - 32) as char else c
  }

  function LowerChar(c: char): char {
    if 'A' <= c <= 'Z' then (c as int + 32) as char else c
  }

  function Upper(s: string): string {
    seq(|s|, i requires 0 <= i < |s| => UpperChar(s[i]))
  }

  function Lower(s: string): string {
    seq(|s|, i requires 0 <= i < |s| => LowerChar(s[i]))
  }

  predicate Contains(s: string, part: string) {
    exists i :: 0 <= i <= |s| && part <= s[i..]
  }

  predicate IsActive(m: LegacyModel) {
    Upper(m.status) == "ACTIVE"
  }

  predicate IsStrong(m: LegacyModel) {
    m.priorityGroup == "strong_tier"
  }

  predicate IsJudge(id: string, m: LegacyModel) {
    m.provider == "gemini" || Contains(Lower(id), "judge")
  }

  function KeyName(provider: string): string {
    provider + "_key"
  }

  function InstanceName(provider: string): string {
    provider + "_primary"
  }

  function FirstNonEmpty(a: string, b: string): string {
    if a != "" then a else b
  }

  function Translated(id: string, m: LegacyModel): Model {
    Model(true, m.provider, FirstNonEmpty(m.modelKey, id), "", [InstanceName(m.provider)],
          m.pricing, m.limits, FirstNonEmpty(m.displayName, id))
  }

  /** The three lists an active model can end up in. */
  datatype Group = WeakGroup | StrongGroup | JudgeGroup

  predicate Belongs(g: Group, id: string, m: LegacyModel) {
    && IsActive(m)
    && match g
       case WeakGroup => !IsStrong(m)
       case StrongGroup => IsStrong(m)
       case JudgeGroup => IsJudge(id, m)
  }

  function ItemsOf(g: Group, legacy: Legacy): set<Item> {
    set id | id in legacy && Belongs(g, id, legacy[id]) :: Item(id, legacy[id].order)
  }

  function Providers(legacy: Legacy): set<string> {
    set id | id in legacy && IsActive(legacy[id]) :: legacy[id].provider
  }

  function FirstTwo(ids: seq<string>): seq<string> {
    if |ids| <= 2 then ids else ids[..2]
  }

  lemma NamesInjective(p: string, q: string)
    ensures KeyName(p) == KeyName(q) ==> p == q
    ensures InstanceName(p) == InstanceName(q) ==> p == q
  {
    if KeyName(p) == KeyName(q) {
      assert p == KeyName(p)[..|p|] && q == KeyName(q)[..|q|];
    }
    if InstanceName(p) == InstanceName(q) {
      assert p == InstanceName(p)[..|p|] && q == InstanceName(q)[..|q|];
    }
  }

  /** One key and one key instance for every provider in use. */
  ghost predicate KeysFor(keys: Keys, instances: Instances, providers: set<string>, keyOf: string -> string) {
    && keys.Keys == (set p | p in providers :: KeyName(p))
    && instances.Keys == (set p | p in providers :: InstanceName(p))
    && (forall p :: p in providers ==> keys[KeyName(p)] == Key(p, keyOf(p)))
    && (forall p :: p in providers ==> instances[InstanceName(p)] == KeyInstance(KeyName(p), 0, true))
  }

  /** The sorted contents of both tiers and of the judge order. */
  datatype Tiers = Tiers(weak: seq<Item>, strong: seq<Item>, judges: seq<Item>)

  ghost predicate TiersOf(t: Tiers, legacy: Legacy) {
    && Lists(t.weak, ItemsOf(WeakGroup, legacy)) && Lists(t.strong, ItemsOf(StrongGroup, legacy)) && Lists(t.judges, ItemsOf(JudgeGroup, legacy))
  }

  function JudgeOrder(t: Tiers): seq<string> {
    if t.judges == [] then FirstTwo(Ids(t.weak)) else Ids(t.judges)
  }

  /** Everything the translation of a legacy list is: keys per provider, a model per active
      entry, both tiers and the judges sorted by (order, id). */
  ghost predicate IsTranslation(c: Configuration, legacy: Legacy, keyOf: string -> string) {
    && KeysFor(c.keys, c.instances, Providers(legacy), keyOf)
    && c.models == TranslatedModels(legacy)
    && c.judgeEnabled
    && exists t :: TiersOf(t, legacy) && c.weakOrder == Ids(t.weak) && c.strongOrder == Ids(t.strong)
                   && c.judgeOrder == JudgeOrder(t)
  }

  function TranslatedModels(legacy: Legacy): Models {
    map id | id in legacy && IsActive(legacy[id]) :: Translated(id, legacy[id])
  }

  lemma KeysForUnique(k1: Keys, i1: Instances, k2: Keys, i2: Instances, providers: set<string>, keyOf: string -> string)
    requires KeysFor(k1, i1, providers, keyOf) && KeysFor(k2, i2, providers, keyOf)
    ensures k1 == k2 && i1 == i2
  {
    forall k | k in k1.Keys ensures k1[k] == k2[k] {
      var p :| p in providers && k == KeyName(p);
    }
    forall k | k in i1.Keys ensures i1[k] == i2[k] {
      var p :| p in providers && k == InstanceName(p);
    }
    assert k1.Keys == k2.Keys && i1.Keys == i2.Keys;
  }

  lemma TiersUnique(t: Tiers, u: Tiers, legacy: Legacy)
    requires TiersOf(t, legacy) && TiersOf(u, legacy)
    ensures t == u
  {
    ListingUnique(t.weak, u.weak, ItemsOf(WeakGroup, legacy));
    ListingUnique(t.strong, u.strong, ItemsOf(StrongGroup, legacy));
    ListingUnique(t.judges, u.judges, ItemsOf(JudgeGroup, legacy));
  }

  /** The result does not depend on the order the models are visited in: there is only one. */
  lemma TranslationUnique(c: Configuration, d: Configuration, legacy: Legacy, keyOf: string -> string)
    requires IsTranslation(c, legacy, keyOf) && IsTranslation(d, legacy, keyOf)
    ensures c == d
  {
    KeysForUnique(c.keys, c.instances, d.keys, d.instances, Providers(legacy), keyOf);
    var t :| TiersOf(t, legacy) && c.weakOrder == Ids(t.weak) && c.strongOrder == Ids(t.strong)
             && c.judgeOrder == JudgeOrder(t);
    var u :| TiersOf(u, legacy) && d.weakOrder == Ids(u.weak) && d.strongOrder == Ids(u.strong)
             && d.judgeOrder == JudgeOrder(u);
    TiersUnique(t, u, legacy);
  }

  // ---- When it is accepted ------------------------------------------------

  ghost predicate HasTier(legacy: Legacy, strong: bool) {
    exists id :: id in legacy && IsActive(legacy[id]) && IsStrong(legacy[id]) == strong
  }

  lemma ListedIds(items: seq<Item>, s: set<Item>, id: string)
    requires Lists(items, s)
    ensures id in Ids(items) <==> exists x :: x in s && x.id == id
  {
    if id in Ids(items) {
      var k :| 0 <= k < |items| && items[k].id == id;
      assert items[k] in s;
    }
    if x :| x in s && x.id == id {
      var k :| 0 <= k < |items| && items[k] == x;
      assert Ids(items)[k] == id;
    }
  }

  lemma TierIds(legacy: Legacy, items: seq<Item>, strong: bool)
    requires Lists(items, ItemsOf(if strong then StrongGroup else WeakGroup, legacy))
    ensures forall id :: id in Ids(items) <==> id in legacy && IsActive(legacy[id]) && IsStrong(legacy[id]) == strong
    ensures Ids(items) != [] <==> HasTier(legacy, strong)
  {
    var s := ItemsOf(if strong then StrongGroup else WeakGroup, legacy);
    forall id
      ensures id in Ids(items) <==> id in legacy && IsActive(legacy[id]) && IsStrong(legacy[id]) == strong
    {
      ListedIds(items, s, id);
      if id in legacy && IsActive(legacy[id]) && IsStrong(legacy[id]) == strong {
        assert Item(id, legacy[id].order) in s;
      }
    }
    if Ids(items) != [] {
      assert Ids(items)[0] in Ids(items);
    }
  }

  lemma TranslatedModelsGood(c: Configuration, legacy: Legacy, keyOf: string -> string)
    requires IsTranslation(c, legacy, keyOf)
    ensures KeysFound(c.keys, c.instances) && GoodModels(c.models, c.keys, c.instances)
  {
    forall i | i in c.instances.Keys ensures c.instances[i].keyRef in c.keys {
      var p :| p in Providers(legacy) && i == InstanceName(p);
      assert KeyName(p) in c.keys.Keys;
    }
    forall id | id in c.models ensures GoodModel(c.models[id], c.keys, c.instances) {
      var p := legacy[id].provider;
      assert p in Providers(legacy);
      var used := InstancesOf(c.models[id]);
      assert used == [InstanceName(p)];
      assert KeyName(p) in c.keys.Keys && InstanceName(p) in c.instances.Keys;
      assert RefersTo(used[0], p, c.keys, c.instances);
      assert used[0] in c.instances && c.instances[used[0]].enabled;
    }
  }

  lemma JudgesKnown(c: Configuration, legacy: Legacy, keyOf: string -> string)
    requires IsTranslation(c, legacy, keyOf)
    ensures forall id :: id in c.judgeOrder ==> id in c.models
    ensures c.weakOrder != [] ==> c.judgeOrder != []
  {
    var t :| TiersOf(t, legacy) && c.weakOrder == Ids(t.weak) && c.strongOrder == Ids(t.strong)
             && c.judgeOrder == JudgeOrder(t);
    TierIds(legacy, t.weak, false);
    forall id | id in c.judgeOrder ensures id in c.models {
      if t.judges == [] {
        assert id in Ids(t.weak);
      } else {
        ListedIds(t.judges, ItemsOf(JudgeGroup, legacy), id);
      }
    }
  }

  lemma TierKnown(legacy: Legacy, items: seq<Item>, strong: bool)
    requires Lists(items, ItemsOf(if strong then StrongGroup else WeakGroup, legacy))
    ensures forall id :: id in Ids(items) ==> InTier(id, TranslatedModels(legacy))
  {
    TierIds(legacy, items, strong);
    forall id | id in Ids(items) ensures InTier(id, TranslatedModels(legacy)) {
      assert TranslatedModels(legacy)[id] == Translated(id, legacy[id]);
    }
  }

  lemma TiersDisjoint(legacy: Legacy, t: Tiers)
    requires TiersOf(t, legacy)
    ensures forall id :: id in Ids(t.strong) ==> id !in Ids(t.weak)
  {
    TierIds(legacy, t.weak, false);
    TierIds(legacy, t.strong, true);
  }

  lemma TiersKnown(c: Configuration, legacy: Legacy, keyOf: string -> string)
    requires IsTranslation(c, legacy, keyOf)
    ensures GoodTiers(c.weakOrder, c.strongOrder, c.models) <==> HasTier(legacy, true) && HasTier(legacy, false)
    ensures c.weakOrder != [] <==> HasTier(legacy, false)
  {
    var t :| TiersOf(t, legacy) && c.weakOrder == Ids(t.weak) && c.strongOrder == Ids(t.strong)
             && c.judgeOrder == JudgeOrder(t);
    TierKnown(legacy, t.weak, false);
    TierKnown(legacy, t.strong, true);
    TiersDisjoint(legacy, t);
    assert Ids(t.weak) != [] <==> HasTier(legacy, false) by {
      TierIds(legacy, t.weak, false);
    }
    assert Ids(t.strong) != [] <==> HasTier(legacy, true) by {
      TierIds(legacy, t.strong, true);
    }
  }

  lemma NothingEmpty(c: Configuration, legacy: Legacy, keyOf: string -> string, id: string)
    requires KeysFor(c.keys, c.instances, Providers(legacy), keyOf) && c.models == TranslatedModels(legacy)
    requires id in legacy && IsActive(legacy[id])
    ensures |c.models| > 0 && |c.keys| > 0 && |c.instances| > 0
  {
    var p := legacy[id].provider;
    assert p in Providers(legacy);
    assert id in c.models.Keys && KeyName(p) in c.keys.Keys && InstanceName(p) in c.instances.Keys;
    assert |c.models| == |c.models.Keys| && |c.keys| == |c.keys.Keys| && |c.instances| == |c.instances.Keys|;
  }

  /** The translation is accepted exactly when some active model is in the strong group and
      some active model is not. */
  lemma AcceptedIff(c: Configuration, legacy: Legacy, keyOf: string -> string)
    requires IsTranslation(c, legacy, keyOf)
    ensures WellFormed(c) <==> HasTier(legacy, true) && HasTier(legacy, false)
  {
    TiersKnown(c, legacy, keyOf);
    if HasTier(legacy, true) && HasTier(legacy, false) {
      TranslatedModelsGood(c, legacy, keyOf);
      JudgesKnown(c, legacy, keyOf);
      var id :| id in legacy && IsActive(legacy[id]) && IsStrong(legacy[id]) == true;
      NothingEmpty(c, legacy, keyOf, id);
    }
  }

  // ---- The loop over the legacy models ------------------------------------

  /** A list without repetitions of exactly these items, in any order. */
  ghost predicate Collected(items: seq<Item>, s: set<Item>) {
    && (forall i, j :: 0 <= i < j < |items| ==> items[i] != items[j])
    && (set x | x in items) == s
  }

  lemma CollectedSnoc(items: seq<Item>, s: set<Item>, x: Item)
    requires Collected(items, s) && x !in s
    ensures Collected(items + [x], s + {x})
  {
    assert forall y :: y in items + [x] <==> y in items || y == x;
  }

  lemma KeysStep(keys: Keys, instances: Instances, providers: set<string>, p: string, keyOf: string -> string)
    requires KeysFor(keys, instances, providers, keyOf)
    ensures KeyName(p) in keys <==> p in providers
    ensures KeysFor(keys[KeyName(p) := Key(p, keyOf(p))], instances[InstanceName(p) := KeyInstance(KeyName(p), 0, true)],
                    providers + {p}, keyOf)
  {
    forall q | q in providers ensures (KeyName(q) == KeyName(p) || InstanceName(q) == InstanceName(p)) ==> q == p {
      NamesInjective(p, q);
    }
    if KeyName(p) in keys {
      var q :| q in providers && KeyName(p) == KeyName(q);
    }
  }

  /** What has been gathered from the models visited so far. */
  datatype Gathered = Gathered(
    keys: Keys, instances: Instances, models: Models, weak: seq<Item>, strong: seq<Item>, judges: seq<Item>)

  ghost predicate GatheredFrom(g: Gathered, done: Legacy, keyOf: string -> string) {
    && KeysFor(g.keys, g.instances, Providers(done), keyOf)
    && g.models == TranslatedModels(done)
    && Collected(g.weak, ItemsOf(WeakGroup, done)) && Collected(g.strong, ItemsOf(StrongGroup, done)) && Collected(g.judges, ItemsOf(JudgeGroup, done))
  }

  lemma InItems(g: Group, legacy: Legacy, x: Item)
    ensures x in ItemsOf(g, legacy) <==>
            (x.id in legacy && Belongs(g, x.id, legacy[x.id]) && x.order == legacy[x.id].order)
  {
    assert x == Item(x.id, x.order);
  }

  lemma ItemsStep(g: Group, done: Legacy, id: string, m: LegacyModel)
    requires id !in done
    ensures Item(id, m.order) !in ItemsOf(g, done)
    ensures ItemsOf(g, done[id := m]) == ItemsOf(g, done) + (if Belongs(g, id, m) then {Item(id, m.order)} else {})
  {
    var more := done[id := m];
    InItems(g, done, Item(id, m.order));
    forall x
      ensures x in ItemsOf(g, more) <==>
              (x in ItemsOf(g, done) || (Belongs(g, id, m) && x == Item(id, m.order)))
    {
      InItems(g, more, x);
      InItems(g, done, x);
      assert x.id in done ==> more[x.id] == done[x.id];
      assert x == Item(x.id, x.order);
    }
  }

  lemma ProvidersStep(done: Legacy, id: string, m: LegacyModel)
    requires id !in done
    ensures Providers(done[id := m]) == Providers(done) + (if IsActive(m) then {m.provider} else {})
  {
    var more := done[id := m];
    forall p ensures p in Providers(more) <==> (p in Providers(done) || (IsActive(m) && p == m.provider)) {
      if p in Providers(done) {
        var k :| k in done && IsActive(done[k]) && done[k].provider == p;
        assert more[k] == done[k] && k in more;
      }
      assert IsActive(m) ==> more[id].provider in Providers(more);
    }
  }

  lemma ModelsStep(done: Legacy, id: string, m: LegacyModel)
    requires id !in done
    ensures TranslatedModels(done[id := m])
            == if IsActive(m) then TranslatedModels(done)[id := Translated(id, m)] else TranslatedModels(done)
  {
  }

  /** Adds a model to a group it belongs to. */
  method AddTo(items: seq<Item>, g: Group, id: string, m: LegacyModel, ghost done: Legacy) returns (out: seq<Item>)
    requires Collected(items, ItemsOf(g, done)) && id !in done
    ensures Collected(out, ItemsOf(g, done[id := m]))
  {
    out := items;
    ItemsStep(g, done, id, m);
    if Belongs(g, id, m) {
      CollectedSnoc(items, ItemsOf(g, done), Item(id, m.order));
      out := items + [Item(id, m.order)];
    }
  }

  /** The first model of a provider brings its key and its key instance. */
  method AddKeys(keys: Keys, instances: Instances, id: string, m: LegacyModel, ghost done: Legacy, keyOf: string -> string)
    returns (keys': Keys, instances': Instances)
    requires KeysFor(keys, instances, Providers(done), keyOf) && id !in done && IsActive(m)
    ensures KeysFor(keys', instances', Providers(done[id := m]), keyOf)
  {
    keys', instances' := keys, instances;
    var keyId, instanceId := KeyName(m.provider), InstanceName(m.provider);
    ProvidersStep(done, id, m);
    KeysStep(keys, instances, Providers(done), m.provider, keyOf);
    if keyId !in keys {
      keys' := keys[keyId := Key(m.provider, keyOf(m.provider))];
      instances' := instances[instanceId := KeyInstance(keyId, 0, true)];
    } else {
      assert Providers(done) + {m.provider} == Providers(done);
    }
  }

  lemma InactiveChangesNothing(g: Gathered, done: Legacy, id: string, m: LegacyModel, keyOf: string -> string)
    requires GatheredFrom(g, done, keyOf) && id !in done && !IsActive(m)
    ensures GatheredFrom(g, done[id := m], keyOf)
  {
    ProvidersStep(done, id, m);
    assert Providers(done[id := m]) == Providers(done);
    ModelsStep(done, id, m);
    ItemsStep(WeakGroup, done, id, m);
    ItemsStep(StrongGroup, done, id, m);
    ItemsStep(JudgeGroup, done, id, m);
  }

  /** One turn of the loop, for a model that has not been visited. */
  method Gather(g: Gathered, id: string, m: LegacyModel, ghost done: Legacy, keyOf: string -> string)
    returns (out: Gathered)
    requires GatheredFrom(g, done, keyOf) && id !in done
    ensures GatheredFrom(out, done[id := m], keyOf)
  {
    if Upper(m.status) != "ACTIVE" {
      InactiveChangesNothing(g, done, id, m, keyOf);
      return g;
    }
    var keys, instances := AddKeys(g.keys, g.instances, id, m, done, keyOf);
    var model := Model(true, m.provider, FirstNonEmpty(m.modelKey, id), "", [InstanceName(m.provider)],
                       m.pricing, m.limits, FirstNonEmpty(m.displayName, id));
    ModelsStep(done, id, m);
    var weak := AddTo(g.weak, WeakGroup, id, m, done);
    var strong := AddTo(g.strong, StrongGroup, id, m, done);
    var judges := AddTo(g.judges, JudgeGroup, id, m, done);
    out := Gathered(keys, instances, g.models[id := model], weak, strong, judges);
  }

  method Collect(legacy: Legacy, keyOf: string -> string) returns (g: Gathered)
    ensures GatheredFrom(g, legacy, keyOf)
  {
    g := Gathered(map[], map[], map[], [], [], []);
    ghost var done: Legacy := map[];
    var left := legacy.Keys;
    while left != {}
      invariant left <= legacy.Keys
      invariant done == map id | id in legacy && id !in left :: legacy[id]
      invariant GatheredFrom(g, done, keyOf)
      decreases |left|
    {
      var id :| id in left;
      g := Gather(g, id, legacy[id], done, keyOf);
      done := done[id := legacy[id]];
      left := left - {id};
    }
    assert done == legacy;
  }

  method SortTiers(g: Gathered, ghost legacy: Legacy, ghost keyOf: string -> string) returns (t: Tiers)
    requires GatheredFrom(g, legacy, keyOf)
    ensures TiersOf(t, legacy)
  {
    var weak := SortLegacy(g.weak);
    var strong := SortLegacy(g.strong);
    var judges := SortLegacy(g.judges);
    t := Tiers(weak, strong, judges);
  }

  /** Without any judge candidate, the first two weak models judge. */
  method JudgesFor(t: Tiers) returns (order: seq<string>)
    ensures order == JudgeOrder(t)
  {
    order := Ids(t.judges);
    if |order| == 0 {
      var k := 0;
      while k < |t.weak| && k < 2
        invariant 0 <= k <= |t.weak| && k <= 2 && order == Ids(t.weak)[..k]
      {
        order := order + [t.weak[k].id];
        k := k + 1;
      }
    }
  }

  /** Collects, sorts and validates. The list is accepted exactly when it has an active model
      in each tier, and the configuration is then its translation. */
  method LoadLegacyConfig(legacy: Legacy, keyOf: string -> string)
    returns (cfg: SentinelConfig, err: Option<ConfigError>)
    ensures fresh(cfg)
    ensures err.None? <==> HasTier(legacy, true) && HasTier(legacy, false)
    ensures err.None? ==> IsTranslation(cfg.Now(), legacy, keyOf)
  {
    var g := Collect(legacy, keyOf);
    var t := SortTiers(g, legacy, keyOf);
    var judgeOrder := JudgesFor(t);
    ghost var c := Configuration(g.keys, g.instances, g.models, Ids(t.weak), Ids(t.strong), true, judgeOrder);
    assert IsTranslation(c, legacy, keyOf);
    cfg := new SentinelConfig(Configuration(g.keys, g.instances, g.models, Ids(t.weak), Ids(t.strong), true, judgeOrder));
    AcceptedIff(c, legacy, keyOf);
    AlreadyNormal(c, legacy, keyOf);
    err := cfg.Validate();
    assert err.None? ==> cfg.Now() == c;
  }

  lemma AlreadyNormal(c: Configuration, legacy: Legacy, keyOf: string -> string)
    requires IsTranslation(c, legacy, keyOf)
    ensures NormalModels(c.models) == c.models
  {
    forall id | id in c.models ensures Normal(c.models[id]) == c.models[id] {
      assert c.models[id] == Translated(id, legacy[id]);
    }
  }
}
