/**
 What the translation of a legacy model list contains, entry by entry
 (internal/config/sentinel.go, LoadLegacyConfig and sortLegacy).
 */
module LegacyMeaning {
  import opened Common
  import opened Config
  import opened LegacyConfig

  // ---- Text ---------------------------------------------------------------

  /** At this place `s` reads `low` or `high`, letter by letter. */
  ghost predicate ReadsAt(s: string, k: nat, low: string, high: string)
    requires |low| == |high|
  {
    k + |low| <= |s| && forall i :: 0 <= i < |low| ==> s[k + i] == low[i] || s[k + i] == high[i]
  }

  /** Whatever the case of its letters, the status reads "active". */
  lemma ActiveMeans(m: LegacyModel)
    ensures IsActive(m) <==> |m.status| == 6 && ReadsAt(m.status, 0, "active", "ACTIVE")
  {
    var s, word := m.status, "ACTIVE";
    if |s| == 6 {
      forall i | 0 <= i < 6 ensures Upper(s)[i] == word[i] <==> s[i] == "active"[i] || s[i] == "ACTIVE"[i] {
        assert Upper(s)[i] == UpperChar(s[i]);
      }
      assert Upper(s) == word <==> forall i :: 0 <= i < 6 ==> Upper(s)[i] == word[i];
    }
  }

  lemma LowerAt(s: string, k: nat)
    requires k + 5 <= |s|
    ensures "judge" <= Lower(s)[k..] <==> ReadsAt(s, k, "judge", "JUDGE")
  {
    var part := Lower(s)[k..];
    forall i | 0 <= i < 5 ensures part[i] == "judge"[i] <==> s[k + i] == "judge"[i] || s[k + i] == "JUDGE"[i] {
      assert part[i] == LowerChar(s[k + i]);
    }
    assert "judge" <= part <==> forall i :: 0 <= i < 5 ==> part[i] == "judge"[i];
  }

  /** A model can judge when it is Gemini's or its name has "judge" somewhere in it. */
  lemma JudgeMeans(id: string, m: LegacyModel)
    ensures IsJudge(id, m) <==> m.provider == "gemini" || exists k: nat :: ReadsAt(id, k, "judge", "JUDGE")
  {
    if i :| 0 <= i <= |id| && "judge" <= Lower(id)[i..] {
      LowerAt(id, i);
    }
    if k: nat :| ReadsAt(id, k, "judge", "JUDGE") {
      LowerAt(id, k);
    }
  }

  /** They part at `k`, where `a` ends or has the smaller character. */
  ghost predicate PartAt(a: string, b: string, k: nat) {
    k <= |a| && k < |b| && a[..k] == b[..k] && (k == |a| || a[k] < b[k])
  }

  lemma SameStart(a: string, b: string, k: nat)
    requires PartAt(a, b, k)
    ensures k == 0 || (a != [] && a[0] == b[0])
  {
    if k > 0 {
      assert a[..k][0] == b[..k][0];
    }
  }

  /** Names are compared by their first difference. */
  lemma {:induction false} LessMeans(a: string, b: string)
    ensures StringLess(a, b) <==> exists k: nat :: PartAt(a, b, k)
    decreases |a|
  {
    if a == [] || b == [] || a[0] != b[0] {
      if b != [] && (a == [] || a[0] < b[0]) {
        assert PartAt(a, b, 0);
      }
      if k: nat :| PartAt(a, b, k) {
        SameStart(a, b, k);
      }
    } else {
      LessMeans(a[1..], b[1..]);
      if k: nat :| PartAt(a[1..], b[1..], k) {
        assert a[..k + 1] == [a[0]] + a[1..][..k] && b[..k + 1] == [b[0]] + b[1..][..k];
        assert PartAt(a, b, k + 1);
      }
      if k: nat :| PartAt(a, b, k) {
        assert a[1..][..k - 1] == a[..k][1..] && b[1..][..k - 1] == b[..k][1..];
        assert PartAt(a[1..], b[1..], k - 1);
      }
    }
  }

  // ---- Keys and models ----------------------------------------------------

  /** Every provider of an active model, and no other, has one key with the value given for it and one
      instance of it, on and of priority zero. */
  lemma KeysMean(c: Configuration, legacy: Legacy, keyOf: string -> string, p: string)
    requires IsTranslation(c, legacy, keyOf)
    ensures (p + "_key" in c.keys) == (p + "_primary" in c.instances)
         == exists id :: id in legacy && IsActive(legacy[id]) && legacy[id].provider == p
    ensures p + "_key" in c.keys ==> c.keys[p + "_key"] == Key(p, keyOf(p))
    ensures p + "_primary" in c.instances ==> c.instances[p + "_primary"] == KeyInstance(p + "_key", 0, true)
  {
    var used := Providers(legacy);
    if p + "_key" in c.keys.Keys {
      var q :| q in used && p + "_key" == KeyName(q);
      NamesInjective(p, q);
    }
    if p + "_primary" in c.instances.Keys {
      var q :| q in used && p + "_primary" == InstanceName(q);
      NamesInjective(p, q);
    }
    if p in used {
      assert KeyName(p) in c.keys.Keys && InstanceName(p) in c.instances.Keys;
    }
  }

  /** Each active model, and no other, is a model: on, of its provider, with that provider's one
      instance, with its own limits and prices, and named after its entry where it names nothing. */
  lemma ModelsMean(c: Configuration, legacy: Legacy, keyOf: string -> string, id: string)
    requires IsTranslation(c, legacy, keyOf)
    ensures id in c.models <==> id in legacy && IsActive(legacy[id])
    ensures id in c.models ==>
      var entry, m := legacy[id], c.models[id];
      && m.enabled && m.provider == entry.provider && m.limits == entry.limits && m.pricing == entry.pricing
      && m.keyInstance == "" && m.keyInstances == [entry.provider + "_primary"] && InstancesOf(m) == [entry.provider + "_primary"]
      && m.modelId == (if entry.modelKey != "" then entry.modelKey else id)
      && m.displayName == (if entry.displayName != "" then entry.displayName else id)
  {
  }

  // ---- Tiers --------------------------------------------------------------

  /** By their order, and by name where that is equal. */
  ghost predicate InOrder(ids: seq<string>, legacy: Legacy) {
    && (forall i :: 0 <= i < |ids| ==> ids[i] in legacy)
    && (forall i, j :: 0 <= i < j < |ids| ==>
          var a, b := legacy[ids[i]].order, legacy[ids[j]].order;
          a < b || (a == b && StringLess(ids[i], ids[j])))
  }

  lemma ListedInOrder(items: seq<Item>, g: Group, legacy: Legacy)
    requires Lists(items, ItemsOf(g, legacy))
    ensures InOrder(Ids(items), legacy)
    ensures forall id :: id in Ids(items) <==> id in legacy && Belongs(g, id, legacy[id])
  {
    forall i | 0 <= i < |items| ensures items[i].id in legacy && items[i].order == legacy[items[i].id].order {
      assert items[i] in ItemsOf(g, legacy);
    }
    forall i, j | 0 <= i < j < |items| ensures ItemLess(items[i], items[j]) {
      SortedAt(items, i, j);
    }
    forall id ensures id in Ids(items) <==> id in legacy && Belongs(g, id, legacy[id]) {
      ListedIds(items, ItemsOf(g, legacy), id);
      if id in legacy && Belongs(g, id, legacy[id]) {
        assert Item(id, legacy[id].order) in ItemsOf(g, legacy);
      }
    }
  }

  /** The strong tier is the active models of the group "strong_tier", the weak tier all other active
      models, both sorted; judges are the active models that can judge, sorted, and where there are
      none the first two of the weak tier. */
  lemma TiersMean(c: Configuration, legacy: Legacy, keyOf: string -> string)
    requires IsTranslation(c, legacy, keyOf)
    ensures c.judgeEnabled && InOrder(c.weakOrder, legacy) && InOrder(c.strongOrder, legacy) && InOrder(c.judgeOrder, legacy)
    ensures forall id :: id in c.strongOrder <==>
      id in legacy && IsActive(legacy[id]) && legacy[id].priorityGroup == "strong_tier"
    ensures forall id :: id in c.weakOrder <==>
      id in legacy && IsActive(legacy[id]) && legacy[id].priorityGroup != "strong_tier"
    ensures (exists id :: id in legacy && IsActive(legacy[id]) && IsJudge(id, legacy[id])) ==>
      forall id :: id in c.judgeOrder <==> id in legacy && IsActive(legacy[id]) && IsJudge(id, legacy[id])
    ensures (forall id :: id in legacy && IsActive(legacy[id]) ==> !IsJudge(id, legacy[id])) ==>
      c.judgeOrder == if |c.weakOrder| < 2 then c.weakOrder else c.weakOrder[..2]
  {
    var t :| TiersOf(t, legacy) && c.weakOrder == Ids(t.weak) && c.strongOrder == Ids(t.strong)
             && c.judgeOrder == JudgeOrder(t);
    ListedInOrder(t.weak, WeakGroup, legacy);
    ListedInOrder(t.strong, StrongGroup, legacy);
    ListedInOrder(t.judges, JudgeGroup, legacy);
    if t.judges == [] {
      assert Ids(t.judges) == [];
    } else {
      assert Ids(t.judges)[0] in Ids(t.judges);
    }
  }
}
