/**
 Trying the models of a tier, and the keys of each model, until one answers
 (internal/router/router.go: candidates, orderedKeys, callCandidates).
 */
module Failover {
  import opened Common
  import opened Config
  import Rate = RateLimiter

  // ---- The models of a tier that can take a request -----------------------

  /** The runtime status set by an operator; a model without one is active. */
  type Status = map<string, string>

  predicate CanRoute(id: string, models: Models, status: Status) {
    id in models && models[id].enabled && (id !in status || status[id] == "" || status[id] == "active")
  }

  ghost predicate Known(tier: seq<string>, c: Configuration) {
    forall id :: id in tier ==> id in c.models
  }

  function Candidates(order: seq<string>, models: Models, status: Status): seq<string> {
    if order == [] then []
    else
      var last := order[|order| - 1];
      Candidates(order[..|order| - 1], models, status) + (if CanRoute(last, models, status) then [last] else [])
  }

  lemma {:induction false} CandidatesMeaning(order: seq<string>, models: Models, status: Status, id: string)
    ensures id in Candidates(order, models, status) <==>
      id in order && id in models && models[id].enabled && (id !in status || status[id] == "" || status[id] == "active")
  {
    if order == [] {
    } else {
      var init, last := order[..|order| - 1], order[|order| - 1];
      assert order == init + [last];
      CandidatesMeaning(init, models, status, id);
    }
  }

  lemma CandidatesKnown(order: seq<string>, c: Configuration, status: Status)
    ensures Known(Candidates(order, c.models, status), c)
  {
    forall id | id in Candidates(order, c.models, status) ensures id in c.models {
      CandidatesMeaning(order, c.models, status, id);
    }
  }

  lemma CandidatesSnoc(s: seq<string>, x: string, models: Models, status: Status)
    ensures Candidates(s + [x], models, status)
            == Candidates(s, models, status) + (if CanRoute(x, models, status) then [x] else [])
  {
    assert (s + [x])[..|s|] == s;
  }

  /** A tier of one model has one candidate or none. */
  lemma CandidatesOfOne(id: string, models: Models, status: Status)
    ensures Candidates([id], models, status) ==
      if id in models && models[id].enabled && (id !in status || status[id] in ["", "active"]) then [id] else []
  {
    assert [id][..0] == [];
  }

  /** Filtering keeps the tier's order and its repetitions. */
  lemma {:induction false} CandidatesKeepOrder(a: seq<string>, b: seq<string>, models: Models, status: Status)
    ensures Candidates(a + b, models, status) == Candidates(a, models, status) + Candidates(b, models, status)
  {
    if b == [] {
      assert a + b == a;
    } else {
      var init, last := b[..|b| - 1], b[|b| - 1];
      CandidatesKeepOrder(a, init, models, status);
      CandidatesSnoc(a + init, last, models, status);
      CandidatesSnoc(init, last, models, status);
      assert a + b == (a + init) + [last] && b == init + [last];
    }
  }

  method CandidateList(order: seq<string>, models: Models, status: Status) returns (out: seq<string>)
    ensures out == Candidates(order, models, status)
  {
    out := [];
    for k := 0 to |order|
      invariant out == Candidates(order[..k], models, status)
    {
      assert order[..k + 1][..k] == order[..k];
      if order[k] in models && CanRoute(order[k], models, status) {
        out := out + [order[k]];
      }
    }
    assert order[..|order|] == order;
  }

  /** In a valid configuration no request for one tier can reach a model of the other. */
  lemma TiersStayApart(c: Configuration, status: Status, id: string)
    requires WellFormed(c)
    ensures !(id in Candidates(c.weakOrder, c.models, status) && id in Candidates(c.strongOrder, c.models, status))
  {
    CandidatesMeaning(c.weakOrder, c.models, status, id);
    CandidatesMeaning(c.strongOrder, c.models, status, id);
  }

  // ---- The keys of a model, best priority first ---------------------------

  datatype KeyItem = KeyItem(priority: int, value: string)

  /** The instance's key, unless the instance is missing or off or its key is missing or empty. */
  function Usable(i: string, c: Configuration): Option<KeyItem> {
    if i !in c.instances || !c.instances[i].enabled then None
    else if c.instances[i].keyRef !in c.keys || c.keys[c.instances[i].keyRef].value == "" then None
    else Some(KeyItem(c.instances[i].priority, c.keys[c.instances[i].keyRef].value))
  }

  function UsableItems(ids: seq<string>, c: Configuration): (r: seq<KeyItem>)
    ensures forall x :: x in r <==> exists i :: i in ids && Usable(i, c) == Some(x)
  {
    if ids == [] then []
    else
      var last := ids[|ids| - 1];
      assert forall i :: i in ids <==> i in ids[..|ids| - 1] || i == last;
      var found := Usable(last, c);
      UsableItems(ids[..|ids| - 1], c) + (if found.Some? then [found.value] else [])
  }

  function Values(items: seq<KeyItem>): (r: seq<string>)
    ensures |r| == |items| && forall k :: 0 <= k < |r| ==> r[k] == items[k].value
  {
    seq(|items|, k requires 0 <= k < |items| => items[k].value)
  }

  function Swapped(s: seq<KeyItem>, i: nat, j: nat): (r: seq<KeyItem>)
    requires i < |s| && j < |s|
    ensures |r| == |s|
  {
    s[i := s[j]][j := s[i]]
  }

  /** Place `i` exchanged with every better item found among the places after it, up to `j`. */
  function Row(s: seq<KeyItem>, i: nat, j: nat): (r: seq<KeyItem>)
    requires i < j <= |s|
    ensures |r| == |s|
    decreases j
  {
    if j == i + 1 then s
    else
      var r := Row(s, i, j - 1);
      if r[j - 1].priority < r[i].priority then Swapped(r, i, j - 1) else r
  }

  function Rows(s: seq<KeyItem>, i: nat): (r: seq<KeyItem>)
    requires i <= |s|
    ensures |r| == |s|
  {
    if i == 0 then s else Row(Rows(s, i - 1), i - 1, |s|)
  }

  function ExchangeSort(s: seq<KeyItem>): seq<KeyItem> {
    Rows(s, |s|)
  }

  /** The keys of a model in the order in which they are tried. */
  function KeyOrder(m: Model, c: Configuration): seq<string> {
    Values(ExchangeSort(UsableItems(InstancesOf(m), c)))
  }

  method ExchangeInPlace(a: array<KeyItem>)
    modifies a
    ensures a[..] == ExchangeSort(old(a[..]))
  {
    ghost var was := a[..];
    for i := 0 to a.Length
      invariant a[..] == Rows(was, i)
    {
      ghost var before := a[..];
      for j := i + 1 to a.Length
        invariant a[..] == Row(before, i, j)
      {
        if a[j].priority < a[i].priority {
          a[i], a[j] := a[j], a[i];
        }
      }
    }
  }

  method OrderedKeys(m: Model, c: Configuration) returns (out: seq<string>)
    ensures out == KeyOrder(m, c)
  {
    var ids := InstancesOf(m);
    var items: seq<KeyItem> := [];
    for k := 0 to |ids|
      invariant items == UsableItems(ids[..k], c)
    {
      assert ids[..k + 1][..k] == ids[..k];
      if ids[k] !in c.instances || !c.instances[ids[k]].enabled {
        continue;
      }
      var inst := c.instances[ids[k]];
      if inst.keyRef !in c.keys || c.keys[inst.keyRef].value == "" {
        continue;
      }
      items := items + [KeyItem(inst.priority, c.keys[inst.keyRef].value)];
    }
    assert ids[..|ids|] == ids;
    var a := new KeyItem[|items|](k requires 0 <= k < |items| => items[k]);
    assert a[..] == items;
    ExchangeInPlace(a);
    ghost var sorted := a[..];
    out := [];
    for k := 0 to a.Length
      invariant a[..] == sorted && |out| == k
      invariant forall l :: 0 <= l < k ==> out[l] == sorted[l].value
    {
      out := out + [a[k].value];
    }
  }

  ghost predicate SortedUpTo(s: seq<KeyItem>, n: nat) {
    forall k, l :: 0 <= k < l < |s| && k < n ==> s[k].priority <= s[l].priority
  }

  /** How often an item occurs among the first `n`. */
  ghost function Count(s: seq<KeyItem>, n: nat, x: KeyItem): int
    requires n <= |s|
  {
    if n == 0 then 0 else Count(s, n - 1, x) + Is(s[n - 1], x)
  }

  ghost function Is(y: KeyItem, x: KeyItem): int {
    if y == x then 1 else 0
  }

  lemma {:induction false} CountIsMultiplicity(s: seq<KeyItem>, n: nat, x: KeyItem)
    requires n <= |s|
    ensures Count(s, n, x) == multiset(s[..n])[x]
  {
    if n == 0 {
    } else {
      CountIsMultiplicity(s, n - 1, x);
      assert s[..n] == s[..n - 1] + [s[n - 1]];
    }
  }

  lemma {:induction false} SwapCounts(s: seq<KeyItem>, i: nat, j: nat, n: nat, x: KeyItem)
    requires i < |s| && j < |s| && n <= |s| && i != j
    ensures Count(Swapped(s, i, j), n, x) == Count(s, n, x)
            + (if i < n then Is(s[j], x) - Is(s[i], x) else 0) + (if j < n then Is(s[i], x) - Is(s[j], x) else 0)
  {
    if n == 0 {
    } else {
      SwapCounts(s, i, j, n - 1, x);
    }
  }

  lemma {:induction false} RowKeepsCount(s: seq<KeyItem>, i: nat, j: nat, x: KeyItem)
    requires i < j <= |s|
    ensures Count(Row(s, i, j), |s|, x) == Count(s, |s|, x)
    decreases j
  {
    if j == i + 1 {
    } else {
      RowKeepsCount(s, i, j - 1, x);
      SwapCounts(Row(s, i, j - 1), i, j - 1, |s|, x);
    }
  }

  /** A row moves nothing outside its places. */
  lemma {:induction false} RowOutside(s: seq<KeyItem>, i: nat, j: nat, k: nat)
    requires i < j <= |s| && k < |s| && (k < i || j <= k)
    ensures Row(s, i, j)[k] == s[k]
    decreases j
  {
    if j == i + 1 {
    } else {
      RowOutside(s, i, j - 1, k);
    }
  }

  /** A row leaves its least item at the front. */
  lemma {:induction false} RowLeast(s: seq<KeyItem>, i: nat, j: nat, k: nat)
    requires i <= k < j <= |s|
    ensures Row(s, i, j)[i].priority <= Row(s, i, j)[k].priority
    decreases j
  {
    if j == i + 1 {
    } else {
      if k < j - 1 {
        RowLeast(s, i, j - 1, k);
      }
    }
  }

  lemma {:induction false} RowKeepsFloor(s: seq<KeyItem>, i: nat, j: nat, floor: int)
    requires i < j <= |s| && forall k :: i <= k < |s| ==> floor <= s[k].priority
    ensures forall k :: i <= k < |s| ==> floor <= Row(s, i, j)[k].priority
    decreases j
  {
    if j == i + 1 {
    } else {
      RowKeepsFloor(s, i, j - 1, floor);
    }
  }

  lemma RowKept(s: seq<KeyItem>, i: nat, k: nat, l: nat)
    requires i < |s| && SortedUpTo(s, i) && k < i && k < l < |s|
    ensures Row(s, i, |s|)[k].priority <= Row(s, i, |s|)[l].priority
  {
    RowOutside(s, i, |s|, k);
    if l < i {
      RowOutside(s, i, |s|, l);
    } else {
      RowKeepsFloor(s, i, |s|, s[k].priority);
    }
  }

  lemma RowExtendsOrder(s: seq<KeyItem>, i: nat)
    requires i < |s| && SortedUpTo(s, i)
    ensures SortedUpTo(Row(s, i, |s|), i + 1)
  {
    var r := Row(s, i, |s|);
    forall k, l | 0 <= k < l < |r| && k < i + 1 ensures r[k].priority <= r[l].priority {
      if k < i {
        RowKept(s, i, k, l);
      } else {
        RowLeast(s, i, |s|, l);
      }
    }
  }

  lemma {:induction false} RowsSort(s: seq<KeyItem>, i: nat)
    requires i <= |s|
    ensures SortedUpTo(Rows(s, i), i)
  {
    if i == 0 {
    } else {
      RowsSort(s, i - 1);
      RowExtendsOrder(Rows(s, i - 1), i - 1);
    }
  }

  lemma {:induction false} RowsKeepCount(s: seq<KeyItem>, i: nat, x: KeyItem)
    requires i <= |s|
    ensures Count(Rows(s, i), |s|, x) == Count(s, |s|, x)
  {
    if i == 0 {
    } else {
      RowsKeepCount(s, i - 1, x);
      RowKeepsCount(Rows(s, i - 1), i - 1, |s|, x);
    }
  }

  lemma SameItems(s: seq<KeyItem>, t: seq<KeyItem>)
    requires |s| == |t| && forall x :: Count(s, |s|, x) == Count(t, |t|, x)
    ensures multiset(s) == multiset(t)
  {
    forall x ensures multiset(s)[x] == multiset(t)[x] {
      CountIsMultiplicity(s, |s|, x);
      CountIsMultiplicity(t, |t|, x);
      assert s[..|s|] == s && t[..|t|] == t;
    }
  }

  /** The keys tried are the usable ones, each as often as it is configured, by priority. */
  lemma KeysByPriority(m: Model, c: Configuration)
    ensures var items := ExchangeSort(UsableItems(InstancesOf(m), c));
      && KeyOrder(m, c) == Values(items)
      && multiset(items) == multiset(UsableItems(InstancesOf(m), c))
      && SortedUpTo(items, |items|)
  {
    var usable := UsableItems(InstancesOf(m), c);
    RowsSort(usable, |usable|);
    var sorted := ExchangeSort(usable);
    forall x ensures Count(sorted, |sorted|, x) == Count(usable, |usable|, x) {
      RowsKeepCount(usable, |usable|, x);
    }
    SameItems(sorted, usable);
  }

  /** The first item is the earliest configured of the best. */
  ghost predicate EarliestBest(s: seq<KeyItem>, n: nat, k: nat) {
    && k < n <= |s|
    && (forall l :: 0 <= l < n ==> s[k].priority <= s[l].priority)
    && (forall l :: 0 <= l < k ==> s[k].priority < s[l].priority)
  }

  lemma {:induction false} RowPicksEarliest(s: seq<KeyItem>, j: nat) returns (k: nat)
    requires 0 < j <= |s|
    ensures EarliestBest(s, j, k) && Row(s, 0, j)[0] == s[k]
    decreases j
  {
    if j == 1 {
      k := 0;
    } else {
      k := RowPicksEarliest(s, j - 1);
      RowOutside(s, 0, j - 1, j - 1);
      if s[j - 1].priority < s[k].priority {
        k := j - 1;
      }
    }
  }

  lemma {:induction false} LaterRowsKeepFirst(s: seq<KeyItem>, i: nat)
    requires 1 <= i <= |s|
    ensures Rows(s, i)[0] == Row(s, 0, |s|)[0]
  {
    if i == 1 {
      assert Rows(s, 0) == s;
    } else {
      LaterRowsKeepFirst(s, i - 1);
      RowOutside(Rows(s, i - 1), i - 1, |s|, 0);
    }
  }

  /** The first key tried is the earliest configured of the best priority. */
  lemma FirstKeyIsEarliestBest(m: Model, c: Configuration) returns (k: nat)
    requires UsableItems(InstancesOf(m), c) != []
    ensures var usable := UsableItems(InstancesOf(m), c);
      && EarliestBest(usable, |usable|, k)
      && KeyOrder(m, c) != [] && KeyOrder(m, c)[0] == usable[k].value
  {
    var usable := UsableItems(InstancesOf(m), c);
    k := RowPicksEarliest(usable, |usable|);
    LaterRowsKeepFirst(usable, |usable|);
  }

  /** In a valid configuration a model is only ever called with keys of its own provider. */
  lemma KeysAreOfProvider(m: Model, c: Configuration, value: string)
    requires GoodModel(m, c.keys, c.instances) && value in KeyOrder(m, c)
    ensures exists i :: i in InstancesOf(m) && RefersTo(i, m.provider, c.keys, c.instances)
                        && c.instances[i].enabled && c.keys[c.instances[i].keyRef].value == value
  {
    var usable := UsableItems(InstancesOf(m), c);
    KeysByPriority(m, c);
    var items := ExchangeSort(usable);
    var k :| 0 <= k < |items| && items[k].value == value;
    assert items[k] in multiset(items);
    assert items[k] in usable;
    var i :| i in InstancesOf(m) && Usable(i, c) == Some(items[k]);
  }

  /** The instance is on, and this is its priority and its key, which is not blank. */
  ghost predicate Offers(i: string, priority: int, value: string, c: Configuration) {
    && i in c.instances && c.instances[i].enabled && c.instances[i].priority == priority
    && c.instances[i].keyRef in c.keys && c.keys[c.instances[i].keyRef].value == value && value != ""
  }

  /** Which keys of a model are tried: exactly those its instances offer, the better priority
      always before the worse. */
  lemma KeysAreOffered(m: Model, c: Configuration)
    ensures var items := ExchangeSort(UsableItems(InstancesOf(m), c));
      && KeyOrder(m, c) == Values(items)
      && (forall k, l :: 0 <= k < l < |items| ==> items[k].priority <= items[l].priority)
      && (forall p, v :: KeyItem(p, v) in items <==> exists i :: i in InstancesOf(m) && Offers(i, p, v, c))
  {
    var usable, items := UsableItems(InstancesOf(m), c), ExchangeSort(UsableItems(InstancesOf(m), c));
    KeysByPriority(m, c);
    forall p, v ensures KeyItem(p, v) in items <==> exists i :: i in InstancesOf(m) && Offers(i, p, v, c) {
      var x := KeyItem(p, v);
      assert x in items <==> x in multiset(items);
      assert x in usable <==> x in multiset(usable);
      assert forall i :: Usable(i, c) == Some(x) <==> Offers(i, p, v, c);
    }
  }

  function Contributed(i: string, c: Configuration): seq<KeyItem> {
    if Usable(i, c).Some? then [Usable(i, c).value] else []
  }

  lemma UsableSnoc(ids: seq<string>, i: string, c: Configuration)
    ensures UsableItems(ids + [i], c) == UsableItems(ids, c) + Contributed(i, c)
  {
    assert (ids + [i])[..|ids|] == ids;
  }

  lemma JoinItems(a: seq<KeyItem>, b: seq<KeyItem>, one: seq<KeyItem>)
    ensures (a + b) + one == a + (b + one)
  {
  }

  /** Collecting keys goes through the instances in order. */
  lemma {:induction false} UsableAppend(a: seq<string>, b: seq<string>, c: Configuration)
    ensures UsableItems(a + b, c) == UsableItems(a, c) + UsableItems(b, c)
  {
    if b == [] {
      assert a + b == a;
    } else {
      var init, last := b[..|b| - 1], b[|b| - 1];
      UsableAppend(a, init, c);
      UsableSnoc(a + init, last, c);
      UsableSnoc(init, last, c);
      JoinItems(UsableItems(a, c), UsableItems(init, c), Contributed(last, c));
      assert a + b == (a + init) + [last] && b == init + [last];
    }
  }

  /** One instance contributes its priority and key, or nothing. */
  lemma UsableOfOne(i: string, p: int, v: string, c: Configuration)
    ensures UsableItems([i], c) == [KeyItem(p, v)] <==> Offers(i, p, v, c)
    ensures |UsableItems([i], c)| <= 1
  {
    assert [i][..0] == [];
  }

  /** No key value left blank: the one thing validation does not look at. */
  ghost predicate NoBlankKeys(c: Configuration) {
    forall k :: k in c.keys ==> c.keys[k].value != ""
  }

  lemma EnabledModelHasKey(m: Model, c: Configuration)
    requires GoodModel(m, c.keys, c.instances) && m.enabled && NoBlankKeys(c)
    ensures KeyOrder(m, c) != []
  {
    var used := InstancesOf(m);
    var k :| 0 <= k < |used| && used[k] in c.instances && c.instances[used[k]].enabled;
    assert RefersTo(used[k], m.provider, c.keys, c.instances);
    assert used[k] in used;
    var usable := UsableItems(used, c);
    assert Usable(used[k], c).Some?;
    assert Usable(used[k], c).value in usable;
    KeysByPriority(m, c);
    assert |multiset(usable)| == |usable|;
  }

  // ---- Calling until one answers ------------------------------------------

  datatype Attempt = Attempt(model: string, key: string)

  /** What a call streamed to the caller, and how it ended. */
  datatype Reply =
    | Answer(streamed: string, content: string, model: string, cost: real, tokens: int)
    | Failure(streamed: string, error: string)

  datatype Outcome =
    | Served(id: string, content: string, model: string, cost: real, tokens: int)
    | NoActiveModels
    | LastError(error: string)
    | NobodyCouldHandle

  predicate AllowsAt(usage: Rate.Log, model: string, at: int, estimate: int, margin: real, c: Configuration) {
    && model in c.models
    && Rate.Decide(Rate.UsageAt(Rate.Recorded(usage, model), at), Rate.CapsOf(c.models[model].limits, margin), estimate).Allowed?
  }

  /** Whether the limiter lets the i-th candidate through, checked at time `at(i)`. */
  function Allows(usage: Rate.Log, tier: seq<string>, at: nat -> int, estimate: int, margin: real, c: Configuration)
    : nat -> bool
  {
    (i: nat) => i < |tier| && AllowsAt(usage, tier[i], at(i), estimate, margin, c)
  }

  /** The world during one request: whether the limiter lets the i-th candidate through, and
      how the n-th call ends. */
  datatype World = World(allowed: nat -> bool, reply: (nat, Attempt) -> Reply)

  function With(id: string, keys: seq<string>): (r: seq<Attempt>)
    ensures |r| == |keys| && forall k :: 0 <= k < |r| ==> r[k] == Attempt(id, keys[k])
  {
    seq(|keys|, k requires 0 <= k < |keys| => Attempt(id, keys[k]))
  }

  /** Every call that would be made if none succeeded: models in tier order, keys in key order,
      without the models the limiter holds back. */
  ghost function Plan(tier: seq<string>, w: World, c: Configuration): seq<Attempt>
    requires Known(tier, c)
  {
    if tier == [] then []
    else
      var n := |tier| - 1;
      Plan(tier[..n], w, c) + (if w.allowed(n) then With(tier[n], KeyOrder(c.models[tier[n]], c)) else [])
  }

  /** How many calls are planned before place `i`. */
  ghost function CallsBefore(tier: seq<string>, i: nat, w: World, c: Configuration): nat
    requires Known(tier, c) && i <= |tier|
  {
    if i == 0 then 0
    else CallsBefore(tier, i - 1, w, c) + (if w.allowed(i - 1) then |KeyOrder(c.models[tier[i - 1]], c)| else 0)
  }

  lemma {:induction false} PlanSplit(tier: seq<string>, n: nat, w: World, c: Configuration)
    requires Known(tier, c) && n <= |tier|
    ensures Plan(tier[..n], w, c) <= Plan(tier, w, c)
    decreases |tier| - n
  {
    if n == |tier| {
      assert tier[..n] == tier;
    } else {
      PlanSplit(tier, n + 1, w, c);
      assert tier[..n + 1][..n] == tier[..n];
    }
  }

  /** The first `n` calls of the plan all fail. */
  ghost predicate AllFail(plan: seq<Attempt>, n: nat, w: World) {
    n <= |plan| && forall k :: 0 <= k < n ==> w.reply(k, plan[k]).Failure?
  }

  /** How many calls are made and what comes of them: the first success of the plan. */
  ghost predicate FirstSuccess(o: Outcome, calls: nat, plan: seq<Attempt>, tier: seq<string>, w: World, c: Configuration) {
    match o
    case Served(id, content, model, cost, tokens) =>
      && 0 < calls <= |plan| && AllFail(plan, calls - 1, w)
      && plan[calls - 1].model == id && id in c.models
      && var reply := w.reply(calls - 1, plan[calls - 1]);
         reply.Answer? && content == reply.content && cost == reply.cost && tokens == reply.tokens
         && model == if reply.model == "" then c.models[id].modelId else reply.model
    case NoActiveModels => tier == [] && calls == 0
    case NobodyCouldHandle => tier != [] && plan == [] && calls == 0
    case LastError(error) =>
      && plan != [] && calls == |plan| && AllFail(plan, calls, w)
      && error == w.reply(calls - 1, plan[calls - 1]).error
  }

  /** There is exactly one such outcome, and a request is served whenever some planned call
      would be answered. */
  lemma FirstSuccessIsUnique(
    o: Outcome, calls: nat, p: Outcome, more: nat, plan: seq<Attempt>, tier: seq<string>, w: World, c: Configuration)
    requires FirstSuccess(o, calls, plan, tier, w, c) && FirstSuccess(p, more, plan, tier, w, c)
    requires tier == [] ==> plan == []
    ensures o == p && calls == more
    ensures o.Served? <==> exists k :: 0 <= k < |plan| && w.reply(k, plan[k]).Answer?
  {
    if o.Served? {
      assert w.reply(calls - 1, plan[calls - 1]).Answer?;
    }
  }

  function NameOf(id: string, reply: Reply, c: Configuration): string
    requires reply.Answer?
  {
    if reply.model != "" then reply.model else if id in c.models then c.models[id].modelId else ""
  }

  /** The outcome as a function of what the planned calls would reply, from the n-th on. */
  ghost function Resolve(plan: seq<Attempt>, n: nat, tier: seq<string>, w: World, c: Configuration): (Outcome, nat)
    requires n <= |plan|
    decreases |plan| - n
  {
    if n == |plan| then
      (if tier == [] then NoActiveModels
       else if plan == [] then NobodyCouldHandle
       else var last := w.reply(n - 1, plan[n - 1]);
            LastError(if last.Failure? then last.error else ""), n)
    else
      var id, reply := plan[n].model, w.reply(n, plan[n]);
      if reply.Failure? then Resolve(plan, n + 1, tier, w, c)
      else (Served(id, reply.content, NameOf(id, reply, c), reply.cost, reply.tokens), n + 1)
  }

  lemma {:induction false} ResolveIsFirstSuccess(plan: seq<Attempt>, n: nat, tier: seq<string>, w: World, c: Configuration)
    requires AllFail(plan, n, w) && forall k :: 0 <= k < |plan| ==> plan[k].model in c.models
    requires tier == [] ==> plan == []
    ensures var (o, calls) := Resolve(plan, n, tier, w, c); FirstSuccess(o, calls, plan, tier, w, c)
    decreases |plan| - n
  {
    if n == |plan| || w.reply(n, plan[n]).Answer? {
    } else {
      ResolveIsFirstSuccess(plan, n + 1, tier, w, c);
    }
  }

  lemma {:induction false} FailuresSkipped(plan: seq<Attempt>, n: nat, tier: seq<string>, w: World, c: Configuration)
    requires AllFail(plan, n, w)
    ensures Resolve(plan, 0, tier, w, c) == Resolve(plan, n, tier, w, c)
  {
    if n == 0 {
    } else {
      FailuresSkipped(plan, n - 1, tier, w, c);
    }
  }

  /** All the text the caller receives from the first `n` calls. */
  ghost function Received(plan: seq<Attempt>, n: nat, w: World): string
    requires n <= |plan|
  {
    if n == 0 then "" else Received(plan, n - 1, w) + w.reply(n - 1, plan[n - 1]).streamed
  }

  /** How far a request has come: the calls made, all failed, what they streamed, and the last
      error. */
  datatype Progress = Progress(calls: nat, received: string, lastErr: Option<string>)

  ghost predicate FailedSoFar(p: Progress, plan: seq<Attempt>, w: World) {
    && AllFail(plan, p.calls, w) && p.received == Received(plan, p.calls, w)
    && p.lastErr == if p.calls == 0 then None else Some(w.reply(p.calls - 1, plan[p.calls - 1]).error)
  }

  ghost predicate ServedNow(o: Outcome, p: Progress, plan: seq<Attempt>, tier: seq<string>, w: World, c: Configuration) {
    && (o, p.calls) == Resolve(plan, 0, tier, w, c)
    && p.calls <= |plan| && p.received == Received(plan, p.calls, w)
  }

  lemma OneMoreFailure(p: Progress, plan: seq<Attempt>, w: World)
    requires FailedSoFar(p, plan, w) && p.calls < |plan| && w.reply(p.calls, plan[p.calls]).Failure?
    ensures var reply := w.reply(p.calls, plan[p.calls]);
      FailedSoFar(Progress(p.calls + 1, p.received + reply.streamed, Some(reply.error)), plan, w)
  {
  }

  lemma AnsweredNow(p: Progress, plan: seq<Attempt>, tier: seq<string>, w: World, c: Configuration)
    requires FailedSoFar(p, plan, w) && p.calls < |plan| && w.reply(p.calls, plan[p.calls]).Answer?
    ensures var id, reply := plan[p.calls].model, w.reply(p.calls, plan[p.calls]);
      ServedNow(Served(id, reply.content, NameOf(id, reply, c), reply.cost, reply.tokens),
                Progress(p.calls + 1, p.received + reply.streamed, p.lastErr), plan, tier, w, c)
  {
    FailuresSkipped(plan, p.calls, tier, w, c);
  }

  lemma NobodyAnswered(p: Progress, plan: seq<Attempt>, tier: seq<string>, w: World, c: Configuration)
    requires FailedSoFar(p, plan, w) && p.calls == |plan| && tier != []
    ensures (if p.lastErr.None? then NobodyCouldHandle else LastError(p.lastErr.value), p.calls)
         == Resolve(plan, 0, tier, w, c)
  {
    FailuresSkipped(plan, p.calls, tier, w, c);
  }

  /** The calls with these keys are next in the plan. */
  ghost predicate ComesNext(plan: seq<Attempt>, calls: nat, id: string, keys: seq<string>) {
    calls + |keys| <= |plan| && forall k :: 0 <= k < |keys| ==> plan[calls + k] == Attempt(id, keys[k])
  }

  /** The inner loop: one model, all its keys. */
  method CallModel(p: Progress, id: string, c: Configuration, reply: (nat, Attempt) -> Reply,
                   ghost w: World, ghost plan: seq<Attempt>, ghost tier: seq<string>)
    returns (o: Option<Outcome>, q: Progress)
    requires FailedSoFar(p, plan, w) && id in c.models && w.reply == reply
    requires ComesNext(plan, p.calls, id, KeyOrder(c.models[id], c))
    ensures o.None? ==> FailedSoFar(q, plan, w) && q.calls == p.calls + |KeyOrder(c.models[id], c)|
    ensures o.Some? ==> ServedNow(o.value, q, plan, tier, w, c)
  {
    var model := c.models[id];
    var keys := OrderedKeys(model, c);
    q := p;
    for k := 0 to |keys|
      invariant q.calls == p.calls + k <= |plan|
      invariant FailedSoFar(q, plan, w)
    {
      var attempt := Attempt(id, keys[k]);
      assert plan[q.calls] == attempt;
      var reply := reply(q.calls, attempt);
      if reply.Answer? {
        AnsweredNow(q, plan, tier, w, c);
        var name := if reply.model == "" then model.modelId else reply.model;
        q := Progress(q.calls + 1, q.received + reply.streamed, q.lastErr);
        return Some(Served(id, reply.content, name, reply.cost, reply.tokens)), q;
      }
      OneMoreFailure(q, plan, w);
      q := Progress(q.calls + 1, q.received + reply.streamed, Some(reply.error));
    }
    o := None;
  }

  /** One more model of the tier: its calls come next in the plan. */
  lemma PlanNext(tier: seq<string>, i: nat, w: World, c: Configuration)
    requires Known(tier, c) && i < |tier|
    ensures var done, next, plan := Plan(tier[..i], w, c), Plan(tier[..i + 1], w, c), Plan(tier, w, c);
      if w.allowed(i)
      then |next| == |done| + |KeyOrder(c.models[tier[i]], c)|
           && ComesNext(plan, |done|, tier[i], KeyOrder(c.models[tier[i]], c))
      else next == done
  {
    var done, next, plan := Plan(tier[..i], w, c), Plan(tier[..i + 1], w, c), Plan(tier, w, c);
    PlanSplit(tier, i + 1, w, c);
    assert tier[..i + 1][..i] == tier[..i];
    if w.allowed(i) {
      KeysFollow(plan, done, next, tier[i], KeyOrder(c.models[tier[i]], c));
    }
  }

  lemma {:induction false} PlanLength(tier: seq<string>, i: nat, w: World, c: Configuration)
    requires Known(tier, c) && i <= |tier|
    ensures |Plan(tier[..i], w, c)| == CallsBefore(tier, i, w, c)
  {
    if i == 0 {
    } else {
      PlanLength(tier, i - 1, w, c);
      PlanNext(tier, i - 1, w, c);
    }
  }

  /** The whole plan, call by call: after all calls to the places before it, an allowed place is
      called with its keys in their order, and a place that is held back not at all. */
  lemma PlanAt(tier: seq<string>, i: nat, j: nat, w: World, c: Configuration)
    requires Known(tier, c) && i < |tier| && w.allowed(i) && j < |KeyOrder(c.models[tier[i]], c)|
    ensures var n := CallsBefore(tier, i, w, c) + j;
      n < |Plan(tier, w, c)| && Plan(tier, w, c)[n] == Attempt(tier[i], KeyOrder(c.models[tier[i]], c)[j])
  {
    PlanNext(tier, i, w, c);
    PlanLength(tier, i, w, c);
  }

  /** And there are no other calls in it. */
  lemma PlanSize(tier: seq<string>, w: World, c: Configuration)
    requires Known(tier, c)
    ensures |Plan(tier, w, c)| == CallsBefore(tier, |tier|, w, c)
  {
    PlanLength(tier, |tier|, w, c);
    assert tier[..|tier|] == tier;
  }

  lemma KeysFollow(plan: seq<Attempt>, done: seq<Attempt>, next: seq<Attempt>, id: string, keys: seq<string>)
    requires next <= plan && next == done + With(id, keys)
    ensures |next| == |done| + |keys| && ComesNext(plan, |done|, id, keys)
  {
    forall k | 0 <= k < |keys| ensures plan[|done| + k] == Attempt(id, keys[k]) {
      assert plan[|done| + k] == next[|done| + k] == With(id, keys)[k];
    }
  }

  /** The limiter's memory is `usage`, and its clock has not passed `now`. */
  ghost predicate Remembers(limiter: Rate.Limiter, usage: Rate.Log, now: int)
    reads limiter, limiter.repr
  {
    limiter.Valid() && limiter.clock <= now && limiter.log == usage
  }

  /** The clock readings of the checks of one request. */
  ghost predicate Ascends(at: nat -> int, start: int, end: int) {
    (forall i: nat :: start <= at(i) <= end) && (forall i: nat, j: nat :: i <= j ==> at(i) <= at(j))
  }

  /** Asking the limiter about one candidate. */
  method Ask(id: string, c: Configuration, limiter: Rate.Limiter, at: int, estimate: int, ghost usage: Rate.Log)
    returns (allowed: bool)
    requires id in c.models && Remembers(limiter, usage, at)
    modifies limiter, limiter.repr
    ensures fresh(limiter.repr - old(limiter.repr)) && Remembers(limiter, usage, at)
    ensures allowed == AllowsAt(usage, id, at, estimate, limiter.safetyMargin, c)
  {
    var v, u := limiter.Check(id, at, c.models[id].limits, estimate);
    allowed := v.Allowed?;
  }

  /** One turn of the outer loop: the i-th model, unless the limiter holds it back. */
  method TryModel(tier: seq<string>, i: nat, c: Configuration, limiter: Rate.Limiter, at: int, estimate: int,
                  reply: (nat, Attempt) -> Reply, p: Progress, ghost usage: Rate.Log, ghost w: World)
    returns (o: Option<Outcome>, q: Progress)
    requires Known(tier, c) && i < |tier| && w.reply == reply && Remembers(limiter, usage, at)
    requires w.allowed(i) == AllowsAt(usage, tier[i], at, estimate, limiter.safetyMargin, c)
    requires FailedSoFar(p, Plan(tier, w, c), w) && p.calls == |Plan(tier[..i], w, c)|
    modifies limiter, limiter.repr
    ensures fresh(limiter.repr - old(limiter.repr)) && Remembers(limiter, usage, at)
    ensures o.None? ==> FailedSoFar(q, Plan(tier, w, c), w) && q.calls == |Plan(tier[..i + 1], w, c)|
    ensures o.Some? ==> ServedNow(o.value, q, Plan(tier, w, c), tier, w, c)
  {
    PlanNext(tier, i, w, c);
    var allowed := Ask(tier[i], c, limiter, at, estimate, usage);
    if !allowed {
      return None, p;
    }
    o, q := CallModel(p, tier[i], c, reply, w, Plan(tier, w, c), tier);
  }

  /** The outer loop: the models of the tier in order, as long as nobody has answered. */
  method CallTier(tier: seq<string>, c: Configuration, limiter: Rate.Limiter, at: nat -> int, estimate: int,
                  reply: (nat, Attempt) -> Reply, ghost usage: Rate.Log, ghost start: int, ghost end: int, ghost w: World)
    returns (o: Option<Outcome>, p: Progress)
    requires Known(tier, c) && w == World(Allows(usage, tier, at, estimate, limiter.safetyMargin, c), reply)
    requires Ascends(at, start, end) && Remembers(limiter, usage, start)
    modifies limiter, limiter.repr
    ensures fresh(limiter.repr - old(limiter.repr)) && Remembers(limiter, usage, end)
    ensures o.None? ==> FailedSoFar(p, Plan(tier, w, c), w) && p.calls == |Plan(tier, w, c)|
    ensures o.Some? ==> ServedNow(o.value, p, Plan(tier, w, c), tier, w, c)
  {
    p := Progress(0, "", None);
    ghost var now := start;
    assert start <= at(0) <= end;
    for i := 0 to |tier|
      invariant FailedSoFar(p, Plan(tier, w, c), w) && p.calls == |Plan(tier[..i], w, c)|
      invariant fresh(limiter.repr - old(limiter.repr)) && Remembers(limiter, usage, now) && now <= at(i) && now <= end
    {
      now := at(i);
      assert at(i) <= at(i + 1);
      o, p := TryModel(tier, i, c, limiter, at(i), estimate, reply, p, usage, w);
      if o.Some? {
        return;
      }
    }
    assert tier[..|tier|] == tier;
    o := None;
  }

  /** Every planned call is to a model of the tier, and never past the limiter. */
  lemma {:induction false} PlannedModel(tier: seq<string>, w: World, c: Configuration, k: nat) returns (place: nat)
    requires Known(tier, c) && k < |Plan(tier, w, c)|
    ensures place < |tier| && w.allowed(place) && Plan(tier, w, c)[k].model == tier[place]
    ensures Plan(tier, w, c)[k].key in KeyOrder(c.models[tier[place]], c)
  {
    var n := |tier| - 1;
    var head := Plan(tier[..n], w, c);
    if k < |head| {
      place := PlannedModel(tier[..n], w, c, k);
    } else {
      place := n;
      assert Plan(tier, w, c)[k] == With(tier[n], KeyOrder(c.models[tier[n]], c))[k - |head|];
    }
  }

  lemma PlanKnown(tier: seq<string>, w: World, c: Configuration)
    requires Known(tier, c)
    ensures forall k :: 0 <= k < |Plan(tier, w, c)| ==> Plan(tier, w, c)[k].model in c.models
    ensures tier == [] ==> Plan(tier, w, c) == []
  {
    forall k | 0 <= k < |Plan(tier, w, c)| ensures Plan(tier, w, c)[k].model in c.models {
      var place := PlannedModel(tier, w, c, k);
      assert tier[place] in tier;
    }
  }

  /** What comes of a request for this tier. */
  ghost function OutcomeOf(order: seq<string>, c: Configuration, status: Status, w: World): Outcome {
    CandidatesKnown(order, c, status);
    var tier := Candidates(order, c.models, status);
    PlanKnown(tier, w, c);
    Resolve(Plan(tier, w, c), 0, tier, w, c).0
  }

  /** All the text of some replies. */
  function Text(replies: seq<Reply>): string {
    if replies == [] then "" else Text(replies[..|replies| - 1]) + replies[|replies| - 1].streamed
  }

  /** The replies to the first `n` calls. */
  ghost function Made(plan: seq<Attempt>, n: nat, w: World): (r: seq<Reply>)
    requires n <= |plan|
    ensures |r| == n
  {
    if n == 0 then [] else Made(plan, n - 1, w) + [w.reply(n - 1, plan[n - 1])]
  }

  lemma {:induction false} MadeAre(plan: seq<Attempt>, n: nat, w: World)
    requires n <= |plan|
    ensures forall k :: 0 <= k < n ==> Made(plan, n, w)[k] == w.reply(k, plan[k])
  {
    if n == 0 {
    } else {
      MadeAre(plan, n - 1, w);
    }
  }

  lemma {:induction false} MadeIsReceived(plan: seq<Attempt>, n: nat, w: World)
    requires n <= |plan|
    ensures Text(Made(plan, n, w)) == Received(plan, n, w)
  {
    if n == 0 {
    } else {
      MadeIsReceived(plan, n - 1, w);
      var made := Made(plan, n, w);
      assert made[..|made| - 1] == Made(plan, n - 1, w);
    }
  }

  /** The replies to all calls that are made. */
  ghost function RepliesOf(order: seq<string>, c: Configuration, status: Status, w: World): seq<Reply> {
    CandidatesKnown(order, c, status);
    var tier := Candidates(order, c.models, status);
    var plan := Plan(tier, w, c);
    PlanKnown(tier, w, c);
    ResolveIsFirstSuccess(plan, 0, tier, w, c);
    Made(plan, Resolve(plan, 0, tier, w, c).1, w)
  }

  lemma OutcomeIsFirstSuccess(order: seq<string>, c: Configuration, status: Status, w: World) returns (calls: nat)
    ensures var tier := Candidates(order, c.models, status);
      Known(tier, c) && FirstSuccess(OutcomeOf(order, c, status, w), calls, Plan(tier, w, c), tier, w, c)
  {
    CandidatesKnown(order, c, status);
    var tier := Candidates(order, c.models, status);
    PlanKnown(tier, w, c);
    ResolveIsFirstSuccess(Plan(tier, w, c), 0, tier, w, c);
    calls := Resolve(Plan(tier, w, c), 0, tier, w, c).1;
  }

  /** How many of the planned calls are made: all of them, or up to the first that is answered. */
  lemma CallsMade(order: seq<string>, c: Configuration, status: Status, w: World)
    ensures var tier, replies := Candidates(order, c.models, status), RepliesOf(order, c, status, w);
      && Known(tier, c)
      && var plan := Plan(tier, w, c);
         && |replies| <= |plan| && (forall k :: 0 <= k < |replies| ==> replies[k] == w.reply(k, plan[k]))
         && (forall k :: 0 <= k < |replies| - 1 ==> replies[k].Failure?)
         && (|replies| < |plan| ==> replies != [] && replies[|replies| - 1].Answer?)
         && FirstSuccess(OutcomeOf(order, c, status, w), |replies|, plan, tier, w, c)
  {
    var tier := Candidates(order, c.models, status);
    CandidatesKnown(order, c, status);
    var plan := Plan(tier, w, c);
    PlanKnown(tier, w, c);
    ResolveIsFirstSuccess(plan, 0, tier, w, c);
    MadeAre(plan, Resolve(plan, 0, tier, w, c).1, w);
  }

  method CallCandidates(
    order: seq<string>, c: Configuration, status: Status, limiter: Rate.Limiter, at: nat -> int, estimate: int,
    reply: (nat, Attempt) -> Reply, ghost usage: Rate.Log, ghost start: int, ghost end: int)
    returns (o: Outcome, calls: nat, received: string)
    requires Ascends(at, start, end) && Remembers(limiter, usage, start)
    modifies limiter, limiter.repr
    ensures fresh(limiter.repr - old(limiter.repr)) && Remembers(limiter, usage, end)
    ensures var tier := Candidates(order, c.models, status);
      var w := World(Allows(usage, tier, at, estimate, limiter.safetyMargin, c), reply);
      && o == OutcomeOf(order, c, status, w)
      && Known(tier, c)
      && var plan := Plan(tier, w, c);
         && FirstSuccess(o, calls, plan, tier, w, c)
         && calls <= |plan| && received == Text(RepliesOf(order, c, status, w))
  {
    var tier := CandidateList(order, c.models, status);
    ghost var w := World(Allows(usage, tier, at, estimate, limiter.safetyMargin, c), reply);
    CandidatesKnown(order, c, status);
    PlanKnown(tier, w, c);
    ResolveIsFirstSuccess(Plan(tier, w, c), 0, tier, w, c);
    MadeIsReceived(Plan(tier, w, c), Resolve(Plan(tier, w, c), 0, tier, w, c).1, w);
    if |tier| == 0 {
      assert start <= at(0) <= end;
      return NoActiveModels, 0, "";
    }
    var served, p := CallTier(tier, c, limiter, at, estimate, reply, usage, start, end, w);
    calls, received := p.calls, p.received;
    if served.Some? {
      return served.value, calls, received;
    }
    NobodyAnswered(p, Plan(tier, w, c), tier, w, c);
    o := if p.lastErr.None? then NobodyCouldHandle else LastError(p.lastErr.value);
  }

  // ---- What that means for a valid configuration --------------------------

  /** A valid configuration answers with a model of the tier that was allowed through, through
      one of its enabled instances, with a key of its own provider. */
  lemma ServedByItsTier(
    order: seq<string>, c: Configuration, status: Status, w: World, o: Outcome, calls: nat)
    returns (place: nat, instance: string)
    requires WellFormed(c) && o.Served?
    requires var tier := Candidates(order, c.models, status);
      Known(tier, c) && FirstSuccess(o, calls, Plan(tier, w, c), tier, w, c)
    ensures var tier := Candidates(order, c.models, status);
      && place < |tier| && tier[place] == o.id && w.allowed(place)
      && o.id in order && o.id in c.models && c.models[o.id].enabled
      && (o.id !in status || status[o.id] == "" || status[o.id] == "active")
      && instance in InstancesOf(c.models[o.id]) && RefersTo(instance, c.models[o.id].provider, c.keys, c.instances)
      && c.instances[instance].enabled
      && c.keys[c.instances[instance].keyRef].value == Plan(tier, w, c)[calls - 1].key
  {
    var tier := Candidates(order, c.models, status);
    place := PlannedModel(tier, w, c, calls - 1);
    CandidatesMeaning(order, c.models, status, tier[place]);
    var m, key := c.models[o.id], Plan(tier, w, c)[calls - 1].key;
    KeysAreOfProvider(m, c, key);
    instance :| instance in InstancesOf(m) && RefersTo(instance, m.provider, c.keys, c.instances)
                && c.instances[instance].enabled && c.keys[c.instances[instance].keyRef].value == key;
  }

  ghost predicate AllHaveKeys(tier: seq<string>, c: Configuration) {
    forall id :: id in tier ==> id in c.models && KeyOrder(c.models[id], c) != []
  }

  lemma {:induction false} NoPlanIff(tier: seq<string>, w: World, c: Configuration)
    requires Known(tier, c) && AllHaveKeys(tier, c)
    ensures Plan(tier, w, c) == [] <==> forall i :: 0 <= i < |tier| ==> !w.allowed(i)
  {
    if tier == [] {
    } else {
      var n := |tier| - 1;
      NoPlanIff(tier[..n], w, c);
      assert tier[n] in tier;
      assert |With(tier[n], KeyOrder(c.models[tier[n]], c))| > 0;
    }
  }

  /** With no blank key, a request that finds candidates makes no call at all exactly when the
      limiter holds every one of them back. */
  lemma NobodyMeansHeldBack(tier: seq<string>, w: World, c: Configuration)
    requires Known(tier, c) && GoodModels(c.models, c.keys, c.instances) && NoBlankKeys(c)
    requires forall id :: id in tier ==> c.models[id].enabled
    ensures Plan(tier, w, c) == [] <==> forall i :: 0 <= i < |tier| ==> !w.allowed(i)
  {
    forall id | id in tier ensures KeyOrder(c.models[id], c) != [] {
      EnabledModelHasKey(c.models[id], c);
    }
    NoPlanIff(tier, w, c);
  }

  // ---- What the caller has been sent --------------------------------------

  lemma {:induction false} TextAppend(a: seq<Reply>, b: seq<Reply>)
    ensures Text(a + b) == Text(a) + Text(b)
  {
    if b == [] {
      assert a + b == a;
    } else {
      var s, init, last := a + b, b[..|b| - 1], b[|b| - 1];
      TextAppend(a, init);
      assert s[..|s| - 1] == a + init && s[|s| - 1] == last;
      assert Text(a) + (Text(init) + last.streamed) == (Text(a) + Text(init)) + last.streamed;
    }
  }

  ghost predicate Silent(replies: seq<Reply>) {
    forall k :: 0 <= k < |replies| ==> replies[k].streamed == ""
  }

  lemma SilentInit(replies: seq<Reply>)
    requires replies != []
    ensures Silent(replies) <==> Silent(replies[..|replies| - 1]) && replies[|replies| - 1].streamed == ""
  {
    var init := replies[..|replies| - 1];
    assert forall k :: 0 <= k < |init| ==> init[k] == replies[k];
  }

  lemma {:induction false} SilentIff(replies: seq<Reply>)
    ensures Text(replies) == "" <==> Silent(replies)
  {
    if replies == [] {
    } else {
      SilentIff(replies[..|replies| - 1]);
      SilentInit(replies);
    }
  }

  lemma SameIffEmpty(a: string, b: string)
    ensures a + b == b <==> a == ""
  {
    if a != "" {
      assert |a + b| > |b|;
    } else {
      assert a + b == b;
    }
  }

  /** The text is what the last reply streamed exactly when the replies before it streamed
      nothing. */
  lemma TextIsTheLastIff(replies: seq<Reply>)
    requires replies != []
    ensures Text(replies) == replies[|replies| - 1].streamed <==> Silent(replies[..|replies| - 1])
  {
    var init := replies[..|replies| - 1];
    SilentIff(init);
    SameIffEmpty(Text(init), replies[|replies| - 1].streamed);
  }

  /** All replies are failures but the one that serves the request, which comes last. */
  lemma RepliesEndWithAnswer(order: seq<string>, c: Configuration, status: Status, w: World)
    ensures var o, replies := OutcomeOf(order, c, status, w), RepliesOf(order, c, status, w);
      var failed := if o.Served? then |replies| - 1 else |replies|;
      && failed >= 0 && (forall k :: 0 <= k < failed ==> replies[k].Failure?)
      && (o.Served? ==>
            && replies[failed].Answer? && o.content == replies[failed].content
            && o.cost == replies[failed].cost && o.tokens == replies[failed].tokens)
  {
    var tier := Candidates(order, c.models, status);
    CandidatesKnown(order, c, status);
    PlanKnown(tier, w, c);
    ResolveIsFirstSuccess(Plan(tier, w, c), 0, tier, w, c);
    MadeAre(Plan(tier, w, c), Resolve(Plan(tier, w, c), 0, tier, w, c).1, w);
  }
}
