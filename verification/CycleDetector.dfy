/**
 Cycle detection per session and the bounded registry of sessions
 (internal/cycle/detector.go). Turning a text into the hash words of its tokens is left to a
 function `tokens`.
 */
module CycleDetector {
  import opened Common
  import opened SimHash
  import opened Escalation

  // ---- One session --------------------------------------------------------

  /** The hash of a prompt together with the response it got. */
  function PairHash(tokens: string -> seq<Word>, prompt: string, response: string): Word {
    Vote(tokens(prompt + "\n" + response))
  }

  datatype Memory = Memory(recent: seq<Word>, lastResponse: string)

  function Added(m: Memory, tokens: string -> seq<Word>, maxHashes: nat, prompt: string, response: string): Memory {
    Memory(LastN(m.recent + [PairHash(tokens, prompt, response)], maxHashes), response)
  }

  predicate Detects(m: Memory, tokens: string -> seq<Word>, threshold: nat, prompt: string) {
    exists i :: 0 <= i < |m.recent| &&
      HammingDistance(PairHash(tokens, prompt, m.lastResponse), m.recent[i]) <= threshold
  }

  /** The hashes of a history of prompts and responses. */
  function HashesOf(tokens: string -> seq<Word>, pairs: seq<(string, string)>): (r: seq<Word>)
    ensures |r| == |pairs|
  {
    if pairs == [] then []
    else
      var last := pairs[|pairs| - 1];
      HashesOf(tokens, pairs[..|pairs| - 1]) + [PairHash(tokens, last.0, last.1)]
  }

  lemma {:induction false} HashesAt(tokens: string -> seq<Word>, pairs: seq<(string, string)>, j: nat)
    requires j < |pairs|
    ensures HashesOf(tokens, pairs)[j] == PairHash(tokens, pairs[j].0, pairs[j].1)
  {
    if j == |pairs| - 1 {
    } else {
      HashesAt(tokens, pairs[..|pairs| - 1], j);
    }
  }

  class Detector {
    const tokens: string -> seq<Word>
    const threshold: nat
    const maxHashes: nat
    var recentHashes: seq<Word>
    var lastResponse: string
    /** Every prompt and response ever added. */
    ghost var pairs: seq<(string, string)>

    /** The remembered hashes are those of the newest `maxHashes` pairs. */
    ghost predicate Valid()
      reads this
    {
      threshold >= 1 && maxHashes >= 1 && recentHashes == LastN(HashesOf(tokens, pairs), maxHashes)
    }

    constructor (tokens: string -> seq<Word>, threshold: int, maxHashes: int)
      ensures Valid() && pairs == [] && lastResponse == "" && this.tokens == tokens
      ensures this.threshold == if threshold <= 0 then 3 else threshold
      ensures this.maxHashes == if maxHashes <= 0 then 50 else maxHashes
    {
      this.tokens := tokens;
      this.threshold := if threshold <= 0 then 3 else threshold;
      this.maxHashes := if maxHashes <= 0 then 50 else maxHashes;
      recentHashes, lastResponse, pairs := [], "", [];
    }

    /** A hit is a remembered hash within the threshold; repeating a remembered prompt after
        its own response is always a hit. */
    method DetectPrompt(prompt: string) returns (hit: bool)
      requires Valid()
      ensures hit == Detects(Memory(recentHashes, lastResponse), tokens, threshold, prompt)
      ensures forall j :: 0 <= j < |pairs| && |pairs| - maxHashes <= j && pairs[j] == (prompt, lastResponse) ==> hit
    {
      var current := SimHash.SimHash(tokens(prompt + "\n" + lastResponse));
      HammingIsMetric(current, current, current);
      for i := 0 to |recentHashes|
        invariant forall k :: 0 <= k < i ==> HammingDistance(current, recentHashes[k]) > threshold
      {
        if HammingDistance(current, recentHashes[i]) <= threshold {
          return true;
        }
      }
      forall j | 0 <= j < |pairs| && |pairs| - maxHashes <= j
        ensures pairs[j] != (prompt, lastResponse)
      {
        HashesAt(tokens, pairs, j);
        assert recentHashes[j - (|pairs| - |recentHashes|)] == HashesOf(tokens, pairs)[j];
      }
      hit := false;
    }

    method Add(prompt: string, response: string)
      requires Valid()
      modifies this
      ensures Valid() && pairs == old(pairs) + [(prompt, response)] && lastResponse == response
      ensures recentHashes == Added(Memory(old(recentHashes), old(lastResponse)), tokens, maxHashes, prompt, response).recent
    {
      var hash := SimHash.SimHash(tokens(prompt + "\n" + response));
      LastNSnoc(HashesOf(tokens, pairs), hash, maxHashes);
      assert (pairs + [(prompt, response)])[..|pairs|] == pairs;
      pairs := pairs + [(prompt, response)];
      recentHashes := recentHashes + [hash];
      if |recentHashes| > maxHashes {
        recentHashes := recentHashes[|recentHashes| - maxHashes..];
      }
      lastResponse := response;
    }

    method ClearLastResponse()
      requires Valid()
      modifies this`lastResponse
      ensures Valid() && lastResponse == ""
    {
      lastResponse := "";
    }
  }

  /** Repeating a prompt right after its successful, non-empty response forces the strong
      tier, whatever the score, the impact, the threshold and the mode. */
  lemma RepeatForcesStrong(m: Memory, tokens: string -> seq<Word>, threshold: nat, maxHashes: nat,
                           prompt: string, response: string, score: real, impact: Impact, level: real, strict: bool)
    requires maxHashes >= 1
    ensures var after := Added(m, tokens, maxHashes, prompt, response);
      DecideRoute(score, impact, level, strict, Detects(after, tokens, threshold, prompt)) == Strong
  {
    var after := Added(m, tokens, maxHashes, prompt, response);
    var hash := PairHash(tokens, prompt, response);
    assert after.recent[|after.recent| - 1] == hash;
    HammingIsMetric(hash, hash, hash);
  }

  // ---- The registry -------------------------------------------------------

  function Without(s: seq<string>, x: string): seq<string> {
    if s == [] then []
    else Without(s[..|s| - 1], x) + (if s[|s| - 1] == x then [] else [s[|s| - 1]])
  }

  /** The distinct sessions of a history, the most recently used last. */
  function ByLastUse(history: seq<string>): seq<string> {
    if history == [] then []
    else Without(ByLastUse(history[..|history| - 1]), history[|history| - 1]) + [history[|history| - 1]]
  }

  ghost predicate Distinct(s: seq<string>) {
    forall i, j :: 0 <= i < j < |s| ==> s[i] != s[j]
  }

  lemma {:induction false} WithoutMembers(s: seq<string>, x: string)
    ensures forall y :: y in Without(s, x) <==> y in s && y != x
  {
    if s == [] {
    } else {
      WithoutMembers(s[..|s| - 1], x);
      assert s == s[..|s| - 1] + [s[|s| - 1]];
    }
  }

  lemma {:induction false} WithoutAppend(a: seq<string>, b: seq<string>, x: string)
    ensures Without(a + b, x) == Without(a, x) + Without(b, x)
  {
    if b == [] {
      assert a + b == a;
    } else {
      WithoutAppend(a, b[..|b| - 1], x);
      assert (a + b)[..|a + b| - 1] == a + b[..|b| - 1];
    }
  }

  lemma {:induction false} WithoutAbsent(s: seq<string>, x: string)
    requires x !in s
    ensures Without(s, x) == s
  {
    if s == [] {
    } else {
      WithoutAbsent(s[..|s| - 1], x);
      assert s == s[..|s| - 1] + [s[|s| - 1]];
    }
  }

  /** Removing a session that is there once closes the gap it leaves. */
  lemma {:induction false} WithoutAt(s: seq<string>, i: nat)
    requires i < |s| && s[i] !in s[..i] && s[i] !in s[i + 1..]
    ensures Without(s, s[i]) == s[..i] + s[i + 1..]
  {
    var n := |s| - 1;
    if i == n {
      WithoutAbsent(s[..n], s[i]);
    } else {
      var front := s[..n];
      assert front[..i] == s[..i];
      assert s[i + 1..] == front[i + 1..] + [s[n]];
      WithoutAt(front, i);
      assert s[i + 1..][n - i - 1] == s[n];
    }
  }

  lemma DistinctAt(s: seq<string>, i: nat)
    requires i < |s| && Distinct(s)
    ensures s[i] !in s[..i] && s[i] !in s[i + 1..]
  {
  }

  lemma DistinctSnoc(s: seq<string>, x: string)
    requires Distinct(s) && x !in s
    ensures Distinct(s + [x])
  {
  }

  lemma WithoutDistinct(s: seq<string>, x: string)
    requires Distinct(s)
    ensures Distinct(Without(s, x)) && x !in Without(s, x)
  {
    WithoutMembers(s, x);
    if x in s {
      var i :| 0 <= i < |s| && s[i] == x;
      DistinctAt(s, i);
      WithoutAt(s, i);
    } else {
      WithoutAbsent(s, x);
    }
  }

  lemma {:induction false} ByLastUseShape(history: seq<string>)
    ensures Distinct(ByLastUse(history))
    ensures forall y :: y in ByLastUse(history) <==> y in history
  {
    if history == [] {
    } else {
      var front, x := history[..|history| - 1], history[|history| - 1];
      ByLastUseShape(front);
      WithoutDistinct(ByLastUse(front), x);
      DistinctSnoc(Without(ByLastUse(front), x), x);
      WithoutMembers(ByLastUse(front), x);
      assert history == front + [x];
    }
  }

  /** The index of the last use of a session. */
  function LastUse(history: seq<string>, x: string): (i: nat)
    requires x in history
    ensures i < |history| && history[i] == x
    ensures forall k :: i < k < |history| ==> history[k] != x
  {
    var n := |history| - 1;
    if history[n] == x then n
    else
      assert history == history[..n] + [history[n]];
      LastUse(history[..n], x)
  }

  ghost predicate InUseOrder(s: seq<string>, history: seq<string>) {
    && (forall i :: 0 <= i < |s| ==> s[i] in history)
    && forall i, j :: 0 <= i < j < |s| ==> LastUse(history, s[i]) < LastUse(history, s[j])
  }

  lemma InUseOrderGap(s: seq<string>, i: nat, history: seq<string>)
    requires i < |s| && InUseOrder(s, history)
    ensures InUseOrder(s[..i] + s[i + 1..], history)
  {
  }

  lemma LastUseSnoc(front: seq<string>, x: string, y: string)
    requires y in front && y != x
    ensures y in front + [x] && LastUse(front + [x], y) == LastUse(front, y)
  {
    var i := LastUse(front, y);
    assert (front + [x])[i] == y;
  }

  lemma InUseOrderSnoc(s: seq<string>, front: seq<string>, x: string)
    requires InUseOrder(s, front) && x !in s
    ensures InUseOrder(s + [x], front + [x])
  {
    var history := front + [x];
    assert history[|front|] == x && LastUse(history, x) == |front|;
    forall i | 0 <= i < |s| ensures s[i] in history && LastUse(history, s[i]) == LastUse(front, s[i]) {
      LastUseSnoc(front, x, s[i]);
    }
  }

  lemma WithoutInUseOrder(s: seq<string>, x: string, history: seq<string>)
    requires Distinct(s) && InUseOrder(s, history)
    ensures InUseOrder(Without(s, x), history)
  {
    if x in s {
      var i :| 0 <= i < |s| && s[i] == x;
      DistinctAt(s, i);
      WithoutAt(s, i);
      InUseOrderGap(s, i, history);
    } else {
      WithoutAbsent(s, x);
    }
  }

  /** The listing really is ordered by last use. */
  lemma {:induction false} ByLastUseOrdered(history: seq<string>)
    ensures InUseOrder(ByLastUse(history), history)
  {
    if history == [] {
    } else {
      var front, x := history[..|history| - 1], history[|history| - 1];
      ByLastUseOrdered(front);
      ByLastUseShape(front);
      WithoutInUseOrder(ByLastUse(front), x, front);
      WithoutMembers(ByLastUse(front), x);
      InUseOrderSnoc(Without(ByLastUse(front), x), front, x);
      assert history == front + [x];
    }
  }

  function Elements(s: seq<string>): set<string> {
    set x | x in s
  }

  lemma {:induction false} DistinctSize(s: seq<string>)
    requires Distinct(s)
    ensures |Elements(s)| == |s|
  {
    if s == [] {
    } else {
      var front, x := s[..|s| - 1], s[|s| - 1];
      DistinctSize(front);
      assert Elements(s) == Elements(front) + {x};
      assert x !in Elements(front);
    }
  }

  /** The distinct sessions used after index `i`. */
  function UsedAfter(history: seq<string>, i: nat): set<string> {
    set k | i < k < |history| :: history[k]
  }

  /** Whoever stands behind a session in the listing was used after it, and only they. */
  lemma BehindIsUsedAfter(history: seq<string>, x: string, i: nat)
    requires x in history && i < |ByLastUse(history)| && ByLastUse(history)[i] == x
    ensures Elements(ByLastUse(history)[i + 1..]) == UsedAfter(history, LastUse(history, x))
  {
    var d, u := ByLastUse(history), LastUse(history, x);
    ByLastUseShape(history);
    ByLastUseOrdered(history);
    BehindIsLater(d, history, x, i);
    forall k | u < k < |history| ensures history[k] in d[i + 1..] {
      BehindAt(d, history, x, i, k);
    }
  }

  lemma BehindIsLater(d: seq<string>, history: seq<string>, x: string, i: nat)
    requires InUseOrder(d, history) && x in history && i < |d| && d[i] == x
    ensures Elements(d[i + 1..]) <= UsedAfter(history, LastUse(history, x))
  {
    var behind, u := d[i + 1..], LastUse(history, x);
    forall y | y in behind ensures y in UsedAfter(history, u) {
      var k :| 0 <= k < |behind| && behind[k] == y;
      assert behind[k] == d[i + 1 + k];
      assert u < LastUse(history, y) && history[LastUse(history, y)] == y;
    }
  }

  lemma BehindAt(d: seq<string>, history: seq<string>, x: string, i: nat, k: nat)
    requires InUseOrder(d, history) && (forall y :: y in d <==> y in history)
    requires x in history && i < |d| && d[i] == x && LastUse(history, x) < k < |history|
    ensures history[k] in d[i + 1..]
  {
    var y := history[k];
    assert y in d;
    var j :| 0 <= j < |d| && d[j] == y;
    assert LastUse(history, y) >= k;
    assert j > i;
    assert d[i + 1..][j - i - 1] == y;
  }

  /** A session is among the newest `size` exactly when fewer than `size` distinct other
      sessions were used since its last use. */
  lemma SurvivesIff(history: seq<string>, x: string, size: nat)
    ensures x in LastN(ByLastUse(history), size) <==>
      x in history && |UsedAfter(history, LastUse(history, x))| < size
  {
    var d := ByLastUse(history);
    ByLastUseShape(history);
    assert forall y :: y in LastN(d, size) ==> y in d;
    if x in history {
      var i :| 0 <= i < |d| && d[i] == x;
      BehindIsUsedAfter(history, x, i);
      DistinctSize(d[i + 1..]);
      InTail(d, i, size);
    }
  }

  lemma InTail(d: seq<string>, i: nat, size: nat)
    requires Distinct(d) && i < |d|
    ensures d[i] in LastN(d, size) <==> |d| - i - 1 < size
  {
    var cut := |d| - |LastN(d, size)|;
    assert LastN(d, size) == d[cut..];
    if |d| - i - 1 < size {
      assert LastN(d, size)[i - cut] == d[i];
    }
  }

  /** What one fetch does to the bounded order. */
  function Fetched(order: seq<string>, x: string, size: nat): seq<string> {
    if x in order then Without(order, x) + [x]
    else if |order| >= size && order != [] then order[1..] + [x]
    else order + [x]
  }

  lemma DistinctTail(d: seq<string>, size: nat)
    requires Distinct(d)
    ensures Distinct(LastN(d, size))
  {
  }

  /** Bounding the listing commutes with using a session once more. */
  lemma FetchOrder(history: seq<string>, x: string, size: nat)
    requires size >= 1
    ensures LastN(ByLastUse(history + [x]), size) == Fetched(LastN(ByLastUse(history), size), x, size)
    ensures Distinct(LastN(ByLastUse(history), size))
  {
    var d := ByLastUse(history);
    ByLastUseShape(history);
    DistinctTail(d, size);
    assert (history + [x])[..|history|] == history;
    FetchTail(d, x, size);
  }

  lemma TailGap(d: seq<string>, i: nat, size: nat, x: string, rest: seq<string>)
    requires i < |d| && |d| - i - 1 < size && rest == d[..i] + d[i + 1..]
    ensures var tail, j := LastN(d, size), i - (|d| - |LastN(d, size)|);
      LastN(rest + [x], size) == tail[..j] + tail[j + 1..] + [x]
  {
  }

  lemma WithoutIndex(d: seq<string>, i: nat, x: string)
    requires Distinct(d) && i < |d| && d[i] == x
    ensures Without(d, x) == d[..i] + d[i + 1..]
  {
    DistinctAt(d, i);
    WithoutAt(d, i);
  }

  lemma TailPlace(d: seq<string>, i: nat, size: nat)
    requires i < |d| && |d| - i - 1 < size
    ensures var j := i - (|d| - |LastN(d, size)|); 0 <= j < |LastN(d, size)| && LastN(d, size)[j] == d[i]
  {
  }

  /** A kept session moves from its place in the tail to the end of it. */
  lemma FetchKept(d: seq<string>, i: nat, size: nat, x: string)
    requires Distinct(d) && i < |d| && d[i] == x && |d| - i - 1 < size
    ensures LastN(Without(d, x) + [x], size) == Without(LastN(d, size), x) + [x]
  {
    var tail := LastN(d, size);
    WithoutIndex(d, i, x);
    TailGap(d, i, size, x, Without(d, x));
    TailPlace(d, i, size);
    DistinctTail(d, size);
    WithoutIndex(tail, i - (|d| - |tail|), x);
  }

  lemma SameTail(d: seq<string>, i: nat, size: nat)
    requires i < |d| && |d| - i - 1 >= size
    ensures LastN(d[..i] + d[i + 1..], size) == LastN(d, size)
  {
  }

  /** An evicted session comes back as a new one. */
  lemma FetchEvicted(d: seq<string>, i: nat, size: nat, x: string)
    requires Distinct(d) && i < |d| && d[i] == x && |d| - i - 1 >= size >= 1
    ensures LastN(Without(d, x) + [x], size) == LastN(d, size)[1..] + [x]
  {
    WithoutIndex(d, i, x);
    SameTail(d, i, size);
    LastNSnoc(Without(d, x), x, size);
  }

  lemma FetchTail(d: seq<string>, x: string, size: nat)
    requires size >= 1 && Distinct(d)
    ensures LastN(Without(d, x) + [x], size) == Fetched(LastN(d, size), x, size)
  {
    if x in d {
      var i :| 0 <= i < |d| && d[i] == x;
      InTail(d, i, size);
      if |d| - i - 1 < size {
        FetchKept(d, i, size, x);
      } else {
        FetchEvicted(d, i, size, x);
      }
    } else {
      WithoutAbsent(d, x);
      assert x !in LastN(d, size);
      LastNSnoc(d, x, size);
    }
  }

  lemma TouchedElements(order: seq<string>, x: string)
    ensures Elements(order + [x]) == Elements(order) + {x}
    ensures Elements(Without(order, x) + [x]) == Elements(order) + {x}
  {
    WithoutMembers(order, x);
  }

  lemma OldestLeaves(order: seq<string>)
    requires order != [] && Distinct(order)
    ensures Elements(order[1..]) == Elements(order) - {order[0]}
  {
    DistinctAt(order, 0);
    assert order == [order[0]] + order[1..];
  }

  lemma OneEntryChanged(before: map<string, Memory>, after: map<string, Memory>, id: string, m: Memory)
    requires after.Keys == before.Keys && id in after && after[id] == m
    requires forall k :: k in after && k != id ==> after[k] == before[k]
    ensures after == before[id := m]
  {
  }

  /** The memories of the newest `size` sessions: those that were kept, and empty ones. */
  function Kept(memories: map<string, Memory>, history: seq<string>, size: nat): map<string, Memory> {
    map k | k in Elements(LastN(ByLastUse(history), size)) :: if k in memories then memories[k] else Memory([], "")
  }

  class Registry {
    const tokens: string -> seq<Word>
    const maxSize: nat
    const threshold: nat
    const maxHashes: nat
    var detectors: map<string, Detector>
    var order: seq<string>
    /** Every fetch so far, and every detector ever made. */
    ghost var history: seq<string>
    ghost var repr: set<Detector>

    /** The registry holds exactly the `maxSize` most recently used sessions, in that order. */
    ghost predicate Valid()
      reads this
    {
      && maxSize >= 1 && threshold >= 1 && maxHashes >= 1
      && order == LastN(ByLastUse(history), maxSize)
      && detectors.Keys == Elements(order)
    }

    /** The detectors are sound, made with the registry's settings, and nobody shares one. */
    ghost predicate Sound()
      reads this, repr
    {
      && (forall k :: k in detectors ==> detectors[k] in repr && SoundAt(detectors[k]))
      && (forall j, k :: j in detectors && k in detectors && j != k ==> detectors[j] != detectors[k])
    }

    ghost predicate SoundAt(d: Detector)
      reads d
    {
      d.Valid() && d.tokens == tokens && d.threshold == threshold && d.maxHashes == maxHashes
    }

    /** What the detectors remember. */
    ghost function Memories(): map<string, Memory>
      requires Sound()
      reads this, repr
    {
      map k | k in detectors :: MemoryIn(detectors[k])
    }

    ghost function MemoryIn(d: Detector): Memory
      reads d
    {
      Memory(d.recentHashes, d.lastResponse)
    }

    constructor (tokens: string -> seq<Word>, maxSize: int, threshold: int, maxHashes: int)
      ensures Valid() && history == [] && order == [] && detectors == map[] && repr == {} && this.tokens == tokens
      ensures this.maxSize == if maxSize <= 0 then 1000 else maxSize
      ensures this.threshold == if threshold <= 0 then 3 else threshold
      ensures this.maxHashes == if maxHashes <= 0 then 50 else maxHashes
    {
      this.tokens := tokens;
      this.maxSize := if maxSize <= 0 then 1000 else maxSize;
      this.threshold := if threshold <= 0 then 3 else threshold;
      this.maxHashes := if maxHashes <= 0 then 50 else maxHashes;
      detectors, order, history, repr := map[], [], [], {};
    }

    /** A known session keeps its detector, a new or evicted one starts afresh, and nobody
        else's detector changes. */
    method Get(id: string) returns (d: Detector)
      requires Valid()
      modifies this
      ensures Valid() && history == old(history) + [id]
      ensures id in detectors && d == detectors[id]
      ensures id in old(detectors) ==> d == old(detectors)[id] && detectors == old(detectors)
      ensures id !in old(detectors) ==> fresh(d) && SoundAt(d) && d.pairs == [] && d.lastResponse == ""
      ensures repr == if id in old(detectors) then old(repr) else old(repr) + {d}
      ensures forall k :: k in detectors && k != id ==> k in old(detectors) && detectors[k] == old(detectors)[k]
    {
      OrderShape();
      d := Fetch(id);
      NoteUse(id);
    }

    /** What a fetch guarantees of the detectors, given that none was written to. */
    twostate predicate Got(id: string, new d: Detector)
      reads this, d
    {
      && id in detectors && d == detectors[id]
      && (if id in old(detectors) then d == old(detectors)[id] && repr == old(repr)
          else fresh(d) && SoundAt(d) && d.pairs == [] && d.lastResponse == "" && repr == old(repr) + {d})
      && (forall k :: k in detectors && k != id ==> k in old(detectors) && detectors[k] == old(detectors)[k])
    }

    twostate lemma GotSound(id: string, new d: Detector)
      requires old(Sound()) && Got(id, d)
      requires forall k :: k in old(detectors) ==> unchanged(old(detectors)[k])
      ensures Sound()
    {
      forall k | k in detectors ensures detectors[k] in repr && SoundAt(detectors[k]) {
        if k in old(detectors) {
          assert old(SoundAt(detectors[k]));
        }
      }
    }

    /** What a fetch does to the memories: the sessions now kept have what they had, or
        nothing yet. */
    twostate lemma GotMemories(id: string, new d: Detector)
      requires old(Sound()) && Sound() && Valid() && Got(id, d)
      requires forall k :: k in old(detectors) ==> unchanged(old(detectors)[k])
      ensures Memories() == Kept(old(Memories()), history, maxSize)
    {
      var kept := Kept(old(Memories()), history, maxSize);
      assert detectors.Keys == Elements(LastN(ByLastUse(history), maxSize));
      forall k | k in detectors ensures MemoryIn(detectors[k]) == kept[k] {
        if k in old(detectors) {
          assert MemoryIn(detectors[k]) == old(MemoryIn(detectors[k]));
        }
      }
    }

    twostate lemma WroteSound(id: string)
      requires old(Sound()) && unchanged(this) && id in detectors && SoundAt(detectors[id])
      requires forall k :: k in detectors && detectors[k] != detectors[id] ==> unchanged(detectors[k])
      ensures Sound()
    {
      forall k | k in detectors ensures detectors[k] in repr && SoundAt(detectors[k]) {
        assert old(SoundAt(detectors[k]));
      }
    }

    /** Writing to one detector changes the memory of its session only. */
    twostate lemma WroteOne(id: string)
      requires old(Sound()) && Sound() && unchanged(this) && id in detectors
      requires forall k :: k in detectors && detectors[k] != detectors[id] ==> unchanged(detectors[k])
      ensures Memories() == old(Memories())[id := MemoryIn(detectors[id])]
    {
      forall k | k in detectors && k != id ensures MemoryIn(detectors[k]) == old(MemoryIn(detectors[k])) {
        assert detectors[k] != detectors[id];
      }
      OneEntryChanged(old(Memories()), Memories(), id, MemoryIn(detectors[id]));
    }

    lemma OrderShape()
      requires Valid()
      ensures Distinct(order) && |order| <= maxSize
      ensures order == LastN(ByLastUse(history), maxSize)
    {
      FetchOrder(history, "", maxSize);
    }

    /** The order already is what this use makes it. */
    ghost method NoteUse(id: string)
      requires maxSize >= 1 && threshold >= 1 && maxHashes >= 1 && detectors.Keys == Elements(order)
      requires order == Fetched(LastN(ByLastUse(history), maxSize), id, maxSize)
      modifies this`history
      ensures Valid() && history == old(history) + [id]
    {
      FetchOrder(history, id, maxSize);
      history := history + [id];
    }

    method Fetch(id: string) returns (d: Detector)
      requires Distinct(order) && |order| <= maxSize && maxSize >= 1 && detectors.Keys == Elements(order)
      requires threshold >= 1 && maxHashes >= 1
      modifies this`order, this`detectors, this`repr
      ensures order == Fetched(old(order), id, maxSize) && detectors.Keys == Elements(order)
      ensures id in detectors && d == detectors[id]
      ensures id in old(detectors) ==> d == old(detectors)[id] && detectors == old(detectors)
      ensures id !in old(detectors) ==> fresh(d) && SoundAt(d) && d.pairs == [] && d.lastResponse == ""
      ensures repr == if id in old(detectors) then old(repr) else old(repr) + {d}
      ensures forall k :: k in detectors && k != id ==> k in old(detectors) && detectors[k] == old(detectors)[k]
    {
      if id in detectors {
        TouchedElements(order, id);
        Touch(id);
        return detectors[id];
      }
      Evict();
      TouchedElements(order, id);
      d := new Detector(tokens, threshold, maxHashes);
      detectors, repr := detectors[id := d], repr + {d};
      order := order + [id];
    }

    /** Drops the oldest sessions until there is room for one more. */
    method Evict()
      requires |order| <= maxSize && maxSize >= 1 && detectors.Keys == Elements(order) && Distinct(order)
      modifies this`order, this`detectors
      ensures detectors.Keys == Elements(order)
      ensures order == if |old(order)| >= maxSize then old(order)[1..] else old(order)
      ensures forall k :: k in detectors ==> k in old(detectors) && detectors[k] == old(detectors)[k]
    {
      if |order| >= maxSize {
        OldestLeaves(order);
      }
      while |order| >= maxSize
        invariant |order| <= maxSize && detectors.Keys == Elements(order)
        invariant order == old(order) || (|old(order)| == maxSize && order == old(order)[1..])
        invariant forall k :: k in detectors ==> k in old(detectors) && detectors[k] == old(detectors)[k]
        decreases |order|
      {
        var oldest := order[0];
        order := order[1..];
        detectors := detectors - {oldest};
      }
    }

    /** Moves the session to the end of the order. */
    method Touch(id: string)
      requires Distinct(order) && id in order
      modifies this`order
      ensures order == Without(old(order), id) + [id]
    {
      var i := 0;
      while i < |order|
        invariant 0 <= i <= |order| && order == old(order)
        invariant id !in order[..i]
      {
        if order[i] == id {
          DistinctAt(order, i);
          WithoutAt(order, i);
          order := order[..i] + order[i + 1..] + [id];
          return;
        }
        i := i + 1;
      }
    }
  }
}
