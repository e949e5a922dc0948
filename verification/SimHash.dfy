/**
 SimHash and Hamming distance (internal/semantic/hash.go). A 64-bit word is the sequence of
 its bits, lowest first; a text appears as the hash words of its tokens.
 */
module SimHash {

  type Word = w: seq<bool> | |w| == 64 witness seq(64, _ => false)

  /** How many tokens have the bit. */
  function Ones(tokens: seq<Word>, bit: nat): (n: nat)
    requires bit < 64
    ensures n <= |tokens|
  {
    if tokens == [] then 0
    else Ones(tokens[..|tokens| - 1], bit) + (if tokens[|tokens| - 1][bit] then 1 else 0)
  }

  /** The tokens for the bit less the tokens against it. */
  function Margin(tokens: seq<Word>, bit: nat): int
    requires bit < 64
  {
    2 * Ones(tokens, bit) - |tokens|
  }

  /** A strict majority vote on every bit; a tie clears it. */
  function Vote(tokens: seq<Word>): Word {
    seq(64, bit requires 0 <= bit < 64 => Margin(tokens, bit) > 0)
  }

  /** The loops over tokens and bits compute the vote. */
  method SimHash(tokens: seq<Word>) returns (out: Word)
    ensures out == Vote(tokens)
    ensures forall bit :: 0 <= bit < 64 ==>
      (out[bit] <==> Ones(tokens, bit) > |tokens| - Ones(tokens, bit))
  {
    var vector := new int[64](_ => 0);
    for i := 0 to |tokens|
      invariant forall b :: 0 <= b < 64 ==> vector[b] == Margin(tokens[..i], b)
    {
      assert tokens[..i + 1][..i] == tokens[..i];
      for bit := 0 to 64
        invariant forall b :: 0 <= b < bit ==> vector[b] == Margin(tokens[..i + 1], b)
        invariant forall b :: bit <= b < 64 ==> vector[b] == Margin(tokens[..i], b)
      {
        if tokens[i][bit] {
          vector[bit] := vector[bit] + 1;
        } else {
          vector[bit] := vector[bit] - 1;
        }
      }
    }
    assert tokens[..|tokens|] == tokens;
    out := seq(64, _ => false);
    for bit := 0 to 64
      invariant |out| == 64
      invariant forall b :: 0 <= b < bit ==> (out[b] <==> Margin(tokens, b) > 0)
      invariant forall b :: bit <= b < 64 ==> !out[b]
    {
      if vector[bit] > 0 {
        out := out[bit := true];
      }
    }
  }

  lemma {:induction false} OnesAppend(a: seq<Word>, b: seq<Word>, bit: nat)
    requires bit < 64
    ensures Ones(a + b, bit) == Ones(a, bit) + Ones(b, bit)
  {
    if b == [] {
      assert a + b == a;
    } else {
      OnesAppend(a, b[..|b| - 1], bit);
      assert (a + b)[..|a + b| - 1] == a + b[..|b| - 1];
    }
  }

  lemma EmptyBag(s: seq<Word>)
    requires multiset(s) == multiset([])
    ensures s == []
  {
    assert |s| == |multiset(s)|;
  }

  /** A token of the bag taken out of the list. */
  lemma TakenOut(s: seq<Word>, x: Word, bit: nat) returns (rest: seq<Word>)
    requires x in multiset(s) && bit < 64
    ensures |rest| == |s| - 1 && multiset(rest) == multiset(s) - multiset{x}
    ensures Ones(s, bit) == Ones(rest, bit) + (if x[bit] then 1 else 0)
  {
    var i :| 0 <= i < |s| && s[i] == x;
    rest := s[..i] + s[i + 1..];
    assert s == s[..i + 1] + s[i + 1..] && s[..i + 1] == s[..i] + [x];
    OnesAppend(s[..i + 1], s[i + 1..], bit);
    OnesAppend(s[..i], s[i + 1..], bit);
  }

  lemma {:induction false} OnesOfBag(a: seq<Word>, b: seq<Word>, bit: nat)
    requires bit < 64 && multiset(a) == multiset(b)
    ensures |a| == |b| && Ones(a, bit) == Ones(b, bit)
    decreases |a|
  {
    if a == [] {
      EmptyBag(b);
    } else {
      var x := a[0];
      var a' := TakenOut(a, x, bit);
      var b' := TakenOut(b, x, bit);
      OnesOfBag(a', b', bit);
    }
  }

  /** The hash does not depend on the order of the tokens. */
  lemma OrderDoesNotMatter(a: seq<Word>, b: seq<Word>)
    requires multiset(a) == multiset(b)
    ensures Vote(a) == Vote(b)
  {
    forall bit | 0 <= bit < 64 ensures Vote(a)[bit] == Vote(b)[bit] {
      OnesOfBag(a, b, bit);
    }
  }

  function Repeated(tokens: seq<Word>, times: nat): seq<Word> {
    if times == 0 then [] else Repeated(tokens, times - 1) + tokens
  }

  lemma OneMoreTime(times: int, m: int)
    ensures (times - 1) * m + m == times * m
  {
  }

  lemma {:induction false} RepeatedMargin(tokens: seq<Word>, times: nat, bit: nat)
    requires bit < 64
    ensures Margin(Repeated(tokens, times), bit) == times * Margin(tokens, bit)
  {
    if times == 0 {
    } else {
      var shorter := Repeated(tokens, times - 1);
      RepeatedMargin(tokens, times - 1, bit);
      OnesAppend(shorter, tokens, bit);
      OneMoreTime(times, Margin(tokens, bit));
    }
  }

  /** Nor on how often the whole text is repeated. */
  lemma RepetitionDoesNotMatter(tokens: seq<Word>, times: nat)
    requires times >= 1
    ensures Vote(Repeated(tokens, times)) == Vote(tokens)
  {
    forall bit | 0 <= bit < 64 ensures Vote(Repeated(tokens, times))[bit] == Vote(tokens)[bit] {
      RepeatedMargin(tokens, times, bit);
      var m := Margin(tokens, bit);
      if m > 0 {
        assert times * m > 0;
      } else {
        assert times * m <= 0;
      }
    }
  }

  /** One more token flips exactly the bits that were won by a single vote and lack the
      token, or were tied and have it. */
  lemma OneTokenFlips(tokens: seq<Word>, token: Word, bit: nat)
    requires bit < 64
    ensures Vote(tokens + [token])[bit] != Vote(tokens)[bit] <==>
      (Margin(tokens, bit) == 1 && !token[bit]) || (Margin(tokens, bit) == 0 && token[bit])
  {
    OnesAppend(tokens, [token], bit);
    assert [token][..0] == [];
  }

  // ---- Hamming distance ---------------------------------------------------

  /** Differing bits among the first n. */
  function Differences(a: Word, b: Word, n: nat): nat
    requires n <= 64
  {
    if n == 0 then 0 else Differences(a, b, n - 1) + (if a[n - 1] != b[n - 1] then 1 else 0)
  }

  function HammingDistance(a: Word, b: Word): nat {
    Differences(a, b, 64)
  }

  lemma {:induction false} DifferencesZero(a: Word, b: Word, n: nat)
    requires n <= 64
    ensures Differences(a, b, n) == 0 <==> forall i :: 0 <= i < n ==> a[i] == b[i]
  {
    if n == 0 {
    } else {
      DifferencesZero(a, b, n - 1);
    }
  }

  lemma {:induction false} DifferencesTriangle(a: Word, b: Word, c: Word, n: nat)
    requires n <= 64
    ensures Differences(a, b, n) == Differences(b, a, n) <= n
    ensures Differences(a, c, n) <= Differences(a, b, n) + Differences(b, c, n)
  {
    if n == 0 {
    } else {
      DifferencesTriangle(a, b, c, n - 1);
    }
  }

  /** A metric on words, bounded by their width. */
  lemma HammingIsMetric(a: Word, b: Word, c: Word)
    ensures HammingDistance(a, b) == 0 <==> a == b
    ensures HammingDistance(a, b) == HammingDistance(b, a) <= 64
    ensures HammingDistance(a, c) <= HammingDistance(a, b) + HammingDistance(b, c)
  {
    DifferencesZero(a, b, 64);
    DifferencesTriangle(a, b, c, 64);
  }

  /** Without a close vote anywhere, one more token changes nothing. */
  lemma NoCloseVoteNoChange(tokens: seq<Word>, token: Word)
    requires forall bit :: 0 <= bit < 64 ==> Margin(tokens, bit) > 1 || Margin(tokens, bit) < 0
    ensures Vote(tokens + [token]) == Vote(tokens)
  {
    forall bit | 0 <= bit < 64 ensures Vote(tokens + [token])[bit] == Vote(tokens)[bit] {
      OneTokenFlips(tokens, token, bit);
    }
  }
}
