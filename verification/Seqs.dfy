/** Sequences used as lists of distinct identifiers. */
module Seqs {

  /** First position of x in s. */
  ghost function IndexOf(s: seq<int>, x: int): (j: nat)
    requires x in s
    ensures j < |s| && s[j] == x
  {
    if s[0] == x then 0 else 1 + IndexOf(s[1..], x)
  }

  /** Element j of s, or -1 (the null link) beyond either end. */
  ghost function At(s: seq<int>, j: int): int {
    if 0 <= j < |s| then s[j] else -1
  }

  ghost predicate NoDuplicates(s: seq<int>) {
    forall i, k :: 0 <= i < k < |s| ==> s[i] != s[k]
  }

  /** s without the element at position j. */
  ghost function Without(s: seq<int>, j: nat): seq<int>
    requires j < |s|
  {
    s[..j] + s[j + 1..]
  }

  /** s without the first occurrence of x. */
  ghost function Remove(s: seq<int>, x: int): seq<int> {
    if x in s then Without(s, IndexOf(s, x)) else s
  }

  lemma {:induction false} IndexUnique(s: seq<int>, x: int, j: nat)
    requires NoDuplicates(s) && j < |s| && s[j] == x
    ensures IndexOf(s, x) == j
  {
    var i := IndexOf(s, x);
    assert !(i < j) && !(j < i);
  }

  lemma WithoutFacts(s: seq<int>, j: nat)
    requires NoDuplicates(s) && j < |s|
    ensures var t := Without(s, j);
            && |t| == |s| - 1 && (forall i :: 0 <= i < |t| ==> t[i] == s[if i < j then i else i + 1])
            && NoDuplicates(t) && s[j] !in t
            && (forall y :: y in t ==> y in s)
            && (forall k :: 0 <= k < |s| && k != j ==> s[k] in t)
  {
    var t := Without(s, j);
    forall k | 0 <= k < |s| && k != j ensures s[k] in t {
      assert t[if k < j then k else k - 1] == s[k];
    }
  }

  /** Removal takes out x and nothing else. */
  lemma RemoveFacts(s: seq<int>, x: int)
    requires NoDuplicates(s)
    ensures NoDuplicates(Remove(s, x)) && x !in Remove(s, x)
    ensures forall y :: y in s && y != x ==> y in Remove(s, x)
    ensures forall y :: y in Remove(s, x) ==> y in s
  {
    if x in s { WithoutFacts(s, IndexOf(s, x)); }
  }

  /** Behind x everything moves up by one. */
  lemma RemoveIndex(s: seq<int>, x: int, y: int)
    requires NoDuplicates(s) && y in s && y != x
    ensures y in Remove(s, x)
    ensures IndexOf(Remove(s, x), y) == IndexOf(s, y) - (if x in s && IndexOf(s, x) < IndexOf(s, y) then 1 else 0)
  {
    if x in s {
      var j, k := IndexOf(s, x), IndexOf(s, y);
      WithoutFacts(s, j);
      IndexUnique(Remove(s, x), y, if k < j then k else k - 1);
    }
  }

  lemma AppendFacts(s: seq<int>, x: int)
    requires NoDuplicates(s) && x !in s
    ensures NoDuplicates(s + [x]) && IndexOf(s + [x], x) == |s|
    ensures forall y :: y in s ==> IndexOf(s + [x], y) == IndexOf(s, y)
  {
    var t := s + [x];
    IndexUnique(t, x, |s|);
    forall y | y in s ensures IndexOf(t, y) == IndexOf(s, y) {
      IndexUnique(t, y, IndexOf(s, y));
    }
  }

  lemma TailFacts(s: seq<int>)
    requires NoDuplicates(s) && |s| > 0
    ensures s[1..] == Remove(s, s[0])
    ensures forall y :: y in s[1..] ==> IndexOf(s[1..], y) == IndexOf(s, y) - 1
  {
    forall y | y in s[1..] ensures IndexOf(s[1..], y) == IndexOf(s, y) - 1 { TailIndex(s, y); }
    hide NoDuplicates;
  }

  lemma TailIndex(s: seq<int>, y: int)
    requires NoDuplicates(s) && |s| > 0 && y in s[1..]
    ensures y in s && IndexOf(s, y) == IndexOf(s[1..], y) + 1
  {
    IndexUnique(s, y, IndexOf(s[1..], y) + 1);
  }

  lemma RemoveTop(s: seq<int>, n: nat)
    requires NoDuplicates(s) && n > 0 && forall i :: 0 <= i < |s| ==> 0 <= s[i] < n
    ensures var t := Remove(s, n - 1);
            NoDuplicates(t) && |s| <= |t| + 1 && forall i :: 0 <= i < |t| ==> 0 <= t[i] < n - 1
  {
    RemoveFacts(s, n - 1);
    var t := Remove(s, n - 1);
    assert |s| <= |t| + 1;
    hide Remove, NoDuplicates;
    forall i | 0 <= i < |t| ensures 0 <= t[i] < n - 1 { assert t[i] in t && t[i] in s; }
  }

  /** Distinct numbers below n are at most n. */
  lemma {:induction false} Pigeonhole(s: seq<int>, n: nat)
    requires NoDuplicates(s) && forall i :: 0 <= i < |s| ==> 0 <= s[i] < n
    ensures |s| <= n
    decreases n
  {
    hide Remove, NoDuplicates;
    if |s| > 0 {
      assert 0 <= s[0] < n;
      RemoveTop(s, n);
      Pigeonhole(Remove(s, n - 1), n - 1);
    }
  }
}
