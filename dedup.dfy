/** The dedup of the optimised action list in create_flow_from_prompt:
    `list({v['id']: v for v in configs}.values())` keeps each id once, at the
    position where it was first inserted into the dict. */
module Dedup {
  import opened Values

  /** The key order of a dict after inserting the keys `s` in order:
      re-inserting a present key leaves its position alone. */
  function Dedup<T(==)>(s: seq<T>): (r: seq<T>)
    ensures |r| <= |s|
    decreases |s|
  {
    if s == [] then []
    else
      var p := Dedup(s[..|s| - 1]);
      if s[|s| - 1] in p then p else p + [s[|s| - 1]]
  }

  /** The position of the first occurrence of `x` in `s`. */
  function FirstIndex<T(==)>(s: seq<T>, x: T): (i: nat)
    requires x in s
    ensures i < |s| && s[i] == x && x !in s[..i]
  {
    if s[0] == x then 0
    else
      var i := FirstIndex(s[1..], x);
      assert s[..i + 1] == [s[0]] + s[1..][..i];
      i + 1
  }

  lemma FirstIndexUnique<T>(s: seq<T>, x: T, i: nat)
    requires i < |s| && s[i] == x && x !in s[..i]
    ensures FirstIndex(s, x) == i
  {
  }

  /** The deduplicated list holds the same ids as the input. */
  lemma {:induction false} DedupSameElements<T>(s: seq<T>, x: T)
    ensures x in Dedup(s) <==> x in s
    decreases |s|
  {
    if s != [] {
      var n := |s| - 1;
      DedupSameElements(s[..n], x);
      assert s == s[..n] + [s[n]];
    }
  }

  /** Each id is kept once. */
  lemma {:induction false} DedupNoDuplicates<T>(s: seq<T>)
    ensures NoDuplicates(Dedup(s))
    decreases |s|
  {
    if s != [] {
      DedupNoDuplicates(s[..|s| - 1]);
    }
  }

  /** The kept ids appear in the order of their first occurrence in the input. */
  lemma {:induction false} DedupFirstOccurrenceOrder<T>(s: seq<T>)
    ensures forall x :: x in Dedup(s) ==> x in s
    ensures forall j, k :: 0 <= j < k < |Dedup(s)| ==>
      FirstIndex(s, Dedup(s)[j]) < FirstIndex(s, Dedup(s)[k])
    decreases |s|
  {
    if s != [] {
      var n := |s| - 1;
      var t, x := s[..n], s[n];
      assert s == t + [x];
      var p := Dedup(t);
      DedupFirstOccurrenceOrder(t);
      forall y | y in t
        ensures FirstIndex(s, y) == FirstIndex(t, y)
      {
        var i := FirstIndex(t, y);
        assert s[..i] == t[..i];
        FirstIndexUnique(s, y, i);
      }
      if x !in p {
        DedupSameElements(t, x);
        assert s[..n] == t;
        FirstIndexUnique(s, x, n);
      }
    }
  }

  /** A list without repeated ids is left as it is. */
  lemma {:induction false} DedupOfDistinct<T>(s: seq<T>)
    requires NoDuplicates(s)
    ensures Dedup(s) == s
    decreases |s|
  {
    if s != [] {
      var n := |s| - 1;
      DedupOfDistinct(s[..n]);
      assert s[n] !in s[..n];
    }
  }

  /** Deduplicating twice is deduplicating once. */
  lemma DedupIdempotent<T>(s: seq<T>)
    ensures Dedup(Dedup(s)) == Dedup(s)
  {
    DedupNoDuplicates(s);
    DedupOfDistinct(Dedup(s));
  }
}
