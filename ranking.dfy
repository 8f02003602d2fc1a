/**
 * list.sort(key=lambda x: x[1], reverse=True) on (key, similarity) pairs, as used by
 * KnowledgeRetrieval.search_knowledge. Python's sort is stable even with reverse=True:
 * pairs with equal similarity keep the order they had before sorting.
 */
module Ranking {
  import opened Dicts

  datatype Scored = Scored(key: string, similarity: real)

  predicate Descending(s: seq<Scored>)
  {
    forall i, j :: 0 <= i < j < |s| ==> s[i].similarity >= s[j].similarity
  }

  function Keys(s: seq<Scored>): (r: seq<string>)
    ensures |r| == |s| && forall i :: 0 <= i < |s| ==> r[i] == s[i].key
  {
    if s == [] then [] else [s[0].key] + Keys(s[1..])
  }

  /** The pairs whose similarity is exactly v, in their order. */
  function WithSimilarity(s: seq<Scored>, v: real): seq<Scored>
  {
    if s == [] then []
    else if s[0].similarity == v then [s[0]] + WithSimilarity(s[1..], v)
    else WithSimilarity(s[1..], v)
  }

  /** Places x in front of the first pair that is not more similar than x. */
  function Insert(x: Scored, s: seq<Scored>): seq<Scored>
  {
    if s == [] || x.similarity >= s[0].similarity then [x] + s
    else [s[0]] + Insert(x, s[1..])
  }

  /** The sorted list: most similar first, ties in their original order. */
  function SortDesc(s: seq<Scored>): seq<Scored>
  {
    if s == [] then [] else Insert(s[0], SortDesc(s[1..]))
  }

  lemma {:induction false} InsertPermutes(x: Scored, s: seq<Scored>)
    ensures multiset(Insert(x, s)) == multiset{x} + multiset(s)
    ensures |Insert(x, s)| == |s| + 1
    ensures Insert(x, s)[0] == x || Insert(x, s)[0] == s[0]
  {
    if s != [] && x.similarity < s[0].similarity {
      InsertPermutes(x, s[1..]);
      assert s == [s[0]] + s[1..];
    }
  }

  lemma {:induction false} InsertDescending(x: Scored, s: seq<Scored>)
    requires Descending(s)
    ensures Descending(Insert(x, s))
  {
    if s != [] && x.similarity < s[0].similarity {
      InsertDescending(x, s[1..]);
      InsertPermutes(x, s[1..]);
      var t := Insert(x, s[1..]);
      assert t[0].similarity <= s[0].similarity;
      forall j | 0 < j < |t| + 1
        ensures ([s[0]] + t)[0].similarity >= ([s[0]] + t)[j].similarity
      {
        assert t[0].similarity >= t[j - 1].similarity || j == 1;
      }
    }
  }

  /** The sort returns a permutation of its input. */
  lemma {:induction false} SortPermutes(s: seq<Scored>)
    ensures multiset(SortDesc(s)) == multiset(s)
    ensures |SortDesc(s)| == |s|
  {
    if s != [] {
      SortPermutes(s[1..]);
      InsertPermutes(s[0], SortDesc(s[1..]));
      assert s == [s[0]] + s[1..];
    }
  }

  /** The sort's output is ordered by non-increasing similarity. */
  lemma {:induction false} SortDescending(s: seq<Scored>)
    ensures Descending(SortDesc(s))
  {
    if s != [] {
      SortDescending(s[1..]);
      InsertDescending(s[0], SortDesc(s[1..]));
    }
  }

  lemma {:induction false} WithSimilarityAppend(a: seq<Scored>, b: seq<Scored>, v: real)
    ensures WithSimilarity(a + b, v) == WithSimilarity(a, v) + WithSimilarity(b, v)
  {
    if a == [] {
      assert a + b == b;
    } else {
      WithSimilarityAppend(a[1..], b, v);
      assert (a + b)[1..] == a[1..] + b;
    }
  }

  lemma {:induction false} InsertStable(x: Scored, s: seq<Scored>, v: real)
    ensures WithSimilarity(Insert(x, s), v) == WithSimilarity([x] + s, v)
  {
    if s != [] && x.similarity < s[0].similarity {
      var t := s[1..];
      InsertStable(x, t, v);
      assert Insert(x, s) == [s[0]] + Insert(x, t);
      assert s == [s[0]] + t;
      WithSimilarityAppend([s[0]], Insert(x, t), v);
      WithSimilarityAppend([x], t, v);
      WithSimilarityAppend([s[0]], t, v);
      WithSimilarityAppend([x], s, v);
      var wx := WithSimilarity([x], v);
      var ws := WithSimilarity([s[0]], v);
      var wt := WithSimilarity(t, v);
      // x and s[0] have different similarities, so at most one of them is kept
      if x.similarity == v {
        assert ws == [];
        assert ws + (wx + wt) == wx + (ws + wt);
      } else {
        assert wx == [];
        assert ws + (wx + wt) == wx + (ws + wt);
      }
    }
  }

  /** Stability: for every similarity value, the pairs having it appear in the same order after sorting. */
  lemma {:induction false} SortStable(s: seq<Scored>, v: real)
    ensures WithSimilarity(SortDesc(s), v) == WithSimilarity(s, v)
  {
    if s != [] {
      SortStable(s[1..], v);
      InsertStable(s[0], SortDesc(s[1..]), v);
      WithSimilarityAppend([s[0]], SortDesc(s[1..]), v);
      WithSimilarityAppend([s[0]], s[1..], v);
      assert s == [s[0]] + s[1..];
    }
  }

  lemma DistinctCons(a: string, s: seq<string>)
    requires Distinct(s) && a !in s
    ensures Distinct([a] + s)
  {
    forall i, j | 0 <= i < j < |s| + 1
      ensures ([a] + s)[i] != ([a] + s)[j]
    {
      if i == 0 {
        assert ([a] + s)[j] == s[j - 1];
      } else {
        assert ([a] + s)[i] == s[i - 1] && ([a] + s)[j] == s[j - 1];
      }
    }
  }

  lemma {:induction false} InsertKeys(x: Scored, s: seq<Scored>)
    requires Distinct(Keys(s)) && x.key !in Keys(s)
    ensures Distinct(Keys(Insert(x, s)))
    ensures forall k :: k in Keys(Insert(x, s)) <==> k == x.key || k in Keys(s)
  {
    if s != [] && x.similarity < s[0].similarity {
      var ks := Keys(s);
      assert ks == [s[0].key] + Keys(s[1..]);
      assert Distinct(Keys(s[1..])) by {
        forall i, j | 0 <= i < j < |s| - 1 ensures Keys(s[1..])[i] != Keys(s[1..])[j] {
          assert Keys(s[1..])[i] == ks[i + 1] && Keys(s[1..])[j] == ks[j + 1];
        }
      }
      assert s[0].key !in Keys(s[1..]) by {
        forall j | 0 <= j < |s| - 1 ensures Keys(s[1..])[j] != s[0].key {
          assert Keys(s[1..])[j] == ks[j + 1] && ks[0] == s[0].key;
        }
      }
      InsertKeys(x, s[1..]);
      var rest := Keys(Insert(x, s[1..]));
      assert Keys(Insert(x, s)) == [s[0].key] + rest;
      assert s[0].key != x.key;
      DistinctCons(s[0].key, rest);
    } else {
      assert Keys(Insert(x, s)) == [x.key] + Keys(s);
      DistinctCons(x.key, Keys(s));
    }
  }

  /** Distinct keys stay distinct, and the sorted list holds exactly the input's keys. */
  lemma {:induction false} SortKeys(s: seq<Scored>)
    requires Distinct(Keys(s))
    ensures Distinct(Keys(SortDesc(s)))
    ensures forall k :: k in Keys(SortDesc(s)) <==> k in Keys(s)
  {
    if s != [] {
      assert Keys(s) == [s[0].key] + Keys(s[1..]);
      SortKeys(s[1..]);
      InsertKeys(s[0], SortDesc(s[1..]));
    }
  }
}
