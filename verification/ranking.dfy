/** The similarity ranker: order the candidates by their similarity to the query,
    keep the first `top_k`, and annotate each kept record with its score.
    The embedding model and cosine similarity are an abstract score function
    `sim(query, name)`. */
module Ranking {
  import opened Wrappers
  import opened Items

  predicate InRange(xs: seq<nat>, n: nat) {
    forall i :: 0 <= i < |xs| ==> xs[i] < n
  }

  predicate Distinct<T(==)>(xs: seq<T>) {
    forall i, j :: 0 <= i < j < |xs| ==> xs[i] != xs[j]
  }

  /** The indices `xs` are ordered by non-increasing score. */
  predicate Descending(xs: seq<nat>, sc: seq<real>)
    requires InRange(xs, |sc|)
  {
    forall i, j :: 0 <= i < j < |xs| ==> sc[xs[i]] >= sc[xs[j]]
  }

  /** Inserts index `x` into `ys` in front of the first index with a lower score. */
  function Insert(x: nat, ys: seq<nat>, sc: seq<real>): (r: seq<nat>)
    requires x < |sc| && InRange(ys, |sc|)
    ensures |r| == |ys| + 1
    ensures InRange(r, |sc|)
    ensures forall z :: z in r <==> z == x || z in ys
    ensures multiset(r) == multiset(ys) + multiset{x}
  {
    if ys == [] || sc[x] >= sc[ys[0]] then [x] + ys
    else
      assert ys == [ys[0]] + ys[1..];
      [ys[0]] + Insert(x, ys[1..], sc)
  }

  lemma {:induction false} InsertDescending(x: nat, ys: seq<nat>, sc: seq<real>)
    requires x < |sc| && InRange(ys, |sc|)
    requires Descending(ys, sc)
    ensures Descending(Insert(x, ys, sc), sc)
    decreases |ys|
  {
    if ys == [] || sc[x] >= sc[ys[0]] {
    } else {
      var tail := ys[1..];
      InsertDescending(x, tail, sc);
      var r := Insert(x, ys, sc);
      assert r == [ys[0]] + Insert(x, tail, sc);
      forall i, j | 0 <= i < j < |r|
        ensures sc[r[i]] >= sc[r[j]]
      {
        if i == 0 {
          var z := r[j];
          assert z in Insert(x, tail, sc);
          if z != x {
            assert z in tail;
            var k :| 0 <= k < |tail| && tail[k] == z;
            assert ys[k + 1] == z;
          }
        }
      }
    }
  }

  lemma {:induction false} InsertDistinct(x: nat, ys: seq<nat>, sc: seq<real>)
    requires x < |sc| && InRange(ys, |sc|)
    requires Distinct(ys) && x !in ys
    ensures Distinct(Insert(x, ys, sc))
    decreases |ys|
  {
    if ys == [] || sc[x] >= sc[ys[0]] {
    } else {
      var tail := ys[1..];
      assert x !in tail;
      InsertDistinct(x, tail, sc);
      var r := Insert(x, ys, sc);
      forall k | 0 <= k < |tail|
        ensures tail[k] != ys[0]
      {
        assert tail[k] == ys[k + 1];
      }
      assert ys[0] !in Insert(x, tail, sc);
      forall i, j | 0 <= i < j < |r|
        ensures r[i] != r[j]
      {
        if i == 0 {
          assert r[j] in Insert(x, tail, sc);
        }
      }
    }
  }

  /** Insertion sort of indices by non-increasing score. */
  function SortDescending(xs: seq<nat>, sc: seq<real>): (r: seq<nat>)
    requires InRange(xs, |sc|)
    ensures |r| == |xs|
    ensures InRange(r, |sc|)
    ensures forall z :: z in r <==> z in xs
    ensures multiset(r) == multiset(xs)
    ensures Descending(r, sc)
    ensures Distinct(xs) ==> Distinct(r)
  {
    if xs == [] then []
    else
      var rest := SortDescending(xs[1..], sc);
      assert xs == [xs[0]] + xs[1..];
      InsertDescending(xs[0], rest, sc);
      if Distinct(xs) then
        assert forall k :: 0 <= k < |xs[1..]| ==> xs[1..][k] == xs[k + 1] != xs[0];
        InsertDistinct(xs[0], rest, sc);
        Insert(xs[0], rest, sc)
      else
        Insert(xs[0], rest, sc)
  }

  /** The indices `0, 1, …, n-1`. */
  function Range(n: nat): (r: seq<nat>)
    ensures |r| == n && InRange(r, n) && Distinct(r)
    ensures forall i :: 0 <= i < n ==> i in r
  {
    var r := seq(n, i => i);
    forall i | 0 <= i < n
      ensures i in r
    {
      assert r[i] == i;
    }
    r
  }

  /** The length of `xs[:k]` for a list of length `n` (Python slice semantics:
      a negative `k` counts back from the end). */
  function PrefixLength(k: int, n: nat): (m: nat)
    ensures m <= n
    ensures 0 <= k ==> m == (if k < n then k else n)
    ensures k < 0 ==> m == (if n + k < 0 then 0 else n + k)
  {
    if 0 <= k then (if k < n then k else n)
    else if n + k < 0 then 0 else n + k
  }

  lemma PrefixOfDescending(all: seq<nat>, sc: seq<real>, m: nat, i: nat)
    requires InRange(all, |sc|) && Descending(all, sc)
    requires m <= |all| && i in all && i !in all[..m]
    ensures forall j :: 0 <= j < m ==> sc[i] <= sc[all[j]]
  {
    var p :| 0 <= p < |all| && all[p] == i;
    assert forall q :: 0 <= q < m ==> all[..m][q] == all[q];
    assert p >= m;
  }

  /** `similarities.argsort(descending=True)[:top_k]`: the positions of the
      selected candidates, best first. */
  function RankIndices(sc: seq<real>, k: int): (idx: seq<nat>)
    ensures |idx| == PrefixLength(k, |sc|)
    ensures InRange(idx, |sc|) && Distinct(idx) && Descending(idx, sc)
    ensures forall i :: 0 <= i < |sc| && i !in idx ==>
      forall j :: 0 <= j < |idx| ==> sc[i] <= sc[idx[j]]
  {
    var all := SortDescending(Range(|sc|), sc);
    var m := PrefixLength(k, |sc|);
    var idx := all[..m];
    assert forall i :: 0 <= i < |sc| && i !in idx ==>
      forall j :: 0 <= j < |idx| ==> sc[i] <= sc[idx[j]] by {
      forall i | 0 <= i < |sc| && i !in idx
        ensures forall j :: 0 <= j < |idx| ==> sc[i] <= sc[idx[j]]
      {
        PrefixOfDescending(all, sc, m, i);
      }
    }
    idx
  }

  /** The score of every candidate, in input order. */
  function Scores(query: string, files: seq<Item>, sim: (string, string) -> real): (sc: seq<real>)
    ensures |sc| == |files|
    ensures forall i :: 0 <= i < |files| ==> sc[i] == sim(query, files[i].name)
  {
    seq(|files|, i requires 0 <= i < |files| => sim(query, files[i].name))
  }

  /** `file['similarity_score'] = score`. */
  function Annotate(f: Item, score: real): (r: Item)
    ensures r.similarity == Some(score)
    ensures r.(similarity := f.similarity) == f
  {
    f.(similarity := Some(score))
  }

  /** The records at positions `idx`, each annotated with its score. */
  function AnnotateAt(files: seq<Item>, sc: seq<real>, idx: seq<nat>): (r: seq<Item>)
    requires |sc| == |files| && InRange(idx, |files|)
    ensures |r| == |idx|
    ensures forall j :: 0 <= j < |r| ==> r[j] == Annotate(files[idx[j]], sc[idx[j]])
  {
    seq(|idx|, j requires 0 <= j < |idx| => Annotate(files[idx[j]], sc[idx[j]]))
  }

  /** The positions `rank_files_by_similarity` selects. */
  function Selected(query: string, files: seq<Item>, topK: int, sim: (string, string) -> real): (idx: seq<nat>)
    ensures |idx| == PrefixLength(topK, |files|)
    ensures InRange(idx, |files|) && Distinct(idx)
  {
    RankIndices(Scores(query, files, sim), topK)
  }

  /** `rank_files_by_similarity(query, files, top_k)`. */
  function Rank(query: string, files: seq<Item>, topK: int, sim: (string, string) -> real): (r: seq<Item>)
    ensures files == [] ==> r == []
    ensures |r| == PrefixLength(topK, |files|)
    // every returned record is a distinct input record, annotated with its own score
    ensures forall j :: 0 <= j < |r| ==>
      var i := Selected(query, files, topK, sim)[j];
      r[j] == Annotate(files[i], sim(query, files[i].name))
    // scores do not increase along the result
    ensures forall i, j :: 0 <= i < j < |r| ==>
      r[i].similarity.Some? && r[j].similarity.Some? && r[i].similarity.value >= r[j].similarity.value
    // a candidate left out scores no higher than anything returned
    ensures forall i, j :: 0 <= i < |files| && i !in Selected(query, files, topK, sim) && 0 <= j < |r| ==>
      r[j].similarity.Some? && sim(query, files[i].name) <= r[j].similarity.value
  {
    if files == [] then []
    else
      var sc := Scores(query, files, sim);
      var idx := RankIndices(sc, topK);
      assert idx == Selected(query, files, topK, sim);
      var r := AnnotateAt(files, sc, idx);
      assert forall j :: 0 <= j < |r| ==> sc[idx[j]] == sim(query, files[idx[j]].name);
      assert forall j :: 0 <= j < |r| ==> r[j].similarity == Some(sc[idx[j]]);
      r
  }
}
