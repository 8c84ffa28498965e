/**
 * The keyword extraction and ranking shared by the three search functions of
 * the tool servers: the query is lower-cased, split on single spaces and
 * reduced to its words longer than three characters; candidates are scored,
 * those with a positive score are sorted by descending score with the stable
 * `Array.prototype.sort`, and the first `k` are returned.
 */
module Search {
  import opened Text

  /** `words.filter(word => word.length > 3)`. */
  function LongWords(words: seq<string>): (r: seq<string>)
    ensures |r| <= |words|
    ensures forall w :: w in r <==> w in words && |w| > 3
  {
    if |words| == 0 then []
    else (if |words[0]| > 3 then [words[0]] else []) + LongWords(words[1..])
  }

  /** `query.toLowerCase().split(' ').filter(word => word.length > 3)`. */
  function Keywords(query: string): seq<string> {
    LongWords(SplitOn(Lower(query), " "))
  }

  predicate AllNonEmpty(kws: seq<string>) {
    forall j :: 0 <= j < |kws| ==> |kws[j]| > 0
  }

  /** Keywords are longer than three characters, so none is empty. */
  lemma KeywordsNonEmpty(query: string)
    ensures AllNonEmpty(Keywords(query))
  {
    forall j | 0 <= j < |Keywords(query)|
      ensures |Keywords(query)[j]| > 0
    {
      assert Keywords(query)[j] in Keywords(query);
    }
  }

  /** Every keyword is a space-free word of the lower-cased query, longer than three characters. */
  lemma KeywordsSpec(query: string)
    ensures forall w :: w in Keywords(query) ==> |w| > 3 && !Contains(w, " ")
    ensures forall w :: w in Keywords(query) ==> Contains(Lower(query), w)
  {
    var q := Lower(query);
    SplitPiecesFree(q, " ");
    forall w | w in Keywords(query) ensures Contains(q, w) {
      PieceOfSplitOccurs(q, " ", w);
    }
  }

  /** Every piece of a split occurs in the text. */
  lemma {:induction false} PieceOfSplitOccurs(s: string, sep: string, p: string)
    requires |sep| > 0 && p in SplitOn(s, sep)
    ensures Contains(s, p)
    decreases |s|
  {
    var k := IndexOfFrom(s, sep, 0);
    if k.None? || p == s[..k.value] {
      assert StartsWith(s, p);
    } else {
      var m := k.value + |sep|;
      PieceOfSplitOccurs(s[m..], sep, p);
      ContainsInSuffix(s, m, p);
    }
  }

  lemma {:induction false} ContainsInSuffix(s: string, m: nat, p: string)
    requires m <= |s| && Contains(s[m..], p)
    ensures Contains(s, p)
    decreases m
  {
    if m > 0 {
      assert s[1..][m - 1..] == s[m..];
      ContainsInSuffix(s[1..], m - 1, p);
    }
  }

  /** A candidate paired with its score. */
  datatype Scored<T> = Scored(item: T, score: int)

  predicate SortedDesc<T>(xs: seq<Scored<T>>) {
    forall i, j :: 0 <= i < j < |xs| ==> xs[i].score >= xs[j].score
  }

  /** Places `x` before the first element whose score is not larger, so earlier equal elements stay first. */
  function Insert<T>(x: Scored<T>, xs: seq<Scored<T>>): seq<Scored<T>>
  {
    if |xs| == 0 || xs[0].score <= x.score then [x] + xs
    else [xs[0]] + Insert(x, xs[1..])
  }

  /** `xs.sort((a, b) => b.score - a.score)`, as a stable insertion sort. */
  function SortDesc<T>(xs: seq<Scored<T>>): seq<Scored<T>>
  {
    if |xs| == 0 then [] else Insert(xs[0], SortDesc(xs[1..]))
  }

  lemma {:induction false} InsertSpec<T>(x: Scored<T>, xs: seq<Scored<T>>)
    requires SortedDesc(xs)
    ensures SortedDesc(Insert(x, xs))
    ensures multiset(Insert(x, xs)) == multiset(xs) + multiset{x}
  {
    if |xs| > 0 && xs[0].score > x.score {
      var tail := xs[1..];
      InsertSpec(x, tail);
      var r := Insert(x, tail);
      forall e | e in r ensures e.score <= xs[0].score {
        assert e in multiset(r);
        if e != x { assert e in tail; }
      }
      SortedCons(xs[0], r);
      assert xs == [xs[0]] + tail;
    } else {
      forall e | e in xs ensures e.score <= x.score {
        var i :| 0 <= i < |xs| && xs[i] == e;
      }
      SortedCons(x, xs);
    }
  }

  lemma SortedCons<T>(h: Scored<T>, r: seq<Scored<T>>)
    requires SortedDesc(r) && forall e :: e in r ==> e.score <= h.score
    ensures SortedDesc([h] + r)
  {
    var s := [h] + r;
    forall i, j | 0 <= i < j < |s| ensures s[i].score >= s[j].score {
      assert s[j] == r[j - 1];
      if i > 0 { assert s[i] == r[i - 1]; }
    }
  }

  /** Sorting yields the same candidates in non-increasing score order. */
  lemma {:induction false} SortDescSpec<T>(xs: seq<Scored<T>>)
    ensures SortedDesc(SortDesc(xs))
    ensures multiset(SortDesc(xs)) == multiset(xs)
  {
    if |xs| > 0 {
      SortDescSpec(xs[1..]);
      InsertSpec(xs[0], SortDesc(xs[1..]));
      assert xs == [xs[0]] + xs[1..];
    }
  }

  /** `xs.filter(x => x.score > 0)`. */
  function Positive<T>(xs: seq<Scored<T>>): (r: seq<Scored<T>>)
    ensures forall e :: e in r ==> e.score > 0
  {
    if |xs| == 0 then []
    else (if xs[0].score > 0 then [xs[0]] else []) + Positive(xs[1..])
  }

  lemma {:induction false} PositiveMultiset<T>(xs: seq<Scored<T>>)
    ensures multiset(Positive(xs)) <= multiset(xs)
    ensures forall e :: e in xs && e.score > 0 ==> e in Positive(xs)
  {
    if |xs| > 0 {
      var tail := xs[1..];
      PositiveMultiset(tail);
      var h := if xs[0].score > 0 then [xs[0]] else [];
      assert Positive(xs) == h + Positive(tail);
      assert xs == [xs[0]] + tail;
      forall e | e in xs && e.score > 0 ensures e in Positive(xs) {
        if e != xs[0] { assert e in tail; }
      }
    }
  }

  /** `.filter(x => x.score > 0).sort((a, b) => b.score - a.score).slice(0, k)`. */
  function TopK<T>(xs: seq<Scored<T>>, k: nat): seq<Scored<T>>
  {
    var s := SortDesc(Positive(xs));
    if |s| <= k then s else s[..k]
  }

  /** The ranking keeps at most `k` candidates, all drawn from the input with a positive score, in non-increasing score order. */
  lemma TopKSpec<T>(xs: seq<Scored<T>>, k: nat)
    ensures |TopK(xs, k)| <= k
    ensures SortedDesc(TopK(xs, k))
    ensures multiset(TopK(xs, k)) <= multiset(xs)
    ensures forall e :: e in TopK(xs, k) ==> e.score > 0
  {
    var s := SortDesc(Positive(xs));
    var r := TopK(xs, k);
    SortDescSpec(Positive(xs));
    PositiveMultiset(xs);
    assert s == r + s[|r|..];
    assert multiset(s) == multiset(r) + multiset(s[|r|..]);
    forall e | e in r ensures e.score > 0 {
      assert e in multiset(s);
    }
  }

  /** Every kept entry is one of the scored entries, with a positive score. */
  lemma TopKMember<T>(xs: seq<Scored<T>>, k: nat, e: Scored<T>)
    requires e in TopK(xs, k)
    ensures e in xs && e.score > 0
  {
    TopKSpec(xs, k);
    assert e in multiset(TopK(xs, k));
  }

  /** A candidate with a positive score is left out only when `k` others were kept, each scoring at least as high. */
  lemma TopKDominates<T>(xs: seq<Scored<T>>, k: nat, e: Scored<T>)
    requires e in xs && e.score > 0 && e !in TopK(xs, k)
    ensures |TopK(xs, k)| == k
    ensures forall f :: f in TopK(xs, k) ==> f.score >= e.score
  {
    var s := SortDesc(Positive(xs));
    var r := TopK(xs, k);
    SortDescSpec(Positive(xs));
    PositiveMultiset(xs);
    assert e in multiset(s);
    var i :| 0 <= i < |s| && s[i] == e;
    assert forall t :: 0 <= t < |r| ==> r[t] == s[t] && r[t] != e;
    assert |r| <= i;
    forall f | f in r ensures f.score >= e.score {
      var j :| 0 <= j < |r| && r[j] == f;
      assert s[j] == f;
    }
  }

  /** With no candidate scoring above zero, the ranking is empty. */
  lemma TopKNoneScored<T>(xs: seq<Scored<T>>, k: nat)
    requires forall e :: e in xs ==> e.score <= 0
    ensures TopK(xs, k) == []
  {
    NoPositive(xs);
  }

  lemma {:induction false} NoPositive<T>(xs: seq<Scored<T>>)
    requires forall e :: e in xs ==> e.score <= 0
    ensures Positive(xs) == []
  {
    if |xs| > 0 {
      assert xs[0] in xs;
      NoPositive(xs[1..]);
    }
  }
}
