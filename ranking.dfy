/**
 * `results.sort(key=lambda x: x['score'], reverse=True)` (app.py:207):
 * Python's sort is stable, so the ranking orders records by descending
 * score and keeps records of equal score in scan order.
 */
module Ranking {
  import opened Analyzer

  /** Scores never increase along the sequence. */
  ghost predicate NonIncreasing(s: seq<Record>) {
    forall i, j | 0 <= i < j < |s| :: s[i].score >= s[j].score
  }

  /** Concatenation is associative; stated once so that proofs can cite it. */
  lemma AppendAssoc(a: seq<Record>, b: seq<Record>, c: seq<Record>)
    ensures a + (b + c) == (a + b) + c
  {
  }

  /** A non-empty sequence is its head followed by its tail. */
  lemma HeadTail(s: seq<Record>)
    requires s != []
    ensures s == [s[0]] + s[1..]
    ensures multiset(s) == multiset(s[1..]) + multiset{s[0]}
  {
    assert s == [s[0]] + s[1..];
  }

  /** The record `x`, if it has score `k`. */
  function Single(x: Record, k: int): (r: seq<Record>)
    ensures r == [x] <==> x.score == k
    ensures r == [] <==> x.score != k
  {
    if x.score == k then [x] else []
  }

  /** The records of `s` with score `k`, in their order in `s`. */
  function WithScore(s: seq<Record>, k: int): (r: seq<Record>)
    ensures |r| <= |s|
  {
    if s == [] then [] else Single(s[0], k) + WithScore(s[1..], k)
  }

  /** Exactly the records of `s` with score `k` are selected. */
  lemma {:induction false} WithScoreMembers(s: seq<Record>, k: int)
    ensures forall x :: x in WithScore(s, k) <==> x in s && x.score == k
  {
    if s != [] {
      WithScoreMembers(s[1..], k);
      HeadTail(s);
    }
  }

  /**
   * What a stable descending sort promises: `t` is ordered by descending
   * score, and for every score the records with that score appear in `t`
   * exactly as they appear in `s`.
   */
  ghost predicate StableRankingOf(t: seq<Record>, s: seq<Record>) {
    NonIncreasing(t) && forall k :: WithScore(t, k) == WithScore(s, k)
  }

  /** Put `x` after every record that outscores it and before the rest. */
  function Insert(x: Record, s: seq<Record>): (r: seq<Record>)
    ensures multiset(r) == multiset(s) + multiset{x}
  {
    if s == [] || s[0].score <= x.score then
      var r := [x] + s;
      HeadTail(r);
      assert r[1..] == s;
      r
    else
      var r := [s[0]] + Insert(x, s[1..]);
      HeadTail(s);
      HeadTail(r);
      assert r[1..] == Insert(x, s[1..]);
      r
  }

  /** A record that scores at least as much as a descending sequence can go in front of it. */
  lemma PrependKeepsOrder(h: Record, s: seq<Record>)
    requires NonIncreasing(s)
    requires forall y | y in s :: y.score <= h.score
    ensures NonIncreasing([h] + s)
  {
    var r := [h] + s;
    forall i, j | 0 <= i < j < |r| ensures r[i].score >= r[j].score {
      assert r[j] == s[j - 1];
      if i > 0 {
        assert r[i] == s[i - 1];
      }
    }
  }

  /** The tail of a descending sequence is descending. */
  lemma TailOrdered(s: seq<Record>)
    requires NonIncreasing(s) && s != []
    ensures NonIncreasing(s[1..])
  {
    var t := s[1..];
    forall i, j | 0 <= i < j < |t| ensures t[i].score >= t[j].score {
      assert t[i] == s[i + 1] && t[j] == s[j + 1];
    }
  }

  /** Inserting into a descending sequence keeps it descending. */
  lemma {:induction false} InsertKeepsOrder(x: Record, s: seq<Record>)
    requires NonIncreasing(s)
    ensures NonIncreasing(Insert(x, s))
  {
    if s == [] || s[0].score <= x.score {
      forall y | y in s ensures y.score <= x.score {
        var k :| 0 <= k < |s| && s[k] == y;
        assert s[0].score >= s[k].score;
      }
      PrependKeepsOrder(x, s);
    } else {
      var t := s[1..];
      TailOrdered(s);
      InsertKeepsOrder(x, t);
      var it := Insert(x, t);
      forall y | y in it ensures y.score <= s[0].score {
        assert y in multiset(it);
        if y != x {
          assert y in multiset(t);
          var k :| 0 <= k < |t| && t[k] == y;
          assert s[k + 1] == y;
        }
      }
      PrependKeepsOrder(s[0], it);
    }
  }

  /** Insertion sort from the back: every earlier record goes in front of its equals. */
  function RankByScore(s: seq<Record>): (r: seq<Record>)
    ensures NonIncreasing(r)
    ensures multiset(r) == multiset(s)
  {
    if s == [] then []
    else
      var rest := RankByScore(s[1..]);
      InsertKeepsOrder(s[0], rest);
      HeadTail(s);
      Insert(s[0], rest)
  }

  /** Selecting by score distributes over concatenation. */
  lemma {:induction false} WithScoreAppend(a: seq<Record>, b: seq<Record>, k: int)
    ensures WithScore(a + b, k) == WithScore(a, k) + WithScore(b, k)
  {
    if a == [] {
      assert a + b == b;
    } else {
      var c := a + b;
      assert c[0] == a[0] && c[1..] == a[1..] + b;
      WithScoreAppend(a[1..], b, k);
      AppendAssoc(Single(a[0], k), WithScore(a[1..], k), WithScore(b, k));
    }
  }

  /** Selecting from a sequence with a known first record. */
  lemma WithScoreCons(h: Record, u: seq<Record>, k: int)
    ensures WithScore([h] + u, k) == Single(h, k) + WithScore(u, k)
  {
    var c := [h] + u;
    assert c[0] == h && c[1..] == u;
  }

  /** Two records of different scores never both pass the same selection. */
  lemma SingleSwap(y: Record, x: Record, w: seq<Record>, k: int)
    requires y.score != x.score
    ensures Single(y, k) + (Single(x, k) + w) == Single(x, k) + (Single(y, k) + w)
  {
    if y.score == k {
      assert Single(x, k) == [];
      assert Single(x, k) + w == w;
    } else {
      assert Single(y, k) == [];
      assert Single(y, k) + w == w;
    }
  }

  /** Inserting `x` puts it in front of the records of its own score. */
  lemma {:induction false} WithScoreInsert(x: Record, s: seq<Record>, k: int)
    ensures WithScore(Insert(x, s), k) == Single(x, k) + WithScore(s, k)
  {
    if s == [] || s[0].score <= x.score {
      WithScoreCons(x, s, k);
    } else {
      var t := s[1..];
      WithScoreCons(s[0], Insert(x, t), k);
      WithScoreInsert(x, t, k);
      HeadTail(s);
      WithScoreCons(s[0], t, k);
      SingleSwap(s[0], x, WithScore(t, k), k);
    }
  }

  /** The ranking keeps the scan order among records of equal score. */
  lemma {:induction false} RankingIsStable(s: seq<Record>, k: int)
    ensures WithScore(RankByScore(s), k) == WithScore(s, k)
  {
    if s != [] {
      RankingIsStable(s[1..], k);
      WithScoreInsert(s[0], RankByScore(s[1..]), k);
    }
  }

  /** The ranking is a stable descending sort of its input. */
  lemma RankByScoreIsStableRanking(s: seq<Record>)
    ensures StableRankingOf(RankByScore(s), s)
  {
    forall k ensures WithScore(RankByScore(s), k) == WithScore(s, k) {
      RankingIsStable(s, k);
    }
  }

  /** The first record of a non-empty descending sequence has the top score. */
  lemma HeadHasTopScore(s: seq<Record>, x: Record)
    requires NonIncreasing(s) && x in s
    ensures s[0].score >= x.score
  {
  }

  /** A non-empty sequence has a record of its own first score. */
  lemma HeadInOwnClass(s: seq<Record>)
    requires s != []
    ensures WithScore(s, s[0].score) != []
    ensures WithScore(s, s[0].score)[0] == s[0]
  {
  }

  /** Two descending sequences with the same records of every score start alike. */
  lemma SameClassesSameHead(a: seq<Record>, b: seq<Record>)
    requires NonIncreasing(a) && NonIncreasing(b) && a != [] && b != []
    requires forall k :: WithScore(a, k) == WithScore(b, k)
    ensures a[0] == b[0]
  {
    HeadInOwnClass(a);
    HeadInOwnClass(b);
    WithScoreMembers(a, a[0].score);
    WithScoreMembers(b, a[0].score);
    assert a[0] in WithScore(b, a[0].score);
    HeadHasTopScore(b, a[0]);
    WithScoreMembers(a, b[0].score);
    WithScoreMembers(b, b[0].score);
    assert b[0] in WithScore(a, b[0].score);
    HeadHasTopScore(a, b[0]);
  }

  /** Removing an equal first record keeps the records of every score equal. */
  lemma SameClassesSameTail(a: seq<Record>, b: seq<Record>)
    requires a != [] && b != [] && a[0] == b[0]
    requires forall k :: WithScore(a, k) == WithScore(b, k)
    ensures forall k :: WithScore(a[1..], k) == WithScore(b[1..], k)
  {
    forall k ensures WithScore(a[1..], k) == WithScore(b[1..], k) {
      var h := Single(a[0], k);
      assert WithScore(a, k) == h + WithScore(a[1..], k);
      assert WithScore(b, k) == h + WithScore(b[1..], k);
      assert WithScore(a[1..], k) == WithScore(a, k)[|h|..];
    }
  }

  /** Two descending sequences that agree on the records of every score are equal. */
  lemma {:induction false} SameClassesSameSequence(a: seq<Record>, b: seq<Record>)
    requires NonIncreasing(a) && NonIncreasing(b)
    requires forall k :: WithScore(a, k) == WithScore(b, k)
    ensures a == b
  {
    if a == [] || b == [] {
      if a != [] {
        HeadInOwnClass(a);
      } else if b != [] {
        HeadInOwnClass(b);
      }
    } else {
      SameClassesSameHead(a, b);
      SameClassesSameTail(a, b);
      TailOrdered(a);
      TailOrdered(b);
      SameClassesSameSequence(a[1..], b[1..]);
      HeadTail(a);
      HeadTail(b);
    }
  }

  /** Any stable descending sort of `s` is exactly `RankByScore(s)`. */
  lemma StableRankingUnique(t: seq<Record>, s: seq<Record>)
    requires StableRankingOf(t, s)
    ensures t == RankByScore(s)
  {
    RankByScoreIsStableRanking(s);
    SameClassesSameSequence(t, RankByScore(s));
  }

  /**
   * Inserting `x` into `p + q` lands it between the two when every record of
   * `p` outscores it and the first record of `q` (if any) does not.
   */
  lemma {:induction false} InsertBetween(x: Record, p: seq<Record>, q: seq<Record>)
    requires forall k | 0 <= k < |p| :: p[k].score > x.score
    requires q != [] ==> q[0].score <= x.score
    ensures Insert(x, p + q) == p + [x] + q
  {
    if p == [] {
      assert p + q == q;
      assert p + [x] + q == [x] + q;
    } else {
      var p' := p[1..];
      assert forall k | 0 <= k < |p'| :: p'[k] == p[k + 1];
      var c := p + q;
      assert c[0] == p[0] && c[1..] == p' + q;
      InsertBetween(x, p', q);
      HeadTail(p);
      calc {
        Insert(x, c);
        [p[0]] + (p' + [x] + q);
        { AppendAssoc([p[0]], p' + [x], q); }
        ([p[0]] + (p' + [x])) + q;
        { AppendAssoc([p[0]], p', [x]); }
        p + [x] + q;
      }
    }
  }

  /**
   * Shift left by one place the records after `a[i]` that outscore it,
   * stopping at the first that does not; `j` is the slot left free.
   */
  method ShiftOutscoring(a: array<Record>, i: nat) returns (j: nat)
    requires i < a.Length
    modifies a
    ensures i <= j < a.Length
    ensures forall k | 0 <= k < i :: a[k] == old(a[k])
    ensures forall k | i <= k < j :: a[k] == old(a[k + 1])
    ensures forall k | j < k < a.Length :: a[k] == old(a[k])
    ensures forall k | i < k <= j :: old(a[k]).score > old(a[i]).score
    ensures j + 1 < a.Length ==> old(a[j + 1]).score <= old(a[i]).score
  {
    var x := a[i];
    j := i;
    while j + 1 < a.Length && a[j + 1].score > x.score
      invariant i <= j < a.Length
      invariant forall k | 0 <= k < i :: a[k] == old(a[k])
      invariant forall k | i <= k < j :: a[k] == old(a[k + 1])
      invariant forall k | j < k < a.Length :: a[k] == old(a[k])
      invariant forall k | i < k <= j :: old(a[k]).score > x.score
    {
      a[j] := a[j + 1];
      j := j + 1;
    }
  }

  /**
   * The contents after one step of the sort: `s[i]` moved right past the
   * records of `s[i + 1..]` that outscore it is `s[i]` inserted into `s[i + 1..]`.
   */
  lemma ShiftedIsInsert(s: seq<Record>, t: seq<Record>, i: nat, j: nat)
    requires i <= j < |s| == |t|
    requires forall k | 0 <= k < i :: t[k] == s[k]
    requires forall k | i <= k < j :: t[k] == s[k + 1]
    requires t[j] == s[i]
    requires forall k | j < k < |s| :: t[k] == s[k]
    requires forall k | i < k <= j :: s[k].score > s[i].score
    requires j + 1 < |s| ==> s[j + 1].score <= s[i].score
    ensures t == s[..i] + Insert(s[i], s[i + 1..])
  {
    var x, rest, m := s[i], s[i + 1..], j - i;
    var r := rest[..m] + [x] + rest[m..];
    assert r == Insert(x, rest) by {
      assert rest == rest[..m] + rest[m..];
      assert forall k | 0 <= k < m :: rest[..m][k] == s[i + 1 + k];
      InsertBetween(x, rest[..m], rest[m..]);
    }
    assert t == s[..i] + r by {
      forall k | 0 <= k < |t| ensures t[k] == (s[..i] + r)[k] {
        if k < i {
        } else if k < j {
          assert (s[..i] + r)[k] == r[k - i] == rest[..m][k - i];
        } else if k > j {
          assert (s[..i] + r)[k] == r[k - i] == rest[m..][k - i - m - 1];
        }
      }
    }
  }

  /**
   * One step of the sort: move `a[i]` right past the records of the ranked
   * suffix `a[i + 1..]` that outscore it.
   */
  method InsertIntoRanked(a: array<Record>, i: nat)
    requires i < a.Length
    modifies a
    ensures a[..] == old(a[..i]) + Insert(old(a[i]), old(a[i + 1..]))
  {
    ghost var s := a[..];
    var x := a[i];
    var j := ShiftOutscoring(a, i);
    a[j] := x;
    ShiftedIsInsert(s, a[..], i, j);
  }

  /**
   * `list.sort(key=score, reverse=True)` in place: insert each record, from
   * the back, into the already ranked suffix after it.
   */
  method SortByScore(a: array<Record>)
    modifies a
    ensures a[..] == RankByScore(old(a[..]))
  {
    ghost var s := a[..];
    var i := a.Length;
    assert s[i..] == [];
    while i > 0
      invariant 0 <= i <= a.Length
      invariant a[..] == s[..i] + RankByScore(s[i..])
    {
      i := i - 1;
      ghost var before := a[..];
      assert before[..i] == s[..i] && before[i] == s[i] && before[i + 1..] == RankByScore(s[i + 1..]);
      assert s[i..][0] == s[i] && s[i..][1..] == s[i + 1..];
      InsertIntoRanked(a, i);
    }
    assert s[..0] == [] && s[0..] == s;
  }

  /** Scores 5, -1, 3 in scan order are reported as 5, 3, -1. */
  lemma RankingExample(x: Record)
    ensures RankByScore([x.(score := 5), x.(score := -1), x.(score := 3)])
         == [x.(score := 5), x.(score := 3), x.(score := -1)]
  {
    var a, b, c := x.(score := 5), x.(score := -1), x.(score := 3);
    assert [a, b, c][1..] == [b, c];
    assert [b, c][1..] == [c];
    assert [c][1..] == [];
    assert RankByScore([c]) == [c];
    assert RankByScore([b, c]) == [c, b];
    assert Insert(a, [c, b]) == [a, c, b];
  }
}
