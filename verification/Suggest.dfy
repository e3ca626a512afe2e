/** Spelling suggestions (spoolctl/models.py): the two-pointer test against the edit distance it stands for. */
module Suggest {
  import opened Models

  // ----- the reference -----

  function Mismatch(x: char, y: char): nat {
    if x == y then 0 else 1
  }

  /** The Levenshtein distance: deletions, insertions and substitutions, each at cost one. */
  function Distance(a: string, b: string): nat
    decreases |a| + |b|
  {
    if a == [] then |b|
    else if b == [] then |a|
    else Min(Min(Distance(a[1..], b) + 1, Distance(a, b[1..]) + 1), Distance(a[1..], b[1..]) + Mismatch(a[0], b[0]))
  }

  lemma {:induction false} DistanceBounds(a: string, b: string)
    ensures Distance(a, b) >= |a| - |b| && Distance(a, b) >= |b| - |a|
    ensures Distance(a, b) == 0 <==> a == b
    decreases |a| + |b|
  {
    if a != [] && b != [] {
      DistanceBounds(a[1..], b);
      DistanceBounds(a, b[1..]);
      DistanceBounds(a[1..], b[1..]);
      assert a == [a[0]] + a[1..] && b == [b[0]] + b[1..];
    }
  }

  lemma {:induction false} DistanceSymmetric(a: string, b: string)
    ensures Distance(a, b) == Distance(b, a)
    decreases |a| + |b|
  {
    if a != [] && b != [] {
      DistanceSymmetric(a[1..], b);
      DistanceSymmetric(a, b[1..]);
      DistanceSymmetric(a[1..], b[1..]);
    }
  }

  /** Equal first characters can be taken off without leaving or entering distance one. */
  lemma SameHead(a: string, b: string)
    requires a != [] && b != [] && a[0] == b[0]
    ensures Distance(a, b) <= 1 <==> Distance(a[1..], b[1..]) <= 1
  {
    DistanceBounds(a[1..], b);
    DistanceBounds(a, b[1..]);
    if a[1..] == b {
      OneMore(a[1..]);
    }
    if b[1..] == a {
      OneMore(b[1..]);
    }
  }

  lemma OneMore(b: string)
    requires b != []
    ensures Distance(b, b[1..]) <= 1 && Distance(b[1..], b) <= 1
  {
    DistanceBounds(b[1..], b[1..]);
    DistanceSymmetric(b, b[1..]);
    if b[1..] != [] {
      assert Distance(b, b[1..]) <= Distance(b[1..], b[1..]) + 1;
    }
  }

  /** Different first characters use up the one edit: a substitution between equal lengths, an insertion otherwise. */
  lemma OtherHead(a: string, b: string)
    requires a != [] && b != [] && a[0] != b[0]
    ensures |a| == |b| ==> (Distance(a, b) <= 1 <==> a[1..] == b[1..])
    ensures |a| + 1 == |b| ==> (Distance(a, b) <= 1 <==> a == b[1..])
  {
    DistanceBounds(a[1..], b);
    DistanceBounds(a, b[1..]);
    DistanceBounds(a[1..], b[1..]);
  }

  // ----- the test -----

  /** How many positions differ. */
  function Differences(a: string, b: string): nat
    requires |a| == |b|
  {
    if a == [] then 0 else Mismatch(a[0], b[0]) + Differences(a[1..], b[1..])
  }

  lemma {:induction false} DifferencesDecide(a: string, b: string)
    requires |a| == |b|
    ensures Differences(a, b) == 0 <==> a == b
    ensures Differences(a, b) <= 1 <==> Distance(a, b) <= 1
  {
    if a != [] {
      DifferencesDecide(a[1..], b[1..]);
      assert a == [a[0]] + a[1..] && b == [b[0]] + b[1..];
      if a[0] == b[0] {
        SameHead(a, b);
      } else {
        OtherHead(a, b);
      }
    }
  }

  method CountDifferences(a: string, b: string) returns (n: nat)
    requires |a| == |b|
    ensures n == Differences(a, b)
  {
    n := 0;
    for i := 0 to |a|
      invariant n + Differences(a[i..], b[i..]) == Differences(a, b)
    {
      assert a[i..][1..] == a[i + 1..] && b[i..][1..] == b[i + 1..];
      n := n + Mismatch(a[i], b[i]);
    }
    assert a[|a|..] == [];
  }

  /** True exactly when the distance is at most one. */
  method LevenshteinLeq1(a: string, b: string) returns (close: bool)
    ensures close <==> Distance(a, b) <= 1
  {
    DistanceBounds(a, b);
    if a == b {
      return true;
    }
    if |a| - |b| > 1 || |b| - |a| > 1 {
      return false;
    }
    if |a| == |b| {
      var n := CountDifferences(a, b);
      DifferencesDecide(a, b);
      return n <= 1;
    }
    var x, y := a, b;
    if |a| > |b| {
      x, y := b, a;
      DistanceSymmetric(a, b);
    }
    close := OneInsertion(x, y);
  }

  /** The two-pointer walk over the shorter and the longer word. */
  method OneInsertion(x: string, y: string) returns (close: bool)
    requires |x| + 1 == |y|
    ensures close <==> Distance(x, y) <= 1
  {
    hide Distance;
    ghost var near := Distance(x, y) <= 1;
    var i, j, edits := 0, 0, 0;
    assert x[0..] == x && y[0..] == y;
    while i < |x| && j < |y|
      invariant 0 <= i <= |x| && j == i + edits && 0 <= edits <= 1
      invariant edits == 0 ==> (near <==> Distance(x[i..], y[j..]) <= 1)
      invariant edits == 1 ==> (near <==> x[i..] == y[j..])
    {
      ghost var u, v := x[i..], y[j..];
      assert u[1..] == x[i + 1..] && v[1..] == y[j + 1..];
      assert u == [x[i]] + u[1..] && v == [y[j]] + v[1..];
      if x[i] == y[j] {
        if edits == 0 {
          SameHead(u, v);
        }
        i, j := i + 1, j + 1;
      } else {
        edits := edits + 1;
        if edits > 1 {
          return false;
        }
        OtherHead(u, v);
        j := j + 1;
      }
    }
    if edits == 0 {
      RestInserted(y[j..]);
      assert x[i..] == [];
    }
    return true;
  }

  lemma RestInserted(v: string)
    ensures Distance([], v) == |v|
  {
  }

  // ----- the suggestion -----

  /** Lexicographic order by code point. */
  predicate Leq(a: string, b: string) {
    a == [] || (b != [] && (a[0] < b[0] || (a[0] == b[0] && Leq(a[1..], b[1..]))))
  }

  lemma {:induction false} LeqTotal(a: string, b: string)
    ensures Leq(a, b) || Leq(b, a)
  {
    if a != [] && b != [] && a[0] == b[0] {
      LeqTotal(a[1..], b[1..]);
    }
  }

  lemma {:induction false} LeqTransitive(a: string, b: string, c: string)
    requires Leq(a, b) && Leq(b, c)
    ensures Leq(a, c)
  {
    if a != [] && a[0] == b[0] == c[0] {
      LeqTransitive(a[1..], b[1..], c[1..]);
    }
  }

  ghost predicate InOrder(ws: seq<string>) {
    forall i, k :: 0 <= i < k < |ws| ==> Leq(ws[i], ws[k])
  }

  function Insert(w: string, ws: seq<string>): seq<string> {
    if ws == [] || Leq(w, ws[0]) then [w] + ws else [ws[0]] + Insert(w, ws[1..])
  }

  function Sort(ws: seq<string>): seq<string> {
    if ws == [] then [] else Insert(ws[0], Sort(ws[1..]))
  }

  lemma {:induction false} InsertSorts(w: string, ws: seq<string>)
    requires InOrder(ws)
    ensures InOrder(Insert(w, ws)) && forall x :: x in Insert(w, ws) <==> x == w || x in ws
  {
    if ws == [] || Leq(w, ws[0]) {
      forall k | 0 <= k < |ws|
        ensures Leq(w, ws[k])
      {
        if k > 0 {
          LeqTransitive(w, ws[0], ws[k]);
        }
      }
    } else {
      InsertSorts(w, ws[1..]);
      LeqTotal(w, ws[0]);
      assert forall x :: x in ws <==> x == ws[0] || x in ws[1..];
      var rest := Insert(w, ws[1..]);
      forall k | 0 <= k < |rest|
        ensures Leq(ws[0], rest[k])
      {
        assert rest[k] in rest;
        if rest[k] != w {
          var m :| 0 <= m < |ws[1..]| && ws[1..][m] == rest[k];
          assert ws[m + 1] == rest[k];
        }
      }
    }
  }

  lemma {:induction false} SortSorts(ws: seq<string>)
    ensures InOrder(Sort(ws)) && forall x :: x in Sort(ws) <==> x in ws
  {
    if ws != [] {
      SortSorts(ws[1..]);
      InsertSorts(ws[0], Sort(ws[1..]));
      assert forall x :: x in ws <==> x == ws[0] || x in ws[1..];
    }
  }

  predicate Near(word: string, c: string) {
    c != word && Distance(word, c) <= 1
  }

  /** The least candidate other than the word itself within distance one, or none exactly when there is none. */
  method SuggestFor(word: string, candidates: seq<string>) returns (r: Option<string>)
    ensures r.None? <==> forall c <- candidates :: !Near(word, c)
    ensures r.Some? ==> r.value in candidates && Near(word, r.value)
    ensures r.Some? ==> forall c <- candidates :: Near(word, c) ==> c == r.value || Leq(r.value, c)
  {
    hide Distance, Sort, Leq;
    var sorted := Sort(candidates);
    SortSorts(candidates);
    for i := 0 to |sorted|
      invariant forall k :: 0 <= k < i ==> !Near(word, sorted[k])
    {
      var c := sorted[i];
      var close := LevenshteinLeq1(word, c);
      if c != word && close {
        assert c in sorted;
        forall d <- candidates | Near(word, d)
          ensures d == c || Leq(c, d)
        {
          assert d in sorted;
          var k :| 0 <= k < |sorted| && sorted[k] == d;
        }
        return Some(c);
      }
    }
    forall c <- candidates
      ensures !Near(word, c)
    {
      assert c in sorted;
    }
    return None;
  }
}
