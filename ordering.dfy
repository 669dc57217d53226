/**
 * Byte-wise lexicographic order on strings (Go's `<` on strings, which
 * sort.Strings uses) and a sort that the signature and the container-name
 * listing share. Comparing code points is comparing UTF-8 bytes, since UTF-8
 * preserves code-point order.
 */
module Ordering {

  /** a <= b in lexicographic order. */
  predicate LexLeq(a: string, b: string) {
    if a == [] then true
    else if b == [] then false
    else if a[0] != b[0] then a[0] < b[0]
    else LexLeq(a[1..], b[1..])
  }

  lemma {:induction false} LexLeqTotal(a: string, b: string)
    ensures LexLeq(a, b) || LexLeq(b, a)
  {
    if a != [] && b != [] && a[0] == b[0] {
      LexLeqTotal(a[1..], b[1..]);
    }
  }

  lemma {:induction false} LexLeqAntisymmetric(a: string, b: string)
    requires LexLeq(a, b) && LexLeq(b, a)
    ensures a == b
  {
    if a != [] && b != [] {
      LexLeqAntisymmetric(a[1..], b[1..]);
      assert a == [a[0]] + a[1..];
      assert b == [b[0]] + b[1..];
    }
  }

  lemma {:induction false} LexLeqTransitive(a: string, b: string, c: string)
    requires LexLeq(a, b) && LexLeq(b, c)
    ensures LexLeq(a, c)
  {
    if a != [] && b != [] && c != [] && a[0] == b[0] && b[0] == c[0] {
      LexLeqTransitive(a[1..], b[1..], c[1..]);
    }
  }

  predicate Sorted(s: seq<string>) {
    forall i, j :: 0 <= i < j < |s| ==> LexLeq(s[i], s[j])
  }

  /** Inserts x before the first element it does not exceed. */
  function Insert(x: string, s: seq<string>): seq<string> {
    if s == [] then [x]
    else if LexLeq(x, s[0]) then [x] + s
    else [s[0]] + Insert(x, s[1..])
  }

  /** Insertion adds exactly x to the elements. */
  lemma {:induction false} InsertPermutes(x: string, s: seq<string>)
    ensures multiset(Insert(x, s)) == multiset(s) + multiset{x}
  {
    if s != [] && !LexLeq(x, s[0]) {
      InsertPermutes(x, s[1..]);
      assert s == [s[0]] + s[1..];
    }
  }

  /** Insertion into a sorted sequence keeps it sorted. */
  lemma {:induction false} InsertSorted(x: string, s: seq<string>)
    requires Sorted(s)
    ensures Sorted(Insert(x, s))
  {
    var r := Insert(x, s);
    if s == [] {
    } else if LexLeq(x, s[0]) {
      forall i, j | 0 <= i < j < |r| ensures LexLeq(r[i], r[j]) {
        if i == 0 && j > 1 { LexLeqTransitive(x, s[0], r[j]); }
      }
    } else {
      LexLeqTotal(x, s[0]);
      var t := Insert(x, s[1..]);
      InsertSorted(x, s[1..]);
      InsertPermutes(x, s[1..]);
      assert s == [s[0]] + s[1..];
      forall j | 0 <= j < |t| ensures LexLeq(s[0], t[j]) {
        assert t[j] in multiset(t);
        if t[j] != x {
          assert t[j] in multiset(s[1..]);
          var k :| 0 <= k < |s[1..]| && s[1..][k] == t[j];
          assert s[k + 1] == t[j];
        }
      }
      assert r == [s[0]] + t;
    }
  }

  /** sort.Strings, as an insertion sort. */
  function SortStrings(s: seq<string>): seq<string> {
    if s == [] then [] else Insert(s[0], SortStrings(s[1..]))
  }

  /** SortStrings returns the sorted permutation of its input. */
  lemma {:induction false} SortStringsCorrect(s: seq<string>)
    ensures Sorted(SortStrings(s))
    ensures multiset(SortStrings(s)) == multiset(s)
  {
    if s != [] {
      SortStringsCorrect(s[1..]);
      InsertSorted(s[0], SortStrings(s[1..]));
      InsertPermutes(s[0], SortStrings(s[1..]));
      assert s == [s[0]] + s[1..];
    }
  }

  /** The head of a sorted sequence is below each of its elements. */
  lemma SortedHeadIsLeast(s: seq<string>, x: string)
    requires Sorted(s) && x in multiset(s)
    ensures LexLeq(s[0], x)
  {
    var k :| 0 <= k < |s| && s[k] == x;
    if k == 0 { LexLeqTotal(x, x); }
  }

  /** Two sorted sequences with the same elements are the same sequence. */
  lemma {:induction false} SortedUnique(s: seq<string>, t: seq<string>)
    requires Sorted(s) && Sorted(t)
    requires multiset(s) == multiset(t)
    ensures s == t
  {
    if s == [] {
      assert |t| == |multiset(t)| == 0;
    } else {
      assert |t| == |multiset(t)| == |s|;
      SortedHeadIsLeast(s, t[0]);
      SortedHeadIsLeast(t, s[0]);
      LexLeqAntisymmetric(s[0], t[0]);
      var s', t' := s[1..], t[1..];
      assert s == [s[0]] + s';
      assert t == [t[0]] + t';
      assert multiset(s') == multiset(t') by {
        assert multiset(s) == multiset{s[0]} + multiset(s');
        assert multiset(t) == multiset{t[0]} + multiset(t');
        forall x ensures multiset(s')[x] == multiset(t')[x] {
          assert multiset(s)[x] == multiset{s[0]}[x] + multiset(s')[x];
          assert multiset(t)[x] == multiset{t[0]}[x] + multiset(t')[x];
        }
      }
      SortedUnique(s', t');
    }
  }

  /** Sorting forgets the order of its input. */
  lemma SortIgnoresOrder(s: seq<string>, t: seq<string>)
    requires multiset(s) == multiset(t)
    ensures SortStrings(s) == SortStrings(t)
  {
    SortStringsCorrect(s);
    SortStringsCorrect(t);
    SortedUnique(SortStrings(s), SortStrings(t));
  }
}
