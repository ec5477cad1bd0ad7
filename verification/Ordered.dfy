/**
 The byte-wise order on strings that sorted maps iterate in, and sums over maps
 whose keys are taken in that order.
 */
module Ordered {

  /** Lexicographic order: the order in which a sorted map yields its keys. */
  predicate Less(a: string, b: string) {
    if b == "" then false
    else if a == "" then true
    else a[0] < b[0] || (a[0] == b[0] && Less(a[1..], b[1..]))
  }

  lemma {:induction false} LessIsStrict(a: string, b: string)
    ensures !(Less(a, b) && Less(b, a))
    ensures !Less(a, a)
    decreases |a| + |b|
  {
    if a != "" {
      LessIsStrict(a[1..], if b != "" then b[1..] else "");
    }
  }

  lemma {:induction false} LessIsTotal(a: string, b: string)
    ensures a == b || Less(a, b) || Less(b, a)
  {
    if a != "" && b != "" {
      LessIsTotal(a[1..], b[1..]);
      assert a == [a[0]] + a[1..] && b == [b[0]] + b[1..];
    }
  }

  lemma {:induction false} LessIsTransitive(a: string, b: string, c: string)
    requires Less(a, b) && Less(b, c)
    ensures Less(a, c)
  {
    if a != "" && a[0] == b[0] && b[0] == c[0] {
      LessIsTransitive(a[1..], b[1..], c[1..]);
    }
  }

  predicate IsLeast(k: string, s: set<string>) {
    k in s && forall k' :: k' in s ==> k == k' || Less(k, k')
  }

  lemma LeastExists(s: set<string>)
    requires s != {}
    ensures exists k :: IsLeast(k, s)
  {
    var x :| x in s;
    if s == {x} {
      assert IsLeast(x, s);
    } else {
      LeastExists(s - {x});
      var k :| IsLeast(k, s - {x});
      LessIsTotal(x, k);
      var least := if Less(x, k) then x else k;
      forall k' | k' in s ensures least == k' || Less(least, k') {
        if k' != x && k' != k && least == x {
          LessIsTransitive(x, k, k');
        }
      }
      assert IsLeast(least, s);
    }
  }

  /** The first key of a sorted map. */
  function Least(s: set<string>): (k: string)
    requires s != {}
    ensures IsLeast(k, s)
  {
    LeastExists(s);
    assert forall a, b :: IsLeast(a, s) && IsLeast(b, s) ==> a == b by {
      forall a, b | IsLeast(a, s) && IsLeast(b, s) ensures a == b {
        LessIsStrict(a, b);
      }
    }
    var k :| IsLeast(k, s);
    k
  }

  /** The sum of a map's values, its keys taken in order. */
  function Sum(m: map<string, nat>): nat
    decreases |m|
  {
    if m == map[] then 0
    else
      var k := Least(m.Keys);
      m[k] + Sum(m - {k})
  }

  /** The order of summation is immaterial. */
  lemma {:induction false} SumSplits(m: map<string, nat>, k: string)
    requires k in m
    ensures Sum(m) == m[k] + Sum(m - {k})
    decreases |m|
  {
    var l := Least(m.Keys);
    if k != l {
      SumSplits(m - {l}, k);
      SumSplits(m - {k}, l);
      assert m - {l} - {k} == m - {k} - {l};
    }
  }

  /** A map with no fewer keys and no smaller values sums to no less. */
  lemma {:induction false} SumIsMonotone(m: map<string, nat>, n: map<string, nat>)
    requires m.Keys <= n.Keys
    requires forall k :: k in m ==> m[k] <= n[k]
    ensures Sum(m) <= Sum(n)
    decreases |m|
  {
    if m != map[] {
      var k :| k in m;
      SumSplits(m, k);
      SumSplits(n, k);
      SumIsMonotone(m - {k}, n - {k});
    }
  }
}
