/** The order in which Python sorts strings. */
module Strings {

  /** Lexicographic order by character. */
  predicate StringLeq(a: string, b: string) {
    |a| == 0 || (|b| > 0 && (a[0] < b[0] || (a[0] == b[0] && StringLeq(a[1..], b[1..]))))
  }

  lemma {:induction false} StringLeqTotal(a: string, b: string)
    ensures StringLeq(a, b) || StringLeq(b, a)
  {
    if |a| > 0 && |b| > 0 { StringLeqTotal(a[1..], b[1..]); }
  }

  /** What comes first is a prefix of the other or smaller at the first difference. */
  lemma {:induction false} StringLeqMeans(a: string, b: string)
    ensures StringLeq(a, b) <==> a <= b || exists i :: FirstLess(a, b, i)
  {
    if |a| > 0 && |b| > 0 && a[0] == b[0] {
      StringLeqMeans(a[1..], b[1..]);
      assert a == [a[0]] + a[1..] && b == [b[0]] + b[1..];
      if i :| FirstLess(a[1..], b[1..], i) {
        assert a[..i + 1] == [a[0]] + a[1..][..i] && b[..i + 1] == [b[0]] + b[1..][..i];
        assert FirstLess(a, b, i + 1);
      }
      if i :| FirstLess(a, b, i) {
        assert a[1..][..i - 1] == a[..i][1..] && b[1..][..i - 1] == b[..i][1..];
        assert FirstLess(a[1..], b[1..], i - 1);
      }
    } else if |a| > 0 && |b| > 0 {
      assert a[0] < b[0] <==> FirstLess(a, b, 0);
      assert forall i :: FirstLess(a, b, i) && i > 0 ==> a[..i][0] == b[..i][0];
    }
  }

  ghost predicate FirstLess(a: string, b: string, i: int) {
    0 <= i < |a| && i < |b| && a[..i] == b[..i] && a[i] < b[i]
  }

  lemma {:induction false} StringLeqAntisymmetric(a: string, b: string)
    requires StringLeq(a, b) && StringLeq(b, a)
    ensures a == b
  {
    if |a| > 0 {
      StringLeqAntisymmetric(a[1..], b[1..]);
      assert a == [a[0]] + a[1..] && b == [b[0]] + b[1..];
    }
  }

  lemma {:induction false} StringLeqTransitive(a: string, b: string, c: string)
    requires StringLeq(a, b) && StringLeq(b, c)
    ensures StringLeq(a, c)
  {
    if |a| > 0 && a[0] == b[0] == c[0] { StringLeqTransitive(a[1..], b[1..], c[1..]); }
  }
}
