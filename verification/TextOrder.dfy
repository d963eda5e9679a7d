/** The order of text: bytewise, a prefix first. */
module TextOrder {
  /** Bytewise order, a prefix first: negative, zero or positive. */
  function Compare(l: string, r: string): int {
    if l == "" || r == "" then (if l == r then 0 else if l == "" then -1 else 1)
    else if l[0] != r[0] then (if l[0] < r[0] then -1 else 1)
    else Compare(l[1..], r[1..])
  }

  lemma {:induction false} CompareIsAntisymmetric(a: string, b: string)
    ensures Compare(a, b) == -Compare(b, a) && (Compare(a, b) == 0 <==> a == b)
  {
    if a != "" && b != "" && a[0] == b[0] {
      CompareIsAntisymmetric(a[1..], b[1..]);
      assert a == [a[0]] + a[1..] && b == [b[0]] + b[1..];
    }
  }

  lemma {:induction false} CompareIsTransitive(a: string, b: string, c: string)
    requires Compare(a, b) <= 0 && Compare(b, c) <= 0
    ensures Compare(a, c) <= 0 && (Compare(a, c) == 0 ==> Compare(a, b) == 0 && Compare(b, c) == 0)
  {
    if a != "" && b != "" && c != "" && a[0] == b[0] && b[0] == c[0] { CompareIsTransitive(a[1..], b[1..], c[1..]); }
    else { CompareIsAntisymmetric(a, b); CompareIsAntisymmetric(b, c); CompareIsAntisymmetric(a, c); }
  }

  lemma {:induction false} NeverBefore(x: string, y: string, z: string)
    ensures Compare(x, y) <= 0 && Compare(y, z) <= 0 ==> Compare(z, x) >= 0
    ensures Compare(y, x) >= 0 && Compare(z, y) >= 0 ==> Compare(z, x) >= 0
  {
    CompareIsAntisymmetric(x, y);
    CompareIsAntisymmetric(y, z);
    CompareIsAntisymmetric(x, z);
    if Compare(x, y) <= 0 && Compare(y, z) <= 0 { CompareIsTransitive(x, y, z); }
  }

  /** l stands before r in a dictionary: a proper prefix of it, or smaller at the first difference. */
  ghost predicate Earlier(l: string, r: string) {
    (|l| < |r| && l == r[..|l|]) || exists k :: 0 <= k < |l| && k < |r| && l[..k] == r[..k] && l[k] < r[k]
  }

  lemma {:induction false} EarlierTails(l: string, r: string)
    requires l != "" && r != "" && l[0] == r[0]
    ensures Earlier(l, r) <==> Earlier(l[1..], r[1..])
  {
    var a, b := l[1..], r[1..];
    assert l == [l[0]] + a && r == [l[0]] + b;
    if Earlier(l, r) && !(|l| < |r| && l == r[..|l|]) {
      var k :| 0 <= k < |l| && k < |r| && l[..k] == r[..k] && l[k] < r[k];
      assert a[..k - 1] == l[..k][1..] && b[..k - 1] == r[..k][1..] && a[k - 1] < b[k - 1];
    }
    if Earlier(l, r) && |l| < |r| && l == r[..|l|] { assert a == b[..|a|]; }
    if Earlier(a, b) && !(|a| < |b| && a == b[..|a|]) {
      var k :| 0 <= k < |a| && k < |b| && a[..k] == b[..k] && a[k] < b[k];
      assert l[..k + 1] == [l[0]] + a[..k] && r[..k + 1] == [l[0]] + b[..k] && l[k + 1] < r[k + 1];
    }
  }

  /** The comparison is negative exactly when l stands before r, and positive exactly when after. */
  lemma {:induction false} CompareIsEarlier(l: string, r: string)
    ensures Compare(l, r) < 0 <==> Earlier(l, r)
    ensures Compare(l, r) > 0 <==> Earlier(r, l)
  {
    if l == "" || r == "" {
      assert l == "" ==> l == r[..|l|];
      assert r == "" ==> r == l[..|r|];
    } else if l[0] == r[0] {
      EarlierTails(l, r);
      EarlierTails(r, l);
      CompareIsEarlier(l[1..], r[1..]);
    } else {
      FirstDiffers(l, r);
      FirstDiffers(r, l);
    }
  }

  lemma {:induction false} FirstDiffers(l: string, r: string)
    requires l != "" && r != "" && l[0] != r[0]
    ensures Earlier(l, r) <==> l[0] < r[0]
  {
    if l[0] < r[0] { assert l[..0] == r[..0]; }
  }
}
