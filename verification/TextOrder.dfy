/** Python's order on strings: by the first differing character, a proper prefix first. */
module TextOrder {

  predicate Before(a: string, b: string) {
    b != [] && (a == [] || a[0] < b[0] || (a[0] == b[0] && Before(a[1..], b[1..])))
  }

  lemma {:induction false} BeforeIsTotal(a: string, b: string)
    ensures Before(a, b) || Before(b, a) || a == b
    ensures !(Before(a, b) && Before(b, a))
    ensures !Before(a, a)
  {
    if a != [] {
      BeforeIsTotal(a[1..], a[1..]);
      if b != [] {
        BeforeIsTotal(a[1..], b[1..]);
        assert a == [a[0]] + a[1..] && b == [b[0]] + b[1..];
      }
    }
  }

  lemma {:induction false} BeforeIsTransitive(a: string, b: string, c: string)
    requires Before(a, b) && Before(b, c)
    ensures Before(a, c)
  {
    if a != [] && a[0] == b[0] && b[0] == c[0] {
      BeforeIsTransitive(a[1..], b[1..], c[1..]);
    }
  }

  /** The two texts agree before position i, where the first one ends or has the smaller character. */
  predicate FirstDifferenceAt(a: string, b: string, i: nat) {
    i <= |a| && i < |b| && a[..i] == b[..i] && (i == |a| || a[i] < b[i])
  }

  /** One text is before another exactly when their first difference says so. */
  lemma {:induction false} BeforeByFirstDifference(a: string, b: string)
    ensures Before(a, b) <==> exists i: nat :: FirstDifferenceAt(a, b, i)
    decreases |a|
  {
    if b == [] || a == [] || a[0] != b[0] {
      if b != [] && (a == [] || a[0] < b[0]) { assert FirstDifferenceAt(a, b, 0); }
    } else {
      BeforeByFirstDifference(a[1..], b[1..]);
      if Before(a, b) {
        var i: nat :| FirstDifferenceAt(a[1..], b[1..], i);
        assert a[..i + 1] == [a[0]] + a[1..][..i] && b[..i + 1] == [b[0]] + b[1..][..i];
        assert FirstDifferenceAt(a, b, i + 1);
      }
      if i: nat :| FirstDifferenceAt(a, b, i) {
        assert a[1..][..i - 1] == a[..i][1..] && b[1..][..i - 1] == b[..i][1..];
        assert FirstDifferenceAt(a[1..], b[1..], i - 1);
      }
    }
  }
}
