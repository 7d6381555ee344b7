/** Python's `<` on `str`: lexicographic by code point, a proper prefix first. */
module PyOrder {

  predicate PyLess(a: string, b: string) {
    if |a| == 0 then |b| > 0
    else if |b| == 0 then false
    else if a[0] != b[0] then a[0] < b[0]
    else PyLess(a[1..], b[1..])
  }

  /** Nothing is below itself. */
  lemma {:induction false} PyLessIrreflexive(a: string)
    ensures !PyLess(a, a)
  {
    if |a| > 0 {
      PyLessIrreflexive(a[1..]);
    }
  }

  /** Two different strings are ordered one way or the other, never both. */
  lemma {:induction false} PyLessTotal(a: string, b: string)
    ensures a == b || PyLess(a, b) || PyLess(b, a)
    ensures !(PyLess(a, b) && PyLess(b, a))
  {
    if |a| > 0 && |b| > 0 && a[0] == b[0] {
      PyLessTotal(a[1..], b[1..]);
      if a[1..] == b[1..] {
        assert a == [a[0]] + a[1..] && b == [b[0]] + b[1..];
      }
    }
  }

  lemma {:induction false} PyLessTransitive(a: string, b: string, c: string)
    requires PyLess(a, b) && PyLess(b, c)
    ensures PyLess(a, c)
  {
    if |a| > 0 && |b| > 0 && |c| > 0 && a[0] == b[0] && b[0] == c[0] {
      PyLessTransitive(a[1..], b[1..], c[1..]);
    }
  }
}
