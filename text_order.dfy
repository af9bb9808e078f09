/** Python's `<` on `str`: lexicographic comparison by code point, where a
    proper prefix is smaller. The sort key of the endpoint compares with it. */
module TextOrder {

  /** `a < b` for Python strings. */
  predicate Below(a: string, b: string)
    ensures Below(a, b) ==> b != [] && a != b
  {
    if a == [] then b != []
    else if b == [] then false
    else if a[0] != b[0] then a[0] < b[0]
    else Below(a[1..], b[1..])
  }

  /** The empty string is below every other string and nothing is below it. */
  lemma EmptyIsLeast(s: string)
    ensures Below("", s) <==> s != ""
    ensures !Below(s, "")
  {
  }

  lemma {:induction false} BelowIrreflexive(a: string)
    ensures !Below(a, a)
  {
    if a != [] {
      BelowIrreflexive(a[1..]);
    }
  }

  lemma {:induction false} BelowAsymmetric(a: string, b: string)
    requires Below(a, b)
    ensures !Below(b, a)
  {
    if a != [] && b != [] && a[0] == b[0] {
      BelowAsymmetric(a[1..], b[1..]);
    }
  }

  lemma {:induction false} BelowTransitive(a: string, b: string, c: string)
    requires Below(a, b) && Below(b, c)
    ensures Below(a, c)
  {
    if a != [] && a[0] == b[0] && b[0] == c[0] {
      BelowTransitive(a[1..], b[1..], c[1..]);
    }
  }

  /** Any two different strings are ordered one way or the other. */
  lemma {:induction false} BelowTotal(a: string, b: string)
    ensures a == b || Below(a, b) || Below(b, a)
  {
    if a != [] && b != [] && a[0] == b[0] {
      BelowTotal(a[1..], b[1..]);
      if a[1..] == b[1..] {
        assert a == [a[0]] + a[1..] && b == [b[0]] + b[1..];
      }
    }
  }

  /** `<=` on strings is transitive. */
  lemma AtMostTransitive(a: string, b: string, c: string)
    requires !Below(b, a) && !Below(c, b)
    ensures !Below(c, a)
  {
    BelowTotal(a, b);
    BelowTotal(b, c);
    if Below(a, b) && Below(b, c) {
      BelowTransitive(a, b, c);
      BelowAsymmetric(a, c);
    } else if Below(a, b) {
      BelowAsymmetric(a, b);
    } else if Below(b, c) {
      BelowAsymmetric(b, c);
    } else {
      BelowIrreflexive(a);
    }
  }

  /** Two strings each at most the other are equal. */
  lemma AtMostAntisymmetric(a: string, b: string)
    requires !Below(a, b) && !Below(b, a)
    ensures a == b
  {
    BelowTotal(a, b);
  }
}
