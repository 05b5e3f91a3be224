/** Byte order of paths. Every char stands for one byte of a path. */
module PathOrder {
  predicate Less(a: string, b: string) {
    b != "" && (a == "" || a[0] < b[0] || (a[0] == b[0] && Less(a[1..], b[1..])))
  }

  predicate AtMost(a: string, b: string) {
    a == b || Less(a, b)
  }

  lemma {:induction false} Irreflexive(a: string)
    ensures !Less(a, a)
  {
    if a != "" { Irreflexive(a[1..]); }
  }

  lemma {:induction false} Transitive(a: string, b: string, c: string)
    requires Less(a, b) && Less(b, c)
    ensures Less(a, c)
  {
    if a != "" && a[0] == b[0] && b[0] == c[0] { Transitive(a[1..], b[1..], c[1..]); }
  }

  lemma {:induction false} Total(a: string, b: string)
    ensures Less(a, b) || a == b || Less(b, a)
  {
    if a != "" && b != "" && a[0] == b[0] {
      Total(a[1..], b[1..]);
      assert a == [a[0]] + a[1..] && b == [b[0]] + b[1..];
    }
  }

  lemma Asymmetric(a: string, b: string)
    requires Less(a, b)
    ensures !AtMost(b, a)
  {
    Irreflexive(a);
    if Less(b, a) { Transitive(a, b, a); }
  }

  /** A common prefix decides nothing. */
  lemma {:induction false} SamePrefix(p: string, a: string, b: string)
    ensures Less(p + a, p + b) == Less(a, b)
  {
    if p == "" {
      assert p + a == a && p + b == b;
    } else {
      assert (p + a)[1..] == p[1..] + a && (p + b)[1..] == p[1..] + b;
      SamePrefix(p[1..], a, b);
    }
  }

  lemma {:induction false} PrefixIsLess(a: string, s: string)
    requires s != ""
    ensures Less(a, a + s)
  {
    if a != "" {
      assert (a + s)[1..] == a[1..] + s;
      PrefixIsLess(a[1..], s);
    }
  }

  /** Unless one is a prefix of the other, the first difference decides whatever follows. */
  lemma {:induction false} FirstDifferenceDecides(a: string, b: string, s: string, t: string)
    requires Less(a, b) && !(a <= b)
    ensures Less(a + s, b + t)
  {
    assert (a + s)[0] == a[0] && (b + t)[0] == b[0];
    if a[0] == b[0] {
      assert (a + s)[1..] == a[1..] + s && (b + t)[1..] == b[1..] + t;
      assert a == [a[0]] + a[1..] && b == [b[0]] + b[1..];
      FirstDifferenceDecides(a[1..], b[1..], s, t);
    }
  }

  /** What is less than a path is less than everything below it. */
  lemma LessThanExtension(a: string, b: string, t: string)
    requires Less(a, b)
    ensures Less(a, b + t)
  {
    if t == "" {
      assert b + t == b;
    } else {
      PrefixIsLess(b, t);
      Transitive(a, b, b + t);
    }
  }
}
