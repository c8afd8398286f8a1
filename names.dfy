/** The order in which the stock tracker lists item names. The source sorts
    with `localeCompare`, whose collation depends on the runtime's locale;
    this model fixes one total order in its place: lexicographic comparison
    by character code. */
module Names {

  /** `a` sorts strictly before `b`. */
  predicate NameBefore(a: string, b: string)
    decreases |a|
  {
    if a == [] then b != []
    else if b == [] then false
    else if a[0] != b[0] then a[0] < b[0]
    else NameBefore(a[1..], b[1..])
  }

  lemma {:induction false} NameBeforeIrreflexive(a: string)
    ensures !NameBefore(a, a)
    decreases |a|
  {
    if a != [] {
      NameBeforeIrreflexive(a[1..]);
    }
  }

  lemma {:induction false} NameBeforeTransitive(a: string, b: string, c: string)
    requires NameBefore(a, b) && NameBefore(b, c)
    ensures NameBefore(a, c)
    decreases |a|
  {
    if a != [] && b != [] && c != [] && a[0] == b[0] && b[0] == c[0] {
      NameBeforeTransitive(a[1..], b[1..], c[1..]);
    }
  }

  /** Any two different names are ordered one way or the other. */
  lemma {:induction false} NameBeforeTotal(a: string, b: string)
    requires a != b
    ensures NameBefore(a, b) || NameBefore(b, a)
    decreases |a|
  {
    if a != [] && b != [] && a[0] == b[0] {
      assert a == [a[0]] + a[1..] && b == [b[0]] + b[1..];
      NameBeforeTotal(a[1..], b[1..]);
    }
  }

  lemma NameBeforeAsymmetric(a: string, b: string)
    requires NameBefore(a, b)
    ensures !NameBefore(b, a)
  {
    if NameBefore(b, a) {
      NameBeforeTransitive(a, b, a);
      NameBeforeIrreflexive(a);
    }
  }
}
