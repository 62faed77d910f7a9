/** First elements of finite sets, as the ordered containers of the standard library deliver them. */
module Orders {

  /** `less` orders any two distinct elements, and is transitive. */
  ghost predicate StrictTotal<T(!new)>(less: (T, T) -> bool) {
    && (forall a, b :: a == b || less(a, b) || less(b, a))
    && (forall a, b, c :: less(a, b) && less(b, c) ==> less(a, c))
  }

  predicate IsFirst<T(==)>(less: (T, T) -> bool, x: T, s: set<T>) {
    x in s && forall other :: other in s && other != x ==> less(x, other)
  }

  /** Every non-empty set has a first element. */
  lemma {:induction false} FirstExists<T(!new)>(less: (T, T) -> bool, s: set<T>) returns (x: T)
    requires s != {} && StrictTotal(less)
    ensures IsFirst(less, x, s)
    decreases |s|
  {
    var a :| a in s;
    var rest := s - {a};
    if rest == {} {
      assert s == {a};
      return a;
    }
    var b := FirstExists(less, rest);
    x := if less(a, b) then a else b;
    forall other | other in s && other != x ensures less(x, other) {
      assert other == a || other == b || less(b, other);
    }
  }
}
