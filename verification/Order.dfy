/** Strict weak orders, as the comparison functions of lists and tables must be. */
module Order {

  ghost predicate Asymmetric<D(!new)>(less: (D, D) -> bool) {
    forall a, b :: less(a, b) ==> !less(b, a)
  }

  predicate Between<D>(less: (D, D) -> bool, a: D, b: D, c: D) {
    less(a, c) ==> less(a, b) || less(b, c)
  }

  ghost predicate StrictWeak<D(!new)>(less: (D, D) -> bool) {
    Asymmetric(less) && forall a, b, c :: Between(less, a, b, c)
  }
}
