/**
 The ordering that LookHere.swift adds to `Optional` when the wrapped type is
 comparable.  Only dates are ever compared, and only their order matters, so a
 date is an integer timestamp here.

 The extension writes `<` by hand: it is false as soon as either side is
 absent, and otherwise compares the wrapped values.  Swift's `Comparable`
 protocol then supplies `<=` as `!(rhs < lhs)` and `>=` as `!(lhs < rhs)`,
 written out below over the hand-written `<`.
 */
module OptionalOrder {

  /** Swift's `Optional`: `nil` or a present value. */
  datatype Option<+T> = None | Some(value: T)

  /** The hand-written `<` of the extension. */
  function Less(lhs: Option<int>, rhs: Option<int>): (r: bool)
    ensures r ==> lhs.Some? && rhs.Some? && lhs.value < rhs.value
  {
    match (lhs, rhs)
    case (Some(a), Some(b)) => a < b
    case _ => false
  }

  /** `<=` as `Comparable` derives it from `<`. */
  function LessEq(lhs: Option<int>, rhs: Option<int>): (r: bool)
    ensures lhs.None? || rhs.None? ==> r
    ensures lhs.Some? && rhs.Some? ==> (r <==> lhs.value <= rhs.value)
  {
    !Less(rhs, lhs)
  }

  /** `>=` as `Comparable` derives it from `<`. */
  function GreaterEq(lhs: Option<int>, rhs: Option<int>): (r: bool)
    ensures lhs.None? || rhs.None? ==> r
    ensures lhs.Some? && rhs.Some? ==> (r <==> lhs.value >= rhs.value)
  {
    !Less(lhs, rhs)
  }

  /** `<` is false whenever an operand is absent, and is the wrapped `<` otherwise. */
  lemma LessIsWrappedLess(lhs: Option<int>, rhs: Option<int>)
    ensures lhs.None? || rhs.None? ==> !Less(lhs, rhs)
    ensures lhs.Some? && rhs.Some? ==> (Less(lhs, rhs) <==> lhs.value < rhs.value)
  {
  }

  /** `<` is a strict partial order: irreflexive (absent included), asymmetric, transitive. */
  lemma LessIsStrictPartialOrder(a: Option<int>, b: Option<int>, c: Option<int>)
    ensures !Less(a, a)
    ensures Less(a, b) ==> !Less(b, a)
    ensures Less(a, b) && Less(b, c) ==> Less(a, c)
  {
  }

  /**
   An absent value is neither below nor above anything, yet it is not equal
   to a present value: `<` is not the total order `Comparable` asks for, and
   the derived `<=` is not transitive.
   */
  lemma AbsentIsIncomparable(x: int)
    ensures !Less(None, Some(x)) && !Less(Some(x), None) && None != Some(x)
    ensures LessEq(Some(x + 1), None) && LessEq(None, Some(x)) && !LessEq(Some(x + 1), Some(x))
  {
  }
}
