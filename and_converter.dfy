/** `AndConverter` of Core/Converters/AndConverter.cs: a multi-value binding
    converter that is true when every bound value is a boxed `true`. The
    target type, parameter and culture arguments are ignored by the source
    and omitted here. */
module Converters {
  import opened Common

  /** `Enumerable.All(v => v is bool b && b)`, element by element in order. */
  predicate AllTrue(values: seq<Object<bool>>)
  {
    values == [] || (values[0] == Instance(true) && AllTrue(values[1..]))
  }

  /** `Convert(values, ...)`: false for a `null` array, else whether every
      element is a boxed `true` (a `null`, a non-bool or a `false` makes it
      false; an empty array makes it true). */
  function Convert(values: Option<seq<Object<bool>>>): (r: bool)
    ensures r <==> values.Some? && forall i :: 0 <= i < |values.value| ==> values.value[i] == Instance(true)
  {
    AllTrueMeansEveryElement(if values.Some? then values.value else []);
    values.Some? && AllTrue(values.value)
  }

  lemma {:induction false} AllTrueMeansEveryElement(values: seq<Object<bool>>)
    ensures AllTrue(values) <==> forall i :: 0 <= i < |values| ==> values[i] == Instance(true)
  {
    if values != [] {
      AllTrueMeansEveryElement(values[1..]);
      assert forall i :: 1 <= i < |values| ==> values[i] == values[1..][i - 1];
    }
  }

  /** A `null` array is false, an empty one true, and one `null` or
      non-bool element makes the whole conjunction false. */
  lemma ConvertEdgeCases(values: seq<Object<bool>>, i: int)
    requires 0 <= i < |values|
    ensures !Convert(None) && Convert(Some([]))
    ensures values[i] == Null || values[i] == OtherInstance || values[i] == Instance(false) ==> !Convert(Some(values))
  {
  }

  /** The order of the bound values does not matter. */
  lemma ConvertPermutationInvariant(a: seq<Object<bool>>, b: seq<Object<bool>>)
    requires multiset(a) == multiset(b)
    ensures Convert(Some(a)) == Convert(Some(b))
  {
    if Convert(Some(a)) {
      forall i | 0 <= i < |b| ensures b[i] == Instance(true) {
        assert b[i] in multiset(a);
      }
    }
    if Convert(Some(b)) {
      forall i | 0 <= i < |a| ensures a[i] == Instance(true) {
        assert a[i] in multiset(b);
      }
    }
  }

  /** How a call ended: a returned value or a thrown exception's type name. */
  datatype Outcome<T> = Returned(value: T) | Threw(exception: string)

  /** `ConvertBack(value, ...)`: not supported; it always throws. */
  function ConvertBack(value: Object<bool>): (r: Outcome<seq<Object<bool>>>)
    ensures r.Threw? && r.exception == "NotImplementedException"
  {
    Threw("NotImplementedException")
  }
}
