/**
  Values as the dashboard's analysis sees them after JavaScript has looked
  them up. Reading past the end of an array, or reading a property an object
  does not have, gives `undefined`; a relational comparison that involves
  `undefined` is always false. Numbers are modelled as reals (floating-point
  rounding and NaN are not part of this model).
*/
module JsValues {

  /** A possibly `undefined` JavaScript value. */
  datatype Option<+T> = None | Some(value: T)

  /** `s[s.length - 1]`: the last element of an array, `undefined` when it is empty. */
  function Last<T>(s: seq<T>): (r: Option<T>)
    ensures r.None? <==> s == []
    ensures r.Some? ==> r.value in s
  {
    if s == [] then None else Some(s[|s| - 1])
  }

  /** `a > b` on possibly undefined numbers. */
  predicate Greater(a: Option<real>, b: Option<real>)
    ensures a.None? || b.None? ==> !Greater(a, b)
  {
    a.Some? && b.Some? && a.value > b.value
  }

  /** `a < b` on possibly undefined numbers. */
  predicate Less(a: Option<real>, b: Option<real>)
    ensures a.None? || b.None? ==> !Less(a, b)
  {
    a.Some? && b.Some? && a.value < b.value
  }

  /** The array the library returned ends in the element pushed last. */
  lemma LastOfPush<T>(s: seq<T>, x: T)
    ensures Last(s + [x]) == Some(x)
  {
  }

  /** JavaScript's `>` and `<` are false whenever one side is `undefined`,
      and never both true on the same pair. */
  lemma ComparisonsWithUndefined(a: Option<real>, b: Option<real>)
    ensures (a.None? || b.None?) ==> !Greater(a, b) && !Less(a, b)
    ensures !(Greater(a, b) && Less(a, b))
    ensures Greater(a, b) <==> Less(b, a)
  {
  }
}
