/** The part of commons-lang's ArrayUtils the session uses: isNotEmpty, indexOf and contains,
    on arrays that may be null. */
module ArrayUtils {
  import opened Wrappers

  /** ArrayUtils.isNotEmpty: the array is not null and has at least one element. */
  function IsNotEmpty<T>(a: Option<seq<T>>): (b: bool)
    ensures b <==> a.Some? && a.value != []
  {
    a.Some? && |a.value| > 0
  }

  /** The search loop of indexOf on a non-null array: the first position holding x, or -1. */
  function FirstIndex<T(==)>(s: seq<T>, x: T): (i: int)
    ensures -1 <= i < |s|
    ensures i == -1 <==> x !in s
    ensures 0 <= i ==> s[i] == x && forall j :: 0 <= j < i ==> s[j] != x
  {
    if |s| == 0 then -1
    else if s[0] == x then 0
    else
      var k := FirstIndex(s[1..], x);
      if k == -1 then -1 else k + 1
  }

  /** ArrayUtils.indexOf: a null array holds nothing. */
  function IndexOf<T(==)>(a: Option<seq<T>>, x: T): (i: int)
    ensures a.None? ==> i == -1
    ensures a.Some? ==> -1 <= i < |a.value| && (i == -1 <==> x !in a.value)
    ensures a.Some? && 0 <= i ==> a.value[i] == x && forall j :: 0 <= j < i ==> a.value[j] != x
  {
    match a
    case None => -1
    case Some(s) => FirstIndex(s, x)
  }

  /** ArrayUtils.contains: indexOf finds the element. */
  function Contains<T(==)>(a: Option<seq<T>>, x: T): (b: bool)
    ensures b <==> a.Some? && x in a.value
  {
    IndexOf(a, x) != -1
  }
}
