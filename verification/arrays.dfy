/** `Array.prototype.some` and `includes` for callbacks that cannot throw. */
module Arrays {
  /** `s.some(p)`: a left-to-right scan that stops at the first element satisfying `p`. */
  function Any<T>(s: seq<T>, p: T -> bool): (b: bool)
    ensures b <==> exists i :: 0 <= i < |s| && p(s[i])
  {
    if s == [] then false
    else if p(s[0]) then true
    else
      var b := Any(s[1..], p);
      assert forall i :: 1 <= i < |s| ==> s[i] == s[1..][i - 1];
      b
  }

  /** `s.includes(x)`, which compares with `===`. */
  function Includes<T(==)>(s: seq<T>, x: T): (b: bool)
    ensures b <==> exists i :: 0 <= i < |s| && s[i] == x
  {
    Any(s, y => y == x)
  }
}
