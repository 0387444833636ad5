/** `remove_element` (util/collection.ts): a copy of an array without the first
    occurrence of a value. The input array is never modified: the model works
    on sequence values. */
module Collection {

  /** `Array.prototype.indexOf` with `===`: the first index holding `x`, or -1. */
  function IndexOf<T(==)>(s: seq<T>, x: T): (i: int)
    ensures i == -1 <==> x !in s
    ensures i != -1 ==> 0 <= i < |s| && s[i] == x && x !in s[..i]
  {
    if s == [] then -1
    else if s[0] == x then 0
    else
      var j := IndexOf(s[1..], x);
      assert j != -1 ==> s[..j + 1] == [s[0]] + s[1..][..j];
      if j == -1 then -1 else j + 1
  }

  /** The haystack without the first occurrence of the needle; the very same
      value when the needle does not occur. */
  function RemoveElement<T(==)>(haystack: seq<T>, needle: T): (r: seq<T>)
    ensures needle !in haystack ==> r == haystack
    ensures needle in haystack ==> |r| == |haystack| - 1
    ensures needle in haystack ==>
              exists i :: 0 <= i < |haystack| && haystack[i] == needle && needle !in haystack[..i] &&
                          r[..i] == haystack[..i] && r[i..] == haystack[i + 1..]
    ensures multiset(r) == multiset(haystack) - multiset{needle}
  {
    var index := IndexOf(haystack, needle);
    if index == -1 then
      haystack
    else
      var r := haystack[..index] + haystack[index + 1..];
      assert haystack == haystack[..index] + [needle] + haystack[index + 1..];
      assert r[..index] == haystack[..index] && r[index..] == haystack[index + 1..];
      r
  }
}
