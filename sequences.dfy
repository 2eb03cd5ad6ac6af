/**
 * The array operations the game applies to its id lists: membership
 * (`includes`), search (`indexOf`), removal (`splice(i, 1)`) and the
 * duplicate-freedom and inclusion properties the progression keeps.
 */
module Sequences {

  /** No element occurs twice. */
  predicate NoDup<T(==)>(s: seq<T>) {
    forall i, j :: 0 <= i < j < |s| ==> s[i] != s[j]
  }

  /** Every element of `a` also occurs in `b`. */
  predicate SubsetOf<T(==)>(a: seq<T>, b: seq<T>) {
    forall x :: x in a ==> x in b
  }

  /** Position of the first occurrence of `x` in `s`, or -1 when `x` does not occur. */
  function IndexOf<T(==)>(s: seq<T>, x: T): (i: int)
    ensures -1 <= i < |s|
    ensures i == -1 <==> x !in s
    ensures 0 <= i ==> s[i] == x && x !in s[..i]
  {
    if s == [] then -1
    else if s[0] == x then 0
    else
      var j := IndexOf(s[1..], x);
      if j == -1 then -1
      else
        assert s[..j + 1] == [s[0]] + s[1..][..j];
        j + 1
  }

  /** `s` without its element at position `i`; the others keep their order. */
  function RemoveAt<T(==)>(s: seq<T>, i: nat): (r: seq<T>)
    requires i < |s|
    ensures |r| == |s| - 1
    ensures r[..i] == s[..i] && r[i..] == s[i + 1..]
    ensures multiset(r) == multiset(s) - multiset{s[i]}
    ensures NoDup(s) ==> NoDup(r) && s[i] !in r
  {
    assert s == s[..i] + [s[i]] + s[i + 1..];
    RemoveAtKeepsNoDup(s, i);
    s[..i] + s[i + 1..]
  }

  lemma RemoveAtKeepsNoDup<T>(s: seq<T>, i: nat)
    requires i < |s|
    ensures NoDup(s) ==> NoDup(s[..i] + s[i + 1..]) && s[i] !in s[..i] + s[i + 1..]
  {
    var r := s[..i] + s[i + 1..];
    if NoDup(s) {
      forall a, b | 0 <= a < b < |r| ensures r[a] != r[b] {
        var a', b' := if a < i then a else a + 1, if b < i then b else b + 1;
        assert r[a] == s[a'] && r[b] == s[b'];
      }
      forall k | 0 <= k < |r| ensures r[k] != s[i] {
        assert r[k] == s[if k < i then k else k + 1];
      }
    }
  }
}
