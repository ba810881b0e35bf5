/** List helpers standing in for `Array.prototype.filter`, `find`,
    `reverse` and counting with a predicate. */
module Seqs {
  import opened Js

  /** `r` is `s` with some elements left out, the rest in their order. */
  predicate Sublist<T(==,!new)>(r: seq<T>, s: seq<T>)
    decreases |s|
  {
    if r == [] then true
    else if s == [] then false
    else (r[0] == s[0] && Sublist(r[1..], s[1..])) || Sublist(r, s[1..])
  }

  /** `s.filter(p)`. */
  function Filter<T(==,!new)>(s: seq<T>, p: T -> bool): (r: seq<T>)
    ensures |r| <= |s|
    ensures forall x :: x in r <==> x in s && p(x)
    ensures forall i :: 0 <= i < |r| ==> p(r[i])
    ensures Sublist(r, s)
  {
    if s == [] then []
    else if p(s[0]) then [s[0]] + Filter(s[1..], p)
    else Filter(s[1..], p)
  }

  /** A filter that rejects nothing returns the list itself. */
  lemma {:induction false} FilterKeepsAll<T(!new)>(s: seq<T>, p: T -> bool)
    requires forall i :: 0 <= i < |s| ==> p(s[i])
    ensures Filter(s, p) == s
  {
    if s != [] {
      FilterKeepsAll(s[1..], p);
      assert [s[0]] + s[1..] == s;
    }
  }

  /** The number of elements satisfying `p`. */
  function Count<T>(s: seq<T>, p: T -> bool): (n: nat)
    ensures n <= |s|
  {
    if s == [] then 0 else (if p(s[0]) then 1 else 0) + Count(s[1..], p)
  }

  lemma {:induction false} CountIsFilterLength<T(!new)>(s: seq<T>, p: T -> bool)
    ensures Count(s, p) == |Filter(s, p)|
  {
    if s != [] {
      CountIsFilterLength(s[1..], p);
    }
  }

  /** `s.find(x => idOf(x) === id)`: the first element carrying the id, or
      none when no element does. */
  function FindById<T>(s: seq<T>, id: int, idOf: T -> int): (r: Option<T>)
    ensures r.None? <==> forall i :: 0 <= i < |s| ==> idOf(s[i]) != id
    ensures r.Some? ==> exists i :: (0 <= i < |s| && s[i] == r.value && idOf(r.value) == id &&
      forall j :: 0 <= j < i ==> idOf(s[j]) != id)
  {
    if s == [] then None
    else if idOf(s[0]) == id then Some(s[0])
    else
      var r := FindById(s[1..], id, idOf);
      assert r.Some? ==> exists i :: (1 <= i < |s| && s[i] == r.value && idOf(r.value) == id &&
        forall j :: 0 <= j < i ==> idOf(s[j]) != id) by {
        if r.Some? {
          var i :| 0 <= i < |s[1..]| && s[1..][i] == r.value && idOf(r.value) == id &&
            forall j :: 0 <= j < i ==> idOf(s[1..][j]) != id;
          assert s[i + 1] == r.value;
          assert forall j :: 0 <= j < i + 1 ==> idOf(s[j]) != id by {
            forall j | 0 <= j < i + 1 ensures idOf(s[j]) != id {
              if j > 0 { assert s[j] == s[1..][j - 1]; }
            }
          }
        }
      }
      r
  }

  /** `s.reverse()`: the same elements, last first. */
  function Reversed<T>(s: seq<T>): (r: seq<T>)
    ensures |r| == |s|
    ensures forall i :: 0 <= i < |s| ==> r[i] == s[|s| - 1 - i]
  {
    if s == [] then [] else Reversed(s[1..]) + [s[0]]
  }

  /** Every element of a sublist is an element of the list. */
  lemma {:induction false} SublistMembers<T(!new)>(r: seq<T>, s: seq<T>)
    requires Sublist(r, s)
    ensures forall x :: x in r ==> x in s
    decreases |s|
  {
    if r != [] && s != [] {
      assert r == [r[0]] + r[1..];
      if r[0] == s[0] && Sublist(r[1..], s[1..]) {
        SublistMembers(r[1..], s[1..]);
        assert s == [s[0]] + s[1..];
      } else {
        SublistMembers(r, s[1..]);
      }
    }
  }
}
