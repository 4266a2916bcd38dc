/**
  Sequence helpers shared by the rules tables and the state handlers.  They
  mirror the JavaScript array operations the handlers use: `find` returns the
  first match, `filter` keeps every element that passes, and a numeric
  ascending `sort` followed by `[0]` yields the smallest element.
 */
module SeqUtil {

  /** A value that may be absent, as `undefined` is in the handlers. */
  datatype Option<+T> = None | Some(value: T)

  /** Index of the first element satisfying `p` (`Array.prototype.findIndex`). */
  function FindFirst<T>(s: seq<T>, p: T -> bool): (r: Option<nat>)
    ensures r.Some? ==> r.value < |s| && p(s[r.value])
    ensures r.Some? ==> forall j :: 0 <= j < r.value ==> !p(s[j])
    ensures r.None? <==> forall j :: 0 <= j < |s| ==> !p(s[j])
  {
    if |s| == 0 then None
    else if p(s[0]) then Some(0)
    else
      match FindFirst(s[1..], p)
      case None => None
      case Some(k) =>
        assert forall j :: 1 <= j <= k ==> s[j] == s[1..][j - 1];
        Some(k + 1)
  }

  /** The first element whose key equals `k`, as `find` with a key comparison. */
  function FirstWithKey<T>(s: seq<T>, key: T -> string, k: string): (r: Option<T>)
    ensures r.None? <==> forall i :: 0 <= i < |s| ==> key(s[i]) != k
    ensures r.Some? ==> r.value in s && key(r.value) == k
    ensures r.Some? ==> exists i :: 0 <= i < |s| && s[i] == r.value
                                    && forall j :: 0 <= j < i ==> key(s[j]) != k
  {
    match FindFirst(s, x => key(x) == k)
    case None => None
    case Some(i) => Some(s[i])
  }

  /** The elements of `s` that pass `keep`, in order (`s.filter(keep)`). */
  function Filter<T(!new)>(s: seq<T>, keep: T -> bool): (r: seq<T>)
    ensures |r| <= |s|
    ensures forall x :: x in r <==> x in s && keep(x)
    ensures (forall i :: 0 <= i < |s| ==> keep(s[i])) ==> r == s
  {
    if |s| == 0 then []
    else
      var rest := Filter(s[1..], keep);
      assert forall x :: x in s <==> x == s[0] || x in s[1..];
      if keep(s[0]) then [s[0]] + rest else rest
  }

  /** Drops every element carrying key `k`, keeping the others in order. */
  function WithoutKey<T(!new)>(s: seq<T>, key: T -> string, k: string): (r: seq<T>)
    ensures |r| <= |s|
    ensures forall x :: x in r <==> x in s && key(x) != k
    ensures (forall i :: 0 <= i < |s| ==> key(s[i]) != k) ==> r == s
  {
    Filter(s, x => key(x) != k)
  }

  /** Appending an element that fails `keep` to a sequence that passes throughout, and filtering, gives the sequence back. */
  lemma {:induction false} FilterAppendDrop<T(!new)>(s: seq<T>, x: T, keep: T -> bool)
    requires forall i :: 0 <= i < |s| ==> keep(s[i])
    requires !keep(x)
    ensures Filter(s + [x], keep) == s
  {
    if |s| > 0 {
      assert (s + [x])[1..] == s[1..] + [x];
      FilterAppendDrop(s[1..], x, keep);
    }
  }

  /** Dropping key `k` right after the one element carrying it was appended restores the sequence, order included. */
  lemma WithoutKeyAppendDrop<T(!new)>(s: seq<T>, x: T, key: T -> string, k: string)
    requires forall i :: 0 <= i < |s| ==> key(s[i]) != k
    requires key(x) == k
    ensures WithoutKey(s + [x], key, k) == s
  {
    FilterAppendDrop(s, x, y => key(y) != k);
  }

  /** The least element of a non-empty sequence (what a numeric ascending sort followed by taking the first element yields). */
  function Smallest(s: seq<int>): (r: int)
    requires |s| > 0
    ensures r in s
    ensures forall x :: x in s ==> r <= x
  {
    if |s| == 1 then s[0]
    else
      var m := Smallest(s[1..]);
      assert forall x :: x in s ==> x == s[0] || x in s[1..];
      if s[0] <= m then s[0] else m
  }
}
