// Looking for an element or a block in a sequence, and joining sequences with a separator.
module Sequences {
  import opened Common

  // The first position of x, or the length where there is none.
  function IndexOf<T(==)>(s: seq<T>, x: T): (n: nat)
    ensures n <= |s| && x !in s[..n] && (n < |s| ==> s[n] == x)
  {
    if s == [] || s[0] == x then 0
    else
      var n := IndexOf(s[1..], x);
      assert s[..1 + n] == [s[0]] + s[1..][..n];
      1 + n
  }

  lemma IndexOfAt<T>(a: seq<T>, x: T, b: seq<T>)
    requires x !in a
    ensures IndexOf(a, x) == |a| && IndexOf(a + [x] + b, x) == |a|
  {
    var p := a + [x] + b;
    assert p[|a|] == x && p[..|a|] == a;
  }

  // The stretches between the occurrences of x; the empty sequence has one, empty, stretch.
  function SplitOn<T(==)>(s: seq<T>, x: T): (parts: seq<seq<T>>)
    ensures |parts| > 0
  {
    var n := IndexOf(s, x);
    if n == |s| then [s] else [s[..n]] + SplitOn(s[n + 1..], x)
  }

  predicate MatchesAt<T(==)>(s: seq<T>, block: seq<T>, i: nat) {
    i + |block| <= |s| && s[i..i + |block|] == block
  }

  // The least match at or after a position.
  function NextMatch<T(==)>(s: seq<T>, block: seq<T>, i: nat): (r: Option<nat>)
    ensures r.Some? ==> r.value >= i && MatchesAt(s, block, r.value)
    ensures forall j :: i <= j && MatchesAt(s, block, j) ==> r.Some? && r.value <= j
    decreases |s| - i
  {
    if MatchesAt(s, block, i) then Some(i)
    else if i + |block| >= |s| then None
    else NextMatch(s, block, i + 1)
  }

  function JoinWith<T>(parts: seq<seq<T>>, separator: seq<T>): seq<T> {
    if parts == [] then []
    else if |parts| == 1 then parts[0]
    else parts[0] + separator + JoinWith(parts[1..], separator)
  }

  lemma {:induction false} JoinOneMore<T>(parts: seq<seq<T>>, separator: seq<T>, k: nat)
    requires k < |parts|
    ensures JoinWith(parts[..k + 1], separator) ==
            if k == 0 then parts[0] else JoinWith(parts[..k], separator) + separator + parts[k]
    decreases k
  {
    if k > 0 {
      JoinOneMore(parts[1..], separator, k - 1);
      assert parts[..k + 1][1..] == parts[1..][..k] && parts[..k][1..] == parts[1..][..k - 1];
      var inner := JoinWith(parts[1..][..k - 1], separator);
      assert JoinWith(parts[..k], separator) == if k == 1 then parts[0] else parts[0] + separator + inner;
      assert JoinWith(parts[..k + 1], separator) == parts[0] + separator + JoinWith(parts[1..][..k], separator);
      hide JoinWith;
      Reassociate(parts[0], separator, inner, parts[k]);
    }
  }

  lemma Reassociate<T>(a: seq<T>, s: seq<T>, inner: seq<T>, b: seq<T>)
    ensures a + s + (inner + s + b) == a + s + inner + s + b
  {
  }

  method Join<T>(parts: seq<seq<T>>, separator: seq<T>) returns (r: seq<T>)
    ensures r == JoinWith(parts, separator)
  {
    hide JoinWith;
    r := [];
    var i := 0;
    NothingJoined(parts, separator);
    while i < |parts|
      invariant i <= |parts| && r == JoinWith(parts[..i], separator)
    {
      JoinOneMore(parts, separator, i);
      if i > 0 {
        r := r + separator;
      }
      r := r + parts[i];
      i := i + 1;
    }
    assert parts[..i] == parts;
  }

  lemma NothingJoined<T>(parts: seq<seq<T>>, separator: seq<T>)
    ensures JoinWith(parts[..0], separator) == []
  {
  }
}
