// Vectors from which an index loop erases one element.
module Lists {

  ghost predicate NoDup<T>(s: seq<T>) {
    forall i, j :: 0 <= i < j < |s| ==> s[i] != s[j]
  }

  // s without the first x: what an index loop that erases one element and stops leaves.
  function Without<T(==)>(s: seq<T>, x: T): (r: seq<T>)
  {
    if s == [] then [] else if s[0] == x then s[1..] else [s[0]] + Without(s[1..], x)
  }

  lemma {:induction false} WithoutFacts<T>(s: seq<T>, x: T)
    requires NoDup(s)
    ensures NoDup(Without(s, x)) && x !in Without(s, x)
    ensures forall y :: y in Without(s, x) <==> y in s && y != x
    ensures |Without(s, x)| == |s| - (if x in s then 1 else 0)
  {
    if s != [] {
      var r := Without(s[1..], x);
      WithoutFacts(s[1..], x);
      assert s == [s[0]] + s[1..];
      assert s[0] !in s[1..];
      if s[0] != x {
        assert forall y :: y in [s[0]] + r <==> y == s[0] || y in r;
      }
    }
  }

  lemma {:induction false} WithoutAbsent<T>(s: seq<T>, x: T)
    requires x !in s
    ensures Without(s, x) == s
  {
    if s != [] {
      WithoutAbsent(s[1..], x);
      assert s == [s[0]] + s[1..];
    }
  }

  // The first occurrence is where an index loop stops.
  lemma {:induction false} WithoutAt<T>(s: seq<T>, x: T, i: nat)
    requires i < |s| && s[i] == x && x !in s[..i]
    ensures Without(s, x) == s[..i] + s[i + 1..]
  {
    if i > 0 {
      assert s[0] == s[..i][0];
      assert s[1..][..i - 1] == s[..i][1..];
      WithoutAt(s[1..], x, i - 1);
      assert s[..i] == [s[0]] + s[1..][..i - 1];
    }
  }

  lemma {:induction false} WithoutCount<T>(s: seq<T>, x: T)
    ensures multiset(Without(s, x)) == multiset(s) - multiset{x}
  {
    if s != [] {
      var rest := s[1..];
      assert s == [s[0]] + rest && multiset(s) == multiset{s[0]} + multiset(rest);
      if s[0] != x {
        WithoutCount(rest, x);
      }
    }
  }

  // s without any x: what an index loop leaves that erases and goes on.
  function WithoutAll<T(==)>(s: seq<T>, x: T): seq<T>
  {
    if s == [] then [] else (if s[0] == x then [] else [s[0]]) + WithoutAll(s[1..], x)
  }

  lemma {:induction false} WithoutAllCount<T>(s: seq<T>, x: T)
    ensures |s| - |WithoutAll(s, x)| == multiset(s)[x]
  {
    if s != [] {
      WithoutAllCount(s[1..], x);
      assert s == [s[0]] + s[1..];
      assert multiset(s) == multiset{s[0]} + multiset(s[1..]);
    }
  }

  // One turn of that loop: kept is what lies before the index, rest what lies from it on.
  lemma TurnSlices<T>(kept: seq<T>, rest: seq<T>)
    requires rest != []
    ensures (kept + rest)[..|kept|] == kept && (kept + rest)[|kept| + 1..] == rest[1..] && (kept + rest)[|kept|] == rest[0]
    ensures kept + rest == kept + [rest[0]] + rest[1..]
  {
  }

  lemma WithoutAllTurn<T>(kept: seq<T>, rest: seq<T>, x: T)
    requires rest != []
    ensures kept + WithoutAll(rest, x) == if rest[0] == x then kept + WithoutAll(rest[1..], x)
      else kept + [rest[0]] + WithoutAll(rest[1..], x)
  {
    var w := WithoutAll(rest[1..], x);
    if rest[0] == x {
      assert [] + w == w;
    } else {
      assert kept + ([rest[0]] + w) == kept + [rest[0]] + w;
    }
  }

  lemma WithoutAllEnds<T>(kept: seq<T>, rest: seq<T>, x: T)
    ensures kept == [] ==> kept + rest == rest && kept + WithoutAll(rest, x) == WithoutAll(rest, x)
    ensures rest == [] ==> kept + rest == kept && kept + WithoutAll(rest, x) == kept
  {
  }
}
