/** Vectors used as sets: find and erase. */
module Lists {

  predicate NoDup<T(==)>(s: seq<T>) {
    forall i, j :: 0 <= i < j < |s| ==> s[i] != s[j]
  }

  lemma NoDupPush<T>(s: seq<T>, x: T)
    requires NoDup(s) && x !in s
    ensures NoDup(s + [x])
  {
  }

  /** s without the first occurrence of x. */
  function Without<T(==)>(s: seq<T>, x: T): seq<T> {
    if s == [] then [] else if s[0] == x then s[1..] else [s[0]] + Without(s[1..], x)
  }

  lemma {:induction false} WithoutAbsent<T>(s: seq<T>, x: T)
    requires x !in s
    ensures Without(s, x) == s
  {
    if s != [] {
      WithoutAbsent(s[1..], x);
    }
  }

  /** Erasing from a list without duplicates takes out exactly that element. */
  lemma {:induction false} WithoutMembers<T>(s: seq<T>, x: T)
    requires NoDup(s)
    ensures NoDup(Without(s, x))
    ensures forall y :: y in Without(s, x) <==> y in s && y != x
    ensures |Without(s, x)| == if x in s then |s| - 1 else |s|
  {
    if s != [] {
      assert s == [s[0]] + s[1..];
      if s[0] == x {
        assert forall j :: 0 < j < |s| ==> s[0] != s[j];
      } else {
        assert NoDup(s[1..]);
        WithoutMembers(s[1..], x);
        var t := Without(s[1..], x);
        assert s[0] !in s[1..];
        assert forall j :: 0 < j < |[s[0]] + t| ==> ([s[0]] + t)[j] == t[j - 1] && t[j - 1] in t;
      }
    }
  }

  lemma {:induction false} WithoutAt<T>(s: seq<T>, x: T, i: nat)
    requires i < |s| && s[i] == x && x !in s[..i]
    ensures Without(s, x) == s[..i] + s[i + 1..]
  {
    if i > 0 {
      assert s[0] == s[..i][0];
      assert s[1..][..i - 1] == s[..i][1..];
      WithoutAt(s[1..], x, i - 1);
    }
  }

  /** std::find and vector::erase */
  method Erase<T(==)>(s: seq<T>, x: T) returns (found: bool, s': seq<T>)
    ensures found <==> x in s
    ensures s' == Without(s, x)
  {
    var i := 0;
    while i < |s| && s[i] != x
      invariant 0 <= i <= |s| && x !in s[..i]
    {
      i := i + 1;
    }
    if i == |s| {
      assert s[..i] == s;
      WithoutAbsent(s, x);
      return false, s;
    }
    WithoutAt(s, x, i);
    return true, s[..i] + s[i + 1..];
  }
}
