/** Options, error numbers and lists, shared by every part of the model. */
module Common {
  datatype Option<T> = None | Some(value: T)

  const EPERM: int := 1
  const ENOENT: int := 2
  const EAGAIN: int := 11
  const ENOMEM: int := 12
  const EINVAL: int := 22
  const ECAPBILITY: int := 200
  const ENOMAPPING: int := 203

  ghost predicate NoDuplicates<T>(s: seq<T>) {
    forall i, j :: 0 <= i < j < |s| ==> s[i] != s[j]
  }

  /** list_del: the list without the node x. */
  function Without<T(==)>(s: seq<T>, x: T): seq<T> {
    if s == [] then [] else if s[0] == x then s[1..] else [s[0]] + Without(s[1..], x)
  }

  lemma {:induction false} WithoutFacts<T>(s: seq<T>, x: T)
    requires NoDuplicates(s) && x in s
    ensures NoDuplicates(Without(s, x)) && |Without(s, x)| == |s| - 1
    ensures forall y :: y in Without(s, x) <==> y in s && y != x
  {
    if s[0] != x {
      WithoutFacts(s[1..], x);
      assert s == [s[0]] + s[1..];
      assert s[0] !in Without(s[1..], x);
    } else {
      assert s == [s[0]] + s[1..];
      assert x !in s[1..];
    }
  }

  /** The elements of a list. */
  ghost function Elements<T>(s: seq<T>): set<T> {
    set x | x in s
  }

  lemma {:induction false} ElementsCount<T>(s: seq<T>)
    requires NoDuplicates(s)
    ensures |Elements(s)| == |s|
  {
    if s != [] {
      var rest := s[1..];
      ElementsCount(rest);
      assert s == [s[0]] + rest;
      assert s[0] !in rest;
      assert Elements(s) == Elements(rest) + {s[0]};
    }
  }

  // ---- Multiples -----------------------------------------------------------------------------------

  lemma ScaleLess(a: int, b: int, size: nat)
    requires size > 0
    ensures a * size < b * size <==> a < b
  {
  }

  lemma Unscale(k: nat, size: nat)
    requires size > 0
    ensures k * size >= 0 && k * size / size == k && k * size % size == 0
  {
    var q, m := k * size / size, k * size % size;
    assert (k - q) * size == m;
    ScaleLess(k - q, 1, size);
    ScaleLess(-1, k - q, size);
  }
}
