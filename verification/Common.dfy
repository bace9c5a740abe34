/** Shared vocabulary: optional values, and the list operations the Python code
    takes from its standard library (comprehension filters, `dict.fromkeys`
    de-duplication). */
module Common {

  datatype Option<+T> = None | Some(value: T)

  function Max(a: int, b: int): int { if a > b then a else b }

  function Min(a: int, b: int): int { if a < b then a else b }

  function MaxReal(a: real, b: real): real { if b > a then b else a }

  /* ---------- names, in alphabetical order ---------- */

  predicate NameBefore(a: string, b: string) {
    b != "" && (a == "" || a[0] < b[0] || (a[0] == b[0] && NameBefore(a[1..], b[1..])))
  }

  lemma {:induction false} NotBeforeItself(a: string)
    ensures !NameBefore(a, a)
  {
    if a != "" {
      NotBeforeItself(a[1..]);
    }
  }

  lemma {:induction false} NameBeforeTrans(a: string, b: string, c: string)
    requires NameBefore(a, b) && NameBefore(b, c)
    ensures NameBefore(a, c)
  {
    if a != "" && a[0] == b[0] == c[0] {
      NameBeforeTrans(a[1..], b[1..], c[1..]);
    }
  }

  lemma {:induction false} NamesCompare(a: string, b: string)
    ensures NameBefore(a, b) || a == b || NameBefore(b, a)
  {
    if a != "" && b != "" && a[0] == b[0] {
      NamesCompare(a[1..], b[1..]);
      assert a == [a[0]] + a[1..] && b == [b[0]] + b[1..];
    }
  }

  function Filter<T(!new)>(s: seq<T>, keep: T -> bool): (r: seq<T>)
    ensures |r| <= |s|
    ensures forall x :: x in r <==> x in s && keep(x)
  {
    if s == [] then [] else
    var rest := Filter(s[1..], keep);
    assert forall x :: x in s <==> x == s[0] || x in s[1..];
    if keep(s[0]) then [s[0]] + rest else rest
  }

  lemma FilterAppend<T(!new)>(a: seq<T>, b: seq<T>, keep: T -> bool)
    ensures Filter(a + b, keep) == Filter(a, keep) + Filter(b, keep)
  {
    if a == [] {
      assert a + b == b;
    } else {
      assert (a + b)[1..] == a[1..] + b;
      FilterAppend(a[1..], b, keep);
    }
  }

  lemma FilterAll<T(!new)>(s: seq<T>, p: T -> bool)
    requires forall x :: x in s ==> p(x)
    ensures Filter(s, p) == s
  {
    if s != [] {
      FilterAll(s[1..], p);
    }
  }

  lemma FilterSnoc<T(!new)>(front: seq<T>, last: T, keep: T -> bool)
    ensures Filter(front + [last], keep) == Filter(front, keep) + if keep(last) then [last] else []
  {
    FilterAppend(front, [last], keep);
    assert [last][1..] == [];
  }

  /** A first filter that lets through everything the second one keeps changes nothing. */
  lemma FilterImplied<T(!new)>(s: seq<T>, p: T -> bool, q: T -> bool)
    requires forall x :: x in s && q(x) ==> p(x)
    ensures Filter(Filter(s, p), q) == Filter(s, q)
  {
    if s != [] {
      FilterImplied(s[1..], p, q);
      if p(s[0]) {
        assert ([s[0]] + Filter(s[1..], p))[1..] == Filter(s[1..], p);
      }
    }
  }

  /** `dict.fromkeys`: keep first occurrences, in order. */
  function Dedup<T(==,!new)>(s: seq<T>): (r: seq<T>)
    ensures forall x :: x in r <==> x in s
    ensures forall i, j :: 0 <= i < j < |r| ==> r[i] != r[j]
  {
    if s == [] then [] else
    var front := Dedup(s[..|s| - 1]);
    var last := s[|s| - 1];
    assert forall x :: x in s <==> x in s[..|s| - 1] || x == last;
    if last in front then front else front + [last]
  }
}
