// Small value-level helpers shared by every module: optional values, results,
// Python's str.join / reversed / substring test, and insertion-ordered sets.

module Util {

  datatype Option<+T> = None | Some(value: T)

  /** A value or the exception the Python code raises instead. */
  datatype Result<+T, +E> = Ok(value: T) | Err(error: E)

  /** `sep.join(parts)` */
  function Join(parts: seq<string>, sep: string): (r: string)
    ensures |parts| == 1 ==> r == parts[0]
    ensures parts == [] ==> r == ""
  {
    if |parts| == 0 then ""
    else if |parts| == 1 then parts[0]
    else parts[0] + sep + Join(parts[1..], sep)
  }

  /** `list(reversed(s))` */
  function Reverse<T>(s: seq<T>): seq<T>
  {
    if s == [] then [] else Reverse(s[1..]) + [s[0]]
  }

  lemma {:induction false} ReverseLength<T>(s: seq<T>)
    ensures |Reverse(s)| == |s|
  {
    if s != [] {
      ReverseLength(s[1..]);
    }
  }

  /** Reversing a sequence extended at its end puts the new element first. */
  lemma {:induction false} ReverseSnoc<T>(s: seq<T>, x: T)
    ensures Reverse(s + [x]) == [x] + Reverse(s)
  {
    if s == [] {
      assert s + [x] == [x];
    } else {
      assert (s + [x])[1..] == s[1..] + [x];
      ReverseSnoc(s[1..], x);
    }
  }

  /** Reversing keeps the same elements. */
  lemma {:induction false} ReverseMembers<T>(s: seq<T>, x: T)
    ensures x in Reverse(s) <==> x in s
  {
    if s != [] {
      ReverseMembers(s[1..], x);
      assert s == [s[0]] + s[1..];
    }
  }

  /** The concatenation of a sequence of sequences, in order. */
  function Concat<T>(ss: seq<seq<T>>): seq<T>
  {
    if ss == [] then [] else ss[0] + Concat(ss[1..])
  }

  lemma {:induction false} ConcatAppend<T>(a: seq<seq<T>>, b: seq<seq<T>>)
    ensures Concat(a + b) == Concat(a) + Concat(b)
  {
    if a == [] {
      assert a + b == b;
    } else {
      assert (a + b)[1..] == a[1..] + b;
      ConcatAppend(a[1..], b);
    }
  }

  /** Every element of every part is in the concatenation. */
  lemma {:induction false} ConcatMembers<T>(ss: seq<seq<T>>, i: int, x: T)
    requires 0 <= i < |ss| && x in ss[i]
    ensures x in Concat(ss)
    decreases i
  {
    if i > 0 {
      ConcatMembers(ss[1..], i - 1, x);
    }
  }

  /** A prefix of a non-empty sequence is its head before a prefix of its
      tail. */
  lemma PrefixOfTail<T>(s: seq<T>, k: int)
    requires 0 <= k < |s| - 1
    ensures s[..k + 1] == [s[0]] + s[1..][..k] && s[k + 1] == s[1..][k]
  {
  }

  /** `sub` occurs in `s` starting at index `i`. */
  predicate OccursAt(sub: string, s: string, i: int)
  {
    0 <= i <= |s| - |sub| && s[i..i + |sub|] == sub
  }

  /** Python's `sub in s` on strings. */
  predicate IsSubstring(sub: string, s: string)
  {
    exists i | 0 <= i <= |s| - |sub| :: OccursAt(sub, s, i)
  }

  /** Python's `s.endswith(suffix)`. */
  predicate EndsWith(s: string, suffix: string)
  {
    |suffix| <= |s| && s[|s| - |suffix|..] == suffix
  }

  predicate Distinct<T(==)>(s: seq<T>)
  {
    forall i, j | 0 <= i < j < |s| :: s[i] != s[j]
  }

  /** `set.add` on a set kept in insertion order. */
  function AddUnique<T(==)>(s: seq<T>, x: T): seq<T>
  {
    if x in s then s else s + [x]
  }

  /** Adding every element of `xs`, in order, to an insertion-ordered set. */
  function AddAll<T(==)>(s: seq<T>, xs: seq<T>): seq<T>
  {
    if xs == [] then s else AddUnique(AddAll(s, xs[..|xs| - 1]), xs[|xs| - 1])
  }

  /** The result keeps the old elements as a prefix, holds exactly the old and the
      new elements, and stays free of duplicates. */
  lemma {:induction false} AddAllFacts<T(!new)>(s: seq<T>, xs: seq<T>)
    ensures var r := AddAll(s, xs);
      && |s| <= |r| && r[..|s|] == s
      && (forall x :: x in r <==> x in s || x in xs)
      && (Distinct(s) ==> Distinct(r))
  {
    if xs != [] {
      var prefix := xs[..|xs| - 1];
      AddAllFacts(s, prefix);
      assert forall x :: x in xs <==> x in prefix || x == xs[|xs| - 1];
    }
  }

  lemma {:induction false} AddAllAppend<T(!new)>(s: seq<T>, a: seq<T>, b: seq<T>)
    ensures AddAll(s, a + b) == AddAll(AddAll(s, a), b)
  {
    if b == [] {
      assert a + b == a;
    } else {
      assert (a + b)[..|a + b| - 1] == a + b[..|b| - 1];
      AddAllAppend(s, a, b[..|b| - 1]);
    }
  }

  lemma AddAllSnoc<T(!new)>(s: seq<T>, xs: seq<T>, x: T)
    ensures AddAll(s, xs + [x]) == AddUnique(AddAll(s, xs), x)
  {
    assert (xs + [x])[..|xs|] == xs;
  }

  /** The elements of `s` that are not in `out`, in their order in `s`. */
  function Without<T(==,!new)>(s: seq<T>, out: set<T>): (r: seq<T>)
    ensures forall x :: x in r <==> x in s && x !in out
    ensures Distinct(s) ==> Distinct(r)
  {
    if s == [] then []
    else
      var rest := Without(s[..|s| - 1], out);
      var x := s[|s| - 1];
      assert x in s;
      assert forall y :: y in s ==> y in s[..|s| - 1] || y == x;
      if x in out then rest else rest + [x]
  }
}
