/**
 * The JavaScript array and string built-ins the two pages rely on, stated on
 * Dafny sequences: `indexOf`/`includes`, `filter`, `join(",")` and `split(",")`.
 */
module JsArrays {

  /** Array.prototype.indexOf under strict equality: the first index holding x, or -1. */
  function IndexOf<T(==)>(s: seq<T>, x: T): (r: int)
    ensures r == -1 <==> x !in s
    ensures r != -1 ==> 0 <= r < |s| && s[r] == x && x !in s[..r]
  {
    if s == [] then -1
    else if s[0] == x then 0
    else
      var k := IndexOf(s[1..], x);
      if k == -1 then -1
      else
        assert s[..k + 1] == [s[0]] + s[1..][..k];
        k + 1
  }

  /** The search loop behind `indexOf`, proved to find the first occurrence. */
  method FindIndex<T(==)>(s: seq<T>, x: T) returns (r: int)
    ensures r == IndexOf(s, x)
  {
    var i := 0;
    while i < |s|
      invariant 0 <= i <= |s|
      invariant x !in s[..i]
    {
      if s[i] == x {
        IndexOfUnique(s, x, i);
        return i;
      }
      i := i + 1;
    }
    assert s[..i] == s;
    return -1;
  }

  /** Any index holding x with no earlier x is the one `indexOf` reports. */
  lemma IndexOfUnique<T>(s: seq<T>, x: T, i: nat)
    requires i < |s| && s[i] == x && x !in s[..i]
    ensures IndexOf(s, x) == i
  {
  }

  /** Where x does not occur in a, `indexOf` finds the x written right after a. */
  lemma IndexOfAfterPrefix<T>(a: seq<T>, x: T, b: seq<T>)
    requires x !in a
    ensures IndexOf(a + [x] + b, x) == |a|
  {
    var s := a + [x] + b;
    assert s[..|a|] == a;
    IndexOfUnique(s, x, |a|);
  }

  /** r can be obtained from s by deleting elements, so r keeps the order of s. */
  predicate Subsequence<T(==)>(r: seq<T>, s: seq<T>)
    decreases |s|
  {
    r == [] ||
    (s != [] && ((r[0] == s[0] && Subsequence(r[1..], s[1..])) || Subsequence(r, s[1..])))
  }

  /** No value occurs twice. */
  predicate NoDup<T(==)>(s: seq<T>) {
    forall i, j :: 0 <= i < j < |s| ==> s[i] != s[j]
  }

  /** A list ends in x after t exactly when it is t with x appended. */
  lemma AppendedLast<T>(t: seq<T>, x: T, s: seq<T>)
    ensures t + [x] == s <==> |s| >= 1 && s[|s| - 1] == x && s[..|s| - 1] == t
  {
    if |s| >= 1 && s[|s| - 1] == x && s[..|s| - 1] == t {
      assert s == s[..|s| - 1] + [s[|s| - 1]];
    }
  }

  /** Deleting the element at index i takes away exactly one copy of it. */
  lemma RemoveAtMultiset<T>(s: seq<T>, i: nat)
    requires i < |s|
    ensures multiset(s[..i] + s[i + 1..]) == multiset(s) - multiset{s[i]}
  {
    MultisetWithoutOne(s[..i], s[i], s[i + 1..]);
    assert s[..i] + [s[i]] + s[i + 1..] == s;
  }

  /** Taking x out of the middle of a list takes one copy of x out of its multiset. */
  lemma MultisetWithoutOne<T>(a: seq<T>, x: T, b: seq<T>)
    ensures multiset(a + b) == multiset(a + [x] + b) - multiset{x}
  {
    assert multiset(a + [x] + b) == multiset(a) + multiset{x} + multiset(b);
    assert multiset(a + b) == multiset(a) + multiset(b);
  }

  /** Deleting the element at index i leaves a subsequence. */
  lemma {:induction false} SubsequenceSkipAt<T>(s: seq<T>, i: nat)
    requires i < |s|
    ensures Subsequence(s[..i] + s[i + 1..], s)
    decreases i
  {
    var r := s[..i] + s[i + 1..];
    if i == 0 {
      assert r == s[1..];
      SubsequenceReflexive(s[1..]);
    } else {
      var t := s[1..];
      assert r[0] == s[0];
      assert r[1..] == t[..i - 1] + t[i..];
      SubsequenceSkipAt(t, i - 1);
    }
  }

  /** Every list is a subsequence of itself. */
  lemma {:induction false} SubsequenceReflexive<T>(s: seq<T>)
    ensures Subsequence(s, s)
  {
    if s != [] {
      SubsequenceReflexive(s[1..]);
    }
  }

  /** Removing one element from a list without duplicates leaves it without duplicates. */
  lemma NoDupWithoutOne<T>(a: seq<T>, x: T, b: seq<T>)
    requires NoDup(a + [x] + b)
    ensures NoDup(a + b)
  {
    var s, r := a + [x] + b, a + b;
    forall p, q | 0 <= p < q < |r| ensures r[p] != r[q] {
      var p' := if p < |a| then p else p + 1;
      var q' := if q < |a| then q else q + 1;
      assert r[p] == s[p'] && r[q] == s[q'];
    }
  }

  /** Appending a fresh element to a list without duplicates keeps it without duplicates. */
  lemma NoDupAppendFresh<T>(s: seq<T>, x: T)
    requires NoDup(s) && x !in s
    ensures NoDup(s + [x])
  {
    var r := s + [x];
    forall p, q | 0 <= p < q < |r| ensures r[p] != r[q] {
      if q == |s| {
        assert r[p] == s[p];
      } else {
        assert r[p] == s[p] && r[q] == s[q];
      }
    }
  }

  /**
   * Array.prototype.filter: the elements of s that keep accepts, each with its
   * multiplicity in s, in their order in s.
   */
  function Filter<T(==,!new)>(s: seq<T>, keep: T -> bool): (r: seq<T>)
    ensures |r| <= |s|
    ensures forall x :: x in r <==> x in s && keep(x)
    ensures forall x :: multiset(r)[x] == if keep(x) then multiset(s)[x] else 0
    ensures Subsequence(r, s)
  {
    if s == [] then []
    else
      var rest := Filter(s[1..], keep);
      assert s == [s[0]] + s[1..];
      if keep(s[0]) then
        assert ([s[0]] + rest)[1..] == rest;
        [s[0]] + rest
      else
        rest
  }

  /** `filter` distributes over concatenation: it never reorders across a split point. */
  lemma {:induction false} FilterAppend<T(!new)>(a: seq<T>, b: seq<T>, keep: T -> bool)
    ensures Filter(a + b, keep) == Filter(a, keep) + Filter(b, keep)
  {
    if a == [] {
      assert a + b == b;
    } else {
      assert a + b == [a[0]] + (a[1..] + b);
      FilterAppend(a[1..], b, keep);
    }
  }

  /** Filtering a list without duplicates gives a list without duplicates. */
  lemma {:induction false} FilterKeepsNoDup<T(!new)>(s: seq<T>, keep: T -> bool)
    requires NoDup(s)
    ensures NoDup(Filter(s, keep))
  {
    if s != [] {
      NoDupTail(s);
      FilterKeepsNoDup(s[1..], keep);
      var rest := Filter(s[1..], keep);
      if keep(s[0]) {
        assert s[0] !in rest;
        NoDupCons(s[0], rest);
        assert Filter(s, keep) == [s[0]] + rest;
      } else {
        assert Filter(s, keep) == rest;
      }
    }
  }

  /** The tail of a list without duplicates has none, and lacks the head. */
  lemma NoDupTail<T>(s: seq<T>)
    requires s != [] && NoDup(s)
    ensures NoDup(s[1..]) && s[0] !in s[1..]
  {
    forall i, j | 0 <= i < j < |s[1..]| ensures s[1..][i] != s[1..][j] {
      assert s[1..][i] == s[i + 1] && s[1..][j] == s[j + 1];
    }
  }

  /** Putting a fresh element in front of a list without duplicates keeps it without duplicates. */
  lemma NoDupCons<T>(x: T, r: seq<T>)
    requires NoDup(r) && x !in r
    ensures NoDup([x] + r)
  {
    var xr := [x] + r;
    forall i, j | 0 <= i < j < |xr| ensures xr[i] != xr[j] {
      if i == 0 {
        assert xr[j] == r[j - 1];
      } else {
        assert xr[i] == r[i - 1] && xr[j] == r[j - 1];
      }
    }
  }

  /** Filtering with a predicate that accepts every element changes nothing. */
  lemma {:induction false} FilterKeepsAll<T(!new)>(s: seq<T>, keep: T -> bool)
    requires forall i :: 0 <= i < |s| ==> keep(s[i])
    ensures Filter(s, keep) == s
  {
    if s != [] {
      FilterKeepsAll(s[1..], keep);
      assert s == [s[0]] + s[1..];
    }
  }

  /** Array.prototype.join with a one-character separator; [] joins to "". */
  function Join(xs: seq<string>, sep: char): (r: string)
    ensures |xs| >= 1 ==> |r| >= |xs[0]| + |xs| - 1
  {
    if xs == [] then ""
    else if |xs| == 1 then xs[0]
    else xs[0] + [sep] + Join(xs[1..], sep)
  }

  /**
   * String.prototype.split on a one-character separator: the pieces between
   * separators, so there is always at least one piece ("" splits to [""]).
   */
  function Split(s: string, sep: char): (r: seq<string>)
    ensures |r| >= 1
    ensures forall i :: 0 <= i < |r| ==> sep !in r[i]
    decreases |s|
  {
    var k := IndexOf(s, sep);
    if k == -1 then [s]
    else [s[..k]] + Split(s[k + 1..], sep)
  }

  /** Joining the pieces of a split gives back the original string. */
  lemma {:induction false} JoinSplit(s: string, sep: char)
    ensures Join(Split(s, sep), sep) == s
    decreases |s|
  {
    var k := IndexOf(s, sep);
    if k != -1 {
      var tail := s[k + 1..];
      SplitAtFirst(s, sep);
      JoinCons(s[..k], Split(tail, sep), sep);
      JoinSplit(tail, sep);
      assert s == s[..k] + [sep] + tail;
    }
  }

  /** One step of Split: the piece before the first separator, then the split of the rest. */
  lemma SplitAtFirst(s: string, sep: char)
    requires IndexOf(s, sep) != -1
    ensures var k := IndexOf(s, sep); Split(s, sep) == [s[..k]] + Split(s[k + 1..], sep)
  {
  }

  /** One step of Join on a list of at least two pieces. */
  lemma JoinCons(x: string, rest: seq<string>, sep: char)
    requires |rest| >= 1
    ensures Join([x] + rest, sep) == x + [sep] + Join(rest, sep)
  {
    assert ([x] + rest)[1..] == rest;
  }

  /** Splitting a join of separator-free pieces gives the pieces back; [] is the one exception. */
  lemma {:induction false} SplitJoin(xs: seq<string>, sep: char)
    requires |xs| >= 1
    requires forall i :: 0 <= i < |xs| ==> sep !in xs[i]
    ensures Split(Join(xs, sep), sep) == xs
  {
    if |xs| == 1 {
      assert IndexOf(xs[0], sep) == -1;
    } else {
      var head, tail := xs[0], Join(xs[1..], sep);
      var s := head + [sep] + tail;
      assert Join(xs, sep) == s;
      IndexOfAfterPrefix(head, sep, tail);
      assert s[..|head|] == head;
      assert s[|head| + 1..] == tail;
      assert Split(s, sep) == [head] + Split(tail, sep);
      SplitJoin(xs[1..], sep);
      assert xs == [head] + xs[1..];
    }
  }

  /** A join is empty exactly when there is nothing to join or a single empty piece. */
  lemma {:induction false} JoinEmpty(xs: seq<string>, sep: char)
    ensures Join(xs, sep) == "" <==> xs == [] || xs == [""]
  {
    if |xs| >= 2 {
      assert |Join(xs, sep)| >= 1;
    }
  }
}
