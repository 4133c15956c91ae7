/**
 * The two pages update a facet list differently: the search page drops every
 * copy of a present value, the products page only its first copy. These lemmas
 * pin down where the two agree and where they part.
 */
module PageComparison {
  import opened JsArrays
  import SearchResults
  import ProductsPage

  /** On a list without duplicates, the two toggles give the same list. */
  lemma TogglesAgreeWithoutDuplicates(s: seq<string>, v: string)
    requires NoDup(s)
    ensures SearchResults.ToggleAll(s, v) == ProductsPage.ToggleFirst(s, v)
  {
    if v in s {
      var i := IndexOf(s, v);
      var a, b := s[..i], s[i + 1..];
      assert s == a + [v] + b;
      assert v !in b by {
        forall j | 0 <= j < |b| ensures b[j] != v {
          assert b[j] == s[i + 1 + j];
        }
      }
      SearchToggleDropsSingle(a, v, b);
      ProductsPage.ToggleFirstSplicesFirst(s, v);
      var r := ProductsPage.ToggleFirst(s, v);
      assert r == r[..i] + r[i..];
    }
  }

  /** Unchecking a value that occurs once drops exactly that occurrence. */
  lemma SearchToggleDropsSingle(a: seq<string>, v: string, b: seq<string>)
    requires v !in a && v !in b
    ensures SearchResults.ToggleAll(a + [v] + b, v) == a + b
  {
    var keep := (y: string) => y != v;
    assert SearchResults.ToggleAll(a + [v] + b, v) == Filter(a + [v] + b, keep);
    assert Filter(a + [v], keep) == a by {
      FilterAppend(a, [v], keep);
      FilterKeepsAll(a, keep);
      assert Filter([v], keep) == [];
    }
    FilterAppend(a + [v], b, keep);
    FilterKeepsAll(b, keep);
  }

  /** With a duplicated value the two toggles differ: all copies go, or one copy stays. */
  lemma TogglesDifferOnDuplicate(v: string)
    ensures SearchResults.ToggleAll([v, v], v) == []
    ensures ProductsPage.ToggleFirst([v, v], v) == [v]
  {
    var keep := (y: string) => y != v;
    assert [v, v] == [v] + [v];
    FilterAppend([v], [v], keep);
    assert Filter([v], keep) == [];
  }

  /**
   * Toggling a present value twice on the search page collapses every copy of
   * it into one copy at the end of the list.
   */
  lemma SearchToggleTwicePresent(s: seq<string>, v: string)
    requires v in s
    ensures SearchResults.ToggleAll(SearchResults.ToggleAll(s, v), v) == SearchResults.ToggleAll(s, v) + [v]
  {
  }

  /**
   * So a double toggle of a present value restores the list exactly when the
   * value occurs once, as the last element.
   */
  lemma SearchToggleTwiceRestores(s: seq<string>, v: string)
    requires v in s
    ensures SearchResults.ToggleAll(SearchResults.ToggleAll(s, v), v) == s <==>
            s[|s| - 1] == v && v !in s[..|s| - 1]
  {
    var t := SearchResults.ToggleAll(s, v);
    SearchToggleTwicePresent(s, v);
    var a := s[..|s| - 1];
    if t + [v] == s {
      AppendedLast(t, v, s);
    }
    if s[|s| - 1] == v && v !in a {
      AppendedLast(a, v, s);
      SearchToggleDropsLast(a, v);
    }
  }

  /** Unchecking a value that sits only at the end of the list drops that last element. */
  lemma SearchToggleDropsLast(a: seq<string>, v: string)
    requires v !in a
    ensures SearchResults.ToggleAll(a + [v], v) == a
  {
    SearchToggleDropsSingle(a, v, []);
    assert a + [v] + [] == a + [v] && a + [] == a;
  }
}
