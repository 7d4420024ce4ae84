/** The category view of the term catalog: `activeCards` in App.tsx. */
module Catalog {
  import opened Types

  /** The synthetic category that means "no filter". */
  const ALL: string := "All"

  /** `cards.filter(t => t.category === category)`. */
  function Filter(cards: seq<Term>, category: string): (r: seq<Term>)
    ensures |r| <= |cards|
    ensures forall t :: t in r <==> t in cards && t.category == category
  {
    if cards == [] then []
    else if cards[0].category == category then [cards[0]] + Filter(cards[1..], category)
    else Filter(cards[1..], category)
  }

  /** The cards shown for the selected category, in catalog order. */
  function ActiveCards(catalog: seq<Term>, selected: string): (r: seq<Term>)
    ensures selected == ALL ==> r == catalog
    ensures |r| <= |catalog|
    ensures forall t :: t in r <==> t in catalog && (selected == ALL || t.category == selected)
  {
    if selected == ALL then catalog else Filter(catalog, selected)
  }

  /** `a` can be obtained from `b` by deleting elements. */
  predicate IsSubsequence<T(==)>(a: seq<T>, b: seq<T>)
    decreases |b|
  {
    if a == [] then true
    else if b == [] then false
    else if a[0] == b[0] then IsSubsequence(a[1..], b[1..])
    else IsSubsequence(a, b[1..])
  }

  /** Filtering distributes over concatenation: the filter keeps catalog order. */
  lemma {:induction false} FilterAppend(a: seq<Term>, b: seq<Term>, category: string)
    ensures Filter(a + b, category) == Filter(a, category) + Filter(b, category)
  {
    if a == [] {
      assert a + b == b;
    } else {
      assert (a + b)[0] == a[0];
      assert (a + b)[1..] == a[1..] + b;
      FilterAppend(a[1..], b, category);
    }
  }

  /** The filter keeps every matching card as often as the catalog holds it,
      and no other card. */
  lemma {:induction false} FilterMultiplicity(cards: seq<Term>, category: string, t: Term)
    ensures multiset(Filter(cards, category))[t] ==
            if t.category == category then multiset(cards)[t] else 0
  {
    if cards != [] {
      assert cards == [cards[0]] + cards[1..];
      FilterMultiplicity(cards[1..], category, t);
    }
  }

  /** The filter deletes cards and never reorders them. */
  lemma {:induction false} FilterIsSubsequence(cards: seq<Term>, category: string)
    ensures IsSubsequence(Filter(cards, category), cards)
  {
    if cards != [] {
      FilterIsSubsequence(cards[1..], category);
      var rest := Filter(cards[1..], category);
      if cards[0].category != category && rest != [] {
        assert rest[0] in rest;
        assert rest[0] != cards[0];
      }
    }
  }

  /** The view for a category other than ALL is exactly the catalog's cards of
      that category, each as often as in the catalog, in catalog order. */
  lemma ActiveCardsIsCategoryView(catalog: seq<Term>, selected: string)
    requires selected != ALL
    ensures IsSubsequence(ActiveCards(catalog, selected), catalog)
    ensures forall t :: multiset(ActiveCards(catalog, selected))[t] ==
                        if t.category == selected then multiset(catalog)[t] else 0
  {
    FilterIsSubsequence(catalog, selected);
    forall t ensures multiset(ActiveCards(catalog, selected))[t] ==
                     if t.category == selected then multiset(catalog)[t] else 0
    {
      FilterMultiplicity(catalog, selected, t);
    }
  }
}
