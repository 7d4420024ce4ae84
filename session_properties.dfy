/** Properties of the session state machine over single events and over
    arbitrary sequences of events. */
module SessionProperties {
  import opened Types
  import Catalog
  import opened Session

  /** The Next control is enabled exactly when Next moves; otherwise Next
      changes nothing. */
  lemma CanGoNextIffNextMoves(c: seq<Term>, p: Provider, s: State)
    ensures CanGoNext(c, s) <==> HandleNext(c, p, s).currentIndex != s.currentIndex
    ensures !CanGoNext(c, s) ==> HandleNext(c, p, s) == s
  {
  }

  /** The Prev control is enabled exactly when Prev moves; otherwise Prev
      changes nothing. */
  lemma CanGoPrevIffPrevMoves(c: seq<Term>, p: Provider, s: State)
    ensures CanGoPrev(c, s) <==> HandlePrev(c, p, s).currentIndex != s.currentIndex
    ensures !CanGoPrev(c, s) ==> HandlePrev(c, p, s) == s
  {
  }

  /** Correct is Next on a session scored one point higher. */
  lemma CorrectIsScoredNext(c: seq<Term>, p: Provider, s: State)
    ensures HandleCorrect(c, p, s) == HandleNext(c, p, s.(sessionScore := s.sessionScore + 1))
  {
    var scored := s.(sessionScore := s.sessionScore + 1);
    assert DepsOf(c, scored) == DepsOf(c, s);
    assert View(c, scored) == View(c, s);
  }

  /** A second Reset right after a Reset changes nothing. */
  lemma ResetIsIdempotent(c: seq<Term>, p: Provider, s: State)
    ensures HandleReset(c, p, HandleReset(c, p, s)) == HandleReset(c, p, s)
  {
  }

  /** Choosing the selected category again changes nothing. */
  lemma SelectCategoryIsIdempotent(c: seq<Term>, p: Provider, s: State, category: string)
    ensures SelectCategory(c, p, s, s.selectedCategory) == s
    ensures SelectCategory(c, p, SelectCategory(c, p, s, category), category) ==
            SelectCategory(c, p, s, category)
  {
  }

  lemma ExtendsTransitive(s1: State, s2: State, s3: State)
    requires Extends(s1, s2) && Extends(s2, s3)
    ensures Extends(s1, s3)
  {
    forall k | |s1.providerCalls| <= k < |s3.providerCalls|
      ensures !Cached(s1.definitionsCache, s3.providerCalls[k].id)
    {
      if k < |s2.providerCalls| {
        assert s3.providerCalls[k] == s2.providerCalls[k];
      }
    }
  }

  /** What every single event preserves. */
  lemma StepPreserves(c: seq<Term>, p: Provider, s: State, e: Event)
    requires Valid(c, s)
    ensures var r := Step(c, p, s, e);
            && Valid(c, r) && Extends(s, r)
            && r.fetchStatus in {s.fetchStatus, Success}
            && (CacheFaithful(c, p, s.definitionsCache) ==> CacheFaithful(c, p, r.definitionsCache))
            && (ShownCardLoaded(c, s) ==> ShownCardLoaded(c, r))
  {
  }

  /** What every sequence of events preserves: the position stays in the view,
      the cache only grows and keeps its truthy entries, cached ids are never
      requested again, and the status is never set to anything but SUCCESS. */
  lemma {:induction false} RunPreserves(c: seq<Term>, p: Provider, s: State, events: seq<Event>)
    requires Valid(c, s)
    ensures var r := Run(c, p, s, events);
            && Valid(c, r) && Extends(s, r)
            && r.fetchStatus in {s.fetchStatus, Success}
            && (CacheFaithful(c, p, s.definitionsCache) ==> CacheFaithful(c, p, r.definitionsCache))
            && (ShownCardLoaded(c, s) ==> ShownCardLoaded(c, r))
    decreases |events|
  {
    if events != [] {
      var s1 := Step(c, p, s, events[0]);
      StepPreserves(c, p, s, events[0]);
      RunPreserves(c, p, s1, events[1..]);
      ExtendsTransitive(s, s1, Run(c, p, s1, events[1..]));
    }
  }

  /** Every state reached from mounting: a valid position, status SUCCESS
      (never ERROR), the card on screen has a cache entry, and the cache holds
      only provider answers for catalog cards. */
  lemma ReachableStates(c: seq<Term>, p: Provider, events: seq<Event>)
    ensures var r := Run(c, p, Mount(c, p), events);
            && Valid(c, r) && r.fetchStatus == Success
            && CacheFaithful(c, p, r.definitionsCache) && ShownCardLoaded(c, r)
  {
    RunPreserves(c, p, Mount(c, p), events);
  }

  /** A truthy cache entry keeps its text, and its id is never sent to the
      provider again. */
  lemma NeverRefetchesCached(c: seq<Term>, p: Provider, s: State, events: seq<Event>, id: string)
    requires Valid(c, s) && Cached(s.definitionsCache, id)
    ensures var r := Run(c, p, s, events);
            && Cached(r.definitionsCache, id)
            && r.definitionsCache[id] == s.definitionsCache[id]
            && forall k :: |s.providerCalls| <= k < |r.providerCalls| ==> r.providerCalls[k].id != id
  {
    RunPreserves(c, p, s, events);
  }

  /** Under any sequence of Next and Prev the category and the score stay,
      and the position stays within the view. */
  lemma {:induction false} NavigationStaysInDeck(c: seq<Term>, p: Provider, s: State, events: seq<Event>)
    requires Valid(c, s)
    requires forall i :: 0 <= i < |events| ==> events[i].Next? || events[i].Prev?
    ensures var r := Run(c, p, s, events);
            && r.selectedCategory == s.selectedCategory && r.sessionScore == s.sessionScore
            && (|View(c, s)| > 0 ==> 0 <= r.currentIndex <= |View(c, s)| - 1)
    decreases |events|
  {
    if events != [] {
      NavigationStaysInDeck(c, p, Step(c, p, s, events[0]), events[1..]);
    }
  }

  /** A failed fetch is cached like any answer. In every state reached from
      mounting, when the provider failed for the card on screen, the cache
      holds the fallback text for its id, and no later event asks the
      provider for that id again. */
  lemma FailedFetchIsNeverRetried(c: seq<Term>, p: Provider, events: seq<Event>, later: seq<Event>)
    requires UniqueIds(c)
    ensures var r := Run(c, p, Mount(c, p), events);
            var card := CurrentCard(c, r);
            card.Some? && p(card.value.term, card.value.category) == UNABLE_TO_LOAD ==>
              && card.value.id in r.definitionsCache
              && r.definitionsCache[card.value.id] == UNABLE_TO_LOAD
              && var after := Run(c, p, r, later);
                 forall k :: |r.providerCalls| <= k < |after.providerCalls| ==>
                   after.providerCalls[k].id != card.value.id
  {
    ReachableStates(c, p, events);
    FailedFetchStaysCached(c, p, Run(c, p, Mount(c, p), events), later);
  }

  /** The step of `FailedFetchIsNeverRetried` for one state whose cache holds
      only provider answers and whose card on screen is loaded. */
  lemma FailedFetchStaysCached(c: seq<Term>, p: Provider, r: State, later: seq<Event>)
    requires UniqueIds(c) && Valid(c, r)
    requires CacheFaithful(c, p, r.definitionsCache) && ShownCardLoaded(c, r)
    ensures var card := CurrentCard(c, r);
            card.Some? && p(card.value.term, card.value.category) == UNABLE_TO_LOAD ==>
              && card.value.id in r.definitionsCache
              && r.definitionsCache[card.value.id] == UNABLE_TO_LOAD
              && var after := Run(c, p, r, later);
                 forall k :: |r.providerCalls| <= k < |after.providerCalls| ==>
                   after.providerCalls[k].id != card.value.id
  {
    var card := CurrentCard(c, r);
    if card.Some? && p(card.value.term, card.value.category) == UNABLE_TO_LOAD {
      var id := card.value.id;
      var t :| t in c && t.id == id && r.definitionsCache[id] == p(t.term, t.category);
      var i :| 0 <= i < |c| && c[i] == t;
      var j :| 0 <= j < |c| && c[j] == card.value;
      assert t == card.value;
      assert Cached(r.definitionsCache, id);
      NeverRefetchesCached(c, p, r, later, id);
    }
  }

  /** Two cards in different categories, the "Technology" view holding one:
      Next and Prev are both no-ops there. */
  lemma SingleCardViewScenario(p: Provider)
    ensures var c := [Term("a", "Technology", "Programmatic"), Term("b", "Legal", "TCPA")];
            var s := Initial().(selectedCategory := "Technology");
            && View(c, s) == [c[0]]
            && HandleNext(c, p, s) == s
            && HandlePrev(c, p, s) == s
  {
    var c := [Term("a", "Technology", "Programmatic"), Term("b", "Legal", "TCPA")];
    assert c[1..][1..] == [];
    assert Catalog.Filter(c, "Technology") == [c[0]];
  }
}
