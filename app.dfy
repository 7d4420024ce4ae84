/** The App component of App.tsx: its `useState` fields, its event handlers
    and its two effects, as a class whose methods update the fields in place.
    Every method is proved to leave the session in the state that the
    corresponding pure function in `Session` gives. */
module App {
  import opened Types
  import Catalog
  import Session
  import SessionProperties

  class FlashcardApp {
    /** TERMS_DATA, fixed for the lifetime of the app. */
    const catalog: seq<Term>
    /** `fetchDefinition`. */
    const provider: Session.Provider

    var selectedCategory: string
    var currentIndex: int
    var isFlipped: bool
    var sessionScore: int
    var definitionsCache: map<string, string>
    var fetchStatus: FetchStatus
    /** The provider calls made so far. */
    ghost var providerCalls: seq<Term>
    /** The card effect's dependencies as of the last commit (kept by React). */
    var effectDeps: Session.Deps

    ghost function Model(): Session.State
      reads this
    {
      Session.State(selectedCategory, currentIndex, isFlipped, sessionScore,
                    definitionsCache, fetchStatus, providerCalls)
    }

    /** Between events: the remembered dependencies are those of the current
        render, and the session invariant holds. */
    ghost predicate Valid()
      reads this
    {
      effectDeps == Session.DepsOf(catalog, Model()) && Session.Valid(catalog, Model())
    }

    /** Mounting: the initial state, then every effect runs once (the category
        effect finds nothing to reset). */
    constructor (catalog: seq<Term>, provider: Session.Provider)
      ensures this.catalog == catalog && this.provider == provider
      ensures Valid() && Model() == Session.Mount(catalog, provider)
    {
      this.catalog := catalog;
      this.provider := provider;
      selectedCategory := Catalog.ALL;
      currentIndex := 0;
      isFlipped := false;
      sessionScore := 0;
      definitionsCache := map[];
      fetchStatus := Idle;
      providerCalls := [];
      effectDeps := Session.DepsAt(catalog, Catalog.ALL, 0, false);
      new;
      RunCardEffect();
    }

    /** `loadDefinition`, with the provider's answer arriving at once. */
    method LoadDefinition()
      modifies this`definitionsCache, this`fetchStatus, this`providerCalls
      ensures Model() == Session.LoadDefinition(catalog, provider, old(Model()))
    {
      var card := Session.CardAt(Catalog.ActiveCards(catalog, selectedCategory), currentIndex);
      if card.None? || Session.Cached(definitionsCache, card.value.id) {
        fetchStatus := Success;
        return;
      }
      fetchStatus := Loading;
      var definition := provider(card.value.term, card.value.category);
      providerCalls := providerCalls + [card.value];
      definitionsCache := definitionsCache[card.value.id := definition];
      fetchStatus := Success;
    }

    /** `prefetchNext`, deciding on the cache captured by the effect. */
    method PrefetchNext(snapshot: map<string, string>)
      modifies this`definitionsCache, this`providerCalls
      ensures Model() == Session.PrefetchNext(catalog, provider, snapshot, old(Model()))
    {
      var next := Session.CardAt(Catalog.ActiveCards(catalog, selectedCategory), currentIndex + 1);
      if next.Some? && !Session.Cached(snapshot, next.value.id) {
        var definition := provider(next.value.term, next.value.category);
        providerCalls := providerCalls + [next.value];
        definitionsCache := definitionsCache[next.value.id := definition];
      }
    }

    /** The body of the card effect. */
    method RunCardEffect()
      modifies this`definitionsCache, this`fetchStatus, this`providerCalls
      ensures Model() == Session.CardEffect(catalog, provider, old(Model()))
    {
      var snapshot := definitionsCache;
      if isFlipped {
        LoadDefinition();
      } else {
        LoadDefinition();
        PrefetchNext(snapshot);
      }
    }

    /** A commit of the updates made so far: the card effect runs when its
        dependencies changed. */
    method Commit()
      modifies this`definitionsCache, this`fetchStatus, this`providerCalls, this`effectDeps
      ensures Model() == Session.Commit(catalog, provider, old(effectDeps), old(Model()))
      ensures effectDeps == Session.DepsOf(catalog, Model())
    {
      var deps := Session.DepsAt(catalog, selectedCategory, currentIndex, isFlipped);
      if deps != effectDeps {
        effectDeps := deps;
        RunCardEffect();
      }
    }

    method HandleNext()
      requires Valid()
      modifies this
      ensures Valid()
      ensures Model() == Session.HandleNext(catalog, provider, old(Model()))
    {
      if currentIndex < |Catalog.ActiveCards(catalog, selectedCategory)| - 1 {
        ghost var s1 := Session.Commit(catalog, provider, effectDeps, Model().(isFlipped := false));
        isFlipped := false;
        Commit();
        assert Model() == s1;
        currentIndex := currentIndex + 1;
        Commit();
      }
    }

    method HandlePrev()
      requires Valid()
      modifies this
      ensures Valid()
      ensures Model() == Session.HandlePrev(catalog, provider, old(Model()))
    {
      if currentIndex > 0 {
        ghost var s1 := Session.Commit(catalog, provider, effectDeps, Model().(isFlipped := false));
        isFlipped := false;
        Commit();
        assert Model() == s1;
        currentIndex := currentIndex - 1;
        Commit();
      }
    }

    method HandleCorrect()
      requires Valid()
      modifies this
      ensures Valid()
      ensures Model() == Session.HandleCorrect(catalog, provider, old(Model()))
    {
      SessionProperties.CorrectIsScoredNext(catalog, provider, Model());
      sessionScore := sessionScore + 1;
      HandleNext();
    }

    method HandleIncorrect()
      requires Valid()
      modifies this
      ensures Valid()
      ensures Model() == Session.HandleIncorrect(catalog, provider, old(Model()))
    {
      HandleNext();
    }

    method HandleReset()
      requires Valid()
      modifies this
      ensures Valid()
      ensures Model() == Session.HandleReset(catalog, provider, old(Model()))
    {
      sessionScore := 0;
      currentIndex := 0;
      isFlipped := false;
      Commit();
    }

    /** `onFlip` of the card. */
    method Flip()
      requires Valid()
      modifies this
      ensures Valid()
      ensures Model() == Session.ToggleFlip(catalog, provider, old(Model()))
    {
      isFlipped := !isFlipped;
      Commit();
    }

    /** A category button, followed by the category effect when the category
        changed. */
    method SelectCategory(category: string)
      requires Valid()
      modifies this
      ensures Valid()
      ensures Model() == Session.SelectCategory(catalog, provider, old(Model()), category)
    {
      if category != selectedCategory {
        ghost var s1 := Session.Commit(catalog, provider, effectDeps, Model().(selectedCategory := category));
        selectedCategory := category;
        Commit();
        assert Model() == s1;
        currentIndex := 0;
        isFlipped := false;
        Commit();
      }
    }

    /** The `canGoNext`, `canGoPrev` and `total` props of the controls. */
    method Controls() returns (canGoNext: bool, canGoPrev: bool, total: int)
      requires Valid()
      ensures canGoNext == Session.CanGoNext(catalog, Model())
      ensures canGoPrev == Session.CanGoPrev(catalog, Model())
      ensures total == currentIndex + 1 && total > 0
    {
      canGoNext := currentIndex < |Catalog.ActiveCards(catalog, selectedCategory)| - 1;
      canGoPrev := currentIndex > 0;
      total := sessionScore + (currentIndex + 1 - sessionScore);
    }
  }
}
