/** The flashcard session state machine of App.tsx, as pure functions.

    Every user event becomes one or more React commits: one commit per batch
    of state updates. After each commit the card effect (App.tsx:56-96) runs
    when one of its dependencies (the current card, `isFlipped`,
    `currentIndex`) differs from the ones seen at the previous commit.
    Definition fetches complete within the effect that issues them. */
module Session {
  import opened Types
  import Catalog

  /** The definition provider `fetchDefinition(term, category)`. */
  type Provider = (string, string) -> string

  /** The six `useState` fields of App, plus the log of the provider calls
      made so far (an observation, not state of the app). */
  datatype State = State(
    selectedCategory: string,
    currentIndex: int,
    isFlipped: bool,
    sessionScore: int,
    definitionsCache: map<string, string>,
    fetchStatus: FetchStatus,
    providerCalls: seq<Term>)

  /** The dependency list of the card effect. */
  datatype Deps = Deps(currentCard: Option<Term>, isFlipped: bool, currentIndex: int)

  /** The inputs of the session: category buttons, the card and the controls. */
  datatype Event = Select(category: string) | Flip | Next | Prev | Correct | Incorrect | Reset

  /** The fallback texts the provider returns on an empty answer and on an
      error. They are ordinary, non-empty definitions to the cache. */
  const UNAVAILABLE: string := "Definition currently unavailable. Please check back later."
  const UNABLE_TO_LOAD: string := "Unable to load definition at this time. Please try again."

  /** The `useState` initial values (App.tsx:34-39). */
  function Initial(): (r: State)
    ensures r.selectedCategory == Catalog.ALL && r.currentIndex == 0 && !r.isFlipped
    ensures r.sessionScore == 0 && r.definitionsCache == map[] && r.fetchStatus == Idle
    ensures forall c: seq<Term> :: Valid(c, r)
  {
    State(Catalog.ALL, 0, false, 0, map[], Idle, [])
  }

  function View(c: seq<Term>, s: State): seq<Term> {
    Catalog.ActiveCards(c, s.selectedCategory)
  }

  /** `view[index]`, which is `undefined` outside the view. */
  function CardAt(view: seq<Term>, index: int): (r: Option<Term>)
    ensures r.Some? <==> 0 <= index < |view|
    ensures r.Some? ==> r.value in view && r.value == view[index]
  {
    if 0 <= index < |view| then Some(view[index]) else None
  }

  /** `currentCard`; a non-empty view always shows a card of the catalog in
      the selected category. */
  function CurrentCard(c: seq<Term>, s: State): (r: Option<Term>)
    ensures r.Some? ==> r.value in c && (s.selectedCategory == Catalog.ALL || r.value.category == s.selectedCategory)
    ensures Valid(c, s) && |View(c, s)| > 0 ==> r.Some?
  {
    CardAt(View(c, s), s.currentIndex)
  }

  function DepsAt(c: seq<Term>, category: string, index: int, flipped: bool): Deps {
    Deps(CardAt(Catalog.ActiveCards(c, category), index), flipped, index)
  }

  function DepsOf(c: seq<Term>, s: State): Deps {
    DepsAt(c, s.selectedCategory, s.currentIndex, s.isFlipped)
  }

  /** `definitionsCache[id]` is truthy: present and not the empty string. */
  predicate Cached(cache: map<string, string>, id: string)
    ensures Cached(cache, id) ==> id in cache
    ensures id in cache && cache[id] in {UNAVAILABLE, UNABLE_TO_LOAD} ==> Cached(cache, id)
  {
    id in cache && cache[id] != ""
  }

  /** The position is a card of the view, or the view is empty and the
      position is 0; the score is a count. */
  predicate Valid(c: seq<Term>, s: State) {
    && 0 <= s.sessionScore
    && 0 <= s.currentIndex
    && (s.currentIndex < |View(c, s)| || s.currentIndex == 0)
  }

  /** Category, position, face and score agree. */
  predicate SameNavigation(s: State, r: State) {
    && r.selectedCategory == s.selectedCategory
    && r.currentIndex == s.currentIndex
    && r.isFlipped == s.isFlipped
    && r.sessionScore == s.sessionScore
  }

  /** `r` is a later state of the definition cache than `s`: the call log only
      grows, no key disappears, a truthy entry is never rewritten, and every
      new provider call is for an id that was not cached in `s`. */
  ghost predicate Extends(s: State, r: State) {
    && s.providerCalls <= r.providerCalls
    && s.definitionsCache.Keys <= r.definitionsCache.Keys
    && (forall id :: Cached(s.definitionsCache, id) ==>
          r.definitionsCache[id] == s.definitionsCache[id])
    && (forall k :: |s.providerCalls| <= k < |r.providerCalls| ==>
          !Cached(s.definitionsCache, r.providerCalls[k].id))
  }

  /** The card on screen, if any, has an entry in the cache. */
  ghost predicate ShownCardLoaded(c: seq<Term>, s: State) {
    CurrentCard(c, s).Some? ==> CurrentCard(c, s).value.id in s.definitionsCache
  }

  /** Card ids identify catalog cards. */
  ghost predicate UniqueIds(c: seq<Term>) {
    forall i, j :: 0 <= i < |c| && 0 <= j < |c| && c[i].id == c[j].id ==> i == j
  }

  /** Every cached text is the provider's answer for a catalog card with that id. */
  ghost predicate CacheFaithful(c: seq<Term>, p: Provider, cache: map<string, string>) {
    forall id :: id in cache ==>
      exists t :: t in c && t.id == id && cache[id] == p(t.term, t.category)
  }

  /** `loadDefinition`: cache first, otherwise one provider call whose answer
      is stored under the card's id. */
  function LoadDefinition(c: seq<Term>, p: Provider, s: State): (r: State)
    ensures SameNavigation(s, r) && r.fetchStatus == Success
    ensures CurrentCard(c, s).None? || Cached(s.definitionsCache, CurrentCard(c, s).value.id) ==>
              r.definitionsCache == s.definitionsCache && r.providerCalls == s.providerCalls
    ensures CurrentCard(c, s).Some? && !Cached(s.definitionsCache, CurrentCard(c, s).value.id) ==>
              var card := CurrentCard(c, s).value;
              && r.providerCalls == s.providerCalls + [card]
              && r.definitionsCache.Keys == s.definitionsCache.Keys + {card.id}
              && r.definitionsCache[card.id] == p(card.term, card.category)
              && forall id :: id in s.definitionsCache && id != card.id ==>
                   r.definitionsCache[id] == s.definitionsCache[id]
  {
    match CurrentCard(c, s)
    case None => s.(fetchStatus := Success)
    case Some(card) =>
      if Cached(s.definitionsCache, card.id) then s.(fetchStatus := Success)
      else s.(definitionsCache := s.definitionsCache[card.id := p(card.term, card.category)],
               fetchStatus := Success,
               providerCalls := s.providerCalls + [card])
  }

  /** `prefetchNext`: the card after the current one, when it is in the view and
      not cached in `snapshot` (the cache the effect's closure captured). */
  function PrefetchNext(c: seq<Term>, p: Provider, snapshot: map<string, string>, s: State): (r: State)
    ensures SameNavigation(s, r) && r.fetchStatus == s.fetchStatus
    ensures var next := CardAt(View(c, s), s.currentIndex + 1);
            if next.Some? && !Cached(snapshot, next.value.id) then
              && r.providerCalls == s.providerCalls + [next.value]
              && r.definitionsCache.Keys == s.definitionsCache.Keys + {next.value.id}
              && r.definitionsCache[next.value.id] == p(next.value.term, next.value.category)
              && forall id :: id in s.definitionsCache && id != next.value.id ==>
                   r.definitionsCache[id] == s.definitionsCache[id]
            else r == s
  {
    match CardAt(View(c, s), s.currentIndex + 1)
    case None => s
    case Some(next) =>
      if Cached(snapshot, next.id) then s
      else s.(definitionsCache := s.definitionsCache[next.id := p(next.term, next.category)],
              providerCalls := s.providerCalls + [next])
  }

  lemma CardInCatalog(c: seq<Term>, s: State, index: int)
    requires CardAt(View(c, s), index).Some?
    ensures CardAt(View(c, s), index).value in c
  {
    assert View(c, s)[index] in View(c, s);
  }

  /** What the card effect leaves in the call log and the cache: the current
      card is requested when it is uncached, then (face-down) the next card
      when it is uncached in the captured cache. The cache is the old one
      with the provider's answer for each requested card written in that
      order, and nothing else changed; the current card ends with an entry. */
  ghost predicate EffectOutcome(c: seq<Term>, p: Provider, s: State, r: State) {
    var cur := CurrentCard(c, s);
    var next := CardAt(View(c, s), s.currentIndex + 1);
    var loads := cur.Some? && !Cached(s.definitionsCache, cur.value.id);
    var prefetches := !s.isFlipped && next.Some? && !Cached(s.definitionsCache, next.value.id);
    var afterLoad := if loads then s.definitionsCache[cur.value.id := p(cur.value.term, cur.value.category)]
                     else s.definitionsCache;
    && r.providerCalls == s.providerCalls + (if loads then [cur.value] else [])
                                          + (if prefetches then [next.value] else [])
    && r.definitionsCache == (if prefetches then afterLoad[next.value.id := p(next.value.term, next.value.category)]
                              else afterLoad)
    && (cur.Some? ==> cur.value.id in r.definitionsCache)
  }

  /** Loading and then (face-down) prefetching has the effect's outcome. */
  lemma CardEffectOutcome(c: seq<Term>, p: Provider, s: State, loaded: State, r: State)
    requires loaded == LoadDefinition(c, p, s)
    requires r == if s.isFlipped then loaded else PrefetchNext(c, p, s.definitionsCache, loaded)
    ensures SameNavigation(s, r) && EffectOutcome(c, p, s, r)
  {
    assert View(c, loaded) == View(c, s) && loaded.currentIndex == s.currentIndex;
  }

  /** The effect's outcome extends the cache, loads the card on screen, and
      writes only provider answers for catalog cards. */
  lemma EffectOutcomeFacts(c: seq<Term>, p: Provider, s: State, r: State)
    requires SameNavigation(s, r) && EffectOutcome(c, p, s, r)
    ensures Extends(s, r) && ShownCardLoaded(c, r)
    ensures CacheFaithful(c, p, s.definitionsCache) ==> CacheFaithful(c, p, r.definitionsCache)
  {
    if CurrentCard(c, s).Some? { CardInCatalog(c, s, s.currentIndex); }
    if CardAt(View(c, s), s.currentIndex + 1).Some? { CardInCatalog(c, s, s.currentIndex + 1); }
    assert View(c, r) == View(c, s);
  }

  /** The card effect: load the current card; when face-down, also prefetch
      the next one. */
  function CardEffect(c: seq<Term>, p: Provider, s: State): (r: State)
    ensures SameNavigation(s, r) && r.fetchStatus == Success
    ensures Extends(s, r) && EffectOutcome(c, p, s, r)
    ensures ShownCardLoaded(c, r)
    ensures CacheFaithful(c, p, s.definitionsCache) ==> CacheFaithful(c, p, r.definitionsCache)
  {
    var loaded := LoadDefinition(c, p, s);
    var r := if s.isFlipped then loaded else PrefetchNext(c, p, s.definitionsCache, loaded);
    CardEffectOutcome(c, p, s, loaded, r);
    EffectOutcomeFacts(c, p, s, r);
    r
  }

  /** One commit: the effect runs when its dependencies changed since `prev`. */
  function Commit(c: seq<Term>, p: Provider, prev: Deps, s: State): (r: State)
    ensures SameNavigation(s, r) && Extends(s, r)
    ensures DepsOf(c, s) != prev ==> r.fetchStatus == Success
    ensures DepsOf(c, s) == prev ==> r == s
    ensures DepsOf(c, s) != prev ==> ShownCardLoaded(c, r) && EffectOutcome(c, p, s, r)
    ensures CacheFaithful(c, p, s.definitionsCache) ==> CacheFaithful(c, p, r.definitionsCache)
  {
    if DepsOf(c, s) != prev then CardEffect(c, p, s) else s
  }

  /** `canGoNext` of the controls: there is a card after the current one. */
  predicate CanGoNext(c: seq<Term>, s: State)
    ensures 0 <= s.currentIndex ==> (CanGoNext(c, s) <==> CardAt(View(c, s), s.currentIndex + 1).Some?)
  {
    s.currentIndex < |View(c, s)| - 1
  }

  /** `canGoPrev` of the controls: there is a card before the current one. */
  predicate CanGoPrev(c: seq<Term>, s: State)
    ensures s.currentIndex <= |View(c, s)| ==>
              (CanGoPrev(c, s) <==> CardAt(View(c, s), s.currentIndex - 1).Some?)
  {
    s.currentIndex > 0
  }

  /** The "attempts" estimate passed to the controls as `total`. */
  function Total(s: State): (r: int)
    ensures r == s.currentIndex + 1
    ensures 0 <= s.currentIndex ==> r > 0
  {
    s.sessionScore + (s.currentIndex + 1 - s.sessionScore)
  }

  /** The session right after mounting: every effect runs once. */
  function Mount(c: seq<Term>, p: Provider): (r: State)
    ensures r.selectedCategory == Catalog.ALL && r.currentIndex == 0
    ensures !r.isFlipped && r.sessionScore == 0 && r.fetchStatus == Success
    ensures Valid(c, r) && CacheFaithful(c, p, r.definitionsCache) && ShownCardLoaded(c, r)
    ensures r.providerCalls == c[..if |c| < 2 then |c| else 2]
    ensures r.definitionsCache.Keys == set t | t in c[..if |c| < 2 then |c| else 2] :: t.id
    ensures |c| > 0 ==> c[0].id in r.definitionsCache
    ensures |c| > 1 ==> c[1].id in r.definitionsCache &&
                        r.definitionsCache[c[1].id] == p(c[1].term, c[1].category)
  {
    var r := CardEffect(c, p, Initial());
    assert View(c, Initial()) == c;
    assert |c| > 1 ==> c[..2] == [c[0], c[1]];
    r
  }

  /** `handleNext`: face-down, then (after the animation delay) one card on. */
  function HandleNext(c: seq<Term>, p: Provider, s: State): (r: State)
    ensures CanGoNext(c, s) ==>
              && r.currentIndex == s.currentIndex + 1 && !r.isFlipped
              && r.selectedCategory == s.selectedCategory && r.sessionScore == s.sessionScore
              && r.fetchStatus == Success
    ensures !CanGoNext(c, s) ==> r == s
    ensures r.fetchStatus in {s.fetchStatus, Success}
    ensures Extends(s, r)
    ensures Valid(c, s) ==> Valid(c, r)
    ensures ShownCardLoaded(c, s) ==> ShownCardLoaded(c, r)
    ensures CacheFaithful(c, p, s.definitionsCache) ==> CacheFaithful(c, p, r.definitionsCache)
  {
    if s.currentIndex < |View(c, s)| - 1 then
      var s1 := Commit(c, p, DepsOf(c, s), s.(isFlipped := false));
      Commit(c, p, DepsOf(c, s1), s1.(currentIndex := s1.currentIndex + 1))
    else s
  }

  /** `handlePrev`: face-down, then (after the animation delay) one card back. */
  function HandlePrev(c: seq<Term>, p: Provider, s: State): (r: State)
    ensures CanGoPrev(c, s) ==>
              && r.currentIndex == s.currentIndex - 1 && !r.isFlipped
              && r.selectedCategory == s.selectedCategory && r.sessionScore == s.sessionScore
              && r.fetchStatus == Success
    ensures !CanGoPrev(c, s) ==> r == s
    ensures r.fetchStatus in {s.fetchStatus, Success}
    ensures Extends(s, r)
    ensures Valid(c, s) ==> Valid(c, r)
    ensures ShownCardLoaded(c, s) ==> ShownCardLoaded(c, r)
    ensures CacheFaithful(c, p, s.definitionsCache) ==> CacheFaithful(c, p, r.definitionsCache)
  {
    if s.currentIndex > 0 then
      var s1 := Commit(c, p, DepsOf(c, s), s.(isFlipped := false));
      Commit(c, p, DepsOf(c, s1), s1.(currentIndex := s1.currentIndex - 1))
    else s
  }

  /** `handleCorrect`: one point, then `handleNext`; the point is scored at the
      last card too, where the card stays. */
  function HandleCorrect(c: seq<Term>, p: Provider, s: State): (r: State)
    ensures r.sessionScore == s.sessionScore + 1
    ensures r.selectedCategory == s.selectedCategory
    ensures CanGoNext(c, s) ==>
              r.currentIndex == s.currentIndex + 1 && !r.isFlipped && r.fetchStatus == Success
    ensures !CanGoNext(c, s) ==> r == s.(sessionScore := s.sessionScore + 1)
    ensures r.fetchStatus in {s.fetchStatus, Success}
    ensures Extends(s, r)
    ensures Valid(c, s) ==> Valid(c, r)
    ensures ShownCardLoaded(c, s) ==> ShownCardLoaded(c, r)
    ensures CacheFaithful(c, p, s.definitionsCache) ==> CacheFaithful(c, p, r.definitionsCache)
  {
    var scored := s.(sessionScore := s.sessionScore + 1);
    if s.currentIndex < |View(c, s)| - 1 then
      var s1 := Commit(c, p, DepsOf(c, s), scored.(isFlipped := false));
      Commit(c, p, DepsOf(c, s1), s1.(currentIndex := s1.currentIndex + 1))
    else scored
  }

  /** `handleIncorrect`: `handleNext` without a point. */
  function HandleIncorrect(c: seq<Term>, p: Provider, s: State): (r: State)
    ensures r.sessionScore == s.sessionScore && r.selectedCategory == s.selectedCategory
    ensures CanGoNext(c, s) ==>
              r.currentIndex == s.currentIndex + 1 && !r.isFlipped && r.fetchStatus == Success
    ensures !CanGoNext(c, s) ==> r == s
    ensures r.fetchStatus in {s.fetchStatus, Success}
    ensures Extends(s, r)
    ensures Valid(c, s) ==> Valid(c, r)
    ensures ShownCardLoaded(c, s) ==> ShownCardLoaded(c, r)
    ensures CacheFaithful(c, p, s.definitionsCache) ==> CacheFaithful(c, p, r.definitionsCache)
  {
    HandleNext(c, p, s)
  }

  /** `handleReset`: score, position and face back to their start values in
      one commit; category and cached definitions stay. */
  function HandleReset(c: seq<Term>, p: Provider, s: State): (r: State)
    ensures r.sessionScore == 0 && r.currentIndex == 0 && !r.isFlipped
    ensures r.selectedCategory == s.selectedCategory
    ensures r.fetchStatus in {s.fetchStatus, Success}
    ensures Extends(s, r)
    ensures s.currentIndex == 0 && !s.isFlipped ==> r == s.(sessionScore := 0)
    ensures Valid(c, r)
    ensures ShownCardLoaded(c, s) ==> ShownCardLoaded(c, r)
    ensures CacheFaithful(c, p, s.definitionsCache) ==> CacheFaithful(c, p, r.definitionsCache)
  {
    Commit(c, p, DepsOf(c, s), s.(sessionScore := 0, currentIndex := 0, isFlipped := false))
  }

  /** `onFlip`: turn the card over; the effect always runs, since `isFlipped`
      is one of its dependencies. */
  function ToggleFlip(c: seq<Term>, p: Provider, s: State): (r: State)
    ensures r.isFlipped == !s.isFlipped
    ensures r.selectedCategory == s.selectedCategory && r.currentIndex == s.currentIndex
    ensures r.sessionScore == s.sessionScore && r.fetchStatus == Success
    ensures Extends(s, r)
    ensures r.isFlipped ==> r == LoadDefinition(c, p, s.(isFlipped := true))
    ensures EffectOutcome(c, p, s.(isFlipped := !s.isFlipped), r)
    ensures ShownCardLoaded(c, r)
    ensures Valid(c, s) ==> Valid(c, r)
    ensures ShownCardLoaded(c, s) ==> ShownCardLoaded(c, r)
    ensures CacheFaithful(c, p, s.definitionsCache) ==> CacheFaithful(c, p, r.definitionsCache)
  {
    Commit(c, p, DepsOf(c, s), s.(isFlipped := !s.isFlipped))
  }

  /** A category button: a changed category is committed with the old position
      and face, then the reset effect moves to the first card face-down. The
      same category again renders nothing. */
  function SelectCategory(c: seq<Term>, p: Provider, s: State, category: string): (r: State)
    ensures category == s.selectedCategory ==> r == s
    ensures category != s.selectedCategory ==>
              && r.selectedCategory == category && r.currentIndex == 0 && !r.isFlipped
              && r.sessionScore == s.sessionScore
    ensures r.fetchStatus in {s.fetchStatus, Success}
    ensures Extends(s, r)
    ensures Valid(c, s) ==> Valid(c, r)
    ensures ShownCardLoaded(c, s) ==> ShownCardLoaded(c, r)
    ensures CacheFaithful(c, p, s.definitionsCache) ==> CacheFaithful(c, p, r.definitionsCache)
  {
    if category == s.selectedCategory then s
    else
      var s1 := Commit(c, p, DepsOf(c, s), s.(selectedCategory := category));
      Commit(c, p, DepsOf(c, s1), s1.(currentIndex := 0, isFlipped := false))
  }

  function Step(c: seq<Term>, p: Provider, s: State, e: Event): State {
    match e
    case Select(category) => SelectCategory(c, p, s, category)
    case Flip => ToggleFlip(c, p, s)
    case Next => HandleNext(c, p, s)
    case Prev => HandlePrev(c, p, s)
    case Correct => HandleCorrect(c, p, s)
    case Incorrect => HandleIncorrect(c, p, s)
    case Reset => HandleReset(c, p, s)
  }

  function Run(c: seq<Term>, p: Provider, s: State, events: seq<Event>): State
    decreases |events|
  {
    if events == [] then s else Run(c, p, Step(c, p, s, events[0]), events[1..])
  }
}
