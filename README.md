# GOAL Academy flashcard session, modelled in Dafny

GOAL Academy is a browser flashcard app for learning insurance-marketing terms.
The user picks a category and steps through the cards. Flipping a card shows a
definition from a generative-AI service, and answering "Got it" scores a point.
This project models the session logic of `App.tsx`:

- the category view of the catalog (`activeCards`);
- the handlers Next, Prev, Correct, Incorrect and Reset, the flip toggle, and the
  category buttons together with the effect that resets the position;
- the card effect: a cache-first `loadDefinition` and a `prefetchNext` for the
  following card;
- the props `canGoNext`, `canGoPrev` and `total` handed to the controls.

Files:

- `types.dfy` (`Types`): `Term`, `FetchStatus`, and `Option` for `undefined`.
- `catalog.dfy` (`Catalog`): the filter, `ActiveCards`, and lemmas that the view
  is the catalog's cards of the chosen category, in catalog order.
- `session.dfy` (`Session`): the session as pure functions over a `State` record.
  The record holds the six `useState` fields plus a log of provider calls.
  There is one function per handler, with the React commits each handler
  produces and the card effect each commit triggers.
- `session_properties.dfy` (`SessionProperties`): lemmas about single events and
  about any sequence of events (`Run`).
- `app.dfy` (`App`): the class `FlashcardApp`. Its fields are the `useState`
  fields, and its methods update them in place the way the handlers do. Each
  method is proved to end in the state that the corresponding `Session`
  function gives (`Flip` corresponds to `ToggleFlip`, `RunCardEffect` to
  `CardEffect`; the others share their names).

How the asynchronous parts are modelled:

- A batch of state updates is one commit. After a commit, the card effect runs
  when one of its dependencies (the current card, `isFlipped`, `currentIndex`)
  differs from the last commit's. `FlashcardApp.effectDeps` holds those
  remembered dependencies.
- Next and Prev first commit "face-down", then, once the 200 ms delay is over,
  the new position. The delay is folded into the same transition.
- Choosing a new category first commits that category with the old position.
  Then the category effect commits position 0, face-down. Each commit may run
  the card effect, so the stale position can fetch too.
- Choosing the category already selected renders nothing.
- A definition fetch completes inside the effect that starts it. The prefetch
  decides using the cache captured by the effect's closure.
- A cache entry counts as present when JavaScript finds it truthy. An entry
  holding the empty string is fetched again.

The catalog (`TERMS_DATA`, in `constants.ts`) is a constructor parameter.
`constants.ts` is not part of this model. The definition service
(`fetchDefinition`) is a function parameter from (term, category) to a string.

The code stores whatever `fetchDefinition` returns, including its two fallback
texts. A failed fetch is therefore cached, and that id is never requested again
(`FailedFetchIsNeverRetried`). Fetches for the same id are not coalesced: a
second request can start while the first is still in flight.

## Model

| member | source | states |
|---|---|---|
| `Catalog.Filter` | App.tsx:44 | the result holds exactly the cards of the given category and is no longer than the input |
| `Catalog.ActiveCards` | App.tsx:42-45 | for "All" the view is the whole catalog; otherwise a card is in the view iff it is in the catalog and has the selected category |
| `Catalog.FilterAppend` | App.tsx:44 | filtering a concatenation is the concatenation of the filtered parts, so catalog order is kept |
| `Catalog.FilterMultiplicity` | App.tsx:44 | each card of the category occurs in the filtered view as often as in the catalog; any other card occurs 0 times |
| `Catalog.FilterIsSubsequence` | App.tsx:44 | the filtered view is a subsequence of the catalog |
| `Catalog.ActiveCardsIsCategoryView` | App.tsx:42-45 | for a category other than "All" the view is a subsequence of the catalog with exactly that category's cards, with multiplicity |
| `Session.Initial` | App.tsx:34-39 | the `useState` initial values: category "All", index 0, face-down, score 0, empty cache, status IDLE; valid for every catalog |
| `Session.CardAt` | App.tsx:47 | `activeCards[currentIndex]`: a card exactly when the index is within the view, and then the view's element at that index |
| `Session.CurrentCard` | App.tsx:47 | the card on screen is a catalog card of the selected category (any, for "All"), and a valid position in a non-empty view always shows a card |
| `Session.Cached` | App.tsx:58 | the truthiness test on `definitionsCache[id]` (also at line 78): true only for a stored id, and true whenever a fallback text is stored |
| `Session.LoadDefinition` | App.tsx:57-71 | no card, or a cached card: status SUCCESS, with no provider call and no cache change; an uncached card: one provider call for it, its id added to the cache with the provider's answer, every other entry unchanged, then SUCCESS; position, face, score and category unchanged |
| `Session.PrefetchNext` | App.tsx:74-83 | only the card at `currentIndex + 1`, only if it is in the view and uncached in the captured cache, gets one call and one new entry; otherwise nothing changes; `fetchStatus` never changes |
| `Session.CardEffect` | App.tsx:85-94 | ends in SUCCESS; the new calls are exactly the current card if uncached, then (face-down only) the next card if uncached in the captured cache; the new cache is the old one with the provider's answer written for each requested card, in that order, and nothing else changed; the current card has an entry afterwards; the cache only ever holds provider answers for catalog cards |
| `Session.Commit` | App.tsx:96 | when the effect's dependencies are unchanged the state is untouched; otherwise the card effect's outcome holds (the current card loaded, face-down the next card prefetched, nothing else in the cache touched) and it ends in SUCCESS; navigation fields never change |
| `Session.CanGoNext` | App.tsx:197 | `canGoNext` holds iff the view has a card at `currentIndex + 1` |
| `Session.CanGoPrev` | App.tsx:198 | `canGoPrev` holds iff the view has a card at `currentIndex - 1` |
| `Session.Total` | App.tsx:195 | the `total` passed to the controls equals `currentIndex + 1`, and it is positive whenever the index is non-negative |
| `Session.Mount` | App.tsx:34-94 | the first render leaves category "All", position 0 face-down, score 0, status SUCCESS and a valid position; the provider is asked for exactly the first two catalog cards, in order; the cache's keys are exactly the ids of those cards; the first card has an entry and the second holds its provider answer; the cache holds only provider answers |
| `Session.HandleNext` | App.tsx:98-103 | before the last card: position + 1, face-down, same category and score, SUCCESS; at the last card: no change at all; the cache only grows; a valid position stays valid |
| `Session.HandlePrev` | App.tsx:105-110 | after the first card: position - 1, face-down, same category and score, SUCCESS; at index 0: no change at all; the cache only grows; a valid position stays valid |
| `Session.HandleCorrect` | App.tsx:112-115 | score + 1 in every case; before the last card it moves as Next does; at the last card only the score changes |
| `Session.HandleIncorrect` | App.tsx:117-120 | score unchanged; it moves as Next does, and at the last card nothing changes |
| `Session.HandleReset` | App.tsx:122-126 | score 0, position 0, face-down, category kept; no cached entry is lost or rewritten; it ends in a valid position |
| `Session.ToggleFlip` | App.tsx:184 | the face is inverted, position, score and category are kept, status is SUCCESS; the effect runs with the new face (face-up it is exactly `loadDefinition`), so an uncached current card is requested and stored, and face-down the next card is prefetched; no other cache entry changes; the card on screen is loaded afterwards |
| `Session.SelectCategory` | App.tsx:50-53 | a new category gives position 0, face-down, score kept; the current category again changes nothing |
| `SessionProperties.CanGoNextIffNextMoves` | App.tsx:197 | `canGoNext` holds iff Next changes the position; when it is false Next changes nothing |
| `SessionProperties.CanGoPrevIffPrevMoves` | App.tsx:198 | `canGoPrev` holds iff Prev changes the position; when it is false Prev changes nothing |
| `SessionProperties.CorrectIsScoredNext` | App.tsx:112-115 | Correct equals Next applied to the session with one more point |
| `SessionProperties.ResetIsIdempotent` | App.tsx:122-126 | a Reset right after a Reset changes nothing |
| `SessionProperties.SelectCategoryIsIdempotent` | App.tsx:157 | re-selecting the current category is a no-op, and selecting a category twice equals selecting it once |
| `SessionProperties.StepPreserves` | App.tsx:98-126 | every event keeps the position valid, keeps truthy cache entries, never requests a cached id, keeps the card on screen loaded, and sets no status but SUCCESS |
| `SessionProperties.RunPreserves` | App.tsx:56-126 | the same holds over any sequence of events |
| `SessionProperties.ReachableStates` | App.tsx:34-126 | after mounting and any events: valid position, status SUCCESS (ERROR never occurs), the card on screen has a cache entry, and the cache holds only provider answers for catalog cards |
| `SessionProperties.NeverRefetchesCached` | App.tsx:58-80 | a truthy entry keeps its text forever, and its id is never sent to the provider again |
| `SessionProperties.NavigationStaysInDeck` | App.tsx:98-110 | after any sequence of Next/Prev, category and score are unchanged and `0 <= currentIndex <= len-1` when the view is non-empty |
| `SessionProperties.FailedFetchIsNeverRetried` | services/geminiService.ts:29-31 | after mounting and any events, when the provider fails for the card on screen, the cache holds the fallback text for its id and no later events request it again (for a catalog with unique ids) |
| `SessionProperties.FailedFetchStaysCached` | services/geminiService.ts:29-31 | in any state whose cache holds only provider answers and whose card on screen is loaded, a fallback answer for that card is what the cache holds, and no later events request its id (for a catalog with unique ids) |
| `SessionProperties.SingleCardViewScenario` | App.tsx:42-45 | with one Technology card and one Legal card, the Technology view is that one card; Next and Prev change nothing |
| `App.FlashcardApp.constructor` | App.tsx:34-39 | the fields of the first render, after the mount effects, equal `Session.Mount` |
| `App.FlashcardApp.LoadDefinition` | App.tsx:57-71 | sets LOADING, calls the provider and stores the answer, or short-cuts to SUCCESS; ends in the state `Session.LoadDefinition` gives |
| `App.FlashcardApp.PrefetchNext` | App.tsx:74-83 | updates the cache as `Session.PrefetchNext` gives |
| `App.FlashcardApp.RunCardEffect` | App.tsx:85-94 | updates the fields as `Session.CardEffect` gives |
| `App.FlashcardApp.Commit` | App.tsx:96 | runs the effect iff its dependencies changed, and records the new ones |
| `App.FlashcardApp.HandleNext` | App.tsx:98-103 | in-place update equal to `Session.HandleNext`; keeps the object invariant |
| `App.FlashcardApp.HandlePrev` | App.tsx:105-110 | in-place update equal to `Session.HandlePrev` |
| `App.FlashcardApp.HandleCorrect` | App.tsx:112-115 | increments the score, then runs `HandleNext`; equal to `Session.HandleCorrect` |
| `App.FlashcardApp.HandleIncorrect` | App.tsx:117-120 | runs `HandleNext`; equal to `Session.HandleIncorrect` |
| `App.FlashcardApp.HandleReset` | App.tsx:122-126 | in-place update equal to `Session.HandleReset` |
| `App.FlashcardApp.Flip` | App.tsx:184 | in-place update equal to `Session.ToggleFlip` |
| `App.FlashcardApp.SelectCategory` | App.tsx:157 | in-place update equal to `Session.SelectCategory`, including the category effect at App.tsx:50-53 |
| `App.FlashcardApp.Controls` | App.tsx:195-198 | returns `canGoNext` and `canGoPrev` as the session defines them, and `total == currentIndex + 1 > 0` |

## Left out

- Rendering: the JSX, the Tailwind classes, `CategoryIcon`, and the `Flashcard` and
  `GameControls` components (App.tsx:20-31, 128-210). These are presentation. The
  progress percentage in `GameControls` needs floating-point division and
  `Math.round`; it is not modelled.
- The AI service: `services/geminiService.ts` is the SDK call, network I/O and API
  key configuration. It becomes the `provider` parameter. Only its two fallback
  texts appear, as the constants `UNAVAILABLE` and `UNABLE_TO_LOAD`. The provider
  is a function, so it gives the same answer every time for the same
  (term, category); the real service may not.
- Timing and concurrency. Fetches complete at once, and the 200 ms animation
  delay (App.tsx:101, 108) belongs to the transition that starts it. The model
  therefore does not capture these behaviours:
  - Two Next clicks within 200 ms at the second-to-last card both pass the guard.
    That can move the index past the last card.
  - The LOADING status is never visible between events.
    `FlashcardApp.LoadDefinition` sets it and then overwrites it.
  - Two Prev clicks within 200 ms at index 1 both pass the guard and take the
    index to -1. The page then shows "Card 0 of N" and `total` is 0, against
    the positive `total` that `Controls` states. At -2 `prefetchNext` reads
    `activeCards[-1].id` (App.tsx:77-78) and throws.
  - Duplicate in-flight fetches for one id cannot overlap. In the app they can:
    the mount prefetch of the second card may still be pending when Next moves
    to it and fetches it again, and the later answer replaces the earlier one.
  - Writes from the load and the prefetch always land in a fixed order: load
    first.
  - A pending Next or Prev timeout (App.tsx:101, 108) cannot fire after a Reset
    or a category switch. In the app it can: in "All", click Next, then within
    200 ms pick a category with one card. The category effect sets the index to
    0, and the timeout then sets it to 1. No card is shown, the page reads
    "Card 2 of 1", and Prev is enabled. The valid position that
    `ReachableStates` proves holds of the model only.
- NeverRefetchesCached: that a truthy entry is never rewritten holds of the
  model only, because in the model no two fetches for one id overlap (see
  "Timing and concurrency" above).
- Card identity: React compares `currentCard` by reference, and the model compares
  `Term` values. The two differ only when the catalog holds two equal records.
- JavaScript objects inherit keys such as `constructor`. Looking one of them up in
  `definitionsCache` is truthy even though nothing was stored. The model counts
  only keys that were stored.
- JavaScript numbers are doubles. The model's score and index are unbounded
  integers, which agree with doubles below 2^53.
- The `GameState` interface (types.ts:8-14) is never used. `Term.definition`
  (types.ts:5) is never read by App.
- `constants.ts` is not part of this model. The catalog's contents, and
  whether its ids are unique, are left to the `catalog` parameter.
