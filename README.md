# Fermi Poker: category tree and game session, in Dafny

This project models the logic of the Fermi Poker question app in Dafny and proves properties of it. It covers two parts.

- **The category tree** (`src/data/questionSets.js`). `createQuestionSets` declares a tree of categories. `flattenCategories` gathers a root's questions. The synthetic `general` root receives every other root's flattened list.
- **The game session** (`src/components/FermiPokerGame.js`). The component's state is a Dafny class, `Game.FermiPokerGame`, and each event handler is a method. The methods are:
  - the question walk `getCurrentQuestions` and the category walk `changeCategory`;
  - the shuffle cache and the Fisher–Yates shuffle `shuffleArray`;
  - the circular cursor `nextQuestion`;
  - the card gating `startFlip`;
  - the skip dialog;
  - the category-info banner;
  - the name and description lookups.

Files and modules:

- `tree.dfy` (module `Tree`): nodes, questions, the keyed lookup `Find`, and the `/`-joined cache key `Join`.
- `question_sets.dfy` (module `QuestionSets`): `flattenCategories` and `createQuestionSets`. Each loop is proved equal to a left fold, and the shipped tree is declared as data.
- `shuffle.dfy` (module `Shuffle`): `shuffleArray` on an array, proved equal to a recursive specification and to be a permutation.
- `navigation.dfy` (module `Navigation`): the four path walks as functions, and lemmas on how they relate.
- `game.dfy` (module `Game`): the session class, plus functions for the cursor, the reveal state and the cache update.

Conventions of the model:

- **Throwing.** JavaScript's `TypeError` on reading a property of `undefined` is the `Outcome.TypeError` value.
  - A handler that throws changes no state, because every setter in the source comes after its throw points.
  - A lookup that finds nothing gives `Option.None`.
  - A present `questions` or `subcategories` array is `Some`, even when empty, since an empty array is truthy.
- **Randomness.** `Math.random` is replaced by an oracle `pick: nat -> nat` with `pick(i) <= i`. It gives the index `j` chosen at step `i` of the shuffle.
- **Plain paths.** A plain path is one whose keys contain no `/`. Joining such a path into a cache key loses nothing.
- **The cursor.** `currentQuestionIndex` is `At(i)` or `NaN`, because `(i + 1) % 0` is `NaN` in JavaScript. An empty list is reachable through the component's `initialCategoryPath` prop or `changeCategory`: the path `history/ww2` names a node without questions.
- **Reveals.** Each reveal happens at once, without its animation delay.

## Behaviour worth noting

- **Flattening.** `flattenCategories` looks only two levels below a root.
  - For each subcategory it takes the nested subcategories' questions before the subcategory's own.
  - For a parent it ignores the parent's own questions.
- **Reveals.** There are three card flags, gated pairwise: hint 2 needs hint 1, and the answer needs both hints.
- **Advancing an empty list.** `nextQuestion` on an empty list sets the index to `NaN`, and it stays `NaN` until the category changes.
- **Unmatched keys.**
  - Below a node that has a `subcategories` array, a key that matches no child makes both question walks throw (`MissingKeyThrows`).
  - Below a node without that array, a key is ignored by every walk. `changeCategory` stays on that node, and `getCurrentQuestions` returns that node's questions when it has any.
  - The name and description lookups skip any unmatched key, then fall back: the name to the root's, the description to the deepest node reached.

## Model

| member | source | states |
|---|---|---|
| Tree.Find | src/components/FermiPokerGame.js:44 | The result is `None` exactly when no node has the key; otherwise it is one of the nodes and has the key. |
| Tree.FindIsFirst | src/components/FermiPokerGame.js:44 | The node found is the first one with the key: no earlier node has it. |
| Tree.SplitJoin | src/components/FermiPokerGame.js:244 | On a path whose keys contain no `/`, splitting the joined cache key gives the path back. |
| Tree.JoinInjective | src/components/FermiPokerGame.js:244 | Two such paths share a cache key only if they are equal. |
| QuestionSets.AppendNested | src/data/questionSets.js:371-375 | The inner loop appends the own questions of every nested subcategory, in order. |
| QuestionSets.AppendSubcategory | src/data/questionSets.js:370-379 | One subcategory contributes its nested subcategories' questions first, then its own. |
| QuestionSets.FlattenCategories | src/data/questionSets.js:365-385 | The loops compute the two-level fold `Flatten`. A node that is not a parent, or has no `subcategories`, gives exactly its own questions, or `[]` when it has none. |
| QuestionSets.FlattenLength | src/data/questionSets.js:368-380 | For a parent, the flattened length is the sum of the question counts of its subcategories and of their direct children. |
| QuestionSets.FlattenIgnoresDeeperLevels | src/data/questionSets.js:368-380 | Cutting off everything three or more levels below the node leaves the flattened list unchanged. |
| QuestionSets.SubcategoryQuestionsAppend | src/data/questionSets.js:369-379 | Flattening over two lists of subcategories joined is the two results joined. |
| QuestionSets.DirectQuestionsAppend | src/data/questionSets.js:371-375 | The nested-question fold distributes over joined lists. |
| QuestionSets.CollectAllQuestions | src/data/questionSets.js:388-394 | The loop over the roots gives every root's flattened list except `general`'s, in root order. |
| QuestionSets.HistoryFlattened | src/data/questionSets.js:10-211 | The history root flattens its five subcategories in order, with World War II replaced by its three nested subcategories. |
| QuestionSets.HistoryNumbered | src/data/questionSets.js:10-211 | History flattens to 15 questions, numbered 1 to 15 in declaration order. |
| QuestionSets.EconomicsNumbered | src/data/questionSets.js:246-336 | Economics flattens to 7 questions, numbered 19 to 25 in declaration order. |
| QuestionSets.ShippedFlattenedRoots | src/data/questionSets.js:10-361 | The four roots flatten to 15, 3, 7 and 2 questions, each in declaration order. |
| QuestionSets.ShippedGeneral | src/data/questionSets.js:3-397 | `general` receives the four flattened roots in insertion order: 27 questions, numbered 1 to 27, no question twice. |
| QuestionSets.CreateQuestionSets | src/data/questionSets.js:2-400 | Only `general.questions` changes. Every other root is returned as declared, and `general` holds 27 questions. |
| Shuffle.ShuffleArray | src/components/FermiPokerGame.js:84-91 | The in-place swap loop on the copied array returns `Shuffled(items, pick)`, a permutation of the input of the same length. The input, a value, is untouched. |
| Shuffle.ShuffledIsPermutation | src/components/FermiPokerGame.js:84-91 | For every oracle whose choices satisfy `0 <= j <= i`, the shuffle has the input's length and multiset. |
| Shuffle.SwapPermutes | src/components/FermiPokerGame.js:88 | One swap preserves the multiset. |
| Shuffle.ShuffledIdentity | src/components/FermiPokerGame.js:86-89 | An oracle that always picks `j = i` leaves the order unchanged. |
| Navigation.SameKeyChild | src/components/FermiPokerGame.js:50-55 | The last-step check succeeds exactly when the node's first child whose key is the path's last key has a `questions` array. It then yields that child, the one `Find` returns, which is among the node's subcategories. |
| Navigation.WalksAgree | src/components/FermiPokerGame.js:39-59 | With the key not cached, `getCurrentQuestions` gives the questions of the node `changeCategory` settles on, or `[]`. Both walks throw on the same paths. |
| Navigation.TargetOnValidPath | src/components/FermiPokerGame.js:225-242 | On a path whose every key exists, `changeCategory` settles on the named node, or on its same-key child that has questions. |
| Navigation.CurrentQuestionsOnValidPath | src/components/FermiPokerGame.js:30-60 | A cached list is returned verbatim. Otherwise, on a path whose keys all exist, the result is the resolved node's `questions`, or `[]` when it has none. |
| Navigation.MissingKeyThrows | src/components/FermiPokerGame.js:230-236 | A key missing from a node's `subcategories` makes the `changeCategory` walk throw, whatever keys follow it, none included. |
| Navigation.LookupOnValidPath | src/components/FermiPokerGame.js:63-121 | On a path whose every key exists, the name and description lookups give the named node's name and description. |
| Navigation.LookupFallbacks | src/components/FermiPokerGame.js:63-121 | When the last key is missing, the name falls back to the root's name and the description to the deepest node reached. |
| Game.NextIndex | src/components/FermiPokerGame.js:218-223 | The next index is a number exactly when the old one is a number and the list is not empty, and then it lies in `[0, n)`. |
| Game.AdvanceSteps | src/components/FermiPokerGame.js:219 | `k` calls of `nextQuestion` from `i < n` land on `(i + k) mod n`. |
| Game.AdvanceCycles | src/components/FermiPokerGame.js:219 | `n` calls of `nextQuestion` bring the index back to where it started. |
| Game.Flip | src/components/FermiPokerGame.js:130-179 | The rules of `startFlip`: <ul><li>Hint 2 is refused exactly when hint 1 is down; the answer exactly when a hint is down.</li><li>A refused or repeated flip changes nothing.</li><li>A flip raises exactly that card and adds 1 to `hintsUsed` or `questionsAnswered`.</li><li>The reveal order is preserved.</li></ul> |
| Game.FlipsKeepGatingAndCount | src/components/FermiPokerGame.js:130-179 | After any sequence of flips from face down, hint 2 is never up without hint 1, nor the answer without both hints. Each counter grew by the cards of its kind now face up. |
| Game.FlipTwiceIsOnce | src/components/FermiPokerGame.js:155-158 | Flipping a card already face up reports it and changes nothing. |
| Game.CacheAfter | src/components/FermiPokerGame.js:244-253 | The cache update of `changeCategory` never replaces or drops an entry, and adds at most the new path's key. |
| Game.ChangeRenders | src/components/FermiPokerGame.js:244-260 | After a `changeCategory` that does not throw, the new current list renders without throwing. |
| Game.RenderedIsShuffle | src/components/FermiPokerGame.js:278-287 | The first render's shuffle is a permutation of the questions of the node `changeCategory` would settle on. |
| Game.FermiPokerGame.constructor | src/components/FermiPokerGame.js:4-23 | The initial state: <ul><li>the path is the given one or `['general']`;</li><li>index 0, every card down, counters 0;</li><li>no dialog, nothing seen, an empty cache, so every cache entry has a plain path;</li><li>the class invariant holds.</li></ul> |
| Game.FermiPokerGame.InitialShuffle | src/components/FermiPokerGame.js:278-287 | When the first list is not empty and not cached, the cache becomes exactly its shuffle. The invariant is kept, and on a plain current path every entry keeps a plain path. |
| Game.FermiPokerGame.GetCurrentQuestions | src/components/FermiPokerGame.js:30-60 | The loop, with its early returns, computes `CurrentQuestionsOf`. |
| Game.FermiPokerGame.CurrentQuestion | src/components/FermiPokerGame.js:94 | A question is on screen exactly when the index is a number inside the current list, and it is then one of that list's questions; otherwise the screen gets the empty object. |
| Game.FermiPokerGame.CurrentQuestionShown | src/components/FermiPokerGame.js:93-94 | Under the invariant, with a non-empty list and a numeric index, a question is on screen. |
| Game.FermiPokerGame.CurrentOrderIsShuffle | src/components/FermiPokerGame.js:30-36 | When every cache entry was written by a plain path, the cached order shown for a plain current path is a permutation of the questions of the node that path names. The constructor, `InitialShuffle` and `ChangeCategory` keep all entries plain while the paths used are plain. |
| Game.FermiPokerGame.ShouldShowCategoryInfo | src/components/FermiPokerGame.js:95-97 | The banner predicate itself. Its behaviour is stated by the handlers: after a successful `ChangeCategory` it shows exactly when the new category's key has not been seen, and after `CloseCategoryInfo` it is off. |
| Game.FermiPokerGame.CloseCategoryInfo | src/components/FermiPokerGame.js:211-216 | The current key becomes seen, so the banner is no longer shown. |
| Game.FermiPokerGame.GetCurrentCategoryName | src/components/FermiPokerGame.js:100-121 | The loop computes `CategoryName`, whose fallback is the root's name. |
| Game.FermiPokerGame.GetCurrentCategoryDescription | src/components/FermiPokerGame.js:63-81 | The loop computes `CategoryDescription`, whose fallback is the deepest node reached. |
| Game.FermiPokerGame.StartFlip | src/components/FermiPokerGame.js:130-188 | The new reveal state and the result are those of `Flip`. The invariant is kept, including the reveal order. |
| Game.FermiPokerGame.NextQuestion | src/components/FermiPokerGame.js:218-223 | The index becomes `NextIndex` of the old one on the current list, and every card goes face down. The counters and the cache are not touched. |
| Game.FermiPokerGame.HandleSkipClick | src/components/FermiPokerGame.js:190-196 | With confirmation switched off, it advances like `nextQuestion`. Otherwise it only opens the dialog, and the index and cards stay. |
| Game.FermiPokerGame.ConfirmSkip | src/components/FermiPokerGame.js:198-205 | It closes the dialog and advances. With "don't show again", later skips no longer ask. |
| Game.FermiPokerGame.CancelSkip | src/components/FermiPokerGame.js:207-209 | It closes the dialog and touches nothing else. |
| Game.FermiPokerGame.SetSkipConfirmation | src/components/FermiPokerGame.js:528 | The checkbox sets the flag to its value. |
| Game.FermiPokerGame.WalkToCategory | src/components/FermiPokerGame.js:227-242 | The walk loop computes `Target`. |
| Game.FermiPokerGame.ShuffleIntoCache | src/components/FermiPokerGame.js:244-253 | <ul><li>An absent key is filled with a shuffle of the node's questions.</li><li>Reading the questions of a missing node throws.</li><li>The cache stays sound, and stays plain when the path is plain.</li><li>The new path renders.</li></ul> |
| Game.FermiPokerGame.ShowCategory | src/components/FermiPokerGame.js:255-258 | The path is the argument, the index is 0, and every card is down. The banner then shows exactly when the new key has not been seen. |
| Game.FermiPokerGame.SwitchCategory | src/components/FermiPokerGame.js:244-259 | <ul><li>Given the node the walk settled on, it fails exactly when the cache check reads from `undefined`, and then nothing changes.</li><li>Otherwise it gives the new screen, the `CacheAfter` cache, the banner for an unseen key, and the invariant.</li></ul> |
| Game.FermiPokerGame.ChangeCategory | src/components/FermiPokerGame.js:225-260 | <ul><li>It throws exactly where the walk or the cache check reads from `undefined`, and then nothing changes.</li><li>Otherwise: the path is the argument, the index is 0, every card is down, and the cache is `CacheAfter`.</li><li>It never replaces an entry, so revisiting a category shows the same order.</li><li>The banner then shows exactly when the new category's key has not been seen.</li><li>The counters are not touched, the invariant is kept, and a plain path keeps every cache entry plain.</li></ul> |

The class invariant `Valid()` holds after the constructor and is kept by every handler. It combines three parts:

- **Reveal order.** Hint 2 is never up without hint 1, nor the answer without both hints.
- **A sound cache.** Every entry is a permutation of the questions of the node `changeCategory` settled on for the path that wrote it.
- **A renderable screen.** The current list renders without throwing, and the index is `NaN`, 0, or inside that list.

## Left out

- JSX rendering is not modelled, including `renderCategoryItems` and the menu. It is presentation only. For the same reason these UI flags are left out:
  - `menuOpen` (closed at the end of `changeCategory`);
  - `expandedCategories` and `toggleCategoryExpanded`;
  - `flippingElements`;
  - `showHintError` and `showAnswerError`, which appear as `FlipResult` values instead;
  - `darkMode`.
- The `setTimeout` delays for the flip animation and the error messages are left out: timing, not logic. A reveal is one atomic update. A second click inside the 500 ms window, and the stale `hintsUsed + 1` closures it could produce, are therefore not modelled.
- The reveal order invariant (`Gated`, inside `RevealValid`) holds only in this atomic model. In the source, a flip's pending timeout (lines 168-178) can fire after a skip or a `changeCategory` made within its 500 ms window. It then raises a card on the next question, so `answerRevealed` can be true while both hints are down.
- The document `mousedown` listener (lines 263-275) is DOM plumbing, so it is left out.
- `Math.random` is a foreign call. It is replaced by the `pick` oracle.
- `showCategoryInfo` is never set to `false` by the source. It is always true, so `ShouldShowCategoryInfo` omits it.
- `returnToCategories` is left out: it is a callback into the app's routing.
- The question prose is not modelled: prompts, hints, answers, sources and category descriptions. A question is its number and its category label, and descriptions are empty strings in the shipped data. This is because only the tree shape and the order matter.
- Three plain JavaScript objects are modelled by Dafny values: the root lookup `questionSets[key]` by a search of the roots by key, the cache `shuffledQuestions` by a Dafny `map`, and the seen-categories object `categoryInfoSeen` by a `set`. This agrees with JavaScript only for keys that meet three conditions:
  - they are not inherited `Object.prototype` names such as `constructor`, which a JavaScript lookup finds;
  - they are not `"undefined"`;
  - they are not integer-like, since `for…in` lists integer-like keys first rather than in insertion order.

  The shipped tree has no such keys. An empty path reads `questionSets[undefined]`, which is modelled as "no root".
- `Game.FermiPokerGame.constructor`: it requires that the first render does not throw. The source component would itself throw during that render.
- `Game.FermiPokerGame.CurrentOrderIsShuffle`: it is stated for a plain current path and a cache whose entries were all written by plain paths. A plain path is one whose keys contain no `/`. Two different paths with a `/` inside a key could share a cache key, and the cache would then show one path's order for the other.
- `Game.FlipsKeepGatingAndCount`: it starts from a state with every card face down. That is the state after the constructor, `nextQuestion` and `changeCategory`.
- `Tree.SplitJoin`: `Split` does not occur in the source. It only states what `Join` keeps.
- `src/App.js`, the intro, rules and category-selection screens, and the static intro text are user interface or copy. They are not part of this model.
