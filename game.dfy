/** The state of the `FermiPokerGame` component and its event handlers. Each
    handler is one atomic update of every state setter it calls; the
    animation timers that delay a reveal are not modelled (a reveal happens
    at once). */
module Game {
  import opened Tree
  import opened Navigation
  import opened Shuffle

  /** `currentQuestionIndex`: a count, or `NaN`, which `(i + 1) % 0` gives
      when the current list is empty. */
  datatype Index = At(i: nat) | NaN

  /** The index `nextQuestion` moves to in a list of `count` questions. */
  function NextIndex(index: Index, count: nat): (r: Index)
    ensures r.At? <==> index.At? && count > 0
    ensures r.At? ==> r.i < count
  {
    if index.NaN? || count == 0 then NaN else At((index.i + 1) % count)
  }

  /** The index after `k` calls of `nextQuestion` on a list of `count`. */
  function Advance(index: Index, count: nat, k: nat): Index
  {
    if k == 0 then index else NextIndex(Advance(index, count, k - 1), count)
  }

  lemma MulMono(d: int, n: int)
    requires n > 0
    ensures d >= 1 ==> d * n >= n
    ensures d <= -1 ==> d * n <= -n
  {
  }

  /** The remainder is the one `r` in `[0, n)` with `a == q * n + r`. */
  lemma ModUnique(a: int, n: int, q: int, r: int)
    requires n > 0 && 0 <= r < n && a == q * n + r
    ensures a % n == r
  {
    var q', r' := a / n, a % n;
    assert a == q' * n + r';
    assert (q - q') * n == r' - r;
    MulMono(q - q', n);
  }

  lemma ModSucc(a: nat, n: nat)
    requires n > 0
    ensures (a % n + 1) % n == (a + 1) % n
  {
    var q, r := a / n, a % n;
    assert a == q * n + r;
    if r + 1 < n {
      ModUnique(a + 1, n, q, r + 1);
      ModUnique(r + 1, n, 0, r + 1);
    } else {
      ModUnique(a + 1, n, q + 1, 0);
      ModUnique(n, n, 1, 0);
    }
  }

  /** `k` calls of `nextQuestion` from index `i` land on `(i + k) mod count`. */
  lemma {:induction false} AdvanceSteps(i: nat, count: nat, k: nat)
    requires i < count
    ensures Advance(At(i), count, k) == At((i + k) % count)
  {
    if k > 0 {
      AdvanceSteps(i, count, k - 1);
      ModSucc(i + k - 1, count);
    }
  }

  /** With `count > 0` questions, `count` calls of `nextQuestion` bring the
      index back to where it started. */
  lemma {:induction false} AdvanceCycles(i: nat, count: nat)
    requires i < count
    ensures Advance(At(i), count, count) == At(i)
  {
    AdvanceSteps(i, count, count);
    ModUnique(i + count, count, 1, i);
  }

  /** The three cards that can be flipped. */
  datatype Card = Hint0 | Hint1 | Answer

  /** What `startFlip` did: refused the second hint before the first, refused
      the answer before both hints, found the card already face up, or
      flipped it. */
  datatype FlipResult = HintOrderError | AnswerOrderError | AlreadyRevealed | Flipped

  /** `revealedHints[0]`, `revealedHints[1]`, `answerRevealed` and the two
      counters. */
  datatype Reveal = Reveal(hint0: bool, hint1: bool, answer: bool, hintsUsed: nat, questionsAnswered: nat)

  function IsRevealed(s: Reveal, card: Card): bool
  {
    match card
    case Hint0 => s.hint0
    case Hint1 => s.hint1
    case Answer => s.answer
  }

  /** The second hint is never up without the first, nor the answer without
      both hints. */
  predicate Gated(s: Reveal)
  {
    (s.hint1 ==> s.hint0) && (s.answer ==> s.hint0 && s.hint1)
  }

  /** `startFlip(card)` on the reveal state `s`. */
  function Flip(s: Reveal, card: Card): (r: (Reveal, FlipResult))
    ensures r.1 == HintOrderError <==> card == Hint1 && !s.hint0
    ensures r.1 == AnswerOrderError <==> card == Answer && !(s.hint0 && s.hint1)
    ensures r.1 == Flipped <==>
      !IsRevealed(s, card) && (card == Hint1 ==> s.hint0) && (card == Answer ==> s.hint0 && s.hint1)
    ensures r.1 != Flipped ==> r.0 == s
    ensures r.1 == Flipped ==> IsRevealed(r.0, card)
    ensures forall c: Card | c != card :: IsRevealed(r.0, c) == IsRevealed(s, c)
    ensures r.0.hintsUsed == s.hintsUsed + (if r.1 == Flipped && card != Answer then 1 else 0)
    ensures r.0.questionsAnswered == s.questionsAnswered + (if r.1 == Flipped && card == Answer then 1 else 0)
    ensures Gated(s) ==> Gated(r.0)
  {
    if card == Hint1 && !s.hint0 then (s, HintOrderError)
    else if card == Answer && !(s.hint0 && s.hint1) then (s, AnswerOrderError)
    else if IsRevealed(s, card) then (s, AlreadyRevealed)
    else match card
      case Hint0 => (s.(hint0 := true, hintsUsed := s.hintsUsed + 1), Flipped)
      case Hint1 => (s.(hint1 := true, hintsUsed := s.hintsUsed + 1), Flipped)
      case Answer => (s.(answer := true, questionsAnswered := s.questionsAnswered + 1), Flipped)
  }

  /** The reveal state after flipping `cards` in order. */
  function FlipAll(s: Reveal, cards: seq<Card>): Reveal
  {
    if |cards| == 0 then s else Flip(FlipAll(s, cards[..|cards| - 1]), cards[|cards| - 1]).0
  }

  function Ones(b: bool): nat
  {
    if b then 1 else 0
  }

  /** Within one question, starting with every card face down, no sequence
      of flips shows the second hint before the first or the answer before
      both hints, and the counters grew by exactly the cards now face up. */
  lemma {:induction false} FlipsKeepGatingAndCount(s: Reveal, cards: seq<Card>)
    requires !s.hint0 && !s.hint1 && !s.answer
    ensures Gated(FlipAll(s, cards))
    ensures FlipAll(s, cards).hintsUsed
      == s.hintsUsed + Ones(FlipAll(s, cards).hint0) + Ones(FlipAll(s, cards).hint1)
    ensures FlipAll(s, cards).questionsAnswered == s.questionsAnswered + Ones(FlipAll(s, cards).answer)
  {
    if |cards| > 0 {
      FlipsKeepGatingAndCount(s, cards[..|cards| - 1]);
    }
  }

  /** Flipping a card a second time changes nothing. */
  lemma FlipTwiceIsOnce(s: Reveal, card: Card)
    requires Flip(s, card).1 == Flipped
    ensures Flip(Flip(s, card).0, card) == (Flip(s, card).0, AlreadyRevealed)
  {
  }

  /** The cache entry holds a permutation of the questions of the category
      `changeCategory` settles on for `path`. */
  ghost predicate IsShuffleOf(roots: seq<Node>, path: seq<string>, order: seq<Question>)
  {
    match Target(roots, path)
    case Value(Some(n)) => n.questions.Some? && multiset(order) == multiset(n.questions.value)
    case _ => false
  }

  /** A shuffle of a non-empty list rendered for an uncached path is a
      shuffle of the questions of the category `changeCategory` would settle
      on for that path. */
  lemma RenderedIsShuffle(roots: seq<Node>, cache: map<string, seq<Question>>, path: seq<string>,
                          rendered: seq<Question>, order: seq<Question>)
    requires Join(path) !in cache && CurrentQuestionsOf(roots, cache, path) == Value(rendered)
    requires |rendered| > 0 && multiset(order) == multiset(rendered)
    ensures IsShuffleOf(roots, path, order)
  {
    WalksAgree(roots, cache, path);
  }

  /** What `changeCategory(path)` does with the cache: throws (`TypeError`),
      leaves it (`None`), or shuffles these questions into it. */
  function ToShuffle(roots: seq<Node>, cache: map<string, seq<Question>>, path: seq<string>)
    : Outcome<Option<seq<Question>>>
  {
    match Target(roots, path)
    case TypeError => TypeError
    case Value(None) => if Join(path) in cache then Value(None) else TypeError
    case Value(Some(n)) =>
      if Join(path) !in cache && n.questions.Some? then Value(Some(n.questions.value)) else Value(None)
  }

  /** The cache after a `changeCategory(path)` that did not throw. */
  function CacheAfter(roots: seq<Node>, cache: map<string, seq<Question>>, path: seq<string>, pick: nat -> nat)
    : (after: map<string, seq<Question>>)
    requires ValidPick(pick)
    ensures forall k | k in cache :: k in after && after[k] == cache[k]
    ensures after.Keys <= cache.Keys + {Join(path)}
  {
    match ToShuffle(roots, cache, path)
    case Value(Some(qs)) => cache[Join(path) := Shuffled(qs, pick)]
    case _ => cache
  }

  /** A `changeCategory(path)` that does not throw leaves a current list
      that renders: either the cached order or the questions of the category
      the walk settled on. */
  lemma ChangeRenders(roots: seq<Node>, cache: map<string, seq<Question>>, path: seq<string>, pick: nat -> nat)
    requires ValidPick(pick) && ToShuffle(roots, cache, path).Value?
    ensures CurrentQuestionsOf(roots, CacheAfter(roots, cache, path, pick), path).Value?
  {
    var after := CacheAfter(roots, cache, path, pick);
    if Join(path) !in after {
      WalksAgree(roots, after, path);
    }
  }

  /** `initialCategoryPath || ['general']` */
  function InitialPath(initialCategoryPath: Option<seq<string>>): seq<string>
  {
    match initialCategoryPath
    case Some(p) => p
    case None => ["general"]
  }

  class FermiPokerGame {
    const questionSets: seq<Node>
    var currentCategoryPath: seq<string>
    var currentQuestionIndex: Index
    var revealedHints: seq<bool>
    var answerRevealed: bool
    var hintsUsed: nat
    var questionsAnswered: nat
    var showSkipConfirm: bool
    var skipConfirmation: bool
    var categoryInfoSeen: set<string>
    var shuffledQuestions: map<string, seq<Question>>
    /** For each cache key, the path whose `changeCategory` (or the first
        render) wrote it. */
    ghost var shuffledFrom: map<string, seq<string>>

    function Reveals(): Reveal
      reads this`revealedHints, this`answerRevealed, this`hintsUsed, this`questionsAnswered
      requires |revealedHints| == 2
    {
      Reveal(revealedHints[0], revealedHints[1], answerRevealed, hintsUsed, questionsAnswered)
    }

    /** `currentQuestions`, as computed on every render. */
    function CurrentQuestions(): Outcome<seq<Question>>
      reads this`shuffledQuestions, this`currentCategoryPath
    {
      CurrentQuestionsOf(questionSets, shuffledQuestions, currentCategoryPath)
    }

    ghost predicate CacheSound()
      reads this`shuffledQuestions, this`shuffledFrom
    {
      shuffledFrom.Keys == shuffledQuestions.Keys &&
      forall k | k in shuffledQuestions ::
        Join(shuffledFrom[k]) == k && IsShuffleOf(questionSets, shuffledFrom[k], shuffledQuestions[k])
    }

    /** Two hint flags, shown in order. */
    predicate RevealValid()
      reads this`revealedHints, this`answerRevealed, this`hintsUsed, this`questionsAnswered
    {
      |revealedHints| == 2 && Gated(Reveals())
    }

    /** The current list renders without throwing, and the index is `NaN`,
        0, or inside it. */
    predicate ScreenValid()
      reads this`shuffledQuestions, this`currentCategoryPath, this`currentQuestionIndex
    {
      && CurrentQuestions().Value?
      && (currentQuestionIndex.At? ==>
            currentQuestionIndex.i == 0 || currentQuestionIndex.i < |CurrentQuestions().v|)
    }

    /** Every path that wrote a cache entry is free of `/` inside its keys. */
    ghost predicate PlainCache()
      reads this`shuffledFrom
    {
      forall k | k in shuffledFrom :: Plain(shuffledFrom[k])
    }

    /** The invariant every handler keeps. */
    ghost predicate Valid()
      reads this`revealedHints, this`answerRevealed, this`hintsUsed, this`questionsAnswered,
            this`shuffledQuestions, this`shuffledFrom, this`currentCategoryPath, this`currentQuestionIndex
    {
      RevealValid() && CacheSound() && ScreenValid()
    }

    /** The component's initial state: the given path or `['general']`, the
        first question, every card face down, an empty cache. The shuffle of
        the first category is the mount effect, `InitialShuffle`. */
    constructor (questionSets: seq<Node>, initialCategoryPath: Option<seq<string>>)
      requires CurrentQuestionsOf(questionSets, map[], InitialPath(initialCategoryPath)).Value?
      ensures Valid()
      ensures this.questionSets == questionSets
      ensures currentCategoryPath == InitialPath(initialCategoryPath)
      ensures currentQuestionIndex == At(0) && revealedHints == [false, false] && !answerRevealed
      ensures hintsUsed == 0 && questionsAnswered == 0
      ensures !showSkipConfirm && !skipConfirmation && categoryInfoSeen == {}
      ensures shuffledQuestions == map[] && PlainCache()
    {
      this.questionSets := questionSets;
      currentCategoryPath := InitialPath(initialCategoryPath);
      currentQuestionIndex := At(0);
      revealedHints := [false, false];
      answerRevealed := false;
      hintsUsed := 0;
      questionsAnswered := 0;
      showSkipConfirm := false;
      skipConfirmation := false;
      categoryInfoSeen := {};
      shuffledQuestions := map[];
      shuffledFrom := map[];
    }

    /** The effect run once after the first render: when the current list is
        not empty and not cached, the cache becomes exactly its shuffle. */
    method InitialShuffle(pick: nat -> nat)
      requires Valid() && ValidPick(pick)
      modifies this`shuffledQuestions, this`shuffledFrom
      ensures Valid()
      ensures var key, first := Join(currentCategoryPath), old(CurrentQuestions()).v;
        shuffledQuestions ==
          if |first| > 0 && key !in old(shuffledQuestions) then map[key := Shuffled(first, pick)]
          else old(shuffledQuestions)
      ensures old(PlainCache()) && Plain(currentCategoryPath) ==> PlainCache()
    {
      var initialCategoryKey := Join(currentCategoryPath);
      var initialQuestions := GetCurrentQuestions();
      if |initialQuestions.v| > 0 && initialCategoryKey !in shuffledQuestions {
        var shuffled := ShuffleArray(initialQuestions.v, pick);
        RenderedIsShuffle(questionSets, shuffledQuestions, currentCategoryPath, initialQuestions.v, shuffled);
        shuffledQuestions := map[initialCategoryKey := shuffled];
        shuffledFrom := map[initialCategoryKey := currentCategoryPath];
        assert CacheSound();
        assert CurrentQuestions() == Value(shuffled);
      }
    }

    /** `getCurrentQuestions`: the cached order for the joined path, or else
        the walk down the tree. */
    method GetCurrentQuestions() returns (questions: Outcome<seq<Question>>)
      ensures questions == CurrentQuestionsOf(questionSets, shuffledQuestions, currentCategoryPath)
    {
      var path := currentCategoryPath;
      var categoryKey := Join(path);
      if categoryKey in shuffledQuestions {
        return Value(shuffledQuestions[categoryKey]);
      }
      if |path| == 0 {
        return TypeError;
      }
      var category := RootOf(questionSets, path);
      var i := 1;
      while i < |path|
        invariant 1 <= i <= |path|
        invariant QuestionsFrom(category, path, i) == QuestionsFrom(RootOf(questionSets, path), path, 1)
      {
        if category.None? {
          return TypeError;
        }
        var node := category.value;
        if node.subcategories.Some? {
          category := Find(node.subcategories.value, path[i]);
        } else if node.questions.Some? {
          return Value(node.questions.value);
        }
        if i == |path| - 1 {
          if category.None? {
            return TypeError;
          }
          if category.value.subcategories.Some? {
            var subCategory := Find(category.value.subcategories.value, path[i]);
            if subCategory.Some? && subCategory.value.questions.Some? {
              return Value(subCategory.value.questions.value);
            }
          }
        }
        i := i + 1;
      }
      if category.None? {
        return TypeError;
      }
      return Value(QuestionsOr(category.value));
    }

    /** The question on screen: `currentQuestions[currentQuestionIndex]`, or
        nothing when the index is outside the list. */
    function CurrentQuestion(): (q: Option<Question>)
      reads this`shuffledQuestions, this`currentCategoryPath, this`currentQuestionIndex
      requires CurrentQuestions().Value?
      ensures q.Some? <==> currentQuestionIndex.At? && currentQuestionIndex.i < |CurrentQuestions().v|
      ensures q.Some? ==> q.value in CurrentQuestions().v
    {
      var qs := CurrentQuestions().v;
      if currentQuestionIndex.At? && currentQuestionIndex.i < |qs| then Some(qs[currentQuestionIndex.i])
      else None
    }

    /** While the current list has questions and the index is a number, a
        question is on screen. */
    lemma CurrentQuestionShown()
      requires Valid() && |CurrentQuestions().v| > 0 && currentQuestionIndex.At?
      ensures CurrentQuestion().Some?
    {
    }

    /** The cached order for the current plain path is a permutation of the
        questions of the category it names. */
    lemma CurrentOrderIsShuffle()
      requires Valid() && Join(currentCategoryPath) in shuffledQuestions
      requires Plain(currentCategoryPath) && PlainCache()
      ensures Target(questionSets, currentCategoryPath).Value?
      ensures Target(questionSets, currentCategoryPath).v.Some?
      ensures multiset(CurrentQuestions().v)
        == multiset(QuestionsOr(Target(questionSets, currentCategoryPath).v.value))
    {
      var key := Join(currentCategoryPath);
      JoinInjective(currentCategoryPath, shuffledFrom[key]);
    }

    /** `shouldShowCategoryInfo` (its `showCategoryInfo` flag is never
        cleared, so it is always true). */
    function ShouldShowCategoryInfo(): (shown: bool)
      reads this`currentQuestionIndex, this`currentCategoryPath, this`categoryInfoSeen
      ensures shown ==> currentQuestionIndex == At(0)
      ensures shown ==> Join(currentCategoryPath) !in categoryInfoSeen
      ensures currentQuestionIndex == At(0) && Join(currentCategoryPath) !in categoryInfoSeen ==> shown
    {
      currentQuestionIndex == At(0) && Join(currentCategoryPath) !in categoryInfoSeen
    }

    /** `closeCategoryInfo`: marks the current key as seen. */
    method CloseCategoryInfo()
      modifies this`categoryInfoSeen
      ensures categoryInfoSeen == old(categoryInfoSeen) + {Join(currentCategoryPath)}
      ensures !ShouldShowCategoryInfo()
    {
      categoryInfoSeen := categoryInfoSeen + {Join(currentCategoryPath)};
    }

    /** `getCurrentCategoryName` */
    method GetCurrentCategoryName() returns (name: Outcome<string>)
      ensures name == CategoryName(questionSets, currentCategoryPath)
    {
      var path := currentCategoryPath;
      if |path| == 1 {
        var root := RootOf(questionSets, path);
        if root.None? {
          return TypeError;
        }
        return Value(root.value.name);
      }
      var category := RootOf(questionSets, path);
      if category.None? {
        return TypeError;
      }
      var node := category.value;
      var fallback := node.name;
      var i := 1;
      while i < |path|
        invariant 1 <= i <= |path|
        invariant NameFrom(node, path, i, fallback) == NameFrom(category.value, path, 1, fallback)
      {
        if node.subcategories.Some? {
          var subCategory := Find(node.subcategories.value, path[i]);
          if subCategory.Some? {
            if i == |path| - 1 {
              return Value(subCategory.value.name);
            }
            node := subCategory.value;
          }
        }
        i := i + 1;
      }
      return Value(fallback);
    }

    /** `getCurrentCategoryDescription` */
    method GetCurrentCategoryDescription() returns (description: Outcome<string>)
      ensures description == CategoryDescription(questionSets, currentCategoryPath)
    {
      var path := currentCategoryPath;
      if |path| == 0 {
        return TypeError;
      }
      var category := RootOf(questionSets, path);
      var i := 1;
      while i < |path|
        invariant 1 <= i <= |path|
        invariant DescriptionFrom(category, path, i) == DescriptionFrom(RootOf(questionSets, path), path, 1)
      {
        if category.None? {
          return TypeError;
        }
        var node := category.value;
        if node.subcategories.Some? {
          var subCategory := Find(node.subcategories.value, path[i]);
          if subCategory.Some? {
            if i == |path| - 1 {
              return Value(subCategory.value.description);
            }
            category := subCategory;
          }
        }
        i := i + 1;
      }
      if category.None? {
        return TypeError;
      }
      return Value(category.value.description);
    }

    /** `startFlip(element)` */
    method StartFlip(element: Card) returns (result: FlipResult)
      requires Valid()
      modifies this`revealedHints, this`answerRevealed, this`hintsUsed, this`questionsAnswered
      ensures Valid()
      ensures Reveals() == Flip(old(Reveals()), element).0
      ensures result == Flip(old(Reveals()), element).1
    {
      ghost var before := Reveals();
      if element == Hint1 && !revealedHints[0] {
        return HintOrderError;
      }
      if element == Answer && !(revealedHints[0] && revealedHints[1]) {
        return AnswerOrderError;
      }
      if (element == Hint0 && revealedHints[0]) || (element == Hint1 && revealedHints[1])
         || (element == Answer && answerRevealed) {
        return AlreadyRevealed;
      }
      match element {
        case Hint0 =>
          revealedHints := revealedHints[0 := true];
          hintsUsed := hintsUsed + 1;
        case Hint1 =>
          revealedHints := revealedHints[1 := true];
          hintsUsed := hintsUsed + 1;
        case Answer =>
          answerRevealed := true;
          questionsAnswered := questionsAnswered + 1;
      }
      return Flipped;
    }

    /** `nextQuestion`: the next index in the current list, wrapping round,
        with every card face down again. The counters are not touched. */
    method NextQuestion()
      requires Valid()
      modifies this`currentQuestionIndex, this`revealedHints, this`answerRevealed
      ensures Valid()
      ensures currentQuestionIndex == NextIndex(old(currentQuestionIndex), |CurrentQuestions().v|)
      ensures revealedHints == [false, false] && !answerRevealed
    {
      var currentQuestions := GetCurrentQuestions();
      currentQuestionIndex := NextIndex(currentQuestionIndex, |currentQuestions.v|);
      revealedHints := [false, false];
      answerRevealed := false;
    }

    /** `handleSkipClick`: skips at once when confirmation is switched off,
        otherwise only opens the dialog. */
    method HandleSkipClick()
      requires Valid()
      modifies this`showSkipConfirm, this`currentQuestionIndex, this`revealedHints, this`answerRevealed
      ensures Valid()
      ensures skipConfirmation ==>
        && showSkipConfirm == old(showSkipConfirm)
        && currentQuestionIndex == NextIndex(old(currentQuestionIndex), |CurrentQuestions().v|)
        && revealedHints == [false, false] && !answerRevealed
      ensures !skipConfirmation ==>
        && showSkipConfirm
        && currentQuestionIndex == old(currentQuestionIndex)
        && revealedHints == old(revealedHints) && answerRevealed == old(answerRevealed)
    {
      if skipConfirmation {
        NextQuestion();
      } else {
        showSkipConfirm := true;
      }
    }

    /** `confirmSkip(dontShowAgain)`: closes the dialog and skips; with
        `dontShowAgain` later skips no longer ask. */
    method ConfirmSkip(dontShowAgain: bool)
      requires Valid()
      modifies this`skipConfirmation, this`showSkipConfirm, this`currentQuestionIndex, this`revealedHints,
               this`answerRevealed
      ensures Valid()
      ensures skipConfirmation == (old(skipConfirmation) || dontShowAgain)
      ensures !showSkipConfirm
      ensures currentQuestionIndex == NextIndex(old(currentQuestionIndex), |CurrentQuestions().v|)
      ensures revealedHints == [false, false] && !answerRevealed
    {
      if dontShowAgain {
        skipConfirmation := true;
      }
      showSkipConfirm := false;
      NextQuestion();
    }

    /** `cancelSkip`: closes the dialog and stays on the question. */
    method CancelSkip()
      modifies this`showSkipConfirm
      ensures !showSkipConfirm
    {
      showSkipConfirm := false;
    }

    /** The dialog's "don't ask again" checkbox, which sets the flag directly. */
    method SetSkipConfirmation(checked: bool)
      modifies this`skipConfirmation
      ensures skipConfirmation == checked
    {
      skipConfirmation := checked;
    }

    /** The walk at the start of `changeCategory(categoryPath)`: the root,
        then the matching subcategory on each level, where the last level
        also tries the same-key child. Reading from `undefined` throws. */
    method WalkToCategory(categoryPath: seq<string>) returns (category: Outcome<Option<Node>>)
      ensures category == Target(questionSets, categoryPath)
    {
      var current := RootOf(questionSets, categoryPath);
      if |categoryPath| > 1 {
        var i := 1;
        while i < |categoryPath|
          invariant 1 <= i <= |categoryPath|
          invariant TargetFrom(current, categoryPath, i) == Target(questionSets, categoryPath)
        {
          if current.None? {
            return TypeError;
          }
          if current.value.subcategories.Some? {
            current := Find(current.value.subcategories.value, categoryPath[i]);
          }
          if i == |categoryPath| - 1 {
            if current.None? {
              return TypeError;
            }
            if current.value.subcategories.Some? {
              var subCategory := Find(current.value.subcategories.value, categoryPath[i]);
              if subCategory.Some? && subCategory.value.questions.Some? {
                current := subCategory;
              }
            }
          }
          i := i + 1;
        }
      }
      return Value(current);
    }

    /** The cache step of `changeCategory`, given the category the walk
        settled on: an absent key is filled with a shuffle of that
        category's questions; reading the questions of a missing category
        throws. */
    method ShuffleIntoCache(categoryPath: seq<string>, category: Option<Node>, pick: nat -> nat)
      returns (ok: bool)
      requires CacheSound() && ValidPick(pick)
      requires Target(questionSets, categoryPath) == Value(category)
      modifies this`shuffledQuestions, this`shuffledFrom
      ensures CacheSound()
      ensures ok <==> ToShuffle(questionSets, old(shuffledQuestions), categoryPath).Value?
      ensures ok ==> shuffledQuestions == CacheAfter(questionSets, old(shuffledQuestions), categoryPath, pick)
      ensures !ok ==> shuffledQuestions == old(shuffledQuestions) && shuffledFrom == old(shuffledFrom)
      ensures ok ==> CurrentQuestionsOf(questionSets, shuffledQuestions, categoryPath).Value?
      ensures old(PlainCache()) && Plain(categoryPath) ==> PlainCache()
    {
      var categoryKey := Join(categoryPath);
      if categoryKey !in shuffledQuestions {
        if category.None? {
          return false;
        }
        if category.value.questions.Some? {
          var shuffled := ShuffleArray(category.value.questions.value, pick);
          assert IsShuffleOf(questionSets, categoryPath, shuffled);
          shuffledQuestions := shuffledQuestions[categoryKey := shuffled];
          shuffledFrom := shuffledFrom[categoryKey := categoryPath];
        }
      }
      ChangeRenders(questionSets, old(shuffledQuestions), categoryPath, pick);
      return true;
    }

    /** The state updates at the end of `changeCategory`: the new path, the
        first question, every card face down. */
    method ShowCategory(categoryPath: seq<string>)
      requires CacheSound() && CurrentQuestionsOf(questionSets, shuffledQuestions, categoryPath).Value?
      modifies this`currentCategoryPath, this`currentQuestionIndex, this`revealedHints, this`answerRevealed
      ensures Valid()
      ensures currentCategoryPath == categoryPath && currentQuestionIndex == At(0)
      ensures revealedHints == [false, false] && !answerRevealed
      ensures ShouldShowCategoryInfo() <==> Join(categoryPath) !in categoryInfoSeen
    {
      currentCategoryPath := categoryPath;
      currentQuestionIndex := At(0);
      revealedHints := [false, false];
      answerRevealed := false;
    }

    /** The steps of `changeCategory` after the walk settled on `category`:
        the cache step, then the new screen. */
    method SwitchCategory(categoryPath: seq<string>, category: Option<Node>, pick: nat -> nat) returns (ok: bool)
      requires Valid() && ValidPick(pick)
      requires Target(questionSets, categoryPath) == Value(category)
      modifies this`currentCategoryPath, this`currentQuestionIndex, this`revealedHints, this`answerRevealed,
               this`shuffledQuestions, this`shuffledFrom
      ensures ok ==> Valid()
      ensures ok <==> ToShuffle(questionSets, old(shuffledQuestions), categoryPath).Value?
      ensures !ok ==>
        && currentCategoryPath == old(currentCategoryPath) && currentQuestionIndex == old(currentQuestionIndex)
        && revealedHints == old(revealedHints) && answerRevealed == old(answerRevealed)
        && shuffledQuestions == old(shuffledQuestions) && shuffledFrom == old(shuffledFrom)
      ensures ok ==>
        && currentCategoryPath == categoryPath && currentQuestionIndex == At(0)
        && revealedHints == [false, false] && !answerRevealed
      ensures ok ==> shuffledQuestions == CacheAfter(questionSets, old(shuffledQuestions), categoryPath, pick)
      ensures ok ==> (ShouldShowCategoryInfo() <==> Join(categoryPath) !in categoryInfoSeen)
      ensures old(PlainCache()) && Plain(categoryPath) ==> PlainCache()
    {
      ok := ShuffleIntoCache(categoryPath, category, pick);
      if ok {
        ShowCategory(categoryPath);
      }
    }

    /** `changeCategory(categoryPath)`: walks to the category, shuffles its
        questions into the cache unless the key is already there, and starts
        at its first question with every card face down. When the walk, or
        the read of the questions of a category that is not there, touches
        `undefined`, the handler throws and nothing changes. */
    method ChangeCategory(categoryPath: seq<string>, pick: nat -> nat) returns (ok: bool)
      requires Valid() && ValidPick(pick)
      modifies this`currentCategoryPath, this`currentQuestionIndex, this`revealedHints, this`answerRevealed,
               this`shuffledQuestions, this`shuffledFrom
      ensures Valid()
      ensures ok <==> ToShuffle(questionSets, old(shuffledQuestions), categoryPath).Value?
      ensures !ok ==>
        && currentCategoryPath == old(currentCategoryPath) && currentQuestionIndex == old(currentQuestionIndex)
        && revealedHints == old(revealedHints) && answerRevealed == old(answerRevealed)
        && shuffledQuestions == old(shuffledQuestions)
      ensures ok ==>
        && currentCategoryPath == categoryPath && currentQuestionIndex == At(0)
        && revealedHints == [false, false] && !answerRevealed
      ensures ok ==> shuffledQuestions == CacheAfter(questionSets, old(shuffledQuestions), categoryPath, pick)
      ensures forall k | k in old(shuffledQuestions) :: k in shuffledQuestions && shuffledQuestions[k] == old(shuffledQuestions)[k]
      ensures shuffledQuestions.Keys <= old(shuffledQuestions).Keys + {Join(categoryPath)}
      ensures ok ==> (ShouldShowCategoryInfo() <==> Join(categoryPath) !in categoryInfoSeen)
      ensures old(PlainCache()) && Plain(categoryPath) ==> PlainCache()
    {
      var target := WalkToCategory(categoryPath);
      if target.TypeError? {
        return false;
      }
      ok := SwitchCategory(categoryPath, target.v, pick);
    }
  }
}
