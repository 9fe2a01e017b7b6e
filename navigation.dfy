/** The four walks down a category path in the game component: the one in
    `getCurrentQuestions`, the one in `changeCategory`, and the name and
    description lookups. Each is stated here as a function that takes the
    walk's loop from index `i` on; the game's methods run the loops and are
    proved against these functions. `None` for the current category is
    JavaScript's `undefined`; reading a property of it is a `TypeError`. */
module Navigation {
  import opened Tree

  /** `questionSets[path[0]]`; an empty path reads `questionSets[undefined]`. */
  function RootOf(roots: seq<Node>, path: seq<string>): Option<Node>
  {
    if |path| == 0 then None else Find(roots, path[0])
  }

  /** The check made at the last step of both question walks: the first
      child of `n` whose key is `k`, the path's last key, when that child
      has a `questions` array. */
  function SameKeyChild(n: Node, k: string): (r: Option<Node>)
    ensures r.Some? ==> r.value.key == k && r.value.questions.Some?
    ensures r.Some? ==> n.subcategories.Some? && r == Find(n.subcategories.value, k)
    ensures r.Some? ==> r.value in n.subcategories.value
    ensures r.Some? <==> n.subcategories.Some? && Find(n.subcategories.value, k).Some?
                         && Find(n.subcategories.value, k).value.questions.Some?
  {
    if n.subcategories.Some? then
      var c := Find(n.subcategories.value, k);
      if c.Some? && c.value.questions.Some? then c else None
    else None
  }

  // ---------------------------------------------------------------------
  // The walk of changeCategory

  /** One pass of the loop in `changeCategory` at index `i` with key `k`. */
  function TargetStep(category: Option<Node>, k: string, last: bool): Outcome<Option<Node>>
  {
    if category.None? then TypeError
    else
      var next := if category.value.subcategories.Some?
                  then Find(category.value.subcategories.value, k) else category;
      if !last then Value(next)
      else if next.None? then TypeError
      else match SameKeyChild(next.value, k)
        case Some(c) => Value(Some(c))
        case None => Value(next)
  }

  /** The `changeCategory` loop from index `i` to the end of the path. */
  function TargetFrom(category: Option<Node>, path: seq<string>, i: nat): Outcome<Option<Node>>
    requires i <= |path|
    decreases |path| - i
  {
    if i == |path| then Value(category)
    else match TargetStep(category, path[i], i == |path| - 1)
      case TypeError => TypeError
      case Value(next) => TargetFrom(next, path, i + 1)
  }

  /** The category `changeCategory` settles on for `path`. */
  function Target(roots: seq<Node>, path: seq<string>): Outcome<Option<Node>>
  {
    if |path| == 0 then Value(None) else TargetFrom(RootOf(roots, path), path, 1)
  }

  // ---------------------------------------------------------------------
  // The walk of getCurrentQuestions

  /** The loop of `getCurrentQuestions` from index `i`, with its early
      returns, then the final `category.questions || []`. */
  function QuestionsFrom(category: Option<Node>, path: seq<string>, i: nat): Outcome<seq<Question>>
    requires i <= |path|
    decreases |path| - i
  {
    if i == |path| then
      if category.None? then TypeError else Value(QuestionsOr(category.value))
    else if category.None? then TypeError
    else if category.value.subcategories.Some? then
      var next := Find(category.value.subcategories.value, path[i]);
      if i == |path| - 1 && next.None? then TypeError
      else if i == |path| - 1 && SameKeyChild(next.value, path[i]).Some? then
        Value(SameKeyChild(next.value, path[i]).value.questions.value)
      else QuestionsFrom(next, path, i + 1)
    else if category.value.questions.Some? then Value(category.value.questions.value)
    else QuestionsFrom(category, path, i + 1)
  }

  /** `getCurrentQuestions` for `path` with the shuffle cache `cache`. */
  function CurrentQuestionsOf(roots: seq<Node>, cache: map<string, seq<Question>>, path: seq<string>)
    : Outcome<seq<Question>>
  {
    if Join(path) in cache then Value(cache[Join(path)])
    else if |path| == 0 then TypeError
    else QuestionsFrom(RootOf(roots, path), path, 1)
  }

  /** The questions of what a walk settles on; reading them from `undefined`
      throws. */
  function QuestionsAt(target: Outcome<Option<Node>>): Outcome<seq<Question>>
  {
    match target
    case Value(Some(n)) => Value(QuestionsOr(n))
    case _ => TypeError
  }

  lemma {:induction false} TargetFromStays(n: Node, path: seq<string>, i: nat)
    requires i <= |path| && n.subcategories.None?
    ensures TargetFrom(Some(n), path, i) == Value(Some(n))
    decreases |path| - i
  {
    if i < |path| {
      TargetFromStays(n, path, i + 1);
    }
  }

  lemma {:induction false} WalksAgreeFrom(category: Option<Node>, path: seq<string>, i: nat)
    requires i <= |path|
    ensures QuestionsFrom(category, path, i) == QuestionsAt(TargetFrom(category, path, i))
    decreases |path| - i
  {
    if i < |path| && category.Some? {
      var c := category.value;
      if c.subcategories.Some? {
        var next := Find(c.subcategories.value, path[i]);
        if i < |path| - 1 || (next.Some? && SameKeyChild(next.value, path[i]).None?) {
          WalksAgreeFrom(next, path, i + 1);
        }
      } else if c.questions.Some? {
        TargetFromStays(c, path, i);
      } else {
        WalksAgreeFrom(category, path, i + 1);
      }
    }
  }

  /** When nothing is cached for the path, `getCurrentQuestions` gives the
      questions of the category `changeCategory` settles on for the same
      path (or `[]`), and throws exactly when `changeCategory` would have
      to read from `undefined`. */
  lemma WalksAgree(roots: seq<Node>, cache: map<string, seq<Question>>, path: seq<string>)
    requires Join(path) !in cache
    ensures CurrentQuestionsOf(roots, cache, path) == QuestionsAt(Target(roots, path))
  {
    if |path| > 0 {
      WalksAgreeFrom(RootOf(roots, path), path, 1);
    }
  }

  // ---------------------------------------------------------------------
  // Paths in which every key is found

  /** Following every key of the path from `n`, each one found among the
      current node's `subcategories`. */
  function WalkFrom(n: Node, path: seq<string>, i: nat): Option<Node>
    requires i <= |path|
    decreases |path| - i
  {
    if i == |path| then Some(n)
    else if n.subcategories.None? then None
    else match Find(n.subcategories.value, path[i])
      case None => None
      case Some(c) => WalkFrom(c, path, i + 1)
  }

  /** The node a path names when every key of it exists. */
  function Walk(roots: seq<Node>, path: seq<string>): Option<Node>
  {
    match RootOf(roots, path)
    case None => None
    case Some(r) => WalkFrom(r, path, 1)
  }

  /** Where both question walks end on a path whose every key exists: the
      named node, unless at the last step it has a child under the same key
      with its own questions. */
  function Resolved(n: Node, path: seq<string>): Node
  {
    if |path| >= 2 && SameKeyChild(n, path[|path| - 1]).Some?
    then SameKeyChild(n, path[|path| - 1]).value
    else n
  }

  lemma {:induction false} TargetFromValid(c: Node, path: seq<string>, i: nat, n: Node)
    requires 1 <= i < |path| && WalkFrom(c, path, i) == Some(n)
    ensures TargetFrom(Some(c), path, i) == Value(Some(Resolved(n, path)))
    decreases |path| - i
  {
    var next := Find(c.subcategories.value, path[i]);
    if i < |path| - 1 {
      TargetFromValid(next.value, path, i + 1, n);
    }
  }

  /** On a path whose every key exists, `changeCategory` settles on the named
      node, or on its same-key child that has questions. */
  lemma TargetOnValidPath(roots: seq<Node>, path: seq<string>, n: Node)
    requires Walk(roots, path) == Some(n)
    ensures Target(roots, path) == Value(Some(Resolved(n, path)))
  {
    if |path| > 1 {
      TargetFromValid(RootOf(roots, path).value, path, 1, n);
    }
  }

  /** `getCurrentQuestions` returns a cached list as it is; otherwise, on a
      path whose every key exists, the questions of the named node (or of its
      same-key child that has some), or `[]` when it has none. */
  lemma CurrentQuestionsOnValidPath(roots: seq<Node>, cache: map<string, seq<Question>>,
                                    path: seq<string>, n: Node)
    requires Walk(roots, path) == Some(n)
    ensures Join(path) in cache ==> CurrentQuestionsOf(roots, cache, path) == Value(cache[Join(path)])
    ensures Join(path) !in cache ==>
      CurrentQuestionsOf(roots, cache, path) == Value(QuestionsOr(Resolved(n, path)))
  {
    if Join(path) !in cache {
      WalksAgree(roots, cache, path);
      TargetOnValidPath(roots, path, n);
    }
  }

  lemma {:induction false} TargetFromPrefix(c: Node, q: seq<string>, rest: seq<string>, i: nat, m: Node)
    requires 1 <= i <= |q| && |rest| >= 1 && WalkFrom(c, q, i) == Some(m)
    ensures TargetFrom(Some(c), q + rest, i) == TargetFrom(Some(m), q + rest, |q|)
    decreases |q| - i
  {
    if i < |q| {
      assert (q + rest)[i] == q[i];
      TargetFromPrefix(Find(c.subcategories.value, q[i]).value, q, rest, i + 1, m);
    }
  }

  /** A key missing from a node's `subcategories` makes `changeCategory` read
      from `undefined`, whatever follows it in the path. */
  lemma MissingKeyThrows(roots: seq<Node>, q: seq<string>, k: string, rest: seq<string>, m: Node)
    requires Walk(roots, q) == Some(m)
    requires m.subcategories.Some? && Find(m.subcategories.value, k).None?
    ensures Target(roots, q + [k] + rest) == TypeError
  {
    var path := q + [k] + rest;
    assert path == q + ([k] + rest);
    assert path[..|q|] == q;
    assert RootOf(roots, path) == RootOf(roots, q);
    TargetFromPrefix(RootOf(roots, q).value, q, [k] + rest, 1, m);
    assert path[|q|] == k;
    if |rest| > 0 {
      assert TargetFrom(Some(m), path, |q|) == TargetFrom(None, path, |q| + 1);
    }
  }

  // ---------------------------------------------------------------------
  // Name and description lookups

  /** The loop of `getCurrentCategoryDescription` from index `i`: a missing
      key is skipped, and the description is that of the last node reached. */
  function DescriptionFrom(category: Option<Node>, path: seq<string>, i: nat): Outcome<string>
    requires i <= |path|
    decreases |path| - i
  {
    if i == |path| then
      if category.None? then TypeError else Value(category.value.description)
    else if category.None? then TypeError
    else if category.value.subcategories.Some? then
      match Find(category.value.subcategories.value, path[i])
      case Some(sub) =>
        if i == |path| - 1 then Value(sub.description) else DescriptionFrom(Some(sub), path, i + 1)
      case None => DescriptionFrom(category, path, i + 1)
    else DescriptionFrom(category, path, i + 1)
  }

  /** `getCurrentCategoryDescription` */
  function CategoryDescription(roots: seq<Node>, path: seq<string>): Outcome<string>
  {
    if |path| == 0 then TypeError else DescriptionFrom(RootOf(roots, path), path, 1)
  }

  /** The loop of `getCurrentCategoryName` from index `i`: a missing key is
      skipped, and without a match at the last key the name is `fallback`. */
  function NameFrom(category: Node, path: seq<string>, i: nat, fallback: string): string
    requires i <= |path|
    decreases |path| - i
  {
    if i == |path| then fallback
    else if category.subcategories.Some? then
      match Find(category.subcategories.value, path[i])
      case Some(sub) =>
        if i == |path| - 1 then sub.name else NameFrom(sub, path, i + 1, fallback)
      case None => NameFrom(category, path, i + 1, fallback)
    else NameFrom(category, path, i + 1, fallback)
  }

  /** `getCurrentCategoryName`: the root's name is the fallback. */
  function CategoryName(roots: seq<Node>, path: seq<string>): Outcome<string>
  {
    match RootOf(roots, path)
    case None => TypeError
    case Some(r) => if |path| == 1 then Value(r.name) else Value(NameFrom(r, path, 1, r.name))
  }

  lemma {:induction false} LookupFromValid(c: Node, path: seq<string>, i: nat, n: Node, fallback: string)
    requires 1 <= i < |path| && WalkFrom(c, path, i) == Some(n)
    ensures DescriptionFrom(Some(c), path, i) == Value(n.description)
    ensures NameFrom(c, path, i, fallback) == n.name
    decreases |path| - i
  {
    if i < |path| - 1 {
      LookupFromValid(Find(c.subcategories.value, path[i]).value, path, i + 1, n, fallback);
    }
  }

  /** On a path whose every key exists, both lookups give the named node's
      name and description. */
  lemma LookupOnValidPath(roots: seq<Node>, path: seq<string>, n: Node)
    requires Walk(roots, path) == Some(n)
    ensures CategoryName(roots, path) == Value(n.name)
    ensures CategoryDescription(roots, path) == Value(n.description)
  {
    if |path| > 1 {
      LookupFromValid(RootOf(roots, path).value, path, 1, n, RootOf(roots, path).value.name);
    }
  }

  lemma {:induction false} LookupFromPrefix(c: Node, q: seq<string>, k: string, i: nat, m: Node, fallback: string)
    requires 1 <= i <= |q| && WalkFrom(c, q, i) == Some(m)
    ensures DescriptionFrom(Some(c), q + [k], i) == DescriptionFrom(Some(m), q + [k], |q|)
    ensures NameFrom(c, q + [k], i, fallback) == NameFrom(m, q + [k], |q|, fallback)
    decreases |q| - i
  {
    if i < |q| {
      assert (q + [k])[i] == q[i];
      LookupFromPrefix(Find(c.subcategories.value, q[i]).value, q, k, i + 1, m, fallback);
    }
  }

  /** When the last key of a path is not found under the node the rest of it
      names, the two lookups fall back differently: the name to the root's
      name, the description to that deepest node's description. */
  lemma LookupFallbacks(roots: seq<Node>, q: seq<string>, k: string, m: Node)
    requires Walk(roots, q) == Some(m)
    requires m.subcategories.None? || Find(m.subcategories.value, k).None?
    ensures CategoryName(roots, q + [k]) == Value(RootOf(roots, q).value.name)
    ensures CategoryDescription(roots, q + [k]) == Value(m.description)
  {
    var path := q + [k];
    assert path[..|q|] == q && path[|q|] == k;
    assert RootOf(roots, path) == RootOf(roots, q);
    var r := RootOf(roots, q).value;
    LookupFromPrefix(r, q, k, 1, m, r.name);
  }
}
