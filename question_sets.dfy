/** `createQuestionSets`: the declared category tree, `flattenCategories`,
    and the assembly of the synthetic `general` root from every other root. */
module QuestionSets {
  import opened Tree

  /** The own questions of each node, in order. */
  function DirectQuestions(nodes: seq<Node>): seq<Question>
  {
    if |nodes| == 0 then []
    else DirectQuestions(nodes[..|nodes| - 1]) + QuestionsOr(nodes[|nodes| - 1])
  }

  /** What one subcategory adds: its nested subcategories' questions first,
      then its own. Nodes deeper than its children are not looked at. */
  function Contribution(subcat: Node): seq<Question>
  {
    (if subcat.subcategories.Some? then DirectQuestions(subcat.subcategories.value) else [])
    + QuestionsOr(subcat)
  }

  /** The contributions of a parent's subcategories, in order. */
  function SubcategoryQuestions(subs: seq<Node>): seq<Question>
  {
    if |subs| == 0 then []
    else SubcategoryQuestions(subs[..|subs| - 1]) + Contribution(subs[|subs| - 1])
  }

  /** The value of `flattenCategories(category)`. A parent with a
      `subcategories` array collects from them and ignores its own
      questions; any other node gives its own questions. */
  function Flatten(category: Node): seq<Question>
  {
    if category.isParent && category.subcategories.Some?
    then SubcategoryQuestions(category.subcategories.value)
    else QuestionsOr(category)
  }

  /** The inner loop of `flattenCategories`: appends the own questions of
      each nested subcategory to `questions`. */
  method AppendNested(questions: seq<Question>, nested: seq<Node>) returns (result: seq<Question>)
    ensures result == questions + DirectQuestions(nested)
  {
    result := questions;
    for t := 0 to |nested|
      invariant result == questions + DirectQuestions(nested[..t])
    {
      if nested[t].questions.Some? {
        result := result + nested[t].questions.value;
      }
      assert nested[..t + 1][..t] == nested[..t];
    }
    assert nested[..|nested|] == nested;
  }

  /** One pass of the outer loop of `flattenCategories`: the nested
      subcategories' questions, then the subcategory's own. */
  method AppendSubcategory(questions: seq<Question>, subcat: Node) returns (result: seq<Question>)
    ensures result == questions + Contribution(subcat)
  {
    result := questions;
    if subcat.subcategories.Some? {
      result := AppendNested(result, subcat.subcategories.value);
    }
    if subcat.questions.Some? {
      result := result + subcat.questions.value;
    }
  }

  /** `flattenCategories`: the accumulation loops over the subcategories and
      their nested subcategories. */
  method FlattenCategories(category: Node) returns (questions: seq<Question>)
    ensures questions == Flatten(category)
    ensures !(category.isParent && category.subcategories.Some?) ==> questions == QuestionsOr(category)
  {
    questions := [];
    if category.isParent && category.subcategories.Some? {
      var subs := category.subcategories.value;
      for s := 0 to |subs|
        invariant questions == SubcategoryQuestions(subs[..s])
      {
        questions := AppendSubcategory(questions, subs[s]);
        assert subs[..s + 1][..s] == subs[..s];
      }
      assert subs[..|subs|] == subs;
    } else if category.questions.Some? {
      questions := questions + category.questions.value;
    }
  }

  /** Number of questions a node holds directly. */
  function Count(n: Node): nat
  {
    |QuestionsOr(n)|
  }

  /** Sum of the direct question counts of `nodes`. */
  function CountAll(nodes: seq<Node>): nat
  {
    if |nodes| == 0 then 0 else Count(nodes[0]) + CountAll(nodes[1..])
  }

  /** Sum over `subs` of each node's count plus the counts of its children. */
  function TwoLevelCount(subs: seq<Node>): nat
  {
    if |subs| == 0 then 0
    else
      Count(subs[0])
      + (if subs[0].subcategories.Some? then CountAll(subs[0].subcategories.value) else 0)
      + TwoLevelCount(subs[1..])
  }

  lemma {:induction false} CountAllSnoc(nodes: seq<Node>)
    requires |nodes| > 0
    ensures CountAll(nodes) == CountAll(nodes[..|nodes| - 1]) + Count(nodes[|nodes| - 1])
  {
    if |nodes| > 1 {
      assert nodes[1..][..|nodes[1..]| - 1] == nodes[..|nodes| - 1][1..];
      CountAllSnoc(nodes[1..]);
    }
  }

  lemma {:induction false} DirectQuestionsLength(nodes: seq<Node>)
    ensures |DirectQuestions(nodes)| == CountAll(nodes)
  {
    if |nodes| > 0 {
      DirectQuestionsLength(nodes[..|nodes| - 1]);
      CountAllSnoc(nodes);
    }
  }

  lemma {:induction false} TwoLevelCountSnoc(subs: seq<Node>)
    requires |subs| > 0
    ensures TwoLevelCount(subs) == TwoLevelCount(subs[..|subs| - 1]) + TwoLevelCount(subs[|subs| - 1..])
  {
    if |subs| > 1 {
      assert subs[1..][..|subs[1..]| - 1] == subs[..|subs| - 1][1..];
      assert subs[1..][|subs[1..]| - 1..] == subs[|subs| - 1..];
      TwoLevelCountSnoc(subs[1..]);
    }
  }

  /** The flattened list of a parent is exactly as long as the questions of
      its direct subcategories and of their direct children together. */
  lemma {:induction false} FlattenLength(category: Node)
    requires category.isParent && category.subcategories.Some?
    ensures |Flatten(category)| == TwoLevelCount(category.subcategories.value)
  {
    SubcategoryQuestionsLength(category.subcategories.value);
  }

  lemma {:induction false} SubcategoryQuestionsLength(subs: seq<Node>)
    ensures |SubcategoryQuestions(subs)| == TwoLevelCount(subs)
  {
    if |subs| > 0 {
      var last := subs[|subs| - 1];
      SubcategoryQuestionsLength(subs[..|subs| - 1]);
      TwoLevelCountSnoc(subs);
      if last.subcategories.Some? {
        DirectQuestionsLength(last.subcategories.value);
      }
      assert subs[|subs| - 1..] == [last];
      assert [last][1..] == [];
    }
  }

  /** A node with everything below its children cut off. */
  function CutBelowChildren(n: Node): (r: Node)
  {
    if n.subcategories.Some? then
      n.(subcategories := Some(seq(|n.subcategories.value|,
           i requires 0 <= i < |n.subcategories.value| => n.subcategories.value[i].(subcategories := None))))
    else n
  }

  /** A node with everything three or more levels below it cut off. */
  function Prune(category: Node): (r: Node)
  {
    if category.subcategories.Some? then
      category.(subcategories := Some(seq(|category.subcategories.value|,
           i requires 0 <= i < |category.subcategories.value| => CutBelowChildren(category.subcategories.value[i]))))
    else category
  }

  lemma {:induction false} DirectQuestionsCut(nodes: seq<Node>, cut: seq<Node>)
    requires |cut| == |nodes|
    requires forall i | 0 <= i < |nodes| :: cut[i] == nodes[i].(subcategories := None)
    ensures DirectQuestions(cut) == DirectQuestions(nodes)
  {
    if |nodes| > 0 {
      DirectQuestionsCut(nodes[..|nodes| - 1], cut[..|cut| - 1]);
    }
  }

  lemma {:induction false} SubcategoryQuestionsPruned(subs: seq<Node>, pruned: seq<Node>)
    requires |pruned| == |subs|
    requires forall i | 0 <= i < |subs| :: pruned[i] == CutBelowChildren(subs[i])
    ensures SubcategoryQuestions(pruned) == SubcategoryQuestions(subs)
  {
    if |subs| > 0 {
      SubcategoryQuestionsPruned(subs[..|subs| - 1], pruned[..|pruned| - 1]);
      var last := subs[|subs| - 1];
      if last.subcategories.Some? {
        var children := last.subcategories.value;
        DirectQuestionsCut(children, CutBelowChildren(last).subcategories.value);
      }
    }
  }

  /** Questions three or more levels below the flattened node are never
      collected: cutting them off does not change the result. */
  lemma FlattenIgnoresDeeperLevels(category: Node)
    ensures Flatten(Prune(category)) == Flatten(category)
  {
    if category.subcategories.Some? {
      var subs := category.subcategories.value;
      SubcategoryQuestionsPruned(subs, Prune(category).subcategories.value);
    }
  }

  /** The value `general.questions` receives: the flattened list of every
      root other than `general`, in root order. */
  function GeneralQuestions(roots: seq<Node>): seq<Question>
  {
    if |roots| == 0 then []
    else
      GeneralQuestions(roots[..|roots| - 1])
      + (if roots[|roots| - 1].key == "general" then [] else Flatten(roots[|roots| - 1]))
  }

  /** The loop of `createQuestionSets` that accumulates `allQuestions` over
      the root keys in insertion order (the order `for...in` uses for keys
      that are not integer-like). */
  method CollectAllQuestions(roots: seq<Node>) returns (allQuestions: seq<Question>)
    ensures allQuestions == GeneralQuestions(roots)
  {
    allQuestions := [];
    for r := 0 to |roots|
      invariant allQuestions == GeneralQuestions(roots[..r])
    {
      if roots[r].key != "general" {
        var flattened := FlattenCategories(roots[r]);
        allQuestions := allQuestions + flattened;
      }
      assert roots[..r + 1][..r] == roots[..r];
    }
    assert roots[..|roots|] == roots;
  }

  /** A subcategory holding only questions. */
  function Leaf(key: string, name: string, questions: seq<Question>): Node
  {
    Node(key, name, "", false, Some(questions), None)
  }

  function History(): Node
  {
    Node("history", "History", "", true, None, Some([
      Leaf("ancient", "Ancient History", [Question(1, "Ancient History"), Question(2, "Ancient History")]),
      Leaf("medieval", "Medieval History", [Question(3, "Medieval History"), Question(4, "Medieval History")]),
      Node("ww2", "World War II", "", false, None, Some([
        Leaf("switzerlandWw2", "Switzerland in WWII",
          [Question(5, "Switzerland in WWII"), Question(6, "Switzerland in WWII"), Question(7, "Switzerland in WWII")]),
        Leaf("usaWw2", "USA in WWII", [Question(8, "USA in WWII"), Question(9, "USA in WWII")]),
        Leaf("japanWw2", "Japan in WWII", [Question(10, "Japan in WWII"), Question(11, "Japan in WWII")])])),
      Leaf("coldWar", "Cold War Era", [Question(12, "Cold War Era"), Question(13, "Cold War Era")]),
      Leaf("general_history", "General Historical Events",
        [Question(14, "Historical Events"), Question(15, "Historical Events")])]))
  }

  function Science(): Node
  {
    Node("science", "Science & Estimation", "", false, Some([
      Question(16, "Science & Estimation"), Question(17, "Science & Estimation"), Question(18, "Science & Estimation")]), None)
  }

  function Economics(): Node
  {
    Node("economics", "Economics & Spending", "", true, None, Some([
      Leaf("societalSpending", "Societal Spending",
        [Question(19, "Societal Spending"), Question(20, "Societal Spending"), Question(21, "Societal Spending")]),
      Leaf("personalFinance", "Personal Finance", [Question(22, "Personal Finance")]),
      Leaf("businessIndustry", "Business & Industry",
        [Question(23, "Business & Industry"), Question(24, "Business & Industry"), Question(25, "Business & Industry")])]))
  }

  function Technology(): Node
  {
    Node("technology", "Technology", "", false, Some([Question(26, "Technology"), Question(27, "Technology")]), None)
  }

  /** The category structure as declared, before `general` is filled. */
  function Declared(): seq<Node>
  {
    [Node("general", "General Questions", "", true, None, Some([])),
     History(), Science(), Economics(), Technology()]
  }

  /** The questions of `qs` carry the ids `first`, `first + 1`, ... in order. */
  predicate NumberedFrom(qs: seq<Question>, first: nat)
  {
    forall i | 0 <= i < |qs| :: qs[i].id == first + i
  }

  lemma NumberedAppend(xs: seq<Question>, ys: seq<Question>, first: nat)
    requires NumberedFrom(xs, first) && NumberedFrom(ys, first + |xs|)
    ensures NumberedFrom(xs + ys, first)
  {
  }

  /** The concatenation of `f` over `s`, left to right. */
  function Concat<T>(f: T -> seq<Question>, s: seq<T>): seq<Question>
  {
    if |s| == 0 then [] else Concat(f, s[..|s| - 1]) + f(s[|s| - 1])
  }

  lemma {:induction false} ConcatAppend<T>(f: T -> seq<Question>, xs: seq<T>, ys: seq<T>)
    ensures Concat(f, xs + ys) == Concat(f, xs) + Concat(f, ys)
    decreases |ys|
  {
    if |ys| == 0 {
      assert xs + ys == xs;
    } else {
      assert (xs + ys)[..|xs + ys| - 1] == xs + ys[..|ys| - 1];
      ConcatAppend(f, xs, ys[..|ys| - 1]);
    }
  }

  lemma {:induction false} SubcategoryQuestionsIsConcat(subs: seq<Node>)
    ensures SubcategoryQuestions(subs) == Concat(Contribution, subs)
  {
    if |subs| > 0 {
      SubcategoryQuestionsIsConcat(subs[..|subs| - 1]);
    }
  }

  lemma SubcategoryQuestionsAppend(xs: seq<Node>, ys: seq<Node>)
    ensures SubcategoryQuestions(xs + ys) == SubcategoryQuestions(xs) + SubcategoryQuestions(ys)
  {
    SubcategoryQuestionsIsConcat(xs + ys);
    SubcategoryQuestionsIsConcat(xs);
    SubcategoryQuestionsIsConcat(ys);
    ConcatAppend(Contribution, xs, ys);
  }

  lemma {:induction false} DirectQuestionsAppend(xs: seq<Node>, ys: seq<Node>)
    ensures DirectQuestions(xs + ys) == DirectQuestions(xs) + DirectQuestions(ys)
    decreases |ys|
  {
    if |ys| == 0 {
      assert xs + ys == xs;
    } else {
      var init, last := ys[..|ys| - 1], ys[|ys| - 1];
      assert (xs + ys)[..|xs + ys| - 1] == xs + init;
      assert (xs + ys)[|xs + ys| - 1] == last;
      DirectQuestionsAppend(xs, init);
      assert DirectQuestions(xs + ys) == DirectQuestions(xs) + DirectQuestions(init) + QuestionsOr(last);
      assert DirectQuestions(ys) == DirectQuestions(init) + QuestionsOr(last);
    }
  }

  /** The nested-question fold over three nodes, unfolded. */
  lemma DirectQuestionsOfThree(a: Node, b: Node, c: Node)
    ensures DirectQuestions([a, b, c]) == QuestionsOr(a) + QuestionsOr(b) + QuestionsOr(c)
  {
    assert [a, b, c][..2] == [a, b] && [a, b][..1] == [a] && [a][..0] == [];
    assert DirectQuestions([a]) == QuestionsOr(a);
    assert DirectQuestions([a, b]) == QuestionsOr(a) + QuestionsOr(b);
  }

  lemma SubcategoryQuestionsOfThree(a: Node, b: Node, c: Node)
    ensures SubcategoryQuestions([a, b, c]) == Contribution(a) + Contribution(b) + Contribution(c)
  {
    assert [a, b, c][..2] == [a, b] && [a, b][..1] == [a] && [a][..0] == [];
    assert SubcategoryQuestions([a]) == Contribution(a);
    assert SubcategoryQuestions([a, b]) == Contribution(a) + Contribution(b);
  }

  lemma SubcategoryQuestionsOfFive(a: Node, b: Node, c: Node, d: Node, e: Node)
    ensures SubcategoryQuestions([a, b, c, d, e])
      == Contribution(a) + Contribution(b) + Contribution(c) + Contribution(d) + Contribution(e)
  {
    assert [a, b, c, d, e][..4] == [a, b, c, d] && [a, b, c, d][..3] == [a, b, c];
    SubcategoryQuestionsOfThree(a, b, c);
  }

  /** The World War II subcategory contributes its three nested
      subcategories' questions and has none of its own. */
  lemma Ww2Contribution()
    ensures Contribution(History().subcategories.value[2]) ==
      QuestionsOr(History().subcategories.value[2].subcategories.value[0])
      + QuestionsOr(History().subcategories.value[2].subcategories.value[1])
      + QuestionsOr(History().subcategories.value[2].subcategories.value[2])
  {
    var w := History().subcategories.value[2].subcategories.value;
    assert w == [w[0], w[1], w[2]];
    DirectQuestionsOfThree(w[0], w[1], w[2]);
  }

  /** Flattening the shipped history root takes its five subcategories in
      order, and for World War II its three nested subcategories. */
  lemma HistoryFlattened()
    ensures Flatten(History()) ==
      QuestionsOr(History().subcategories.value[0]) + QuestionsOr(History().subcategories.value[1])
      + Contribution(History().subcategories.value[2])
      + QuestionsOr(History().subcategories.value[3]) + QuestionsOr(History().subcategories.value[4])
  {
    var h := History().subcategories.value;
    assert h == [h[0], h[1], h[2], h[3], h[4]];
    SubcategoryQuestionsOfFive(h[0], h[1], h[2], h[3], h[4]);
  }

  /** Each of the seven groups flattening the history root collects is
      numbered on from the one before. */
  lemma HistoryGroups()
    ensures var h, w := History().subcategories.value, History().subcategories.value[2].subcategories.value;
      && NumberedFrom(QuestionsOr(h[0]), 1) && |QuestionsOr(h[0])| == 2
      && NumberedFrom(QuestionsOr(h[1]), 3) && |QuestionsOr(h[1])| == 2
      && NumberedFrom(QuestionsOr(w[0]), 5) && |QuestionsOr(w[0])| == 3
      && NumberedFrom(QuestionsOr(w[1]), 8) && |QuestionsOr(w[1])| == 2
      && NumberedFrom(QuestionsOr(w[2]), 10) && |QuestionsOr(w[2])| == 2
      && NumberedFrom(QuestionsOr(h[3]), 12) && |QuestionsOr(h[3])| == 2
      && NumberedFrom(QuestionsOr(h[4]), 14) && |QuestionsOr(h[4])| == 2
  {
  }

  lemma HistoryNumbered()
    ensures |Flatten(History())| == 15 && NumberedFrom(Flatten(History()), 1)
  {
    HistoryFlattened();
    Ww2Contribution();
    HistoryGroups();
    var h := History().subcategories.value;
    var w := h[2].subcategories.value;
    var a, b, c, d, f, g, k := QuestionsOr(h[0]), QuestionsOr(h[1]), QuestionsOr(w[0]), QuestionsOr(w[1]),
      QuestionsOr(w[2]), QuestionsOr(h[3]), QuestionsOr(h[4]);
    NumberedAppend(a, b, 1);
    NumberedAppend(a + b, c, 1);
    NumberedAppend(a + b + c, d, 1);
    NumberedAppend(a + b + c + d, f, 1);
    NumberedAppend(a + b + c + d + f, g, 1);
    NumberedAppend(a + b + c + d + f + g, k, 1);
    assert Flatten(History()) == a + b + c + d + f + g + k;
  }

  lemma EconomicsNumbered()
    ensures |Flatten(Economics())| == 7 && NumberedFrom(Flatten(Economics()), 19)
  {
    var e := Economics().subcategories.value;
    assert e == [e[0], e[1], e[2]];
    SubcategoryQuestionsOfThree(e[0], e[1], e[2]);
    var a, b, c := QuestionsOr(e[0]), QuestionsOr(e[1]), QuestionsOr(e[2]);
    assert Flatten(Economics()) == a + b + c;
    assert NumberedFrom(a, 19) && |a| == 3;
    assert NumberedFrom(b, 22) && |b| == 1;
    assert NumberedFrom(c, 23) && |c| == 3;
    NumberedAppend(a, b, 19);
    NumberedAppend(a + b, c, 19);
  }

  /** With the shipped data, each root flattens to its questions in
      declaration order: history 15, science 3, economics 7, technology 2. */
  lemma ShippedFlattenedRoots()
    ensures |Flatten(History())| == 15 && NumberedFrom(Flatten(History()), 1)
    ensures |Flatten(Science())| == 3 && NumberedFrom(Flatten(Science()), 16)
    ensures |Flatten(Economics())| == 7 && NumberedFrom(Flatten(Economics()), 19)
    ensures |Flatten(Technology())| == 2 && NumberedFrom(Flatten(Technology()), 26)
  {
    HistoryNumbered();
    EconomicsNumbered();
  }

  /** With the shipped data, `general` receives 27 questions: the flattened
      roots in insertion order, each question once, in declaration order. */
  lemma ShippedGeneral()
    ensures GeneralQuestions(Declared())
      == Flatten(History()) + Flatten(Science()) + Flatten(Economics()) + Flatten(Technology())
    ensures |GeneralQuestions(Declared())| == 27
    ensures NumberedFrom(GeneralQuestions(Declared()), 1)
    ensures forall i, j | 0 <= i < j < 27 :: GeneralQuestions(Declared())[i] != GeneralQuestions(Declared())[j]
  {
    var d := Declared();
    assert d[..5] == d && d[..5][..4] == d[..4] && d[..4][..3] == d[..3] && d[..3][..2] == d[..2]
      && d[..2][..1] == d[..1] && d[..1][..0] == [];
    assert GeneralQuestions(d[..1]) == [];
    assert GeneralQuestions(d[..2]) == Flatten(History());
    assert GeneralQuestions(d[..3]) == Flatten(History()) + Flatten(Science());
    assert GeneralQuestions(d[..4]) == Flatten(History()) + Flatten(Science()) + Flatten(Economics());
    ShippedFlattenedRoots();
    var h, sc, ec, t := Flatten(History()), Flatten(Science()), Flatten(Economics()), Flatten(Technology());
    NumberedAppend(h, sc, 1);
    NumberedAppend(h + sc, ec, 1);
    NumberedAppend(h + sc + ec, t, 1);
  }

  /** `createQuestionSets`: the declared structure, in which only
      `general.questions` is assigned, to every other root's questions. */
  method CreateQuestionSets() returns (categoryStructure: seq<Node>)
    ensures |categoryStructure| == |Declared()|
    ensures forall i | 1 <= i < |Declared()| :: categoryStructure[i] == Declared()[i]
    ensures categoryStructure[0] == Declared()[0].(questions := Some(GeneralQuestions(Declared())))
    ensures categoryStructure[0].key == "general" && |QuestionsOr(categoryStructure[0])| == 27
  {
    var declared := Declared();
    var allQuestions := CollectAllQuestions(declared);
    categoryStructure := declared[0 := declared[0].(questions := Some(allQuestions))];
    ShippedGeneral();
  }
}
