/** The category tree of the question sets: its nodes, the keyed lookup used
    on every level (`questionSets[key]` for a root, `subcategories.find` below
    it), and the `/`-joined form of a category path used as a cache key. */
module Tree {

  datatype Option<+T> = None | Some(value: T)

  /** The result of a computation that may dereference `undefined`:
      `TypeError` is the exception JavaScript throws there. */
  datatype Outcome<+T> = Value(v: T) | TypeError

  /** A question. Its prose (prompt, hints, answer, source) is not modelled;
      `id` is the question's position in declaration order and `category`
      its display label. */
  datatype Question = Question(id: nat, category: string)

  /** A category. A root's `key` is its property name in the question-set
      object; a subcategory's is its own `key` property. An absent
      `questions` or `subcategories` property is `None`; a present one, even
      an empty array, is `Some` (an array is truthy in JavaScript).
      `isParent` is false where the property is absent. */
  datatype Node = Node(
    key: string,
    name: string,
    description: string,
    isParent: bool,
    questions: Option<seq<Question>>,
    subcategories: Option<seq<Node>>)

  /** `category.questions || []` */
  function QuestionsOr(n: Node): seq<Question>
  {
    if n.questions.Some? then n.questions.value else []
  }

  /** The first node with key `k`, as `nodes.find(sub => sub.key === k)`
      does. A root lookup `questionSets[k]` is modelled by it too; they agree
      on distinct keys that are not inherited object properties,
      `"undefined"`, or integer-like. */
  function Find(nodes: seq<Node>, k: string): (r: Option<Node>)
    ensures r.None? <==> forall n | n in nodes :: n.key != k
    ensures r.Some? ==> r.value in nodes && r.value.key == k
  {
    if |nodes| == 0 then None
    else if nodes[0].key == k then Some(nodes[0])
    else Find(nodes[1..], k)
  }

  /** `Find` returns the first match: no node before it has key `k`. */
  lemma {:induction false} FindIsFirst(nodes: seq<Node>, k: string)
    requires Find(nodes, k).Some?
    ensures exists i | 0 <= i < |nodes| ::
      nodes[i] == Find(nodes, k).value && forall j | 0 <= j < i :: nodes[j].key != k
  {
    if nodes[0].key != k {
      FindIsFirst(nodes[1..], k);
      var i :| 0 <= i < |nodes[1..]| && nodes[1..][i] == Find(nodes, k).value &&
        forall j | 0 <= j < i :: nodes[1..][j].key != k;
      assert nodes[i + 1] == Find(nodes, k).value;
      forall j | 0 <= j < i + 1 ensures nodes[j].key != k {
        if j > 0 { assert nodes[j] == nodes[1..][j - 1]; }
      }
    } else {
      assert nodes[0] == Find(nodes, k).value;
    }
  }

  /** `path.join('/')` */
  function Join(path: seq<string>): string
  {
    if |path| == 0 then ""
    else if |path| == 1 then path[0]
    else path[0] + "/" + Join(path[1..])
  }

  /** Splitting a key at every `/`; the inverse of `Join` on plain paths.
      The game never splits a key: this function states what `Join` loses. */
  function Split(s: string): (parts: seq<string>)
    ensures |parts| >= 1
  {
    if |s| == 0 then [""]
    else
      var rest := Split(s[1..]);
      if s[0] == '/' then [""] + rest else [[s[0]] + rest[0]] + rest[1..]
  }

  /** A path whose every key is free of `/` and which has at least one key. */
  predicate Plain(path: seq<string>)
  {
    |path| >= 1 && forall k | k in path :: '/' !in k
  }

  lemma {:induction false} SplitPrefix(a: string, t: string)
    requires '/' !in a
    ensures Split(a + t) == [a + Split(t)[0]] + Split(t)[1..]
    decreases |a|
  {
    if |a| > 0 {
      assert (a + t)[1..] == a[1..] + t;
      assert a[0] in a;
      SplitPrefix(a[1..], t);
      var rest := Split(a[1..] + t);
      assert Split(a + t) == [[a[0]] + rest[0]] + rest[1..];
      assert rest[0] == a[1..] + Split(t)[0];
      assert [a[0]] + (a[1..] + Split(t)[0]) == a + Split(t)[0] by {
        assert a == [a[0]] + a[1..];
      }
    } else {
      assert a + t == t;
      assert a + Split(t)[0] == Split(t)[0];
      assert Split(t) == [Split(t)[0]] + Split(t)[1..];
    }
  }

  /** Joining a plain path and splitting the key gives the path back. */
  lemma {:induction false} SplitJoin(path: seq<string>)
    requires Plain(path)
    ensures Split(Join(path)) == path
  {
    if |path| == 1 {
      SplitPrefix(path[0], "");
      assert path[0] in path;
      assert path[0] + "" == path[0];
    } else {
      var rest := path[1..];
      assert forall k | k in rest :: k in path;
      SplitJoin(rest);
      assert path[0] in path;
      SplitPrefix(path[0], "/" + Join(rest));
      assert ("/" + Join(rest))[1..] == Join(rest);
      assert Split("/" + Join(rest)) == [""] + Split(Join(rest));
      assert path[0] + "" == path[0];
      assert path[0] + "/" + Join(rest) == path[0] + ("/" + Join(rest));
      assert path == [path[0]] + rest;
    }
  }

  /** Two plain paths share a cache key only if they are the same path. */
  lemma JoinInjective(p: seq<string>, q: seq<string>)
    requires Plain(p) && Plain(q)
    requires Join(p) == Join(q)
    ensures p == q
  {
    SplitJoin(p);
    SplitJoin(q);
  }
}
