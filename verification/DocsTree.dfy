/**
 * app/lib/docs.ts, `buildTree`: a trie over slug segments, built by pushing into child lists through
 * an alias, then sorted by title. Nodes live in an arena and an index is a reference, so pushing into
 * `level` changes the node that owns that list.
 */
module DocsTree {
  import opened Options

  type Path = seq<string>

  datatype Doc = Doc(slugParts: Path, title: string)

  /** A finished node, as `sortNodes` returns it. */
  datatype Tree = Tree(key: string, segment: string, title: string, href: Option<string>, children: seq<Tree>)

  // ---- Keys and titles ----

  function Join(p: Path): string
    requires p != []
  {
    if |p| == 1 then p[0] else Join(p[..|p| - 1]) + "/" + p[|p| - 1]
  }

  /** Read from the front: the first segment, a slash, the rest. */
  lemma {:induction false} JoinFromFront(p: Path)
    requires p != []
    ensures Join(p) == if |p| == 1 then p[0] else p[0] + "/" + Join(p[1..])
  {
    if |p| > 1 {
      var init, last := p[..|p| - 1], p[|p| - 1];
      JoinFromFront(init);
      if |p| == 2 {
        assert p[1..] == [last] && init == [p[0]];
      } else {
        assert p[1..][..|p| - 2] == init[1..] && p[1..][|p| - 2] == last;
        assert p[0] + "/" + Join(init[1..]) + "/" + last == p[0] + "/" + (Join(init[1..]) + "/" + last);
      }
    }
  }

  /** Among siblings, the key decides the segment. */
  lemma KeyDecidesSegment(parent: Path, x: string, y: string)
    requires Join(parent + [x]) == Join(parent + [y])
    ensures x == y
  {
    assert (parent + [x])[..|parent|] == parent && (parent + [y])[..|parent|] == parent;
    if parent != [] {
      var stem := Join(parent) + "/";
      assert x == (stem + x)[|stem|..] && y == (stem + y)[|stem|..];
    }
  }

  predicate IsWordChar(c: char) {
    'a' <= c <= 'z' || 'A' <= c <= 'Z' || '0' <= c <= '9' || c == '_'
  }

  function Upper(c: char): char {
    if 'a' <= c <= 'z' then c - 'a' + 'A' else c
  }

  function Spaced(s: string): string {
    seq(|s|, i requires 0 <= i < |s| => if s[i] == '-' || s[i] == '_' then ' ' else s[i])
  }

  /** `titleFromSegment`: separators become spaces and every word starts with a capital. */
  function TitleFromSegment(segment: string): string {
    var s := Spaced(segment);
    seq(|s|, i requires 0 <= i < |s| =>
      if IsWordChar(s[i]) && (i == 0 || !IsWordChar(s[i - 1])) then Upper(s[i]) else s[i])
  }

  predicate Separates(c: char) {
    c == '-' || c == '_'
  }

  /** Character by character: a separator is a space, a small letter that begins a word a capital, the rest as it is. */
  lemma TitleIs(segment: string, i: nat)
    requires i < |segment|
    ensures |TitleFromSegment(segment)| == |segment|
    ensures var c := segment[i];
      var begins := i == 0 || Separates(segment[i - 1]) || !IsWordChar(segment[i - 1]);
      TitleFromSegment(segment)[i]
        == if Separates(c) then ' ' else if 'a' <= c <= 'z' && begins then (c as int - 32) as char else c
  {
  }

  // ---- What a tree over `docs` should hold ----

  datatype Label = Label(key: string, title: string, href: Option<string>)

  ghost predicate IsPrefixOf(docs: seq<Doc>, p: Path) {
    p != [] && exists i :: 0 <= i < |docs| && p <= docs[i].slugParts
  }

  /** The last document with this slug, if any. */
  ghost function DocumentAt(docs: seq<Doc>, p: Path): Option<Doc> {
    if docs == [] then None
    else if docs[|docs| - 1].slugParts == p then Some(docs[|docs| - 1])
    else DocumentAt(docs[..|docs| - 1], p)
  }

  function DocLabel(doc: Doc): Label
    requires doc.slugParts != []
  {
    Label(Join(doc.slugParts), doc.title, Some("/docs/" + Join(doc.slugParts)))
  }

  /** A document's node carries its title and link; a bare directory's carries a derived title. */
  ghost function LabelFor(docs: seq<Doc>, p: Path): Label
    requires p != []
  {
    match DocumentAt(docs, p)
    case Some(doc) => Label(Join(p), doc.title, Some("/docs/" + Join(p)))
    case None => Label(Join(p), TitleFromSegment(p[|p| - 1]), None)
  }

  lemma LabelForSnoc(docs: seq<Doc>, doc: Doc, p: Path)
    requires p != []
    ensures LabelFor(docs + [doc], p) == if p == doc.slugParts then DocLabel(doc) else LabelFor(docs, p)
  {
    assert (docs + [doc])[..|docs|] == docs;
  }

  lemma IsPrefixOfSnoc(docs: seq<Doc>, doc: Doc, p: Path)
    ensures IsPrefixOf(docs + [doc], p) <==> IsPrefixOf(docs, p) || (p != [] && p <= doc.slugParts)
  {
    var all := docs + [doc];
    assert all[|docs|] == doc;
    if IsPrefixOf(docs, p) {
      var i :| 0 <= i < |docs| && p <= docs[i].slugParts;
      assert all[i] == docs[i];
    }
  }

  lemma {:induction false} DocumentIsPrefix(docs: seq<Doc>, p: Path)
    requires p != [] && DocumentAt(docs, p).Some?
    ensures IsPrefixOf(docs, p)
  {
    var n := |docs| - 1;
    IsPrefixOfSnoc(docs[..n], docs[n], p);
    assert docs == docs[..n] + [docs[n]];
    if docs[n].slugParts != p {
      DocumentIsPrefix(docs[..n], p);
    }
  }

  // ---- Reading a forest: the nodes reached by following the segments of a path ----

  function LabelOf(t: Tree): Label {
    Label(t.key, t.title, t.href)
  }

  ghost function Here(t: Tree, p: Path): multiset<Label>
    requires p != []
    decreases |p|, 0
  {
    if t.segment != p[0] then multiset{}
    else if |p| == 1 then multiset{LabelOf(t)}
    else Reached(t.children, p[1..])
  }

  ghost function Reached(forest: seq<Tree>, p: Path): multiset<Label>
    requires p != []
    decreases |p|, 1, |forest|
  {
    if forest == [] then multiset{} else Here(forest[0], p) + Reached(forest[1..], p)
  }

  /** A forest that holds one node per nonempty slug prefix, rightly labelled, and no other node. */
  ghost predicate Represents(forest: seq<Tree>, docs: seq<Doc>) {
    forall p: Path :: p != [] ==>
      Reached(forest, p) == if IsPrefixOf(docs, p) then multiset{LabelFor(docs, p)} else multiset{}
  }

  // ---- sortNodes ----

  ghost predicate TotalPreorder(leq: (string, string) -> bool) {
    && (forall x, y :: leq(x, y) || leq(y, x))
    && (forall x, y, z :: leq(x, y) && leq(y, z) ==> leq(x, z))
  }

  function Size(forest: seq<Tree>): nat
    decreases forest
  {
    if forest == [] then 0 else 1 + Size(forest[0].children) + Size(forest[1..])
  }

  function Insert(t: Tree, sorted: seq<Tree>, leq: (string, string) -> bool): (r: seq<Tree>)
    ensures Size(r) == Size([t] + sorted)
  {
    assert ([t] + sorted)[1..] == sorted;
    if sorted == [] || leq(t.title, sorted[0].title) then [t] + sorted
    else
      var rest := Insert(t, sorted[1..], leq);
      assert ([t] + sorted[1..])[1..] == sorted[1..] && ([sorted[0]] + rest)[1..] == rest;
      [sorted[0]] + rest
  }

  /** Array.prototype.sort by title: stable. */
  function SortByTitle(forest: seq<Tree>, leq: (string, string) -> bool): (r: seq<Tree>)
    ensures Size(r) == Size(forest)
  {
    if forest == [] then []
    else
      var rest := SortByTitle(forest[1..], leq);
      assert ([forest[0]] + rest)[1..] == rest;
      Insert(forest[0], rest, leq)
  }

  function SortForest(forest: seq<Tree>, leq: (string, string) -> bool): seq<Tree>
    decreases Size(forest), 1
  {
    SortChildren(SortByTitle(forest, leq), leq)
  }

  function SortChildren(forest: seq<Tree>, leq: (string, string) -> bool): seq<Tree>
    decreases Size(forest), 0
  {
    if forest == [] then []
    else [forest[0].(children := SortForest(forest[0].children, leq))] + SortChildren(forest[1..], leq)
  }

  ghost predicate SortedByTitle(forest: seq<Tree>, leq: (string, string) -> bool) {
    forall i, j :: 0 <= i < j < |forest| ==> leq(forest[i].title, forest[j].title)
  }

  /** Every sibling list, at every depth, is in title order. */
  ghost predicate Ordered(forest: seq<Tree>, leq: (string, string) -> bool)
    decreases forest
  {
    SortedByTitle(forest, leq) && forall i :: 0 <= i < |forest| ==> Ordered(forest[i].children, leq)
  }

  /** The siblings whose titles tie with `title`, in order. */
  ghost function Ties(forest: seq<Tree>, title: string, leq: (string, string) -> bool): seq<Tree> {
    if forest == [] then []
    else (if leq(forest[0].title, title) && leq(title, forest[0].title) then [forest[0]] else [])
         + Ties(forest[1..], title, leq)
  }

  lemma {:induction false} InsertSorts(t: Tree, s: seq<Tree>, leq: (string, string) -> bool)
    requires TotalPreorder(leq) && SortedByTitle(s, leq)
    ensures SortedByTitle(Insert(t, s, leq), leq)
    ensures forall x :: x in Insert(t, s, leq) <==> x == t || x in s
  {
    if s == [] || leq(t.title, s[0].title) {
      assert Insert(t, s, leq) == [t] + s;
    } else {
      InsertSorts(t, s[1..], leq);
      var rest := Insert(t, s[1..], leq);
      forall j | 0 <= j < |rest|
        ensures leq(s[0].title, rest[j].title)
      {
        assert rest[j] in rest;
        assert rest[j] == t || rest[j] in s[1..];
      }
      assert s == [s[0]] + s[1..];
    }
  }

  lemma {:induction false} InsertKeepsTies(t: Tree, s: seq<Tree>, title: string, leq: (string, string) -> bool)
    requires TotalPreorder(leq)
    ensures Ties(Insert(t, s, leq), title, leq) == Ties([t] + s, title, leq)
  {
    assert ([t] + s)[1..] == s;
    if !(s == [] || leq(t.title, s[0].title)) {
      InsertKeepsTies(t, s[1..], title, leq);
      var rest := Insert(t, s[1..], leq);
      assert ([s[0]] + rest)[1..] == rest;
      assert ([t] + s[1..])[1..] == s[1..];
    }
  }

  /** The sort by title orders the siblings and is stable. */
  lemma {:induction false} SortByTitleSorts(s: seq<Tree>, title: string, leq: (string, string) -> bool)
    requires TotalPreorder(leq)
    ensures SortedByTitle(SortByTitle(s, leq), leq)
    ensures Ties(SortByTitle(s, leq), title, leq) == Ties(s, title, leq)
  {
    if s != [] {
      SortByTitleSorts(s[1..], title, leq);
      var rest := SortByTitle(s[1..], leq);
      InsertSorts(s[0], rest, leq);
      InsertKeepsTies(s[0], rest, title, leq);
      assert ([s[0]] + rest)[1..] == rest;
    }
  }

  lemma {:induction false} InsertKeepsReached(t: Tree, s: seq<Tree>, leq: (string, string) -> bool, p: Path)
    requires p != []
    ensures Reached(Insert(t, s, leq), p) == Here(t, p) + Reached(s, p)
  {
    if s == [] || leq(t.title, s[0].title) {
      assert ([t] + s)[1..] == s;
    } else {
      InsertKeepsReached(t, s[1..], leq, p);
      var rest := Insert(t, s[1..], leq);
      assert ([s[0]] + rest)[1..] == rest;
    }
  }

  lemma {:induction false} SortByTitleKeepsReached(s: seq<Tree>, leq: (string, string) -> bool, p: Path)
    requires p != []
    ensures Reached(SortByTitle(s, leq), p) == Reached(s, p)
  {
    if s != [] {
      SortByTitleKeepsReached(s[1..], leq, p);
      InsertKeepsReached(s[0], SortByTitle(s[1..], leq), leq, p);
    }
  }

  /** sortNodes keeps every node where it was: each path reaches the same nodes, as often. */
  lemma {:induction false} SortKeepsNodes(forest: seq<Tree>, leq: (string, string) -> bool, p: Path)
    requires p != []
    ensures Reached(SortForest(forest, leq), p) == Reached(forest, p)
    decreases Size(forest), 1
  {
    SortChildrenKeepsNodes(SortByTitle(forest, leq), leq, p);
    SortByTitleKeepsReached(forest, leq, p);
  }

  lemma {:induction false} SortChildrenKeepsNodes(forest: seq<Tree>, leq: (string, string) -> bool, p: Path)
    requires p != []
    ensures Reached(SortChildren(forest, leq), p) == Reached(forest, p)
    decreases Size(forest), 0
  {
    if forest != [] {
      var t := forest[0];
      if |p| > 1 {
        SortKeepsNodes(t.children, leq, p[1..]);
      }
      SortChildrenKeepsNodes(forest[1..], leq, p);
      var t', rest := t.(children := SortForest(t.children, leq)), SortChildren(forest[1..], leq);
      assert ([t'] + rest)[1..] == rest;
      assert Here(t', p) == Here(t, p);
    }
  }

  /** sortNodes puts every sibling list in title order. */
  lemma {:induction false} SortOrders(forest: seq<Tree>, leq: (string, string) -> bool)
    requires TotalPreorder(leq)
    ensures Ordered(SortForest(forest, leq), leq)
    decreases Size(forest), 1
  {
    var s := SortByTitle(forest, leq);
    SortByTitleSorts(forest, "", leq);
    SortChildrenOrders(s, leq);
    var r := SortChildren(s, leq);
    assert forall i :: 0 <= i < |r| ==> r[i].title == s[i].title;
  }

  lemma {:induction false} SortChildrenOrders(s: seq<Tree>, leq: (string, string) -> bool)
    requires TotalPreorder(leq)
    ensures |SortChildren(s, leq)| == |s|
    ensures forall i :: 0 <= i < |s| ==>
      SortChildren(s, leq)[i].title == s[i].title && Ordered(SortChildren(s, leq)[i].children, leq)
    decreases Size(s), 0
  {
    if s != [] {
      SortOrders(s[0].children, leq);
      SortChildrenOrders(s[1..], leq);
    }
  }

  // ---- The nodes under construction ----

  datatype Node = Node(key: string, segment: string, title: string, href: Option<string>, children: seq<nat>)

  /** Which list `level` aliases: the root's, or some node's children. */
  datatype Level = Root | Children(owner: nat)

  datatype Arena = Arena(root: seq<nat>, nodes: seq<Node>)

  predicate IsLevel(a: Arena, level: Level) {
    level.Children? ==> level.owner < |a.nodes|
  }

  function ListAt(a: Arena, level: Level): seq<nat>
    requires IsLevel(a, level)
  {
    match level
    case Root => a.root
    case Children(owner) => a.nodes[owner].children
  }

  /** level.push(node) */
  function Pushed(a: Arena, level: Level, node: Node): Arena
    requires IsLevel(a, level)
  {
    var n := |a.nodes|;
    match level
    case Root => Arena(a.root + [n], a.nodes + [node])
    case Children(owner) =>
      Arena(a.root, a.nodes[owner := a.nodes[owner].(children := a.nodes[owner].children + [n])] + [node])
  }

  ghost predicate InLevel(paths: seq<Path>, level: Level, n: nat) {
    && n < |paths| && paths[n] != []
    && match level
       case Root => |paths[n]| == 1
       case Children(owner) => owner < |paths| && paths[n][..|paths[n]| - 1] == paths[owner] && paths[owner] != []
  }

  /** The list at `level` holds, once each, exactly the nodes one segment below it, all made after its owner. */
  ghost predicate LevelOk(a: Arena, paths: seq<Path>, level: Level) {
    IsLevel(a, level) ==>
      && var list := ListAt(a, level);
      && (forall i, j :: 0 <= i < j < |list| ==> list[i] != list[j])
      && (forall n: nat {:trigger n in list} {:trigger InLevel(paths, level, n)} ::
            n in list <==> InLevel(paths, level, n))
      && (forall n <- list :: n < |a.nodes| && (level.Children? ==> level.owner < n))
  }

  ghost predicate NodeOk(a: Arena, paths: seq<Path>, n: nat) {
    n < |a.nodes| && n < |paths| ==>
      && paths[n] != [] && a.nodes[n].key == Join(paths[n]) && a.nodes[n].segment == paths[n][|paths[n]| - 1]
      && (|paths[n]| > 1 ==> paths[n][..|paths[n]| - 1] in paths)
  }

  ghost predicate Distinct(paths: seq<Path>) {
    forall i, j :: 0 <= i < j < |paths| ==> paths[i] != paths[j]
  }

  /** `paths` gives each node's place: places are distinct, and lists follow them. */
  ghost predicate ArenaOk(a: Arena, paths: seq<Path>) {
    && |paths| == |a.nodes| && Distinct(paths)
    && (forall n: nat {:trigger NodeOk(a, paths, n)} :: NodeOk(a, paths, n))
    && (forall level {:trigger LevelOk(a, paths, level)} :: LevelOk(a, paths, level))
  }

  ghost function PathAt(paths: seq<Path>, level: Level): Path {
    match level
    case Root => []
    case Children(owner) => if owner < |paths| then paths[owner] else []
  }

  /** Pushing a node with a new key keeps the arena well formed. */
  lemma PushKeepsArena(a: Arena, paths: seq<Path>, level: Level, node: Node)
    requires ArenaOk(a, paths) && IsLevel(a, level)
    requires node.children == [] && PathAt(paths, level) + [node.segment] !in paths
    requires node.key == Join(PathAt(paths, level) + [node.segment])
    ensures ArenaOk(Pushed(a, level, node), paths + [PathAt(paths, level) + [node.segment]])
  {
    var path := PathAt(paths, level) + [node.segment];
    var b, paths' := Pushed(a, level, node), paths + [path];
    assert path[..|path| - 1] == PathAt(paths, level);
    if level.Children? {
      assert NodeOk(a, paths, level.owner);
      assert paths'[level.owner] == PathAt(paths, level);
    }
    forall n: nat
      ensures NodeOk(b, paths', n)
    {
      assert NodeOk(a, paths, n);
    }
    forall l: Level
      ensures LevelOk(b, paths', l)
    {
      PushKeepsLevel(a, paths, level, node, l);
    }
  }

  lemma PushKeepsLevel(a: Arena, paths: seq<Path>, level: Level, node: Node, l: Level)
    requires ArenaOk(a, paths) && IsLevel(a, level)
    requires node.children == [] && PathAt(paths, level) + [node.segment] !in paths
    ensures LevelOk(Pushed(a, level, node), paths + [PathAt(paths, level) + [node.segment]], l)
  {
    var path := PathAt(paths, level) + [node.segment];
    var b, paths', made := Pushed(a, level, node), paths + [path], |a.nodes|;
    assert path[..|path| - 1] == PathAt(paths, level);
    if level.Children? {
      assert NodeOk(a, paths, level.owner);
    }
    if IsLevel(b, l) {
      if l == Children(made) {
        assert ListAt(b, l) == [];
        forall n: nat
          ensures !InLevel(paths', l, n)
        {
          NothingBelow(a, paths, path, n);
        }
      } else {
        assert LevelOk(a, paths, l);
        if l.Children? {
          assert NodeOk(a, paths, l.owner);
        }
        assert ListAt(b, l) == ListAt(a, l) + if l == level then [made] else [];
        assert made !in ListAt(a, l);
        assert InLevel(paths', l, made) <==> l == level;
        forall n: nat | n < |paths|
          ensures InLevel(paths', l, n) <==> InLevel(paths, l, n)
        {
          OlderLevelStays(paths, path, l, n);
        }
      }
    }
  }

  /** No node is yet below a place that is new: its parent would have been placed. */
  lemma NothingBelow(a: Arena, paths: seq<Path>, path: Path, n: nat)
    requires ArenaOk(a, paths) && path !in paths && path != []
    ensures !InLevel(paths + [path], Children(|paths|), n)
  {
    assert NodeOk(a, paths, n);
  }

  lemma OlderLevelStays(paths: seq<Path>, path: Path, l: Level, n: nat)
    requires n < |paths| && (l.Children? ==> l.owner < |paths|)
    ensures InLevel(paths + [path], l, n) <==> InLevel(paths, l, n)
  {
  }

  // ---- What the arena represents ----

  ghost function NodeLabel(node: Node): Label {
    Label(node.key, node.title, node.href)
  }

  /** The arena's places are the nonempty prefixes of `docs` and of `partial`. */
  ghost predicate Places(paths: seq<Path>, docs: seq<Doc>, partial: Path) {
    forall p {:trigger p in paths} :: p in paths <==> p != [] && (IsPrefixOf(docs, p) || p <= partial)
  }

  ghost predicate LabelOk(nodes: seq<Node>, paths: seq<Path>, docs: seq<Doc>, n: nat) {
    n < |nodes| && n < |paths| && paths[n] != [] ==> NodeLabel(nodes[n]) == LabelFor(docs, paths[n])
  }

  ghost predicate Labelled(nodes: seq<Node>, paths: seq<Path>, docs: seq<Doc>) {
    forall n: nat {:trigger LabelOk(nodes, paths, docs, n)} :: LabelOk(nodes, paths, docs, n)
  }

  /** Labels and hrefs are written on nodes; lists and keys stay. */
  lemma RelabelKeepsArena(a: Arena, paths: seq<Path>, n: nat, node: Node)
    requires ArenaOk(a, paths) && n < |a.nodes|
    requires node.key == a.nodes[n].key && node.segment == a.nodes[n].segment && node.children == a.nodes[n].children
    ensures ArenaOk(a.(nodes := a.nodes[n := node]), paths)
  {
    var b := a.(nodes := a.nodes[n := node]);
    forall m: nat
      ensures NodeOk(b, paths, m)
    {
      assert NodeOk(a, paths, m);
    }
    forall l: Level
      ensures LevelOk(b, paths, l)
    {
      assert LevelOk(a, paths, l);
      if IsLevel(a, l) {
        assert ListAt(b, l) == ListAt(a, l);
      }
    }
  }

  // ---- The object graph as a forest ----

  ghost predicate Young(a: Arena, list: seq<nat>, bound: nat) {
    forall n <- list :: bound <= n < |a.nodes|
  }

  ghost predicate Descends(a: Arena) {
    forall n :: 0 <= n < |a.nodes| ==> Young(a, a.nodes[n].children, n + 1)
  }

  lemma ArenaDescends(a: Arena, paths: seq<Path>)
    requires ArenaOk(a, paths)
    ensures Descends(a) && Young(a, a.root, 0)
  {
    assert LevelOk(a, paths, Root);
    forall n | 0 <= n < |a.nodes|
      ensures Young(a, a.nodes[n].children, n + 1)
    {
      assert LevelOk(a, paths, Children(n));
      assert ListAt(a, Children(n)) == a.nodes[n].children;
    }
  }

  function Forest(a: Arena, list: seq<nat>, ghost bound: nat): (r: seq<Tree>)
    requires Descends(a) && Young(a, list, bound) && bound <= |a.nodes|
    ensures |r| == |list|
    decreases |a.nodes| - bound, |list|
  {
    if list == [] then []
    else
      assert list[0] in list && (forall n <- list[1..] :: n in list);
      var node := a.nodes[list[0]];
      [Tree(node.key, node.segment, node.title, node.href, Forest(a, node.children, list[0] + 1))]
      + Forest(a, list[1..], bound)
  }

  ghost function Unique(paths: seq<Path>, nodes: seq<Node>, p: Path): multiset<Label>
    requires |paths| == |nodes|
  {
    if p in paths then
      var n: nat :| n < |paths| && paths[n] == p;
      multiset{NodeLabel(nodes[n])}
    else multiset{}
  }

  ghost predicate Lists(paths: seq<Path>, list: seq<nat>, q: Path) {
    exists i :: 0 <= i < |list| && list[i] < |paths| && paths[list[i]] == q
  }

  /** A list of distinct nodes, each one segment below `top`. */
  ghost predicate Siblings(a: Arena, paths: seq<Path>, list: seq<nat>, top: Path) {
    && (forall i, j :: 0 <= i < j < |list| ==> list[i] != list[j])
    && (forall i :: 0 <= i < |list| ==>
          list[i] < |paths| && list[i] < |a.nodes| && paths[list[i]] == top + [a.nodes[list[i]].segment])
  }

  lemma ListsSplit(a: Arena, paths: seq<Path>, list: seq<nat>, top: Path, x: string)
    requires Distinct(paths) && list != [] && Siblings(a, paths, list, top)
    ensures Siblings(a, paths, list[1..], top)
    ensures Lists(paths, list, top + [x]) <==> a.nodes[list[0]].segment == x || Lists(paths, list[1..], top + [x])
    ensures a.nodes[list[0]].segment == x ==> !Lists(paths, list[1..], top + [x])
  {
    var n, rest, y := list[0], list[1..], a.nodes[list[0]].segment;
    assert forall i :: 0 <= i < |rest| ==> rest[i] == list[i + 1];
    assert (top + [x])[|top|] == x && (top + [y])[|top|] == y;
    if Lists(paths, list, top + [x]) && y != x {
      var i :| 0 <= i < |list| && list[i] < |paths| && paths[list[i]] == top + [x];
      assert i != 0;
      assert rest[i - 1] == list[i];
    }
  }

  lemma LevelSiblings(a: Arena, paths: seq<Path>, level: Level)
    requires ArenaOk(a, paths) && IsLevel(a, level)
    ensures Siblings(a, paths, ListAt(a, level), PathAt(paths, level))
    ensures forall x {:trigger Lists(paths, ListAt(a, level), PathAt(paths, level) + [x])} ::
      Lists(paths, ListAt(a, level), PathAt(paths, level) + [x]) <==> PathAt(paths, level) + [x] in paths
  {
    var list, top := ListAt(a, level), PathAt(paths, level);
    assert LevelOk(a, paths, level);
    if level.Children? {
      assert NodeOk(a, paths, level.owner);
    }
    forall i | 0 <= i < |list|
      ensures list[i] < |paths| && list[i] < |a.nodes| && paths[list[i]] == top + [a.nodes[list[i]].segment]
    {
      assert list[i] in list && InLevel(paths, level, list[i]) && NodeOk(a, paths, list[i]);
    }
    forall x | top + [x] in paths
      ensures Lists(paths, list, top + [x])
    {
      var n: nat :| n < |paths| && paths[n] == top + [x];
      assert (top + [x])[..|top|] == top;
      assert InLevel(paths, level, n);
      assert n in list;
    }
  }

  /** Following `p` down from siblings below `top` reaches the node placed at `top + p`, if its ancestor is listed. */
  lemma {:induction false} ListReaches(a: Arena, paths: seq<Path>, list: seq<nat>, bound: nat, top: Path, p: Path)
    requires ArenaOk(a, paths) && Descends(a) && Young(a, list, bound) && bound <= |a.nodes| && p != []
    requires Siblings(a, paths, list, top)
    ensures Reached(Forest(a, list, bound), p)
         == if Lists(paths, list, top + [p[0]]) then Unique(paths, a.nodes, top + p) else multiset{}
    decreases |p|, 1, |list|
  {
    if list != [] {
      var n, rest := list[0], list[1..];
      assert n in list && (forall m <- rest :: m in list);
      var f := Forest(a, list, bound);
      assert f[1..] == Forest(a, rest, bound);
      ListsSplit(a, paths, list, top, p[0]);
      ListReaches(a, paths, rest, bound, top, p);
      NodeReaches(a, paths, n, top, p);
    }
  }

  lemma {:induction false} NodeReaches(a: Arena, paths: seq<Path>, n: nat, top: Path, p: Path)
    requires ArenaOk(a, paths) && Descends(a) && n < |a.nodes| && p != []
    requires paths[n] == top + [a.nodes[n].segment]
    ensures Young(a, a.nodes[n].children, n + 1)
    ensures Here(Tree(a.nodes[n].key, a.nodes[n].segment, a.nodes[n].title, a.nodes[n].href,
                      Forest(a, a.nodes[n].children, n + 1)), p)
         == if a.nodes[n].segment == p[0] then Unique(paths, a.nodes, top + p) else multiset{}
    decreases |p|, 0
  {
    var node := a.nodes[n];
    assert Young(a, node.children, n + 1) && |paths| == |a.nodes|;
    hide ArenaOk, Descends, Siblings, Lists, Young, Unique;
    if node.segment == p[0] {
      if |p| == 1 {
        assert top + p == paths[n];
        PlacedOnce(a, paths, n);
      } else {
        var l := Children(n);
        assert PathAt(paths, l) == paths[n] && ListAt(a, l) == node.children;
        LevelSiblings(a, paths, l);
        ListReaches(a, paths, node.children, n + 1, paths[n], p[1..]);
        assert paths[n] + p[1..] == top + p;
        if top + p in paths {
          PrefixIsPlaced(a, paths, top + p, paths[n] + [p[1]]);
        } else {
          NotPlaced(paths, a.nodes, top + p);
        }
      }
    }
  }

  lemma PlacedOnce(a: Arena, paths: seq<Path>, n: nat)
    requires ArenaOk(a, paths) && n < |paths|
    ensures Unique(paths, a.nodes, paths[n]) == multiset{NodeLabel(a.nodes[n])}
  {
  }

  lemma NotPlaced(paths: seq<Path>, nodes: seq<Node>, p: Path)
    requires |paths| == |nodes| && p !in paths
    ensures Unique(paths, nodes, p) == multiset{}
  {
  }

  lemma {:induction false} PrefixIsPlaced(a: Arena, paths: seq<Path>, p: Path, q: Path)
    requires ArenaOk(a, paths) && p in paths && q != [] && q <= p
    ensures q in paths
    decreases |p|
  {
    if q != p {
      var n: nat :| n < |paths| && paths[n] == p;
      assert NodeOk(a, paths, n);
      PrefixIsPlaced(a, paths, p[..|p| - 1], q);
    }
  }

  /** With places the slug prefixes and labels right, the object graph represents the documents. */
  lemma ArenaRepresents(a: Arena, paths: seq<Path>, docs: seq<Doc>)
    requires ArenaOk(a, paths) && Places(paths, docs, []) && Labelled(a.nodes, paths, docs)
    ensures Descends(a) && Young(a, a.root, 0) && Represents(Forest(a, a.root, 0), docs)
  {
    ArenaDescends(a, paths);
    assert LevelOk(a, paths, Root);
    forall p: Path | p != []
      ensures Reached(Forest(a, a.root, 0), p)
           == if IsPrefixOf(docs, p) then multiset{LabelFor(docs, p)} else multiset{}
    {
      LevelSiblings(a, paths, Root);
      ListReaches(a, paths, a.root, 0, [], p);
      assert [] + p == p && [] + [p[0]] == [p[0]];
      if p in paths {
        PrefixIsPlaced(a, paths, p, [p[0]]);
        var m: nat :| m < |paths| && paths[m] == p && Unique(paths, a.nodes, p) == multiset{NodeLabel(a.nodes[m])};
        assert LabelOk(a.nodes, paths, docs, m);
      }
      assert p in paths <==> IsPrefixOf(docs, p);
    }
  }

  /** buildTree's working state, with each node's place kept beside it. */
  class TreeBuilder {
    var root: seq<nat>
    var nodes: seq<Node>
    ghost var paths: seq<Path>

    ghost function State(): Arena
      reads this
    {
      Arena(root, nodes)
    }

    /** Nodes exactly at the prefixes of `docs` and of `partial`, all labelled after `docs`. */
    ghost predicate Holds(docs: seq<Doc>, partial: Path)
      reads this
    {
      ArenaOk(State(), paths) && Places(paths, docs, partial) && Labelled(nodes, paths, docs)
    }

    constructor ()
      ensures Holds([], [])
    {
      root, nodes, paths := [], [], [];
    }

    /** level.find(item => item.key === key) */
    method Find(level: Level, segment: string, key: string, ghost docs: seq<Doc>, ghost partial: Path)
      returns (found: Option<nat>)
      requires Holds(docs, partial) && IsLevel(State(), level) && key == Join(PathAt(paths, level) + [segment])
      ensures found.Some? ==> found.value < |nodes| && paths[found.value] == PathAt(paths, level) + [segment]
      ensures found.None? ==> PathAt(paths, level) + [segment] !in paths
    {
      var list := match level case Root => root case Children(owner) => nodes[owner].children;
      ghost var place := PathAt(paths, level) + [segment];
      assert LevelOk(State(), paths, level) && list == ListAt(State(), level);
      for i := 0 to |list|
        invariant forall j :: 0 <= j < i ==> list[j] < |paths| && paths[list[j]] != place
      {
        var n := list[i];
        assert n in list && InLevel(paths, level, n) && NodeOk(State(), paths, n);
        assert paths[n] == PathAt(paths, level) + [nodes[n].segment];
        if nodes[n].key == key {
          KeyDecidesSegment(PathAt(paths, level), nodes[n].segment, segment);
          return Some(n);
        }
      }
      LevelSiblings(State(), paths, level);
      assert !Lists(paths, list, place);
      return None;
    }

    /** createNode and push, through the alias. */
    method CreateNode(segment: string, key: string, level: Level, ghost docs: seq<Doc>, ghost here: Path)
      returns (n: nat)
      requires Holds(docs, here) && IsLevel(State(), level) && PathAt(paths, level) == here
      requires here + [segment] !in paths && key == Join(here + [segment])
      modifies this
      ensures n < |nodes| && |nodes| == |paths| && paths[n] == here + [segment] && nodes[n].key == key
      ensures Holds(docs, here + [segment])
    {
      n := |nodes|;
      ghost var a, was := State(), paths;
      var node := Node(key, segment, TitleFromSegment(segment), None, []);
      PushKeepsArena(a, paths, level, node);
      CreatedIsPlaced(a, was, level, node, docs, here, here + [segment]);
      match level {
        case Root => root, nodes := root + [n], nodes + [node];
        case Children(owner) =>
          nodes := nodes[owner := nodes[owner].(children := nodes[owner].children + [n])] + [node];
      }
      paths := paths + [here + [segment]];
      assert State() == Pushed(a, level, node);
    }

    /** The leaf's title and href. */
    method LabelLeaf(n: nat, key: string, doc: Doc, ghost docs: seq<Doc>)
      requires Holds(docs, doc.slugParts) && n < |nodes| && n < |paths| && paths[n] == doc.slugParts
      requires doc.slugParts != [] && key == Join(doc.slugParts)
      modifies this`nodes
      ensures Holds(docs + [doc], []) && |nodes| == |old(nodes)|
    {
      ghost var a := State();
      assert NodeOk(a, paths, n);
      var node := nodes[n].(title := doc.title, href := Some("/docs/" + key));
      RelabelKeepsArena(a, paths, n, node);
      LeafIsLabelled(a, paths, doc, n, node, docs);
      nodes := nodes[n := node];
      assert State() == a.(nodes := a.nodes[n := node]);
    }

    /** One round of the inner loop: find or create the child for segment `i`, label it at the leaf, step into it. */
    method Descend(doc: Doc, i: nat, level: Level, ghost docs: seq<Doc>) returns (next: Level)
      requires i < |doc.slugParts| && Holds(docs, doc.slugParts[..i])
      requires IsLevel(State(), level) && PathAt(paths, level) == doc.slugParts[..i]
      modifies this
      ensures if i + 1 < |doc.slugParts| then Holds(docs, doc.slugParts[..i + 1]) else Holds(docs + [doc], [])
      ensures IsLevel(State(), next) && PathAt(paths, next) == doc.slugParts[..i + 1]
    {
      var segment := doc.slugParts[i];
      var key := Join(doc.slugParts[..i + 1]);
      ghost var here, place := doc.slugParts[..i], doc.slugParts[..i + 1];
      hide ArenaOk, Places, Labelled, Join;
      assert place == here + [segment];
      var found := Find(level, segment, key, docs, here);
      var n: nat;
      if found.None? {
        n := CreateNode(segment, key, level, docs, here);
      } else {
        n := found.value;
        FoundIsPlaced(paths, docs, here, place);
      }
      if i == |doc.slugParts| - 1 {
        assert place == doc.slugParts;
        LabelLeaf(n, key, doc, docs);
      }
      next := Children(n);
    }

    /** The outer loop's body: follow, creating what is missing, then title and link the last node. */
    method AddDoc(doc: Doc, ghost docs: seq<Doc>)
      requires Holds(docs, [])
      modifies this
      ensures Holds(docs + [doc], [])
    {
      var level := Root;
      assert doc.slugParts[..0] == [];
      if doc.slugParts == [] {
        EmptySlugAddsNothing(nodes, paths, docs, doc);
      }
      for i := 0 to |doc.slugParts|
        invariant IsLevel(State(), level) && PathAt(paths, level) == doc.slugParts[..i]
        invariant if i < |doc.slugParts| || i == 0 then Holds(docs, doc.slugParts[..i]) else Holds(docs + [doc], [])
        invariant doc.slugParts == [] ==> Holds(docs + [doc], [])
      {
        level := Descend(doc, i, level, docs);
      }
    }
  }

  lemma FoundIsPlaced(paths: seq<Path>, docs: seq<Doc>, here: Path, place: Path)
    requires Places(paths, docs, here) && place in paths && place != [] && here == place[..|place| - 1]
    ensures Places(paths, docs, place)
  {
    forall p
      ensures p in paths <==> p != [] && (IsPrefixOf(docs, p) || p <= place)
    {
      assert p <= place <==> p == place || p <= here;
    }
  }

  lemma CreatedIsPlaced(a: Arena, paths: seq<Path>, level: Level, node: Node, docs: seq<Doc>, here: Path, place: Path)
    requires |paths| == |a.nodes| && IsLevel(a, level) && Places(paths, docs, here) && Labelled(a.nodes, paths, docs)
    requires place == here + [node.segment] && place !in paths
    requires NodeLabel(node) == Label(Join(place), TitleFromSegment(node.segment), None)
    ensures Places(paths + [place], docs, place) && Labelled(Pushed(a, level, node).nodes, paths + [place], docs)
  {
    forall p
      ensures p in paths + [place] <==> p != [] && (IsPrefixOf(docs, p) || p <= place)
    {
      assert p <= place <==> p == place || p <= here;
    }
    if DocumentAt(docs, place).Some? {
      DocumentIsPrefix(docs, place);
    }
    forall n: nat
      ensures LabelOk(Pushed(a, level, node).nodes, paths + [place], docs, n)
    {
      assert LabelOk(a.nodes, paths, docs, n);
    }
  }

  lemma LeafIsLabelled(a: Arena, paths: seq<Path>, doc: Doc, n: nat, node: Node, docs: seq<Doc>)
    requires |paths| == |a.nodes| && n < |paths| && Distinct(paths) && doc.slugParts != [] && paths[n] == doc.slugParts
    requires Places(paths, docs, doc.slugParts) && Labelled(a.nodes, paths, docs)
    requires NodeLabel(node) == DocLabel(doc)
    ensures Places(paths, docs + [doc], []) && Labelled(a.nodes[n := node], paths, docs + [doc])
  {
    forall p
      ensures p in paths <==> p != [] && (IsPrefixOf(docs + [doc], p) || p <= [])
    {
      IsPrefixOfSnoc(docs, doc, p);
    }
    var nodes, more := a.nodes[n := node], docs + [doc];
    forall m: nat
      ensures LabelOk(nodes, paths, more, m)
    {
      assert LabelOk(a.nodes, paths, docs, m);
      if m < |paths| && paths[m] != [] {
        LabelForSnoc(docs, doc, paths[m]);
      }
    }
  }

  lemma EmptySlugAddsNothing(nodes: seq<Node>, paths: seq<Path>, docs: seq<Doc>, doc: Doc)
    requires doc.slugParts == [] && Places(paths, docs, []) && Labelled(nodes, paths, docs)
    ensures Places(paths, docs + [doc], []) && Labelled(nodes, paths, docs + [doc])
  {
    forall p
      ensures p in paths <==> p != [] && (IsPrefixOf(docs + [doc], p) || p <= [])
    {
      IsPrefixOfSnoc(docs, doc, p);
    }
    var more := docs + [doc];
    forall m: nat
      ensures LabelOk(nodes, paths, more, m)
    {
      assert LabelOk(nodes, paths, docs, m);
      if m < |paths| && paths[m] != [] {
        LabelForSnoc(docs, doc, paths[m]);
      }
    }
  }

  /**
   * `buildTree`: each nonempty slug prefix is reached by following its segments, at exactly one node; a
   * document's node carries its title and href, any other node a derived title and no href; nothing else
   * is reached; and every sibling list is in title order.
   */
  method BuildTree(docs: seq<Doc>, leq: (string, string) -> bool) returns (forest: seq<Tree>)
    requires TotalPreorder(leq)
    ensures Represents(forest, docs)
    ensures Ordered(forest, leq)
  {
    var builder := new TreeBuilder();
    for k := 0 to |docs|
      invariant fresh(builder) && builder.Holds(docs[..k], [])
    {
      assert docs[..k + 1] == docs[..k] + [docs[k]];
      builder.AddDoc(docs[k], docs[..k]);
    }
    assert docs[..|docs|] == docs;
    var a := Arena(builder.root, builder.nodes);
    ArenaRepresents(a, builder.paths, docs);
    var unsorted := Forest(a, a.root, 0);
    forest := SortForest(unsorted, leq);
    SortOrders(unsorted, leq);
    forall p: Path | p != []
      ensures Reached(forest, p) == if IsPrefixOf(docs, p) then multiset{LabelFor(docs, p)} else multiset{}
    {
      SortKeepsNodes(unsorted, leq, p);
    }
  }

  ghost predicate DistinctSlugs(docs: seq<Doc>) {
    forall i, j :: 0 <= i < j < |docs| ==> docs[i].slugParts != docs[j].slugParts
  }

  lemma {:induction false} DocumentAtFinds(docs: seq<Doc>, p: Path)
    ensures DocumentAt(docs, p).Some? <==> exists i :: 0 <= i < |docs| && docs[i].slugParts == p
    ensures DocumentAt(docs, p).Some? ==> DocumentAt(docs, p).value in docs && DocumentAt(docs, p).value.slugParts == p
  {
    if docs != [] {
      var n := |docs| - 1;
      DocumentAtFinds(docs[..n], p);
      assert forall i :: 0 <= i < n ==> docs[..n][i] == docs[i];
    }
  }

  /** Hrefs sit on exactly the document nodes; with distinct slugs each document's title is on its own node. */
  lemma HrefsOnDocuments(forest: seq<Tree>, docs: seq<Doc>, p: Path, found: Label)
    requires Represents(forest, docs) && p != [] && found in Reached(forest, p)
    ensures found.href.Some? <==> exists i :: 0 <= i < |docs| && docs[i].slugParts == p
    ensures found.href.Some? ==> found.href == Some("/docs/" + Join(p))
    ensures forall i :: 0 <= i < |docs| && IsLastAt(docs, i, p) ==> found.title == docs[i].title
    ensures DistinctSlugs(docs) ==>
      forall i :: 0 <= i < |docs| && docs[i].slugParts == p ==> found.title == docs[i].title
    ensures found.key == Join(p) && (found.href.None? ==> found.title == TitleFromSegment(p[|p| - 1]))
  {
    DocumentAtFinds(docs, p);
    forall i | 0 <= i < |docs| && IsLastAt(docs, i, p)
      ensures found.title == docs[i].title
    {
      DocumentAtIsLast(docs, i, p);
    }
  }

  /** The last of the documents with this slug. */
  ghost predicate IsLastAt(docs: seq<Doc>, i: nat, p: Path)
    requires i < |docs|
  {
    docs[i].slugParts == p && forall j :: i < j < |docs| ==> docs[j].slugParts != p
  }

  lemma {:induction false} DocumentAtIsLast(docs: seq<Doc>, i: nat, p: Path)
    requires i < |docs| && IsLastAt(docs, i, p)
    ensures DocumentAt(docs, p) == Some(docs[i])
  {
    if i < |docs| - 1 {
      DocumentAtIsLast(docs[..|docs| - 1], i, p);
    }
  }
}
