/** `purple_blist_node_next`: walking over all nodes.
    Most bodies below hide every definition; the short lemmas called `...Is` and
    `...Parts` give back the single definition that a step needs. */
module BuddyWalk {
  import opened Lists
  import opened BuddyTree
  import opened BuddyEdit
  import opened BuddyConnect

  /** The node `n` and all nodes below it, `depth` levels deep, parents before children and in order. */
  ghost function Subtree(ks: Kids, n: Node, depth: nat): seq<Node>
    decreases depth, 0, 0
  {
    [n] + if n in ks && 0 < depth then Forest(ks, ks[n], depth - 1) else []
  }

  ghost function Forest(ks: Kids, s: seq<Node>, depth: nat): seq<Node>
    decreases depth, 1, |s|
  {
    if s == [] then [] else Subtree(ks, s[0], depth) + Forest(ks, s[1..], depth)
  }

  /** How many levels there can be below a node. */
  function Depth(n: Node): nat {
    match n.kind
    case GroupNode => 2
    case ContactNode => 1
    case _ => 0
  }

  /** All nodes of the list in preorder. */
  ghost function Preorder(list: BuddyList): seq<Node>
    reads list`kids
  {
    Forest(list.kids, if null in list.kids then list.kids[null] else [], 2)
  }

  /** How many levels there can be below the children of `p`. */
  function Below(p: Node?): nat {
    if p == null then 2 else if p.kind == GroupNode then 1 else 0
  }

  /** What follows the node `n` and everything below it. */
  ghost function Tail(list: BuddyList, n: Node): seq<Node>
    reads *
    decreases 2 - Depth(n)
  {
    if n.parent in list.kids && n in list.kids[n.parent] then
      var s := list.kids[n.parent];
      Forest(list.kids, s[IndexOf(s, n) + 1..], Below(n.parent))
      + if n.parent == null || Depth(n.parent) <= Depth(n) then [] else Tail(list, n.parent)
    else []
  }

  /** The node `n` and all that comes after it. */
  ghost function WalkFrom(list: BuddyList, n: Node): seq<Node>
    reads *
  {
    Subtree(list.kids, n, Depth(n)) + Tail(list, n)
  }

  /** All that is yet to come when the walk has reached `n`. */
  ghost function Rest(list: BuddyList, n: Node?): seq<Node>
    reads *
  {
    if n == null then [] else WalkFrom(list, n)
  }

  /** The parent is one level up. */
  lemma LevelUp(list: BuddyList, n: Node)
    requires Standing(list) && list.Listed(n)
    ensures n.parent in list.kids && n in list.kids[n.parent] && n.parent != n
    ensures n.parent == null <==> Depth(n) == 2
    ensures n.parent != null ==> list.Listed(n.parent) && Depth(n) < Depth(n.parent)
    ensures n in list.kids ==> Below(n.parent) == Depth(n) && Below(n) + 1 == Depth(n)
    ensures n !in list.kids ==> Depth(n) == 0
  {
    assert Fits(n.parent, n);
  }

  lemma ChildrenListed(list: BuddyList, p: Node?, i: nat)
    requires Standing(list) && p in list.kids && i < |list.kids[p]|
    ensures list.Listed(list.kids[p][i]) && list.kids[p][i].parent == p
    ensures list.kids[p][i].next == if i + 1 < |list.kids[p]| then list.kids[p][i + 1] else null
    ensures IndexOf(list.kids[p], list.kids[p][i]) == i
  {
    NextOfChild(list, p, i);
    StandingParts(list);
    hide Standing, Shaped;
    NoDupAt(list, p);
    IndexAt(list.kids[p], i);
  }

  lemma IndexAt(s: seq<Node>, i: nat)
    requires NoDup(s) && i < |s|
    ensures IndexOf(s, s[i]) == i
  {
    IndexOfIs(s, s[i], i);
  }

  lemma ForestHead(ks: Kids, s: seq<Node>, depth: nat, i: nat)
    requires i < |s|
    ensures Forest(ks, s[i..], depth) == Subtree(ks, s[i], depth) + Forest(ks, s[i + 1..], depth)
  {
    assert s[i..][0] == s[i] && s[i..][1..] == s[i + 1..];
  }

  lemma SubtreeIs(ks: Kids, n: Node, depth: nat)
    ensures n !in ks || depth == 0 ==> Subtree(ks, n, depth) == [n]
    ensures n in ks && 0 < depth ==> Subtree(ks, n, depth) == [n] + Forest(ks, ks[n], depth - 1)
  {
  }

  lemma TailIs(list: BuddyList, n: Node)
    requires Standing(list) && list.Listed(n)
    ensures var s := list.kids[n.parent];
            Tail(list, n) == Forest(list.kids, s[IndexOf(s, n) + 1..], Below(n.parent)) + if n.parent == null then []
                else Tail(list, n.parent)
  {
    LevelUp(list, n);
  }

  /** A child and its younger siblings, and what follows them all. */
  lemma WalkFromChild(list: BuddyList, p: Node?, i: nat)
    requires Standing(list) && p in list.kids && i < |list.kids[p]| && (p != null ==> list.Listed(p))
    ensures WalkFrom(list, list.kids[p][i]) == Forest(list.kids, list.kids[p][i..], Below(p)) + if p == null then []
      else Tail(list, p)
  {
    hide *;
    var s := list.kids[p];
    var n := s[i];
    ChildrenListed(list, p, i);
    LevelUp(list, n);
    TailIs(list, n);
    WalkFromIs(list, n);
    SubtreeIs(list.kids, n, Depth(n));
    SubtreeIs(list.kids, n, Below(p));
    ForestHead(list.kids, s, Below(p), i);
  }

  /** `get_next_node` */
  method GetNextNode(list: BuddyList, node: Node?, godeep: bool) returns (next: Node?)
    requires Standing(list) && (node != null ==> list.Listed(node))
    ensures next != null ==> list.Listed(next)
    ensures node == null ==> next == null
    ensures node != null && godeep ==> WalkFrom(list, node) == [node] + Rest(list, next)
    ensures node != null && !godeep ==> Tail(list, node) == Rest(list, next)
    decreases if node == null then 0 else 3 - Depth(node), godeep
  {
    hide *;
    if node == null {
      return null;
    }
    Children(list, node);
    RestIs(list, null);
    RestIs(list, node.child);
    RestIs(list, node.next);
    if godeep && node.child != null {
      return node.child;
    }
    if node.next != null {
      return node.next;
    }
    ParentOf(list, node);
    next := GetNextNode(list, node.parent, false);
  }

  lemma RestIs(list: BuddyList, n: Node?)
    ensures Rest(list, n) == if n == null then [] else WalkFrom(list, n)
  {
  }

  /** The pointers of a node say what comes after it. */
  lemma Children(list: BuddyList, n: Node)
    requires Standing(list) && list.Listed(n)
    ensures n.child != null ==> list.Listed(n.child) && WalkFrom(list, n) == [n] + WalkFrom(list, n.child)
    ensures n.child == null ==> WalkFrom(list, n) == [n] + Tail(list, n)
    ensures n.next != null ==> list.Listed(n.next) && Tail(list, n) == WalkFrom(list, n.next)
    ensures n.next == null ==> Tail(list, n) == if n.parent == null then [] else Tail(list, n.parent)
  {
    hide *;
    Deeper(list, n);
    Further(list, n);
  }

  lemma Deeper(list: BuddyList, n: Node)
    requires Standing(list) && list.Listed(n)
    ensures n.child != null ==> list.Listed(n.child) && WalkFrom(list, n) == [n] + WalkFrom(list, n.child)
    ensures n.child == null ==> WalkFrom(list, n) == [n] + Tail(list, n)
  {
    hide *;
    var ks := list.kids;
    LevelUp(list, n);
    WalkFromIs(list, n);
    SubtreeIs(ks, n, Depth(n));
    ChildPointer(list, n);
    if n in ks {
      DepthOf(n);
      if ks[n] != [] {
        ChildrenListed(list, n, 0);
        WalkFromChild(list, n, 0);
        assert ks[n][0..] == ks[n];
      } else {
        ForestNone(ks, Below(n));
      }
    }
  }

  lemma DepthOf(n: Node)
    requires HasChildren(n)
    ensures Depth(n) == Below(n) + 1
  {
  }

  lemma Further(list: BuddyList, n: Node)
    requires Standing(list) && list.Listed(n)
    ensures n.next != null ==> list.Listed(n.next) && Tail(list, n) == WalkFrom(list, n.next)
    ensures n.next == null ==> Tail(list, n) == if n.parent == null then [] else Tail(list, n.parent)
  {
    hide *;
    var ks, p := list.kids, n.parent;
    LevelUp(list, n);
    TailIs(list, n);
    var i := IndexOf(ks[p], n);
    ChildrenListed(list, p, i);
    if i + 1 < |ks[p]| {
      ChildrenListed(list, p, i + 1);
      WalkFromChild(list, p, i + 1);
    } else {
      assert ks[p][i + 1..] == [];
      ForestNone(ks, Below(p));
    }
  }

  lemma WalkFromIs(list: BuddyList, n: Node)
    ensures WalkFrom(list, n) == Subtree(list.kids, n, Depth(n)) + Tail(list, n)
  {
  }

  lemma ForestNone(ks: Kids, depth: nat)
    ensures Forest(ks, [], depth) == []
  {
  }

  lemma ChildPointer(list: BuddyList, n: Node)
    requires Standing(list) && list.Listed(n)
    ensures n in list.kids ==> HasChildren(n) && n.child == if list.kids[n] == [] then null else list.kids[n][0]
    ensures n !in list.kids ==> n.child == null
  {
    hide *;
    StandingParts(list);
    LeafOf(list, n);
    if n in list.kids {
      FirstChild(list, n);
    }
  }

  lemma LeafOf(list: BuddyList, n: Node)
    requires list.Linked() && Shaped(list.kids) && list.Listed(n)
    ensures n in list.kids <==> HasChildren(n)
    ensures n !in list.kids ==> n.child == null
  {
    assert Fits(n.parent, n) && n in list.live;
  }

  lemma ParentOf(list: BuddyList, n: Node)
    requires Standing(list) && list.Listed(n)
    ensures n.parent != null ==> list.Listed(n.parent) && Depth(n) < Depth(n.parent) <= 2
    ensures Depth(n) <= 2
  {
    LevelUp(list, n);
  }

  /** What a walk that leaves out offline buddies shows. */
  function Shown(connected: set<Account>): Node -> bool {
    (n: Node) => n.kind != BuddyNode || n.account in connected
  }

  lemma ShownIs(connected: set<Account>, n: Node)
    ensures Shown(connected)(n) <==> n.kind != BuddyNode || n.account in connected
  {
  }

  lemma FilterHead(n: Node, s: seq<Node>, p: Node -> bool)
    ensures Filter([n] + s, p) == (if p(n) then [n] else []) + Filter(s, p)
  {
    assert ([n] + s)[1..] == s;
  }

  /** `purple_blist_node_next` */
  method NodeNext(list: BuddyList, node: Node, offline: bool) returns (next: Node?)
    requires Standing(list) && list.Listed(node)
    ensures next != null ==> list.Listed(next) && |WalkFrom(list, next)| < |WalkFrom(list, node)|
    ensures offline ==> WalkFrom(list, node) == [node] + Rest(list, next)
    ensures !offline && Shown(list.connected)(node) ==>
      Filter(WalkFrom(list, node), Shown(list.connected)) == [node] + Filter(Rest(list, next), Shown(list.connected))
    ensures !offline && next != null ==> Shown(list.connected)(next)
  {
    hide *;
    ghost var p := Shown(list.connected);
    next := GetNextNode(list, node, true);
    RestIs(list, next);
    FilterHead(node, Rest(list, next), p);
    if offline {
      return;
    }
    while next != null && next.kind == BuddyNode && next.account !in list.connected
      invariant next != null ==> list.Listed(next) && |WalkFrom(list, next)| < |WalkFrom(list, node)|
      invariant Filter(WalkFrom(list, node), p) == (if p(node) then [node] else []) + Filter(Rest(list, next), p)
      invariant Rest(list, next) == if next == null then [] else WalkFrom(list, next)
      decreases |Rest(list, next)|
    {
      ShownIs(list.connected, next);
      ghost var was := next;
      next := GetNextNode(list, next, true);
      RestIs(list, next);
      FilterHead(was, Rest(list, next), p);
    }
    if next != null {
      ShownIs(list.connected, next);
    }
  }

  lemma WalkStarts(list: BuddyList)
    requires Standing(list)
    ensures Preorder(list) == Rest(list, list.root)
    ensures list.root != null ==> list.Listed(list.root) && list.root.kind == GroupNode
  {
    var ks := list.kids;
    assert list.Chained(null, ks[null], {});
    if ks[null] != [] {
      assert Fits(null, ks[null][0]);
      WalkFromChild(list, null, 0);
      assert ks[null][0..] == ks[null];
    }
  }

  /** What of the rest of the walk is to be shown. */
  ghost function ToCome(list: BuddyList, n: Node?, offline: bool): seq<Node>
    reads *
  {
    if offline then Rest(list, n) else Filter(Rest(list, n), Shown(list.connected))
  }

  lemma ToComeIs(list: BuddyList, n: Node?, offline: bool)
    ensures ToCome(list, n, offline) == if offline then Rest(list, n) else Filter(Rest(list, n), Shown(list.connected))
    ensures n == null ==> ToCome(list, n, offline) == []
  {
  }

  lemma OneMore(visited: seq<Node>, n: Node, rest: seq<Node>)
    ensures visited + ([n] + rest) == visited + [n] + rest
  {
  }

  /** Repeating `purple_blist_node_next` from the root visits all nodes in
      preorder, or all but the buddies of accounts that are not connected. */
  method Walk(list: BuddyList, offline: bool) returns (visited: seq<Node>)
    requires Standing(list)
    ensures visited == if offline then Preorder(list) else Filter(Preorder(list), Shown(list.connected))
    ensures forall n :: n in visited <==>
              n in Preorder(list) && (offline || n.kind != BuddyNode || n.account in list.connected)
  {
    hide *;
    WalkStarts(list);
    visited := [];
    var n := list.root;
    if n != null {
      ShownIs(list.connected, n);
    }
    ghost var all := ToCome(list, n, offline);
    ToComeIs(list, n, offline);
    while n != null
      invariant n != null ==> list.Listed(n) && (!offline ==> Shown(list.connected)(n))
      invariant all == visited + ToCome(list, n, offline)
      decreases |Rest(list, n)|
    {
      ghost var was := visited;
      RestIs(list, n);
      ToComeIs(list, n, offline);
      visited := visited + [n];
      var next := NodeNext(list, n, offline);
      RestIs(list, next);
      ToComeIs(list, next, offline);
      OneMore(was, n, ToCome(list, next, offline));
      n := next;
    }
    ToComeIs(list, null, offline);
    FilterMembers(Preorder(list), Shown(list.connected));
    forall n { ShownIs(list.connected, n); }
  }

  /** The node that comes after `n`, or after everything below it. */
  lemma {:induction false} AfterTail(list: BuddyList, n: Node) returns (m: Node?)
    requires Standing(list) && list.Listed(n)
    ensures Tail(list, n) == Rest(list, m) && (m != null ==> list.Listed(m))
    decreases 3 - Depth(n)
  {
    hide *;
    Children(list, n);
    ParentOf(list, n);
    if n.next != null {
      m := n.next;
    } else if n.parent != null {
      m := AfterTail(list, n.parent);
    } else {
      m := null;
    }
    RestIs(list, m);
  }

  lemma AfterNode(list: BuddyList, n: Node) returns (m: Node?)
    requires Standing(list) && list.Listed(n)
    ensures WalkFrom(list, n) == [n] + Rest(list, m) && (m != null ==> list.Listed(m))
  {
    hide *;
    Children(list, n);
    if n.child != null {
      m := n.child;
      RestIs(list, m);
    } else {
      m := AfterTail(list, n);
    }
  }

  /** The walk from a node on is the rest of the walk from the root. */
  lemma {:induction false} Suffix(list: BuddyList, i: nat)
    requires Standing(list) && i < |Preorder(list)|
    ensures list.Listed(Preorder(list)[i]) && Preorder(list)[i..] == WalkFrom(list, Preorder(list)[i])
  {
    hide *;
    var all := Preorder(list);
    if i == 0 {
      WalkStarts(list);
      RestIs(list, list.root);
      var m := AfterNode(list, list.root);
    } else {
      Suffix(list, i - 1);
      var m := AfterNode(list, all[i - 1]);
      RestIs(list, m);
      assert all[i..] == all[i - 1..][1..] == Rest(list, m);
      var k := AfterNode(list, m);
      assert all[i..][0] == m;
    }
  }

  /** The walk visits no node twice. */
  lemma VisitsOnce(list: BuddyList)
    requires Standing(list)
    ensures NoDup(Preorder(list))
  {
    var all := Preorder(list);
    forall i, j | 0 <= i < j < |all| ensures all[i] != all[j] {
      Suffix(list, i);
      Suffix(list, j);
      assert |all[i..]| != |all[j..]|;
    }
  }

  lemma {:induction false} ForestSplit(ks: Kids, s: seq<Node>, depth: nat, i: nat)
    requires i <= |s|
    ensures Forest(ks, s, depth) == Forest(ks, s[..i], depth) + Forest(ks, s[i..], depth)
    decreases i
  {
    if i == 0 {
      assert s[..0] == [] && s[0..] == s;
    } else {
      assert s[..i][0] == s[0] && s[..i][1..] == s[1..][..i - 1] && s[1..][i - 1..] == s[i..];
      ForestSplit(ks, s[1..], depth, i - 1);
      hide Subtree;
    }
  }

  /** Every node is reached. */
  lemma {:induction false} Reached(list: BuddyList, n: Node) returns (before: seq<Node>)
    requires Standing(list) && list.Listed(n)
    ensures Preorder(list) == before + WalkFrom(list, n)
    decreases 3 - Depth(n)
  {
    hide *;
    var ks, p := list.kids, n.parent;
    LevelUp(list, n);
    ParentOf(list, n);
    var i := IndexOf(ks[p], n);
    WalkFromChild(list, p, i);
    ForestSplit(ks, ks[p], Below(p), i);
    if p == null {
      PreorderIs(list);
      before := Forest(ks, ks[p][..i], Below(p));
    } else {
      var a := Reached(list, p);
      WalkFromIs(list, p);
      SubtreeIs(ks, p, Depth(p));
      DepthOfParent(list, p);
      before := a + [p] + Forest(ks, ks[p][..i], Below(p));
    }
  }

  lemma PreorderIs(list: BuddyList)
    requires null in list.kids
    ensures Preorder(list) == Forest(list.kids, list.kids[null], Below(null))
  {
  }

  lemma DepthOfParent(list: BuddyList, p: Node)
    requires Standing(list) && p in list.kids
    ensures Depth(p) == Below(p) + 1
  {
  }

  /** The walk visits exactly the nodes of the list. */
  lemma VisitsAll(list: BuddyList, n: Node)
    requires Standing(list)
    ensures n in Preorder(list) <==> list.Listed(n)
  {
    hide *;
    var all := Preorder(list);
    if n in all {
      var i :| 0 <= i < |all| && all[i] == n;
      Suffix(list, i);
    }
    if list.Listed(n) {
      var before := Reached(list, n);
      var m := AfterNode(list, n);
      assert all[|before|] == n;
    }
  }

  // ---- the order of the walk ----

  /** The walk comes to `x` before it comes to `y`. */
  ghost predicate VisitsFirst(list: BuddyList, x: Node, y: Node)
    reads list`kids
  {
    exists i, j :: 0 <= i < j < |Preorder(list)| && Preorder(list)[i] == x && Preorder(list)[j] == y
  }

  /** `x` is `n`, a child of it, or a child of such a child. */
  ghost predicate Under(ks: Kids, n: Node, x: Node) {
    || x == n || (n in ks && x in ks[n])
    || (n in ks && exists c :: c in ks[n] && c in ks && x in ks[c])
  }

  lemma {:induction false} InForest(ks: Kids, s: seq<Node>, depth: nat, k: nat, x: Node)
    requires k < |s| && x in Subtree(ks, s[k], depth)
    ensures x in Forest(ks, s, depth)
  {
    ForestSplit(ks, s, depth, k);
    ForestHead(ks, s, depth, k);
    hide Subtree, Forest;
  }

  lemma RootInForest(ks: Kids, s: seq<Node>, depth: nat, n: Node)
    requires n in s
    ensures n in Forest(ks, s, depth)
  {
    var k :| 0 <= k < |s| && s[k] == n;
    InForest(ks, s, depth, k, n);
  }

  lemma UnderInSubtree(list: BuddyList, n: Node, x: Node)
    requires Standing(list) && list.Listed(n) && Under(list.kids, n, x)
    ensures x in Subtree(list.kids, n, Depth(n))
  {
    var ks := list.kids;
    SubtreeIs(ks, n, Depth(n));
    if x != n {
      DepthOfParent(list, n);
      if x in ks[n] {
        RootInForest(ks, ks[n], Depth(n) - 1, x);
      } else {
        var c :| c in ks[n] && c in ks && x in ks[c];
        var k :| 0 <= k < |ks[n]| && ks[n][k] == c;
        ChildrenListed(list, n, k);
        LevelUp(list, c);
        SubtreeIs(ks, c, Depth(c));
        RootInForest(ks, ks[c], Depth(c) - 1, x);
        InForest(ks, ks[n], Depth(n) - 1, k, x);
      }
    }
  }

  lemma FirstOfTwo(list: BuddyList, a: seq<Node>, b: seq<Node>, c: seq<Node>, x: Node, y: Node)
    requires Preorder(list) == a + (b + c) && x in b && y in c
    ensures VisitsFirst(list, x, y)
  {
    var i :| 0 <= i < |b| && b[i] == x;
    var j :| 0 <= j < |c| && c[j] == y;
    var all := a + (b + c);
    assert all[|a| + i] == x && all[|a| + |b| + j] == y;
    hide Preorder;
  }

  /** Every node comes after its parent. */
  lemma ParentFirst(list: BuddyList, n: Node)
    requires Standing(list) && list.Listed(n) && n.parent != null
    ensures VisitsFirst(list, n.parent, n)
  {
    hide *;
    var p, ks := n.parent, list.kids;
    LevelUp(list, n);
    var before := Reached(list, p);
    WalkFromIs(list, p);
    DepthOfParent(list, p);
    SubtreeIs(ks, p, Depth(p));
    RootInForest(ks, ks[p], Depth(p) - 1, n);
    var below := Forest(ks, ks[p], Depth(p) - 1);
    assert before + ([p] + below + Tail(list, p)) == before + ([p] + (below + Tail(list, p)));
    FirstOfTwo(list, before, [p], below + Tail(list, p), p, n);
  }

  /** A child and everything under it come before every later child. */
  lemma ElderFirst(list: BuddyList, p: Node?, i: nat, j: nat, x: Node)
    requires Standing(list) && p in list.kids && i < j < |list.kids[p]| && Under(list.kids, list.kids[p][i], x)
    ensures VisitsFirst(list, x, list.kids[p][j])
  {
    hide *;
    var ks, s := list.kids, list.kids[p];
    var n := s[i];
    ChildrenListed(list, p, i);
    UnderInSubtree(list, n, x);
    var before := Reached(list, n);
    WalkFromIs(list, n);
    TailIs(list, n);
    assert s[i + 1..][j - i - 1] == s[j];
    RootInForest(ks, s[i + 1..], Below(p), s[j]);
    FirstOfTwo(list, before, Subtree(ks, n, Depth(n)), Tail(list, n), x, s[j]);
  }
}
