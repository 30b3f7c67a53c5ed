/** The node structure of the buddy list and the pointer surgery shared by all
    operations of `source/libpurple/blist.c`. */
module BuddyTree {
  import opened Lists

  datatype Account = Account(id: nat)

  datatype Kind = GroupNode | ContactNode | BuddyNode | ChatNode

  /** `PurpleBlistNode` together with the fields of the four structs that embed it. */
  class Node {
    const kind: Kind
    const account: Account       // buddies and chats
    var name: string             // groups and buddies
    var prev: Node?
    var next: Node?
    var parent: Node?
    var child: Node?
    var totalsize: int           // contacts and groups
    var currentsize: int
    var online: int
    var priority: Node?          // contacts
    var priorityValid: bool
    ghost var destroyed: nat     // groups: how many emptied contacts were destroyed in them

    constructor (kind: Kind, account: Account, name: string)
      ensures this.kind == kind && this.account == account && this.name == name
      ensures prev == next == parent == child == priority == null && !priorityValid
      ensures totalsize == currentsize == online == destroyed == 0
    {
      this.kind, this.account, this.name := kind, account, name;
      prev, next, parent, child, priority, priorityValid := null, null, null, null, null, false;
      totalsize, currentsize, online, destroyed := 0, 0, 0, 0;
    }
  }

  /** `struct _purple_hbuddy` */
  datatype Key = Key(account: Account, name: string, group: Node?)

  /** The children of every node that can have children; `null` stands for the list itself. */
  type Kids = map<Node?, seq<Node>>

  /** The first node of `s` from position `i` on that is still linked, when no two neighbours are unlinked. */
  ghost function Ahead(s: seq<Node>, i: nat, gone: set<Node>): (n: Node?) {
    if |s| <= i then null
    else if s[i] !in gone then s[i]
    else if i + 1 < |s| then s[i + 1] else null
  }

  ghost function Behind(s: seq<Node>, i: nat, gone: set<Node>): (n: Node?)
    requires i <= |s|
  {
    if i == 0 then null
    else if s[i - 1] !in gone then s[i - 1]
    else if 2 <= i then s[i - 2] else null
  }

  /** The position behind `prev`, or the front. */
  ghost function After(s: seq<Node>, prev: Node?): (i: nat)
    requires prev == null || prev in s
    ensures i <= |s|
  {
    if prev == null then 0 else IndexOf(s, prev) + 1
  }

  /** The two pointers of the node at position `i` of a list. */
  ghost predicate Joined(s: seq<Node>, i: nat, gone: set<Node>)
    requires i < |s|
    reads s`prev, s`next
  {
    s[i].prev == Behind(s, i, gone) && s[i].next == Ahead(s, i + 1, gone)
  }

  predicate HasChildren(n: Node) {
    n.kind == GroupNode || n.kind == ContactNode
  }

  /** Groups at the top, contacts and chats in groups, buddies in contacts. */
  ghost predicate Fits(p: Node?, n: Node) {
    if p == null then n.kind == GroupNode
    else if p.kind == GroupNode then n.kind == ContactNode || n.kind == ChatNode
    else p.kind == ContactNode && n.kind == BuddyNode
  }

  ghost predicate Shaped(ks: Kids) {
    && null in ks
    && (forall p, n :: p in ks && n in ks[p] ==> Fits(p, n) && (n in ks <==> HasChildren(n)))
    && (forall p: Node :: p in ks ==> HasChildren(p))
  }

  class BuddyList {
    var root: Node?
    ghost var live: set<Node>     // the nodes that exist and were not freed
    ghost var kids: Kids
    ghost var gone: set<Node>     // cut out of their sibling list, not yet taken off their parent's accounts
    ghost var drift: map<Node, int>   // by how much the counter `online` of contacts and groups exceeds a recount

    // The environment: which accounts are connected, and which presences are online.
    var connected: set<Account>
    var present: set<Node>

    // How presences compare: the higher the better. `lastMatch` is the preference deciding ties.
    var rank: map<Node, int>
    const lastMatch: bool

    // Every listed buddy by account, normalised name and group, and the same again per account.
    var buddies: map<Key, Node>
    var caches: map<Account, map<Key, Node>>
    ghost var owner: map<Node, Node>   // the group each buddy is filed under
    const normalize: (Account, string) -> string

    // Every group by the collation key of its name.
    var groupsCache: map<string, Node>
    const collate: string -> string
    const sameFolded: (string, string) -> bool   // equality up to case

    /** `purple_blist_new` */
    constructor (accounts: set<Account>, connected: set<Account>, lastMatch: bool,
        normalize: (Account, string) -> string,
                 collate: string -> string, sameFolded: (string, string) -> bool)
      ensures root == null && live == gone == present == {} && kids == map[null := []] && drift == map[]
      ensures this.connected == connected && rank == map[] && this.lastMatch == lastMatch
      ensures buddies == map[] && owner == map[] && groupsCache == map[] && caches == map a | a in accounts :: map[]
      ensures this.normalize == normalize && this.collate == collate && this.sameFolded == sameFolded
    {
      root, live, kids, gone, drift := null, {}, map[null := []], {}, map[];
      this.connected, present, rank, this.lastMatch := connected, {}, map[], lastMatch;
      buddies, owner, groupsCache, caches := map[], map[], map[], map a | a in accounts :: map[];
      this.normalize, this.collate, this.sameFolded := normalize, collate, sameFolded;
    }

    /** `PURPLE_BUDDY_IS_ONLINE` */
    predicate IsOnline(b: Node)
      reads this`connected, this`present
    {
      b.account in connected && b in present
    }

    /** The pointers of the siblings `s` and of their parent `p` are those of a
        doubly linked list from which the nodes in `gone` were cut out. A node
        that was cut out keeps its own pointers. */
    ghost predicate Chained(p: Node?, s: seq<Node>, gone: set<Node>)
      reads (if p == null then {this} else {})`root, (if p == null then {} else {p})`child, s`prev, s`next
    {
      && NoDup(s)
      && (if p == null then root else p.child) == Ahead(s, 0, gone)
      && forall i :: 0 <= i < |s| ==> Joined(s, i, gone)
    }

    /** Every child knows its parent, and buddies and chats have no children. */
    ghost predicate Placed()
      reads this`live, this`kids, live`parent, live`child
    {
      && null in kids
      && (forall p: Node :: p in kids ==> p in live && HasChildren(p))
      && (forall n :: n in live && !HasChildren(n) ==> n.child == null)
      && (forall p, n :: p in kids && n in kids[p] ==> n in live && n.parent == p)
    }

    ghost predicate Linked()
      reads this`root, this`live, this`kids, this`gone, live`prev, live`next, live`parent, live`child
    {
      Placed() && forall p :: p in kids ==> Chained(p, kids[p], gone)
    }

    /** `n` is a child of its parent. */
    ghost predicate Listed(n: Node)
      reads this`kids, n`parent
    {
      n.parent in kids && n in kids[n.parent]
    }

    /** Every node that can have children is itself a child of its parent. */
    ghost predicate Rooted()
      reads this`kids, kids.Keys`parent
    {
      forall p: Node :: p in kids ==> Listed(p)
    }

    /** No child of `p` but `n` is cut out. */
    ghost predicate Alone(n: Node, p: Node?)
      reads this`kids, this`gone
    {
      p in kids && forall m :: m in kids[p] && m in gone ==> m == n
    }

    /** The pointer code that cuts `n` out of the children of `p`. */
    method Splice(n: Node, p: Node?)
      requires n.prev != n && n.next != n
      modifies this`root, (if p == null then {} else {p})`child
      modifies (if n.prev == null then {} else {n.prev})`next, (if n.next == null then {} else {n.next})`prev
      ensures root == if p == null && old(root) == n then n.next else old(root)
      ensures p != null ==> p.child == if old(p.child) == n then n.next else old(p.child)
      ensures n.prev != null ==> n.prev.next == n.next
      ensures n.next != null ==> n.next.prev == n.prev
    {
      if p == null {
        if root == n {
          root := n.next;
        }
      } else if p.child == n {
        p.child := n.next;
      }
      if n.prev != null {
        n.prev.next := n.next;
      }
      if n.next != null {
        n.next.prev := n.prev;
      }
    }

    /** The neighbours a node remembers are its neighbours in the sequence, cut out or not. */
    lemma Neighbours(p: Node?, s: seq<Node>, i: nat)
      requires Chained(p, s, gone) && i < |s|
      requires forall m :: m in s && m in gone ==> m == s[i]
      ensures NoDup(s) && (0 < i ==> s[i - 1] != s[i]) && (i + 1 < |s| ==> s[i + 1] != s[i])
      ensures s[i].prev == if 0 < i then s[i - 1] else null
      ensures s[i].next == if i + 1 < |s| then s[i + 1] else null
      ensures (if p == null then root else p.child) == if s[0] in gone then s[0].next else s[0]
    {
      assert Joined(s, i, gone) && Joined(s, 0, gone);
    }

    twostate lemma SplicedChain(n: Node)
      requires old(n.parent in kids && n in kids[n.parent] && Chained(n.parent, kids[n.parent], gone))
      requires var p, s := old(n.parent), old(kids[n.parent]);
               var i := IndexOf(s, n);
               var head := old(if p == null then root else p.child);
               && (forall m :: m in s && m in old(gone) ==> m == n)
               && (forall m :: m in s && !(0 < i && m == s[i - 1]) ==> m.next == old(m.next))
               && (forall m :: m in s && !(i + 1 < |s| && m == s[i + 1]) ==> m.prev == old(m.prev))
               && (0 < i ==> s[i - 1].next == n.next)
               && (i + 1 < |s| ==> s[i + 1].prev == n.prev)
               && (if p == null then root else p.child) == if head == n then n.next else head
      ensures Chained(old(n.parent), old(kids[n.parent]), old(gone) + {n})
    {
      var s := old(kids[n.parent]);
      var i := IndexOf(s, n);
      assert forall k :: 0 <= k < |s| && s[k] == n ==> k == i;
      forall k | 0 <= k < |s| ensures Joined(s, k, old(gone) + {n}) {
        assert old(Joined(s, k, gone));
        assert old(Joined(s, i, gone));
      }
      if i == 0 {
        assert old(Joined(s, 0, gone)) && n.next == old(n.next);
        assert |s| > 1 ==> s[1] in s;
      } else {
        assert s[0] != n && s[0] in s;
      }
    }

    /** A list whose nodes were not touched stays as it is. */
    twostate lemma ChainedElsewhere(p: Node?)
      requires old(p in kids && Chained(p, kids[p], gone))
      requires forall m :: m in old(kids[p]) ==>
                 (m in old(gone) <==> m in gone) && m.prev == old(m.prev) && m.next == old(m.next)
      requires (if p == null then root else p.child) == old(if p == null then root else p.child)
      ensures Chained(p, old(kids[p]), gone)
    {
      var s := old(kids[p]);
      forall k | 0 <= k < |s| ensures Joined(s, k, gone) {
        assert old(Joined(s, k, gone));
      }
    }

    /** The neighbours of `n` are children of the same parent, so no other list has them. */
    lemma Siblings(n: Node)
      requires Linked() && Listed(n) && Alone(n, n.parent)
      ensures n.prev != n && n.next != n
      ensures n.prev != null ==> n.prev in live && n.prev in kids[n.parent] && n.prev.parent == n.parent
      ensures n.next != null ==> n.next in live && n.next in kids[n.parent] && n.next.parent == n.parent
    {
      hide Chained;
      Neighbours(n.parent, kids[n.parent], IndexOf(kids[n.parent], n));
    }

    /** Cuts `n` out of the list of its siblings. Doing so twice in a row changes nothing. */
    method Suspend(n: Node)
      requires Linked() && Listed(n) && Alone(n, n.parent)
      modifies this`root, this`gone, live`prev, live`next, live`child
      ensures Linked() && gone == old(gone) + {n}
    {
      hide Chained;
      SpliceChained(n);
    }

    /** The pointer part of `Suspend`. */
    method SpliceChained(n: Node)
      requires Linked() && Listed(n) && Alone(n, n.parent)
      modifies this`root, this`gone, live`prev, live`next, live`child
      ensures gone == old(gone) + {n} && forall q :: q in kids ==> Chained(q, kids[q], gone)
      ensures forall m :: m in live && !HasChildren(m) ==> m.child == null
    {
      hide Chained;
      ghost var p := n.parent;
      Siblings(n);
      Neighbours(p, kids[p], IndexOf(kids[p], n));
      Splice(n, n.parent);
      gone := gone + {n};
      SplicedChain(n);
      forall q | q in kids && q != p ensures Chained(q, kids[q], gone) {
        assert forall m :: m in kids[q] ==> m.parent == q;
        ChainedElsewhere(q);
      }
    }

    lemma ForgottenChain(p: Node?, s: seq<Node>, n: Node)
      requires Chained(p, s, gone) && n in s && n in gone
      requires forall m :: m in s && m in gone ==> m == n
      ensures Chained(p, Minus(s, n), gone - {n})
    {
      var i, t := IndexOf(s, n), Minus(s, n);
      MinusIsDistinct(s, n);
      assert forall k :: 0 <= k < |s| && s[k] == n ==> k == i;
      forall k | 0 <= k < |t| ensures Joined(t, k, gone - {n}) {
        assert Joined(s, if k < i then k else k + 1, gone);
      }
    }

    lemma ChainedWithout(p: Node?, s: seq<Node>, n: Node)
      requires Chained(p, s, gone) && n !in s
      ensures Chained(p, s, gone - {n})
    {
      forall k | 0 <= k < |s| ensures Joined(s, k, gone - {n}) {
        assert Joined(s, k, gone);
      }
    }

    /** A node that was cut out stops being a child of its parent. */
    ghost method Forget(n: Node)
      requires Linked() && Listed(n) && Alone(n, n.parent) && n in gone
      modifies this`kids, this`gone
      ensures Linked() && gone == old(gone) - {n}
      ensures kids == old(kids)[n.parent := Minus(old(kids)[n.parent], n)]
      ensures !Listed(n)
    {
      hide Chained;
      var p := n.parent;
      Neighbours(p, kids[p], IndexOf(kids[p], n));
      ForgottenChain(p, kids[p], n);
      MinusIsDistinct(kids[p], n);
      forall q | q in kids && q != p ensures Chained(q, kids[q], gone - {n}) {
        ChainedWithout(q, kids[q], n);
      }
      kids := kids[p := Minus(kids[p], n)];
      gone := gone - {n};
    }

    /** Cuts `n` out for good. */
    method Unlink(n: Node)
      requires Linked() && Listed(n) && Alone(n, n.parent)
      modifies this`root, this`gone, this`kids, live`prev, live`next, live`child
      ensures Linked() && gone == old(gone) - {n}
      ensures kids == old(kids)[n.parent := Minus(old(kids)[n.parent], n)]
      ensures !Listed(n)
    {
      Suspend(n);
      Forget(n);
    }

    /** The pointer code that puts `n` behind `prev`, or in front of the children of `p`. */
    method Insert(n: Node, p: Node?, prev: Node?)
      requires prev != n && (prev == null ==> (if p == null then root else p.child) != n)
      requires prev != null ==> prev.next != n && prev.parent == p
      modifies this`root, n`prev, n`next, n`parent, (if p == null then {} else {p})`child
      modifies (if prev == null then {} else {prev})`next
      modifies (var next := if prev != null then prev.next else if p == null then root else p.child;
                if next == null then {} else {next})`prev
      ensures n.parent == p && n.prev == prev
      ensures n.next == old(if prev != null then prev.next else if p == null then root else p.child)
      ensures n.next != null ==> n.next.prev == n
      ensures prev != null ==> prev.next == n
      ensures (if p == null then root else p.child) == if prev == null then n
        else old(if p == null then root else p.child)
      ensures p != null ==> root == old(root)
    {
      if prev != null {
        if prev.next != null {
          prev.next.prev := n;
        }
        n.next := prev.next;
        n.prev := prev;
        n.parent := prev.parent;
        prev.next := n;
      } else {
        var first := if p == null then root else p.child;
        if first != null {
          first.prev := n;
        }
        n.prev := null;
        n.next := first;
        if p == null {
          root := n;
        } else {
          p.child := n;
        }
        n.parent := p;
      }
    }

    twostate lemma InsertedChain(n: Node)
      requires var p := n.parent;
               old(p in kids && gone == {} && Chained(p, kids[p], gone)) &&
               var s := old(kids[p]);
               && n !in s && (n.prev == null || n.prev in s)
               && var i := After(s, n.prev);
               && n.next == (if i < |s| then s[i] else null)
               && (forall m :: m in s && !(0 < i && m == s[i - 1]) ==> m.next == old(m.next))
               && (forall m :: m in s && !(i < |s| && m == s[i]) ==> m.prev == old(m.prev))
               && (0 < i ==> s[i - 1].next == n)
               && (i < |s| ==> s[i].prev == n)
               && (if p == null then root else p.child) == if n.prev == null then n
                   else old(if p == null then root else p.child)
      ensures var p := n.parent;
              var s := old(kids[p]);
              Chained(p, InsertAt(s, After(s, n.prev), n), {})
    {
      var p := n.parent;
      var s := old(kids[p]);
      var i := After(s, n.prev);
      var t := InsertAt(s, i, n);
      InsertIsDistinct(s, i, n);
      forall k | 0 <= k < |t| ensures Joined(t, k, {}) {
        if k != i {
          var j := if k < i then k else k - 1;
          assert t[k] == s[j] && old(Joined(s, j, gone));
          assert 0 < i && s[j] == s[i - 1] ==> j == i - 1;
          assert i < |s| && s[j] == s[i] ==> j == i;
        }
      }
    }

    /** What follows `prev`, or comes first, among the children of `p`. */
    lemma Following(p: Node?, s: seq<Node>, prev: Node?)
      requires Chained(p, s, gone) && gone == {} && (prev == null || prev in s)
      ensures (if prev != null then prev.next else if p == null then root else p.child)
           == (if After(s, prev) < |s| then s[After(s, prev)] else null)
    {
      assert prev != null ==> Joined(s, IndexOf(s, prev), gone);
    }

    /** Makes `n` a child of `p`, behind `prev` or in front of all others. */
    method LinkAfter(n: Node, p: Node?, prev: Node?)
      requires Linked() && gone == {} && n in live && !Listed(n)
      requires p in kids && p != n && (prev == null || prev in kids[p])
      modifies this`root, this`kids, live`prev, live`next, live`child, n`parent
      ensures Linked() && n.parent == p
      ensures p == null ==> forall m :: m in live ==> m.child == old(m.child)
      ensures kids == old(kids)[p := InsertAt(old(kids)[p], After(old(kids)[p], prev), n)]
    {
      InsertChained(n, p, prev);
      ghost var s := InsertAt(kids[p], After(kids[p], prev), n);
      assert forall m :: m in s ==> m == n || m in kids[p];
      hide Chained, After, InsertAt;
      kids := kids[p := s];
      assert Placed();
    }

    /** The pointer part of `LinkAfter`. */
    method InsertChained(n: Node, p: Node?, prev: Node?)
      requires Linked() && gone == {} && n in live && !Listed(n)
      requires p in kids && p != n && (prev == null || prev in kids[p])
      modifies this`root, live`prev, live`next, live`child, n`parent
      ensures p == null ==> forall m :: m in live ==> m.child == old(m.child)
      ensures forall m :: m in live && !HasChildren(m) ==> m.child == null
      ensures n.parent == p && Chained(p, InsertAt(kids[p], After(kids[p], prev), n), gone)
      ensures forall q :: q in kids && q != p ==> Chained(q, kids[q], gone)
    {
      hide Chained, InsertAt;
      Following(p, kids[p], prev);
      assert forall q, m :: q in kids && m in kids[q] ==> m != n;
      Insert(n, p, prev);
      InsertedChain(n);
      forall q | q in kids && q != p ensures Chained(q, kids[q], gone) {
        assert forall m :: m in kids[q] ==> m.parent == q;
        ChainedElsewhere(q);
      }
    }

    /** A node that is nobody's child and has no children is freed. */
    ghost method Free(n: Node)
      requires Linked() && !Listed(n) && (n in kids ==> kids[n] == [])
      modifies this`live, this`kids
      ensures Linked() && live == old(live) - {n} && kids == old(kids) - {n}
    {
      hide Chained;
      assert forall q, m :: q in kids && m in kids[q] ==> m != n;
      live := live - {n};
      kids := kids - {n};
    }

    /** A new node becomes known, without children. */
    ghost method Allow(n: Node)
      requires Linked() && n in live && n !in kids && n.child == null && HasChildren(n)
      modifies this`kids
      ensures Linked() && kids == old(kids)[n := []]
    {
      kids := kids[n := []];
    }
  }
}
