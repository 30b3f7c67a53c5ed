/** The consistency of a whole buddy list, and the two steps every edit of a
    contact is made of: a buddy leaves it, a buddy joins it.
    Most bodies below hide every definition; the short lemmas called `...Is` and
    `...Parts` give back the single definition that a step needs. */
module BuddyState {
  import opened Lists
  import opened BuddyTree
  import opened BuddyCounts
  import opened BuddyIndex
  import opened BuddyPriority

  /** The counters are those of a recount, but for what is known to be off. */
  ghost predicate Counters(list: BuddyList)
    reads list`kids, list`connected, list`present, list`drift
    reads list.kids.Keys`totalsize, list.kids.Keys`currentsize, list.kids.Keys`online, list.kids.Keys`destroyed
  {
    Counted(list.kids, CurrentOf(list), OnlineOf(list)) && list.drift.Keys <= list.kids.Keys
  }

  /** No counter is off. */
  ghost predicate Exact(drift: map<Node, int>) {
    forall n :: n in drift ==> drift[n] == 0
  }

  /** Pointers, levels and counters agree with the tree `kids`. */
  ghost predicate Tree(list: BuddyList)
    reads list`root, list`live, list`kids, list`gone, list`connected, list`present, list`drift
    reads list.live`prev, list.live`next, list.live`parent, list.live`child
    reads list.kids.Keys`parent
    reads list.kids.Keys`totalsize, list.kids.Keys`currentsize, list.kids.Keys`online, list.kids.Keys`destroyed
  {
    list.Linked() && Shaped(list.kids) && list.Rooted() && Counters(list)
  }

  function RankingOf(list: BuddyList): Ranking
    reads list`connected, list`rank
  {
    Ranking(list.connected, list.rank, list.lastMatch)
  }

  /** A cached priority buddy is what recomputing it would give. */
  ghost predicate RankedAt(list: BuddyList, c: Node, s: seq<Node>)
    reads list`connected, list`rank, c`priority, c`priorityValid
  {
    c.priorityValid && s != [] ==> c.priority == RankingOf(list).Best(s)
  }

  ghost predicate RankedIn(list: BuddyList, ks: Kids)
    reads list`connected, list`rank, ks.Keys`priority, ks.Keys`priorityValid
  {
    forall c: Node :: c in ks && c.kind == ContactNode ==> RankedAt(list, c, ks[c])
  }

  ghost predicate Ranked(list: BuddyList)
    reads list`kids, list`connected, list`rank, list.kids.Keys`priority, list.kids.Keys`priorityValid
  {
    RankedIn(list, list.kids)
  }

  lemma IsRanked(list: BuddyList)
    ensures Ranked(list) <==> RankedIn(list, list.kids)
  {
  }

  lemma FamilyOf(list: BuddyList, c: Node)
    requires list.Linked() && Shaped(list.kids) && list.Rooted() && c in list.kids && c.kind == ContactNode
    ensures c.parent != null && Family(list.kids, c.parent, c)
  {
    var g := c.parent;
    assert list.Listed(c) && Fits(g, c);
    assert list.Chained(g, list.kids[g], list.gone);
  }

  lemma HomeOf(list: BuddyList, b: Node)
    requires list.Linked() && Shaped(list.kids) && list.Listed(b) && b.kind == BuddyNode
    ensures b.parent != null && b.parent in list.kids && b.parent.kind == ContactNode && b !in list.kids
    ensures NoDup(list.kids[b.parent])
  {
    assert Fits(b.parent, b);
    assert list.Chained(b.parent, list.kids[b.parent], list.gone);
  }

  lemma ShapedMinus(ks: Kids, p: Node?, n: Node)
    requires Shaped(ks) && p in ks
    ensures Shaped(ks[p := Minus(ks[p], n)])
  {
  }

  lemma ShapedInsert(ks: Kids, p: Node?, i: nat, n: Node)
    requires Shaped(ks) && p in ks && i <= |ks[p]| && Fits(p, n) && (n in ks <==> HasChildren(n))
    ensures Shaped(ks[p := InsertAt(ks[p], i, n)])
  {
    var s := InsertAt(ks[p], i, n);
    assert forall m :: m in s ==> m == n || m in ks[p];
  }

  /** A node that is nobody's child is not needed. */
  lemma ShapedWithout(ks: Kids, c: Node)
    requires Shaped(ks) && forall p :: p in ks ==> c !in ks[p]
    ensures Shaped(ks - {c})
  {
  }

  lemma GroupsOnTop(ks: Kids, g: Node)
    requires Shaped(ks) && g.kind == GroupNode
    ensures forall x: Node :: x in ks ==> g !in ks[x]
  {
    forall x: Node, n | x in ks && n in ks[x] ensures n.kind != GroupNode {
      assert Fits(x, n);
    }
  }

  lemma RootedMinus(list: BuddyList, ks: Kids, b: Node)
    requires forall x: Node :: x in ks ==> x.parent in ks && x in ks[x.parent]
    requires b !in ks && b.parent in ks
    requires list.kids == ks[b.parent := Minus(ks[b.parent], b)]
    ensures list.Rooted()
  {
  }

  /** What the two halves of `Detach` need to know about the list. */
  lemma BeforeDetach(list: BuddyList, b: Node)
    requires Tree(list) && list.Listed(b) && b.kind == BuddyNode && list.gone <= {b.parent}
    ensures list.Linked() && b.parent != null && b.parent in list.live && b.parent in list.kids
    ensures list.Alone(b, b.parent) && b !in list.kids && b in list.kids[b.parent]
    ensures b.parent.parent != null && b.parent.parent in list.live && Family(list.kids, b.parent.parent, b.parent)
    ensures Counted(list.kids, CurrentOf(list), OnlineOf(list)) && list.drift.Keys <= list.kids.Keys
    ensures Shaped(list.kids[b.parent := Minus(list.kids[b.parent], b)])
    ensures forall x: Node :: x in list.kids ==> x.parent in list.kids && x in list.kids[x.parent]
  {
    HomeOf(list, b);
    FamilyOf(list, b.parent);
    ShapedMinus(list.kids, b.parent, b);
    assert forall m :: m in list.kids[b.parent] ==> Fits(b.parent, m);
  }

  lemma IsTree(list: BuddyList)
    requires list.Linked() && Shaped(list.kids) && list.Rooted()
    requires Counted(list.kids, CurrentOf(list), OnlineOf(list)) && list.drift.Keys <= list.kids.Keys
    ensures Tree(list)
  {
  }

  /** The buddy `b` leaves its contact `c`. */
  method Detach(list: BuddyList, b: Node, c: Node, g: Node)
    requires Tree(list) && list.Listed(b) && b.kind == BuddyNode && b.parent == c && c.parent == g
    requires list.gone <= {c}
    modifies list`root, list`gone, list`kids, list.live`prev, list.live`next, list.live`child
    modifies list.live`totalsize, list.live`currentsize, list.live`online, list`drift
    ensures Tree(list) && !list.Listed(b) && list.gone == old(list.gone)
    ensures list.drift == Shift(old(list.drift), c, if Early(list, b) then 1 else 0)
    ensures c in old(list.kids) && b in old(list.kids)[c]
    ensures list.kids == old(list.kids)[c := Minus(old(list.kids)[c], b)]
  {
    hide *;
    ghost var ks, drift := list.kids, list.drift;
    BeforeDetach(list, b);
    list.Unlink(b);
    CountOut(list, b, c, g, ks);
    RootedMinus(list, ks, b);
    ShiftKnown(ks, c, Minus(ks[c], b), drift, if Early(list, b) then 1 else 0);
    IsTree(list);
  }

  lemma BeforeAttach(list: BuddyList, b: Node, c: Node, prev: Node?)
    requires Tree(list) && list.gone == {} && b.kind == BuddyNode && !list.Listed(b)
    requires c in list.kids && c.kind == ContactNode && (prev == null || prev in list.kids[c])
    ensures list.Linked() && c in list.live && c != b && b !in list.kids
    ensures c.parent != null && c.parent in list.live && Family(list.kids, c.parent, c)
    ensures Counted(list.kids, CurrentOf(list), OnlineOf(list)) && list.drift.Keys <= list.kids.Keys
    ensures Shaped(list.kids[c := InsertAt(list.kids[c], After(list.kids[c], prev), b)])
    ensures forall x: Node :: x in list.kids ==> x.parent in list.kids && x in list.kids[x.parent]
  {
    FamilyOf(list, c);
    assert b in list.kids ==> HasChildren(b);
    ShapedInsert(list.kids, c, After(list.kids[c], prev), b);
    hide Shaped, InsertAt, Family, Counted;
  }

  lemma ShiftKnown(ks: Kids, c: Node, s: seq<Node>, drift: map<Node, int>, k: int)
    requires c in ks && drift.Keys <= ks.Keys
    ensures Shift(drift, c, k).Keys <= ks[c := s].Keys
  {
  }

  lemma RootedPlus(list: BuddyList, ks: Kids, b: Node, s: seq<Node>)
    requires forall x: Node :: x in ks ==> x.parent in ks && x in ks[x.parent]
    requires b !in ks && b.parent in ks && forall m :: m in ks[b.parent] ==> m in s
    requires list.kids == ks[b.parent := s]
    ensures list.Rooted()
  {
  }

  /** The buddy `b` joins the contact `c`, behind `prev` or in front. */
  method Attach(list: BuddyList, b: Node, c: Node, prev: Node?)
    requires Tree(list) && list.gone == {} && b in list.live && b.kind == BuddyNode && !list.Listed(b)
    requires c in list.kids && c.kind == ContactNode && (prev == null || prev in list.kids[c])
    modifies list`root, list`kids, list.live`prev, list.live`next, list.live`child, b`parent
    modifies list.live`totalsize, list.live`currentsize, list.live`online, list`drift
    ensures Tree(list) && b.parent == c
    ensures list.drift == Shift(old(list.drift), c, if Early(list, b) then -1 else 0)
    ensures list.kids == old(list.kids)[c := InsertAt(old(list.kids)[c], After(old(list.kids)[c], prev), b)]
  {
    hide *;
    ghost var ks, drift := list.kids, list.drift;
    ghost var i := After(ks[c], prev);
    BeforeAttach(list, b, c, prev);
    list.LinkAfter(b, c, prev);
    CountIn(list, b, c, c.parent, ks, i);
    RootedPlus(list, ks, b, InsertAt(ks[c], i, b));
    ShiftKnown(ks, c, InsertAt(ks[c], i, b), drift, if Early(list, b) then -1 else 0);
    IsTree(list);
  }

  lemma BeforeDrop(list: BuddyList, c: Node, g: Node)
    requires Tree(list) && c in list.kids && c.kind == ContactNode && list.kids[c] == []
    requires list.gone <= {c} && c.parent == g
    ensures list.Linked() && c in list.live && g in list.live && g in list.kids && list.Listed(c) && list.Alone(c, g)
    ensures Counted(list.kids, CurrentOf(list), OnlineOf(list)) && list.drift.Keys <= list.kids.Keys
    ensures Family(list.kids, g, c) && c != g && list.kids[g := Minus(list.kids[g], c)][c] == []
    ensures Shaped(list.kids[g := Minus(list.kids[g], c)] - {c})
    ensures forall x: Node :: x in list.kids ==> x.parent in list.kids && x in list.kids[x.parent]
    ensures forall x: Node :: x in list.kids ==> g !in list.kids[x]
  {
    FamilyOf(list, c);
    MinusIsDistinct(list.kids[g], c);
    ShapedMinus(list.kids, g, c);
    ShapedWithout(list.kids[g := Minus(list.kids[g], c)], c);
    GroupsOnTop(list.kids, g);
    hide Shaped, Minus, Counted;
  }

  /** Which presences are early, for given connections. */
  function EarlyIn(connected: set<Account>, present: set<Node>): Node -> bool {
    (b: Node) => b in present && b.account !in connected
  }

  /** How many of the buddies `s` are early. */
  ghost function Earlies(list: BuddyList, s: seq<Node>): nat
    reads list`connected, list`present
  {
    Count(s, EarlyIn(list.connected, list.present))
  }

  /** How far the counters are off after the empty contact `c` went: if its own
      counter was still positive, its group goes on counting it. */
  ghost function DriftDropped(drift: map<Node, int>, g: Node?, c: Node?): map<Node, int> {
    var off := if c in drift then drift[c] else 0;
    (if g != null then Shift(drift, g, if off > 0 then 1 else 0) else drift) - {c}
  }

  /** The counters of a group are off by `k` more when what it counts and what it says move apart by that. */
  lemma CountsShifted(ks: Kids, g: Node, current: Reading, online: Reading, k: int)
    requires forall x: Node :: x in ks && x != g ==> NodeCounts(x, ks, current, online)
    requires g in ks && forall x: Node :: x in ks ==> g !in ks[x]
    ensures forall x: Node :: x in ks && x != g ==> NodeCounts(x, ks, current, online.Shifted(g, k))
    ensures Count(ks[g], online.Shifted(g, k).Lit(ks)) == Count(ks[g], online.Lit(ks))
    ensures forall n :: n in ks[g] ==> online.Shifted(g, k).Lit(ks)(n) == online.Lit(ks)(n)
  {
    var online' := online.Shifted(g, k);
    AlikeIs(online, g, k);
    forall x: Node, n | x in ks && n in ks[x] ensures online'.Lit(ks)(n) == online.Lit(ks)(n) {
      assert n != g;
    }
    CountSame(ks[g], online'.Lit(ks), online.Lit(ks));
    forall x: Node | x in ks && x != g ensures NodeCounts(x, ks, current, online') {
      CountsAgree(x, ks, ks, current, online, current, online');
    }
  }

  /** The counters after an empty contact went: its group forgets to count it
      out, which `destroyed` records. */
  lemma CountsAfterDrop(ks: Kids, g: Node, c: Node, current: Reading, online: Reading)
    requires Family(ks, g, c) && g != c && ks[c] == [] && forall x: Node :: x in ks ==> g !in ks[x]
    requires forall x: Node :: x in ks && x != g ==> NodeCounts(x, ks, current, online)
    requires g.totalsize == |ks[g]| + g.destroyed - 1
    requires g.currentsize == Count(ks[g], current.Lit(ks)) + current.Off(g) &&
      g.online == Count(ks[g], online.Lit(ks)) + online.Off(g)
    requires current.Off(c) == 0
    ensures Counted(ks[g := Minus(ks[g], c)] - {c}, current, Reading(online.test, DriftDropped(online.drift, g, c)))
  {
    var s, k := Minus(ks[g], c), if online.Off(c) > 0 then 1 else 0;
    var online' := online.Shifted(g, k);
    MinusIsDistinct(ks[g], c);
    CountMinus(ks[g], c, current.Lit(ks));
    CountMinus(ks[g], c, online'.Lit(ks));
    CountsShifted(ks, g, current, online, k);
    AlikeIs(online, g, k);
    hide Minus, Counted;
    GroupReplaced(ks, g, s, current, online');
    CountsWithoutKey(ks[g := s], c, current, online');
    assert current == Reading(current.test, current.drift);
  }

  lemma RootedDrop(list: BuddyList, ks: Kids, g: Node, c: Node)
    requires forall x: Node :: x in ks ==> x.parent in ks && x in ks[x.parent]
    requires g in ks && c in ks && ks[c] == [] && list.kids == ks[g := Minus(ks[g], c)] - {c}
    ensures list.Rooted()
  {
  }

  /** The pointer part of `DropContact`. */
  method Discard(list: BuddyList, c: Node, ghost g: Node)
    requires list.Linked() && list.Listed(c) && list.Alone(c, g) && c.parent == g
    requires c in list.kids && g in list.kids && list.kids[g := Minus(list.kids[g], c)][c] == []
    modifies list`root, list`gone, list`kids, list`live, list.live`prev, list.live`next, list.live`child
    ensures list.Linked() && list.gone == old(list.gone) - {c} && list.live == old(list.live) - {c}
    ensures list.kids == old(list.kids)[g := Minus(old(list.kids)[g], c)] - {c}
  {
    hide *;
    list.Unlink(c);
    list.Free(c);
  }

  /** An empty contact is unlinked and freed. It may have been unlinked before. */
  method DropContact(list: BuddyList, c: Node, g: Node)
    requires Tree(list) && c in list.kids && c.kind == ContactNode && list.kids[c] == []
    requires list.gone <= {c} && c.parent == g
    modifies list`root, list`gone, list`kids, list`live, list.live`prev, list.live`next, list.live`child, g`destroyed,
      list`drift
    ensures Tree(list) && list.gone == {} && list.live == old(list.live) - {c}
    ensures g in old(list.kids) && list.kids == old(list.kids)[g := Minus(old(list.kids)[g], c)] - {c}
    ensures list.drift == DriftDropped(old(list.drift), g, c) && g.destroyed == old(g.destroyed) + 1
  {
    hide *;
    ghost var ks, drift, online := list.kids, list.drift, OnlineOf(list);
    BeforeDrop(list, c, g);
    BeforeCounting(ks, g, c, CurrentOf(list), online);
    OnlineIs(list);
    CurrentIs(list, c);
    Discard(list, c, g);
    g.destroyed := g.destroyed + 1;
    list.drift := DriftDropped(list.drift, g, c);
    CountsAfterDrop(ks, g, c, CurrentOf(list), online);
    OnlineDropped(list, online, drift, g, c);
    RootedDrop(list, ks, g, c);
    DropKnown(ks, drift, g, c);
    IsTree(list);
  }

  lemma CurrentIs(list: BuddyList, c: Node)
    ensures CurrentOf(list).Off(c) == 0
  {
  }

  lemma OnlineDropped(list: BuddyList, was: Reading, drift: map<Node, int>, g: Node, c: Node)
    requires was == InOnline(list.connected, list.present, drift) && list.drift == DriftDropped(drift, g, c)
    ensures OnlineOf(list) == Reading(was.test, DriftDropped(was.drift, g, c))
  {
  }

  lemma DropKnown(ks: Kids, drift: map<Node, int>, g: Node, c: Node)
    requires g in ks && g != c && drift.Keys <= ks.Keys
    ensures DriftDropped(drift, g, c).Keys <= (ks[g := Minus(ks[g], c)] - {c}).Keys
  {
  }

  /** Like `Tree`, while the contact or chat `n` is between two groups. */
  ghost predicate TreeBut(list: BuddyList, n: Node)
    reads list`root, list`live, list`kids, list`gone, list`connected, list`present, list`drift
    reads list.live`prev, list.live`next, list.live`parent, list.live`child
    reads list.kids.Keys`parent, n`parent
    reads list.kids.Keys`totalsize, list.kids.Keys`currentsize, list.kids.Keys`online, list.kids.Keys`destroyed
  {
    && list.Linked() && Shaped(list.kids) && Counters(list) && !list.Listed(n)
    && forall x: Node :: x in list.kids && x != n ==> list.Listed(x)
  }

  lemma IsTreeBut(list: BuddyList, n: Node)
    requires list.Linked() && Shaped(list.kids) && !list.Listed(n)
    requires forall x: Node :: x in list.kids && x != n ==> x.parent in list.kids && x in list.kids[x.parent]
    requires Counted(list.kids, CurrentOf(list), OnlineOf(list)) && list.drift.Keys <= list.kids.Keys
    ensures TreeBut(list, n)
    ensures n !in list.kids ==> Tree(list)
  {
  }

  /** `n` can stand in a group: a contact with its buddies, or a chat. */
  ghost predicate IsChild(n: Node, ks: Kids) {
    (n.kind == ContactNode && n in ks) || (n.kind == ChatNode && n !in ks)
  }

  lemma BeforeLeave(list: BuddyList, n: Node, g: Node)
    requires Tree(list) && list.Listed(n) && n.parent == g && list.gone == {n} && g.kind == GroupNode
    ensures list.Linked() && list.Alone(n, g) && n in list.live && g in list.live && g in list.kids && n in list.kids[g]
    ensures Shaped(list.kids) && Shaped(list.kids[g := Minus(list.kids[g], n)])
    ensures Counted(list.kids, CurrentOf(list), OnlineOf(list)) && list.drift.Keys <= list.kids.Keys
    ensures forall x: Node :: x in list.kids ==> x.parent in list.kids && x in list.kids[x.parent]
    ensures IsChild(n, list.kids) && n != g
  {
    ShapedMinus(list.kids, g, n);
    assert Fits(g, n);
  }

  /** A contact or chat that was cut out of the group `g` is counted out. */
  method LeaveGroup(list: BuddyList, n: Node, g: Node)
    requires Tree(list) && list.Listed(n) && n.parent == g && list.gone == {n} && g.kind == GroupNode
    modifies list`gone, list`kids, g`totalsize, g`currentsize, g`online
    ensures TreeBut(list, n) && list.gone == {} && (n !in list.kids ==> Tree(list))
    ensures IsChild(n, old(list.kids)) && n != g && g in old(list.kids) && n in old(list.kids)[g]
    ensures list.kids == old(list.kids)[g := Minus(old(list.kids)[g], n)]
  {
    hide *;
    ghost var ks := list.kids;
    BeforeLeave(list, n, g);
    CountChildOut(list, n, g, ks);
    list.Forget(n);
    RootedMinusChild(list, ks, g, n);
    IsTreeBut(list, n);
  }

  lemma RootedMinusChild(list: BuddyList, ks: Kids, g: Node, n: Node)
    requires forall x: Node :: x in ks ==> x.parent in ks && x in ks[x.parent]
    requires g in ks && n != g && list.kids == ks[g := Minus(ks[g], n)]
    ensures forall x: Node :: x in list.kids && x != n ==> x.parent in list.kids && x in list.kids[x.parent]
  {
  }

  lemma BeforeJoin(list: BuddyList, n: Node, g: Node, prev: Node?)
    requires TreeBut(list, n) && g in list.kids && g.kind == GroupNode && IsChild(n, list.kids)
    requires prev == null || prev in list.kids[g]
    ensures list.Linked() && g in list.live && g != n && !list.Listed(n)
    ensures Shaped(list.kids) && Shaped(list.kids[g := InsertAt(list.kids[g], After(list.kids[g], prev), n)])
    ensures Counted(list.kids, CurrentOf(list), OnlineOf(list)) && list.drift.Keys <= list.kids.Keys
    ensures forall x: Node :: x in list.kids && x != n ==> x.parent in list.kids && x in list.kids[x.parent]
    ensures (n.kind == ChatNode || n.kind == ContactNode) && (n in list.kids <==> n.kind == ContactNode)
  {
    ShapedInsert(list.kids, g, After(list.kids[g], prev), n);
  }

  /** A contact or chat joins the group `g`, behind `prev` or in front. */
  method JoinGroup(list: BuddyList, n: Node, g: Node, prev: Node?)
    requires TreeBut(list, n) && list.gone == {} && n in list.live
    requires g in list.kids && g.kind == GroupNode && IsChild(n, list.kids)
    requires prev == null || prev in list.kids[g]
    modifies list`root, list`kids, list.live`prev, list.live`next, list.live`child, n`parent
    modifies g`totalsize, g`currentsize, g`online
    ensures Tree(list) && n.parent == g
    ensures list.kids == old(list.kids)[g := InsertAt(old(list.kids)[g], After(old(list.kids)[g], prev), n)]
  {
    hide *;
    ghost var ks := list.kids;
    ghost var i := After(ks[g], prev);
    BeforeJoin(list, n, g, prev);
    list.LinkAfter(n, g, prev);
    CountChildIn(list, n, g, ks, i);
    RootedPlusChild(list, ks, g, n, InsertAt(ks[g], i, n));
    IsTree(list);
  }

  lemma RootedPlusChild(list: BuddyList, ks: Kids, g: Node, n: Node, s: seq<Node>)
    requires forall x: Node :: x in ks && x != n ==> x.parent in ks && x in ks[x.parent]
    requires g in ks && n in s && n.parent == g && (forall m :: m in ks[g] ==> m in s) && list.kids == ks[g := s]
    ensures list.Rooted()
  {
  }

  /** Cutting a node out of its siblings changes nothing but the pointers. */
  method CutOut(list: BuddyList, n: Node)
    requires Tree(list) && list.Listed(n) && list.gone == {}
    modifies list`root, list`gone, list.live`prev, list.live`next, list.live`child
    ensures Tree(list) && list.gone == {n}
  {
    hide *;
    BeforeCut(list, n);
    list.Suspend(n);
    IsTree(list);
  }

  lemma BeforeCut(list: BuddyList, n: Node)
    requires Tree(list) && list.Listed(n) && list.gone == {}
    ensures list.Linked() && list.Alone(n, n.parent) && Shaped(list.kids) && list.Rooted()
    ensures Counted(list.kids, CurrentOf(list), OnlineOf(list)) && list.drift.Keys <= list.kids.Keys
  {
  }

  /** Forgetting a cached priority buddy is always right. */
  method Invalidate(list: BuddyList, c: Node, ghost ks: Kids, ghost s: seq<Node>)
    requires RankedIn(list, ks)
    modifies c`priorityValid
    ensures RankedIn(list, ks[c := s]) && !c.priorityValid
  {
    c.priorityValid := false;
  }

  /** A node that is in no list is freed. */
  ghost method FreeLeaf(list: BuddyList, n: Node)
    requires Tree(list) && !list.Listed(n) && n !in list.kids
    modifies list`live, list`kids
    ensures Tree(list) && list.live == old(list.live) - {n} && list.kids == old(list.kids)
  {
    list.Free(n);
    assert list.kids == old(list.kids);
  }

  lemma HasChild(list: BuddyList, c: Node)
    requires Tree(list) && c in list.kids && c.kind == ContactNode && list.gone <= {c}
    ensures c.child == null <==> list.kids[c] == []
    ensures c.child != null ==>
      c.child == list.kids[c][0] && c.child.next == if |list.kids[c]| == 1 then null else list.kids[c][1]
  {
    var s := list.kids[c];
    assert list.Chained(c, s, list.gone);
    if s != [] {
      assert Joined(s, 0, list.gone);
      assert forall n :: n in s ==> Fits(c, n);
    }
  }

  /** What holds between the steps of every operation: all but the table of buddies. */
  ghost predicate Coherent(list: BuddyList)
    reads list, list.live, list.kids.Keys
  {
    Tree(list) && Ranked(list) && Cached(list)
  }

  lemma CoherentParts(list: BuddyList)
    ensures Coherent(list) <==> Tree(list) && Ranked(list) && Cached(list)
  {
  }

  /** The buddy list as a value: the tree, who is filed under which group,
      which nodes exist, and which were cut out but are still accounted for. */
  datatype View = View(kids: Kids, owner: map<Node, Node>, live: set<Node>, gone: set<Node>) {
    ghost function At(p: Node?): seq<Node> {
      if p in kids then kids[p] else []
    }

    /** Without the contact `c` of the group `g`, its buddies included. */
    ghost function MinusContact(g: Node?, c: Node?): View {
      View((kids - {c})[g := Minus(At(g), c)], owner - Elements(At(c)), live - Elements(At(c)) - {c}, {})
    }

    /** Without the buddy `b`; a contact that loses its last buddy goes with it. */
    ghost function MinusBuddy(g: Node?, c: Node?, b: Node): View {
      if At(c) == [b] then MinusContact(g, c)
      else View(kids[c := Minus(At(c), b)], owner - {b}, live - {b}, gone)
    }

    /** With `b` behind `prev`, or in front, in the contact `c` of the group `g`. */
    ghost function PlusBuddy(g: Node, c: Node, prev: Node?, b: Node): View
      requires prev == null || prev in At(c)
    {
      View(kids[c := InsertAt(At(c), After(At(c), prev), b)], owner[b := g], live + {b}, gone)
    }
  }

  ghost function ViewOf(list: BuddyList): View
    reads list`kids, list`owner, list`live, list`gone
  {
    View(list.kids, list.owner, list.live, list.gone)
  }

  lemma TreeParts(list: BuddyList)
    ensures Tree(list) <==> list.Linked() && Shaped(list.kids) && list.Rooted() && Counters(list)
  {
  }
}
