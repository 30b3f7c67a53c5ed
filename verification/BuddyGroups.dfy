/** Chats, new contacts, and the groups themselves. */
module BuddyGroups {
  import opened Lists
  import opened BuddyTree
  import opened BuddyCounts
  import opened BuddyIndex
  import opened BuddyState
  import opened BuddyRemove
  import opened BuddyValid
  import opened BuddyContacts

  /** `n` was created but is not in the list. */
  ghost predicate Detached(list: BuddyList, n: Node)
    reads list`live, list`kids, n`parent, n`child, n`totalsize, n`currentsize, n`online, n`destroyed, n`priorityValid
  {
    && n in list.live && n !in list.kids && !list.Listed(n) && n.parent == null && n.child == null
    && n.totalsize == n.currentsize == n.online == n.destroyed == 0 && !n.priorityValid
  }

  lemma BeforeAllow(list: BuddyList, n: Node)
    requires Sound(list) && Detached(list, n)
    ensures list.Linked() && n in list.live && n !in list.kids && n.child == null && !list.Listed(n)
    ensures Shaped(list.kids) && Counted(list.kids, CurrentOf(list), OnlineOf(list)) &&
      list.drift.Keys <= list.kids.Keys
    ensures n.totalsize == n.currentsize == n.online == n.destroyed == 0 && !n.priorityValid
    ensures RankedIn(list, list.kids) && Cached(list) && list.gone == {}
    ensures forall x: Node :: x in list.kids ==> x.parent in list.kids && x in list.kids[x.parent]
    ensures n.parent == null && (forall p :: p in list.kids ==> n !in list.kids[p])
    ensures forall p: Node :: p in list.kids ==> p in list.live
    ensures Steady(ViewOf(list), n) && ViewOf(list) == View(list.kids, list.owner, list.live, {})
    ensures Ordered(list, ViewOf(list), OrderOf(list))
  {
    hide Sound, Tabled, OwnedBut, Cached, RankedIn, Shaped, Counted, Ordered, OrderOf;
    SoundParts(list, n);
    IsOrdered(list);
    CoherentParts(list);
    assert forall p, m :: p in list.kids && m in list.kids[p] ==> list.Listed(m);
  }

  /** A node that is not in the list becomes known: it is between the groups. */
  ghost method Introduce(list: BuddyList, n: Node)
    requires Sound(list) && Detached(list, n) && (n.kind == ContactNode || n.kind == GroupNode)
    modifies list`kids
    ensures TreeBut(list, n) && list.gone == {} && RankedIn(list, list.kids) && Cached(list)
    ensures list.kids == old(list.kids)[n := []] && n in list.live
  {
    hide *;
    BeforeAllow(list, n);
    var ks := list.kids;
    NewlyKnown(list, n);
    list.Allow(n);
    CountsWithKey(ks, n, CurrentOf(list), OnlineOf(list));
    IntroducedShape(list, ks, n);
    IsTreeBut(list, n);
    RankedNew(list, ks, n);
  }

  lemma NewlyKnown(list: BuddyList, n: Node)
    requires n !in list.kids && list.drift.Keys <= list.kids.Keys
    ensures CurrentOf(list).Off(n) == 0 && OnlineOf(list).Off(n) == 0
    ensures list.drift.Keys <= list.kids[n := []].Keys
  {
  }

  lemma IntroducedShape(list: BuddyList, ks: Kids, n: Node)
    requires Shaped(ks) && n !in ks && (n.kind == ContactNode || n.kind == GroupNode) && list.kids == ks[n := []]
    requires forall x: Node :: x in ks ==> x.parent in ks && x in ks[x.parent]
    requires n.parent == null && forall p :: p in ks ==> n !in ks[p]
    ensures Shaped(list.kids) && !list.Listed(n)
    ensures forall x: Node :: x in list.kids && x != n ==> x.parent in list.kids && x in list.kids[x.parent]
  {
    assert null in ks;
  }

  lemma RankedNew(list: BuddyList, ks: Kids, n: Node)
    requires RankedIn(list, ks) && !n.priorityValid
    ensures RankedIn(list, ks[n := []])
  {
  }

  /** Afterwards: the rest of the invariant, when only the children of groups were rearranged. */
  lemma AfterShuffle(list: BuddyList, v: View, n: Node, ks: Kids, live: set<Node>, o: Order)
    requires Coherent(list) && list.gone == {} && ViewOf(list) == View(ks, v.owner, live, {}) &&
      Steady(v, n) && Ordered(list, v, o)
    requires View(ks, v.owner, live, {}).At(null) == v.At(null)
    requires n.kind != BuddyNode && ks.Keys - {n} == v.kids.Keys - {n} && null in v.kids && null in ks &&
      ks[null] == v.kids[null]
    requires forall p: Node :: p in ks && p in v.kids && p.kind == ContactNode ==> ks[p] == v.kids[p]
    requires n.kind == ContactNode ==> n !in v.kids && n in ks && ks[n] == []
    ensures Sound(list) && OrderOf(list) == o
  {
    SteadyIs(v, n);
    OwnedAfterShuffle(v, n, ks, live);
    hide *;
    StaysOrdered(list, v, o);
  }

  lemma OwnedAfterShuffle(v: View, n: Node, ks: Kids, live: set<Node>)
    requires OwnedBut(v, n) && Shaped(v.kids) && n.kind != BuddyNode && ks.Keys - {n} == v.kids.Keys - {n}
    requires forall p: Node :: p in ks && p in v.kids && p.kind == ContactNode ==> ks[p] == v.kids[p]
    requires n.kind == ContactNode ==> n !in v.kids && n in ks && ks[n] == []
    ensures Owned(View(ks, v.owner, live, {}))
  {
    forall x | x in v.owner ensures x.parent in ks && x in ks[x.parent] {
      var p := x.parent;
      assert x != n && p in v.kids && x in v.kids[p] && Fits(p, x);
      assert p != n;
      assert p in ks.Keys - {n};
    }
    forall d: Node, x | d in ks && d.kind == ContactNode && x in ks[d] ensures x in v.owner && v.owner[x] == d.parent {
      assert d != n;
      assert d in v.kids.Keys - {n};
    }
  }

  /** `purple_blist_add_contact` for a contact that was just created. */
  method AddNewContact(list: BuddyList, c: Node, g: Node, prev: Node?)
    requires Sound(list) && Detached(list, c) && c.kind == ContactNode
    requires g in list.kids && g.kind == GroupNode && (prev == null || prev in list.kids[g])
    modifies list`root, list`kids, list.live`prev, list.live`next, list.live`child, c`parent
    modifies list.live`totalsize, list.live`currentsize, list.live`online
    ensures Sound(list) && OrderOf(list) == old(OrderOf(list)) && c.parent == g
    ensures var v := old(ViewOf(list));
            ViewOf(list) == View(v.kids[c := []][g := Placed(v.At(g), prev, c)], v.owner, v.live, {})
  {
    hide *;
    ghost var v, ks, o := ViewOf(list), list.kids, OrderOf(list);
    BeforeAllow(list, c);
    Introduce(list, c);
    ghost var ls := list.kids;
    NewContactFits(ls, ks, c, g, prev);
    assert Ordered(list, v, o);
    JoinGroup(list, c, g, prev);
    RankedGroup(list, ls, g, list.kids[g]);
    IsRanked(list);
    CoherentParts(list);
    ViewIs(list, g);
    NewContactView(list, v, c, g, prev);
    AfterShuffle(list, v, c, list.kids, v.live, o);
  }

  lemma NewContactFits(ls: Kids, ks: Kids, c: Node, g: Node, prev: Node?)
    requires ls == ks[c := []] && g in ks && c !in ks && c.kind == ContactNode && (prev == null || prev in ks[g])
    ensures IsChild(c, ls) && g in ls && g != c && ls[g] == ks[g]
  {
  }

  lemma NewContactView(list: BuddyList, v: View, c: Node, g: Node, prev: Node?)
    requires Steady(v, c) && c !in v.kids && c.kind == ContactNode && g in v.kids && g.kind == GroupNode
    requires prev == null || prev in v.kids[g]
    ensures var ks := v.kids[c := []][g := InsertAt(v.kids[g], After(v.kids[g], prev), c)];
            && ks == v.kids[c := []][g := Placed(v.At(g), prev, c)]
            && ks.Keys - {c} == v.kids.Keys - {c} && null in v.kids && null in ks && ks[null] == v.kids[null]
            && (forall p: Node :: p in ks && p in v.kids && p.kind == ContactNode ==> ks[p] == v.kids[p])
            && View(ks, v.owner, v.live, {}).At(null) == v.At(null)
            && c in ks && ks[c] == []
  {
  }

  lemma BeforeChat(list: BuddyList, n: Node)
    requires Sound(list) && n.kind == ChatNode && list.Listed(n)
    ensures Tree(list) && RankedIn(list, list.kids) && Cached(list) && list.gone == {}
    ensures n.parent != null && n.parent in list.kids && n.parent.kind == GroupNode && n.parent in list.live &&
      n in list.live
    ensures n !in list.kids && n in list.kids[n.parent]
    ensures forall p: Node :: p in list.kids ==> p in list.live
    ensures Steady(ViewOf(list), n) && ViewOf(list) == View(list.kids, list.owner, list.live, {})
    ensures Ordered(list, ViewOf(list), OrderOf(list))
  {
    hide Sound, Tabled, OwnedBut, Cached, RankedIn, Counted, Ordered, OrderOf;
    SoundParts(list, n);
    IsOrdered(list);
    CoherentParts(list);
    assert Fits(n.parent, n);
    hide Shaped;
  }

  /** A chat leaves its group. */
  method LeaveAsChat(list: BuddyList, n: Node, g: Node)
    requires Sound(list) && n.kind == ChatNode && list.Listed(n) && n.parent == g
    modifies list`root, list`gone, list`kids, list.live`prev, list.live`next, list.live`child
    modifies list.live`totalsize, list.live`currentsize, list.live`online
    ensures Tree(list) && TreeBut(list, n) && RankedIn(list, list.kids) && Cached(list) &&
      list.gone == {}
    ensures g in old(list.kids) && g.kind == GroupNode && n !in old(list.kids)
    ensures list.kids == old(list.kids)[g := Minus(old(list.kids)[g], n)]
  {
    hide *;
    ghost var ks := list.kids;
    BeforeChat(list, n);
    CutOut(list, n);
    LeaveGroup(list, n, g);
    RankedGroup(list, ks, g, list.kids[g]);
  }

  lemma ChatView(list: BuddyList, v: View, n: Node, g: Node, s: seq<Node>)
    requires Steady(v, n) && n.kind == ChatNode && g in v.kids && g.kind == GroupNode
    ensures var ks := v.kids[g := s];
            && ks.Keys == v.kids.Keys && null in v.kids && ks[null] == v.kids[null]
            && (forall p: Node :: p in ks && p in v.kids && p.kind == ContactNode ==> ks[p] == v.kids[p])
            && forall live: set<Node> :: View(ks, v.owner, live, {}).At(null) == v.At(null)
  {
  }

  /** `purple_blist_remove_chat` for a chat that is in the list. */
  method RemoveChat(list: BuddyList, n: Node)
    requires Sound(list) && n.kind == ChatNode && list.Listed(n) && n.parent != null
    modifies list`root, list`gone, list`kids, list`live, list.live`prev, list.live`next, list.live`child
    modifies list.live`totalsize, list.live`currentsize, list.live`online
    ensures Sound(list) && OrderOf(list) == old(OrderOf(list))
    ensures var v := old(ViewOf(list));
            ViewOf(list) == View(v.kids[n.parent := Minus(v.At(n.parent), n)], v.owner, v.live - {n}, {})
  {
    hide *;
    ghost var v, o := ViewOf(list), OrderOf(list);
    var g := n.parent;
    BeforeChat(list, n);
    ViewIs(list, g);
    assert Ordered(list, v, o);
    LeaveAsChat(list, n, g);
    ChatNotListed(list, n);
    FreeLeaf(list, n);
    IsRanked(list);
    CoherentParts(list);
    ViewIs(list, g);
    ChatView(list, v, n, g, list.kids[g]);
    AfterShuffle(list, v, n, list.kids, list.live, o);
  }

  lemma ChatNotListed(list: BuddyList, n: Node)
    requires TreeBut(list, n)
    ensures !list.Listed(n)
  {
  }

  lemma ChatJoins(list: BuddyList, v: View, ks: Kids, n: Node, g0: Node, g: Node, prev: Node?)
    requires Steady(v, n) && g0 in v.kids && g0.kind == GroupNode && n !in v.kids && n.kind == ChatNode
    requires g in v.kids && g.kind == GroupNode && prev != n && (prev == null || prev in v.kids[g])
    requires ks == v.kids[g0 := Minus(v.kids[g0], n)]
    ensures IsChild(n, ks) && g in ks && (prev == null || prev in ks[g])
    ensures var ls := ks[g := InsertAt(ks[g], After(ks[g], prev), n)];
            && ls == ks[g := Placed(ks[g], prev, n)]
            && ls.Keys == v.kids.Keys && null in v.kids && ls[null] == v.kids[null]
            && (forall p: Node :: p in ls && p in v.kids && p.kind == ContactNode ==> ls[p] == v.kids[p])
            && forall live: set<Node> :: View(ls, v.owner, live, {}).At(null) == v.At(null)
  {
  }

  /** `purple_blist_add_chat` for a chat that is in the list: it moves behind
      `prev`, or in front, in the group `g`. */
  method MoveChat(list: BuddyList, n: Node, g: Node, prev: Node?)
    requires Sound(list) && n.kind == ChatNode && list.Listed(n) && n.parent != null
    requires g in list.kids && g.kind == GroupNode && prev != n && (prev == null || prev in list.kids[g])
    modifies list`root, list`gone, list`kids, list.live`prev, list.live`next, list.live`child, n`parent
    modifies list.live`totalsize, list.live`currentsize, list.live`online
    ensures Sound(list) && OrderOf(list) == old(OrderOf(list)) && n.parent == g
    ensures var v := old(ViewOf(list));
            var ks := v.kids[old(n.parent) := Minus(v.At(old(n.parent)), n)];
            g in ks && ViewOf(list) == View(ks[g := Placed(ks[g], prev, n)], v.owner, v.live, {})
  {
    hide *;
    ghost var v, o := ViewOf(list), OrderOf(list);
    var g0 := n.parent;
    BeforeChat(list, n);
    ViewIs(list, g0);
    assert Ordered(list, v, o);
    LeaveAsChat(list, n, g0);
    ghost var ks := list.kids;
    ChatJoins(list, v, ks, n, g0, g, prev);
    JoinGroup(list, n, g, prev);
    RankedGroup(list, ks, g, list.kids[g]);
    IsRanked(list);
    CoherentParts(list);
    ViewIs(list, g);
    AfterShuffle(list, v, n, list.kids, list.live, o);
  }

  /** `purple_blist_add_chat` for a chat that was just created. */
  method AddNewChat(list: BuddyList, n: Node, g: Node, prev: Node?)
    requires Sound(list) && Detached(list, n) && n.kind == ChatNode
    requires g in list.kids && g.kind == GroupNode && (prev == null || prev in list.kids[g])
    modifies list`root, list`kids, list.live`prev, list.live`next, list.live`child, n`parent
    modifies list.live`totalsize, list.live`currentsize, list.live`online
    ensures Sound(list) && OrderOf(list) == old(OrderOf(list)) && n.parent == g
    ensures var v := old(ViewOf(list));
            ViewOf(list) == View(v.kids[g := Placed(v.At(g), prev, n)], v.owner, v.live, {})
  {
    hide *;
    ghost var v, ks, o := ViewOf(list), list.kids, OrderOf(list);
    BeforeAllow(list, n);
    NewChatFits(list, v, n, g, prev);
    ViewIs(list, g);
    assert Ordered(list, v, o);
    JoinGroup(list, n, g, prev);
    RankedGroup(list, ks, g, list.kids[g]);
    IsRanked(list);
    CoherentParts(list);
    ViewIs(list, g);
    ChatView(list, v, n, g, list.kids[g]);
    AfterShuffle(list, v, n, list.kids, list.live, o);
  }

  lemma NewChatFits(list: BuddyList, v: View, n: Node, g: Node, prev: Node?)
    requires Sound(list) && Detached(list, n) && n.kind == ChatNode && v == ViewOf(list)
    requires g in list.kids && g.kind == GroupNode && (prev == null || prev in list.kids[g])
    ensures TreeBut(list, n) && IsChild(n, list.kids)
    ensures Placed(list.kids[g], prev, n) == InsertAt(list.kids[g], After(list.kids[g], prev), n)
  {
    SoundParts(list, n);
    TreeParts(list);
    hide Sound, Coherent, Tree, Shaped, OwnedBut, Tabled, Counters;
  }
}
