/** `purple_blist_add_group`, `purple_blist_remove_group` and `purple_find_group`.
    Most bodies below hide every definition; the short lemmas called `...Is` and
    `...Parts` give back the single definition that a step needs. */
module BuddyTop {
  import opened Lists
  import opened BuddyTree
  import opened BuddyCounts
  import opened BuddyIndex
  import opened BuddyState
  import opened BuddyRemove
  import opened BuddyValid
  import opened BuddyContacts
  import opened BuddyGroups

  lemma BeforeLeaveTop(list: BuddyList, g: Node)
    requires Tree(list) && list.Listed(g) && g.kind == GroupNode && list.gone == {g}
    ensures g.parent == null && null in list.kids && g in list.kids[null]
    ensures list.Linked() && list.Alone(g, null) && Shaped(list.kids) &&
      Shaped(list.kids[null := Minus(list.kids[null], g)])
    ensures Counted(list.kids, CurrentOf(list), OnlineOf(list)) && list.drift.Keys <= list.kids.Keys
    ensures forall x: Node :: x in list.kids ==> x.parent in list.kids && x in list.kids[x.parent]
  {
    assert Fits(g.parent, g);
    ShapedMinus(list.kids, null, g);
  }

  lemma RootedTop(list: BuddyList, ks: Kids, g: Node, s: seq<Node>)
    requires forall x: Node :: x in ks ==> x.parent in ks && x in ks[x.parent]
    requires null in ks && list.kids == ks[null := s] && forall m :: m in ks[null] && m != g ==> m in s
    ensures forall x: Node :: x in list.kids && x != g ==> x.parent in list.kids && x in list.kids[x.parent]
  {
  }

  /** A group that was cut out leaves the list. */
  method LeaveTop(list: BuddyList, g: Node)
    requires Tree(list) && list.Listed(g) && g.kind == GroupNode && list.gone == {g}
    modifies list`gone, list`kids
    ensures TreeBut(list, g) && list.gone == {} && null in old(list.kids) && g.parent == null
    ensures list.kids == old(list.kids)[null := Minus(old(list.kids)[null], g)]
  {
    hide *;
    ghost var ks := list.kids;
    BeforeLeaveTop(list, g);
    list.Forget(g);
    CountsOfTop(ks, Minus(ks[null], g), CurrentOf(list), OnlineOf(list));
    RootedTop(list, ks, g, Minus(ks[null], g));
    IsTreeBut(list, g);
  }

  lemma BeforeJoinTop(list: BuddyList, g: Node, prev: Node?)
    requires TreeBut(list, g) && g in list.kids && g.kind == GroupNode
    requires null in list.kids && (prev == null || prev in list.kids[null])
    ensures list.Linked() && !list.Listed(g)
    ensures Shaped(list.kids) && Shaped(list.kids[null := InsertAt(list.kids[null], After(list.kids[null], prev), g)])
    ensures Counted(list.kids, CurrentOf(list), OnlineOf(list)) && list.drift.Keys <= list.kids.Keys
    ensures forall x: Node :: x in list.kids && x != g ==> x.parent in list.kids && x in list.kids[x.parent]
  {
    ShapedInsert(list.kids, null, After(list.kids[null], prev), g);
  }

  lemma RootedJoinTop(list: BuddyList, ks: Kids, g: Node, s: seq<Node>)
    requires forall x: Node :: x in ks && x != g ==> x.parent in ks && x in ks[x.parent]
    requires null in ks && list.kids == ks[null := s] && g in s && g.parent == null &&
      forall m :: m in ks[null] ==> m in s
    ensures list.Rooted()
  {
  }

  /** A group joins the list, behind `prev` or in front. */
  method JoinTop(list: BuddyList, g: Node, prev: Node?)
    requires TreeBut(list, g) && list.gone == {} && g in list.live && g in list.kids && g.kind == GroupNode
    requires null in list.kids && (prev == null || prev in list.kids[null])
    modifies list`root, list`kids, list.live`prev, list.live`next, list.live`child, g`parent
    ensures forall m :: m in list.live ==> m.child == old(m.child)
    ensures Tree(list) && g.parent == null
    ensures list.kids == old(list.kids)[null := Placed(old(list.kids)[null], prev, g)]
  {
    hide *;
    ghost var ks := list.kids;
    BeforeJoinTop(list, g, prev);
    PlacedIs(ks[null], prev, g);
    PlacedHas(ks[null], prev, g);
    list.LinkAfter(g, null, prev);
    CountsOfTop(ks, Placed(ks[null], prev, g), CurrentOf(list), OnlineOf(list));
    RootedJoinTop(list, ks, g, Placed(ks[null], prev, g));
    IsTree(list);
  }

  lemma PlacedHas(s: seq<Node>, prev: Node?, n: Node)
    ensures n in Placed(s, prev, n) && (forall m :: m in s ==> m in Placed(s, prev, n))
    ensures forall m :: m in Placed(s, prev, n) ==> m == n || m in s
  {
  }

  method FindGroup(list: BuddyList, name: string) returns (g: Node?)
    ensures g == if name != "" && list.collate(name) in list.groupsCache then list.groupsCache[list.collate(name)]
      else null
  {
    if name == "" {
      return null;
    }
    var key := list.collate(name);
    if key in list.groupsCache {
      return list.groupsCache[key];
    }
    return null;
  }

  /** `purple_find_group` finds the group of the list with that name, if there is one. */
  lemma FindGroupIsSearch(list: BuddyList, name: string, g: Node)
    requires Valid(list)
    ensures list.collate(name) in list.groupsCache && list.groupsCache[list.collate(name)] == g
       <==> g in ViewOf(list).At(null) && list.collate(g.name) == list.collate(name)
  {
    hide *;
    ValidParts(list, null);
    GroupsFiledIs(list, name, g);
  }

  lemma GroupsFiledIs(list: BuddyList, name: string, g: Node)
    requires GroupsFiled(list, ViewOf(list))
    ensures list.collate(name) in list.groupsCache && list.groupsCache[list.collate(name)] == g
       <==> g in ViewOf(list).At(null) && list.collate(g.name) == list.collate(name)
  {
  }

  /** What it finds in any case is a group of the list with that name. */
  lemma FoundGroupIsListed(list: BuddyList, name: string)
    requires Sound(list) && list.collate(name) in list.groupsCache
    ensures var g := list.groupsCache[list.collate(name)];
            g in ViewOf(list).At(null) && list.collate(g.name) == list.collate(name) && g.name != ""
  {
    hide *;
    IsOrdered(list);
    OrderedIs(list, ViewOf(list), OrderOf(list));
    TableTrustIs(list, list.groupsCache, ViewOf(list).At(null));
    GroupsLeadAt(list, list.groupsCache, ViewOf(list).At(null), list.collate(name));
  }

  lemma GroupsLeadAt(list: BuddyList, cache: map<string, Node>, s: seq<Node>, k: string)
    requires GroupsLead(list, cache, s) && k in cache
    ensures cache[k] in s && list.collate(cache[k].name) == k && cache[k].name != ""
  {
  }

  /** A group of the name of `g` is found exactly if `g` is in the list. */
  ghost predicate Findable(list: BuddyList, g: Node)
    reads list`groupsCache, list`kids, g`name, g`parent
  {
    list.collate(g.name) in list.groupsCache <==> list.Listed(g)
  }

  lemma BeforeTop(list: BuddyList, g: Node)
    requires Sound(list) && list.Listed(g) && g.kind == GroupNode
    ensures Tree(list) && RankedIn(list, list.kids) && Cached(list) && list.gone == {}
    ensures g in list.kids && g in list.live && g.parent == null && null in list.kids && g in list.kids[null]
    ensures forall p: Node :: p in list.kids ==> p in list.live
    ensures forall n :: n in list.kids[null] ==> n.kind == GroupNode
    ensures Steady(ViewOf(list), g) && ViewOf(list) == View(list.kids, list.owner, list.live, {})
    ensures Ordered(list, ViewOf(list), OrderOf(list)) && g.name != ""
  {
    hide Sound, Tabled, OwnedBut, Cached, RankedIn, Counted, Ordered, OrderOf;
    SoundParts(list, g);
    IsOrdered(list);
    CoherentParts(list);
    assert Fits(g.parent, g);
    assert forall n :: n in list.kids[null] ==> Fits(null, n);
    assert g in list.kids <==> HasChildren(g);
    GroupHasName(list, g);
  }

  lemma GroupHasName(list: BuddyList, g: Node)
    requires Ordered(list, ViewOf(list), OrderOf(list)) && null in list.kids && g in list.kids[null]
    ensures g.name != ""
  {
    assert g in ViewOf(list).At(null);
    TableTrustIs(list, list.groupsCache, ViewOf(list).At(null));
    hide TableTrust, Trust, Tabled, Named;
  }

  /** When the table of groups is in order, every group is found. */
  lemma GroupIsFiled(list: BuddyList, g: Node)
    requires Valid(list) && list.Listed(g) && g.kind == GroupNode
    ensures g.parent == null && g in ViewOf(list).At(null)
    ensures g.name != "" && list.collate(g.name) in list.groupsCache && list.groupsCache[list.collate(g.name)] == g
    ensures Findable(list, g)
  {
    hide Valid, Sound;
    ValidParts(list, g);
    BeforeTop(list, g);
    ViewIs(list, null);
    GroupsFiledIs(list, g.name, g);
  }

  lemma GroupTableMoved(list: BuddyList, cache: map<string, Node>, s: seq<Node>, t: seq<Node>)
    requires Elements(s) == Elements(t)
    ensures TableTrust(list, cache, t) == TableTrust(list, cache, s)
  {
    assert forall g :: g in s <==> g in Elements(s);
    assert forall g :: g in t <==> g in Elements(t);
    assert forall g :: g in s <==> g in t;
  }

  lemma GroupTablePlus(list: BuddyList, cache: map<string, Node>, s: seq<Node>, t: seq<Node>, g: Node)
    requires g.name != "" && list.collate(g.name) !in cache
    requires forall h :: h in t <==> h in s || h == g
    ensures TableTrust(list, cache[list.collate(g.name) := g], t) >= TableTrust(list, cache, s)
  {
    if GroupTable(list, cache, s) {
      forall h | h in s ensures list.collate(h.name) != list.collate(g.name) {
        assert list.collate(h.name) in cache;
      }
    }
  }

  lemma GroupTableMinus(list: BuddyList, cache: map<string, Node>, s: seq<Node>, t: seq<Node>, g: Node)
    requires g in s && forall h :: h in t <==> h in s && h != g
    ensures TableTrust(list, cache - {list.collate(g.name)}, t) >= TableTrust(list, cache, s)
  {
    if GroupTable(list, cache, s) {
      forall h | h in t ensures list.collate(h.name) != list.collate(g.name) {
        assert cache[list.collate(h.name)] == h;
      }
    }
  }

  /** Afterwards: the rest of the invariant, when only the groups were rearranged. */
  lemma AfterTop(list: BuddyList, v: View, g: Node, ks: Kids, live: set<Node>, o: Order)
    requires Coherent(list) && list.gone == {} && ViewOf(list) == View(ks, v.owner, live, {})
    requires Shaped(v.kids) && OwnedBut(v, g) && g.kind == GroupNode
    requires ks.Keys - {g} == v.kids.Keys - {g} && null in ks
    requires forall p: Node :: p in ks && p in v.kids && p.kind == ContactNode ==> ks[p] == v.kids[p]
    requires Tabled(v, list.caches.Keys) && Named(list, v) == o.named && Trust(list) == o.buddies >= 1
    requires TableTrust(list, list.groupsCache, ks[null]) >= o.groups >= 1
    ensures Sound(list) && OrderOf(list).AtLeast(o)
  {
    OwnedAfterShuffle(v, g, ks, live);
    SameNames(list, v, ViewOf(list), list.caches.Keys);
    hide *;
    ViewIs(list, null);
    OrderIs(list);
    IsSound(list);
    AtLeastIs(OrderOf(list), o);
  }

  lemma TopView(v: View, g: Node, s: seq<Node>)
    requires Shaped(v.kids) && g.kind == GroupNode
    ensures var ks := v.kids[null := s];
            ks.Keys == v.kids.Keys && null in ks && ks[null] == s &&
            forall p: Node :: p in ks && p in v.kids && p.kind == ContactNode ==> ks[p] == v.kids[p]
  {
  }

  lemma MinusThenPlaced(s: seq<Node>, g: Node, prev: Node?)
    requires NoDup(s) && g in s && prev != g && (prev == null || prev in s)
    ensures prev == null || prev in Minus(s, g)
    ensures Elements(s) == Elements(Placed(Minus(s, g), prev, g))
  {
    PlacedHas(Minus(s, g), prev, g);
  }

  lemma TopIsDistinct(list: BuddyList)
    requires Tree(list) && null in list.kids
    ensures NoDup(list.kids[null])
  {
    assert list.Chained(null, list.kids[null], list.gone);
  }

  /** A group leaves its place among the groups and takes another one. */
  method Regroup(list: BuddyList, g: Node, prev: Node?)
    requires Tree(list) && RankedIn(list, list.kids) && Cached(list) && list.gone == {} && list.Listed(g)
    requires g.kind == GroupNode && g in list.kids && g in list.live && null in list.kids
    requires prev == null || prev in Minus(list.kids[null], g)
    modifies list`root, list`gone, list`kids, list.live`prev, list.live`next, list.live`child, g`parent
    ensures Coherent(list) && list.gone == {}
    ensures list.kids == old(list.kids)[null := Placed(Minus(old(list.kids)[null], g), prev, g)]
  {
    hide *;
    ghost var ks := list.kids;
    ghost var s := Placed(Minus(ks[null], g), prev, g);
    CutOut(list, g);
    LeaveTop(list, g);
    KeptGroups(list, ks, g, Minus(ks[null], g));
    JoinTop(list, g, prev);
    TopTwice(ks, Minus(ks[null], g), s);
    RankedGroup(list, ks, null, s);
    IsRanked(list);
    CoherentParts(list);
  }

  /** The branch of `purple_blist_add_group` for a group that is in the list. */
  method MoveGroup(list: BuddyList, g: Node, prev: Node?)
    requires Sound(list) && list.Listed(g) && g.kind == GroupNode
    requires prev != g && (prev == null || prev in ViewOf(list).At(null))
    modifies list`root, list`gone, list`kids, list.live`prev, list.live`next, list.live`child, g`parent
    ensures Sound(list) && OrderOf(list).AtLeast(old(OrderOf(list)))
    ensures ViewOf(list) == var v := old(ViewOf(list));
                            View(v.kids[null := Placed(Minus(v.At(null), g), prev, g)], v.owner, v.live, {})
  {
    hide *;
    ghost var v, o := ViewOf(list), OrderOf(list);
    BeforeTop(list, g);
    ViewIs(list, null);
    TopIsDistinct(list);
    SteadyIs(v, g);
    MinusThenPlaced(v.At(null), g, prev);
    OrderedIs(list, v, o);
    assert TableTrust(list, list.groupsCache, v.At(null)) == o.groups && Named(list, v) == o.named &&
        Trust(list) == o.buddies;
    Regroup(list, g, prev);
    ghost var s := Placed(Minus(v.At(null), g), prev, g);
    TopView(v, g, s);
    GroupTableMoved(list, list.groupsCache, v.At(null), s);
    ViewIs(list, null);
    AfterTop(list, v, g, list.kids, list.live, o);
  }

  lemma KeptGroups(list: BuddyList, ks: Kids, g: Node, s: seq<Node>)
    requires list.kids == ks[null := s] && g in ks && null in ks
    ensures g in list.kids && null in list.kids && list.kids[null] == s
  {
  }

  lemma TopTwice(ks: Kids, s: seq<Node>, t: seq<Node>)
    ensures ks[null := s][null := t] == ks[null := t]
  {
  }

  lemma NewTopFits(list: BuddyList, v: View, ks: Kids, g: Node, prev: Node?)
    requires Steady(v, g) && g !in v.kids && ks == v.kids[g := []] && (prev == null || prev in v.At(null))
    ensures null in ks && g in ks && ks[null] == v.At(null) && (prev == null || prev in ks[null])
  {
  }

  lemma NewTopView(v: View, g: Node, s: seq<Node>)
    requires Shaped(v.kids) && g !in v.kids && g.kind == GroupNode
    ensures var ks := v.kids[g := []][null := s];
            ks.Keys - {g} == v.kids.Keys - {g} && null in ks && ks[null] == s &&
            forall p: Node :: p in ks && p in v.kids && p.kind == ContactNode ==> ks[p] == v.kids[p]
  {
  }

  /** A group that was just created joins the list. */
  method JoinNewTop(list: BuddyList, g: Node, prev: Node?)
    requires Sound(list) && Detached(list, g) && g.kind == GroupNode
    requires prev == null || prev in ViewOf(list).At(null)
    modifies list`root, list`kids, list.live`prev, list.live`next, list.live`child, g`parent
    ensures forall m :: m in list.live ==> m.child == old(m.child)
    ensures Coherent(list) && list.gone == {} && g.parent == null
    ensures null in old(list.kids) && list.kids ==
      old(list.kids)[g := []][null := Placed(old(list.kids)[null], prev, g)]
  {
    hide *;
    ghost var v, ks := ViewOf(list), list.kids;
    BeforeAllow(list, g);
    ViewIs(list, null);
    NewTopFits(list, v, ks[g := []], g, prev);
    Introduce(list, g);
    ghost var ls := list.kids;
    JoinTop(list, g, prev);
    RankedGroup(list, ls, null, list.kids[null]);
    IsRanked(list);
    CoherentParts(list);
  }

  lemma PlacedElements(s: seq<Node>, prev: Node?, g: Node)
    ensures forall h: Node :: h in Placed(s, prev, g) <==> h in s || h == g
  {
    PlacedHas(s, prev, g);
  }

  /** The branch of `purple_blist_add_group` for a group with a new name. */
  method AddNewGroup(list: BuddyList, g: Node, prev: Node?)
    requires Sound(list) && Detached(list, g) && g.kind == GroupNode && g.name != "" &&
      list.collate(g.name) !in list.groupsCache
    requires prev == null || prev in ViewOf(list).At(null)
    modifies list`root, list`kids, list`groupsCache, list.live`prev, list.live`next, list.live`child, g`parent
    ensures Sound(list) && OrderOf(list).AtLeast(old(OrderOf(list))) && g.parent == null
    ensures forall m :: m in list.live ==> m.child == old(m.child)
    ensures list.groupsCache == old(list.groupsCache)[list.collate(g.name) := g]
    ensures ViewOf(list) == var v := old(ViewOf(list));
                            View(v.kids[g := []][null := Placed(v.At(null), prev, g)], v.owner, v.live, {})
  {
    hide *;
    ghost var v, o := ViewOf(list), OrderOf(list);
    BeforeAllow(list, g);
    ViewIs(list, null);
    SteadyIs(v, g);
    OrderedIs(list, v, o);
    ghost var cache, s := list.groupsCache, Placed(v.At(null), prev, g);
    assert TableTrust(list, cache, v.At(null)) == o.groups && Named(list, v) == o.named && Trust(list) == o.buddies;
    JoinNewTop(list, g, prev);
    assert TableTrust(list, cache, v.At(null)) == o.groups && Named(list, v) == o.named && Trust(list) == o.buddies;
    PlacedElements(v.At(null), prev, g);
    GroupTablePlus(list, cache, v.At(null), s, g);
    CoherentParts(list);
    list.groupsCache := list.groupsCache[list.collate(g.name) := g];
    CoherentParts(list);
    NewTopView(v, g, s);
    ViewIs(list, null);
    AfterTop(list, v, g, list.kids, list.live, o);
  }

  lemma TreeOnceFreed(list: BuddyList, ks: Kids, drift: map<Node, int>, online: Reading, g: Node)
    requires list.Linked() && Shaped(ks) && list.kids == ks - {g} && list.drift == drift - {g} && drift.Keys <= ks.Keys
    requires online == InOnline(list.connected, list.present, drift) && Counted(ks, CurrentOf(list), online)
    requires forall x: Node :: x in ks && x != g ==> x.parent in ks && x in ks[x.parent]
    requires (forall p :: p in ks ==> g !in ks[p]) && (g in ks ==> ks[g] == [])
    ensures Tree(list)
  {
    CountsWithoutKey(ks, g, CurrentOf(list), online);
    OnlineWithout(list, drift, online, g);
    ShapedWithout(ks, g);
    hide Shaped, BuddyList.Linked, Counted, CurrentOf, OnlineOf, InOnline;
    IsTree(list);
  }

  lemma OnlineWithout(list: BuddyList, drift: map<Node, int>, online: Reading, g: Node)
    requires online == InOnline(list.connected, list.present, drift) && list.drift == drift - {g}
    ensures OnlineOf(list) == Reading(online.test, online.drift - {g})
  {
  }

  lemma BeforeFreeTop(list: BuddyList, g: Node)
    requires TreeBut(list, g)
    ensures list.Linked() && Shaped(list.kids) && !list.Listed(g)
    ensures Counted(list.kids, CurrentOf(list), OnlineOf(list)) && list.drift.Keys <= list.kids.Keys
    ensures forall x: Node :: x in list.kids && x != g ==> x.parent in list.kids && x in list.kids[x.parent]
    ensures forall p :: p in list.kids ==> g !in list.kids[p]
  {
    assert forall p, m :: p in list.kids && m in list.kids[p] ==> list.Listed(m);
  }

  lemma RankedWithoutKey(list: BuddyList, ks: Kids, g: Node)
    requires RankedIn(list, ks)
    ensures RankedIn(list, ks - {g})
  {
  }

  /** An empty group leaves the list and is freed. */
  method DropTop(list: BuddyList, g: Node)
    requires Tree(list) && RankedIn(list, list.kids) && Cached(list) && list.gone == {} && list.Listed(g)
    requires g.kind == GroupNode && g in list.kids && null in list.kids && list.kids[g] == []
    modifies list`root, list`gone, list`kids, list`live, list.live`prev, list.live`next, list.live`child, list`drift
    ensures Coherent(list) && list.gone == {} && list.live == old(list.live) - {g} &&
      list.drift == old(list.drift) - {g}
    ensures list.kids == old(list.kids)[null := Minus(old(list.kids)[null], g)] - {g}
  {
    hide *;
    ghost var ks := list.kids;
    CutOut(list, g);
    LeaveTop(list, g);
    ghost var ls := list.kids;
    RankedGroup(list, ks, null, ls[null]);
    FreeTop(list, g);
    RankedWithoutKey(list, ls, g);
    IsRanked(list);
    CoherentParts(list);
  }

  /** An empty group that is in no list is freed. */
  ghost method FreeTop(list: BuddyList, g: Node)
    requires TreeBut(list, g) && g in list.kids && list.kids[g] == []
    modifies list`kids, list`live, list`drift
    ensures Tree(list) && list.kids == old(list.kids) - {g} && list.live == old(list.live) - {g} &&
      list.drift == old(list.drift) - {g}
  {
    hide *;
    var ls, drift, online := list.kids, list.drift, OnlineOf(list);
    BeforeFreeTop(list, g);
    OnlineIs(list);
    list.Free(g);
    list.drift := list.drift - {g};
    TreeOnceFreed(list, ls, drift, online, g);
  }

  lemma FirstIs(list: BuddyList, g: Node)
    requires g in list.kids && list.Chained(g, list.kids[g], list.gone) && list.gone == {}
    ensures g.child == if list.kids[g] == [] then null else list.kids[g][0]
  {
  }

  lemma GroupHasChild(list: BuddyList, g: Node)
    requires list.Linked() && g in list.kids && list.gone == {} && g.kind == GroupNode
    ensures g.child == null <==> list.kids[g] == []
    ensures g.child != null ==> g.child == list.kids[g][0] && g.child in list.live
  {
    FirstIs(list, g);
    assert g.child != null ==> g.child in list.kids[g];
    hide BuddyList.Chained;
  }

  lemma MinusElements(s: seq<Node>, g: Node)
    requires NoDup(s)
    ensures forall h: Node :: h in Minus(s, g) <==> h in s && h != g
  {
    MinusIsDistinct(s, g);
  }

  lemma DroppedView(v: View, g: Node, s: seq<Node>)
    requires Shaped(v.kids) && g.kind == GroupNode
    ensures var ks := v.kids[null := s] - {g};
            ks.Keys - {g} == v.kids.Keys - {g} && null in ks && ks[null] == s &&
            forall p: Node :: p in ks && p in v.kids && p.kind == ContactNode ==> ks[p] == v.kids[p]
  {
  }

  /** `purple_blist_remove_group` for a group without children. */
  method RemoveEmptyGroup(list: BuddyList, g: Node)
    requires Sound(list) && list.Listed(g) && g.kind == GroupNode && ViewOf(list).At(g) == []
    modifies list`root, list`gone, list`kids, list`live, list`groupsCache, list`drift, list.live`prev, list.live`next,
      list.live`child
    ensures Sound(list) && OrderOf(list).AtLeast(old(OrderOf(list)))
    ensures list.groupsCache == old(list.groupsCache) - {list.collate(g.name)} &&
      list.drift == old(list.drift) - {g}
    ensures ViewOf(list) == var v := old(ViewOf(list));
                            View(v.kids[null := Minus(v.At(null), g)] - {g}, v.owner, v.live - {g}, {})
  {
    hide *;
    ghost var v, o := ViewOf(list), OrderOf(list);
    BeforeTop(list, g);
    ViewIs(list, null);
    ViewIs(list, g);
    TopIsDistinct(list);
    SteadyIs(v, g);
    OrderedIs(list, v, o);
    ghost var cache, s := list.groupsCache, Minus(v.At(null), g);
    assert TableTrust(list, cache, v.At(null)) == o.groups && Named(list, v) == o.named && Trust(list) == o.buddies;
    DropTop(list, g);
    assert TableTrust(list, cache, v.At(null)) == o.groups && Named(list, v) == o.named && Trust(list) == o.buddies;
    MinusElements(v.At(null), g);
    GroupTableMinus(list, cache, v.At(null), s, g);
    CoherentParts(list);
    list.groupsCache := list.groupsCache - {list.collate(g.name)};
    CoherentParts(list);
    DroppedView(v, g, s);
    ViewIs(list, null);
    AfterTop(list, v, g, list.kids, list.live, o);
  }

  /** `purple_blist_remove_group`: only empty groups are removed. */
  method RemoveGroup(list: BuddyList, g: Node)
    requires Sound(list) && list.Listed(g) && g.kind == GroupNode
    modifies list`root, list`gone, list`kids, list`live, list`groupsCache, list`drift, list.live`prev, list.live`next,
      list.live`child
    ensures Sound(list) && OrderOf(list).AtLeast(old(OrderOf(list)))
    ensures list.drift == if old(ViewOf(list)).At(g) == [] then old(list.drift) - {g} else old(list.drift)
    ensures list.groupsCache == if old(ViewOf(list)).At(g) == [] then old(list.groupsCache) - {list.collate(g.name)}
      else old(list.groupsCache)
    ensures ViewOf(list) == var v := old(ViewOf(list));
                            if v.At(g) != [] then v
                            else View(v.kids[null := Minus(v.At(null), g)] - {g}, v.owner, v.live - {g}, {})
  {
    hide *;
    BeforeTop(list, g);
    TreeParts(list);
    AtLeastIs(OrderOf(list), OrderOf(list));
    ViewIs(list, g);
    GroupHasChild(list, g);
    if g.child != null {
      return;
    }
    RemoveEmptyGroup(list, g);
  }

  /** The list after the group `g` was put behind `prev`, or in front. */
  ghost function Regrouped(v: View, g: Node, prev: Node?): View {
    View((if g in v.kids then v.kids else v.kids[g := []])[null := Placed(Minus(v.At(null), g), prev, g)], v.owner,
        v.live, {})
  }

  lemma RegroupedIs(v: View, g: Node, prev: Node?)
    ensures g in v.kids ==>
              Regrouped(v, g, prev) == View(v.kids[null := Placed(Minus(v.At(null), g), prev, g)], v.owner, v.live, {})
    ensures g !in v.kids && Minus(v.At(null), g) == v.At(null) ==>
              Regrouped(v, g, prev) == View(v.kids[g := []][null := Placed(v.At(null), prev, g)], v.owner, v.live, {})
  {
  }

  lemma BeforeAddGroup(list: BuddyList, g: Node, prev: Node?)
    requires Sound(list) && g.kind == GroupNode && (list.Listed(g) || Detached(list, g)) && Findable(list, g)
    ensures list.collate(g.name) in list.groupsCache <==> list.Listed(g)
    ensures list.Listed(g) ==> g in ViewOf(list).kids
    ensures !list.Listed(g) ==> g !in ViewOf(list).kids && Minus(ViewOf(list).At(null), g) == ViewOf(list).At(null)
    ensures list.root == null <==> ViewOf(list).At(null) == []
    ensures list.Listed(g) ==> g in ViewOf(list).At(null)
  {
    hide Sound;
    if list.Listed(g) {
      BeforeTop(list, g);
    } else {
      BeforeAllow(list, g);
    }
    TopRoot(list);
  }

  lemma TopRoot(list: BuddyList)
    requires Sound(list)
    ensures list.root == null <==> ViewOf(list).At(null) == []
  {
    SoundParts(list, null);
    hide Sound, Coherent, Owned, OwnedBut, Tabled, Tree;
    assert null in list.kids && list.Chained(null, list.kids[null], list.gone);
  }

  /** `purple_blist_add_group`: behind `prev`, or in front. */
  method AddGroup(list: BuddyList, g: Node, prev: Node?)
    requires Sound(list) && g.kind == GroupNode && g.name != "" && (list.Listed(g) || Detached(list, g))
    requires Findable(list, g) && (prev == null || prev == g || prev in ViewOf(list).At(null))
    modifies list`root, list`gone, list`kids, list`groupsCache, list.live`prev, list.live`next,
      list.live`child, g`parent
    ensures Sound(list) && OrderOf(list).AtLeast(old(OrderOf(list))) && list.live == old(list.live)
    ensures list.groupsCache ==
      if old(list.Listed(g)) || (prev == g && old(list.root) != null) then old(list.groupsCache)
      else old(list.groupsCache)[list.collate(g.name) := g]
    ensures ViewOf(list) == var v := old(ViewOf(list));
                            if prev == g && v.At(null) != [] then v
                            else Regrouped(v, g, if prev == g then null else prev)
  {
    hide *;
    BeforeAddGroup(list, g, prev);
    AtLeastIs(OrderOf(list), OrderOf(list));
    var node := prev;
    if g == node {
      if list.root == null {
        node := null;
      } else {
        return;
      }
    }
    RegroupedIs(ViewOf(list), g, node);
    var found := FindGroup(list, g.name);
    if found != null {
      MoveGroup(list, g, node);
    } else {
      AddNewGroup(list, g, node);
    }
  }
}
