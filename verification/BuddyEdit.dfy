/** The public operations: nodes are created, found a place for, and removed.
    Most bodies below hide every definition; the short lemmas called `...Is` and
    `...Parts` give back the single definition that a step needs. */
module BuddyEdit {
  import opened Lists
  import opened BuddyTree
  import opened BuddyCounts
  import opened BuddyIndex
  import opened BuddyState
  import opened BuddyRemove
  import opened BuddyValid
  import opened BuddyAdd
  import opened BuddyContacts
  import opened BuddyGroups
  import opened BuddyTop

  /** A new buddy list is empty, and all is well with it. */
  method NewList(accounts: set<Account>, connected: set<Account>, lastMatch: bool,
      normalize: (Account, string) -> string,
                 collate: string -> string, sameFolded: (string, string) -> bool) returns (list: BuddyList)
    ensures list.connected == connected && list.present == {} && list.normalize == normalize
    ensures list.collate == collate && list.sameFolded == sameFolded
    ensures fresh(list) && Valid(list) && Exact(list.drift) && list.caches.Keys == accounts
    ensures ViewOf(list) == View(map[null := []], map[], {}, {})
  {
    list := new BuddyList(accounts, connected, lastMatch, normalize, collate, sameFolded);
    EmptyList(list);
  }

  lemma EmptyList(list: BuddyList)
    requires list.root == null && list.live == list.gone == list.present == {} && list.kids == map[null := []] &&
      list.drift == map[]
    requires list.buddies == map[] && list.owner == map[] && list.groupsCache == map[]
    requires forall a :: a in list.caches ==> list.caches[a] == map[]
    ensures Valid(list) && Exact(list.drift)
  {
    assert list.Chained(null, [], {});
    assert Counters(list) && Ranked(list);
    forall a | a in list.caches ensures list.caches[a] == OfAccount(list.buddies, a) {
      assert OfAccount(list.buddies, a) == map[];
    }
    assert Filed(list) && Cached(list);
    TrustIs(list);
    OrderIs(list);
  }

  /** A node that was just created exists. */
  ghost method Welcome(list: BuddyList, n: Node)
    requires Sound(list) && n !in list.live && n !in list.kids && n !in list.owner
    requires n.prev == n.next == n.parent == n.child == null && !n.priorityValid
    requires n.totalsize == n.currentsize == n.online == n.destroyed == 0
    modifies list`live
    ensures Sound(list) && OrderOf(list) == old(OrderOf(list))
    ensures Detached(list, n) && list.live == old(list.live) + {n}
    ensures ViewOf(list) == var v := old(ViewOf(list)); View(v.kids, v.owner, v.live + {n}, {})
  {
    hide *;
    BeforeWelcome(list, n);
    var v, o := ViewOf(list), OrderOf(list);
    ViewIs(list, null);
    assert Ordered(list, v, o);
    list.live := list.live + {n};
    AfterWelcome(list, v, n, o);
    ViewIs(list, null);
  }

  lemma BeforeWelcome(list: BuddyList, n: Node)
    requires Sound(list) && n !in list.live
    ensures null in list.kids && (forall p: Node :: p in list.kids ==> p in list.live && HasChildren(p))
    ensures forall p, m :: p in list.kids && m in list.kids[p] ==> m in list.live && m.parent == p
    ensures forall m :: m in list.live && !HasChildren(m) ==> m.child == null
    ensures (forall p :: p in list.kids ==> list.Chained(p, list.kids[p], list.gone))
    ensures Shaped(list.kids) && list.Rooted() && Counters(list)
    ensures Ranked(list) && Cached(list) && list.gone == {} && Coherent(list)
    ensures Owned(ViewOf(list)) && Ordered(list, ViewOf(list), OrderOf(list))
    ensures ViewOf(list) == View(list.kids, list.owner, list.live, {})
    ensures forall p :: p in list.kids ==> n !in list.kids[p]
  {
    hide *;
    SoundParts(list, null);
    CoherentParts(list);
    TreeParts(list);
    IsSound(list);
    IsOrdered(list);
    LinkedParts(list, n);
  }

  lemma LinkedParts(list: BuddyList, n: Node)
    requires list.Linked()
    ensures null in list.kids && (forall p: Node :: p in list.kids ==> p in list.live && HasChildren(p))
    ensures forall p, m :: p in list.kids && m in list.kids[p] ==> m in list.live && m.parent == p
    ensures forall m :: m in list.live && !HasChildren(m) ==> m.child == null
    ensures forall p :: p in list.kids ==> list.Chained(p, list.kids[p], list.gone)
    ensures n !in list.live ==> forall p :: p in list.kids ==> n !in list.kids[p]
  {
    hide BuddyList.Chained;
  }

  lemma AfterWelcome(list: BuddyList, v: View, n: Node, o: Order)
    requires null in list.kids && (forall p: Node :: p in list.kids ==> p in list.live && HasChildren(p))
    requires forall p, m :: p in list.kids && m in list.kids[p] ==> m in list.live && m.parent == p
    requires forall m :: m in list.live && !HasChildren(m) ==> m.child == null
    requires (forall p :: p in list.kids ==> list.Chained(p, list.kids[p], list.gone))
    requires Shaped(list.kids) && list.Rooted() && Counters(list)
    requires Ranked(list) && Cached(list) && list.gone == {} && Ordered(list, v, o)
    requires Owned(v) && v == View(list.kids, list.owner, v.live, {})
    requires n in list.live && n !in list.kids && forall p :: p in list.kids ==> n !in list.kids[p]
    requires n.prev == n.next == n.parent == n.child == null && !n.priorityValid
    requires n.totalsize == n.currentsize == n.online == n.destroyed == 0
    ensures Sound(list) && OrderOf(list) == o && Detached(list, n)
  {
    hide BuddyList.Chained, Shaped, Counters, Ranked, Cached, Sound, Coherent, Tree, Ordered, OrderOf;
    assert list.Linked();
    assert Owned(ViewOf(list)) && ViewOf(list).At(null) == v.At(null);
    TreeParts(list);
    CoherentParts(list);
    StaysOrdered(list, v, o);
  }

  /** `purple_buddy_new`, `purple_contact_new`, `purple_chat_new` and the allocation in `purple_group_new` */
  method NewNode(list: BuddyList, kind: Kind, account: Account, name: string) returns (n: Node)
    requires Sound(list)
    modifies list`live
    ensures Sound(list) && OrderOf(list) == old(OrderOf(list)) && fresh(n) && Detached(list, n) &&
      n !in old(list.live) && n !in list.owner
    ensures n.kind == kind && n.account == account && n.name == name && list.live == old(list.live) + {n}
    ensures ViewOf(list) == var v := old(ViewOf(list)); View(v.kids, v.owner, v.live + {n}, {})
  {
    hide *;
    n := new Node(kind, account, name);
    Welcome(list, n);
  }

  /** `purple_group_new` returns the group of that name, if there is one. */
  method GroupNew(list: BuddyList, name: string) returns (g: Node)
    requires Sound(list) && name != ""
    modifies list`live
    ensures Sound(list) && OrderOf(list) == old(OrderOf(list)) && g.kind == GroupNode && g.name != ""
    ensures Findable(list, g) && list.collate(g.name) == list.collate(name)
    ensures ViewOf(list) == Founded(old(ViewOf(list)), g, list.Listed(g)) && fresh(list.live - old(list.live))
    ensures if list.Listed(g) then old(list.collate(name) in list.groupsCache) && g in ViewOf(list).kids
            else old(list.collate(name) !in list.groupsCache) && Detached(list, g) && fresh(g)
  {
    hide *;
    BeforeGroupNew(list, name);
    ghost var v := ViewOf(list);
    var found := FindGroup(list, name);
    if found != null {
      g := found;
    } else {
      g := NewNode(list, GroupNode, Account(0), name);
      NotYetListed(list, g);
    }
    AfterGroupNew(list, name, g);
    FoundedIs(v, g, list.Listed(g));
  }

  /** `g` exists. */
  ghost function Founded(v: View, g: Node, known: bool): View {
    if known then v else View(v.kids, v.owner, v.live + {g}, {})
  }

  lemma BeforeGroupNew(list: BuddyList, name: string)
    requires Sound(list)
    ensures list.collate(name) in list.groupsCache ==>
              var g := list.groupsCache[list.collate(name)];
              && g.kind == GroupNode && g.name != "" && list.Listed(g) && list.collate(g.name) == list.collate(name)
              && g in ViewOf(list).kids
  {
    if list.collate(name) in list.groupsCache {
      var g := list.groupsCache[list.collate(name)];
      FoundGroupIsListed(list, name);
      NamedGroup(list, g);
    }
  }

  lemma NamedGroup(list: BuddyList, g: Node)
    requires Sound(list) && g in ViewOf(list).At(null)
    ensures g.kind == GroupNode && g.name != "" && list.Listed(g) && g in ViewOf(list).kids && g in list.live
  {
    TopNode(list, g);
    hide *;
    BeforeTop(list, g);
    ViewIs(list, g);
  }

  lemma TopNode(list: BuddyList, g: Node)
    requires Sound(list) && g in ViewOf(list).At(null)
    ensures list.Listed(g) && g.kind == GroupNode
  {
    SoundParts(list, null);
    hide Sound, Coherent, OwnedBut, Tabled;
    assert Fits(null, g);
  }

  lemma AfterGroupNew(list: BuddyList, name: string, g: Node)
    requires list.collate(g.name) == list.collate(name)
    requires if list.Listed(g) then list.collate(name) in list.groupsCache else list.collate(name) !in list.groupsCache
    ensures Findable(list, g)
  {
  }

  lemma NotYetListed(list: BuddyList, g: Node)
    requires Detached(list, g)
    ensures !list.Listed(g)
  {
  }

  lemma FoundedIs(v: View, g: Node, known: bool)
    ensures Founded(v, g, known) == if known then v else View(v.kids, v.owner, v.live + {g}, {})
  {
  }

  /** The last of the siblings `s`. */
  ghost function Last(s: seq<Node>): Node? {
    if s == [] then null else s[|s| - 1]
  }

  lemma NextIs(list: BuddyList, p: Node?, i: nat)
    requires list.Linked() && list.gone == {} && p in list.kids && i < |list.kids[p]|
    ensures list.kids[p][i].next == if i + 1 < |list.kids[p]| then list.kids[p][i + 1] else null
  {
    assert list.Chained(p, list.kids[p], {});
    assert Joined(list.kids[p], i, {});
  }

  lemma NoDupAt(list: BuddyList, p: Node?)
    requires list.Linked() && p in list.kids
    ensures NoDup(list.kids[p])
  {
    assert list.Chained(p, list.kids[p], list.gone);
  }

  /** `purple_blist_get_last_sibling`, from the first child of `p` on */
  method LastSibling(list: BuddyList, first: Node?, ghost p: Node?) returns (n: Node?)
    requires list.Linked() && list.gone == {} && p in list.kids
    requires first == if list.kids[p] == [] then null else list.kids[p][0]
    ensures n == Last(list.kids[p])
  {
    hide BuddyList.Linked;
    n := first;
    if n == null {
      return;
    }
    ghost var s, i := list.kids[p], 0;
    NextIs(list, p, 0);
    while n.next != null
      invariant i < |s| && n == s[i] && n.next == if i + 1 < |s| then s[i + 1] else null
      decreases |s| - i
    {
      n, i := n.next, i + 1;
      NextIs(list, p, i);
    }
  }

  lemma FirstOf(list: BuddyList, p: Node?)
    requires Sound(list) && p in list.kids
    ensures list.Linked() && list.gone == {}
    ensures (if p == null then list.root else p.child) == if list.kids[p] == [] then null else list.kids[p][0]
    ensures Last(list.kids[p]) == null || Last(list.kids[p]) in list.kids[p]
    ensures ViewOf(list).At(p) == list.kids[p]
  {
    SoundParts(list, null);
    assert list.Chained(p, list.kids[p], {});
    hide Sound, Coherent, Tree, OwnedBut, Tabled, Shaped;
  }

  /** The last child of `p`. */
  method LastChild(list: BuddyList, p: Node?) returns (n: Node?)
    requires Sound(list) && p in list.kids
    ensures n == Last(ViewOf(list).At(p)) && (n == null || n in ViewOf(list).At(p))
  {
    hide *;
    FirstOf(list, p);
    n := LastSibling(list, if p == null then list.root else p.child, p);
  }

  lemma PlacedLast(s: seq<Node>, n: Node)
    requires NoDup(s)
    ensures Placed(s, Last(s), n) == s + [n]
  {
    if s != [] {
      assert forall i :: 0 <= i < |s| - 1 ==> s[i] != s[|s| - 1];
      IndexOfIs(s, s[|s| - 1], |s| - 1);
      assert s[..|s|] == s && s[|s|..] == [];
    }
  }

  lemma BeforeDelete(list: BuddyList, b: Node)
    requires Sound(list) && list.Listed(b) && b.kind == BuddyNode
    ensures Coherent(list) && list.gone == {} && InList(list, b) && Removable(list, b) &&
      Homed(list, b, b.parent.parent)
    ensures b.parent != null && b.parent.parent != null && Stands(ViewOf(list), b.parent.parent, b.parent, b)
    ensures Steady(ViewOf(list), b) && ViewOf(list).gone == {} && Ordered(list, ViewOf(list), OrderOf(list))
  {
    hide Sound, Coherent, Ranked, Cached, Tabled, Ordered, OrderOf, Counters;
    SoundParts(list, b);
    IsOrdered(list);
    HomeOf(list, b);
    FamilyOf(list, b.parent);
    OwnedBuddies(list, b.parent);
    OldContactOf(list, b);
  }

  lemma OldContactOf(list: BuddyList, b: Node)
    requires list.Linked() && Shaped(list.kids) && list.Rooted() && list.Listed(b) && b.kind == BuddyNode
    requires b.parent != null && b.parent in list.kids && b.parent.kind == ContactNode
    ensures b.parent.parent != null && Stands(ViewOf(list), b.parent.parent, b.parent, b)
  {
    FamilyInView(list, b.parent);
    HomeOf(list, b);
    assert forall p :: p in list.kids && b in list.kids[p] ==> p == b.parent;
    hide Shaped, BuddyList.Chained;
  }

  lemma FewerGroups(v: View, g: Node, c: Node, b: Node)
    requires Stands(v, g, c, b)
    ensures v.MinusBuddy(g, c, b).At(null) == v.At(null) && v.MinusContact(g, c).At(null) == v.At(null)
    ensures v.gone == {} ==> v.MinusBuddy(g, c, b).gone == {}
    ensures forall x :: x in v.MinusBuddy(g, c, b).owner ==> x in v.owner
  {
  }

  lemma AfterDelete(list: BuddyList, v: View, g: Node, c: Node, b: Node, o: Order)
    requires Coherent(list) && Steady(v, b) && Stands(v, g, c, b) && v.gone == {}
    requires ViewOf(list) == v.MinusBuddy(g, c, b) && Remains(list, v, o)
    ensures Sound(list) && OrderOf(list).AtLeast(o)
  {
    hide *;
    SteadyIs(v, b);
    FewerGroups(v, g, c, b);
    OwnedMinusBuddy(v, g, c, b);
    AfterFewer(list, v, o);
  }

  /** What `o` says of names and tables, when the list lost buddies. */
  ghost predicate Remains(list: BuddyList, v: View, o: Order)
    reads list`groupsCache, list`buddies, list`owner, list`caches, list.owner.Keys`name
    reads v.owner.Keys`name, (set g | null in v.kids && g in v.kids[null])`name
  {
    && Tabled(v, list.caches.Keys) && Named(list, v) == o.named
    && TableTrust(list, list.groupsCache, v.At(null)) == o.groups >= 1 && Trust(list) >= o.buddies >= 1
  }

  lemma RemainsIs(list: BuddyList, v: View, o: Order)
    ensures Remains(list, v, o) <==>
      && Tabled(v, list.caches.Keys) && Named(list, v) == o.named
      && TableTrust(list, list.groupsCache, v.At(null)) == o.groups >= 1 && Trust(list) >= o.buddies >= 1
  {
  }

  lemma AfterFewer(list: BuddyList, v: View, o: Order)
    requires Coherent(list) && Owned(ViewOf(list)) && ViewOf(list).gone == {} && Remains(list, v, o)
    requires ViewOf(list).At(null) == v.At(null) && forall x :: x in ViewOf(list).owner ==> x in v.owner
    ensures Sound(list) && OrderOf(list).AtLeast(o)
  {
    hide *;
    RemainsIs(list, v, o);
    FewerNames(list, v, ViewOf(list), list.caches.Keys);
    ViewIs(list, null);
    StaysSound(list, v, o);
  }

  /** `purple_blist_remove_buddy` for a buddy that is in the list: a contact that
      loses its last buddy goes too. Exact counters stay exact unless the presence is early. */
  method DeleteBuddy(list: BuddyList, b: Node)
    requires Sound(list) && list.Listed(b) && b.kind == BuddyNode && b.parent != null && b.parent.parent != null
    modifies list`root, list`gone, list`kids, list`live, list`buddies, list`caches, list`owner, list`drift
    modifies list.live`prev, list.live`next, list.live`child, list.live`priorityValid
    modifies list.live`totalsize, list.live`currentsize, list.live`online, b.parent.parent`destroyed
    ensures list.drift == DriftWithout(old(list.drift), b.parent.parent, b.parent, Early(list, b),
      old(ViewOf(list)).At(b.parent) == [b])
    ensures old(Exact(list.drift)) ==> (Exact(list.drift) <==> !Early(list, b))
    ensures b.parent.parent.destroyed ==
      old(b.parent.parent.destroyed) + if old(ViewOf(list)).At(b.parent) == [b] then 1 else 0
    ensures list.buddies == old(list.buddies) - {KeyOf(list, b, b.parent.parent)}
    ensures ViewOf(list) == old(ViewOf(list)).MinusBuddy(b.parent.parent, b.parent, b)
    ensures Sound(list) && OrderOf(list).AtLeast(old(OrderOf(list)))
    ensures list.caches.Keys == old(list.caches).Keys && list.live <= old(list.live)
  {
    hide *;
    BeforeDelete(list, b);
    ghost var v, o := ViewOf(list), OrderOf(list);
    OrderedIs(list, v, o);
    StandsApart(v, b.parent.parent, b.parent, b);
    if Exact(list.drift) {
      ExactlyRemoved(list.drift, b.parent.parent, b.parent, Early(list, b), v.At(b.parent) == [b]);
    }
    RemainsIs(list, v, o);
    assert Named(list, v) == o.named && TableTrust(list, list.groupsCache, v.At(null)) == o.groups;
    RemoveBuddy(list, b);
    RemainsIs(list, v, o);
    AfterDelete(list, v, b.parent.parent, b.parent, b, o);
  }

  lemma StandsApart(v: View, g: Node, c: Node, b: Node)
    requires Stands(v, g, c, b)
    ensures g != c
  {
  }

  lemma BeforeDeleteContact(list: BuddyList, c: Node)
    requires Sound(list) && c in list.kids && c.kind == ContactNode
    ensures Coherent(list) && OnFile(list, c) && list.gone == {} && c.parent != null && Keeps(ViewOf(list), c.parent, c)
    ensures Steady(ViewOf(list), c) && ViewOf(list).gone == {} && c != c.parent &&
      ViewOf(list).At(c) == list.kids[c]
    ensures Ordered(list, ViewOf(list), OrderOf(list))
  {
    hide Sound, Coherent, Ranked, Cached, Tabled, Ordered, OrderOf, Counters;
    SoundParts(list, c);
    IsOrdered(list);
    FamilyInView(list, c);
    OwnedBuddies(list, c);
    hide Shaped, OwnedBut, BuddyList.Linked;
  }

  lemma FewerAfterContact(v: View, g: Node, c: Node)
    requires Keeps(v, g, c)
    ensures v.MinusContact(g, c).At(null) == v.At(null) && v.MinusContact(g, c).gone == {}
    ensures forall x :: x in v.MinusContact(g, c).owner ==> x in v.owner
  {
  }

  lemma AfterDeleteContact(list: BuddyList, v: View, g: Node, c: Node, o: Order)
    requires Coherent(list) && Steady(v, c) && Keeps(v, g, c) && ViewOf(list) == v.MinusContact(g, c)
    requires Remains(list, v, o)
    ensures Sound(list) && OrderOf(list).AtLeast(o)
  {
    hide *;
    SteadyIs(v, c);
    FewerAfterContact(v, g, c);
    OwnedMinusContact(v, g, c, c);
    AfterFewer(list, v, o);
  }

  /** Removing a contact leaves exact counters exact, except if one of its presences is early. */
  lemma ExactlyDropped(drift: map<Node, int>, g: Node, c: Node, n: nat)
    requires Exact(drift) && g != c
    ensures Exact(DriftDropped(Shift(drift, c, n), g, c)) <==> n == 0
  {
    if n > 0 {
      assert g in DriftDropped(Shift(drift, c, n), g, c) && DriftDropped(Shift(drift, c, n), g, c)[g] == 1;
    }
  }

  /** `purple_blist_remove_contact` */
  method DeleteContact(list: BuddyList, c: Node)
    requires Sound(list) && c in list.kids && c.kind == ContactNode && c.parent != null
    modifies list`root, list`gone, list`kids, list`live, list`buddies, list`caches, list`owner, list`drift
    modifies list.live`prev, list.live`next, list.live`child, list.live`priorityValid
    modifies list.live`totalsize, list.live`currentsize, list.live`online, c.parent`destroyed
    ensures Sound(list) && OrderOf(list).AtLeast(old(OrderOf(list)))
    ensures list.caches.Keys == old(list.caches).Keys && list.live <= old(list.live)
    ensures ViewOf(list) == old(ViewOf(list)).MinusContact(c.parent, c)
    ensures list.buddies == old(list.buddies - KeysIn(list, list.kids[c], c.parent))
    ensures c.parent.destroyed == old(c.parent.destroyed) + 1
    ensures old(Exact(list.drift)) ==> (Exact(list.drift) <==> forall b :: b in old(list.kids)[c] ==> !Early(list, b))
  {
    hide *;
    BeforeDeleteContact(list, c);
    ghost var v, o := ViewOf(list), OrderOf(list);
    OrderedIs(list, v, o);
    if Exact(list.drift) {
      ExactlyDropped(list.drift, c.parent, c, Earlies(list, list.kids[c]));
    }
    EarliesIs(list, list.kids[c]);
    assert Named(list, v) == o.named && TableTrust(list, list.groupsCache, v.At(null)) == o.groups;
    RemoveContact(list, c);
    RemainsIs(list, v, o);
    AfterDeleteContact(list, v, c.parent, c, o);
  }

  lemma EarliesIs(list: BuddyList, s: seq<Node>)
    ensures Earlies(list, s) == 0 <==> forall b :: b in s ==> !Early(list, b)
  {
    CountNone(s, EarlyIn(list.connected, list.present));
    assert forall b :: b in s ==> (EarlyIn(list.connected, list.present)(b) <==> Early(list, b));
  }
}
