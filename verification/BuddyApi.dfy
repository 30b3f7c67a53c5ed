/** `purple_blist_add_buddy`, `purple_blist_add_contact` and
    `purple_blist_add_chat` with all their ways of saying where to.
    Most bodies below hide every definition; the short lemmas called `...Is` and
    `...Parts` give back the single definition that a step needs. */
module BuddyApi {
  import opened Lists
  import opened BuddyTree
  import opened BuddyCounts
  import opened BuddyIndex
  import opened BuddyState
  import opened BuddyRemove
  import opened BuddyValid
  import opened BuddyAdd
  import opened BuddyMove
  import opened BuddyContacts
  import opened BuddyGroups
  import opened BuddyTop
  import opened BuddyEdit

  /** The list with the group `g`, which goes behind the others if it is new. */
  ghost function WithGroup(v: View, g: Node): View {
    if g in v.kids then v else View(v.kids[g := []][null := v.At(null) + [g]], v.owner, v.live + {g}, {})
  }

  /** `g` is a group that is in the list, or could be. */
  ghost predicate Groupable(list: BuddyList, g: Node)
    reads list`live, list`kids, list`groupsCache
    reads g`name, g`parent, g`child, g`totalsize, g`currentsize, g`online, g`destroyed, g`priorityValid
  {
    g.kind == GroupNode && g.name != "" && Findable(list, g) && (list.Listed(g) || Detached(list, g))
  }

  lemma BeforeMissing(list: BuddyList, g: Node)
    requires Sound(list) && Groupable(list, g)
    ensures g.kind == GroupNode && g.name != "" && Findable(list, g) && (list.Listed(g) || Detached(list, g))
    ensures list.collate(g.name) in list.groupsCache <==> list.Listed(g)
    ensures list.Listed(g) <==> g in ViewOf(list).kids
    ensures !list.Listed(g) ==> list.collate(g.name) !in list.groupsCache && g in list.live
    ensures NoDup(ViewOf(list).At(null)) && null in list.kids && ViewOf(list).At(null) == list.kids[null]
  {
    BeforeAddGroup(list, g, null);
    SoundParts(list, null);
    TopIsDistinct(list);
    hide Sound, Coherent, OwnedBut, Tabled, NoDup;
  }

  lemma WithGroupIs(v: View, g: Node)
    ensures g in v.kids ==> WithGroup(v, g) == v
    ensures g !in v.kids && g in v.live && NoDup(v.At(null)) ==>
              WithGroup(v, g) == View(v.kids[g := []][null := Placed(v.At(null), Last(v.At(null)), g)], v.owner,
                  v.live, {})
    ensures g in WithGroup(v, g).kids
  {
    hide *;
    GroupIsIn(v, g);
    if g !in v.kids && g in v.live && NoDup(v.At(null)) {
      GroupIsLast(v, g);
    }
  }

  lemma GroupIsLast(v: View, g: Node)
    requires g !in v.kids && g in v.live && NoDup(v.At(null))
    ensures WithGroup(v, g) ==
      View(v.kids[g := []][null := Placed(v.At(null), Last(v.At(null)), g)], v.owner, v.live, {})
  {
    PlacedLast(v.At(null), g);
    hide Placed, Last, NoDup;
    assert v.live + {g} == v.live;
  }

  lemma GroupIsIn(v: View, g: Node)
    ensures g in WithGroup(v, g).kids && (g in v.kids ==> WithGroup(v, g) == v)
  {
  }

  /** A group that is not in the list yet is put behind the others. */
  method AddMissingGroup(list: BuddyList, g: Node)
    requires Sound(list) && Groupable(list, g)
    modifies list`root, list`kids, list`groupsCache, list.live`prev, list.live`next, list.live`child, g`parent
    ensures Sound(list) && OrderOf(list).AtLeast(old(OrderOf(list))) && g.kind == GroupNode && g in list.kids
    ensures forall m :: m in list.live ==> m.child == old(m.child)
    ensures old(list.Listed(g)) ==> list.groupsCache == old(list.groupsCache)
    ensures ViewOf(list) == WithGroup(old(ViewOf(list)), g)
  {
    hide *;
    BeforeMissing(list, g);
    AtLeastIs(OrderOf(list), OrderOf(list));
    WithGroupIs(ViewOf(list), g);
    ViewIs(list, null);
    var found := FindGroup(list, g.name);
    if found == null {
      var last := LastChild(list, null);
      AddNewGroup(list, g, last);
    }
    ViewIs(list, null);
  }

  lemma NewIsGroupable(list: BuddyList, g: Node)
    requires g.kind == GroupNode && g.name != "" && Findable(list, g) && (list.Listed(g) || Detached(list, g))
    ensures Groupable(list, g)
  {
  }

  lemma FoundedThenAdded(v: View, g: Node, known: bool)
    requires known ==> g in v.kids
    requires !known ==> g !in v.kids
    ensures WithGroup(Founded(v, g, known), g) == WithGroup(v, g)
  {
  }

  lemma GroupableKnown(list: BuddyList, v: View, g: Node, known: bool)
    requires ViewOf(list) == Founded(v, g, known) && Groupable(list, g) && Sound(list)
    ensures g in v.kids <==> list.Listed(g)
  {
    BeforeMissing(list, g);
  }

  /** The group to add to: `group`, or the one with the name `standard`. */
  method GroupFor(list: BuddyList, group: Node?, standard: string) returns (g: Node)
    requires Sound(list) && standard != "" && (group != null ==> Groupable(list, group))
    modifies list`live, list`root, list`kids, list`groupsCache
    modifies list.live`prev, list.live`next, list.live`child, list.live`parent
    ensures Sound(list) && OrderOf(list).AtLeast(old(OrderOf(list))) && g.kind == GroupNode && g in list.kids
    ensures ViewOf(list) == WithGroup(old(ViewOf(list)), g)
    ensures if group != null then g == group else list.collate(g.name) == list.collate(standard)
    ensures group != null && old(list.Listed(group)) ==> list.groupsCache == old(list.groupsCache)
    ensures g in list.live && fresh(list.live - old(list.live))
    ensures forall n :: n in old(list.live) && n.kind != GroupNode ==>
      n.parent == old(n.parent) && n.child == old(n.child)
  {
    hide *;
    ghost var v := ViewOf(list);
    if group == null {
      g := GroupNew(list, standard);
      NewIsGroupable(list, g);
      GroupableKnown(list, v, g, list.Listed(g));
      FoundedThenAdded(v, g, list.Listed(g));
    } else {
      g := group;
    }
    GroupLives(list, g);
    AddMissingGroup(list, g);
  }

  lemma GroupLives(list: BuddyList, g: Node)
    requires Sound(list) && Groupable(list, g)
    ensures g in list.live
  {
    BeforeMissing(list, g);
    if list.Listed(g) {
      BeforeTop(list, g);
    }
  }

  /** The list with the new contact `c` behind the other children of the group `g`. */
  ghost function WithContact(v: View, c: Node, g: Node): View {
    View(v.kids[c := []][g := v.At(g) + [c]], v.owner, v.live + {c}, {})
  }

  lemma GroupIsDistinct(list: BuddyList, g: Node)
    requires Sound(list) && g in list.kids
    ensures NoDup(ViewOf(list).At(g)) && ViewOf(list).At(g) == list.kids[g] && list.gone == {}
  {
    SoundParts(list, null);
    assert list.Chained(g, list.kids[g], {});
  }

  lemma WithContactIs(v: View, c: Node, g: Node)
    requires NoDup(v.At(g))
    ensures WithContact(v, c, g) == View(v.kids[c := []][g := Placed(v.At(g), Last(v.At(g)), c)], v.owner,
      v.live + {c}, {})
  {
    PlacedLast(v.At(g), c);
  }

  /** A new contact goes behind the other children of its group. */
  method NewContactIn(list: BuddyList, g: Node) returns (c: Node)
    requires Sound(list) && g in list.kids && g.kind == GroupNode
    modifies list`live, list`root, list`kids, list.live`prev, list.live`next, list.live`child
    modifies list.live`totalsize, list.live`currentsize, list.live`online
    ensures Sound(list) && OrderOf(list) == old(OrderOf(list))
    ensures fresh(c) && c.kind == ContactNode && c.parent == g && c in list.kids
    ensures list.live == old(list.live) + {c}
    ensures ViewOf(list) == WithContact(old(ViewOf(list)), c, g)
  {
    hide *;
    ghost var v := ViewOf(list);
    c := NewNode(list, ContactNode, Account(0), "");
    ViewIs(list, g);
    GroupIsDistinct(list, g);
    NewContactStep(v, c, g);
    var last := LastChild(list, g);
    ViewIs(list, g);
    AddNewContact(list, c, g, last);
    ContactIsIn(v, c, g);
    ViewIs(list, c);
  }

  lemma NewContactStep(v: View, c: Node, g: Node)
    ensures var w := View(v.kids, v.owner, v.live + {c}, {});
            NoDup(w.At(g)) ==>
              View(w.kids[c := []][g := Placed(w.At(g), Last(w.At(g)), c)], w.owner, w.live, {}) == WithContact(v, c, g)
  {
    if NoDup(v.At(g)) {
      WithContactIs(v, c, g);
    }
  }

  lemma ContactIsIn(v: View, c: Node, g: Node)
    ensures c in WithContact(v, c, g).kids
  {
  }

  /** `b` is a buddy, in the list or not. */
  ghost predicate Loose(list: BuddyList, b: Node)
    reads list`live, list`owner, list`caches, b`parent
  {
    && b.kind == BuddyNode && b in list.live && b.account in list.caches
    && (b.parent != null <==> b in list.owner)
  }

  lemma ReadyToPlace(list: BuddyList, b: Node, c: Node, g: Node, prev: Node?)
    requires Sound(list) && Loose(list, b)
    requires c in list.kids && c.kind == ContactNode && c.parent == g
    requires prev != b && (prev == null || prev in list.kids[c]) && !(b.parent == c && list.kids[c] == [b])
    ensures CanPlace(list, b, c, g, prev)
    ensures b.parent != null ==> b.parent.parent != null && b.parent.parent != b.parent && b.parent.parent != c
  {
    hide *;
    LooseIs(list, b);
    if b.parent != null {
      IsInList(list, b);
    } else {
      SoundParts(list, null);
      NoParent(list, b);
    }
    AssemblePlace(list, b, c, g, prev);
  }

  lemma LooseIs(list: BuddyList, b: Node)
    requires Loose(list, b)
    ensures b.kind == BuddyNode && b in list.live && b.account in list.caches
    ensures b.parent != null <==> b in list.owner
  {
  }

  lemma AssemblePlace(list: BuddyList, b: Node, c: Node, g: Node, prev: Node?)
    requires Loose(list, b) && c in list.kids && c.kind == ContactNode && c.parent == g
    requires prev != b && (prev == null || prev in list.kids[c]) && !(b.parent == c && list.kids[c] == [b])
    requires if b.parent != null then InList(list, b) else !list.Listed(b)
    ensures CanPlace(list, b, c, g, prev)
  {
  }

  /** What is on file is in the list. */
  lemma OnFileIsListed(list: BuddyList, b: Node)
    requires OwnedBut(ViewOf(list), null) && b in list.owner
    ensures list.Listed(b) && b.kind == BuddyNode && b.parent in list.kids && b in list.kids[b.parent]
  {
  }

  lemma FiledAtHome(list: BuddyList, b: Node, c: Node)
    requires OwnedBut(ViewOf(list), null) && c in list.kids && c.kind == ContactNode && b in list.kids[c]
    ensures b in list.owner && list.owner[b] == c.parent
  {
  }

  lemma IsInList(list: BuddyList, b: Node)
    requires Sound(list) && b in list.owner
    ensures InList(list, b) && b.parent != null && b.parent.parent != null
    ensures b.parent.parent.kind == GroupNode && b.parent.kind == ContactNode
  {
    hide *;
    SoundParts(list, null);
    OnFileIsListed(list, b);
    ParentKind(list, b);
    HomeOf(list, b);
    ListedIs(list, b);
    FiledAtHome(list, b, b.parent);
    AssembleInList(list, b);
  }

  lemma ListedIs(list: BuddyList, b: Node)
    requires list.Listed(b)
    ensures b.parent in list.kids && b in list.kids[b.parent]
  {
  }

  lemma AssembleInList(list: BuddyList, b: Node)
    requires list.Listed(b) && b.kind == BuddyNode && b.parent != null && b.parent.parent != null
    requires b in list.owner && list.owner[b] == b.parent.parent
    ensures InList(list, b)
  {
  }

  lemma ParentKind(list: BuddyList, b: Node)
    requires list.Linked() && Shaped(list.kids) && list.Rooted() && list.Listed(b) && b.kind == BuddyNode
    ensures b.parent != null && b.parent.kind == ContactNode && b.parent.parent != null &&
      b.parent.parent.kind == GroupNode
  {
    HomeOf(list, b);
    FamilyOf(list, b.parent);
  }

  lemma NoParent(list: BuddyList, b: Node)
    requires Shaped(list.kids) && b.kind == BuddyNode && b.parent == null
    ensures !list.Listed(b)
  {
    assert list.Listed(b) ==> Fits(null, b);
  }

  /** The list with `b` behind `prev`, or in front, in the contact `c`. */
  ghost function WithBuddy(v: View, g0: Node?, c0: Node?, b: Node, prev: Node?, c: Node, g: Node): View {
    var x := Lifted(v, g0, c0, b);
    if prev == null || prev in x.At(c) then x.PlusBuddy(g, c, prev, b) else x
  }

  lemma WithBuddyIs(v: View, g0: Node?, c0: Node?, b: Node, prev: Node?, c: Node, g: Node)
    ensures var x := Lifted(v, g0, c0, b);
            prev == null || prev in x.At(c) ==> WithBuddy(v, g0, c0, b, prev, c, g) == x.PlusBuddy(g, c, prev, b)
  {
  }

  /** A buddy goes to a place that was chosen. */
  method Settle(list: BuddyList, b: Node, c: Node, g: Node, prev: Node?, ghost d: Departure)
    requires Sound(list) && Loose(list, b) && d == DepartureOf(list, b)
    requires c in list.kids && c.kind == ContactNode && c.parent == g
    requires prev != b && (prev == null || prev in list.kids[c]) && !(b.parent == c && list.kids[c] == [b])
    modifies list`root, list`gone, list`kids, list`live, list`buddies, list`caches, list`owner, list`drift
    modifies list.live`prev, list.live`next, list.live`child, list.live`priorityValid, b`parent
    modifies list.live`totalsize, list.live`currentsize, list.live`online
    modifies (if GroupOf(b) == null then {} else {GroupOf(b)})`destroyed
    ensures list.caches.Keys == old(list.caches).Keys && b.parent == c
    ensures Exact(d.drift) ==> (Exact(list.drift) <==> !Early(list, b) || d.c0 == c)
    ensures Sound(list) && Settled(list, b, c, g, prev, d)
  {
    hide *;
    DepartureIs(list, b);
    ReadyToPlace(list, b, c, g, prev);
    if Exact(list.drift) {
      LastOne(list, b, c);
      ExactlyPlaced(list.drift, GroupOf(b), b.parent, c, Early(list, b), ViewOf(list).At(b.parent) == [b]);
    }
    ViewIs(list, null);
    assert forall x :: x in d.v.owner ==> allocated(x);
    PlaceBuddy(list, b, c, g, prev);
    SettledIs(list, b, c, g, prev, d);
  }

  lemma LastOne(list: BuddyList, b: Node, c: Node)
    requires c in list.kids && !(b.parent == c && list.kids[c] == [b])
    ensures !(b.parent == c && ViewOf(list).At(b.parent) == [b])
  {
  }

  /** The list `d` with the group `g` and a new contact `c` in it. */
  ghost function Extended(d: Departure, c: Node, g: Node): Departure {
    d.(v := WithContact(WithGroup(d.v, g), c, g))
  }

  /** What holds with respect to a list in better order holds with respect to the list. */
  lemma SettledFrom(list: BuddyList, b: Node, c: Node, g: Node, prev: Node?, d': Departure, d: Departure)
    requires Settled(list, b, c, g, prev, d') && d' == d.(v := d'.v, order := d'.order)
    requires d'.order.AtLeast(d.order) && d'.order.buddies == d.order.buddies
    ensures Settled(list, b, c, g, prev, d.(v := d'.v))
  {
    hide Lifted, View.PlusBuddy, DriftPlaced, NoTwin, Unnamed, KeyOf, OrderOf;
  }

  /** `purple_blist_add_buddy` without a contact: the buddy gets a new one,
      behind the other children of `group` or of the standard group. */
  method AddToNewContact(list: BuddyList, b: Node, group: Node?, ghost d: Departure) returns (ghost c: Node, g: Node)
    requires Sound(list) && Loose(list, b) && (group != null ==> Groupable(list, group)) && d == DepartureOf(list, b)
    modifies list`root, list`gone, list`kids, list`live, list`buddies, list`caches, list`owner, list`drift,
      list`groupsCache
    modifies list.live`prev, list.live`next, list.live`parent, list.live`child, list.live`priorityValid
    modifies list.live`totalsize, list.live`currentsize, list.live`online
    modifies (if GroupOf(b) == null then {} else {GroupOf(b)})`destroyed
    ensures if group != null then g == group else list.collate(g.name) == list.collate("Buddies")
    ensures fresh(c) && b.parent == c && list.caches.Keys == old(list.caches).Keys
    ensures forall n :: n in old(list.live) && n != b && n.kind != GroupNode ==> n.parent == old(n.parent)
    ensures Exact(d.drift) ==> (Exact(list.drift) <==> !Early(list, b))
    ensures Sound(list) && Settled(list, b, c, g, null, Extended(d, c, g))
  {
    hide *;
    DepartureIs(list, b);
    var contact: Node;
    contact, g := NewPlace(list, b, group);
    c := contact;
    ghost var d' := DepartureOf(list, b);
    DepartureIs(list, b);
    NewPlaceIs(d, d', c, g);
    Settle(list, b, contact, g, null, d');
    SettledFrom(list, b, c, g, null, d', d);
  }

  lemma NewPlaceIs(d: Departure, d': Departure, c: Node, g: Node)
    requires d'.v == WithContact(WithGroup(d.v, g), c, g) && d' == d.(v := d'.v, order := d'.order)
    ensures d.(v := d'.v) == Extended(d, c, g)
  {
  }

  /** A new contact for `b`, behind the other children of `group` or of the standard group. */
  method NewPlace(list: BuddyList, b: Node, group: Node?) returns (c: Node, g: Node)
    requires Sound(list) && Loose(list, b) && (group != null ==> Groupable(list, group))
    modifies list`root, list`kids, list`live, list`groupsCache
    modifies list.live`prev, list.live`next, list.live`parent, list.live`child
    modifies list.live`totalsize, list.live`currentsize, list.live`online
    ensures if group != null then g == group else list.collate(g.name) == list.collate("Buddies")
    ensures fresh(c) && fresh(list.live - old(list.live)) && c.kind == ContactNode && c.parent == g && c in list.kids &&
      list.kids[c] == []
    ensures forall n :: n in old(list.live) && n.kind != GroupNode ==> n.parent == old(n.parent)
    ensures GroupOf(b) == old(GroupOf(b)) && b.parent == old(b.parent) && Loose(list, b) && b in list.live &&
      list.owner == old(list.owner)
    ensures ViewOf(list) == WithContact(WithGroup(old(ViewOf(list)), g), c, g)
    ensures OrderOf(list).AtLeast(old(OrderOf(list))) && OrderOf(list).buddies == old(OrderOf(list)).buddies
    ensures Sound(list)
  {
    hide *;
    ghost var v, c0, g0 := ViewOf(list), b.parent, GroupOf(b);
    BuddyHome(list, b);
    OrderIs(list);
    ViewIs(list, null);
    g := GroupFor(list, group, "Buddies");
    ViewIs(list, null);
    WithGroupKeeps(v, g);
    c := NewContactIn(list, g);
    ViewIs(list, c);
    WithContactKeeps(WithGroup(v, g), c, g);
    OrderIs(list);
    IsLoose(list, b);
  }

  lemma BuddyHome(list: BuddyList, b: Node)
    requires Sound(list) && Loose(list, b)
    ensures b.parent != null ==> b.parent in list.live && b.parent.kind == ContactNode && b.parent.kind != GroupNode
    ensures b.kind == BuddyNode && b.account in list.caches && b in list.live
    ensures b.parent != null <==> b in list.owner
  {
    hide Coherent, Tabled;
    SoundParts(list, null);
    if b.parent != null {
      assert b.parent in list.kids && b in list.kids[b.parent];
      ParentKind(list, b);
    }
  }

  lemma WithGroupKeeps(v: View, g: Node)
    ensures WithGroup(v, g).owner == v.owner && v.live <= WithGroup(v, g).live
  {
  }

  lemma WithContactKeeps(v: View, c: Node, g: Node)
    ensures WithContact(v, c, g).owner == v.owner && v.live <= WithContact(v, c, g).live
    ensures g != c ==> WithContact(v, c, g).At(c) == []
  {
  }

  lemma IsLoose(list: BuddyList, b: Node)
    requires b.kind == BuddyNode && b in list.live && b.account in list.caches
    requires b.parent != null <==> b in list.owner
    ensures Loose(list, b)
  {
  }

  /** `b` would only be moved on top of itself. */
  predicate Stays(b: Node, contact: Node?, node: Node?)
    reads b`parent, (if b.parent == null then {} else {b.parent})`child
  {
    b == node || (node == null && b.parent != null && contact == b.parent && b == b.parent.child)
  }

  /** The arguments of `purple_blist_add_buddy`. */
  ghost predicate CanAdd(list: BuddyList, b: Node, contact: Node?, group: Node?, node: Node?)
    reads list`live, list`kids, list`owner, list`caches, list`groupsCache, b`parent
    reads (if node == null then {} else {node})`parent
    reads (if group == null then {} else {group})
  {
    && Loose(list, b)
    && (contact != null ==> contact in list.kids && contact.kind == ContactNode)
    && (node != null ==> list.Listed(node))
    && (group != null ==> Groupable(list, group))
  }

  /** With a neighbour that is no buddy, and the contact that `b` is alone in:
      the contact disappears when `b` leaves it, before `b` is put into it. */
  predicate Undermines(b: Node, contact: Node?, node: Node?)
    reads b, (if b.parent == null then {} else {b.parent})`child
  {
    && node != null && node != b && node.kind != BuddyNode
    && b.parent != null && contact == b.parent && contact.child == b && b.next == null
  }

  lemma UnderminesIs(list: BuddyList, b: Node, contact: Node, node: Node)
    requires Sound(list) && Loose(list, b) && contact in list.kids && contact.kind == ContactNode
    requires node != b && node.kind != BuddyNode
    ensures Undermines(b, contact, node) <==> b.parent == contact && list.kids[contact] == [b]
  {
    hide *;
    SoundParts(list, null);
    CoherentParts(list);
    HasChild(list, contact);
    UnderminesAlone(b, contact, node, list.kids[contact]);
    if b.parent == contact {
      LooseIs(list, b);
      IsInList(list, b);
      InListIs(list, b);
    }
  }

  lemma InListIs(list: BuddyList, b: Node)
    requires InList(list, b)
    ensures b.parent in list.kids && b in list.kids[b.parent]
  {
  }

  lemma UnderminesAlone(b: Node, contact: Node, node: Node, s: seq<Node>)
    requires node != b && node.kind != BuddyNode
    requires contact.child == null <==> s == []
    requires contact.child != null ==> contact.child == s[0] && contact.child.next == if |s| == 1 then null else s[1]
    ensures b.parent == contact && b in s ==> (Undermines(b, contact, node) <==> s == [b])
    ensures b.parent != contact ==> !Undermines(b, contact, node)
  {
  }

  lemma BesideBuddy(list: BuddyList, b: Node, contact: Node?, group: Node?, node: Node)
    requires Sound(list) && CanAdd(list, b, contact, group, node) && node.kind == BuddyNode && node != b
    ensures Loose(list, b) && node.parent != null && node.parent.parent != null && node.parent in list.kids
    ensures node.parent.kind == ContactNode && node in list.kids[node.parent]
    ensures !(b.parent == node.parent && list.kids[node.parent] == [b])
  {
    hide Sound, Coherent, Tabled, OwnedBut, Loose;
    SoundParts(list, null);
    ParentKind(list, node);
  }

  lemma IntoContact(list: BuddyList, b: Node, contact: Node, group: Node?, node: Node?)
    requires Sound(list) && CanAdd(list, b, contact, group, node) && !Stays(b, contact, node)
    requires node != null ==> node.kind != BuddyNode
    ensures Loose(list, b) && contact in list.kids && contact.kind == ContactNode && contact.parent != null
    ensures !(b.parent == contact && list.kids[contact] == [b]) <==> !Undermines(b, contact, node)
  {
    hide Sound, Coherent, Tabled, OwnedBut, Loose, Undermines;
    SoundParts(list, null);
    FamilyOf(list, contact);
    CoherentParts(list);
    hide Tree;
    HasChild(list, contact);
    if node != null {
      UnderminesIs(list, b, contact, node);
    } else {
      NotUndermined(b, contact);
    }
  }

  lemma NotUndermined(b: Node, contact: Node)
    ensures !Undermines(b, contact, null)
  {
  }

  lemma CanAddParts(list: BuddyList, b: Node, contact: Node?, group: Node?, node: Node?)
    requires CanAdd(list, b, contact, group, node)
    ensures Loose(list, b) && b in list.live && (group != null ==> Groupable(list, group))
  {
  }

  /** A contact that `b` is alone in is freed when `b` leaves it. */
  method Undermine(list: BuddyList, b: Node, contact: Node)
    requires Sound(list) && Loose(list, b) && b.parent == contact && contact in list.kids &&
      list.kids[contact] == [b] && contact.parent != null
    modifies list`root, list`gone, list`kids, list`live, list`buddies, list`caches, list`owner, list`drift
    modifies list.live`prev, list.live`next, list.live`child, list.live`priorityValid
    modifies list.live`totalsize, list.live`currentsize, list.live`online, contact.parent`destroyed
    ensures contact.parent.destroyed == old(contact.parent.destroyed) + 1
    ensures contact !in list.live && contact !in list.kids && list.caches.Keys == old(list.caches).Keys
  {
    hide *;
    LooseIs(list, b);
    IsInList(list, b);
    IsSound(list);
    ViewIs(list, contact);
    FreedWithLast(ViewOf(list), contact.parent, contact, b, contact.parent);
    LeaveContact(list, b, contact.parent);
    ViewIs(list, contact);
  }

  lemma FreedWithLast(v: View, g0: Node, c0: Node, b: Node, g: Node)
    requires v.At(c0) == [b] && b != c0 && g0 != c0
    ensures c0 !in OutOfContact(v, g0, c0, b, g).live && c0 !in OutOfContact(v, g0, c0, b, g).kids
  {
    assert Elements([b]) == {b};
  }

  /** `purple_blist_add_buddy`: beside another buddy, else to the front of a
      contact, else to a new contact of `group`. `c` and `g` say where it went.
      `broken` says that it would have gone to a contact that was freed on the way. */
  method AddBuddy(list: BuddyList, b: Node, contact: Node?, group: Node?, node: Node?)
    returns (ghost c: Node?, g: Node?, broken: bool)
    requires Sound(list) && CanAdd(list, b, contact, group, node)
    modifies list`root, list`gone, list`kids, list`live, list`buddies, list`caches, list`owner, list`drift,
      list`groupsCache
    modifies list.live`prev, list.live`next, list.live`parent, list.live`child, list.live`priorityValid
    modifies list.live`totalsize, list.live`currentsize, list.live`online
    modifies (if GroupOf(b) == null then {} else {GroupOf(b)})`destroyed
    ensures list.caches.Keys == old(list.caches).Keys
    ensures forall n :: n in old(list.live) && n != b && n.kind != GroupNode ==> n.parent == old(n.parent)
    ensures contact != null || (node != null && node.kind == BuddyNode) ==> list.groupsCache == old(list.groupsCache)
    ensures broken <==> old(Undermines(b, contact, node))
    ensures broken ==> contact != null && contact !in list.live && Destroys(old(GroupOf(b)), old(DepartureOf(list, b)))
    ensures g == null <==> broken || old(Stays(b, contact, node))
    ensures g == null && !broken ==> DepartureOf(list, b) == old(DepartureOf(list, b))
    ensures g != null ==> c != null && b.parent == c
    ensures g != null && node != null && node.kind == BuddyNode ==>
      && c == old(node.parent) && g == old(GroupOf(node)) && Settled(list, b, c, g, node, old(DepartureOf(list, b)))
    ensures g != null && (node == null || node.kind != BuddyNode) && contact != null ==>
      && c == contact && g == old(contact.parent) && Settled(list, b, c, g, null, old(DepartureOf(list, b)))
    ensures g != null && (node == null || node.kind != BuddyNode) && contact == null ==>
      && fresh(c) && (if group != null then g == group else list.collate(g.name) == list.collate("Buddies"))
      && Settled(list, b, c, g, null, Extended(old(DepartureOf(list, b)), c, g))
    ensures g != null && old(Exact(list.drift)) ==> (Exact(list.drift) <==> !Early(list, b) || old(b.parent) == c)
    ensures !broken ==> Sound(list)
    ensures !broken && old(Valid(list)) && b.name != "" ==>
      (Valid(list) <==> g == null || NoTwin(list, old(list.owner), b, g))
  {
    hide *;
    ghost var d := DepartureOf(list, b);
    DepartureIs(list, b);
    StaysIs(b, contact, node);
    UndermineIs(b, contact, node);
    CanAddParts(list, b, contact, group, node);
    IsSound(list);
    ViewIs(list, null);
    c, g, broken := null, null, false;
    if b == node || (node == null && b.parent != null && contact == b.parent && b == b.parent.child) {
      return;
    }
    if node != null && node.kind == BuddyNode {
      BesideBuddy(list, b, contact, group, node);
      c, g := node.parent, node.parent.parent;
      Settle(list, b, node.parent, g, node, d);
      SettledValid(list, b, c, g, node, d, d);
    } else if contact != null {
      IntoContact(list, b, contact, group, node);
      if node != null && b.parent == contact && contact.child == b && b.next == null {
        broken := true;
        Undermine(list, b, contact);
        DestroysIs(GroupOf(b), d);
      } else {
        c, g := contact, contact.parent;
        Settle(list, b, contact, g, null, d);
        SettledValid(list, b, c, g, null, d, d);
      }
    } else {
      c, g := AddToNewContact(list, b, group, d);
      ExtendedIs(d, c, g);
      SettledValid(list, b, c, g, null, Extended(d, c, g), d);
    }
  }

  /** One more contact of `g0` was destroyed. */
  ghost predicate Destroys(g0: Node?, d: Departure)
    reads (if g0 == null then {} else {g0})`destroyed
  {
    g0 != null && g0.destroyed == d.destroyed + 1
  }

  lemma DestroysIs(g0: Node?, d: Departure)
    ensures Destroys(g0, d) <==> g0 != null && g0.destroyed == d.destroyed + 1
  {
  }

  lemma ExtendedIs(d: Departure, c: Node, g: Node)
    ensures Extended(d, c, g).order == d.order && Extended(d, c, g).v.owner == d.v.owner
  {
  }

  lemma SettledValid(list: BuddyList, b: Node, c: Node, g: Node, prev: Node?, e: Departure, d: Departure)
    requires Sound(list) && Settled(list, b, c, g, prev, e) && e.order == d.order && e.v.owner == d.v.owner
    ensures d.order.Full() && b.name != "" ==> (Valid(list) <==> NoTwin(list, d.v.owner, b, g))
  {
    SettledIs(list, b, c, g, prev, e);
    OrderIs(list);
    hide Sound, Settled, NoTwin, OrderOf, Named, TableTrust, Trust;
    assert OrderOf(list).groups <= 2;
  }

  lemma UndermineIs(b: Node, contact: Node?, node: Node?)
    ensures Undermines(b, contact, node) <==>
      && node != null && node != b && node.kind != BuddyNode
      && b.parent != null && contact == b.parent && contact.child == b && b.next == null
  {
  }

  lemma StaysIs(b: Node, contact: Node?, node: Node?)
    ensures Stays(b, contact, node)
       <==> b == node || (node == null && b.parent != null && contact == b.parent && b == b.parent.child)
  {
  }

  /** The buddies of the contact `c` that exist in the group `g` already, by the file `owner`. */
  ghost function TwinsIn(list: BuddyList, v: View, c: Node, g: Node): set<Node>
    reads v.owner.Keys`name, (set b | c in v.kids && b in v.kids[c])`name
  {
    Twins(list, v.owner, v.At(c), g)
  }

  lemma TwinsInIs(list: BuddyList, v: View, c: Node, g: Node)
    ensures TwinsIn(list, v, c, g) == Twins(list, v.owner, v.At(c), g)
  {
  }

  /** When names and tables are in order, nothing but twins is refused, and all stays in order. */
  ghost predicate Tidily(list: BuddyList, d: Departure, c: Node, g0: Node, g: Node)
    reads list, list.live, list.kids.Keys, list.owner.Keys, (set h | null in list.kids && h in list.kids[null])`name
    reads d.v.owner.Keys`name, (set b | c in d.v.kids && b in d.v.kids[c])`name
  {
    Valid(list) && (g0 != g ==> Refused(list, d.buddies, d.v.At(c), g0, g) == TwinsIn(list, d.v, c, g))
  }

  lemma TidilyIs(list: BuddyList, d: Departure, c: Node, g0: Node, g: Node)
    ensures Tidily(list, d, c, g0, g) <==>
      Valid(list) && (g0 != g ==> Refused(list, d.buddies, d.v.At(c), g0, g) == TwinsIn(list, d.v, c, g))
  {
  }

  /** `purple_blist_add_contact` for a contact that is in the list: beside the
      contact or chat `node`, else to the front of `group` or of the standard
      group. `kept` says whether the contact still exists. */
  method AddContact(list: BuddyList, c: Node, group: Node?, node: Node?) returns (ghost g: Node?, kept: bool)
    requires Sound(list) && c in list.kids && c.kind == ContactNode && c.parent != null
    requires group != null ==> group in list.kids && group.kind == GroupNode
    requires node != null ==> list.Listed(node)
    modifies list`root, list`gone, list`kids, list`live, list`buddies, list`caches, list`owner, list`drift,
      list`groupsCache
    modifies list.live`prev, list.live`next, list.live`parent, list.live`child, list.live`priorityValid
    modifies list.live`totalsize, list.live`currentsize, list.live`online, c.parent`destroyed
    ensures list.caches.Keys == old(list.caches).Keys
    ensures group != null ==> list.groupsCache == old(list.groupsCache)
    ensures g == null <==> c == node
    ensures g == null ==> kept && Leaving(list, c) == old(Leaving(list, c))
    ensures g != null && Sibling(node) ==>
      g == old(node.parent) && Landed(list, old(Leaving(list, c)), c, old(c.parent), g, node, kept)
    ensures g != null && !Sibling(node) ==>
      && (if group != null then g == group else list.collate(g.name) == list.collate("Buddies"))
      && var d := old(Leaving(list, c));
         Landed(list, d.(v := WithGroup(d.v, g)), c, old(c.parent), g, null, kept)
    ensures g != null && old(Valid(list)) ==> Tidily(list, old(Leaving(list, c)), c, old(c.parent), g)
    ensures Sound(list)
  {
    hide *;
    ghost var d := Leaving(list, c);
    LeavingIs(list, c);
    IsSound(list);
    g, kept := null, true;
    if c == node {
      return;
    }
    ContactHome(list, c);
    SiblingIs(node);
    if node != null && (node.kind == ContactNode || node.kind == ChatNode) {
      BesideChild(list, c, node);
      g := node.parent;
      kept := Relay(list, c, node.parent, node, d);
    } else {
      g, kept := ToFront(list, c, group, d);
    }
  }

  /** `MoveContact`, with what it means for a list in order. */
  method Relay(list: BuddyList, c: Node, g: Node, prev: Node?, ghost d: Departure) returns (kept: bool)
    requires Sound(list) && c in list.kids && c.kind == ContactNode && c.parent != null && d == Leaving(list, c)
    requires CanMove(list, c, c.parent, g, prev)
    modifies list`root, list`gone, list`kids, list`live, list`buddies, list`caches, list`owner, list`drift
    modifies list.live`prev, list.live`next, list.live`child, list.live`priorityValid, c`parent
    modifies list.live`totalsize, list.live`currentsize, list.live`online, c.parent`destroyed
    ensures Sound(list) && list.caches.Keys == old(list.caches).Keys
    ensures Landed(list, d, c, old(c.parent), g, prev, kept)
    ensures d.order.Full() ==> Tidily(list, d, c, old(c.parent), g)
  {
    hide *;
    ghost var g0 := c.parent;
    LeavingIs(list, c);
    IsSound(list);
    ViewIs(list, c);
    RefusedTwins(list, c, g0, g, d);
    kept := MoveContact(list, c, g, prev);
    LandedValid(list, d, c, g0, g, prev, kept);
    TidilyIs(list, d, c, g0, g);
  }

  lemma RefusedTwins(list: BuddyList, c: Node, g0: Node, g: Node, d: Departure)
    requires Sound(list) && c in list.kids && c.kind == ContactNode && c.parent == g0
    requires d.v == ViewOf(list) && d.buddies == list.buddies && d.order == OrderOf(list)
    ensures d.order.Full() ==>
      AllNamed(d.v.At(c)) && (g0 != g ==> Refused(list, d.buddies, d.v.At(c), g0, g) == TwinsIn(list, d.v, c, g))
  {
    hide *;
    if d.order.Full() {
      IsSound(list);
      AllAreNamed(list, c);
      if g0 != g {
        RefusedIs(list, c, g0, g);
        TwinsInIs(list, d.v, c, g);
        ViewIs(list, c);
      }
    }
  }

  lemma AllAreNamed(list: BuddyList, c: Node)
    requires Valid(list) && c in list.kids && c.kind == ContactNode
    ensures AllNamed(ViewOf(list).At(c))
  {
    hide *;
    ValidParts(list, c);
    OwnedBuddies(list, c);
    ViewIs(list, c);
    NamedAll(list, list.kids[c]);
  }

  lemma LandedValid(list: BuddyList, d: Departure, c: Node, g0: Node, g: Node, prev: Node?, kept: bool)
    requires Sound(list) && Landed(list, d, c, g0, g, prev, kept)
    ensures d.order.Full() && AllNamed(d.v.At(c)) ==> Valid(list)
  {
    LandedIs(list, d, c, g0, g, prev, kept);
    hide Landed;
    if d.order.Full() && AllNamed(d.v.At(c)) {
      StaysValid(list, d.order);
    }
  }

  /** A contact goes to the front of `group` or of the standard group. */
  method ToFront(list: BuddyList, c: Node, group: Node?, ghost d: Departure) returns (g: Node, kept: bool)
    requires Sound(list) && c in list.kids && c.kind == ContactNode && d == Leaving(list, c)
    requires group != null ==> group in list.kids && group.kind == GroupNode
    requires c.parent != null && c in list.live && c.parent in list.kids
    modifies list`root, list`gone, list`kids, list`live, list`buddies, list`caches, list`owner, list`drift,
      list`groupsCache
    modifies list.live`prev, list.live`next, list.live`parent, list.live`child, list.live`priorityValid
    modifies list.live`totalsize, list.live`currentsize, list.live`online, c.parent`destroyed
    ensures list.caches.Keys == old(list.caches).Keys
    ensures group != null ==> list.groupsCache == old(list.groupsCache)
    ensures if group != null then g == group else list.collate(g.name) == list.collate("Buddies")
    ensures Landed(list, d.(v := WithGroup(d.v, g)), c, old(c.parent), g, null, kept)
    ensures d.order.Full() ==> Tidily(list, d, c, old(c.parent), g)
    ensures Sound(list)
  {
    hide *;
    ghost var v, g0 := ViewOf(list), c.parent;
    LeavingIs(list, c);
    ViewIs(list, c);
    if group == null {
      g := GroupFor(list, null, "Buddies");
    } else {
      g := group;
      SameGroup(v, g);
      AtLeastIs(OrderOf(list), OrderOf(list));
    }
    ghost var d' := Leaving(list, c);
    LeavingIs(list, c);
    OrderIs(list);
    ViewIs(list, c);
    InGroup(list, v, c, g);
    kept := Relay(list, c, g, null, d');
    LandedFrom(list, d', d, c, g0, g, null, kept);
    TidilyFrom(list, d', d, c, g0, g);
  }

  lemma LandedFrom(list: BuddyList, d': Departure, d: Departure, c: Node, g0: Node, g: Node, prev: Node?, kept: bool)
    requires Landed(list, d', c, g0, g, prev, kept) && d' == d.(v := d'.v, order := d'.order)
    requires d'.order.AtLeast(d.order) && d'.order.buddies == d.order.buddies
    ensures Landed(list, d.(v := d'.v), c, g0, g, prev, kept)
  {
    hide Refused, RefiledTable, Transferred, Vanishes, Passed, AllNamed, NoneEarly, OrderOf;
  }

  lemma TidilyFrom(list: BuddyList, d': Departure, d: Departure, c: Node, g0: Node, g: Node)
    requires d'.order.Full() ==> Tidily(list, d', c, g0, g)
    requires d'.buddies == d.buddies && d'.order.AtLeast(d.order) && d'.v.owner == d.v.owner && d'.v.At(c) == d.v.At(c)
    requires d'.order.groups <= 2 && d'.order.buddies <= 2
    ensures d.order.Full() ==> Tidily(list, d, c, g0, g)
  {
    hide Refused, Twins, Valid;
  }

  /** Contacts and chats stand beside each other. */
  predicate Sibling(node: Node?) {
    node != null && (node.kind == ContactNode || node.kind == ChatNode)
  }

  lemma SiblingIs(node: Node?)
    ensures Sibling(node) <==> node != null && (node.kind == ContactNode || node.kind == ChatNode)
  {
  }

  lemma ContactHome(list: BuddyList, c: Node)
    requires Sound(list) && c in list.kids && c.kind == ContactNode
    ensures c.parent != null && c in list.live && c.parent in list.kids && c.kind != GroupNode
  {
    hide *;
    SoundParts(list, null);
    FamilyInView(list, c);
    KeepsParts(ViewOf(list), c.parent, c);
    ViewIs(list, c);
  }

  lemma BesideChild(list: BuddyList, c: Node, node: Node)
    requires Sound(list) && c in list.kids && c.kind == ContactNode && c.parent != null
    requires list.Listed(node) && c != node && (node.kind == ContactNode || node.kind == ChatNode)
    ensures node.parent != null && CanMove(list, c, c.parent, node.parent, node)
  {
    hide Coherent, Tabled, OwnedBut;
    SoundParts(list, null);
    assert Fits(node.parent, node);
  }

  lemma SameGroup(v: View, g: Node)
    ensures g in v.kids ==> WithGroup(v, g) == v
  {
  }

  lemma InGroup(list: BuddyList, v: View, c: Node, g: Node)
    requires ViewOf(list) == WithGroup(v, g) && c in v.kids && c.kind == ContactNode && g in list.kids &&
      g.kind == GroupNode
    requires c.parent != null
    ensures CanMove(list, c, c.parent, g, null)
    ensures list.owner == v.owner && ViewOf(list).At(c) == v.At(c)
  {
  }

  /** The list with the chat `n`, which may have been in the group `g0`, behind `prev` or in front in the group `g`. */
  ghost function WithChat(v: View, g0: Node?, n: Node, g: Node, prev: Node?): View {
    var ks := if g0 == null then v.kids else v.kids[g0 := Minus(v.At(g0), n)];
    View(ks[g := Placed(if g in ks then ks[g] else [], prev, n)], v.owner, v.live, {})
  }

  lemma WithChatIs(v: View, g0: Node?, n: Node, g: Node, prev: Node?)
    requires g in v.kids
    ensures g0 == null ==>
      WithChat(v, g0, n, g, prev) == View(v.kids[g := Placed(v.At(g), prev, n)], v.owner, v.live, {})
    ensures g0 != null ==> var ks := v.kids[g0 := Minus(v.At(g0), n)];
                           g in ks && WithChat(v, g0, n, g, prev) ==
                               View(ks[g := Placed(ks[g], prev, n)], v.owner, v.live, {})
  {
  }

  /** A chat that is in the list or was just created goes behind `prev`, or in front, in the group `g`. */
  method PutChat(list: BuddyList, n: Node, g: Node, prev: Node?)
    requires Sound(list) && n.kind == ChatNode && (if n.parent != null then list.Listed(n) else Detached(list, n))
    requires g in list.kids && g.kind == GroupNode && prev != n && (prev == null || prev in list.kids[g])
    modifies list`root, list`gone, list`kids, list.live`prev, list.live`next, list.live`child, n`parent
    modifies list.live`totalsize, list.live`currentsize, list.live`online
    ensures Sound(list) && OrderOf(list) == old(OrderOf(list)) && n.parent == g
    ensures ViewOf(list) == WithChat(old(ViewOf(list)), old(n.parent), n, g, prev)
  {
    hide *;
    ViewIs(list, g);
    WithChatIs(ViewOf(list), n.parent, n, g, prev);
    if n.parent != null {
      MoveChat(list, n, g, prev);
    } else {
      AddNewChat(list, n, g, prev);
    }
  }

  lemma BesideSibling(list: BuddyList, node: Node)
    requires Sound(list) && list.Listed(node) && Sibling(node)
    ensures node.parent != null && node.parent in list.kids && node.parent.kind == GroupNode &&
      node in list.kids[node.parent]
  {
    hide Coherent, Tabled, OwnedBut;
    SoundParts(list, null);
    assert Fits(node.parent, node);
  }

  /** A chat that is in the list or was just created. */
  ghost predicate ChatReady(list: BuddyList, n: Node)
    reads list`live, list`kids, n
  {
    n.kind == ChatNode && n in list.live && if n.parent != null then list.Listed(n) else Detached(list, n)
  }

  lemma ChatStaysReady(list: BuddyList, v: View, n: Node, g: Node)
    requires n.kind == ChatNode && ViewOf(list) == WithGroup(v, g) && g != n && Shaped(v.kids)
    requires if n.parent != null then n.parent in v.kids && n in v.kids[n.parent]
             else n in v.live && n !in v.kids && !(null in v.kids && n in v.kids[null]) && n.child == null
                  && n.totalsize == n.currentsize == n.online == n.destroyed == 0 && !n.priorityValid
    ensures if n.parent != null then list.Listed(n) else Detached(list, n)
  {
    if n.parent != null && g !in v.kids {
      assert n in ViewOf(list).At(n.parent);
    }
  }

  lemma BeforeChatMoves(list: BuddyList, n: Node)
    requires Sound(list) && ChatReady(list, n)
    ensures n.kind == ChatNode && n in list.live && Shaped(list.kids)
    ensures if n.parent != null then n.parent in list.kids && n in list.kids[n.parent] && list.Listed(n)
            else
              && n in list.live && n !in list.kids && !(null in list.kids && n in list.kids[null]) && n.child == null
              && Detached(list, n) && n.totalsize == n.currentsize == n.online == n.destroyed == 0 && !n.priorityValid
    ensures n.parent != null ==> n.parent in list.live
  {
    hide Coherent, Tabled, OwnedBut;
    SoundParts(list, null);
  }

  /** `purple_blist_add_chat`: beside the contact or chat `node`, else to the
      front of `group` or of the standard group. */
  method AddChat(list: BuddyList, n: Node, group: Node?, node: Node?) returns (ghost g: Node?)
    requires Sound(list) && ChatReady(list, n)
    requires group != null ==> Groupable(list, group)
    requires node != null ==> list.Listed(node) && Sibling(node)
    modifies list`root, list`gone, list`kids, list`live, list`groupsCache
    modifies list.live`prev, list.live`next, list.live`parent, list.live`child
    modifies list.live`totalsize, list.live`currentsize, list.live`online
    ensures Sound(list) && OrderOf(list).AtLeast(old(OrderOf(list))) && (g == null <==> n == node)
    ensures group != null && old(list.Listed(group)) ==> list.groupsCache == old(list.groupsCache)
    ensures g == null ==> ViewOf(list) == old(ViewOf(list))
    ensures g != null && node != null ==>
      g == old(node.parent) && ViewOf(list) == WithChat(old(ViewOf(list)), old(n.parent), n, g, node)
    ensures g != null && node == null ==>
      && (if group != null then g == group else list.collate(g.name) == list.collate("Chats"))
      && ViewOf(list) == WithChat(WithGroup(old(ViewOf(list)), g), old(n.parent), n, g, null)
  {
    hide *;
    g := null;
    AtLeastIs(OrderOf(list), OrderOf(list));
    BeforeChatMoves(list, n);
    if node == null {
      ghost var v := ViewOf(list);
      ViewIs(list, null);
      var h := GroupFor(list, group, "Chats");
      ChatStaysReady(list, v, n, h);
      g := h;
      PutChat(list, n, h, null);
    } else if n != node {
      BesideSibling(list, node);
      g := node.parent;
      PutChat(list, n, node.parent, node);
    }
  }
}
