/** Inputs for which the buddy list does not keep what it should: one short run
    for each condition that the contracts of the operations name.
    Most bodies below hide every definition; the short lemmas called `...Is` and
    `...Parts` give back the single definition that a step needs. */
module BuddyExamples {
  import opened Lists
  import opened BuddyTree
  import opened BuddyCounts
  import opened BuddyIndex
  import opened BuddyState
  import opened BuddyRemove
  import opened BuddyValid
  import opened BuddyAdd
  import opened BuddyGroups
  import opened BuddyTop
  import opened BuddyEdit
  import opened BuddyApi
  import opened BuddyContacts
  import opened BuddyMerge
  import opened BuddyRename
  import opened BuddyConnect

  function Lower(c: char): char {
    if 'A' <= c <= 'Z' then (c as int + 32) as char else c
  }

  predicate SameLetters(s: string, t: string) {
    |s| == |t| && forall i :: 0 <= i < |s| ==> Lower(s[i]) == Lower(t[i])
  }

  const Me := Account(0)

  /** Names are compared as they are. */
  ghost predicate Literal(list: BuddyList) {
    && (forall s :: list.collate(s) == s) && (forall a, s :: list.normalize(a, s) == s)
    && (forall s, t :: list.sameFolded(s, t) <==> SameLetters(s, t))
  }

  method NewSimple() returns (list: BuddyList)
    ensures fresh(list) && Valid(list) && Exact(list.drift) && Literal(list)
    ensures list.connected == {} && list.present == {} && Me in list.caches
    ensures ViewOf(list) == View(map[null := []], map[], {}, {})
  {
    hide Valid, Exact;
    list := NewList({Me}, {}, false, (a, s) => s, s => s, (s, t) => SameLetters(s, t));
  }

  /** The list with a new group that has one contact with one buddy. */
  ghost function Housed(v: View, g: Node, c: Node, b: Node): View {
    View(v.kids[g := [c]][null := v.At(null) + [g]][c := [b]], v.owner[b := g], v.live + {b, g, c}, {})
  }

  ghost predicate NameIsNew(list: BuddyList, name: string)
    reads list`kids, list`owner, list`live, list`gone, (set g | null in list.kids && g in list.kids[null])`name
  {
    forall g :: g in ViewOf(list).At(null) ==> g.name != name
  }

  lemma NotInTable(list: BuddyList, name: string)
    requires Valid(list) && Literal(list) && NameIsNew(list, name)
    ensures list.collate(name) !in list.groupsCache
  {
    hide *;
    ValidParts(list, null);
    TableHasListed(list, name);
  }

  lemma TableHasListed(list: BuddyList, name: string)
    requires GroupsFiled(list, ViewOf(list)) && Literal(list) && NameIsNew(list, name)
    ensures list.collate(name) !in list.groupsCache
  {
  }

  lemma HousedIs(v: View, g: Node, c: Node, b: Node)
    requires g !in v.kids && c !in v.kids && b !in v.kids && g != c && g != b && c != b
    ensures var w := View(v.kids, v.owner, v.live + {b} + {g}, {});
            WithBuddy(WithContact(WithGroup(w, g), c, g), null, null, b, null, c, g) == Housed(v, g, c, b)
  {
    var w := View(v.kids, v.owner, v.live + {b} + {g}, {});
    var x := WithContact(WithGroup(w, g), c, g);
    assert WithGroup(w, g).At(g) == [] && WithGroup(w, g).kids == v.kids[g := []][null := v.At(null) + [g]];
    assert [] + [c] == [c];
    assert x.kids == WithGroup(w, g).kids[c := []][g := [c]];
    assert x.kids == v.kids[g := [c]][null := v.At(null) + [g]][c := []];
    assert x.At(c) == [] && InsertAt<Node>([], After(x.At(c), null), b) == [b];
    assert x.kids[c := [b]] == v.kids[g := [c]][null := v.At(null) + [g]][c := [b]];
    assert WithBuddy(x, null, null, b, null, c, g) == x.PlusBuddy(g, c, null, b);
  }

  /** A buddy and a group that are new can be added. */
  lemma BeforeMoveIn(list: BuddyList, v: View, g: Node, b: Node)
    requires Sound(list) && Detached(list, b) && b.kind == BuddyNode && b.name != "" && b.account in list.caches
    requires Findable(list, g) && Detached(list, g) && g.kind == GroupNode && g.name != "" && g != b
    requires g !in v.owner && b !in v.owner && g !in v.live && b !in v.live
    requires ViewOf(list) == View(v.kids, v.owner, v.live + {b} + {g}, {})
    ensures CanAdd(list, b, null, g, null)
    ensures !Undermines(b, null, null) && !Stays(b, null, null) && b.parent == null && GroupOf(b) == null
    ensures forall x: Node :: x in v.kids ==> x in list.live
  {
    hide *;
    SoundParts(list, null);
    ViewIs(list, null);
    NewIsLoose(list, g, b);
    KnownIsLive(list);
  }

  lemma NewIsLoose(list: BuddyList, g: Node, b: Node)
    requires Detached(list, b) && b.kind == BuddyNode && b.name != "" && b.account in list.caches && b !in list.owner
    requires Findable(list, g) && Detached(list, g) && g.kind == GroupNode && g.name != ""
    ensures CanAdd(list, b, null, g, null) && !Undermines(b, null, null) && !Stays(b, null, null)
    ensures b.parent == null && GroupOf(b) == null
  {
  }

  lemma KnownIsLive(list: BuddyList)
    requires list.Linked()
    ensures forall x: Node :: x in list.kids ==> x in list.live
  {
  }

  lemma FirstOfName(list: BuddyList, owner: map<Node, Node>, b: Node, g: Node)
    requires forall x :: x in owner ==> owner[x] != g
    ensures NoTwin(list, owner, b, g)
  {
  }

  /** A new group and a new buddy, not in the list yet */
  method GroupAndBuddy(list: BuddyList, name: string, who: string) returns (g: Node, b: Node)
    requires Valid(list) && Literal(list) && Me in list.caches && name != "" && who != "" && NameIsNew(list, name)
    modifies list`live
    ensures fresh(g) && fresh(b) && fresh(list.live - old(list.live))
    ensures g.kind == GroupNode && b.kind == BuddyNode && g.name == name && b.name == who && b.account == Me
    ensures g !in old(list.live) && b !in old(list.live) && g != b
    ensures ViewOf(list) == var v := old(ViewOf(list)); View(v.kids, v.owner, v.live + {b} + {g}, {})
    ensures CanAdd(list, b, null, g, null) && !Undermines(b, null, null) && !Stays(b, null, null)
    ensures b.parent == null && GroupOf(b) == null && g.destroyed == 0
    ensures Sound(list) && OrderOf(list) == old(OrderOf(list))
    ensures forall x: Node :: x in old(list.kids) ==> x in list.live
  {
    hide *;
    NotInTable(list, name);
    IsFull(list);
    ghost var v := ViewOf(list);
    ViewIs(list, null);
    b := NewNode(list, BuddyNode, Me, who);
    ViewIs(list, null);
    DetachedIs(list, b);
    ghost var w := ViewOf(list);
    g := GroupNew(list, name);
    FoundedIs(w, g, list.Listed(g));
    ViewIs(list, null);
    DetachedIs(list, b);
    DetachedIs(list, g);
    BeforeMoveIn(list, v, g, b);
    LiteralIs(list, name);
    LiteralIs(list, g.name);
  }

  /** A new group gets a contact with a new buddy. */
  method MoveIn(list: BuddyList, name: string, who: string) returns (g: Node, c: Node, b: Node)
    requires Valid(list) && Exact(list.drift) && Literal(list) && Me in list.caches
    requires name != "" && who != "" && NameIsNew(list, name)
    modifies list`root, list`gone, list`kids, list`live, list`buddies, list`caches, list`owner, list`drift,
      list`groupsCache
    modifies list.live`prev, list.live`next, list.live`parent, list.live`child, list.live`priorityValid
    modifies list.live`totalsize, list.live`currentsize, list.live`online
    ensures fresh(g) && fresh(c) && fresh(b) && Exact(list.drift) && list.caches.Keys == old(list.caches).Keys
    ensures g.kind == GroupNode && c.kind == ContactNode && b.kind == BuddyNode
    ensures g.name == name && b.name == who && b.account == Me && g.destroyed == 0
    ensures ViewOf(list) == Housed(old(ViewOf(list)), g, c, b)
    ensures Valid(list)
  {
    hide *;
    ghost var v, owner := ViewOf(list), list.owner;
    ViewIs(list, null);
    IsFull(list);
    g, b := GroupAndBuddy(list, name, who);
    ViewIs(list, null);
    FirstOfName(list, owner, b, g);
    EarlyIs(list, b);
    DepartureIs(list, b);
    IsFull(list);
    ghost var e := DepartureOf(list, b);
    ghost var d, h, broken := AddBuddy(list, b, null, g, null);
    c := b.parent;
    SettledIs(list, b, c, g, null, Extended(e, c, g));
    AddedIs(e, c, g, b);
    HousedIs(v, g, c, b);
    NewContactKind(list, v, g, c, b);
  }

  lemma IsFull(list: BuddyList)
    ensures Valid(list) <==> Sound(list) && OrderOf(list).Full()
    ensures OrderOf(list).Full() <==> OrderOf(list).named && OrderOf(list).groups == 2 && OrderOf(list).buddies == 2
  {
  }

  lemma AddedIs(d: Departure, c: Node, g: Node, b: Node)
    requires d.g0 == null && d.c0 == null
    ensures var e := Extended(d, c, g);
            Lifted(e.v, e.g0, e.c0, b).PlusBuddy(g, c, null, b) ==
              WithBuddy(WithContact(WithGroup(d.v, g), c, g), null, null, b, null, c, g)
  {
  }

  lemma NewContactKind(list: BuddyList, v: View, g: Node, c: Node, b: Node)
    requires Valid(list) && ViewOf(list) == Housed(v, g, c, b) && g != c && g.kind == GroupNode
    ensures c.kind == ContactNode
  {
    hide *;
    HousedAt(v, g, c, b);
    ViewIs(list, g);
    ValidParts(list, null);
    ChildKinds(list, g);
  }

  lemma DetachedIs(list: BuddyList, n: Node)
    ensures Detached(list, n) <==>
      && n in list.live && n !in list.kids && n.parent == null && n.child == null &&
          !(null in list.kids && n in list.kids[null])
      && n.totalsize == n.currentsize == n.online == n.destroyed == 0 && !n.priorityValid
  {
  }

  lemma EarlyIs(list: BuddyList, b: Node)
    ensures Early(list, b) <==> b in list.present && b.account !in list.connected
  {
  }

  lemma LiteralIs(list: BuddyList, name: string)
    requires Literal(list)
    ensures list.collate(name) == name && list.sameFolded(name, name)
  {
  }

  /** The pointers of a buddy that lives with `c` in `g`. */
  lemma AtHome(list: BuddyList, g: Node, c: Node, b: Node)
    requires Sound(list) && c in list.kids && c.kind == ContactNode && g in list.kids && g.kind == GroupNode
    requires c in list.kids[g] && b in list.kids[c]
    ensures list.Listed(b) && b.parent == c && c.parent == g && b in list.owner && list.owner[b] == g && list.Listed(c)
    ensures b.kind == BuddyNode && b in list.live && c in list.live && g in list.live && list.Listed(g)
    ensures c.child == list.kids[c][0] && g != c && g != b
  {
    hide *;
    SoundParts(list, null);
    IsSound(list);
    ChildOf(list, c, b);
    ChildOfGroup(list, g, c);
    OwnedBuddies(list, c);
    GroupsAreListed(list, g);
    FirstOf(list, c);
  }

  /** The counter of a group without children. */
  lemma EmptyGroupOnline(list: BuddyList, g: Node)
    requires Tree(list) && g in list.kids && g.kind == GroupNode && list.kids[g] == []
    ensures g.online == if g in list.drift then list.drift[g] else 0
  {
    assert NodeCounts(g, list.kids, CurrentOf(list), OnlineOf(list));
  }

  lemma DriftToGroup(drift: map<Node, int>, g: Node, c: Node)
    requires Exact(drift) && g != c
    ensures var d := DriftWithout(drift, g, c, true, true); g in d && d[g] == 1
  {
  }

  lemma HousedAt(v: View, g: Node, c: Node, b: Node)
    requires g != c
    ensures var w := Housed(v, g, c, b);
            && w.At(g) == [c] && w.At(c) == [b] && g in w.kids && c in w.kids && b in w.owner &&
                w.live == v.live + {b, g, c}
  {
  }

  /** One group with one buddy */
  method OneBuddy() returns (list: BuddyList, g: Node, c: Node, b: Node)
    ensures fresh(list) && fresh(list.live) && Valid(list) && Exact(list.drift) && list.connected == {}
    ensures g in list.kids && list.kids[g] == [c] && g.kind == GroupNode
    ensures c in list.kids && list.kids[c] == [b] && c.kind == ContactNode && b.account == Me
    ensures g.destroyed == 0
  {
    hide *;
    list := NewSimple();
    ViewIs(list, null);
    NewIsEmpty(list, "A");
    ghost var v := ViewOf(list);
    g, c, b := MoveIn(list, "A", "ann");
    HousedAt(v, g, c, b);
    ViewIs(list, g);
    ViewIs(list, c);
  }

  /** The only buddy of a group comes online while its account is connecting,
      and is deleted. Then the account does connect: the group, which has no
      children, counts one that is online. */
  method EarlyBuddyDeleted() returns (list: BuddyList, g: Node)
    ensures Valid(list) && g in list.kids && list.kids[g] == [] && g.online == 1
    ensures list.connected == {Me}
  {
    hide *;
    var c, b;
    list, g, c, b := OneBuddy();
    IsFull(list);
    AtHome(list, g, c, b);
    ghost var o := OrderOf(list);
    AtLeastIs(o, o);
    UpdateStatus(list, b, true, 0);
    StaysValid(list, o);
    EarlyIs(list, b);
    LeaveEarly(list, g, c, b);
    ViewIs(list, g);
    IsFull(list);
    ghost var o' := OrderOf(list);
    AtLeastIs(o', o');
    Connect(list, Me, {});
    StaysValid(list, o');
    ViewIs(list, g);
    SoundParts(list, null);
    EmptyGroupOnline(list, g);
  }

  method LeaveEarly(list: BuddyList, g: Node, c: Node, b: Node)
    requires Valid(list) && Exact(list.drift) && Early(list, b)
    requires g in list.kids && list.kids[g] == [c] && g.kind == GroupNode
    requires c in list.kids && list.kids[c] == [b] && c.kind == ContactNode
    modifies list`root, list`gone, list`kids, list`live, list`buddies, list`caches, list`owner, list`drift
    modifies list.live`prev, list.live`next, list.live`child, list.live`priorityValid
    modifies list.live`totalsize, list.live`currentsize, list.live`online, g`destroyed
    ensures Valid(list) && list.live <= old(list.live)
    ensures g in list.kids && list.kids[g] == [] && g in list.drift && list.drift[g] == 1
  {
    hide *;
    IsFull(list);
    AtHome(list, g, c, b);
    ViewIs(list, g);
    ViewIs(list, c);
    LastLeaves(ViewOf(list), g, c, b);
    DriftToGroup(list.drift, g, c);
    ghost var o := OrderOf(list);
    DeleteBuddy(list, b);
    StaysValid(list, o);
    ViewIs(list, g);
  }

  /** The only buddy of a group is deleted: the group has no children, and its size is one. */
  method SizeIsLeft() returns (list: BuddyList, g: Node)
    ensures Sound(list) && g in list.kids && g.kind == GroupNode && list.kids[g] == [] && g.totalsize == 1
  {
    hide *;
    var c, b;
    list, g, c, b := OneBuddy();
    IsSound(list);
    AtHome(list, g, c, b);
    ViewIs(list, g);
    ViewIs(list, c);
    LastLeaves(ViewOf(list), g, c, b);
    DeleteBuddy(list, b);
    ViewIs(list, g);
    SizeIs(list, g);
  }

  lemma LastLeaves(v: View, g: Node, c: Node, b: Node)
    requires v.At(g) == [c] && v.At(c) == [b] && g != c && g in v.kids
    ensures v.MinusBuddy(g, c, b).At(g) == [] && g in v.MinusBuddy(g, c, b).kids
  {
  }

  lemma NewIsEmpty(list: BuddyList, name: string)
    requires null in list.kids && list.kids[null] == []
    ensures NameIsNew(list, name)
  {
  }

  /** Two groups with one buddy each: that of the group `g` is called "ann". */
  datatype Pair = Pair(g: Node, c: Node, b: Node, h: Node, d: Node, x: Node) {
    ghost predicate Lives(list: BuddyList)
      reads list`kids, list`owner, list`caches, g`name, b`name
    {
      && Literal(list) && Me in list.caches && b.account == x.account == Me && g.name == "A" && b.name == "ann"
      && g in list.kids && h in list.kids && list.kids[g] == [c] && list.kids[h] == [d]
      && c in list.kids && d in list.kids && list.kids[c] == [b] && list.kids[d] == [x]
      && g.kind == h.kind == GroupNode && c.kind == d.kind == ContactNode && b.kind == x.kind == BuddyNode && g != h &&
          c != d && b != x
      && list.owner == map[b := g, x := h]
    }

    /** Both buddies are in the contact `d`, with the same account and name. */
    ghost predicate Twins(list: BuddyList)
      reads list`kids, list`owner, b`name, x`name
    {
      && d in list.kids && h in list.kids && d.kind == ContactNode && h.kind == GroupNode && d != h
      && list.kids[d] == [b, x] && list.kids[h] == [d] && list.owner == map[b := h, x := h]
      && b != x && b.account == x.account && b.name == x.name
    }
  }

  /** Two groups, "A" and `name`, one with "ann", the other with `who`. */
  method TwoBuddies(name: string, who: string) returns (list: BuddyList, p: Pair)
    requires name != "" && name != "A" && who != ""
    ensures fresh(list) && fresh(list.live) && p.Lives(list) && p.h.name == name && p.x.name == who
    ensures Valid(list)
  {
    hide *;
    list := NewSimple();
    ViewIs(list, null);
    NewIsEmpty(list, "A");
    ghost var v := ViewOf(list);
    var g, c, b := MoveIn(list, "A", "ann");
    HousedAt(v, g, c, b);
    ViewIs(list, null);
    OtherIsNew(list, v, g, c, b, name);
    p := AndOther(list, v, g, c, b, name, who);
  }

  method AndOther(list: BuddyList, ghost v: View, g: Node, c: Node, b: Node, name: string, who: string)
      returns (p: Pair)
    requires Valid(list) && Exact(list.drift) && Literal(list) && Me in list.caches
    requires name != "" && who != "" && NameIsNew(list, name)
    requires v == View(map[null := []], map[], {}, {}) && ViewOf(list) == Housed(v, g, c, b) && list.live == {b, g, c}
    requires g.kind == GroupNode && c.kind == ContactNode && b.kind == BuddyNode && b.account == Me
    requires g.name == "A" && b.name == "ann"
    modifies list`root, list`gone, list`kids, list`live, list`buddies, list`caches, list`owner, list`drift,
      list`groupsCache
    modifies list.live`prev, list.live`next, list.live`parent, list.live`child, list.live`priorityValid
    modifies list.live`totalsize, list.live`currentsize, list.live`online
    ensures fresh(list.live - old(list.live)) && p.Lives(list) && p.h.name == name && p.x.name == who
    ensures Valid(list)
  {
    hide *;
    ghost var w := ViewOf(list);
    ViewIs(list, null);
    var h, d, x := MoveIn(list, name, who);
    HousedAt(w, h, d, x);
    ViewIs(list, null);
    p := Pair(g, c, b, h, d, x);
    HousedTwice(list, v, p);
  }

  lemma OtherIsNew(list: BuddyList, v: View, g: Node, c: Node, b: Node, name: string)
    requires v.At(null) == [] && ViewOf(list) == Housed(v, g, c, b) && g.name != name
    ensures NameIsNew(list, name)
  {
  }

  lemma HousedTwice(list: BuddyList, v: View, p: Pair)
    requires v == View(map[null := []], map[], {}, {}) &&
      ViewOf(list) == Housed(Housed(v, p.g, p.c, p.b), p.h, p.d, p.x)
    requires p.g != p.h && p.c != p.d && p.b != p.x && p.b.kind == p.x.kind == BuddyNode
    requires Literal(list) && Me in list.caches && p.b.account == p.x.account == Me && p.g.name == "A" &&
      p.b.name == "ann"
    requires p.g.kind == p.h.kind == GroupNode && p.c.kind == p.d.kind == ContactNode
    ensures p.Lives(list)
  {
    hide Literal;
  }

  lemma PairParts(list: BuddyList, p: Pair)
    requires p.Lives(list) && Valid(list)
    ensures Sound(list) && OrderOf(list).Full() && p.b.account == p.x.account && p.b.name == "ann"
    ensures list.owner == map[p.b := p.g, p.x := p.h] && p.b != p.x && p.g != p.h && p.c != p.d
    ensures ViewOf(list).At(p.c) == [p.b] && ViewOf(list).At(p.d) == [p.x] && ViewOf(list).At(p.g) == [p.c]
    ensures p.c in list.kids && p.d in list.kids && p.c.kind == p.d.kind == ContactNode
    ensures p.c.parent == p.g && p.d.parent == p.h && p.b.parent == p.c && p.x.parent == p.d && p.b.next == null
    ensures list.Listed(p.c) && list.Listed(p.d) && list.Listed(p.g) && p.g.kind == p.h.kind == GroupNode
    ensures p.h in list.kids && ViewOf(list).At(p.h) == [p.d]
    ensures p.g in list.live && p.h in list.live && p.b in list.live && p.x in list.live && p.c.child == p.b &&
      p.g != p.b && p.g.name == "A"
    ensures Loose(list, p.b) && Loose(list, p.x)
  {
    hide *;
    IsSound(list);
    LivesIs(list, p);
    AtHome(list, p.g, p.c, p.b);
    AtHome(list, p.h, p.d, p.x);
    ViewIs(list, p.c);
    ViewIs(list, p.d);
    ViewIs(list, p.g);
    ViewIs(list, p.h);
    NextOfOnly(list, p.c, p.b);
    IsLoose(list, p.b);
    IsLoose(list, p.x);
  }

  lemma LivesIs(list: BuddyList, p: Pair)
    requires p.Lives(list)
    ensures Literal(list) && Me in list.caches && p.b.account == p.x.account == Me && p.g.name == "A" &&
      p.b.name == "ann"
    ensures p.g in list.kids && p.h in list.kids && list.kids[p.g] == [p.c] && list.kids[p.h] == [p.d]
    ensures p.c in list.kids && p.d in list.kids && list.kids[p.c] == [p.b] && list.kids[p.d] == [p.x]
    ensures p.g.kind == p.h.kind == GroupNode && p.c.kind == p.d.kind == ContactNode
    ensures p.b.kind == p.x.kind == BuddyNode && p.g != p.h && p.c != p.d && p.b != p.x
    ensures list.owner == map[p.b := p.g, p.x := p.h]
  {
  }

  lemma NextOfOnly(list: BuddyList, c: Node, b: Node)
    requires Valid(list) && c in list.kids && list.kids[c] == [b]
    ensures b.next == null
  {
    hide *;
    ValidParts(list, null);
    NextIs(list, c, 0);
  }

  /** The buddies are twins in either group. */
  lemma AreTwins(list: BuddyList, p: Pair)
    requires p.Lives(list) && p.x.name == "ann"
    ensures !NoTwin(list, list.owner, p.b, p.h) && !NoTwin(list, map[p.b := p.g, p.x := p.h], p.b, p.h)
  {
    assert KeyOf(list, p.x, list.owner[p.x]) == KeyOf(list, p.b, p.h);
  }

  /** A buddy is moved into a group that has one of the same name. */
  method TwinAdded() returns (list: BuddyList, p: Pair)
    ensures fresh(list) && fresh(list.live) && Sound(list) && !Valid(list) && p.Twins(list)
    ensures KeyOf(list, p.x, p.h) in list.buddies && list.buddies[KeyOf(list, p.x, p.h)] == p.b
  {
    hide *;
    list, p := TwoBuddies("B", "ann");
    PairParts(list, p);
    AddTwin(list, p);
  }

  method AddTwin(list: BuddyList, p: Pair)
    requires Valid(list) && p.Lives(list) && p.x.name == "ann"
    modifies list`root, list`gone, list`kids, list`live, list`buddies, list`caches, list`owner, list`drift,
      list`groupsCache
    modifies list.live`prev, list.live`next, list.live`parent, list.live`child, list.live`priorityValid
    modifies list.live`totalsize, list.live`currentsize, list.live`online, p.g`destroyed
    ensures Sound(list) && !Valid(list) && p.Twins(list) && list.live <= old(list.live)
    ensures KeyOf(list, p.x, p.h) in list.buddies && list.buddies[KeyOf(list, p.x, p.h)] == p.b
  {
    hide *;
    PairParts(list, p);
    LivesIs(list, p);
    AreTwins(list, p);
    CanEnter(list, p.b, p.d);
    DepartureIs(list, p.b);
    GroupOfIs(p.b);
    IsFull(list);
    ViewIs(list, p.d);
    ghost var e := DepartureOf(list, p.b);
    ghost var d, h, broken := AddBuddy(list, p.b, p.d, null, null);
    SettledIs(list, p.b, p.d, p.h, null, e);
    IsFull(list);
    BothIn(e.v, p);
    ViewIs(list, p.d);
    ViewIs(list, p.h);
    TwinsAre(list, p);
    SameKey(list, p);
  }

  lemma BothIn(v: View, p: Pair)
    requires v.At(p.c) == [p.b] && v.At(p.d) == [p.x] && v.At(p.h) == [p.d] && p.d in v.kids && p.h in v.kids
    requires p.c != p.d && p.h != p.d && p.c != p.h && p.g != p.h && p.b != p.x && p.g != p.d
    requires v.owner == map[p.b := p.g, p.x := p.h]
    ensures var w := Lifted(v, p.g, p.c, p.b).PlusBuddy(p.h, p.d, null, p.b);
            && w.At(p.d) == [p.b, p.x] && w.At(p.h) == [p.d] && p.d in w.kids && p.h in w.kids
            && w.owner == map[p.b := p.h, p.x := p.h] && w.live <= v.live + {p.b}
  {
    var x := Lifted(v, p.g, p.c, p.b);
    assert x.At(p.d) == [p.x] && x.At(p.h) == [p.d] && x.owner == map[p.x := p.h];
  }

  /** After that, deleting either of the two removes the entry of both: the one that
      is left is in the list, and the table does not find it. */
  method TwinDeleted(first: bool) returns (list: BuddyList, p: Pair, left: Node)
    ensures Sound(list) && left == (if first then p.x else p.b) && left in list.owner && list.owner[left] == p.h
    ensures KeyOf(list, left, p.h) !in list.buddies && OrderOf(list).buddies == 1
  {
    hide *;
    list, p := TwinAdded();
    left := if first then p.x else p.b;
    var b := if first then p.b else p.x;
    TwinsAre(list, p);
    AtHome(list, p.h, p.d, b);
    ViewIs(list, p.d);
    OtherStays(ViewOf(list), p, b);
    SameKey(list, p);
    DeleteBuddy(list, b);
    ViewIs(list, p.d);
    SameKey(list, p);
    NotOnFile(list, left, p.h);
  }

  lemma TwinsAre(list: BuddyList, p: Pair)
    ensures p.Twins(list) <==>
      && p.d in list.kids && p.h in list.kids && p.d.kind == ContactNode && p.h.kind == GroupNode && p.d != p.h
      && list.kids[p.d] == [p.b, p.x] && list.kids[p.h] == [p.d] && list.owner == map[p.b := p.h, p.x := p.h]
      && p.b != p.x && p.b.account == p.x.account && p.b.name == p.x.name
  {
  }

  lemma OtherStays(v: View, p: Pair, b: Node)
    requires v.At(p.d) == [p.b, p.x] && p.b != p.x && v.owner == map[p.b := p.h, p.x := p.h] && b in [p.b, p.x]
    ensures v.MinusBuddy(p.h, p.d, b).owner == map[if b == p.b then p.x else p.b := p.h]
  {
  }

  /** A buddy without an entry. */
  lemma NotOnFile(list: BuddyList, b: Node, g: Node)
    requires Sound(list) && b in list.owner && list.owner[b] == g && KeyOf(list, b, g) !in list.buddies
    ensures OrderOf(list).buddies == 1
  {
    assert Keys(list)[b] == KeyOf(list, b, g);
    hide *;
    IsSound(list);
    OrderIs(list);
    TrustIs(list);
    NoEntry(Keys(list), list.buddies, b);
  }

  lemma NoEntry(keys: map<Node, Key>, buddies: map<Key, Node>, b: Node)
    requires b in keys && keys[b] !in buddies
    ensures !OneToOne(keys, buddies)
  {
  }

  lemma SameKey(list: BuddyList, p: Pair)
    requires p.b.name == p.x.name && p.b.account == p.x.account
    ensures KeyOf(list, p.x, p.h) == KeyOf(list, p.b, p.h)
  {
  }

  lemma CanEnter(list: BuddyList, b: Node, d: Node)
    requires Loose(list, b) && d in list.kids && d.kind == ContactNode && b.parent != d
    ensures CanAdd(list, b, d, null, null) && !Undermines(b, d, null) && !Stays(b, d, null)
  {
  }

  /** A contact is merged into one of another group that has a buddy of the same name. */
  method TwinMerged() returns (list: BuddyList, p: Pair)
    ensures Sound(list) && !Valid(list) && p.b != p.x
    ensures KeyOf(list, p.x, p.h) in list.buddies && list.buddies[KeyOf(list, p.x, p.h)] == p.b
  {
    hide *;
    list, p := TwoBuddies("B", "ann");
    PairParts(list, p);
    LivesIs(list, p);
    AreTwins(list, p);
    TwinInSource(list, p);
    IsFull(list);
    ghost var v, buddies := ViewOf(list), list.buddies;
    ghost var m := MergeOf(v, p.c, p.g, p.d, p.h, p.d);
    OneToMerge(v, p);
    MergeContact(list, p.c, p.d);
    TableIs(list, buddies, m, 0);
    SameKey(list, p);
    IsFull(list);
  }

  lemma OneToMerge(v: View, p: Pair)
    requires v.At(p.c) == [p.b]
    ensures var m := MergeOf(v, p.c, p.g, p.d, p.h, p.d); m.s == [p.b] && m.g == p.h
  {
  }

  lemma TwinInSource(list: BuddyList, p: Pair)
    requires p.Lives(list) && !NoTwin(list, list.owner, p.b, p.h)
    ensures !NoTwins(list, p.c, p.h) && TargetOf(p.d) == p.d
  {
    hide NoTwin;
    assert p.b in list.kids[p.c];
  }

  /** "ann" and "bob" in one contact */
  method Together() returns (list: BuddyList, p: Pair)
    ensures fresh(list) && fresh(p.x) && OrderOf(list).Full() && p.b != p.x
    ensures list.Listed(p.x) && p.x.kind == BuddyNode && p.x.parent == p.c && p.c.parent == p.g && GroupOf(p.x) == p.g
    ensures p.b in list.owner && p.x in list.owner && list.owner[p.b] == list.owner[p.x] == p.g
    ensures p.b.name == "ann" && p.b.account == p.x.account && Sound(list)
  {
    hide *;
    list, p := TwoBuddies("B", "bob");
    PairParts(list, p);
    CanEnter(list, p.x, p.c);
    NoneCalledBob(list, p);
    LivesIs(list, p);
    ViewIs(list, null);
    DepartureIs(list, p.x);
    GroupOfIs(p.x);
    ghost var v, e := ViewOf(list), DepartureOf(list, p.x);
    IsFull(list);
    ghost var d, h, broken := AddBuddy(list, p.x, p.c, null, null);
    SettledIs(list, p.x, p.c, p.g, null, e);
    WithBuddyIs(v, p.h, p.d, p.x, null, p.c, p.g);
    MovedIn(v, p);
    ViewIs(list, p.c);
    ViewIs(list, p.g);
    AtHome(list, p.g, p.c, p.x);
    GroupOfIs(p.x);
    IsFull(list);
  }

  /** A buddy gets the name of another one in its group. */
  method TwinRenamed() returns (list: BuddyList, p: Pair)
    ensures Sound(list) && !Valid(list) && p.b != p.x && p.x.name == "ann"
    ensures KeyOf(list, p.b, p.g) in list.buddies && list.buddies[KeyOf(list, p.b, p.g)] == p.x
  {
    hide *;
    list, p := Together();
    IsFull(list);
    ViewIs(list, null);
    RenameBuddy(list, p.x, "ann");
    ViewIs(list, null);
    IsFull(list);
    GroupOfIs(p.x);
    BothInOne(list, p);
  }

  lemma GroupOfIs(b: Node)
    requires b.parent != null
    ensures GroupOf(b) == b.parent.parent
  {
  }

  lemma NoneCalledBob(list: BuddyList, p: Pair)
    requires p.Lives(list) && p.x.name == "bob"
    ensures NoTwin(list, list.owner, p.x, p.g)
  {
    assert list.normalize(Me, "ann") != list.normalize(Me, "bob");
  }

  lemma MovedIn(v: View, p: Pair)
    requires v.At(p.c) == [p.b] && v.At(p.d) == [p.x] && v.At(p.g) == [p.c] && p.c in v.kids && p.g in v.kids
    requires p.c != p.d && p.g != p.h && p.g != p.c && p.g != p.d && p.c != p.h && p.b in v.owner && p.b != p.x
    ensures var w := WithBuddy(v, p.h, p.d, p.x, null, p.c, p.g);
            && w.At(p.c) == [p.x, p.b] && w.At(p.g) == [p.c] && p.c in w.kids && p.g in w.kids
            && p.b in w.owner && w.owner[p.b] == v.owner[p.b] && p.x in w.owner && w.owner[p.x] == p.g
  {
  }

  lemma BothInOne(list: BuddyList, p: Pair)
    requires p.b in list.owner && p.x in list.owner && list.owner[p.b] == list.owner[p.x] == p.g && p.b != p.x
    requires p.b.name == p.x.name && p.b.account == p.x.account
    ensures !NoTwin(list, list.owner, p.x, p.g) && KeyOf(list, p.b, p.g) == KeyOf(list, p.x, p.g)
    ensures GroupOf(p.x) == p.g ==> !Unrivalled(list, p.x)
  {
    assert KeyOf(list, p.b, list.owner[p.b]) == KeyOf(list, p.x, p.g);
  }

  /** A group gets the name of another one that has all buddies of one of its
      contacts: the contact is freed, and read again right after. */
  method ContactFreed() returns (list: BuddyList, p: Pair, stuck: Node?)
    ensures stuck == p.c && stuck !in list.live && Valid(list)
  {
    hide *;
    list, p := TwoBuddies("B", "ann");
    PairParts(list, p);
    AreTwins(list, p);
    MergesIntoB(list, p);
    NoneSurvives(list, p);
    Folds(list);
    ghost var lost;
    stuck, lost := RenameGroup(list, p.g, "B");
    IsFull(list);
  }

  lemma Folds(list: BuddyList)
    requires Literal(list)
    ensures forall x :: list.sameFolded(x, x)
  {
  }

  lemma NoneSurvives(list: BuddyList, p: Pair)
    requires p.Lives(list) && !NoTwin(list, list.owner, p.b, p.h)
    ensures !AllSurvive(list, p.g, p.h)
  {
    hide NoTwin;
    assert p.c in list.kids[p.g];
    assert forall b :: b in list.kids[p.c] ==> b == p.b;
  }

  /** A group is found under its name. */
  lemma FoundInTable(list: BuddyList, h: Node)
    requires Valid(list) && Literal(list) && h in list.kids && h.kind == GroupNode
    ensures h.name != "" && list.collate(h.name) == h.name && h.name in list.groupsCache &&
      list.groupsCache[h.name] == h
  {
    hide *;
    IsFull(list);
    SoundParts(list, null);
    GroupsAreListed(list, h);
    GroupIsFiled(list, h);
    LiteralIs(list, h.name);
  }

  lemma MergesIntoB(list: BuddyList, p: Pair)
    requires Valid(list) && p.Lives(list) && p.h.name == "B"
    ensures MergesInto(list, p.g, "B") == p.h && Literal(list)
  {
    hide *;
    LivesIs(list, p);
    FoundInTable(list, p.h);
    DifferentLetters(list);
    MergesIntoOf(list, p.g, "B");
  }

  lemma DifferentLetters(list: BuddyList)
    requires Literal(list)
    ensures !list.sameFolded("A", "B") && list.sameFolded("A", "a")
  {
    assert Lower("A"[0]) != Lower("B"[0]);
    assert Lower("A"[0]) == Lower("a"[0]);
  }

  lemma MergesIntoOf(list: BuddyList, g: Node, name: string)
    requires list.collate(name) == name && name in list.groupsCache && name != "" && name != g.name
    ensures MergesInto(list, g, name) ==
      if list.sameFolded(g.name, list.groupsCache[name].name) then null else list.groupsCache[name]
  {
  }

  /** A group gets the name of another one that differs from its own in case only. */
  method CaseChanged() returns (list: BuddyList, p: Pair)
    ensures Sound(list) && !Valid(list) && p.g != p.h && p.g.name == p.h.name == "a"
  {
    hide *;
    list, p := TwoBuddies("a", "ann");
    PairParts(list, p);
    LivesIs(list, p);
    FoundInTable(list, p.h);
    DifferentLetters(list);
    MergesIntoOf(list, p.g, "a");
    Folds(list);
    IsFull(list);
    ghost var stuck, lost := RenameGroup(list, p.g, "a");
    IsFull(list);
  }

  /** The only buddy of a contact is added to it once more, next to a group: the
      contact is freed before the buddy is put into it. */
  method ContactUndermined() returns (list: BuddyList, p: Pair, broken: bool)
    ensures broken && p.c !in list.live
  {
    hide *;
    list, p := TwoBuddies("B", "ann");
    PairParts(list, p);
    NextToGroup(list, p);
    ghost var c, g;
    c, g, broken := AddBuddy(list, p.b, p.c, null, p.g);
  }

  lemma NextToGroup(list: BuddyList, p: Pair)
    requires Loose(list, p.b) && p.c in list.kids && p.c.kind == ContactNode && list.Listed(p.g) &&
      p.g.kind == GroupNode
    requires p.b.parent == p.c && p.c.child == p.b && p.b.next == null && p.g != p.b
    ensures CanAdd(list, p.b, p.c, null, p.g) && Undermines(p.b, p.c, p.g)
  {
  }
}
