/** `purple_blist_rename_group`.
    Most bodies below hide every definition; the short lemmas called `...Is` and
    `...Parts` give back the single definition that a step needs. */
module BuddyRename {
  import opened Lists
  import opened BuddyTree
  import opened BuddyCounts
  import opened BuddyIndex
  import opened BuddyState
  import opened BuddyRemove
  import opened BuddyValid
  import opened BuddyAdd
  import opened BuddyMove
  import opened BuddyContacts
  import opened BuddyTop
  import opened BuddyEdit
  import opened BuddyApi
  import opened BuddyMerge
  import opened BuddyGroupMerge

  /** The table of groups leads to groups only, none of them `g` but under `key`. */
  ghost predicate LeadsBut(list: BuddyList, cache: map<string, Node>, s: seq<Node>, g: Node, key: string)
    reads (set h | h in s && h != g)`name
  {
    && g in s && (forall h :: h in s && h != g ==> h.name != "")
    && (forall k :: k in cache && k != key ==> cache[k] in s && cache[k] != g && list.collate(cache[k].name) == k)
  }

  /** The table of groups is right for all groups but `g`, which it has under `key`. */
  ghost predicate TableBut(list: BuddyList, cache: map<string, Node>, s: seq<Node>, g: Node, key: string)
    reads (set h | h in s && h != g)`name
  {
    && LeadsBut(list, cache, s, g, key) && key in cache && cache[key] == g
    && (forall h :: h in s && h != g ==> list.collate(h.name) in cache && cache[list.collate(h.name)] == h)
  }

  lemma IsTableBut(list: BuddyList, cache: map<string, Node>, s: seq<Node>, g: Node)
    requires g in s
    ensures TableTrust(list, cache, s) >= 1 ==> LeadsBut(list, cache, s, g, list.collate(g.name))
    ensures TableTrust(list, cache, s) == 2 ==> TableBut(list, cache, s, g, list.collate(g.name))
  {
  }

  /** Filing a group under a new name keeps the table right exactly when no other group has that name. */
  lemma TableRenamed(list: BuddyList, cache: map<string, Node>, s: seq<Node>, g: Node, key: string)
    requires LeadsBut(list, cache, s, g, key) && g.name != ""
    ensures var k := list.collate(g.name);
            var t := TableTrust(list, (cache - {key})[k := g], s);
            t >= 1 && (TableBut(list, cache, s, g, key) ==> (t == 2 <==> (k in cache ==> cache[k] == g)))
  {
    var k := list.collate(g.name);
    var cache' := (cache - {key})[k := g];
    assert GroupsLead(list, cache', s);
    if TableBut(list, cache, s, g, key) {
      if k in cache && cache[k] != g {
        assert k != key && list.collate(cache[k].name) == k;
        assert cache[k] in s && cache'[k] != cache[k];
      } else {
        forall h | h in s && h != g ensures list.collate(h.name) in cache' && cache'[list.collate(h.name)] == h {
          assert cache[list.collate(h.name)] == h;
        }
      }
    }
  }

  lemma BeforeSimple(list: BuddyList, g: Node)
    requires Sound(list) && list.Listed(g) && g.kind == GroupNode
    ensures Tree(list) && Ranked(list) && Cached(list) && list.gone == {}
    ensures Owned(ViewOf(list)) && Ordered(list, ViewOf(list), OrderOf(list))
    ensures g in ViewOf(list).At(null) && g !in list.owner
    ensures ViewOf(list) == View(list.kids, list.owner, list.live, {})
  {
    hide *;
    BeforeTop(list, g);
    IsRanked(list);
    IsSound(list);
    ViewIs(list, null);
    GroupNotFiled(list, g);
  }

  lemma GroupNotFiled(list: BuddyList, g: Node)
    requires Owned(ViewOf(list)) && g.kind == GroupNode
    ensures g !in list.owner
  {
  }

  lemma AfterSimple(list: BuddyList, v: View, o: Order)
    requires Tree(list) && Ranked(list) && Cached(list) && list.gone == {}
    requires Owned(v) && ViewOf(list) == v && Tabled(v, list.caches.Keys) && Named(list, v) == o.named
    requires Trust(list) == o.buddies >= 1 && TableTrust(list, list.groupsCache, v.At(null)) >= 1
    ensures OrderOf(list) == o.(groups := TableTrust(list, list.groupsCache, v.At(null)))
    ensures Sound(list)
  {
    hide *;
    CoherentParts(list);
    OrderIs(list);
    IsSound(list);
  }

  /** "A simple rename". All is well afterwards exactly when no other group has the new name. */
  method RenameInPlace(list: BuddyList, g: Node, name: string)
    requires Sound(list) && list.Listed(g) && g.kind == GroupNode && name != ""
    modifies list`groupsCache, g`name
    ensures g.name == name && ViewOf(list) == old(ViewOf(list))
    ensures list.groupsCache == (old(list.groupsCache) - {old(list.collate(g.name))})[list.collate(name) := g]
    ensures OrderOf(list) == old(OrderOf(list)).(groups := OrderOf(list).groups)
    ensures old(OrderOf(list)).groups == 2 ==>
      var k := list.collate(name);
      (OrderOf(list).groups == 2 <==> (k in old(list.groupsCache) ==> old(list.groupsCache)[k] == g))
    ensures Sound(list)
  {
    hide *;
    BeforeSimple(list, g);
    ghost var v, o, cache, s := ViewOf(list), OrderOf(list), list.groupsCache, ViewOf(list).At(null);
    ViewIs(list, null);
    OrderedIs(list, v, o);
    IsTableBut(list, cache, s, g);
    var key := list.collate(g.name);
    ghost var full := TableBut(list, cache, s, g, key);
    assert LeadsBut(list, cache, s, g, key) && Named(list, v) == o.named;
    g.name := name;
    list.groupsCache := (list.groupsCache - {key})[list.collate(name) := g];
    ViewIs(list, null);
    assert LeadsBut(list, cache, s, g, key) && full == TableBut(list, cache, s, g, key);
    TableRenamed(list, cache, s, g, key);
    AfterSimple(list, v, o);
  }

  /** Taking a buddy out and putting it back behind the same neighbour. */
  lemma BackInPlace(v: View, g: Node, c: Node, b: Node, j: nat)
    requires c in v.kids && NoDup(v.kids[c]) && 0 < j < |v.kids[c]| && v.kids[c][j] == b
    requires b in v.owner && v.owner[b] == g && b in v.live && b != c
    ensures WithBuddy(v, g, c, b, v.kids[c][j - 1], c, g) == v
  {
    var t := v.kids[c];
    var prev := t[j - 1];
    BackInSeq(t, b, j);
    assert v.At(c) == t && |t| != 1;
    hide Minus, InsertAt, NoDup;
    var x := v.MinusBuddy(g, c, b);
    assert x == View(v.kids[c := Minus(t, b)], v.owner - {b}, v.live - {b}, v.gone);
    assert x.At(c) == Minus(t, b);
    assert v.kids[c := Minus(t, b)][c := t] == v.kids;
    assert (v.owner - {b})[b := g] == v.owner;
    assert v.live - {b} + {b} == v.live;
  }

  lemma BackInSeq(t: seq<Node>, b: Node, j: nat)
    requires NoDup(t) && 0 < j < |t| && t[j] == b
    ensures var u := Minus(t, b);
            t[j - 1] in u && InsertAt(u, After(u, t[j - 1]), b) == t
  {
    var u := Minus(t, b);
    IndexOfIs(t, b, j);
    assert u == t[..j] + t[j + 1..];
    assert u[j - 1] == t[j - 1] && u[..j - 1] == t[..j - 1];
    IndexOfIs(u, t[j - 1], j - 1);
  }

  /** What `AddBuddy` needs for a buddy that is put where it is. */
  lemma BeforeReAdd(list: BuddyList, c: Node, t: seq<Node>, j: nat)
    requires Sound(list) && c in list.kids && c.kind == ContactNode && list.kids[c] == t && j < |t|
    ensures var b := t[j];
            && b in list.live && b.parent == c && c.parent != null && c.child == t[0]
            && b.prev == (if j == 0 then null else t[j - 1])
            && b.next == (if j + 1 < |t| then t[j + 1] else null)
            && CanAdd(list, b, c, null, b.prev) && (Stays(b, c, b.prev) <==> j == 0) && !Undermines(b, c, b.prev)
            && (b.prev != null ==> b.prev.kind == BuddyNode && b.prev.parent == c)
            && b in list.owner && (Filed(list) ==> NoTwin(list, list.owner, b, c.parent))
            && (0 < j ==> WithBuddy(ViewOf(list), c.parent, c, b, b.prev, c, c.parent) == ViewOf(list))
  {
    hide *;
    var b := t[j];
    ChildOf(list, c, b);
    ContactHome(list, c);
    SoundParts(list, null);
    OwnedBuddies(list, c);
    AccountsKnown(list, b);
    if Filed(list) {
      NoTwinAtHome(list, b, c.parent);
    }
    IsLoose(list, b);
    Chain(list, c, j);
    FirstBuddy(list, c);
    ViewIs(list, c);
    if 0 < j {
      ChildOf(list, c, t[j - 1]);
      NoDupAt(list, c);
      BackInPlace(ViewOf(list), c.parent, c, b, j);
    }
    ReAddArguments(list, b, c, t, j);
  }

  lemma Chain(list: BuddyList, p: Node?, j: nat)
    requires list.Linked() && list.gone == {} && p in list.kids && j < |list.kids[p]|
    ensures var t := list.kids[p];
            && t[j].prev == (if j == 0 then null else t[j - 1]) && t[j].next == (if j + 1 < |t| then t[j + 1] else null)
            && forall k :: 0 <= k < |t| && k != j ==> t[k] != t[j]
  {
    assert list.Chained(p, list.kids[p], {});
    assert Joined(list.kids[p], j, {});
  }

  lemma ReAddArguments(list: BuddyList, b: Node, c: Node, t: seq<Node>, j: nat)
    requires j < |t| && b == t[j] && Loose(list, b) && b.parent == c && c.child == t[0]
    requires c in list.kids && c.kind == ContactNode && list.kids[c] == t
    requires b.prev == if j == 0 then null else t[j - 1]
    requires forall k :: 0 <= k < |t| && k != j ==> t[k] != t[j]
    requires 0 < j ==> list.Listed(t[j - 1]) && t[j - 1].kind == BuddyNode
    ensures CanAdd(list, b, c, null, b.prev) && (Stays(b, c, b.prev) <==> j == 0) && !Undermines(b, c, b.prev)
  {
  }

  /** Adding a buddy where it is already changes nothing in the tree. */
  method ReAddOne(list: BuddyList, b: Node, c: Node, g: Node, ghost h: Node, ghost t: seq<Node>, ghost j: nat)
    requires Sound(list) && c in list.kids && c.kind == ContactNode && list.kids[c] == t && c.parent == g
    requires j < |t| && b == t[j] && h.kind == GroupNode
    modifies list`root, list`gone, list`kids, list`live, list`buddies, list`caches, list`owner, list`drift,
      list`groupsCache
    modifies list.live`prev, list.live`next, list.live`parent, list.live`child, list.live`priorityValid
    modifies list.live`totalsize, list.live`currentsize, list.live`online, g`destroyed
    ensures ViewOf(list) == old(ViewOf(list)) && list.caches.Keys == old(list.caches).Keys
    ensures c in list.kids && list.kids[c] == t && list.live == old(list.live) && c.parent == g
    ensures list.groupsCache == old(list.groupsCache) && g.destroyed == old(g.destroyed)
    ensures Passed(old(list.drift), list.drift, true) && OffAt(list.drift, h) == OffAt(old(list.drift), h)
    ensures OrderOf(list).AtLeast(old(OrderOf(list)))
    ensures Sound(list)
  {
    hide *;
    BeforeReAdd(list, c, t, j);
    DepartureIs(list, b);
    TrustIs(list);
    ViewIs(list, c);
    BuddyIsNamed(list, b);
    PassedNone(list.drift);
    ghost var d, prev, free := DepartureOf(list, b), b.prev, NoTwin(list, list.owner, b, g);
    TrustOf(list);
    ghost var owner := list.owner;
    NotLast(ViewOf(list).At(c), b, j);
    WithBuddyIs(d.v, g, c, b, prev, c, g);
    if 0 < j {
      PassedInPlace(list.drift, g, c, Early(list, b), h);
    }
    assert forall x :: x in owner ==> allocated(x);
    assert free == NoTwin(list, owner, b, g);
    ghost var c', g', broken := AddBuddy(list, b, c, null, b.prev);
    if 0 < j {
      SettledIs(list, b, c, g, prev, d);
    }
    DepartureIs(list, b);
    ViewIs(list, c);
    StaysInOrder(list, d.order, b.name != "", free);
  }

  lemma TrustOf(list: BuddyList)
    requires Sound(list)
    ensures 1 <= OrderOf(list).buddies <= 2 && OrderOf(list).buddies == Trust(list)
  {
  }

  lemma StaysInOrder(list: BuddyList, o: Order, named: bool, free: bool)
    requires Sound(list) && OrderOf(list).groups >= o.groups && (o.named ==> named)
    requires OrderOf(list) == o || ((o.named && named ==> OrderOf(list).named) &&
               (o.buddies == 2 ==> (OrderOf(list).buddies == 2 <==> free)))
    requires (o.buddies == 2 ==> free) && 1 <= o.buddies <= 2
    ensures OrderOf(list).AtLeast(o)
  {
    IsSound(list);
    hide OrderOf, Sound;
  }

  lemma NotLast(t: seq<Node>, b: Node, j: nat)
    requires j < |t|
    ensures 0 < j ==> t != [b]
  {
  }

  /** A buddy that leaves a contact and joins it again leaves its counter as it was. */
  lemma PassedInPlace(drift: map<Node, int>, g: Node, c: Node, early: bool, h: Node)
    requires h != c
    ensures Passed(drift, DriftPlaced(drift, g, c, c, early, false), true)
    ensures OffAt(DriftPlaced(drift, g, c, c, early, false), h) == OffAt(drift, h)
  {
    var d := DriftPlaced(drift, g, c, c, early, false);
    assert forall n :: n in drift ==> n in d && d[n] == drift[n];
  }

  /** The inner loop of `purple_blist_rename_group`. */
  method ReAddAll(list: BuddyList, c: Node, g: Node, ghost h: Node)
    requires Sound(list) && c in list.kids && c.kind == ContactNode && c.parent == g && h.kind == GroupNode
    modifies list`root, list`gone, list`kids, list`live, list`buddies, list`caches, list`owner, list`drift,
      list`groupsCache
    modifies list.live`prev, list.live`next, list.live`parent, list.live`child, list.live`priorityValid
    modifies list.live`totalsize, list.live`currentsize, list.live`online, g`destroyed
    ensures ViewOf(list) == old(ViewOf(list)) && list.caches.Keys == old(list.caches).Keys
    ensures list.live == old(list.live)
    ensures list.groupsCache == old(list.groupsCache) && g.destroyed == old(g.destroyed)
    ensures Passed(old(list.drift), list.drift, true) && OffAt(list.drift, h) == OffAt(old(list.drift), h)
    ensures OrderOf(list).AtLeast(old(OrderOf(list)))
    ensures Sound(list)
  {
    hide *;
    PassedNone(list.drift);
    AtLeastIs(OrderOf(list), OrderOf(list));
    ghost var t, j := list.kids[c], 0;
    FirstBuddy(list, c);
    ViewIs(list, c);
    var bnode := c.child;
    while bnode != null
      invariant j <= |t| && bnode == (if j < |t| then t[j] else null)
      invariant Sound(list) && ViewOf(list) == old(ViewOf(list)) && list.live == old(list.live) && c.parent == g
      invariant c in list.kids && list.kids[c] == t && list.caches.Keys == old(list.caches).Keys
      invariant list.groupsCache == old(list.groupsCache) && g.destroyed == old(g.destroyed)
      invariant Passed(old(list.drift), list.drift, true) && OffAt(list.drift, h) == OffAt(old(list.drift), h)
      invariant OrderOf(list).AtLeast(old(OrderOf(list)))
      decreases |t| - j
    {
      ghost var was, o := list.drift, OrderOf(list);
      ReAddOne(list, bnode, c, g, h, t, j);
      PassedOn(old(list.drift), was, list.drift, true, true);
      AtLeastTwice(OrderOf(list), o, old(OrderOf(list)));
      BeforeReAdd(list, c, t, j);
      bnode := bnode.next;
      j := j + 1;
    }
  }

  /** What is known of a merge of groups before its loop, and stays true. */
  ghost predicate Joins(list: BuddyList, v: View, m: GroupMerge)
    reads v.owner.Keys`name, (set p, b | p in v.kids && b in v.kids[p] :: b)`name
  {
    && m.Suits(v)
    && (forall c, b :: c in v.kids && c in m.s && b in v.kids[c] ==> (NoTwin(list, v.owner, b, m.dest) <==>
        b !in m.lost))
    && (forall a, b :: a in v.owner && b in v.owner && a != b && v.owner[a] == v.owner[b] == m.source ==>
          KeyOf(list, a, m.dest) != KeyOf(list, b, m.dest))
  }

  /** The buddies that were moved before do not matter for the next ones. */
  lemma SameTwins(list: BuddyList, v: View, m: GroupMerge, i: nat, b: Node)
    requires Joins(list, v, m) && i < |m.s| && m.s[i] in v.kids && b in v.kids[m.s[i]]
    ensures NoTwin(list, m.OwnerAt(v, i), b, m.dest) <==> b !in m.lost
  {
    var o := m.OwnerAt(v, i);
    m.NotMoved(v, i, b);
    assert m.s[i] in m.s;
    forall x | x in v.owner && x != b && x in m.Moved(v, i)
      ensures KeyOf(list, x, v.owner[x]) != KeyOf(list, b, m.dest) && KeyOf(list, x, m.dest) != KeyOf(list, b, m.dest)
    {
      MovedFromSource(v, m, i, x);
    }
    hide GroupMerge.Moved;
    assert forall x :: x in v.owner && x !in m.Moved(v, i) ==> x in o && o[x] == v.owner[x];
  }

  lemma MovedFromSource(v: View, m: GroupMerge, i: nat, x: Node)
    requires m.Suits(v) && i <= |m.s| && x in m.Moved(v, i)
    ensures x in v.owner && v.owner[x] == m.source && m.source != m.dest
  {
    var c :| c in m.s[..i] && x in v.At(c);
    assert c in m.s && c in v.kids && x in v.kids[c];
  }

  lemma TwinsAt(list: BuddyList, v: View, m: GroupMerge, i: nat)
    requires Joins(list, v, m) && i < |m.s| && m.s[i] in v.kids
    ensures Twins(list, m.OwnerAt(v, i), v.kids[m.s[i]], m.dest) == m.lost * Elements(v.kids[m.s[i]])
  {
    forall b | b in v.kids[m.s[i]] ensures NoTwin(list, m.OwnerAt(v, i), b, m.dest) <==> b !in m.lost {
      SameTwins(list, v, m, i, b);
    }
  }

  lemma JoinsSuits(list: BuddyList, v: View, m: GroupMerge)
    requires Joins(list, v, m)
    ensures m.Suits(v)
  {
  }

  /** The next child of the source, read off the pointers. */
  lemma BeforeMoveChild(list: BuddyList, v: View, m: GroupMerge, i: nat)
    requires Sound(list) && m.Suits(v) && i < |m.s| && ViewOf(list) == m.Stage(v, i)
    ensures m.s[i].next == if i + 1 < |m.s| then m.s[i + 1] else null
    ensures m.s[i].parent == m.source && list.Listed(m.s[i]) && m.s[i] in list.live && m.source in list.kids &&
      m.dest in list.kids
    ensures m.dest.kind == GroupNode && list.Listed(m.dest) && m.dest in list.live
    ensures var u := m.t + m.s[..i];
            NoDup(u) && ViewOf(list).At(m.dest) == u &&
                (Last(u) != null ==> list.Listed(Last(u)) && Sibling(Last(u)) && Last(u).parent == m.dest)
    ensures Last(m.t + m.s[..i]) != m.s[i]
    ensures (m.s[i].kind == ContactNode && m.s[i] in list.kids && m.s[i] in v.kids &&
      list.kids[m.s[i]] == v.kids[m.s[i]]) || m.s[i].kind == ChatNode
  {
    hide *;
    m.NextChild(v, i);
    m.SuffixHead(i);
    SoundParts(list, null);
    ViewIs(list, m.source);
    ViewIs(list, m.dest);
    ViewIs(list, m.s[i]);
    SuffixNext(list, m.source, m.s, i);
    NoDupAt(list, m.dest);
    SuitsKinds(v, m);
    ChildOfGroup(list, m.source, m.s[i]);
    GroupsAreListed(list, m.dest);
    LastIn(m.t + m.s[..i]);
    if Last(m.t + m.s[..i]) != null {
      ChildOfGroup(list, m.dest, Last(m.t + m.s[..i]));
    }
  }

  lemma LastIn(u: seq<Node>)
    ensures Last(u) != null ==> Last(u) in u
  {
  }

  lemma SuitsKinds(v: View, m: GroupMerge)
    requires m.Suits(v)
    ensures m.source.kind == GroupNode && m.dest.kind == GroupNode && m.source != m.dest && null in v.kids
  {
  }

  lemma ChildOfGroup(list: BuddyList, g: Node, n: Node)
    requires list.Linked() && Shaped(list.kids) && g in list.kids && g.kind == GroupNode && n in list.kids[g]
    ensures n.parent == g && list.Listed(n) && Sibling(n) && n in list.live
  {
    assert BuddyTree.Fits(g, n);
  }

  lemma GroupsAreListed(list: BuddyList, g: Node)
    requires list.Linked() && list.Rooted() && g in list.kids
    ensures list.Listed(g) && g in list.live
  {
  }

  lemma ListedIsGroupable(list: BuddyList, g: Node)
    requires Sound(list) && list.Listed(g) && g.kind == GroupNode && list.collate(g.name) in list.groupsCache
    ensures Groupable(list, g) && g in ViewOf(list).kids
  {
    hide *;
    BeforeTop(list, g);
    ListedIsFindable(list, g);
    NewIsGroupable(list, g);
    ViewIs(list, g);
  }

  lemma ListedIsFindable(list: BuddyList, g: Node)
    requires list.Listed(g) && list.collate(g.name) in list.groupsCache
    ensures Findable(list, g)
  {
  }

  lemma ChatIsReady(list: BuddyList, n: Node)
    requires n.kind == ChatNode && n in list.live && n.parent != null && list.Listed(n)
    ensures ChatReady(list, n)
  {
  }

  lemma StageHas(v: View, m: GroupMerge, i: nat)
    requires i <= |m.s|
    ensures m.Stage(v, i).owner == m.OwnerAt(v, i) && m.Stage(v, i).live <= v.live
  {
  }

  lemma StageShrinks(v: View, m: GroupMerge, i: nat)
    requires m.Suits(v) && i < |m.s|
    ensures m.Stage(v, i + 1).live <= m.Stage(v, i).live
  {
    m.NextChild(v, i);
    hide GroupMerge.Moved;
  }

  /** The twins among the buddies of the next contact. */
  lemma TwinsAtStage(list: BuddyList, v: View, m: GroupMerge, i: nat)
    requires Joins(list, v, m) && i < |m.s| && m.s[i] in v.kids
    ensures TwinsIn(list, m.Stage(v, i), m.s[i], m.dest) == m.lost * Elements(v.kids[m.s[i]])
  {
    JoinsSuits(list, v, m);
    TwinsAt(list, v, m, i);
    m.NextChild(v, i);
    StageHas(v, m, i);
    hide *;
    TwinsInIs(list, m.Stage(v, i), m.s[i], m.dest);
  }

  /** One contact goes over, and its buddies are added once more, unless it was
      freed on the way. `more` are the buddies that are not let in. */
  method MoveContactOver(list: BuddyList, c: Node, source: Node, dest: Node, prev: Node?, ghost v: View,
      ghost m: GroupMerge, ghost i: nat)
    returns (kept: bool, ghost more: set<Node>)
    requires Sound(list) && m.Suits(v) && i < |m.s| && ViewOf(list) == m.Stage(v, i) && m.lost <= m.Moved(v, i)
    requires c == m.s[i] && c.kind == ContactNode && source == m.source && dest == m.dest
    requires prev == Last(m.t + m.s[..i])
    modifies list`root, list`gone, list`kids, list`live, list`buddies, list`caches, list`owner, list`drift,
      list`groupsCache
    modifies list.live`prev, list.live`next, list.live`parent, list.live`child, list.live`priorityValid
    modifies list.live`totalsize, list.live`currentsize, list.live`online, source`destroyed, dest`destroyed
    ensures list.caches.Keys == old(list.caches).Keys && list.groupsCache == old(list.groupsCache)
    ensures c in v.kids && more <= Elements(v.kids[c])
    ensures kept <==> m.Losing(more).Survives(v, i)
    ensures kept ==> ViewOf(list) == m.Losing(more).Stage(v, i + 1)
    ensures !kept ==> c !in list.live
    ensures Passed(old(list.drift), list.drift, NoneEarly(list, more))
    ensures kept ==> OffAt(list.drift, source) == OffAt(old(list.drift), source)
    ensures source.destroyed == old(source.destroyed) + (if kept then 0 else 1) && dest.destroyed == old(dest.destroyed)
    ensures OrderOf(list).AtLeast(old(OrderOf(list)).(buddies := 1))
    ensures old(OrderOf(list)).Full() ==> OrderOf(list).Full() && more == TwinsIn(list, m.Stage(v, i), c, dest)
    ensures Sound(list)
  {
    hide *;
    ghost var o, drift := OrderOf(list), list.drift;
    SuitsKinds(v, m);
    kept, more := Transport(list, c, source, dest, prev, v, m, i);
    if !kept {
      return;
    }
    LosingIs(m, more);
    StageKids(v, m.Losing(more), i + 1);
    ViewIs(list, c);
    ghost var was, mid := list.drift, OrderOf(list);
    assert TwinsIn(list, m.Stage(v, i), c, dest) == TwinsIn(list, m.Stage(v, i), c, dest);
    ReAddAll(list, c, dest, source);
    PassedOn(drift, was, list.drift, NoneEarly(list, more), true);
    AtLeastTwice(OrderOf(list), mid, o.(buddies := 1));
    StaysFull(list, mid);
  }

  lemma StaysFull(list: BuddyList, o: Order)
    requires OrderOf(list).AtLeast(o)
    ensures o.Full() ==> OrderOf(list).Full()
  {
  }

  /** What `AddContact` does to the next contact. */
  method Transport(list: BuddyList, c: Node, source: Node, dest: Node, prev: Node?, ghost v: View,
      ghost m: GroupMerge, ghost i: nat)
    returns (kept: bool, ghost more: set<Node>)
    requires Sound(list) && m.Suits(v) && i < |m.s| && ViewOf(list) == m.Stage(v, i) && m.lost <= m.Moved(v, i)
    requires c == m.s[i] && c.kind == ContactNode && source == m.source && dest == m.dest
    requires prev == Last(m.t + m.s[..i])
    modifies list`root, list`gone, list`kids, list`live, list`buddies, list`caches, list`owner, list`drift,
      list`groupsCache
    modifies list.live`prev, list.live`next, list.live`parent, list.live`child, list.live`priorityValid
    modifies list.live`totalsize, list.live`currentsize, list.live`online, source`destroyed
    ensures list.caches.Keys == old(list.caches).Keys && list.groupsCache == old(list.groupsCache)
    ensures c in v.kids && more <= Elements(v.kids[c]) && (kept ==> list.live <= old(list.live))
    ensures kept <==> m.Losing(more).Survives(v, i)
    ensures kept ==> ViewOf(list) == m.Losing(more).Stage(v, i + 1) && c.parent == dest
    ensures !kept ==> c !in list.live
    ensures Passed(old(list.drift), list.drift, NoneEarly(list, more))
    ensures kept ==> OffAt(list.drift, source) == OffAt(old(list.drift), source)
    ensures source.destroyed == old(source.destroyed) + if kept then 0 else 1
    ensures OrderOf(list).AtLeast(old(OrderOf(list)).(buddies := 1))
    ensures old(OrderOf(list)).Full() ==> OrderOf(list).Full() && more == TwinsIn(list, m.Stage(v, i), c, dest)
    ensures Sound(list)
  {
    hide *;
    BeforeMoveChild(list, v, m, i);
    SuitsKinds(v, m);
    m.NextChild(v, i);
    LeavingIs(list, c);
    IsSound(list);
    ViewIs(list, c);
    ghost var d := Leaving(list, c);
    more := Refused(list, list.buddies, list.kids[c], source, dest);
    RefusedAmong(list, list.buddies, list.kids[c], source, dest);
    m.Extend(v, i, more);
    ghost var n := m.Losing(more);
    LosingIs(m, more);
    n.VanishesNext(v, i);
    n.NextChild(v, i);
    if n.Survives(v, i) {
      n.StepContact(v, i);
    }
    ReceivedIs(v, n, i);
    StageShrinks(v, n, i);
    SameGroup(d.v, dest);
    SiblingIs(prev);
    ghost var g;
    g, kept := AddContact(list, c, dest, prev);
    SameBase(d, dest);
    LandedIs(list, d, c, source, dest, prev, kept);
    TidilyIs(list, d, c, source, dest);
    IsSound(list);
    WeakerOrder(OrderOf(list), d.order, AllNamed(d.v.At(c)));
    if kept {
      ViewIs(list, dest);
      HomeAfter(list, n, v, i);
    }
    ViewIs(list, c);
  }

  lemma SameBase(d: Departure, g: Node)
    requires WithGroup(d.v, g) == d.v
    ensures d.(v := WithGroup(d.v, g)) == d
  {
  }

  lemma WeakerOrder(o': Order, o: Order, named: bool)
    requires o'.AtLeast(o.(buddies := if named then o.buddies else 1)) && o.buddies >= 1
    ensures o'.AtLeast(o.(buddies := 1))
  {
  }

  lemma LosingIs(m: GroupMerge, more: set<Node>)
    ensures var n := m.Losing(more);
            n.source == m.source && n.s == m.s && n.dest == m.dest && n.t == m.t && n.lost == m.lost + more
  {
  }

  /** The contact that moved is a child of the other group now. */
  lemma HomeAfter(list: BuddyList, m: GroupMerge, v: View, i: nat)
    requires Sound(list) && m.Suits(v) && i < |m.s| && ViewOf(list) == m.Stage(v, i + 1)
    ensures m.s[i].parent == m.dest && m.s[i] in list.live && list.live <= v.live
  {
    hide *;
    SoundParts(list, null);
    SuitsKinds(v, m);
    StageTail(v, m, i);
    StageHas(v, m, i + 1);
    ViewIs(list, m.dest);
    ChildOfGroup(list, m.dest, m.s[i]);
  }

  lemma StageTail(v: View, m: GroupMerge, i: nat)
    requires m.Suits(v) && i < |m.s|
    ensures m.dest in m.Stage(v, i + 1).kids && m.s[i] in m.Stage(v, i + 1).At(m.dest)
  {
    assert m.s[..i + 1][i] == m.s[i];
  }

  lemma ReceivedIs(v: View, m: GroupMerge, i: nat)
    requires i < |m.s|
    ensures m.Received(v, i) ==
      Transferred(m.Stage(v, i), m.source, m.s[i], m.dest, Last(m.t + m.s[..i]), m.lost * Elements(v.At(m.s[i])))
  {
  }

  lemma StageKids(v: View, m: GroupMerge, i: nat)
    requires i <= |m.s|
    ensures m.Stage(v, i).kids.Keys == v.kids.Keys
  {
  }

  /** One chat goes over. */
  method MoveChatOver(list: BuddyList, n: Node, dest: Node, prev: Node?, ghost v: View, ghost m: GroupMerge,
      ghost i: nat)
    requires Sound(list) && m.Suits(v) && i < |m.s| && ViewOf(list) == m.Stage(v, i)
    requires n == m.s[i] && n.kind == ChatNode && dest == m.dest && prev == Last(m.t + m.s[..i])
    requires list.collate(dest.name) in list.groupsCache
    modifies list`root, list`gone, list`kids, list`live, list`groupsCache
    modifies list.live`prev, list.live`next, list.live`parent, list.live`child
    modifies list.live`totalsize, list.live`currentsize, list.live`online
    ensures OrderOf(list).AtLeast(old(OrderOf(list))) && list.groupsCache == old(list.groupsCache)
    ensures ViewOf(list) == m.Stage(v, i + 1)
    ensures Sound(list)
  {
    hide *;
    BeforeMoveChild(list, v, m, i);
    ListedIsGroupable(list, dest);
    ChatIsReady(list, n);
    m.StepChat(v, i);
    SameGroup(m.Stage(v, i), dest);
    SiblingIs(prev);
    ghost var g := AddChat(list, n, dest, prev);
  }

  /** The list before the merge, and the buddies of the tree that have a twin in the other group. */
  datatype Outset = Outset(v: View, drift: map<Node, int>, order: Order, ofSource: int, ofDest: int, twins: set<Node>)

  /** `m`, if what gets lost are the twins. */
  ghost function Twinned(m: GroupMerge, e: Outset): GroupMerge {
    GroupMerge(m.source, m.s, m.dest, m.t, e.twins)
  }

  /** What the loop of the merge keeps, when the first `i` children have moved and `m.lost` is what was lost. */
  ghost predicate MovedUpTo(list: BuddyList, m: GroupMerge, e: Outset, i: nat)
    requires i <= |m.s|
    reads list, list.live, list.kids.Keys, list.owner.Keys, (set g | null in list.kids && g in list.kids[null])`name
    reads e.v.owner.Keys`name, (set p, b | p in e.v.kids && b in e.v.kids[p] :: b)`name
    reads m.source`destroyed, m.dest`destroyed, m.dest`name
  {
    && Sound(list) && m.Suits(e.v) && ViewOf(list) == m.Stage(e.v, i) && m.lost <= m.Moved(e.v, i)
    && (forall k :: 0 <= k < i ==> m.Survives(e.v, k))
    && Passed(e.drift, list.drift, NoneEarly(list, m.lost)) && OffAt(list.drift, m.source) == OffAt(e.drift, m.source)
    && m.source.destroyed == e.ofSource && m.dest.destroyed == e.ofDest
    && list.collate(m.dest.name) in list.groupsCache && OrderOf(list).AtLeast(e.order.(buddies := 1))
    && OrderlyUpTo(list, m, e, i)
  }

  /** With names and tables in order: they still are, and what was lost are the twins. */
  ghost predicate OrderlyUpTo(list: BuddyList, m: GroupMerge, e: Outset, i: nat)
    requires i <= |m.s|
    reads list`kids, list`owner, list`live, list`gone, list`buddies, list`groupsCache
    reads list.owner.Keys`name, (set g | null in list.kids && g in list.kids[null])`name
    reads e.v.owner.Keys`name, (set p, b | p in e.v.kids && b in e.v.kids[p] :: b)`name
  {
    e.order.Full() ==>
      OrderOf(list).Full() && Joins(list, e.v, Twinned(m, e)) && m.lost == e.twins * m.Moved(e.v, i)
  }

  lemma OrderlyUpToIs(list: BuddyList, m: GroupMerge, e: Outset, i: nat)
    requires i <= |m.s|
    ensures OrderlyUpTo(list, m, e, i) <==>
      (e.order.Full() ==>
        OrderOf(list).Full() && Joins(list, e.v, Twinned(m, e)) && m.lost == e.twins * m.Moved(e.v, i))
  {
  }

  lemma MovedUpToIs(list: BuddyList, m: GroupMerge, e: Outset, i: nat)
    requires i <= |m.s|
    ensures MovedUpTo(list, m, e, i) <==>
      && Sound(list) && m.Suits(e.v) && ViewOf(list) == m.Stage(e.v, i) && m.lost <= m.Moved(e.v, i)
      && (forall k :: 0 <= k < i ==> m.Survives(e.v, k))
      && Passed(e.drift, list.drift, NoneEarly(list, m.lost)) && OffAt(list.drift, m.source) == OffAt(e.drift, m.source)
      && m.source.destroyed == e.ofSource && m.dest.destroyed == e.ofDest
      && list.collate(m.dest.name) in list.groupsCache && OrderOf(list).AtLeast(e.order.(buddies := 1))
      && OrderlyUpTo(list, m, e, i)
  {
  }

  /** With names and tables in order, the next contact loses its twins. */
  lemma LosesTwins(list: BuddyList, m: GroupMerge, e: Outset, i: nat)
    requires m.Suits(e.v) && i < |m.s| && m.s[i] in e.v.kids && OrderlyUpTo(list, m, e, i) && m.lost <= m.Moved(e.v, i)
    ensures e.order.Full() ==> TwinsIn(list, m.Stage(e.v, i), m.s[i], m.dest) == e.twins * Elements(e.v.kids[m.s[i]])
    ensures e.order.Full() ==>
      var more := TwinsIn(list, m.Stage(e.v, i), m.s[i], m.dest);
      m.lost + more == e.twins * m.Losing(more).Moved(e.v, i + 1)
  {
    hide *;
    OrderlyUpToIs(list, m, e, i);
    if e.order.Full() {
      var n := Twinned(m, e);
      TwinnedIs(m, e);
      m.SameLost(e.v, i, n);
      TwinsAtStage(list, e.v, n, i);
      m.BelowNext(e.v, i);
      LosingMoves(m, e.v, TwinsIn(list, m.Stage(e.v, i), m.s[i], m.dest), i + 1);
    }
  }

  lemma LosingMoves(m: GroupMerge, v: View, more: set<Node>, i: nat)
    requires i <= |m.s|
    ensures m.Losing(more).s == m.s && m.Losing(more).Moved(v, i) == m.Moved(v, i)
  {
  }

  lemma TwinnedIs(m: GroupMerge, e: Outset)
    ensures Twinned(m, e) == GroupMerge(m.source, m.s, m.dest, m.t, e.twins)
  {
  }

  /** One child goes over, unless it is a contact that is freed on the way. */
  method MoveNextOver(list: BuddyList, child: Node, source: Node, dest: Node, prev: Node?,
                      ghost m: GroupMerge, ghost e: Outset, ghost i: nat)
    returns (kept: bool, ghost n: GroupMerge)
    requires i < |m.s| && MovedUpTo(list, m, e, i)
    requires child == m.s[i] && source == m.source && dest == m.dest && prev == Last(m.t + m.s[..i])
    modifies list`root, list`gone, list`kids, list`live, list`buddies, list`caches, list`owner, list`drift,
      list`groupsCache
    modifies list.live`prev, list.live`next, list.live`parent, list.live`child, list.live`priorityValid
    modifies list.live`totalsize, list.live`currentsize, list.live`online, source`destroyed, dest`destroyed
    ensures list.caches.Keys == old(list.caches).Keys
    ensures n == GroupMerge(m.source, m.s, m.dest, m.t, n.lost)
    ensures kept ==> MovedUpTo(list, n, e, i + 1)
    ensures !kept ==> child !in list.live && FreedAt(list, n, e, i)
  {
    hide *;
    MovedUpToIs(list, m, e, i);
    BeforeMoveChild(list, e.v, m, i);
    if child.kind == ContactNode {
      kept, n := MoveContactOn(list, child, source, dest, prev, m, e, i);
    } else {
      m.ChatSurvives(e.v, i);
      ChatHasNone(e.v, m, i);
      m.BelowNext(e.v, i);
      OrderlyUpToIs(list, m, e, i);
      ghost var mid := OrderOf(list);
      assert OrderlyUpTo(list, m, e, i) && Joins(list, e.v, Twinned(m, e)) == Joins(list, e.v, Twinned(m, e));
      MoveChatOver(list, child, dest, prev, e.v, m, i);
      AtLeastTwice(OrderOf(list), mid, e.order.(buddies := 1));
      StaysFull(list, mid);
      kept, n := true, m;
      OrderlyUpToIs(list, m, e, i + 1);
      MovedUpToIs(list, m, e, i + 1);
    }
  }

  /** The contact at position `i` was freed on its way. */
  ghost predicate FreedAt(list: BuddyList, n: GroupMerge, e: Outset, i: nat)
    requires i < |n.s|
    reads list, list.live, list.kids.Keys, list.owner.Keys, (set g | null in list.kids && g in list.kids[null])`name
    reads e.v.owner.Keys`name, (set p, b | p in e.v.kids && b in e.v.kids[p] :: b)`name
    reads n.source`destroyed, n.dest`destroyed
  {
    && Sound(list) && n.Suits(e.v) && n.lost <= n.Moved(e.v, i + 1)
    && (forall k :: 0 <= k < i ==> n.Survives(e.v, k)) && !n.Survives(e.v, i)
    && n.source.destroyed == e.ofSource + 1 && n.dest.destroyed == e.ofDest
    && OrderOf(list).AtLeast(e.order.(buddies := 1)) && OrderlyUpTo(list, n, e, i + 1)
  }

  lemma FreedAtIs(list: BuddyList, n: GroupMerge, e: Outset, i: nat)
    requires i < |n.s|
    ensures FreedAt(list, n, e, i) <==>
      && Sound(list) && n.Suits(e.v) && n.lost <= n.Moved(e.v, i + 1)
      && (forall k :: 0 <= k < i ==> n.Survives(e.v, k)) && !n.Survives(e.v, i)
      && n.source.destroyed == e.ofSource + 1 && n.dest.destroyed == e.ofDest
      && OrderOf(list).AtLeast(e.order.(buddies := 1)) && OrderlyUpTo(list, n, e, i + 1)
  {
  }

  method MoveContactOn(list: BuddyList, c: Node, source: Node, dest: Node, prev: Node?,
                       ghost m: GroupMerge, ghost e: Outset, ghost i: nat)
    returns (kept: bool, ghost n: GroupMerge)
    requires i < |m.s| && MovedUpTo(list, m, e, i) && c.kind == ContactNode && c in e.v.kids
    requires c == m.s[i] && source == m.source && dest == m.dest && prev == Last(m.t + m.s[..i])
    modifies list`root, list`gone, list`kids, list`live, list`buddies, list`caches, list`owner, list`drift,
      list`groupsCache
    modifies list.live`prev, list.live`next, list.live`parent, list.live`child, list.live`priorityValid
    modifies list.live`totalsize, list.live`currentsize, list.live`online, source`destroyed, dest`destroyed
    ensures list.caches.Keys == old(list.caches).Keys
    ensures n == GroupMerge(m.source, m.s, m.dest, m.t, n.lost)
    ensures kept ==> MovedUpTo(list, n, e, i + 1)
    ensures !kept ==> c !in list.live && FreedAt(list, n, e, i)
  {
    hide *;
    ghost var drift, o, v := list.drift, OrderOf(list), e.v;
    MovedUpToIs(list, m, e, i);
    OrderlyUpToIs(list, m, e, i);
    LosesTwins(list, m, e, i);
    ghost var twins, joins := TwinsIn(list, m.Stage(v, i), c, dest), Joins(list, v, Twinned(m, e));
    assert twins == TwinsIn(list, m.Stage(v, i), c, dest) && joins == Joins(list, v, Twinned(m, e));
    ghost var more;
    kept, more := MoveContactOver(list, c, source, dest, prev, v, m, i);
    n := m.Losing(more);
    LosingIs(m, more);
    m.Extend(v, i, more);
    NoneEarlyPlus(list, m.lost, more);
    PassedOn(e.drift, drift, list.drift, NoneEarly(list, m.lost), NoneEarly(list, more));
    WeakerTwice(OrderOf(list), o, e.order);
    assert twins == TwinsIn(list, m.Stage(v, i), c, dest);
    assert joins == Joins(list, v, Twinned(m, e));
    TwinnedIs(m, e);
    TwinnedIs(n, e);
    OrderlyUpToIs(list, n, e, i + 1);
    if kept {
      MovedUpToIs(list, n, e, i + 1);
    } else {
      FreedAtIs(list, n, e, i);
    }
  }

  lemma WeakerTwice(o'': Order, o': Order, o: Order)
    requires o''.AtLeast(o'.(buddies := 1)) && o'.AtLeast(o.(buddies := 1))
    ensures o''.AtLeast(o.(buddies := 1))
  {
  }

  lemma ChatHasNone(v: View, m: GroupMerge, i: nat)
    requires m.Suits(v) && i < |m.s| && m.s[i].kind == ChatNode
    ensures m.s[i] !in v.kids
  {
    assert m.s[i] in m.s;
  }

  /** The loop of the merge: every child of the source goes over, up to the first
      contact that is freed on the way; that one would be read next. */
  method MoveAllOver(list: BuddyList, source: Node, dest: Node, last: Node?, ghost m0: GroupMerge, ghost e: Outset)
    returns (stuck: Node?, ghost m: GroupMerge)
    requires MovedUpTo(list, m0, e, 0) && source == m0.source && dest == m0.dest && ViewOf(list) == e.v
    requires last == Last(m0.t) && source.child == if m0.s == [] then null else m0.s[0]
    modifies list`root, list`gone, list`kids, list`live, list`buddies, list`caches, list`owner, list`drift,
      list`groupsCache
    modifies list.live`prev, list.live`next, list.live`parent, list.live`child, list.live`priorityValid
    modifies list.live`totalsize, list.live`currentsize, list.live`online, source`destroyed, dest`destroyed
    ensures list.caches.Keys == old(list.caches).Keys
    ensures m == GroupMerge(m0.source, m0.s, m0.dest, m0.t, m.lost)
    ensures stuck == null ==> MovedUpTo(list, m, e, |m.s|) && list.live <= old(list.live)
    ensures stuck != null ==>
      stuck !in list.live && exists i :: 0 <= i < |m.s| && stuck == m.s[i] && FreedAt(list, m, e, i)
  {
    hide *;
    ghost var i := 0;
    m := m0;
    ViewIs(list, null);
    BeforeLoop(m0);
    var prev := last;
    var child := source.child;
    while child != null
      invariant m == GroupMerge(m0.source, m0.s, m0.dest, m0.t, m.lost)
      invariant i <= |m.s| && child == (if i < |m.s| then m.s[i] else null) && prev == Last(m.t + m.s[..i])
      invariant MovedUpTo(list, m, e, i)
      invariant list.live <= old(list.live) && list.caches.Keys == old(list.caches).Keys
      decreases |m.s| - i
    {
      MovedUpToIs(list, m, e, i);
      BeforeMoveChild(list, e.v, m, i);
      LastMoved(m, i);
      var next := child.next;
      assert MovedUpTo(list, m, e, i);
      var kept;
      kept, m := MoveNextOver(list, child, source, dest, prev, m, e, i);
      if !kept {
        return child, m;
      }
      prev := child;
      i := i + 1;
      MovedUpToIs(list, m, e, i);
      StageHas(e.v, m, i);
      ViewIs(list, null);
      child := next;
    }
    return null, m;
  }

  lemma BeforeLoop(m: GroupMerge)
    ensures m.t + m.s[..0] == m.t
  {
  }

  lemma LastMoved(m: GroupMerge, i: nat)
    requires i < |m.s|
    ensures Last(m.t + m.s[..i + 1]) == m.s[i]
  {
  }

  /** Merging the group `source` into `dest`, which does not let in the buddies `lost`. */
  ghost function GroupMergeOf(v: View, source: Node, dest: Node, lost: set<Node>): GroupMerge {
    GroupMerge(source, v.At(source), dest, v.At(dest), lost)
  }

  /** The buddies that have a twin in `dest`. */
  ghost function TwinsFor(list: BuddyList, dest: Node): set<Node>
    reads list`kids, list`owner, list.owner.Keys`name
    reads (set p, b | p in list.kids && b in list.kids[p] :: b)`name
  {
    set p, b | p in list.kids && b in list.kids[p] && !NoTwin(list, list.owner, b, dest) :: b
  }

  /** The buddies of `source` that have a twin in `dest`. */
  ghost function LostOf(list: BuddyList, source: Node, dest: Node): set<Node>
    reads list`kids, list`owner, list`live, list`gone, list.owner.Keys`name
    reads (set p, b | p in list.kids && b in list.kids[p] :: b)`name
  {
    TwinsFor(list, dest) * Below(ViewOf(list), ViewOf(list).At(source))
  }

  /** Every contact of `source` that has buddies has one without a twin in `dest`. */
  ghost predicate AllSurvive(list: BuddyList, source: Node, dest: Node)
    reads list`kids, list`owner, list.owner.Keys`name
    reads (set p, b | p in list.kids && b in list.kids[p] :: b)`name
  {
    forall c: Node :: source in list.kids && c in list.kids[source] && c in list.kids && list.kids[c] != [] ==>
      exists b :: b in list.kids[c] && NoTwin(list, list.owner, b, dest)
  }

  lemma GroupChildren(list: BuddyList, source: Node)
    requires Sound(list) && source in list.kids && source.kind == GroupNode
    ensures forall n :: n in list.kids[source] ==>
      (n.kind == ContactNode && n in list.kids) || (n.kind == ChatNode && n !in list.kids)
    ensures forall c, b :: c in list.kids && c in list.kids[source] && b in list.kids[c] ==>
              b in list.owner && list.owner[b] == source
    ensures NoDup(list.kids[source])
    ensures forall p, q, b :: p in list.kids && q in list.kids && b in list.kids[p] && b in list.kids[q] ==> p == q
  {
    hide *;
    SoundParts(list, null);
    NoDupAt(list, source);
    ParentsAreUnique(list);
    ChildKinds(list, source);
    forall c, b | c in list.kids && c in list.kids[source] && b in list.kids[c] ensures b in list.owner &&
        list.owner[b] == source {
      OwnedBuddies(list, c);
    }
    OnlyParent(list);
  }

  lemma OnlyParent(list: BuddyList)
    requires list.Linked()
    ensures forall p, q, b :: p in list.kids && q in list.kids && b in list.kids[p] && b in list.kids[q] ==> p == q
  {
    ParentsAreUnique(list);
    hide BuddyList.Linked;
    forall p, q, b | p in list.kids && q in list.kids && b in list.kids[p] && b in list.kids[q] ensures p == q {
      assert b.parent == p && b.parent == q;
    }
  }

  lemma ChildKinds(list: BuddyList, source: Node)
    requires Shaped(list.kids) && source in list.kids && source.kind == GroupNode
    ensures forall n :: n in list.kids[source] ==>
      (n.kind == ContactNode && n in list.kids) || (n.kind == ChatNode && n !in list.kids)
  {
    forall n | n in list.kids[source] ensures (n.kind == ContactNode && n in list.kids) ||
        (n.kind == ChatNode && n !in list.kids) {
      assert BuddyTree.Fits(source, n);
    }
  }

  lemma TwinsOf(list: BuddyList, dest: Node, c: Node?, b: Node)
    requires c in list.kids && b in list.kids[c]
    ensures NoTwin(list, list.owner, b, dest) <==> b !in TwinsFor(list, dest)
  {
  }

  lemma AssembleGroupMerge(list: BuddyList, source: Node, dest: Node, lost: set<Node>)
    requires source != dest && list.gone == {} && null in list.kids
    requires source in list.kids && source.kind == GroupNode && dest in list.kids && dest.kind == GroupNode
    requires NoDup(list.kids[source]) && NoDup(list.kids[dest])
    requires forall n :: n in list.kids[source] ==>
      (n.kind == ContactNode && n in list.kids) || (n.kind == ChatNode && n !in list.kids)
    requires forall c, b :: c in list.kids && c in list.kids[source] && b in list.kids[c] ==>
               b in list.owner && list.owner[b] == source
    requires forall p, q, b :: p in list.kids && q in list.kids && b in list.kids[p] && b in list.kids[q] ==> p == q
    ensures GroupMergeOf(ViewOf(list), source, dest, lost).Suits(ViewOf(list))
  {
    var v, m := ViewOf(list), GroupMergeOf(ViewOf(list), source, dest, lost);
    assert v.At(source) == list.kids[source] && v.At(dest) == list.kids[dest];
    assert forall n :: n in m.s ==> n !in m.t;
  }

  /** What a caller can say about the contacts of `source`, in terms of the list alone. */
  lemma SurvivalIs(list: BuddyList, source: Node, dest: Node)
    requires source in list.kids
    ensures GroupMergeOf(ViewOf(list), source, dest, TwinsFor(list, dest)).AllSurvive(ViewOf(list)) <==>
      AllSurvive(list, source, dest)
  {
    var v, m := ViewOf(list), GroupMergeOf(ViewOf(list), source, dest, TwinsFor(list, dest));
    assert v.At(source) == list.kids[source] == m.s && v.kids == list.kids;
    forall c, b | c in m.s && c in list.kids && b in list.kids[c]
      ensures NoTwin(list, list.owner, b, dest) <==> b !in m.lost
    {
      TwinsOf(list, dest, c, b);
    }
    hide NoTwin, GroupMergeOf, ViewOf, View.At, TwinsFor;
    if AllSurvive(list, source, dest) {
      forall i | 0 <= i < |m.s| ensures m.Survives(v, i) {
        assert m.s[i] in m.s;
      }
    }
    if m.AllSurvive(v) {
      forall c: Node | c in list.kids[source] && c in list.kids && list.kids[c] != []
        ensures exists b :: b in list.kids[c] && NoTwin(list, list.owner, b, dest)
      {
        var i :| 0 <= i < |m.s| && m.s[i] == c;
        assert m.Survives(v, i);
      }
    }
  }

  lemma SourceNames(list: BuddyList, source: Node, dest: Node)
    requires Filed(list)
    ensures forall a, b :: a in list.owner && b in list.owner && a != b && list.owner[a] == list.owner[b] == source ==>
              KeyOf(list, a, dest) != KeyOf(list, b, dest)
  {
    forall a, b | a in list.owner && b in list.owner && a != b && list.owner[a] == list.owner[b] == source
      ensures KeyOf(list, a, dest) != KeyOf(list, b, dest)
    {
      NamesDiffer(list, a, b, source, dest);
    }
  }

  lemma BeforeGroupMerge(list: BuddyList, source: Node, dest: Node)
    requires Sound(list) && source != dest && list.Listed(source) && list.Listed(dest)
    requires source.kind == GroupNode && dest.kind == GroupNode
    ensures var v := ViewOf(list);
            && (forall lost :: GroupMergeOf(v, source, dest, lost).Suits(v))
            && (Filed(list) ==> Joins(list, v, GroupMergeOf(v, source, dest, TwinsFor(list, dest))))
            && source in list.kids && dest in list.kids
            && source.child == (if v.At(source) == [] then null else v.At(source)[0])
  {
    hide *;
    BeforeTop(list, source);
    BeforeTop(list, dest);
    GroupChildren(list, source);
    GroupChildren(list, dest);
    forall lost ensures GroupMergeOf(ViewOf(list), source, dest, lost).Suits(ViewOf(list)) {
      AssembleGroupMerge(list, source, dest, lost);
    }
    FirstOf(list, source);
    if Filed(list) {
      SourceNames(list, source, dest);
      AssembleJoins(list, source, dest);
    }
  }

  lemma AssembleJoins(list: BuddyList, source: Node, dest: Node)
    requires source in list.kids && dest in list.kids
    requires GroupMergeOf(ViewOf(list), source, dest, TwinsFor(list, dest)).Suits(ViewOf(list))
    requires forall a, b :: a in list.owner && b in list.owner && a != b && list.owner[a] == list.owner[b] == source ==>
               KeyOf(list, a, dest) != KeyOf(list, b, dest)
    ensures Joins(list, ViewOf(list), GroupMergeOf(ViewOf(list), source, dest, TwinsFor(list, dest)))
  {
    var v, m := ViewOf(list), GroupMergeOf(ViewOf(list), source, dest, TwinsFor(list, dest));
    forall c, b | c in v.kids && c in m.s && b in v.kids[c] ensures NoTwin(list, v.owner, b, m.dest) <==>
        b !in m.lost {
      TwinsOf(list, dest, c, b);
    }
    hide GroupMerge.Suits, NoTwin, KeyOf, TwinsFor;
  }

  lemma GroupMergeIs(v: View, source: Node, dest: Node, lost: set<Node>)
    ensures GroupMergeOf(v, source, dest, lost) == GroupMerge(source, v.At(source), dest, v.At(dest), lost)
  {
  }

  /** The list after the merge: the source is gone. */
  ghost function Merged(v: View, m: GroupMerge): View {
    var w := m.Stage(v, |m.s|);
    View(w.kids[null := Minus(v.At(null), m.source)] - {m.source}, w.owner, w.live - {m.source}, {})
  }

  lemma MergedIs(v: View, m: GroupMerge)
    requires m.Suits(v)
    ensures var w := m.Stage(v, |m.s|);
            && w.At(m.source) == [] && w.At(null) == v.At(null) && m.source in w.kids && null in w.kids
            && Merged(v, m) == View(w.kids[null := Minus(w.At(null), m.source)] - {m.source}, w.owner,
                w.live - {m.source}, {})
  {
    assert m.s[|m.s|..] == [];
    var n: Node? := null;
    assert n !in m.s[..|m.s|];
  }

  /** The state before the loop of the merge. */
  lemma SetsOff(list: BuddyList, source: Node, dest: Node, e: Outset)
    requires Sound(list) && source != dest && list.Listed(source) && list.Listed(dest)
    requires source.kind == GroupNode && dest.kind == GroupNode && list.collate(dest.name) in list.groupsCache
    requires e == Outset(ViewOf(list), list.drift, OrderOf(list), source.destroyed, dest.destroyed,
      TwinsFor(list, dest))
    ensures MovedUpTo(list, GroupMergeOf(ViewOf(list), source, dest, {}), e, 0)
  {
    hide *;
    var m := GroupMergeOf(ViewOf(list), source, dest, {});
    BeforeGroupMerge(list, source, dest);
    GroupMergeIs(e.v, source, dest, {});
    GroupMergeIs(e.v, source, dest, e.twins);
    m.Start(e.v);
    m.MovedNone(e.v);
    NoneEarlyPlus(list, {}, {});
    PassedNone(list.drift);
    IsSound(list);
    AtLeastIs(e.order, e.order.(buddies := 1));
    TwinnedIs(m, e);
    IsValid(list);
    OrderlyUpToIs(list, m, e, 0);
    MovedUpToIs(list, m, e, 0);
  }

  /** What the loop comes to, in terms of what was lost. */
  lemma MergeComes(list: BuddyList, m: GroupMerge, e: Outset)
    requires MovedUpTo(list, m, e, |m.s|)
    ensures Sound(list) && m.Suits(e.v) && ViewOf(list) == m.Stage(e.v, |m.s|) && m.AllSurvive(e.v)
    ensures Passed(e.drift, list.drift, NoneEarly(list, m.lost)) &&
      OffAt(list.drift, m.source) == OffAt(e.drift, m.source)
    ensures m.lost <= m.Moved(e.v, |m.s|) && m.dest.destroyed == e.ofDest
    ensures OrderOf(list).AtLeast(e.order.(buddies := 1))
    ensures e.order.Full() ==> OrderOf(list).Full() && m.lost == e.twins * m.Moved(e.v, |m.s|)
    ensures e.order.Full() ==> Twinned(m, e).AllSurvive(e.v)
  {
    hide *;
    MovedUpToIs(list, m, e, |m.s|);
    OrderlyUpToIs(list, m, e, |m.s|);
    m.AllSurviveIs(e.v);
    TwinnedIs(m, e);
    Twinned(m, e).AllSurviveIs(e.v);
    if e.order.Full() {
      m.SameLost(e.v, |m.s|, Twinned(m, e));
    }
  }

  lemma MergeStops(list: BuddyList, m: GroupMerge, e: Outset, i: nat)
    requires i < |m.s| && FreedAt(list, m, e, i)
    ensures Sound(list) && m.Suits(e.v) && !m.AllSurvive(e.v) && m.lost <= m.Moved(e.v, i + 1)
    ensures m.source.destroyed == e.ofSource + 1 && m.dest.destroyed == e.ofDest
    ensures OrderOf(list).AtLeast(e.order.(buddies := 1))
    ensures e.order.Full() ==> OrderOf(list).Full() && !Twinned(m, e).AllSurvive(e.v)
  {
    hide *;
    FreedAtIs(list, m, e, i);
    OrderlyUpToIs(list, m, e, i + 1);
    m.AllSurviveIs(e.v);
    TwinnedIs(m, e);
    Twinned(m, e).AllSurviveIs(e.v);
    if e.order.Full() {
      m.SameLost(e.v, i + 1, Twinned(m, e));
    }
  }

  /** Renaming a group to the name of another one merges the two, unless a contact
      vanishes on its way: that one is read after it was freed. `lost` are the
      buddies that were not let in. */
  method MergeGroups(list: BuddyList, source: Node, dest: Node) returns (stuck: Node?, ghost lost: set<Node>)
    requires Sound(list) && source != dest && list.Listed(source) && list.Listed(dest)
    requires source.kind == GroupNode && dest.kind == GroupNode && list.collate(dest.name) in list.groupsCache
    modifies list`root, list`gone, list`kids, list`live, list`buddies, list`caches, list`owner, list`drift,
      list`groupsCache
    modifies list.live`prev, list.live`next, list.live`parent, list.live`child, list.live`priorityValid
    modifies list.live`totalsize, list.live`currentsize, list.live`online, source`destroyed, dest`destroyed
    ensures list.caches.Keys == old(list.caches).Keys && dest.destroyed == old(dest.destroyed)
    ensures lost <= Below(old(ViewOf(list)), old(ViewOf(list)).At(source))
    ensures stuck == null <==> GroupMergeOf(old(ViewOf(list)), source, dest, lost).AllSurvive(old(ViewOf(list)))
    ensures stuck == null ==>
      ViewOf(list) == Merged(old(ViewOf(list)), GroupMergeOf(old(ViewOf(list)), source, dest, lost))
    ensures stuck != null ==>
      stuck in old(ViewOf(list).At(source)) && stuck !in list.live && source.destroyed == old(source.destroyed) + 1
    ensures stuck == null && old(Exact(list.drift)) ==> (Exact(list.drift) <==> NoneEarly(list, lost))
    ensures OrderOf(list).AtLeast(old(OrderOf(list)).(buddies := 1))
    ensures old(OrderOf(list)).Full() ==>
      OrderOf(list).Full() && (stuck == null <==> old(AllSurvive(list, source, dest)))
    ensures old(OrderOf(list)).Full() && stuck == null ==> lost == old(LostOf(list, source, dest))
    ensures Sound(list)
  {
    hide *;
    ghost var v, drift := ViewOf(list), list.drift;
    ghost var e := Outset(v, list.drift, OrderOf(list), source.destroyed, dest.destroyed, TwinsFor(list, dest));
    BeforeGroupMerge(list, source, dest);
    SetsOff(list, source, dest, e);
    GroupMergeIs(v, source, dest, {});
    GroupMergeIs(v, source, dest, e.twins);
    SurvivalIs(list, source, dest);
    LostOfIs(list, source, dest);
    assert MovedUpTo(list, GroupMergeOf(v, source, dest, {}), e, 0);
    var last := LastChild(list, dest);
    ghost var m;
    stuck, m := MoveAllOver(list, source, dest, last, GroupMergeOf(v, source, dest, {}), e);
    lost := m.lost;
    GroupMergeIs(v, source, dest, lost);
    TwinnedIs(m, e);
    if stuck != null {
      ghost var i: nat :| 0 <= i < |m.s| && stuck == m.s[i] && FreedAt(list, m, e, i);
      MergeStops(list, m, e, i);
      m.MovedWithin(v, i + 1);
      return;
    }
    MergeComes(list, m, e);
    m.MovedWithin(v, |m.s|);
    m.MovedIsBelow(v);
    ghost var mid := OrderOf(list);
    FinishMerge(list, source, m, e);
    AtLeastTwice(OrderOf(list), mid, e.order.(buddies := 1));
    StaysFull(list, mid);
  }

  lemma LostOfIs(list: BuddyList, source: Node, dest: Node)
    ensures LostOf(list, source, dest) == TwinsFor(list, dest) * Below(ViewOf(list), ViewOf(list).At(source))
  {
  }

  /** The empty group goes. */
  method FinishMerge(list: BuddyList, source: Node, ghost m: GroupMerge, ghost e: Outset)
    requires Sound(list) && m.Suits(e.v) && ViewOf(list) == m.Stage(e.v, |m.s|) && source == m.source
    requires Passed(e.drift, list.drift, NoneEarly(list, m.lost)) && OffAt(list.drift, source) == OffAt(e.drift, source)
    modifies list`root, list`gone, list`kids, list`live, list`groupsCache, list`drift, list.live`prev, list.live`next,
      list.live`child
    ensures ViewOf(list) == Merged(e.v, m) && OrderOf(list).AtLeast(old(OrderOf(list)))
    ensures Exact(e.drift) ==> (Exact(list.drift) <==> NoneEarly(list, m.lost))
    ensures Sound(list)
  {
    hide *;
    MergedIs(e.v, m);
    SuitsKinds(e.v, m);
    ViewIs(list, source);
    SoundParts(list, null);
    GroupsAreListed(list, source);
    ExactlyWithout(e.drift, list.drift, source, NoneEarly(list, m.lost));
    RemoveGroup(list, source);
  }

  /** Removing a group whose counter is right. */
  lemma ExactlyWithout(drift: map<Node, int>, drift': map<Node, int>, g: Node, none: bool)
    requires Passed(drift, drift', none) && OffAt(drift', g) == OffAt(drift, g)
    ensures Exact(drift) ==> (Exact(drift' - {g}) <==> none) && (Exact(drift') <==> none)
  {
    if Exact(drift) && Exact(drift' - {g}) {
      forall n | n in drift' ensures drift'[n] == 0 {
        if n != g {
          assert (drift' - {g})[n] == drift'[n];
        }
      }
    }
  }

  /** The group a rename merges into: another one of that name, unless the names differ in case only. */
  ghost function MergesInto(list: BuddyList, g: Node, name: string): (dest: Node?)
    reads list`groupsCache, g`name, list.groupsCache.Values`name
  {
    var k := list.collate(name);
    if name != "" && name != g.name && k in list.groupsCache && !list.sameFolded(g.name, list.groupsCache[k].name)
    then list.groupsCache[k] else null
  }

  lemma DestIs(list: BuddyList, g: Node, name: string)
    requires Sound(list) && list.Listed(g) && g.kind == GroupNode && (forall x :: list.sameFolded(x, x))
    ensures var dest := MergesInto(list, g, name);
            && (dest != null ==>
                  dest != g && list.Listed(dest) && dest.kind == GroupNode &&
                      list.collate(dest.name) in list.groupsCache)
            && dest == if name != "" && name != g.name && list.collate(name) in list.groupsCache
                          && !list.sameFolded(g.name, list.groupsCache[list.collate(name)].name)
                       then list.groupsCache[list.collate(name)] else null
  {
    hide *;
    MergesIntoIs(list, g, name);
    if list.collate(name) in list.groupsCache {
      FoundGroupIsListed(list, name);
      NamedGroup(list, list.groupsCache[list.collate(name)]);
    }
  }

  lemma MergesIntoIs(list: BuddyList, g: Node, name: string)
    ensures MergesInto(list, g, name) ==
      if name != "" && name != g.name && list.collate(name) in list.groupsCache
         && !list.sameFolded(g.name, list.groupsCache[list.collate(name)].name)
      then list.groupsCache[list.collate(name)] else null
  {
  }

  /** `purple_blist_rename_group`. A merge keeps the list sound but goes on with a
      contact that was freed exactly if not all survive; a simple rename keeps the
      table of groups in order exactly when no other group is filed under the new name. */
  method RenameGroup(list: BuddyList, g: Node, name: string) returns (stuck: Node?, ghost lost: set<Node>)
    requires Sound(list) && list.Listed(g) && g.kind == GroupNode && (forall x :: list.sameFolded(x, x))
    modifies list`root, list`gone, list`kids, list`live, list`buddies, list`caches, list`owner, list`drift,
      list`groupsCache
    modifies list.live`prev, list.live`next, list.live`parent, list.live`child, list.live`priorityValid, g`name
    modifies list.live`totalsize, list.live`currentsize, list.live`online, g`destroyed
    modifies (if MergesInto(list, g, name) == null then {} else {MergesInto(list, g, name)})`destroyed
    ensures list.caches.Keys == old(list.caches).Keys
    ensures g.name == if name == "" || old(MergesInto(list, g, name)) != null then old(g.name) else name
    ensures old(MergesInto(list, g, name)) == null ==>
      && stuck == null && ViewOf(list) == old(ViewOf(list)) && list.drift == old(list.drift)
      && g.destroyed == old(g.destroyed)
      && OrderOf(list) == old(OrderOf(list)).(groups := OrderOf(list).groups)
      && (old(OrderOf(list)).groups == 2 ==>
            (OrderOf(list).groups == 2 <==>
               var k := list.collate(name);
               || name == "" || name == old(g.name)
               || (k in old(list.groupsCache) ==> old(list.groupsCache)[k] == g)))
    ensures var dest, v := old(MergesInto(list, g, name)), old(ViewOf(list));
            dest != null ==>
              && lost <= Below(v, v.At(g)) && OrderOf(list).AtLeast(old(OrderOf(list)).(buddies := 1))
              && (stuck == null <==> GroupMergeOf(v, g, dest, lost).AllSurvive(v))
              && (stuck == null ==> ViewOf(list) == Merged(v, GroupMergeOf(v, g, dest, lost)))
              && (stuck != null ==> stuck in v.At(g) && stuck !in list.live && g.destroyed == old(g.destroyed) + 1)
              && dest.destroyed == old(dest.destroyed)
              && (stuck == null && old(Exact(list.drift)) ==> (Exact(list.drift) <==> NoneEarly(list, lost)))
    ensures var dest := old(MergesInto(list, g, name));
            dest != null && old(OrderOf(list)).Full() ==>
              && OrderOf(list).Full() && (stuck == null <==> old(AllSurvive(list, g, dest)))
              && (stuck == null ==> lost == old(LostOf(list, g, dest)))
    ensures Sound(list)
  {
    hide *;
    DestIs(list, g, name);
    SameOrder(list);
    stuck, lost := null, {};
    if name == "" || name == g.name {
      return;
    }
    var dest := FindGroup(list, name);
    if dest != null && !list.sameFolded(g.name, dest.name) {
      stuck, lost := MergeGroups(list, g, dest);
    } else {
      RenameInPlace(list, g, name);
    }
  }

  lemma SameOrder(list: BuddyList)
    ensures OrderOf(list) == OrderOf(list).(groups := OrderOf(list).groups)
  {
  }
}
