/** The core of `purple_blist_add_buddy`: a buddy leaves its contact, if it has one, and joins another.
    Most bodies below hide every definition; the short lemmas called `...Is` and
    `...Parts` give back the single definition that a step needs. */
module BuddyAdd {
  import opened Lists
  import opened BuddyTree
  import opened BuddyCounts
  import opened BuddyIndex
  import opened BuddyState
  import opened BuddyRemove
  import opened BuddyValid

  /** The group that `b` is in, if any. */
  ghost function GroupOf(b: Node): (g: Node?)
    reads b`parent, (if b.parent == null then {} else {b.parent})`parent
    ensures g == if b.parent == null then null else b.parent.parent
  {
    if b.parent == null then null else b.parent.parent
  }

  lemma RankedEmptied(list: BuddyList, ks: Kids, c: Node)
    requires RankedIn(list, ks)
    ensures RankedIn(list, ks[c := []])
  {
  }

  /** `b` is a listed buddy, filed under its group. */
  ghost predicate InList(list: BuddyList, b: Node)
    reads list`kids, list`owner, b`parent
    reads (if b.parent == null then {} else {b.parent})`parent
  {
    && list.Listed(b) && b.kind == BuddyNode && b.parent != null && b.parent.parent != null
    && FiledUnder(list, b, b.parent.parent)
  }

  lemma BeforeLeaveContact(list: BuddyList, b: Node)
    requires Coherent(list) && list.gone == {} && InList(list, b)
    ensures Tree(list) && Ranked(list) && Cached(list)
    ensures list.Listed(b) && b.kind == BuddyNode && b in list.live && b !in list.kids
    ensures b in list.owner && list.owner[b] == b.parent.parent
    ensures Homed(list, b, b.parent.parent)
    ensures b.parent in list.kids && b.parent in list.live && b.parent.kind == ContactNode && b in list.kids[b.parent]
    ensures b.parent.parent in list.kids && b.parent.parent in list.live && b.parent != b.parent.parent && b != b.parent
    ensures Minus(list.kids[b.parent], b) == [] <==> list.kids[b.parent] == [b]
  {
    HomeOf(list, b);
    FamilyOf(list, b.parent);
  }

  /** The view after a buddy left its contact but kept its memory and, within
      one group, its place on file. */
  ghost function OutOfContact(v: View, g0: Node?, c0: Node?, b: Node, g: Node): View {
    var w := v.MinusBuddy(g0, c0, b);
    View(w.kids, if g0 == g then w.owner[b := g] else w.owner, w.live + {b}, w.gone)
  }

  lemma OutOfContactIs(v: View, g0: Node, c0: Node, b: Node, g: Node)
    requires g0 in v.kids && c0 in v.kids && g0 != c0 && b != c0 && b in v.kids[c0] && v.gone == {}
    requires b in v.live && b in v.owner && v.owner[b] == g0
    requires Minus(v.kids[c0], b) == [] <==> v.kids[c0] == [b]
    ensures var w := View(v.kids[c0 := Minus(v.kids[c0], b)], if g0 == g then v.owner else v.owner - {b}, v.live, {});
            OutOfContact(v, g0, c0, b, g) == if Minus(v.kids[c0], b) == [] then w.MinusContact(g0, c0) else w
  {
    MinusBuddyIs(v, g0, c0, b);
    hide View.MinusBuddy, Minus;
    assert g0 == g ==> (v.owner - {b})[b := g] == v.owner;
    assert v.live - {b} + {b} == v.live;
    if Minus(v.kids[c0], b) == [] {
      assert Elements(v.kids[c0 := []][c0]) == {};
      assert v.live - {b} - {c0} + {b} == v.live - {c0};
    }
  }

  /** The contact `c0` that a buddy left: emptied, it is removed, otherwise its priority is forgotten. */
  method TidyContact(list: BuddyList, c0: Node, g0: Node, ghost ks: Kids, ghost s: seq<Node>)
    requires Tree(list) && Cached(list) && RankedIn(list, ks) && list.gone == {}
    requires c0 in list.kids && c0 in list.live && c0.kind == ContactNode && c0.parent == g0 && list.kids == ks[c0 := s]
    modifies list`root, list`gone, list`kids, list`live, list`buddies, list`caches, list`owner, list`drift
    modifies list.live`prev, list.live`next, list.live`child, list.live`priorityValid
    modifies list.live`totalsize, list.live`currentsize, list.live`online, g0`destroyed
    ensures Coherent(list) && list.caches.Keys == old(list.caches).Keys && list.live <= old(list.live)
    ensures g0.destroyed == old(g0.destroyed) + if s == [] then 1 else 0
    ensures ViewOf(list) == if s == [] then old(ViewOf(list)).MinusContact(g0, c0) else old(ViewOf(list))
    ensures list.drift == if s == [] then DriftDropped(old(list.drift), g0, c0) else old(list.drift)
    ensures list.buddies == old(list.buddies) && Trust(list) >= old(Trust(list))
  {
    hide *;
    HasChild(list, c0);
    RankedEmptied(list, ks, c0);
    ViewIs(list, c0);
    if c0.child == null {
      IsRanked(list);
      CoherentParts(list);
      EmptyIsOnFile(list, c0);
      KeysInHead(list, [], g0);
      EarliesNone(list, list.drift, c0);
      RemoveContact(list, c0);
    } else {
      Invalidate(list, c0, ks, s);
      IsRanked(list);
      CoherentParts(list);
      ViewIs(list, c0);
    }
  }

  /** The block of `purple_blist_add_buddy` for a buddy that is in the list
      already: it leaves its contact on its way to the group `g`. */
  method LeaveContact(list: BuddyList, b: Node, g: Node)
    requires Coherent(list) && list.gone == {} && InList(list, b)
    modifies list`root, list`gone, list`kids, list`live, list`buddies, list`caches, list`owner, list`drift
    modifies list.live`prev, list.live`next, list.live`child, list.live`priorityValid
    modifies list.live`totalsize, list.live`currentsize, list.live`online, b.parent.parent`destroyed
    ensures Coherent(list) && list.caches.Keys == old(list.caches).Keys && list.live <= old(list.live)
    ensures b.parent.parent.destroyed ==
      old(b.parent.parent.destroyed) + if old(ViewOf(list)).At(b.parent) == [b] then 1 else 0
    ensures b.parent != null && ViewOf(list) == OutOfContact(old(ViewOf(list)), b.parent.parent, b.parent, b, g)
    ensures list.drift == DriftWithout(old(list.drift), b.parent.parent, b.parent, Early(list, b),
      old(ViewOf(list)).At(b.parent) == [b])
    ensures list.buddies == Unnamed(list, old(list.buddies), b, b.parent.parent, g)
    ensures Trust(list) >= old(Trust(list))
  {
    hide *;
    BeforeLeaveContact(list, b);
    var c0 := b.parent;
    var g0 := c0.parent;
    ViewIs(list, c0);
    OutOfContactIs(ViewOf(list), g0, c0, b, g);
    ghost var ks := list.kids;
    CoherentParts(list);
    DriftWithoutIs(list.drift, g0, c0, Early(list, b));
    GoOut(list, b, c0, g0, g);
    ViewIs(list, c0);
    TidyContact(list, c0, g0, ks, Minus(ks[c0], b));
  }

  /** A buddy leaves its contact `c0` and, on its way to another group, the file of `g0`. */
  method GoOut(list: BuddyList, b: Node, c0: Node, g0: Node, g: Node)
    requires Tree(list) && Ranked(list) && Cached(list) && list.gone == {}
    requires list.Listed(b) && b.kind == BuddyNode && b.parent == c0 && c0.parent == g0 && Homed(list, b, g0)
    modifies list`root, list`gone, list`kids, list`buddies, list`caches, list`owner, list`drift
    modifies list.live`prev, list.live`next, list.live`child, list.live`totalsize, list.live`currentsize,
      list.live`online
    ensures Tree(list) && RankedIn(list, old(list.kids)) && Cached(list) && list.gone == {} &&
      list.caches.Keys == old(list.caches).Keys
    ensures c0 in old(list.kids) && list.kids == old(list.kids)[c0 := Minus(old(list.kids)[c0], b)]
    ensures list.drift == Shift(old(list.drift), c0, if Early(list, b) then 1 else 0)
    ensures list.owner == if g0 == g then old(list.owner) else old(list.owner) - {b}
    ensures list.buddies == Unnamed(list, old(list.buddies), b, g0, g)
    ensures Trust(list) >= old(Trust(list))
  {
    hide *;
    IsRanked(list);
    UnnamedIs(list, list.buddies, b, g0, g);
    Detach(list, b, c0, g0);
    if g0 != g {
      Unfile(list, b, g0);
    }
  }

  /** The table after `b` left the group `g0` for `g`. */
  function Unnamed(list: BuddyList, buddies: map<Key, Node>, b: Node, g0: Node?, g: Node): map<Key, Node>
    reads b`name
  {
    if g0 == null || g0 == g then buddies else buddies - {KeyOf(list, b, g0)}
  }

  lemma UnnamedIs(list: BuddyList, buddies: map<Key, Node>, b: Node, g0: Node?, g: Node)
    ensures g0 == null || g0 == g ==> Unnamed(list, buddies, b, g0, g) == buddies
    ensures g0 != null && g0 != g ==> Unnamed(list, buddies, b, g0, g) == buddies - {KeyOf(list, b, g0)}
  {
  }

  /** What the rest needs to know: `b` can join the contact `c` behind `prev`. */
  ghost predicate CanJoin(list: BuddyList, b: Node, c: Node, prev: Node?)
    reads list`kids, list`live, list`gone, list`owner, list`caches, b`parent, c`parent
  {
    && list.gone == {} && b in list.live && b.kind == BuddyNode && !list.Listed(b)
    && b.account in list.caches
    && c in list.kids && c.kind == ContactNode && (prev == null || prev in list.kids[c])
    && c.parent != null && (b in list.owner ==> list.owner[b] == c.parent)
  }

  lemma BeforeJoinContact(list: BuddyList, b: Node, c: Node, prev: Node?)
    requires Coherent(list) && CanJoin(list, b, c, prev)
    ensures Tree(list) && RankedIn(list, list.kids) && Cached(list)
    ensures list.gone == {} && b in list.live && b.kind == BuddyNode && !list.Listed(b) && b.account in list.caches
    ensures c in list.kids && c in list.live && c.kind == ContactNode &&
      (prev == null || prev in list.kids[c]) && b != c
    ensures c.parent != null && c.parent in list.live && (b in list.owner ==> list.owner[b] == c.parent)
  {
    FamilyOf(list, c);
  }

  /** No other buddy has the name and account of `b` in the group `g`. */
  ghost predicate FreeIn(list: BuddyList, b: Node, g: Node)
    reads list`buddies, b`name
  {
    KeyOf(list, b, g) in list.buddies ==> list.buddies[KeyOf(list, b, g)] == b
  }

  /** `b` joins the contact `c`, whose priority is forgotten. */
  method PutIn(list: BuddyList, b: Node, c: Node, prev: Node?)
    requires Tree(list) && RankedIn(list, list.kids) && list.gone == {} && b in list.live && b.kind == BuddyNode
    requires !list.Listed(b) && c in list.kids && c in list.live && c.kind == ContactNode &&
      (prev == null || prev in list.kids[c])
    modifies list`root, list`kids, list.live`prev, list.live`next, list.live`child, b`parent
    modifies list.live`totalsize, list.live`currentsize, list.live`online, c`priorityValid, list`drift
    ensures Tree(list) && Ranked(list) && b.parent == c
    ensures list.drift == Shift(old(list.drift), c, if Early(list, b) then -1 else 0)
    ensures list.kids == old(list.kids)[c := InsertAt(old(list.kids)[c], After(old(list.kids)[c], prev), b)]
  {
    hide *;
    ghost var ks := list.kids;
    Attach(list, b, c, prev);
    Invalidate(list, c, ks, list.kids[c]);
    IsRanked(list);
  }

  /** The last block of `purple_blist_add_buddy`. The index stays right exactly
      when no other buddy of the group has the same account and name. */
  method JoinContact(list: BuddyList, b: Node, c: Node, g: Node, prev: Node?)
    requires Coherent(list) && CanJoin(list, b, c, prev) && c.parent == g
    modifies list`root, list`kids, list`buddies, list`caches, list`owner, list`drift, b`parent
    modifies list.live`prev, list.live`next, list.live`child, list.live`priorityValid
    modifies list.live`totalsize, list.live`currentsize, list.live`online
    ensures Tree(list) && Ranked(list) && Cached(list) && list.caches.Keys == old(list.caches).Keys
    ensures b.parent == c && (old(Trust(list)) == 2 ==> (Trust(list) == 2 <==> old(FreeIn(list, b, g))))
    ensures old(Trust(list)) >= 1 ==> Trust(list) >= 1
    ensures list.drift == Shift(old(list.drift), c, if Early(list, b) then -1 else 0)
    ensures list.buddies == old(list.buddies)[KeyOf(list, b, g) := b]
    ensures list.kids == old(list.kids)[c := InsertAt(old(list.kids)[c], After(old(list.kids)[c], prev), b)]
    ensures list.owner == old(list.owner)[b := g]
  {
    hide *;
    BeforeJoinContact(list, b, c, prev);
    PutIn(list, b, c, prev);
    PutOnFile(list, b, g);
  }

  /** The same, as a change of the view. */
  method JoinInView(list: BuddyList, b: Node, c: Node, g: Node, prev: Node?)
    requires Coherent(list) && CanJoin(list, b, c, prev) && c.parent == g
    modifies list`root, list`kids, list`buddies, list`caches, list`owner, list`drift, b`parent
    modifies list.live`prev, list.live`next, list.live`child, list.live`priorityValid
    modifies list.live`totalsize, list.live`currentsize, list.live`online
    ensures Tree(list) && Ranked(list) && Cached(list) && list.caches.Keys == old(list.caches).Keys
    ensures b.parent == c && (old(Trust(list)) == 2 ==> (Trust(list) == 2 <==> old(FreeIn(list, b, g))))
    ensures old(Trust(list)) >= 1 ==> Trust(list) >= 1
    ensures list.drift == Shift(old(list.drift), c, if Early(list, b) then -1 else 0)
    ensures list.buddies == old(list.buddies)[KeyOf(list, b, g) := b]
    ensures prev == null || prev in old(ViewOf(list)).At(c)
    ensures ViewOf(list) == old(ViewOf(list)).PlusBuddy(g, c, prev, b)
  {
    hide *;
    BeforeJoinContact(list, b, c, prev);
    ghost var v := ViewOf(list);
    ViewIs(list, c);
    JoinContact(list, b, c, g, prev);
    JoinedView(list, v, b, c, g, prev);
  }

  lemma JoinedView(list: BuddyList, v: View, b: Node, c: Node, g: Node, prev: Node?)
    requires c in v.kids && (prev == null || prev in v.kids[c]) && b in v.live && v.gone == list.gone
    requires list.kids == v.kids[c := InsertAt(v.kids[c], After(v.kids[c], prev), b)]
    requires list.owner == v.owner[b := g] && list.live == v.live
    ensures (prev == null || prev in v.At(c)) && ViewOf(list) == v.PlusBuddy(g, c, prev, b)
  {
    hide InsertAt, After;
    assert v.live + {b} == v.live;
  }

  /** `b` is filed; nothing else changes. */
  method PutOnFile(list: BuddyList, b: Node, g: Node)
    requires Tree(list) && Ranked(list) && Cached(list) && b.account in list.caches &&
      (b in list.owner ==> list.owner[b] == g)
    modifies list`buddies, list`caches, list`owner
    ensures Tree(list) && Ranked(list) && Cached(list) && list.caches.Keys == old(list.caches).Keys
    ensures list.owner == old(list.owner)[b := g] && list.buddies == old(list.buddies)[KeyOf(list, b, g) := b]
    ensures old(Trust(list)) == 2 ==> (Trust(list) == 2 <==> old(FreeIn(list, b, g)))
    ensures old(Trust(list)) >= 1 ==> Trust(list) >= 1
  {
    hide *;
    FreeInIs(list, b, g);
    File(list, b, g);
  }

  lemma FreeInIs(list: BuddyList, b: Node, g: Node)
    ensures FreeIn(list, b, g) <==> (KeyOf(list, b, g) in list.buddies ==> list.buddies[KeyOf(list, b, g)] == b)
  {
  }

  /** Nobody else on file has the account and name of `b` in the group `g`. */
  ghost predicate NoTwin(list: BuddyList, owner: map<Node, Node>, b: Node, g: Node)
    reads owner.Keys`name, b`name
  {
    forall x :: x in owner && x != b ==> KeyOf(list, x, owner[x]) != KeyOf(list, b, g)
  }

  lemma FreeIsNoTwin(list: BuddyList, b: Node, g: Node)
    requires Filed(list)
    ensures FreeIn(list, b, g) <==> NoTwin(list, list.owner, b, g)
  {
    var k := KeyOf(list, b, g);
    forall x | x in list.owner ensures LookupFinds(list, x, KeyOf(list, x, list.owner[x])) {
      assert Keys(list)[x] == KeyOf(list, x, list.owner[x]);
    }
    if k in list.buddies {
      var y := list.buddies[k];
      assert y in list.owner && KeyOf(list, y, list.owner[y]) == Keys(list)[y] == k;
    }
  }

  ghost predicate LookupFinds(list: BuddyList, b: Node, k: Key)
    reads list`buddies
  {
    k in list.buddies && list.buddies[k] == b
  }

  lemma NoTwinSame(list: BuddyList, owner: map<Node, Node>, owner': map<Node, Node>, b: Node, g: Node)
    requires owner - {b} == owner' - {b}
    ensures NoTwin(list, owner, b, g) <==> NoTwin(list, owner', b, g)
  {
    assert forall x :: x in owner && x != b ==> x in owner - {b} && owner[x] == (owner - {b})[x];
    assert forall x :: x in owner' && x != b ==> x in owner' - {b} && owner'[x] == (owner' - {b})[x];
  }

  /** The buddy `b`, new or listed elsewhere, can be put into the contact `c` of the group `g`. */
  ghost predicate CanPlace(list: BuddyList, b: Node, c: Node, g: Node, prev: Node?)
    reads list`kids, list`live, list`owner, list`caches, b`parent, c`parent
    reads (if b.parent == null then {} else {b.parent})`parent
  {
    && b.kind == BuddyNode && b in list.live && b.account in list.caches
    && c in list.kids && c.kind == ContactNode && c.parent == g
    && prev != b && (prev == null || prev in list.kids[c])
    && (if b.parent != null then InList(list, b) else !list.Listed(b) && b !in list.owner)
    && !(b.parent == c && list.kids[c] == [b])
  }

  /** The tree without `b`, which may be in the contact `c0` of the group `g0`. */
  ghost function Lifted(v: View, g0: Node?, c0: Node?, b: Node): View {
    if c0 == null then v else v.MinusBuddy(g0, c0, b)
  }

  /** The same on the way to the group `g`: the buddy is not freed, and within one group it stays on file. */
  ghost function Carried(v: View, g0: Node?, c0: Node?, b: Node, g: Node): View {
    if c0 == null then v else OutOfContact(v, g0, c0, b, g)
  }

  /** Where `b` comes from: nowhere, or the contact `c0` of the group `g0`. */
  ghost predicate ComesFrom(v: View, g0: Node?, c0: Node?, b: Node) {
    if c0 == null then (forall p :: p in v.kids ==> b !in v.kids[p]) && b !in v.owner && b !in v.kids
    else Stands(v, g0, c0, b)
  }

  /** Leaving first and joining then comes to the same as lifting `b` out of the tree and putting it in. */
  ghost predicate Fitting(v: View, g0: Node?, c0: Node?, b: Node, g: Node, c: Node, prev: Node?) {
    var x := Lifted(v, g0, c0, b);
    && c in x.kids && x.At(c) == x.kids[c] &&
        (prev == null || (prev in x.kids[c] && prev in Carried(v, g0, c0, b, g).At(c)))
    && Carried(v, g0, c0, b, g).PlusBuddy(g, c, prev, b) == x.PlusBuddy(g, c, prev, b)
  }

  lemma FittingIs(v: View, g0: Node?, c0: Node?, b: Node, g: Node, c: Node, prev: Node?)
    requires Fitting(v, g0, c0, b, g, c, prev)
    ensures var x := Lifted(v, g0, c0, b);
            && c in x.kids && x.At(c) == x.kids[c] &&
                (prev == null || (prev in x.kids[c] && prev in Carried(v, g0, c0, b, g).At(c)))
            && Carried(v, g0, c0, b, g).PlusBuddy(g, c, prev, b) == x.PlusBuddy(g, c, prev, b)
  {
  }

  /** The contact a buddy goes to survives its leaving the old one. */
  lemma CarriedKeeps(v: View, g0: Node?, c0: Node?, b: Node, g: Node, c: Node, prev: Node?)
    requires ComesFrom(v, g0, c0, b) && c in v.kids && c.kind == ContactNode
    requires prev != b && (prev == null || prev in v.kids[c]) && !(c0 == c && v.kids[c] == [b])
    ensures var w := Carried(v, g0, c0, b, g);
            && c in w.kids && (prev == null || prev in w.kids[c])
            && (b in w.owner ==> w.owner[b] == g) && w.owner - {b} == v.owner - {b}
            && (v.gone == {} ==> w.gone == {}) && (b in v.live ==> b in w.live)
    ensures Fitting(v, g0, c0, b, g, c, prev)
  {
    var x, w := Lifted(v, g0, c0, b), Carried(v, g0, c0, b, g);
    if c0 != null {
      assert v.At(c0) == [b] ==> Elements(v.At(c0)) == {b} && c != c0;
      assert x.owner == v.owner - {b};
      assert w.owner[b := g] == x.owner[b := g];
      assert w.live + {b} == x.live + {b};
    }
  }

  lemma LiftedIsFree(v: View, g0: Node?, c0: Node?, b: Node)
    requires ComesFrom(v, g0, c0, b)
    ensures forall p :: p in Lifted(v, g0, c0, b).kids ==> b !in Lifted(v, g0, c0, b).kids[p]
    ensures Lifted(v, g0, c0, b).At(null) == v.At(null)
    ensures forall x :: x in Lifted(v, g0, c0, b).owner ==> x in v.owner
    ensures v.gone == {} ==> Lifted(v, g0, c0, b).gone == {}
  {
    if c0 != null {
      MinusIsDistinct(v.kids[c0], b);
    }
  }

  lemma ComesFromIs(list: BuddyList, b: Node)
    requires list.Linked() && Shaped(list.kids) && list.Rooted() && b.kind == BuddyNode
    requires if b.parent != null then list.Listed(b) else !list.Listed(b) && b !in list.owner
    ensures b !in list.kids
    ensures b.parent != null ==> b.parent in list.kids && b.parent.parent != null && b.parent.kind == ContactNode
    ensures ComesFrom(ViewOf(list), GroupOf(b), b.parent, b)
  {
    if b.parent != null {
      HomeOf(list, b);
      FamilyOf(list, b.parent);
      assert forall p :: p in list.kids && b in list.kids[p] ==> p == b.parent;
    } else {
      assert forall p, m :: p in list.kids && m in list.kids[p] ==> list.Listed(m);
      assert b in list.kids ==> HasChildren(b);
    }
  }

  lemma BeforePlace(list: BuddyList, b: Node, c: Node, g: Node, prev: Node?)
    requires Sound(list) && CanPlace(list, b, c, g, prev)
    ensures var v := ViewOf(list);
            var c0 := b.parent;
            && ComesFrom(v, if c0 == null then null else c0.parent, c0, b) && Steady(v, b)
            && v == View(list.kids, list.owner, list.live, list.gone)
            && c in v.kids && c.kind == ContactNode && prev != b && (prev == null || prev in v.kids[c])
            && !(c0 == c && v.kids[c] == [b]) && b !in v.kids && v.gone == {}
    ensures Coherent(list) && list.gone == {} && (b.parent != null ==> InList(list, b))
    ensures b.kind == BuddyNode && b in list.live && b.account in list.caches && c.parent == g && c in list.live
    ensures Trust(list) >= 1 && OrderOf(list).groups >= 1 && Tabled(ViewOf(list), list.caches.Keys)
    ensures b != g
    ensures b.parent == null ==> !list.Listed(b)
  {
    hide Sound, Coherent, Tree, Ranked, Cached, ComesFrom, Shaped, OwnedBut, Trust, OrderOf, Tabled;
    SoundParts(list, b);
    IsSound(list);
    OrderIs(list);
    ComesFromIs(list, b);
  }

  lemma MidPlace(list: BuddyList, w: View, b: Node, c: Node, g: Node, prev: Node?)
    requires Coherent(list) && ViewOf(list) == w && w.gone == {} && !list.Listed(b)
    requires b.kind == BuddyNode && b in w.live && b.account in list.caches
    requires c in w.kids && c.kind == ContactNode && c.parent == g && (prev == null || prev in w.kids[c])
    requires b in w.owner ==> w.owner[b] == g
    ensures CanJoin(list, b, c, prev)
  {
  }

  /** Afterwards the list is sound in any case. */
  lemma AfterPlace(list: BuddyList, v: View, g0: Node?, c0: Node?, b: Node, g: Node, c: Node, prev: Node?, o: Order)
    requires Tree(list) && Ranked(list) && Cached(list)
    requires ComesFrom(v, g0, c0, b) && Steady(v, b) && Tabled(v, list.caches.Keys) && b.account in list.caches
    requires c in Lifted(v, g0, c0, b).kids && c.kind == ContactNode && c.parent == g && b.parent == c
    requires prev == null || prev in Lifted(v, g0, c0, b).kids[c]
    requires b.kind == BuddyNode
    requires ViewOf(list) == Lifted(v, g0, c0, b).PlusBuddy(g, c, prev, b)
    requires TableTrust(list, list.groupsCache, v.At(null)) == o.groups && o.groups >= 1 && Trust(list) >= 1
    requires o.named == Named(list, v)
    ensures Sound(list) && OrderOf(list).groups == o.groups && OrderOf(list).buddies == Trust(list)
    ensures o.named && b.name != "" ==> OrderOf(list).named
  {
    hide *;
    SteadyIs(v, b);
    LiftedIsFree(v, g0, c0, b);
    LiftedIsOwned(v, g0, c0, b);
    PlacedIsOwned(list, v, Lifted(v, g0, c0, b), g, c, prev, b, list.caches.Keys);
    CoherentParts(list);
    ViewIs(list, null);
    StaysSound(list, v, o);
  }

  lemma LiftedIsOwned(v: View, g0: Node?, c0: Node?, b: Node)
    requires ComesFrom(v, g0, c0, b) && Shaped(v.kids) && OwnedBut(v, b)
    ensures OwnedBut(Lifted(v, g0, c0, b), b)
  {
    hide Shaped;
    if c0 != null {
      OwnedMinusBuddy(v, g0, c0, b);
    }
  }

  lemma PlacedIsOwned(list: BuddyList, v: View, x: View, g: Node, c: Node, prev: Node?, b: Node, accounts: set<Account>)
    requires OwnedBut(x, b) && Tabled(v, accounts) && b.account in accounts &&
      (forall y :: y in x.owner ==> y in v.owner) && x.At(null) == v.At(null)
    requires c in x.kids && c.kind == ContactNode && c.parent == g && (prev == null || prev in x.kids[c])
    requires forall p :: p in x.kids ==> b !in x.kids[p]
    requires b.kind == BuddyNode && b.parent == c
    requires v.gone == {} ==> x.gone == {}
    ensures var w := x.PlusBuddy(g, c, prev, b);
            Owned(w) && Tabled(w, accounts) && (Named(list, v) && b.name != "" ==> Named(list, w)) &&
                w.At(null) == v.At(null) && (v.gone == {} ==> w.gone == {})
  {
    OwnedPlusBuddy(x, g, c, prev, b);
  }

  /** How far the counters are off after `b`, which may be in the contact `c0` of the group `g0`, was lifted out. */
  ghost function DriftLifted(drift: map<Node, int>, g0: Node?, c0: Node?, early: bool, last: bool): map<Node, int> {
    if c0 == null then drift else DriftWithout(drift, g0, c0, early, last)
  }

  lemma DriftLiftedIs(drift: map<Node, int>, g0: Node?, c0: Node?, early: bool, last: bool)
    ensures DriftLifted(drift, g0, c0, early, last) == if c0 == null then drift
      else DriftWithout(drift, g0, c0, early, last)
  {
  }

  /** How far the counters are off after `b` was placed in the contact `c`. */
  ghost function DriftPlaced(drift: map<Node, int>, g0: Node?, c0: Node?, c: Node, early: bool,
      last: bool): map<Node, int> {
    Shift(DriftLifted(drift, g0, c0, early, last), c, if early then -1 else 0)
  }

  lemma DriftPlacedIs(drift: map<Node, int>, g0: Node?, c0: Node?, c: Node, early: bool, last: bool)
    ensures DriftPlaced(drift, g0, c0, c, early, last) ==
      Shift(DriftLifted(drift, g0, c0, early, last), c, if early then -1 else 0)
  {
  }

  /** Moving a buddy leaves exact counters exact, except if its presence is early and it changes its contact. */
  lemma ExactlyPlaced(drift: map<Node, int>, g0: Node?, c0: Node?, c: Node, early: bool, last: bool)
    requires Exact(drift) && (c0 == null || (g0 != null && g0 != c0 && g0 != c)) && !(c0 == c && last)
    ensures Exact(DriftPlaced(drift, g0, c0, c, early, last)) <==> !early || c0 == c
  {
    var d := DriftPlaced(drift, g0, c0, c, early, last);
    if early && c0 != c {
      assert c in d && d[c] == -1;
    }
  }

  /** Removing a buddy leaves exact counters exact, except if its presence is early. */
  lemma ExactlyRemoved(drift: map<Node, int>, g: Node, c: Node, early: bool, last: bool)
    requires Exact(drift) && g != c
    ensures Exact(DriftWithout(drift, g, c, early, last)) <==> !early
  {
    var d := DriftWithout(drift, g, c, early, last);
    if early {
      assert if last then g in d && d[g] == 1 else c in d && d[c] == 1;
    }
  }

  /** The list that `b` leaves, and from where. */
  datatype Departure = Departure(v: View, g0: Node?, c0: Node?, drift: map<Node, int>, buddies: map<Key, Node>,
                                 order: Order, destroyed: int)

  ghost function DepartureOf(list: BuddyList, b: Node): Departure
    reads list, list.owner.Keys`name, (set g | null in list.kids && g in list.kids[null])`name
    reads b`parent, (if b.parent == null then {} else {b.parent})`parent
    reads (if GroupOf(b) == null then {} else {GroupOf(b)})`destroyed
  {
    Departure(ViewOf(list), GroupOf(b), b.parent, list.drift, list.buddies, OrderOf(list),
              if GroupOf(b) == null then 0 else GroupOf(b).destroyed)
  }

  lemma DepartureIs(list: BuddyList, b: Node)
    ensures DepartureOf(list, b) ==
      Departure(ViewOf(list), GroupOf(b), b.parent, list.drift, list.buddies, OrderOf(list),
                if GroupOf(b) == null then 0 else GroupOf(b).destroyed)
    ensures OrderOf(list) ==
      Order(Named(list, ViewOf(list)), TableTrust(list, list.groupsCache, ViewOf(list).At(null)), Trust(list))
  {
  }

  /** `b` has left the list `d` on its way to the group `g`. */
  ghost predicate OnItsWay(list: BuddyList, b: Node, g: Node, d: Departure)
    reads list, list.owner.Keys`name, b`name, (if d.g0 == null then {} else {d.g0})`destroyed
  {
    var last := d.v.At(d.c0) == [b];
    && ViewOf(list) == Carried(d.v, d.g0, d.c0, b, g)
    && list.drift == DriftLifted(d.drift, d.g0, d.c0, Early(list, b), last)
    && list.buddies == Unnamed(list, d.buddies, b, d.g0, g)
    && Trust(list) >= d.order.buddies
    && (d.g0 != null ==> d.g0.destroyed == d.destroyed + if last then 1 else 0)
  }

  lemma OnItsWayIs(list: BuddyList, b: Node, g: Node, d: Departure)
    ensures var last := d.v.At(d.c0) == [b];
            OnItsWay(list, b, g, d) <==>
              && ViewOf(list) == Carried(d.v, d.g0, d.c0, b, g)
              && list.drift == DriftLifted(d.drift, d.g0, d.c0, Early(list, b), last)
              && list.buddies == Unnamed(list, d.buddies, b, d.g0, g)
              && Trust(list) >= d.order.buddies
              && (d.g0 != null ==> d.g0.destroyed == d.destroyed + if last then 1 else 0)
  {
  }

  /** `if (bnode->parent)` */
  method LeaveOldContact(list: BuddyList, b: Node, g: Node, ghost d: Departure)
    requires Coherent(list) && list.gone == {} && d == DepartureOf(list, b)
    requires if b.parent != null then InList(list, b) else !list.Listed(b)
    modifies list`root, list`gone, list`kids, list`live, list`buddies, list`caches, list`owner, list`drift
    modifies list.live`prev, list.live`next, list.live`child, list.live`priorityValid
    modifies list.live`totalsize, list.live`currentsize, list.live`online
    modifies (if GroupOf(b) == null then {} else {GroupOf(b)})`destroyed
    ensures Coherent(list) && list.caches.Keys == old(list.caches).Keys && list.live <= old(list.live)
    ensures !list.Listed(b) && list.gone == {} && OnItsWay(list, b, g, d)
  {
    hide *;
    DepartureIs(list, b);
    UnnamedIs(list, list.buddies, b, d.g0, g);
    DriftLiftedIs(list.drift, d.g0, d.c0, Early(list, b), ViewOf(list).At(b.parent) == [b]);
    CarriedIs(d.v, d.g0, d.c0, b, g);
    NowhereAt(d.v, b);
    if b.parent != null {
      OldContact(list, b);
      LeftIsFree(d.v, d.g0, b.parent, b, g);
      LeaveContact(list, b, g);
      NowhereListed(list, b);
    }
    OnItsWayIs(list, b, g, d);
  }

  lemma NowhereAt(v: View, b: Node)
    ensures var n: Node? := null; n in v.kids || v.At(n) != [b]
  {
  }

  lemma CarriedIs(v: View, g0: Node?, c0: Node?, b: Node, g: Node)
    ensures Carried(v, g0, c0, b, g) == if c0 == null then v else OutOfContact(v, g0, c0, b, g)
  {
  }

  lemma OldContact(list: BuddyList, b: Node)
    requires Coherent(list) && list.gone == {} && InList(list, b)
    ensures b.parent != null && b.parent.parent != null && Stands(ViewOf(list), b.parent.parent, b.parent, b) &&
      ViewOf(list).gone == {}
  {
    hide Counters, Ranked, Cached;
    HomeOf(list, b);
    FamilyOf(list, b.parent);
    assert forall p :: p in list.kids && b in list.kids[p] ==> p == b.parent;
  }

  lemma LeftIsFree(v: View, g0: Node, c0: Node, b: Node, g: Node)
    requires Stands(v, g0, c0, b) && v.gone == {}
    ensures forall p :: p in OutOfContact(v, g0, c0, b, g).kids ==> b !in OutOfContact(v, g0, c0, b, g).kids[p]
    ensures OutOfContact(v, g0, c0, b, g).gone == {}
  {
    LiftedIsFree(v, g0, c0, b);
    assert OutOfContact(v, g0, c0, b, g).kids == Lifted(v, g0, c0, b).kids;
    assert OutOfContact(v, g0, c0, b, g).gone == Lifted(v, g0, c0, b).gone;
  }

  lemma NowhereListed(list: BuddyList, b: Node)
    requires forall p :: p in ViewOf(list).kids ==> b !in ViewOf(list).kids[p]
    ensures !list.Listed(b) && list.gone == ViewOf(list).gone
  {
    assert list.kids == ViewOf(list).kids;
    assert forall p :: p in list.kids ==> b !in list.kids[p];
  }

  /** The first half of placing `b`: it is on its way. */
  method Lift(list: BuddyList, b: Node, c: Node, g: Node, prev: Node?, ghost d: Departure)
    requires Sound(list) && CanPlace(list, b, c, g, prev) && d == DepartureOf(list, b)
    modifies list`root, list`gone, list`kids, list`live, list`buddies, list`caches, list`owner, list`drift
    modifies list.live`prev, list.live`next, list.live`child, list.live`priorityValid
    modifies list.live`totalsize, list.live`currentsize, list.live`online
    modifies (if GroupOf(b) == null then {} else {GroupOf(b)})`destroyed
    ensures Coherent(list) && list.caches.Keys == old(list.caches).Keys && list.live <= old(list.live)
    ensures CanJoin(list, b, c, prev) && c in list.live && OnItsWay(list, b, g, d)
    ensures d.order.buddies == 2 ==> (FreeIn(list, b, g) <==> NoTwin(list, d.v.owner, b, g))
    ensures Tabled(d.v, list.caches.Keys) && b.account in list.caches && d.order.groups >= 1 && d.order.buddies >= 1
    ensures ComesFrom(d.v, d.g0, d.c0, b) && Steady(d.v, b) && b !in d.v.kids
    ensures Fitting(d.v, d.g0, d.c0, b, g, c, prev)
    ensures b.kind == BuddyNode && c.kind == ContactNode && c.parent == g && b != c && b != g
  {
    hide *;
    DepartureIs(list, b);
    BeforePlace(list, b, c, g, prev);
    CarriedKeeps(d.v, d.g0, d.c0, b, g, c, prev);
    LeaveOldContact(list, b, g, d);
    OnItsWayIs(list, b, g, d);
    ViewIs(list, c);
    MidPlace(list, Carried(d.v, d.g0, d.c0, b, g), b, c, g, prev);
    TrustIs(list);
    if Filed(list) {
      FreeIsNoTwin(list, b, g);
    }
    NoTwinSame(list, d.v.owner, list.owner, b, g);
    BeforeJoinContact(list, b, c, prev);
  }

  /** What placing `b` makes of the list `d`. */
  ghost predicate Settled(list: BuddyList, b: Node, c: Node, g: Node, prev: Node?, d: Departure)
    reads list, list.owner.Keys`name, (set h | null in list.kids && h in list.kids[null])`name
    reads b`name, d.v.owner.Keys`name, (if d.g0 == null then {} else {d.g0})`destroyed
  {
    var last, x := d.v.At(d.c0) == [b], Lifted(d.v, d.g0, d.c0, b);
    && (prev == null || prev in x.At(c)) && ViewOf(list) == x.PlusBuddy(g, c, prev, b)
    && list.drift == DriftPlaced(d.drift, d.g0, d.c0, c, Early(list, b), last)
    && list.buddies == Unnamed(list, d.buddies, b, d.g0, g)[KeyOf(list, b, g) := b]
    && (d.g0 != null ==> d.g0.destroyed == d.destroyed + if last then 1 else 0)
    && OrderOf(list).groups >= d.order.groups
    && (d.order.named && b.name != "" ==> OrderOf(list).named)
    && (d.order.buddies == 2 ==> (OrderOf(list).buddies == 2 <==> NoTwin(list, d.v.owner, b, g)))
  }

  lemma SettledIs(list: BuddyList, b: Node, c: Node, g: Node, prev: Node?, d: Departure)
    ensures var last, x := d.v.At(d.c0) == [b], Lifted(d.v, d.g0, d.c0, b);
            Settled(list, b, c, g, prev, d) <==>
              && (prev == null || prev in x.At(c)) && ViewOf(list) == x.PlusBuddy(g, c, prev, b)
              && list.drift == DriftPlaced(d.drift, d.g0, d.c0, c, Early(list, b), last)
              && list.buddies == Unnamed(list, d.buddies, b, d.g0, g)[KeyOf(list, b, g) := b]
              && (d.g0 != null ==> d.g0.destroyed == d.destroyed + if last then 1 else 0)
              && OrderOf(list).groups >= d.order.groups
              && (d.order.named && b.name != "" ==> OrderOf(list).named)
              && (d.order.buddies == 2 ==> (OrderOf(list).buddies == 2 <==> NoTwin(list, d.v.owner, b, g)))
  {
  }

  /** Lifting and joining. */
  method Carry(list: BuddyList, b: Node, c: Node, g: Node, prev: Node?, ghost d: Departure)
    requires Sound(list) && CanPlace(list, b, c, g, prev) && d == DepartureOf(list, b)
    modifies list`root, list`gone, list`kids, list`live, list`buddies, list`caches, list`owner, list`drift
    modifies list.live`prev, list.live`next, list.live`child, list.live`priorityValid, b`parent
    modifies list.live`totalsize, list.live`currentsize, list.live`online
    modifies (if GroupOf(b) == null then {} else {GroupOf(b)})`destroyed
    ensures Sound(list) && list.caches.Keys == old(list.caches).Keys && b.parent == c
    ensures Settled(list, b, c, g, prev, d)
  {
    hide *;
    DepartureIs(list, b);
    assert TableTrust(list, list.groupsCache, d.v.At(null)) == d.order.groups && Named(list, d.v) == d.order.named;
    Lift(list, b, c, g, prev, d);
    assert TableTrust(list, list.groupsCache, d.v.At(null)) == d.order.groups && Named(list, d.v) == d.order.named;
    Land(list, b, c, g, prev, d);
  }

  /** The second half of placing `b`. */
  method Land(list: BuddyList, b: Node, c: Node, g: Node, prev: Node?, ghost d: Departure)
    requires Coherent(list) && CanJoin(list, b, c, prev) && c in list.live && OnItsWay(list, b, g, d)
    requires d.order.buddies == 2 ==> (FreeIn(list, b, g) <==> NoTwin(list, d.v.owner, b, g))
    requires Tabled(d.v, list.caches.Keys) && b.account in list.caches && d.order.groups >= 1 && d.order.buddies >= 1
    requires ComesFrom(d.v, d.g0, d.c0, b) && Steady(d.v, b) && Fitting(d.v, d.g0, d.c0, b, g, c, prev)
    requires b.kind == BuddyNode && c.kind == ContactNode && c.parent == g
    requires TableTrust(list, list.groupsCache, d.v.At(null)) == d.order.groups && Named(list, d.v) == d.order.named
    modifies list`root, list`kids, list`buddies, list`caches, list`owner, list`drift, b`parent
    modifies list.live`prev, list.live`next, list.live`child, list.live`priorityValid
    modifies list.live`totalsize, list.live`currentsize, list.live`online
    ensures Sound(list) && list.caches.Keys == old(list.caches).Keys && b.parent == c
    ensures Settled(list, b, c, g, prev, d)
  {
    hide *;
    OnItsWayIs(list, b, g, d);
    FittingIs(d.v, d.g0, d.c0, b, g, c, prev);
    DriftPlacedIs(d.drift, d.g0, d.c0, c, Early(list, b), d.v.At(d.c0) == [b]);
    assert Steady(d.v, b) && NoTwin(list, d.v.owner, b, g) == NoTwin(list, d.v.owner, b, g);
    assert TableTrust(list, list.groupsCache, d.v.At(null)) == d.order.groups && Named(list, d.v) == d.order.named;
    JoinInView(list, b, c, g, prev);
    AfterPlace(list, d.v, d.g0, d.c0, b, g, c, prev, d.order);
    SettledIs(list, b, c, g, prev, d);
  }

  /** Puts the buddy `b` into the contact `c` of the group `g`, wherever it
      was before. The list stays sound, and the table goes on finding every
      buddy exactly when no other one of the group has its account and name. */
  method PlaceBuddy(list: BuddyList, b: Node, c: Node, g: Node, prev: Node?)
    requires Sound(list) && CanPlace(list, b, c, g, prev)
    modifies list`root, list`gone, list`kids, list`live, list`buddies, list`caches, list`owner, list`drift
    modifies list.live`prev, list.live`next, list.live`child, list.live`priorityValid, b`parent
    modifies list.live`totalsize, list.live`currentsize, list.live`online
    modifies (if GroupOf(b) == null then {} else {GroupOf(b)})`destroyed
    ensures Sound(list) && list.caches.Keys == old(list.caches).Keys && b.parent == c
    ensures OrderOf(list).groups >= old(OrderOf(list)).groups
    ensures old(OrderOf(list)).named && b.name != "" ==> OrderOf(list).named
    ensures old(OrderOf(list)).buddies == 2 ==> (OrderOf(list).buddies == 2 <==> old(NoTwin(list, list.owner, b, g)))
    ensures var g0 := old(GroupOf(b));
            g0 != null ==> g0.destroyed == old(g0.destroyed) + if old(ViewOf(list).At(b.parent)) == [b] then 1 else 0
    ensures list.buddies == Unnamed(list, old(list.buddies), b, old(GroupOf(b)), g)[KeyOf(list, b, g) := b]
    ensures list.drift == DriftPlaced(old(list.drift), old(GroupOf(b)), old(b.parent), c, Early(list, b),
      old(ViewOf(list).At(b.parent)) == [b])
    ensures var x := old(Lifted(ViewOf(list), GroupOf(b), b.parent, b));
            (prev == null || prev in x.At(c)) && ViewOf(list) == x.PlusBuddy(g, c, prev, b)
  {
    hide *;
    ghost var d := DepartureOf(list, b);
    DepartureIs(list, b);
    ViewIs(list, null);
    Carry(list, b, c, g, prev, d);
    SettledIs(list, b, c, g, prev, d);
  }
}
