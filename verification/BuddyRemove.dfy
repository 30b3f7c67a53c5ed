/** `purple_blist_remove_buddy` and `purple_blist_remove_contact`.
    Most bodies below hide every definition; the short lemmas called `...Is` and
    `...Parts` give back the single definition that a step needs. */
module BuddyRemove {
  import opened Lists
  import opened BuddyTree
  import opened BuddyCounts
  import opened BuddyIndex
  import opened BuddyState

  /** `b` can be removed: it is a listed buddy, and no other node is cut out but its contact. */
  ghost predicate Removable(list: BuddyList, b: Node)
    reads list`kids, list`gone, b`parent
    reads (if b.parent == null then {} else {b.parent})`parent
  {
    && list.Listed(b) && b.kind == BuddyNode && list.gone <= {b.parent}
    && b.parent != null && b.parent.parent != null
  }

  /** The priority cache after `b` left: only if `b` was the cached buddy it has to be recomputed. */
  lemma RankedWithout(list: BuddyList, ks: Kids, c: Node, b: Node)
    requires RankedIn(list, ks) && c in ks && c.kind == ContactNode && b in ks[c]
    requires Minus(ks[c], b) == [] || c.priority != b
    ensures RankedIn(list, ks[c := Minus(ks[c], b)])
  {
    if Minus(ks[c], b) != [] && c.priorityValid {
      RankingOf(list).BestMinus(ks[c], b);
    }
  }

  /** The first part of removing a buddy: it leaves its contact, whose priority is forgotten if it was this buddy. */
  method TakeOut(list: BuddyList, b: Node, c: Node, g: Node)
    requires Tree(list) && Ranked(list) && list.Listed(b) && b.kind == BuddyNode && b.parent == c && c.parent == g
    requires c in list.kids && c.kind == ContactNode
    requires list.gone <= {c}
    modifies list`root, list`gone, list`kids, list.live`prev, list.live`next, list.live`child
    modifies list.live`totalsize, list.live`currentsize, list.live`online, c`priorityValid, list`drift
    ensures Tree(list) && Ranked(list) && !list.Listed(b) && list.gone == old(list.gone)
    ensures list.drift == Shift(old(list.drift), c, if Early(list, b) then 1 else 0)
    ensures b in old(list.kids)[c] && list.kids == old(list.kids)[c := Minus(old(list.kids)[c], b)]
    ensures c.child == null <==> Minus(old(list.kids)[c], b) == []
  {
    hide *;
    ghost var ks := list.kids;
    IsRanked(list);
    Detach(list, b, c, g);
    HasChild(list, c);
    if c.child != null && c.priority == b {
      Invalidate(list, c, ks, Minus(ks[c], b));
    } else {
      RankedWithout(list, ks, c, b);
    }
    IsRanked(list);
  }

  lemma BeforeRemove(list: BuddyList, b: Node)
    requires Tree(list) && Removable(list, b)
    ensures list.Listed(b) && b.kind == BuddyNode && list.gone <= {b.parent}
    ensures b.parent in list.kids && b.parent in list.live && b.parent.kind == ContactNode
    ensures b.parent.parent in list.kids && b.parent.parent in list.live && b.parent != b.parent.parent
    ensures b in list.live && b !in list.kids && b in list.kids[b.parent]
    ensures Minus(list.kids[b.parent], b) == [] <==> list.kids[b.parent] == [b]
    ensures |Minus(list.kids[b.parent], b)| < |list.kids[b.parent]|
  {
    HomeOf(list, b);
    FamilyOf(list, b.parent);
  }

  /** The view after the two parts of a removal. */
  lemma MinusBuddyIs(v: View, g: Node, c: Node, b: Node)
    requires g in v.kids && c in v.kids && g != c && b != c && b in v.kids[c] && v.gone <= {c}
    requires Minus(v.kids[c], b) == [] <==> v.kids[c] == [b]
    ensures var w := View(v.kids[c := Minus(v.kids[c], b)], v.owner - {b}, v.live - {b}, v.gone);
            v.MinusBuddy(g, c, b) == if Minus(v.kids[c], b) == [] then w.MinusContact(g, c) else w
  {
    if Minus(v.kids[c], b) == [] {
      assert Elements(v.kids[c]) == {b} && Elements<Node>([]) == {};
      EmptiedKids(v.kids, g, c);
      assert (v.owner - {b}) - {} == v.owner - {b} && (v.live - {b}) - {} == v.live - {b};
      hide Minus, Elements;
    }
  }

  lemma EmptiedKids(ks: Kids, g: Node?, c: Node?)
    requires g in ks && c in ks && g != c
    ensures var w := ks[c := []]; (w - {c})[g := Minus(w[g], c)] == (ks - {c})[g := Minus(ks[g], c)]
  {
  }

  /** The file has the buddies of the contact `c` under its group. */
  ghost predicate OnFile(list: BuddyList, c: Node)
    reads list`kids, list`owner, c`parent
  {
    c in list.kids && forall b :: b in list.kids[c] ==> FiledUnder(list, b, c.parent)
  }

  /** The keys of the buddies `s` in the group `g`. */
  ghost function KeysIn(list: BuddyList, s: seq<Node>, g: Node?): set<Key>
    reads (set b | b in s)`name
  {
    set b | b in s :: KeyOf(list, b, g)
  }

  lemma KeysInHead(list: BuddyList, s: seq<Node>, g: Node?)
    ensures KeysIn(list, [], g) == {}
    ensures s != [] ==> KeysIn(list, s, g) == {KeyOf(list, s[0], g)} + KeysIn(list, s[1..], g)
  {
    if s != [] {
      assert forall b :: b in s <==> b == s[0] || b in s[1..];
    }
  }

  /** How far the counters are off after `b` was removed: `early` says whether its
      presence was early, `last` whether the contact went with it. */
  ghost function DriftWithout(drift: map<Node, int>, g: Node?, c: Node, early: bool, last: bool): map<Node, int> {
    var shifted := Shift(drift, c, if early then 1 else 0);
    if last then DriftDropped(shifted, g, c) else shifted
  }

  /** No counter is too small. */
  ghost predicate Over(drift: map<Node, int>) {
    forall n :: n in drift ==> drift[n] >= 0
  }

  /** Counters that were not too small are not now, and they are exact if and
      only if they were exact and nothing made them too large. */
  ghost predicate Passed(drift: map<Node, int>, drift': map<Node, int>, none: bool) {
    Over(drift) ==> Over(drift') && (Exact(drift') <==> Exact(drift) && none)
  }

  lemma PassedOn(d0: map<Node, int>, d1: map<Node, int>, d2: map<Node, int>, none: bool, none': bool)
    requires Passed(d0, d1, none) && Passed(d1, d2, none')
    ensures Passed(d0, d2, none && none')
  {
  }

  lemma PassedNone(drift: map<Node, int>)
    ensures Passed(drift, drift, true)
  {
  }

  /** A buddy that is removed carries the drift of its contact to the group when the contact goes too. */
  lemma PassedByBuddy(drift: map<Node, int>, g: Node, c: Node, early: bool, last: bool)
    requires g != c
    ensures Passed(drift, DriftWithout(drift, g, c, early, last), !early)
  {
    var d := DriftWithout(drift, g, c, early, last);
    if Over(drift) && (early || !Exact(drift)) {
      if early || (c in drift && drift[c] > 0) {
        assert if last then g in d && d[g] > 0 else c in d && d[c] > 0;
      } else {
        var n: Node :| n in drift && drift[n] > 0;
        assert n in d && d[n] > 0;
      }
    }
  }

  lemma PassedIs(drift: map<Node, int>, drift': map<Node, int>, none: bool)
    requires Passed(drift, drift', none)
    ensures Exact(drift) ==> (Exact(drift') <==> none)
  {
  }

  /** A buddy that is not the last of its contact does not concern the group. */
  lemma GroupSpared(drift: map<Node, int>, g: Node, c: Node, early: bool)
    requires g != c
    ensures OffAt(DriftWithout(drift, g, c, early, false), g) == OffAt(drift, g)
  {
  }

  /** None of these buddies is online while its account is not connected. */
  ghost predicate NoneEarly(list: BuddyList, bs: set<Node>)
    reads list`connected, list`present
  {
    forall b :: b in bs ==> !Early(list, b)
  }

  lemma NoneEarlyPlus(list: BuddyList, a: set<Node>, b: set<Node>)
    ensures NoneEarly(list, a + b) <==> NoneEarly(list, a) && NoneEarly(list, b)
    ensures NoneEarly(list, {})
  {
  }

  /** Removing a buddy, up to the question whether its contact is empty now. */
  method RemoveLeaf(list: BuddyList, b: Node, c: Node, g: Node)
    requires Coherent(list) && Removable(list, b) && b.parent == c && c.parent == g
    modifies list`root, list`gone, list`kids, list`live, list`buddies, list`caches, list`owner, list`drift
    modifies list.live`prev, list.live`next, list.live`child, list.live`priorityValid
    modifies list.live`totalsize, list.live`currentsize, list.live`online
    ensures Coherent(list) && list.caches.Keys == old(list.caches).Keys && list.live <= old(list.live)
    ensures c in list.kids && c.kind == ContactNode && list.gone <= {c} && (c.child == null <==> list.kids[c] == [])
    ensures c in old(list.kids) && |list.kids[c]| < |old(list.kids)[c]|
    ensures list.kids[c] == [] <==> old(list.kids)[c] == [b]
    ensures old(ViewOf(list)).MinusBuddy(g, c, b) ==
      if list.kids[c] == [] then ViewOf(list).MinusContact(g, c) else ViewOf(list)
    ensures list.drift == Shift(old(list.drift), c, if Early(list, b) then 1 else 0)
    ensures list.buddies == old(list.buddies) - {KeyOf(list, b, g)}
    ensures old(Homed(list, b, g)) ==> Trust(list) >= old(Trust(list))
  {
    hide *;
    CoherentParts(list);
    BeforeRemove(list, b);
    ViewIs(list, c);
    MinusBuddyIs(ViewOf(list), g, c, b);
    TakeOut(list, b, c, g);
    Erase(list, b, g);
    ViewIs(list, c);
  }

  /** A buddy that is in no list is taken off the file and freed. */
  method Erase(list: BuddyList, b: Node, g: Node)
    requires Tree(list) && Ranked(list) && Cached(list) && !list.Listed(b) && b !in list.kids
    modifies list`live, list`kids, list`buddies, list`caches, list`owner
    ensures Coherent(list) && list.caches.Keys == old(list.caches).Keys
    ensures list.kids == old(list.kids) && list.live == old(list.live) - {b} && list.owner == old(list.owner) - {b}
    ensures list.buddies == old(list.buddies) - {KeyOf(list, b, g)}
    ensures old(Homed(list, b, g)) ==> Trust(list) >= old(Trust(list))
  {
    hide *;
    IsRanked(list);
    Unfile(list, b, g);
    FreeLeaf(list, b);
    IsRanked(list);
    CoherentParts(list);
  }

  /** `purple_blist_remove_buddy` */
  method RemoveBuddy(list: BuddyList, b: Node)
    requires Coherent(list) && Removable(list, b)
    modifies list`root, list`gone, list`kids, list`live, list`buddies, list`caches, list`owner, list`drift
    modifies list.live`prev, list.live`next, list.live`child, list.live`priorityValid
    modifies list.live`totalsize, list.live`currentsize, list.live`online, b.parent.parent`destroyed
    ensures Coherent(list) && list.caches.Keys == old(list.caches).Keys && list.live <= old(list.live)
    ensures ViewOf(list) == old(ViewOf(list)).MinusBuddy(b.parent.parent, b.parent, b)
    ensures b.parent.parent.destroyed ==
      old(b.parent.parent.destroyed) + if old(ViewOf(list)).At(b.parent) == [b] then 1 else 0
    ensures list.buddies == old(list.buddies) - {KeyOf(list, b, b.parent.parent)}
    ensures list.drift == DriftWithout(old(list.drift), b.parent.parent, b.parent, Early(list, b),
      old(ViewOf(list)).At(b.parent) == [b])
    ensures old(Homed(list, b, b.parent.parent)) ==> Trust(list) >= old(Trust(list))
    decreases |ViewOf(list).At(b.parent)|, 0
  {
    hide *;
    CoherentParts(list);
    BeforeRemove(list, b);
    var c := b.parent;
    var g := c.parent;
    ViewIs(list, c);
    DriftWithoutIs(list.drift, g, c, Early(list, b));
    RemoveLeaf(list, b, c, g);
    ViewIs(list, c);
    RemoveIfEmpty(list, c, g);
  }

  lemma DriftWithoutIs(drift: map<Node, int>, g: Node?, c: Node, early: bool)
    ensures DriftWithout(drift, g, c, early, true) == DriftDropped(Shift(drift, c, if early then 1 else 0), g, c)
    ensures DriftWithout(drift, g, c, early, false) == Shift(drift, c, if early then 1 else 0)
  {
  }

  lemma ViewIs(list: BuddyList, p: Node?)
    ensures ViewOf(list) == View(list.kids, list.owner, list.live, list.gone)
    ensures ViewOf(list).At(p) == if p in list.kids then list.kids[p] else []
  {
  }

  /** The last part of removing a buddy: an emptied contact goes too. */
  method RemoveIfEmpty(list: BuddyList, c: Node, g: Node)
    requires Coherent(list)
    requires c in list.kids && c.kind == ContactNode && c.parent == g && list.gone <= {c}
    requires c.child == null <==> list.kids[c] == []
    modifies list`root, list`gone, list`kids, list`live, list`buddies, list`caches, list`owner, list`drift
    modifies list.live`prev, list.live`next, list.live`child, list.live`priorityValid
    modifies list.live`totalsize, list.live`currentsize, list.live`online, g`destroyed
    ensures Coherent(list) && list.caches.Keys == old(list.caches).Keys && list.live <= old(list.live)
    ensures g.destroyed == old(g.destroyed) + if old(list.kids)[c] == [] then 1 else 0
    ensures ViewOf(list) == if old(list.kids)[c] == [] then old(ViewOf(list)).MinusContact(g, c) else old(ViewOf(list))
    ensures list.drift == if old(list.kids)[c] == [] then DriftDropped(old(list.drift), g, c) else old(list.drift)
    ensures list.buddies == old(list.buddies) && Trust(list) >= old(Trust(list))
    decreases |ViewOf(list).At(c)|, 3
  {
    hide *;
    ViewIs(list, c);
    if c.child == null {
      EmptyIsOnFile(list, c);
      KeysInHead(list, [], g);
      EarliesNone(list, list.drift, c);
      RemoveContact(list, c);
    }
  }

  lemma EmptyIsOnFile(list: BuddyList, c: Node)
    requires c in list.kids && list.kids[c] == []
    ensures OnFile(list, c)
  {
  }

  lemma EarliesNone(list: BuddyList, drift: map<Node, int>, c: Node)
    ensures Earlies(list, []) == 0 && Shift(drift, c, 0) == drift
  {
  }

  lemma BeforeRemoveContact(list: BuddyList, c: Node)
    requires Coherent(list) && c in list.kids && c.kind == ContactNode && list.gone <= {c}
    ensures Tree(list) && Ranked(list) && Cached(list)
    ensures c in list.live && c.parent != null && c.parent in list.live && c.parent in list.kids && c != c.parent
    ensures c.parent.kind == GroupNode && ViewOf(list).At(c) == list.kids[c]
    ensures c.child == null <==> list.kids[c] == []
    ensures c.child != null ==>
      c.child == list.kids[c][0] && c.child.next == if |list.kids[c]| == 1 then null else list.kids[c][1]
  {
    FamilyOf(list, c);
    HasChild(list, c);
  }

  /** `b` is filed under the group `g`. */
  ghost predicate FiledUnder(list: BuddyList, b: Node, g: Node?)
    reads list`owner
  {
    b in list.owner && list.owner[b] == g
  }

  /** `c` is a contact, and no other node is cut out. */
  ghost predicate Shrinking(list: BuddyList, c: Node)
    reads list, list.live, list.kids.Keys, c
  {
    Coherent(list) && c in list.kids && c.kind == ContactNode && list.gone <= {c}
  }

  lemma ShrinkingParts(list: BuddyList, c: Node)
    ensures Shrinking(list, c) <==> Coherent(list) && c in list.kids && c.kind == ContactNode && list.gone <= {c}
  {
  }

  /** What matters of a list when the contact that is being removed is gone. */
  datatype Outcome = Outcome(view: View, drift: map<Node, int>, buddies: map<Key, Node>, destroyed: int)

  ghost function Reached(list: BuddyList, g: Node): Outcome
    reads list`kids, list`owner, list`live, list`gone, list`drift, list`buddies, g`destroyed
  {
    Outcome(ViewOf(list), list.drift, list.buddies, g.destroyed)
  }

  /** What removing the contact `c` of `g` with all its buddies leads to. */
  ghost function WhenGone(list: BuddyList, c: Node, g: Node): Outcome
    reads list`kids, list`owner, list`live, list`gone, list`drift, list`buddies, g`destroyed
    reads list`connected, list`present, (set b | c in list.kids && b in list.kids[c])`name
  {
    Outcome(ViewOf(list).MinusContact(g, c),
            DriftDropped(Shift(list.drift, c, Earlies(list, ViewOf(list).At(c))), g, c),
            list.buddies - KeysIn(list, ViewOf(list).At(c), g), g.destroyed + 1)
  }

  lemma WhenGoneIs(list: BuddyList, c: Node, g: Node)
    ensures WhenGone(list, c, g) ==
      Outcome(ViewOf(list).MinusContact(g, c),
              DriftDropped(Shift(list.drift, c, Earlies(list, ViewOf(list).At(c))), g, c),
              list.buddies - KeysIn(list, ViewOf(list).At(c), g), g.destroyed + 1)
    ensures Reached(list, g) == Outcome(ViewOf(list), list.drift, list.buddies, g.destroyed)
  {
  }

  /** `purple_blist_remove_contact` */
  method RemoveContact(list: BuddyList, c: Node)
    requires Coherent(list) && c in list.kids && c.kind == ContactNode && list.gone <= {c} && c.parent != null
    modifies list`root, list`gone, list`kids, list`live, list`buddies, list`caches, list`owner, list`drift
    modifies list.live`prev, list.live`next, list.live`child, list.live`priorityValid
    modifies list.live`totalsize, list.live`currentsize, list.live`online, c.parent`destroyed
    ensures Coherent(list) && list.caches.Keys == old(list.caches).Keys && list.live <= old(list.live)
    ensures ViewOf(list) == old(ViewOf(list)).MinusContact(c.parent, c)
    ensures list.drift == DriftDropped(Shift(old(list.drift), c, old(Earlies(list, list.kids[c]))), c.parent, c)
    ensures c.parent.destroyed == old(c.parent.destroyed) + 1
    ensures list.buddies == old(list.buddies - KeysIn(list, list.kids[c], c.parent))
    ensures old(OnFile(list, c)) ==> Trust(list) >= old(Trust(list))
    decreases |ViewOf(list).At(c)|, 2
  {
    hide *;
    ShrinkingParts(list, c);
    BeforeRemoveContact(list, c);
    ViewIs(list, c);
    ghost var g, goal := c.parent, WhenGone(list, c, c.parent);
    WhenGoneIs(list, c, g);
    if c.child != null {
      ghost var filed, trust := OnFile(list, c), Trust(list);
      while c.child.next != null
        invariant Shrinking(list, c) && list.caches.Keys == old(list.caches).Keys && WhenGone(list, c, g) == goal
        invariant c.child != null && (c.child.next == null <==> |ViewOf(list).At(c)| == 1)
        invariant filed ==> OnFile(list, c) && Trust(list) >= trust
        invariant list.live <= old(list.live) && |ViewOf(list).At(c)| <= |old(ViewOf(list)).At(c)|
        decreases |ViewOf(list).At(c)|
      {
        RemoveFirst(list, c, g);
      }
      RemoveFirst(list, c, g);
    } else {
      EarliesNone(list, list.drift, c);
      KeysInHead(list, [], g);
      RemoveEmpty(list, c);
    }
    WhenGoneIs(list, c, g);
  }

  /** One round: the first buddy goes, and with the last one the contact. */
  method RemoveFirst(list: BuddyList, c: Node, ghost g: Node)
    requires Shrinking(list, c) && c.child != null && c.parent == g
    modifies list`root, list`gone, list`kids, list`live, list`buddies, list`caches, list`owner, list`drift
    modifies list.live`prev, list.live`next, list.live`child, list.live`priorityValid
    modifies list.live`totalsize, list.live`currentsize, list.live`online, g`destroyed
    ensures Coherent(list) && list.caches.Keys == old(list.caches).Keys && list.live <= old(list.live)
    ensures |old(ViewOf(list)).At(c)| == 1 ==>
      Reached(list, g) == old(WhenGone(list, c, g)) && (old(OnFile(list, c)) ==> Trust(list) >= old(Trust(list)))
    ensures |old(ViewOf(list)).At(c)| != 1 ==>
      && Shrinking(list, c) && WhenGone(list, c, g) == old(WhenGone(list, c, g))
      && (old(OnFile(list, c)) ==> OnFile(list, c) && Trust(list) >= old(Trust(list)))
      && c.child != null && (c.child.next == null <==> |ViewOf(list).At(c)| == 1)
      && |ViewOf(list).At(c)| < |old(ViewOf(list)).At(c)|
    decreases |ViewOf(list).At(c)|, 1
  {
    hide *;
    BeforeRemoveFirst(list, c);
    ghost var v, drift, b := ViewOf(list), list.drift, c.child;
    DriftWithoutIs(drift, g, c, Early(list, b));
    EarliesHead(list, v.At(c), drift, c);
    KeysInHead(list, v.At(c), g);
    WhenGoneIs(list, c, g);
    ghost var keys, n := KeysIn(list, v.At(c), g), Earlies(list, v.At(c));
    ghost var rest := KeysIn(list, v.At(c)[1..], g);
    RemoveBuddy(list, c.child);
    assert rest == KeysIn(list, v.At(c)[1..], g);
    if |v.At(c)| != 1 {
      AfterRemoveFirst(list, c, v);
    }
    WhenGoneIs(list, c, g);
  }

  /** Counting the early presences one by one. */
  lemma EarliesHead(list: BuddyList, s: seq<Node>, drift: map<Node, int>, c: Node)
    requires s != []
    ensures var k := if Early(list, s[0]) then 1 else 0;
            Shift(Shift(drift, c, k), c, Earlies(list, s[1..])) == Shift(drift, c, Earlies(list, s))
    ensures |s| == 1 ==> Earlies(list, s) == if Early(list, s[0]) then 1 else 0
  {
    var k, n := if Early(list, s[0]) then 1 else 0, Earlies(list, s[1..]);
    assert Earlies(list, s) == k + n && (|s| == 1 ==> s[1..] == [] && n == 0);
    hide Earlies, Early;
    assert k == 1 && n != 0 ==> Shift(Shift(drift, c, k), c, n) == Shift(drift, c, k + n);
  }

  lemma AfterRemoveFirst(list: BuddyList, c: Node, v: View)
    requires Coherent(list) && c.kind == ContactNode && c.parent != null && c.parent in v.kids && c != c.parent
    requires c in v.kids && v.gone <= {c} && NoDup(v.kids[c]) && 1 < |v.kids[c]|
    requires ViewOf(list) == v.MinusBuddy(c.parent, c, v.kids[c][0])
    ensures Shrinking(list, c) && ViewOf(list).MinusContact(c.parent, c) == v.MinusContact(c.parent, c)
    ensures c.child != null && (c.child.next == null <==> |ViewOf(list).At(c)| == 1)
    ensures |ViewOf(list).At(c)| < |v.At(c)| && ViewOf(list).At(c) == v.At(c)[1..]
    ensures (forall b :: b in v.kids[c] ==> b in v.owner && v.owner[b] == c.parent) ==> OnFile(list, c)
  {
    var s := v.kids[c];
    ChipOff(v, c.parent, c);
    ViewIs(list, c);
    hide Minus, View.MinusBuddy, View.MinusContact, NoDup, Coherent;
    BeforeRemoveContact(list, c);
  }

  lemma BeforeRemoveFirst(list: BuddyList, c: Node)
    requires Shrinking(list, c) && c.child != null
    ensures var v := ViewOf(list);
            var s := v.At(c);
            && s != [] && c.child == s[0] && Removable(list, s[0]) && s[0].parent == c
            && c in v.kids && v.kids[c] == s && v.gone <= {c} && NoDup(v.kids[c])
            && (|s| == 1 ==> v.MinusBuddy(c.parent, c, s[0]) == v.MinusContact(c.parent, c))
            && (|s| == 1 <==> s == [s[0]])
            && (OnFile(list, c) ==>
                  && Homed(list, s[0], c.parent)
                  && forall b :: b in v.kids[c] ==> b in v.owner && v.owner[b] == c.parent)
    ensures Coherent(list) && c.kind == ContactNode
    ensures c.parent != null && c.parent in list.kids && c.parent in ViewOf(list).kids && c != c.parent
  {
    BeforeRemoveContact(list, c);
    assert Fits(c, list.kids[c][0]);
    assert list.Chained(c, list.kids[c], list.gone);
    if |list.kids[c]| == 1 {
      assert list.kids[c] == [list.kids[c][0]];
    }
  }

  /** Removing buddies one by one gets closer to the contact being gone. */
  lemma ChipOff(v: View, g: Node, c: Node)
    requires g in v.kids && c in v.kids && g != c && v.kids[c] != [] && NoDup(v.kids[c])
    ensures var s := v.kids[c];
            var w := v.MinusBuddy(g, c, s[0]);
            if |s| == 1 then w == v.MinusContact(g, c)
            else w.MinusContact(g, c) == v.MinusContact(g, c) && c in w.kids && w.kids[c] == s[1..] && w.gone == v.gone
    ensures var s := v.kids[c];
            var w := v.MinusBuddy(g, c, s[0]);
            1 < |s| ==> forall b :: b in s[1..] && b in v.owner ==> b in s && b in w.owner && w.owner[b] == v.owner[b]
  {
    var s := v.kids[c];
    MinusHead(s);
    ElementsHead(s);
    hide Minus, NoDup, Elements;
    if |s| == 1 {
      assert s == [s[0]];
    } else {
      var w := v.MinusBuddy(g, c, s[0]);
      assert w == View(v.kids[c := s[1..]], v.owner - {s[0]}, v.live - {s[0]}, v.gone);
      assert v.kids[c := s[1..]] - {c} == v.kids - {c};
      forall b | b in s[1..] && b in v.owner ensures b in s && b in w.owner && w.owner[b] == v.owner[b] {
        NotHead(s, b);
      }
    }
  }

  lemma NotHead(s: seq<Node>, b: Node)
    requires NoDup(s) && s != [] && b in s[1..]
    ensures b in s && b != s[0]
  {
  }

  lemma MinusHead(s: seq<Node>)
    requires s != []
    ensures Minus(s, s[0]) == s[1..]
  {
    assert IndexOf(s, s[0]) == 0;
  }

  lemma EmptyView(v: View, g: Node, c: Node)
    requires g in v.kids && c in v.kids && g != c && v.kids[c] == []
    ensures v.MinusContact(g, c) == View(v.kids[g := Minus(v.kids[g], c)] - {c}, v.owner, v.live - {c}, {})
  {
    assert Elements(v.kids[c]) == {};
  }

  /** The branch of `RemoveContact` for a contact without buddies. */
  method RemoveEmpty(list: BuddyList, c: Node)
    requires Coherent(list) && c in list.kids && c.kind == ContactNode && list.gone <= {c} && list.kids[c] == []
    requires c.parent != null
    modifies list`root, list`gone, list`kids, list`live, list.live`prev, list.live`next, list.live`child
    modifies c.parent`destroyed, list`drift
    ensures c.parent.destroyed == old(c.parent.destroyed) + 1
    ensures Coherent(list) && ViewOf(list) == old(ViewOf(list)).MinusContact(c.parent, c)
    ensures list.drift == DriftDropped(old(list.drift), c.parent, c)
    ensures list.live <= old(list.live)
  {
    hide *;
    BeforeRemoveContact(list, c);
    ghost var ks := list.kids;
    ViewIs(list, c);
    EmptyView(ViewOf(list), c.parent, c);
    IsRanked(list);
    DropContact(list, c, c.parent);
    RankedDropped(list, ks, c.parent, c);
    IsRanked(list);
    CoherentParts(list);
    ViewIs(list, c);
  }

  lemma RankedDropped(list: BuddyList, ks: Kids, g: Node, c: Node)
    requires RankedIn(list, ks) && g in ks && g.kind != ContactNode
    ensures RankedIn(list, ks[g := Minus(ks[g], c)] - {c})
  {
  }
}
