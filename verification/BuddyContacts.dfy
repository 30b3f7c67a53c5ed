/** Moving contacts between groups, and within one.
    Most bodies below hide every definition; the short lemmas called `...Is` and
    `...Parts` give back the single definition that a step needs. */
module BuddyContacts {
  import opened Lists
  import opened BuddyTree
  import opened BuddyCounts
  import opened BuddyIndex
  import opened BuddyState
  import opened BuddyRemove
  import opened BuddyValid
  import opened BuddyAdd
  import opened BuddyMove

  /** The list after the contact `c` of the group `g0` was put behind `prev`,
      or in front, in the group `g`. On a change of groups the buddies in
      `lost` are gone; a contact with no other buddies is gone with them. */
  ghost function Transferred(v: View, g0: Node, c: Node, g: Node, prev: Node?, lost: set<Node>): View {
    var s := v.At(c);
    var keep := Filter(s, NotIn(lost));
    if g0 == g then
      View(v.kids[g := Placed(Minus(v.At(g), c), prev, c)], v.owner, v.live, {})
    else if s != [] && keep == [] then v.MinusContact(g0, c)
    else
      View(v.kids[c := keep][g0 := Minus(v.At(g0), c)][g := Placed(v.At(g), prev, c)],
           RefiledOwner(v.owner, s, lost, g), v.live - Elements(s) * lost, {})
  }

  /** `s` with `n` behind `prev`, or in front. */
  ghost function Placed(s: seq<Node>, prev: Node?, n: Node): seq<Node> {
    InsertAt(s, if prev == null || prev in s then After(s, prev) else 0, n)
  }

  /** A change among the children of a group does not concern priorities. */
  lemma RankedGroup(list: BuddyList, ks: Kids, g: Node?, s: seq<Node>)
    requires RankedIn(list, ks) && (g == null || g.kind == GroupNode)
    ensures RankedIn(list, ks[g := s])
  {
  }

  lemma BeforeTransfer(list: BuddyList, c: Node, g0: Node, g: Node, prev: Node?)
    requires Coherent(list) && list.gone == {c} && c in list.kids && c.kind == ContactNode && c.parent == g0
    requires g in list.kids && g.kind == GroupNode && prev != c
    requires prev == null || prev in list.kids[g]
    ensures Tree(list) && RankedIn(list, list.kids) && Cached(list)
    ensures list.Listed(c) && g0 in list.live && g in list.live && g0.kind == GroupNode && c in list.live &&
      c != g && c != g0
    ensures forall x: Node :: x == g0 || x == g ==> x.kind == GroupNode
  {
    FamilyOf(list, c);
    CoherentParts(list);
    IsRanked(list);
  }

  lemma BetweenGroups(list: BuddyList, ks: Kids, c: Node, g0: Node, g: Node, prev: Node?)
    requires c in ks && g0 in ks && g in ks && c != g0 && c != g && list.kids == ks[g0 := Minus(ks[g0], c)]
    requires c.kind == ContactNode && prev != c && (prev == null || prev in ks[g])
    ensures IsChild(c, list.kids) && g in list.kids && (prev == null || prev in list.kids[g])
    ensures list.kids[g] == if g == g0 then Minus(ks[g], c) else ks[g]
  {
  }

  /** The end of `purple_blist_add_contact` for a contact that was cut out of
      the group `g0`: it is counted out there, linked into `g` and counted in. */
  method Transfer(list: BuddyList, c: Node, g0: Node, g: Node, prev: Node?)
    requires Coherent(list) && list.gone == {c} && c in list.kids && c.kind == ContactNode && c.parent == g0
    requires g in list.kids && g.kind == GroupNode && prev != c && (prev == null || prev in list.kids[g])
    modifies list`root, list`gone, list`kids, list.live`prev, list.live`next, list.live`child, c`parent
    modifies list.live`totalsize, list.live`currentsize, list.live`online
    ensures Coherent(list) && list.gone == {} && c.parent == g
    ensures g0 in old(list.kids) && g0 != c
    ensures list.kids == var ks := old(list.kids)[g0 := Minus(old(list.kids)[g0], c)];
                         ks[g := Placed(ks[g], prev, c)]
  {
    hide *;
    BeforeTransfer(list, c, g0, g, prev);
    ghost var ks := list.kids;
    LeaveGroup(list, c, g0);
    BetweenGroups(list, ks, c, g0, g, prev);
    ghost var ls := list.kids;
    PlacedIs(ls[g], prev, c);
    JoinGroup(list, c, g, prev);
    RankedGroup(list, ks, g0, ls[g0]);
    RankedGroup(list, ls, g, list.kids[g]);
    IsRanked(list);
    CoherentParts(list);
  }

  lemma PlacedIs(s: seq<Node>, prev: Node?, n: Node)
    requires prev == null || prev in s
    ensures Placed(s, prev, n) == InsertAt(s, After(s, prev), n)
  {
  }

  /** `c` is a contact of the group `g0`, about to be put behind `prev` in the group `g`. */
  ghost predicate CanMove(list: BuddyList, c: Node, g0: Node, g: Node, prev: Node?)
    reads list`kids, c`parent
  {
    && c in list.kids && c.kind == ContactNode && c.parent == g0
    && g in list.kids && g.kind == GroupNode && prev != c && (prev == null || prev in list.kids[g])
  }

  lemma ParentsAreUnique(list: BuddyList)
    requires list.Linked()
    ensures forall p, b :: p in list.kids && b in list.kids[p] ==> b.parent == p && b in list.live
  {
  }

  lemma FamilyInView(list: BuddyList, c: Node)
    requires list.Linked() && Shaped(list.kids) && list.Rooted() && c in list.kids && c.kind == ContactNode
    ensures c.parent != null && Keeps(ViewOf(list), c.parent, c) && NoDup(list.kids[c])
    ensures c.parent in list.live && c in list.live && list.Listed(c)
  {
    FamilyOf(list, c);
    assert list.Chained(c, list.kids[c], list.gone);
    ParentsAreUnique(list);
    assert NoDup(list.kids[c]) && c.parent in list.live && c in list.live && list.Listed(c);
    assert c.parent in list.kids && c.parent.kind == GroupNode;
    forall p, b | p in list.kids && b in list.kids[c] && b in list.kids[p] ensures p == c {
      assert b.parent == p && b.parent == c;
    }
    hide BuddyList.Linked, BuddyList.Chained, Shaped, NoDup;
  }

  /** Two buddies of one group never have the same account and name. */
  lemma NamesDiffer(list: BuddyList, a: Node, b: Node, g0: Node, g: Node)
    requires Filed(list) && a in list.owner && b in list.owner && list.owner[a] == list.owner[b] == g0 && a != b
    ensures KeyOf(list, a, g) != KeyOf(list, b, g)
  {
    assert Keys(list)[a] == KeyOf(list, a, g0) && Keys(list)[b] == KeyOf(list, b, g0);
  }

  lemma AccountsKnown(list: BuddyList, b: Node)
    requires Tabled(ViewOf(list), list.caches.Keys) && b in list.owner
    ensures b.account in list.caches
  {
  }

  lemma NamesDifferIn(list: BuddyList, s: seq<Node>, g0: Node, g: Node)
    requires Filed(list) && NoDup(s) && forall b :: b in s ==> b in list.owner && list.owner[b] == g0
    ensures forall i, j :: 0 <= i < j < |s| ==> KeyOf(list, s[i], g) != KeyOf(list, s[j], g)
  {
    forall i, j | 0 <= i < j < |s| ensures KeyOf(list, s[i], g) != KeyOf(list, s[j], g) {
      DistinctAt(s, i, j);
      NamesDiffer(list, s[i], s[j], g0, g);
    }
  }

  /** The buddies of a contact that is about to change groups. */
  lemma KnownIs(list: BuddyList, c: Node, g0: Node, g: Node)
    requires Sound(list) && c in list.kids && c.kind == ContactNode && c.parent == g0 && g0 != g
    ensures var v := ViewOf(list);
            Known(list.caches.Keys, View(v.kids, v.owner, v.live, {c}), c, g0, g, v.At(c))
  {
    hide *;
    SoundParts(list, c);
    FamilyInView(list, c);
    OwnedBuddies(list, c);
    KeepsParts(ViewOf(list), g0, c);
    ViewIs(list, c);
    var s := list.kids[c];
    forall b | b in s ensures b.account in list.caches {
      AccountsKnown(list, b);
    }
    AssembleKnown(list.caches.Keys, View(list.kids, list.owner, list.live, {c}), c, g0, g, s);
  }

  /** When names and tables are in order, the buddies that are refused are those with a twin. */
  lemma RefusedIs(list: BuddyList, c: Node, g0: Node, g: Node)
    requires Valid(list) && c in list.kids && c.kind == ContactNode && c.parent == g0 && g0 != g
    ensures var s := ViewOf(list).At(c);
            Refused(list, list.buddies, s, g0, g) == Twins(list, list.owner, s, g) && AllNamed(s)
  {
    hide *;
    ValidParts(list, c);
    FamilyInView(list, c);
    OwnedBuddies(list, c);
    ViewIs(list, c);
    var s := list.kids[c];
    NamesDifferIn(list, s, g0, g);
    forall b | b in s ensures KeyOf(list, b, g) in list.buddies <==> !NoTwin(list, list.owner, b, g) {
      TwinsInTable(list, b, g);
    }
    NamedAll(list, s);
    RefusedAreTwins(list, list.owner, list.buddies, s, g0, g);
  }

  lemma NamedAll(list: BuddyList, s: seq<Node>)
    requires Named(list, ViewOf(list)) && forall b :: b in s ==> b in list.owner
    ensures AllNamed(s)
  {
  }

  lemma KeepsParts(v: View, g: Node, c: Node)
    requires Keeps(v, g, c)
    ensures g in v.kids && c in v.kids && g != c && g.kind == GroupNode
  {
  }

  lemma AssembleKnown(accounts: set<Account>, v: View, c: Node, g0: Node, g: Node, s: seq<Node>)
    requires NoDup(s) && g0 != g && g0 in v.kids && g0 != c && c in v.kids && v.kids[c] == s && v.gone == {c}
    requires forall b :: b in s ==> b in v.owner && v.owner[b] == g0 && b.account in accounts
    ensures Known(accounts, v, c, g0, g, s)
  {
  }

  lemma DistinctAt(s: seq<Node>, i: nat, j: nat)
    requires NoDup(s) && i < j < |s|
    ensures s[i] != s[j] && s[i] in s && s[j] in s
  {
  }

  lemma OwnedBuddies(list: BuddyList, c: Node)
    requires Sound(list) && c in list.kids && c.kind == ContactNode
    ensures forall b :: b in list.kids[c] ==> b in list.owner && list.owner[b] == c.parent
  {
    hide Coherent, Tabled, OrderOf;
  }

  lemma KeptIs(s: seq<Node>, lost: set<Node>, x: Node)
    ensures x in Filter(s, NotIn(lost)) <==> x in s && x !in lost
  {
    FilterMembers(s, NotIn(lost));
  }

  /** Changes among the children of groups do not concern the file. */
  lemma OwnedShuffled(v: View, ks: Kids, live: set<Node>)
    requires Owned(v) && Shaped(v.kids) && ks.Keys == v.kids.Keys
    requires forall p: Node :: p in ks && p.kind == ContactNode ==> ks[p] == v.kids[p]
    ensures Owned(View(ks, v.owner, live, {}))
  {
    forall x | x in v.owner ensures x.parent in ks && x in ks[x.parent] {
      assert Fits(x.parent, x);
    }
  }

  /** Neither do the buddies that are gone, if they are taken off the file. */
  lemma OwnedRefiled(v: View, g0: Node, c: Node, g: Node, lost: set<Node>, keep: seq<Node>)
    requires OwnedBut(v, c) && Keeps(v, g0, c) && Shaped(v.kids) && c.parent == g
    requires forall b :: b in v.kids[c] ==> b in v.owner && v.owner[b] == g0
    requires forall b :: b in keep <==> b in v.kids[c] && b !in lost
    ensures Owned(View(v.kids[c := keep], RefiledOwner(v.owner, v.kids[c], lost, g), v.live, {}))
  {
    var w := View(v.kids[c := keep], RefiledOwner(v.owner, v.kids[c], lost, g), v.live, {});
    forall d: Node, x | d in w.kids && d.kind == ContactNode && x in w.kids[d] ensures x in w.owner &&
        w.owner[x] == d.parent {
      assert x in v.kids[d];
    }
    forall x | x in w.owner ensures x.parent in w.kids && x in w.kids[x.parent] {
      assert x in v.owner && x != c;
    }
  }

  lemma OwnedTransferred(v: View, g0: Node, c: Node, g: Node, prev: Node?, lost: set<Node>)
    requires OwnedBut(v, c) && Keeps(v, g0, c) && Shaped(v.kids) && g in v.kids && g.kind == GroupNode
    requires c.parent == g && (forall b :: b in v.At(c) ==> b in v.owner && v.owner[b] == g0)
    ensures Owned(Transferred(v, g0, c, g, prev, lost))
  {
    var s := v.At(c);
    var keep := Filter(s, NotIn(lost));
    if g0 == g {
      OwnedShuffled(v, v.kids[g := Placed(Minus(v.At(g), c), prev, c)], v.live);
    } else if s != [] && keep == [] {
      OwnedMinusContact(v, g0, c, c);
    } else {
      forall b { KeptIs(s, lost, b); }
      OwnedRefiled(v, g0, c, g, lost, keep);
      var u := View(v.kids[c := keep], RefiledOwner(v.owner, s, lost, g), v.live, {});
      ShapedFewer(v.kids, c, keep);
      hide Shaped, Keeps, Minus, Filter, RefiledOwner;
      OwnedShuffled(u, u.kids[g0 := Minus(v.At(g0), c)][g := Placed(v.At(g), prev, c)], v.live - Elements(s) * lost);
    }
  }

  lemma ShapedFewer(ks: Kids, p: Node, s: seq<Node>)
    requires Shaped(ks) && p in ks && forall n :: n in s ==> n in ks[p]
    ensures Shaped(ks[p := s])
  {
  }

  lemma BeforeMove(list: BuddyList, c: Node, g0: Node, g: Node, prev: Node?)
    requires Sound(list) && CanMove(list, c, g0, g, prev)
    ensures Tree(list) && Ranked(list) && Cached(list) && list.Listed(c) && list.gone == {}
    ensures OrderOf(list).groups >= 1 && Trust(list) >= 1 && Tabled(ViewOf(list), list.caches.Keys)
    ensures Steady(ViewOf(list), c) && Keeps(ViewOf(list), g0, c)
    ensures ViewOf(list) == View(list.kids, list.owner, list.live, {})
    ensures c.kind == ContactNode && c.parent == g0 && c in list.kids && g in list.kids && g.kind == GroupNode
    ensures prev != c && (prev == null || prev in list.kids[g]) && c in list.live
    ensures forall b :: b in ViewOf(list).At(c) ==> b in list.owner && list.owner[b] == g0
  {
    hide Sound, Coherent, Tree, Ranked, Cached, Tabled, OrderOf, Trust, Shaped, OwnedBut, Keeps;
    SoundParts(list, c);
    IsSound(list);
    OrderIs(list);
    CoherentParts(list);
    FamilyInView(list, c);
    OwnedBuddies(list, c);
  }

  /** Cutting out the contact: nothing but the pointers changes. */
  method CutOutContact(list: BuddyList, c: Node)
    requires Tree(list) && Ranked(list) && Cached(list) && list.Listed(c) && list.gone == {}
    modifies list`root, list`gone, list.live`prev, list.live`next, list.live`child
    ensures Coherent(list) && list.gone == {c}
  {
    hide *;
    CutOut(list, c);
    CoherentParts(list);
  }

  lemma AfterMove(list: BuddyList, v: View, c: Node, g0: Node, g: Node, prev: Node?, lost: set<Node>, o: Order)
    requires Coherent(list) && Steady(v, c) && Keeps(v, g0, c) && Tabled(v, list.caches.Keys)
    requires g in v.kids && g.kind == GroupNode && (prev == null || prev in v.kids[g]) && prev != c
    requires forall b :: b in v.At(c) ==> b in v.owner && v.owner[b] == g0
    requires ViewOf(list) == Transferred(v, g0, c, g, prev, lost)
    requires c.parent == g || (c.parent == g0 && g0 != g && v.At(c) != [] && Filter(v.At(c), NotIn(lost)) == [])
    requires TableTrust(list, list.groupsCache, v.At(null)) == o.groups && o.groups >= 1 && Trust(list) >= 1
    requires o.named == Named(list, v)
    ensures Sound(list) && (Trust(list) >= o.buddies ==> OrderOf(list).AtLeast(o))
    ensures OrderOf(list).AtLeast(o.(buddies := 1))
  {
    hide *;
    SteadyIs(v, c);
    TransferredKeeps(v, g0, c, g, prev, lost);
    FewerNames(list, v, ViewOf(list), list.caches.Keys);
    if c.parent == g {
      OwnedTransferred(v, g0, c, g, prev, lost);
    } else {
      OwnedMinusContact(v, g0, c, c);
      TransferredVanishes(v, g0, c, g, prev, lost);
    }
    ViewIs(list, null);
    StaysSound(list, v, o);
    StaysSound(list, v, o.(buddies := 1));
  }

  lemma TransferredVanishes(v: View, g0: Node, c: Node, g: Node, prev: Node?, lost: set<Node>)
    requires g0 != g && v.At(c) != [] && Filter(v.At(c), NotIn(lost)) == []
    ensures Transferred(v, g0, c, g, prev, lost) == v.MinusContact(g0, c)
  {
  }

  lemma TransferredKeeps(v: View, g0: Node, c: Node, g: Node, prev: Node?, lost: set<Node>)
    requires Keeps(v, g0, c) && g in v.kids
    ensures forall x :: x in Transferred(v, g0, c, g, prev, lost).owner ==> x in v.owner
    ensures Transferred(v, g0, c, g, prev, lost).At(null) == v.At(null)
    ensures Transferred(v, g0, c, g, prev, lost).gone == {}
    ensures c in v.kids && g in v.kids
  {
  }

  lemma HalfwayIs(v: View, c: Node, g: Node, lost: set<Node>)
    requires c in v.kids
    ensures var s := v.At(c);
            Halfway(v, c, g, lost, s, |s|) ==
              View(v.kids[c := Filter(s, NotIn(lost))], RefiledOwner(v.owner, s, lost, g),
                  v.live - Elements(s) * lost, v.gone)
  {
    var s := v.At(c);
    assert s[..|s|] == s && s[|s|..] == [];
    assert Filter(s, NotIn(lost)) + [] == Filter(s, NotIn(lost));
  }

  /** The view when a contact that lost its lost, or stayed in its group, is linked in again. */
  lemma TransferredIs(v: View, g0: Node, c: Node, g: Node, prev: Node?, lost: set<Node>)
    requires Keeps(v, g0, c) && g in v.kids && g.kind == GroupNode && v.gone == {}
    requires g0 != g ==> v.At(c) == [] || Filter(v.At(c), NotIn(lost)) != []
    ensures var u := if g0 == g then v else Halfway(v, c, g, lost, v.At(c), |v.At(c)|);
            var ks := u.kids[g0 := Minus(u.At(g0), c)];
            && g0 in u.kids && u.At(g0) == u.kids[g0]
            && Transferred(v, g0, c, g, prev, lost) == View(ks[g := Placed(ks[g], prev, c)], u.owner, u.live, {})
  {
    HalfwayIs(v, c, g, lost);
    hide Filter, RefiledOwner, Minus, Placed, Halfway;
    if g0 == g {
      var ks := v.kids[g0 := Minus(v.At(g0), c)];
      assert ks[g := Placed(ks[g], prev, c)] == v.kids[g := Placed(Minus(v.At(g), c), prev, c)];
    }
  }

  lemma GroupStays(v: View, g0: Node, c: Node, g: Node, prev: Node?, lost: set<Node>)
    requires Keeps(v, g0, c) && g in v.kids && g.kind == GroupNode && (prev == null || prev in v.kids[g])
    ensures var u := Halfway(v, c, g, lost, v.At(c), |v.At(c)|);
            c in u.kids && g in u.kids && u.kids[g] == v.kids[g] && u.gone == v.gone &&
                u.At(c) == Filter(v.At(c), NotIn(lost))
  {
    HalfwayIs(v, c, g, lost);
  }

  /** The contact `c` has buddies, and all of them exist in the group `g` already. */
  ghost predicate Vanishes(v: View, g0: Node?, c: Node, g: Node, lost: set<Node>) {
    g0 != g && v.At(c) != [] && Filter(v.At(c), NotIn(lost)) == []
  }

  lemma VanishesIs(v: View, g0: Node, c: Node, g: Node, prev: Node?, lost: set<Node>)
    ensures Vanishes(v, g0, c, g, lost) <==> g0 != g && v.At(c) != [] && Filter(v.At(c), NotIn(lost)) == []
    ensures Vanishes(v, g0, c, g, lost) ==> c !in Transferred(v, g0, c, g, prev, lost).live
  {
  }

  /** The contact, cut out of its group, finds its new place. */
  method Relocate(list: BuddyList, c: Node, g0: Node, g: Node, prev: Node?, ghost v: View, ghost t: Trek)
      returns (kept: bool)
    requires Coherent(list) && list.gone == {c} && ViewOf(list) == View(v.kids, v.owner, v.live, {c}) && v.gone == {}
    requires Keeps(v, g0, c) && c.parent == g0 && c.kind == ContactNode && c in v.kids
    requires g in v.kids && g.kind == GroupNode && prev != c && (prev == null || prev in v.kids[g])
    requires t.c == c && t.g0 == g0 && t.g == g && t.v == ViewOf(list) && t.s == v.At(c)
    requires t.drift == list.drift && t.trust == Trust(list) && t.destroyed == g0.destroyed
    requires t.accounts == list.caches.Keys && (g0 == g ==> t.final == list.buddies)
    requires g0 != g ==> Underway(list, t, 0)
    modifies list`root, list`gone, list`kids, list`live, list`buddies, list`caches, list`owner, list`drift
    modifies list.live`prev, list.live`next, list.live`child, list.live`priorityValid, c`parent
    modifies list.live`totalsize, list.live`currentsize, list.live`online, g0`destroyed
    ensures Coherent(list) && list.caches.Keys == t.accounts
    ensures ViewOf(list) == Transferred(v, g0, c, g, prev, t.lost)
    ensures c.parent == g || (c.parent == g0 && g0 != g && v.At(c) != [] && Filter(v.At(c), NotIn(t.lost)) == [])
    ensures list.buddies == t.final && Trusted(list, t.trust, t.s) && (kept <==> !Vanishes(v, g0, c, g, t.lost))
    ensures Passed(t.drift, list.drift, g0 == g || NoneEarly(list, Elements(v.At(c)) * t.lost))
    ensures kept ==> OffAt(list.drift, g0) == OffAt(t.drift, g0)
    ensures g0.destroyed == t.destroyed + if kept then 0 else 1
  {
    hide *;
    VanishesIs(v, g0, c, g, prev, t.lost);
    PassedNone(list.drift);
    TrustedIs(list, t.trust, t.s);
    ghost var v1 := ViewOf(list);
    ViewIs(list, c);
    KeepsParts(v, g0, c);
    KeepsAfterCut(v, g0, c);
    if g0 != g {
      GroupStays(v1, g0, c, g, prev, t.lost);
      var emptied := RefileAll(list, c, g0, g, t);
      if emptied {
        VacatedIs(list, t);
        TransferredVanishes(v, g0, c, g, prev, t.lost);
        return false;
      }
      AfterRefiling(list, t);
      StillSome(v, v1, c, g, t.lost);
    }
    kept := Rejoin(list, c, g0, g, prev, v, v1, t);
  }

  /** The contact still exists, and is linked in. */
  method Rejoin(list: BuddyList, c: Node, g0: Node, g: Node, prev: Node?, ghost v: View, ghost v1: View, ghost t: Trek)
      returns (kept: bool)
    requires Coherent(list) && list.gone == {c} && c in list.kids && c.kind == ContactNode && c.parent == g0
    requires v1 == View(v.kids, v.owner, v.live, {c}) && t.s == v.At(c) && list.live <= v.live && g0 in v.kids
    requires Keeps(v, g0, c) && g in v.kids && g.kind == GroupNode && v.gone == {}
    requires prev != c && (prev == null || prev in v.kids[g])
    requires ViewOf(list) == if g0 == g then v1 else Halfway(v1, c, g, t.lost, t.s, |t.s|)
    requires g0 == g || v.At(c) == [] || Filter(v.At(c), NotIn(t.lost)) != []
    requires list.buddies == t.final && Trusted(list, t.trust, t.s)
    modifies list`root, list`gone, list`kids, list.live`prev, list.live`next, list.live`child, c`parent
    modifies list.live`totalsize, list.live`currentsize, list.live`online
    ensures Coherent(list) && c.parent == g && kept && Trusted(list, t.trust, t.s)
    ensures ViewOf(list) == Transferred(v, g0, c, g, prev, t.lost)
  {
    hide *;
    kept := true;
    ViewIs(list, c);
    KeepsAfterCut(v, g0, c);
    if g0 != g {
      GroupStays(v1, g0, c, g, prev, t.lost);
    }
    TransferredFrom(v, g0, c, g, prev, t.lost);
    assert Trusted(list, t.trust, t.s);
    Transfer(list, c, g0, g, prev);
    ViewIs(list, c);
  }

  /** What holds after the loop if the contact still exists. */
  lemma AfterRefiling(list: BuddyList, t: Trek)
    requires Underway(list, t, |t.s|)
    ensures Coherent(list) && list.gone == {t.c} && t.c in list.kids && t.c.kind == ContactNode && t.c.parent == t.g0
    ensures list.caches.Keys == t.accounts && list.live <= t.v.live
    ensures ViewOf(list) == Halfway(t.v, t.c, t.g, t.lost, t.s, |t.s|) && (t.s != [] ==> ViewOf(list).At(t.c) != [])
    ensures list.buddies == t.final && Trusted(list, t.trust, t.s)
    ensures Passed(t.drift, list.drift, NoneEarly(list, Elements(t.s) * t.lost))
    ensures OffAt(list.drift, t.g0) == OffAt(t.drift, t.g0) && t.g0.destroyed == t.destroyed
  {
    hide *;
    UnderwayIs(list, t, |t.s|);
    ForeseenAtLast(list, list.buddies, t.s, t.g0, t.g, t.lost, t.final);
    MovingParts(list, t.c, t.g0, t.g);
    assert t.s[..|t.s|] == t.s;
  }

  lemma MovingParts(list: BuddyList, c: Node, g0: Node, g: Node)
    requires Moving(list, c, g0, g)
    ensures Coherent(list) && list.gone == {c} && c in list.kids && c.kind == ContactNode && c.parent == g0
  {
  }

  lemma IsMoving(list: BuddyList, c: Node, g0: Node, g: Node)
    requires Coherent(list) && list.gone == {c} && g0 != g && c in list.kids && c.kind == ContactNode &&
      c.parent == g0
    ensures Moving(list, c, g0, g)
  {
    hide Coherent;
  }

  lemma KeepsAfterCut(v: View, g0: Node, c: Node)
    requires Keeps(v, g0, c)
    ensures var w := View(v.kids, v.owner, v.live, {c});
            Keeps(w, g0, c) && w.At(c) == v.At(c) && w.MinusContact(g0, c) == v.MinusContact(g0, c)
  {
  }

  lemma TransferredFrom(v: View, g0: Node, c: Node, g: Node, prev: Node?, lost: set<Node>)
    requires Keeps(v, g0, c) && g in v.kids && g.kind == GroupNode && v.gone == {}
    ensures (g0 == g || v.At(c) == [] || Filter(v.At(c), NotIn(lost)) != []) ==>
              var v1 := View(v.kids, v.owner, v.live, {c});
              var u := if g0 == g then v1 else Halfway(v1, c, g, lost, v1.At(c), |v1.At(c)|);
              g0 in u.kids && var ks := u.kids[g0 := Minus(u.kids[g0], c)];
              g in ks && Transferred(v, g0, c, g, prev, lost) ==
                  View(ks[g := Placed(ks[g], prev, c)], u.owner, u.live, {})
  {
    if g0 == g || v.At(c) == [] || Filter(v.At(c), NotIn(lost)) != [] {
      TransferredIs(v, g0, c, g, prev, lost);
    }
  }

  /** What is left of a contact that was not emptied. */
  lemma StillSome(v: View, v1: View, c: Node, g: Node, lost: set<Node>)
    requires v1.At(c) == v.At(c) && c in v1.kids
    ensures Halfway(v1, c, g, lost, v1.At(c), |v1.At(c)|).At(c) == Filter(v.At(c), NotIn(lost))
  {
    HalfwayIs(v1, c, g, lost);
  }

  /** The contact `c` that is to move from the group `g0` to `g`, before it is cut out. */
  ghost function TrekOf(list: BuddyList, c: Node, g0: Node, g: Node): Trek
    reads list, list.owner.Keys`name, g0`destroyed, (set b | c in list.kids && b in list.kids[c])`name
  {
    var s := ViewOf(list).At(c);
    Trek(list.caches.Keys, View(list.kids, list.owner, list.live, {c}), c, g0, g, s,
         Refused(list, list.buddies, s, g0, g),
         if g0 == g then list.buddies else RefiledTable(list, list.buddies, s, g0, g),
         list.drift, Trust(list), g0.destroyed)
  }

  lemma TrekIs(list: BuddyList, c: Node, g0: Node, g: Node)
    ensures var s := ViewOf(list).At(c);
            TrekOf(list, c, g0, g) ==
              Trek(list.caches.Keys, View(list.kids, list.owner, list.live, {c}), c, g0, g, s,
                   Refused(list, list.buddies, s, g0, g),
                   if g0 == g then list.buddies else RefiledTable(list, list.buddies, s, g0, g),
                   list.drift, Trust(list), g0.destroyed)
    ensures TrekOf(list, c, g0, g).lost <= Elements(ViewOf(list).At(c))
  {
    RefusedAmong(list, list.buddies, ViewOf(list).At(c), g0, g);
  }

  /** The list that the contact `c` leaves, and from where. */
  ghost function Leaving(list: BuddyList, c: Node): Departure
    reads list, list.owner.Keys`name, (set g | null in list.kids && g in list.kids[null])`name
    reads c`parent, (if c.parent == null then {} else {c.parent})`destroyed
  {
    Departure(ViewOf(list), c.parent, c, list.drift, list.buddies, OrderOf(list),
              if c.parent == null then 0 else c.parent.destroyed)
  }

  lemma LeavingIs(list: BuddyList, c: Node)
    ensures Leaving(list, c) ==
      Departure(ViewOf(list), c.parent, c, list.drift, list.buddies, OrderOf(list),
                if c.parent == null then 0 else c.parent.destroyed)
    ensures OrderOf(list) ==
      Order(Named(list, ViewOf(list)), TableTrust(list, list.groupsCache, ViewOf(list).At(null)), Trust(list))
  {
  }

  /** What putting the contact `c` behind `prev`, or in front, in the group `g` makes
      of the list `d`. `kept` says whether the contact still exists. */
  ghost predicate Landed(list: BuddyList, d: Departure, c: Node, g0: Node, g: Node, prev: Node?, kept: bool)
    reads list, list.owner.Keys`name, (set h | null in list.kids && h in list.kids[null])`name
    reads (set b | b in d.v.At(c))`name, g0`destroyed
  {
    var s := d.v.At(c);
    var lost := Refused(list, d.buddies, s, g0, g);
    && ViewOf(list) == Transferred(d.v, g0, c, g, prev, lost)
    && list.buddies == (if g0 == g then d.buddies else RefiledTable(list, d.buddies, s, g0, g))
    && (kept <==> !Vanishes(d.v, g0, c, g, lost)) && (!kept ==> c !in list.live)
    && Passed(d.drift, list.drift, g0 == g || NoneEarly(list, lost))
    && (kept ==> OffAt(list.drift, g0) == OffAt(d.drift, g0))
    && g0.destroyed == d.destroyed + (if kept then 0 else 1)
    && OrderOf(list).AtLeast(d.order.(buddies := if AllNamed(s) then d.order.buddies else 1))
  }

  lemma LandedIs(list: BuddyList, d: Departure, c: Node, g0: Node, g: Node, prev: Node?, kept: bool)
    ensures var s := d.v.At(c);
            var lost := Refused(list, d.buddies, s, g0, g);
            Landed(list, d, c, g0, g, prev, kept) <==>
              && ViewOf(list) == Transferred(d.v, g0, c, g, prev, lost)
              && list.buddies == (if g0 == g then d.buddies else RefiledTable(list, d.buddies, s, g0, g))
              && (kept <==> !Vanishes(d.v, g0, c, g, lost)) && (!kept ==> c !in list.live)
              && Passed(d.drift, list.drift, g0 == g || NoneEarly(list, lost))
              && (kept ==> OffAt(list.drift, g0) == OffAt(d.drift, g0))
              && g0.destroyed == d.destroyed + (if kept then 0 else 1)
              && OrderOf(list).AtLeast(d.order.(buddies := if AllNamed(s) then d.order.buddies else 1))
  {
  }

  /** `purple_blist_add_contact` for a contact that is in the list: it moves
      behind `prev`, or in front, in the group `g`. Nothing is lost but the buddies
      that the table refuses; a contact that had no others is freed. */
  method MoveContact(list: BuddyList, c: Node, g: Node, prev: Node?) returns (kept: bool)
    requires Sound(list) && c.parent != null && CanMove(list, c, c.parent, g, prev)
    modifies list`root, list`gone, list`kids, list`live, list`buddies, list`caches, list`owner, list`drift
    modifies list.live`prev, list.live`next, list.live`child, list.live`priorityValid, c`parent
    modifies list.live`totalsize, list.live`currentsize, list.live`online, c.parent`destroyed
    ensures Sound(list) && list.caches.Keys == old(list.caches).Keys
    ensures Landed(list, old(Leaving(list, c)), c, old(c.parent), g, prev, kept)
  {
    hide *;
    var g0 := c.parent;
    ghost var d, t := Leaving(list, c), TrekOf(list, c, c.parent, g);
    LeavingIs(list, c);
    TrekIs(list, c, g0, g);
    BeforeMove(list, c, g0, g, prev);
    if g0 != g {
      KnownIs(list, c, g0, g);
    }
    assert TableTrust(list, list.groupsCache, d.v.At(null)) == d.order.groups && Named(list, d.v) == d.order.named;
    CutOutContact(list, c);
    ViewIs(list, c);
    if g0 != g {
      IsMoving(list, c, g0, g);
      SetsOut(list, t);
    }
    assert TableTrust(list, list.groupsCache, d.v.At(null)) == d.order.groups && Named(list, d.v) == d.order.named;
    kept := Arrive(list, c, g0, g, prev, d, t);
  }

  /** The rest of `MoveContact`, once the contact is cut out. */
  method Arrive(list: BuddyList, c: Node, g0: Node, g: Node, prev: Node?, ghost d: Departure, ghost t: Trek)
    returns (kept: bool)
    requires Coherent(list) && list.gone == {c} && ViewOf(list) == t.v == View(d.v.kids, d.v.owner, d.v.live, {c})
    requires Steady(d.v, c) && d.v.gone == {} && Keeps(d.v, g0, c) && Tabled(d.v, list.caches.Keys)
    requires c.parent == g0 && c.kind == ContactNode && c in d.v.kids
    requires g in d.v.kids && g.kind == GroupNode && prev != c && (prev == null || prev in d.v.kids[g])
    requires forall b :: b in d.v.At(c) ==> b in d.v.owner && d.v.owner[b] == g0
    requires t.c == c && t.g0 == g0 && t.g == g && t.s == d.v.At(c) && t.accounts == list.caches.Keys
    requires t.lost == Refused(list, d.buddies, t.s, g0, g) && t.lost <= Elements(t.s)
    requires t.final == if g0 == g then d.buddies else RefiledTable(list, d.buddies, t.s, g0, g)
    requires t.drift == list.drift == d.drift && t.trust == Trust(list) == d.order.buddies >= 1
    requires t.destroyed == g0.destroyed == d.destroyed && list.buddies == d.buddies
    requires g0 != g ==> Underway(list, t, 0)
    requires TableTrust(list, list.groupsCache, d.v.At(null)) == d.order.groups >= 1 &&
      Named(list, d.v) == d.order.named
    modifies list`root, list`gone, list`kids, list`live, list`buddies, list`caches, list`owner, list`drift
    modifies list.live`prev, list.live`next, list.live`child, list.live`priorityValid, c`parent
    modifies list.live`totalsize, list.live`currentsize, list.live`online, g0`destroyed
    ensures Sound(list) && list.caches.Keys == old(list.caches).Keys
    ensures Landed(list, d, c, g0, g, prev, kept)
  {
    hide *;
    VanishesIs(d.v, g0, c, g, prev, t.lost);
    assert Steady(d.v, c) && Elements(t.s) * t.lost == t.lost;
    assert TableTrust(list, list.groupsCache, d.v.At(null)) == d.order.groups && Named(list, d.v) == d.order.named;
    kept := Relocate(list, c, g0, g, prev, d.v, t);
    ViewIs(list, c);
    TrustedIs(list, t.trust, t.s);
    AfterMove(list, d.v, c, g0, g, prev, t.lost, d.order);
    LandedIs(list, d, c, g0, g, prev, kept);
  }
}
