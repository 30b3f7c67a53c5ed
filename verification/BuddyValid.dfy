/** What holds of a buddy list between any two calls.
    Most bodies below hide every definition; the short lemmas called `...Is` and
    `...Parts` give back the single definition that a step needs. */
module BuddyValid {
  import opened Lists
  import opened BuddyTree
  import opened BuddyCounts
  import opened BuddyIndex
  import opened BuddyState

  /** The file lists exactly the buddies of the tree, each under the group of
      its contact; nothing is said about where the buddy or contact `but` belongs. */
  ghost predicate OwnedBut(v: View, but: Node?)
    reads (v.kids.Keys - {but})`parent, (v.owner.Keys - {but})`parent
  {
    && (forall c: Node, b :: c in v.kids && c.kind == ContactNode && c != but && b in v.kids[c] ==>
          b in v.owner && v.owner[b] == c.parent)
    && (forall b :: b in v.owner ==> b.kind == BuddyNode)
    && (forall b :: b in v.owner && b != but ==> b.parent in v.kids && b in v.kids[b.parent])
  }

  ghost predicate Owned(v: View)
    reads v.kids.Keys`parent, v.owner.Keys`parent
  {
    OwnedBut(v, null)
  }

  ghost predicate Named(list: BuddyList, v: View)
    reads v.owner.Keys`name
  {
    forall b :: b in v.owner ==> b.name != ""
  }

  /** Every buddy on file has an account with a table. */
  ghost predicate Tabled(v: View, accounts: set<Account>) {
    forall b :: b in v.owner ==> b.account in accounts
  }

  /** Every entry of the table of groups leads to one of the groups `s` with that collation key. */
  ghost predicate GroupsLead(list: BuddyList, cache: map<string, Node>, s: seq<Node>)
    reads (set g | g in s)`name
  {
    && (forall g :: g in s ==> g.name != "")
    && (forall k :: k in cache ==> cache[k] in s && list.collate(cache[k].name) == k)
  }

  /** The table `cache` has exactly the groups `s`, each under its collation key. */
  ghost predicate GroupTable(list: BuddyList, cache: map<string, Node>, s: seq<Node>)
    reads (set g | g in s)`name
  {
    && GroupsLead(list, cache, s)
    && forall g :: g in s ==> list.collate(g.name) in cache && cache[list.collate(g.name)] == g
  }

  /** How far a table of groups can be trusted: 1 when every entry leads to a
      group with that key, and 2 when every group has its entry, too. */
  ghost function TableTrust(list: BuddyList, cache: map<string, Node>, s: seq<Node>): (t: nat)
    reads (set g | g in s)`name
    ensures t <= 2
  {
    if GroupTable(list, cache, s) then 2 else if GroupsLead(list, cache, s) then 1 else 0
  }

  lemma TableTrustIs(list: BuddyList, cache: map<string, Node>, s: seq<Node>)
    ensures TableTrust(list, cache, s) == 2 <==> GroupTable(list, cache, s)
    ensures TableTrust(list, cache, s) >= 1 <==> GroupsLead(list, cache, s)
  {
  }

  /** The table of groups has exactly the listed groups, each under the collation key of its name. */
  ghost predicate GroupsFiled(list: BuddyList, v: View)
    reads list`groupsCache, (set g | null in v.kids && g in v.kids[null])`name
  {
    GroupTable(list, list.groupsCache, v.At(null))
  }

  /** How far the names and tables of a list can be trusted. */
  datatype Order = Order(named: bool, groups: nat, buddies: nat) {
    predicate Full() {
      named && groups == 2 && buddies == 2
    }

    /** At least as far as `o`. */
    predicate AtLeast(o: Order) {
      (o.named ==> named) && o.groups <= groups && o.buddies <= buddies
    }
  }

  ghost function OrderOf(list: BuddyList): (o: Order)
    reads list`kids, list`owner, list`live, list`gone, list`buddies, list`groupsCache
    reads list.owner.Keys`name, (set g | null in list.kids && g in list.kids[null])`name
  {
    Order(Named(list, ViewOf(list)), TableTrust(list, list.groupsCache, ViewOf(list).At(null)), Trust(list))
  }

  lemma OrderIs(list: BuddyList)
    ensures OrderOf(list) ==
      Order(Named(list, ViewOf(list)), TableTrust(list, list.groupsCache, ViewOf(list).At(null)), Trust(list))
    ensures ViewOf(list) == View(list.kids, list.owner, list.live, list.gone)
  {
  }

  /** What every run of every operation keeps: pointers, levels, counters and
      the priority cache agree with one tree, every buddy of which belongs to an
      account with a table, and the tables lead to nodes of this tree only. */
  ghost predicate Sound(list: BuddyList)
    reads list, list.live, list.kids.Keys, list.owner.Keys, (set g | null in list.kids && g in list.kids[null])`name
  {
    && Coherent(list) && list.gone == {} && Owned(ViewOf(list)) && Tabled(ViewOf(list), list.caches.Keys)
    && OrderOf(list).groups >= 1 && OrderOf(list).buddies >= 1
  }

  /** Besides, every buddy has a name, and the tables find every group and every buddy. */
  ghost predicate Valid(list: BuddyList)
    reads list, list.live, list.kids.Keys, list.owner.Keys, (set g | null in list.kids && g in list.kids[null])`name
  {
    Sound(list) && OrderOf(list).Full()
  }

  lemma IsSound(list: BuddyList)
    ensures Sound(list) <==>
      Coherent(list) && list.gone == {} && Owned(ViewOf(list)) && Tabled(ViewOf(list), list.caches.Keys) &&
      OrderOf(list).groups >= 1 && OrderOf(list).buddies >= 1
    ensures Valid(list) <==> Sound(list) && OrderOf(list).Full()
    ensures ViewOf(list) == View(list.kids, list.owner, list.live, list.gone)
  {
  }

  lemma IsValid(list: BuddyList)
    ensures Valid(list) <==>
      Sound(list) && Filed(list) && Named(list, ViewOf(list)) && GroupsFiled(list, ViewOf(list))
  {
    TrustIs(list);
  }

  /** `c` is a contact of `g`, and `b` a buddy of `c` alone. */
  ghost predicate Stands(v: View, g: Node?, c: Node?, b: Node) {
    && g in v.kids && g != null && g.kind == GroupNode
    && c in v.kids && c != null && c.kind == ContactNode
    && b in v.kids[c] && NoDup(v.kids[c]) && b !in v.kids
    && forall p :: p in v.kids && b in v.kids[p] ==> p == c
  }

  /** `g` is a group, `c` a contact, and the buddies of `c` belong to no other node. */
  ghost predicate Keeps(v: View, g: Node?, c: Node?) {
    && g in v.kids && g != null && g.kind == GroupNode
    && c in v.kids && c != null && c.kind == ContactNode
    && forall p, b :: p in v.kids && b in v.kids[c] && b in v.kids[p] ==> p == c
  }

  lemma OwnedMinusContact(v: View, g: Node, c: Node, but: Node?)
    requires OwnedBut(v, but) && Keeps(v, g, c) && Shaped(v.kids)
    requires but == null || but == c || but in v.kids[c]
    ensures Owned(v.MinusContact(g, c))
  {
    var w := v.MinusContact(g, c);
    forall d: Node, x | d in w.kids && d.kind == ContactNode && x in w.kids[d] ensures x in w.owner &&
        w.owner[x] == d.parent {
      assert d in v.kids && x in v.kids[d];
      assert Fits(d, x);
    }
    forall x | x in w.owner ensures x.kind == BuddyNode && x.parent in w.kids && x in w.kids[x.parent] {
      assert x in v.owner && x !in v.kids[c] && x.kind == BuddyNode;
      assert x != c && x != but;
      assert Fits(x.parent, x);
    }
  }

  lemma OwnedMinusBuddy(v: View, g: Node, c: Node, b: Node)
    requires OwnedBut(v, b) && Stands(v, g, c, b) && Shaped(v.kids)
    ensures Owned(v.MinusBuddy(g, c, b))
  {
    if v.At(c) == [b] {
      assert forall x :: x in v.kids[c] <==> x == b;
      OwnedMinusContact(v, g, c, b);
    } else {
      var w := v.MinusBuddy(g, c, b);
      MinusIsDistinct(v.kids[c], b);
      assert w.kids == v.kids[c := Minus(v.kids[c], b)] && w.owner == v.owner - {b};
      hide Minus, View.MinusBuddy, NoDup, Shaped;
      forall d: Node, x | d in w.kids && d.kind == ContactNode && x in w.kids[d] ensures x in w.owner &&
          w.owner[x] == d.parent {
        assert x in v.kids[d] && x != b;
      }
      forall x | x in w.owner ensures x.kind == BuddyNode && x.parent in w.kids && x in w.kids[x.parent] {
        assert x in v.owner && x != b;
      }
    }
  }

  lemma OwnedPlusBuddy(v: View, g: Node, c: Node, prev: Node?, b: Node)
    requires OwnedBut(v, b) && b.parent == c && b.kind == BuddyNode && c.parent == g
    requires c in v.kids && c.kind == ContactNode && (prev == null || prev in v.kids[c])
    requires forall d: Node :: d in v.kids ==> b !in v.kids[d]
    ensures Owned(v.PlusBuddy(g, c, prev, b))
  {
    var w := v.PlusBuddy(g, c, prev, b);
    forall d: Node, x | d in w.kids && d.kind == ContactNode && x in w.kids[d] ensures x in w.owner &&
        w.owner[x] == d.parent {
      assert d != c ==> x in v.kids[d];
    }
  }

  /** What moving the buddy or contact `b` cannot disturb. */
  ghost predicate Steady(v: View, b: Node)
    reads (v.kids.Keys - {b})`parent, (v.owner.Keys - {b})`parent
  {
    Shaped(v.kids) && OwnedBut(v, b) && v.gone == {}
  }

  lemma SteadyIs(v: View, b: Node)
    ensures Steady(v, b) <==> Shaped(v.kids) && OwnedBut(v, b) && v.gone == {}
  {
  }

  lemma OwnedAnyway(v: View, b: Node?)
    requires Owned(v)
    ensures OwnedBut(v, b)
  {
  }

  lemma SoundParts(list: BuddyList, b: Node?)
    requires Sound(list)
    ensures Coherent(list) && Tree(list) && Cached(list) && list.gone == {}
    ensures list.Linked() && Shaped(list.kids) && list.Rooted()
    ensures OwnedBut(ViewOf(list), b) && Tabled(ViewOf(list), list.caches.Keys)
    ensures ViewOf(list) == View(list.kids, list.owner, list.live, list.gone)
  {
    hide *;
    IsSound(list);
    CoherentParts(list);
    TreeParts(list);
    OwnedAnyway(ViewOf(list), b);
  }

  /** The size of a group is that of its children exactly if none of its contacts was ever destroyed. */
  lemma SizeIs(list: BuddyList, g: Node)
    requires Sound(list) && g in list.kids && g.kind == GroupNode
    ensures g.totalsize == |list.kids[g]| + g.destroyed
    ensures g.totalsize == |list.kids[g]| <==> g.destroyed == 0
  {
    SoundParts(list, null);
    TreeParts(list);
    assert NodeCounts(g, list.kids, CurrentOf(list), OnlineOf(list));
  }

  lemma ValidParts(list: BuddyList, b: Node?)
    requires Valid(list)
    ensures Sound(list) && Coherent(list) && Tree(list) && Filed(list) && Cached(list) && list.gone == {}
    ensures list.Linked() && Shaped(list.kids) && list.Rooted()
    ensures OwnedBut(ViewOf(list), b) && Named(list, ViewOf(list)) && GroupsFiled(list, ViewOf(list))
    ensures ViewOf(list) == View(list.kids, list.owner, list.live, list.gone)
  {
    hide *;
    IsValid(list);
    SoundParts(list, b);
  }

  lemma AtLeastTwice(o'': Order, o': Order, o: Order)
    requires o''.AtLeast(o') && o'.AtLeast(o)
    ensures o''.AtLeast(o)
  {
  }

  lemma StaysValid(list: BuddyList, o: Order)
    requires Sound(list) && OrderOf(list).AtLeast(o)
    ensures o.Full() ==> Valid(list)
  {
    OrderIs(list);
  }

  /** What `o` says of names and tables, for the tree `v`. */
  ghost predicate Ordered(list: BuddyList, v: View, o: Order)
    reads list`groupsCache, list`buddies, list`owner, list`caches, list.owner.Keys`name
    reads v.owner.Keys`name, (set g | null in v.kids && g in v.kids[null])`name
  {
    && Tabled(v, list.caches.Keys) && Named(list, v) == o.named
    && TableTrust(list, list.groupsCache, v.At(null)) == o.groups >= 1 && Trust(list) == o.buddies >= 1
  }

  lemma OrderedIs(list: BuddyList, v: View, o: Order)
    ensures Ordered(list, v, o) <==>
      && Tabled(v, list.caches.Keys) && Named(list, v) == o.named
      && TableTrust(list, list.groupsCache, v.At(null)) == o.groups >= 1 && Trust(list) == o.buddies >= 1
  {
  }

  lemma IsOrdered(list: BuddyList)
    requires Sound(list)
    ensures Ordered(list, ViewOf(list), OrderOf(list))
  {
    hide *;
    IsSound(list);
    OrderIs(list);
    OrderedIs(list, ViewOf(list), OrderOf(list));
  }

  /** After a step that rearranges the children of groups. */
  lemma StaysOrdered(list: BuddyList, v: View, o: Order)
    requires Coherent(list) && list.gone == {} && Owned(ViewOf(list)) && Ordered(list, v, o)
    requires ViewOf(list).At(null) == v.At(null) && ViewOf(list).owner == v.owner
    ensures Sound(list) && OrderOf(list) == o
  {
    OrderedIs(list, v, o);
    SameNames(list, v, ViewOf(list), list.caches.Keys);
    hide *;
    StaysSound(list, v, o);
  }

  lemma SameNames(list: BuddyList, v: View, w: View, accounts: set<Account>)
    requires v.owner == w.owner
    ensures Named(list, v) <==> Named(list, w)
    ensures Tabled(v, accounts) <==> Tabled(w, accounts)
  {
  }

  /** After a step that leaves the groups alone and puts at most `b` on file. */
  lemma StaysSound(list: BuddyList, v: View, o: Order)
    requires Coherent(list) && list.gone == {} && Owned(ViewOf(list)) && Tabled(ViewOf(list), list.caches.Keys)
    requires ViewOf(list).At(null) == v.At(null) && TableTrust(list, list.groupsCache, v.At(null)) == o.groups
    requires o.groups >= 1 && Trust(list) >= 1
    ensures Sound(list) && OrderOf(list) == Order(Named(list, ViewOf(list)), o.groups, Trust(list))
    ensures (o.named ==> Named(list, ViewOf(list))) && Trust(list) >= o.buddies ==> OrderOf(list).AtLeast(o)
  {
    hide *;
    OrderIs(list);
    IsSound(list);
    AtLeastIs(OrderOf(list), o);
  }

  lemma AtLeastIs(o': Order, o: Order)
    ensures o'.AtLeast(o) <==> (o.named ==> o'.named) && o.groups <= o'.groups && o.buddies <= o'.buddies
  {
  }

  lemma FewerNames(list: BuddyList, v: View, w: View, accounts: set<Account>)
    requires forall x :: x in w.owner ==> x in v.owner
    ensures Named(list, v) ==> Named(list, w)
    ensures Tabled(v, accounts) ==> Tabled(w, accounts)
  {
  }
}
