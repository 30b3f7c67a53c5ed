/** The counters kept in contacts and groups, and how single steps change them.
    Most bodies below hide every definition; the short lemmas called `...Is` and
    `...Parts` give back the single definition that a step needs. */
module BuddyCounts {
  import opened Lists
  import opened BuddyTree

  /** What a counter counts, and by how much the counters of single contacts and groups are off. */
  datatype Reading = Reading(test: Node -> bool, drift: map<Node, int>) {
    function Off(n: Node): int {
      OffAt(drift, n)
    }

    /** What the counter of the contact `c` says. */
    function Sum(ks: Kids, c: Node): int
      requires c in ks
    {
      Count(ks[c], test) + Off(c)
    }

    /** A contact counts in its group when its own counter is positive, a chat when it passes the test itself. */
    function Lit(ks: Kids): Node -> bool {
      (n: Node) => if n in ks then Sum(ks, n) > 0 else test(n)
    }

    /** The same reading, except that the counter of `n` is off by `k` more. */
    function Shifted(n: Node, k: int): Reading {
      Reading(test, Shift(drift, n, k))
    }
  }

  /** By how much the counter of `n` is off. */
  function OffAt(drift: map<Node, int>, n: Node): int {
    if n in drift then drift[n] else 0
  }

  /** `drift`, with `k` more at `n` */
  function Shift(drift: map<Node, int>, n: Node, k: int): map<Node, int> {
    if k == 0 then drift else drift[n := k + OffAt(drift, n)]
  }

  /** What `currentsize` counts: nodes of connected accounts. */
  function InConnected(connected: set<Account>): Reading {
    Reading((n: Node) => n.account in connected, map[])
  }

  /** What `online` counts: buddies whose presence is online, and chats of connected accounts. */
  function InOnline(connected: set<Account>, present: set<Node>, drift: map<Node, int>): Reading {
    Reading((n: Node) => if n.kind == ChatNode then n.account in connected else n in present, drift)
  }

  /** The presence of `b` is online while its account is not connected, as when the account is only connecting. */
  predicate Early(list: BuddyList, b: Node)
    reads list`connected, list`present
  {
    b in list.present && b.account !in list.connected
  }

  /** The counters of `x` are those of a recount of its children. */
  ghost predicate NodeCounts(x: Node, ks: Kids, current: Reading, online: Reading)
    requires x in ks
    reads x`totalsize, x`currentsize, x`online, x`destroyed
  {
    if x.kind == ContactNode then
      && x.totalsize == |ks[x]|
      && x.currentsize == current.Sum(ks, x)
      && x.online == online.Sum(ks, x)
    else
      && x.totalsize == |ks[x]| + x.destroyed
      && x.currentsize == Count(ks[x], current.Lit(ks)) + current.Off(x)
      && x.online == Count(ks[x], online.Lit(ks)) + online.Off(x)
  }

  ghost predicate Counted(ks: Kids, current: Reading, online: Reading)
    reads ks.Keys`totalsize, ks.Keys`currentsize, ks.Keys`online, ks.Keys`destroyed
  {
    forall x: Node :: x in ks ==> NodeCounts(x, ks, current, online)
  }

  /** Two trees and readings that agree on `x` and everything below it. */
  ghost predicate Agree(x: Node, ks: Kids, ks': Kids, p: Reading, p': Reading)
    requires x in ks
  {
    && x in ks' && ks'[x] == ks[x] && p'.Off(x) == p.Off(x)
    && forall n :: n in ks[x] ==>
         if x.kind == ContactNode then p'.test(n) == p.test(n) else p'.Lit(ks')(n) == p.Lit(ks)(n)
  }

  lemma CountsAgree(x: Node, ks: Kids, ks': Kids, current: Reading, online: Reading, current': Reading,
      online': Reading)
    requires x in ks && NodeCounts(x, ks, current, online)
    requires Agree(x, ks, ks', current, current') && Agree(x, ks, ks', online, online')
    ensures NodeCounts(x, ks', current', online')
  {
    if x.kind == ContactNode {
      CountSame(ks[x], current.test, current'.test);
      CountSame(ks[x], online.test, online'.test);
    } else {
      CountSame(ks[x], current.Lit(ks), current'.Lit(ks'));
      CountSame(ks[x], online.Lit(ks), online'.Lit(ks'));
    }
  }

  /** The same test, and off by the same everywhere but at `c`. */
  ghost predicate Alike(p: Reading, p': Reading, c: Node) {
    p'.test == p.test && forall n :: n in p.drift.Keys + p'.drift.Keys && n != c ==> p'.Off(n) == p.Off(n)
  }

  lemma AlikeIs(p: Reading, c: Node, k: int)
    ensures Alike(p, p.Shifted(c, k), c) && p.Shifted(c, k).Off(c) == p.Off(c) + k && p.Shifted(c, 0) == p
  {
  }

  /** Replacing the buddies of the contact `c` moves the count of its group by at most one. */
  lemma LitReplaced(ks: Kids, g: Node, c: Node, s: seq<Node>, p: Reading, p': Reading)
    requires g in ks && c in ks && g != c && c in ks[g] && NoDup(ks[g]) && Alike(p, p', c)
    ensures Count(ks[g], p'.Lit(ks[c := s])) + (if p.Sum(ks, c) > 0 then 1 else 0)
         == Count(ks[g], p.Lit(ks)) + if p'.Sum(ks[c := s], c) > 0 then 1 else 0
  {
    CountFlip(ks[g], c, p.Lit(ks), p'.Lit(ks[c := s]));
  }

  /** Replacing the buddies of `c` concerns no node but `c` and its group. */
  lemma ReplacedElsewhere(ks: Kids, g: Node, c: Node, s: seq<Node>, x: Node, p: Reading, p': Reading)
    requires x in ks && c in ks && x != c && c !in ks[x] && Alike(p, p', c)
    ensures Agree(x, ks, ks[c := s], p, p')
  {
  }

  /** `c` is a contact of the group `g` and of no other node. */
  ghost predicate Family(ks: Kids, g: Node, c: Node) {
    && g in ks && g.kind == GroupNode && NoDup(ks[g])
    && c in ks && c.kind == ContactNode && c in ks[g]
    && forall x :: x in ks && c in ks[x] ==> x == g
  }

  /** The counters after the buddies of one contact were replaced: only the
      contact and its group have to be looked at again. */
  lemma CountsReplaced(ks: Kids, g: Node, c: Node, s: seq<Node>, current: Reading, online: Reading, online': Reading)
    requires Family(ks, g, c) && Alike(online, online', c)
    requires forall x: Node :: x in ks && x != c && x != g ==> NodeCounts(x, ks, current, online)
    requires c.totalsize == |s| && c.currentsize == current.Sum(ks[c := s], c) && c.online == online'.Sum(ks[c := s], c)
    requires g.totalsize == |ks[g]| + g.destroyed
    requires g.currentsize + (if current.Sum(ks, c) > 0 then 1 else 0)
          == Count(ks[g], current.Lit(ks)) + current.Off(g) + if current.Sum(ks[c := s], c) > 0 then 1 else 0
    requires g.online + (if online.Sum(ks, c) > 0 then 1 else 0)
          == Count(ks[g], online.Lit(ks)) + online.Off(g) + if online'.Sum(ks[c := s], c) > 0 then 1 else 0
    ensures Counted(ks[c := s], current, online')
  {
    AlikeIs(current, c, 0);
    LitReplaced(ks, g, c, s, current, current);
    LitReplaced(ks, g, c, s, online, online');
    forall x: Node | x in ks && x != c && x != g ensures NodeCounts(x, ks[c := s], current, online') {
      ReplacedElsewhere(ks, g, c, s, x, current, current);
      ReplacedElsewhere(ks, g, c, s, x, online, online');
      CountsAgree(x, ks, ks[c := s], current, online, current, online');
    }
  }

  /** The counter updates for a buddy that leaves the contact `c` of `g`. */
  method Lower(c: Node, g: Node, online: bool, connected: bool)
    requires c != g
    modifies c`totalsize, c`currentsize, c`online, g`currentsize, g`online
    ensures c.totalsize == old(c.totalsize) - 1
    ensures c.online == old(c.online) - if online then 1 else 0
    ensures g.online == old(g.online) - if online && c.online == 0 then 1 else 0
    ensures c.currentsize == old(c.currentsize) - if connected then 1 else 0
    ensures g.currentsize == old(g.currentsize) - if connected && c.currentsize == 0 then 1 else 0
  {
    if online {
      c.online := c.online - 1;
      if c.online == 0 {
        g.online := g.online - 1;
      }
    }
    if connected {
      c.currentsize := c.currentsize - 1;
      if c.currentsize == 0 {
        g.currentsize := g.currentsize - 1;
      }
    }
    c.totalsize := c.totalsize - 1;
  }

  /** The counter updates for a buddy that joins the contact `c` of `g`. */
  method Raise(c: Node, g: Node, online: bool, connected: bool)
    requires c != g
    modifies c`totalsize, c`currentsize, c`online, g`currentsize, g`online
    ensures c.totalsize == old(c.totalsize) + 1
    ensures c.online == old(c.online) + if online then 1 else 0
    ensures g.online == old(g.online) + if online && c.online == 1 then 1 else 0
    ensures c.currentsize == old(c.currentsize) + if connected then 1 else 0
    ensures g.currentsize == old(g.currentsize) + if connected && c.currentsize == 1 then 1 else 0
  {
    if online {
      c.online := c.online + 1;
      if c.online == 1 {
        g.online := g.online + 1;
      }
    }
    if connected {
      c.currentsize := c.currentsize + 1;
      if c.currentsize == 1 {
        g.currentsize := g.currentsize + 1;
      }
    }
    c.totalsize := c.totalsize + 1;
  }

  /** What is known of one contact and its group before a buddy leaves or joins. */
  lemma BeforeCounting(ks: Kids, g: Node, c: Node, current: Reading, online: Reading)
    requires Family(ks, g, c) && Counted(ks, current, online)
    ensures g != c && g in ks && c in ks && forall x: Node :: x in ks ==> NodeCounts(x, ks, current, online)
    ensures c.totalsize == |ks[c]| && c.currentsize == current.Sum(ks, c) && c.online == online.Sum(ks, c)
    ensures g.totalsize == |ks[g]| + g.destroyed
    ensures g.currentsize == Count(ks[g], current.Lit(ks)) + current.Off(g)
    ensures g.online == Count(ks[g], online.Lit(ks)) + online.Off(g)
  {
    assert NodeCounts(c, ks, current, online) && NodeCounts(g, ks, current, online);
  }

  lemma SumWithout(ks: Kids, c: Node, b: Node, p: Reading, k: int)
    requires c in ks && b in ks[c]
    ensures var s := Minus(ks[c], b);
            |s| == |ks[c]| - 1 && p.Shifted(c, k).Sum(ks[c := s], c) == p.Sum(ks, c) + k - if p.test(b) then 1 else 0
  {
    AlikeIs(p, c, k);
    CountMinus(ks[c], b, p.test);
    hide Minus;
  }

  lemma SumWith(ks: Kids, c: Node, b: Node, i: nat, p: Reading, k: int)
    requires c in ks && i <= |ks[c]|
    ensures var s := InsertAt(ks[c], i, b);
            |s| == |ks[c]| + 1 && p.Shifted(c, k).Sum(ks[c := s], c) == p.Sum(ks, c) + k + if p.test(b) then 1 else 0
  {
    AlikeIs(p, c, k);
    CountInsert(ks[c], i, b, p.test);
    hide InsertAt;
  }

  /** The readings of a list. */
  ghost function CurrentOf(list: BuddyList): Reading
    reads list`connected
  {
    InConnected(list.connected)
  }

  ghost function OnlineOf(list: BuddyList): Reading
    reads list`connected, list`present, list`drift
  {
    InOnline(list.connected, list.present, list.drift)
  }

  lemma TestsOf(list: BuddyList, b: Node)
    requires b.kind == BuddyNode
    ensures CurrentOf(list).test(b) <==> b.account in list.connected
    ensures OnlineOf(list).test(b) <==> b in list.present
    ensures list.IsOnline(b) <==> b in list.present && !Early(list, b)
    ensures Early(list, b) ==> b in list.present
    ensures forall n: Node :: CurrentOf(list).Off(n) == 0
  {
  }

  lemma ShiftedOnline(list: BuddyList, was: Reading, drift: map<Node, int>, c: Node, k: int)
    requires was == InOnline(list.connected, list.present, drift) && list.drift == Shift(drift, c, k)
    ensures OnlineOf(list) == was.Shifted(c, k)
  {
  }

  /** The buddy `b` leaves the contact `c`: afterwards the counters are those
      of the tree without it, except that an early presence is not counted out. */
  method CountOut(list: BuddyList, b: Node, c: Node, g: Node, ghost ks: Kids)
    requires Family(ks, g, c) && b in ks[c] && b.kind == BuddyNode
    requires Counted(ks, CurrentOf(list), OnlineOf(list))
    modifies c`totalsize, c`currentsize, c`online, g`currentsize, g`online, list`drift
    ensures list.drift == Shift(old(list.drift), c, if Early(list, b) then 1 else 0)
    ensures Counted(ks[c := Minus(ks[c], b)], CurrentOf(list), OnlineOf(list))
  {
    hide *;
    ghost var current, online, k := CurrentOf(list), OnlineOf(list), if Early(list, b) then 1 else 0;
    ghost var drift := list.drift;
    BeforeCounting(ks, g, c, current, online);
    TestsOf(list, b);
    OnlineIs(list);
    SumWithout(ks, c, b, current, 0);
    SumWithout(ks, c, b, online, k);
    AlikeIs(current, c, 0);
    AlikeIs(online, c, k);
    Lower(c, g, list.IsOnline(b), b.account in list.connected);
    list.drift := Shift(list.drift, c, k);
    ShiftedOnline(list, online, drift, c, k);
    CountsReplaced(ks, g, c, Minus(ks[c], b), current, online, OnlineOf(list));
  }

  lemma OnlineIs(list: BuddyList)
    ensures OnlineOf(list) == InOnline(list.connected, list.present, list.drift)
    ensures CurrentOf(list) == InConnected(list.connected)
  {
  }

  /** The buddy `b` joins the contact `c` at position `i`; an early presence is not counted in. */
  method CountIn(list: BuddyList, b: Node, c: Node, g: Node, ghost ks: Kids, ghost i: nat)
    requires Family(ks, g, c) && i <= |ks[c]| && b.kind == BuddyNode
    requires Counted(ks, CurrentOf(list), OnlineOf(list))
    modifies c`totalsize, c`currentsize, c`online, g`currentsize, g`online, list`drift
    ensures list.drift == Shift(old(list.drift), c, if Early(list, b) then -1 else 0)
    ensures Counted(ks[c := InsertAt(ks[c], i, b)], CurrentOf(list), OnlineOf(list))
  {
    hide *;
    ghost var current, online, k := CurrentOf(list), OnlineOf(list), if Early(list, b) then -1 else 0;
    ghost var drift := list.drift;
    BeforeCounting(ks, g, c, current, online);
    TestsOf(list, b);
    OnlineIs(list);
    SumWith(ks, c, b, i, current, 0);
    SumWith(ks, c, b, i, online, k);
    AlikeIs(current, c, 0);
    AlikeIs(online, c, k);
    Raise(c, g, list.IsOnline(b), b.account in list.connected);
    list.drift := Shift(list.drift, c, k);
    ShiftedOnline(list, online, drift, c, k);
    CountsReplaced(ks, g, c, InsertAt(ks[c], i, b), current, online, OnlineOf(list));
  }

  /** The counters after the children of one group were replaced. */
  lemma GroupReplaced(ks: Kids, g: Node, s: seq<Node>, current: Reading, online: Reading)
    requires g in ks && g.kind == GroupNode && g !in s
    requires forall x: Node :: x in ks && x != g ==> NodeCounts(x, ks, current, online) && g !in ks[x]
    requires g.totalsize == |s| + g.destroyed
    requires g.currentsize == Count(s, current.Lit(ks)) + current.Off(g) &&
      g.online == Count(s, online.Lit(ks)) + online.Off(g)
    ensures Counted(ks[g := s], current, online)
  {
    CountSame(s, current.Lit(ks), current.Lit(ks[g := s]));
    CountSame(s, online.Lit(ks), online.Lit(ks[g := s]));
    forall x: Node | x in ks && x != g ensures NodeCounts(x, ks[g := s], current, online) {
      CountsAgree(x, ks, ks[g := s], current, online, current, online);
    }
  }

  /** A node that is no child of any other is forgotten, and with it how far its counter is off. */
  lemma CountsWithoutKey(ks: Kids, c: Node, current: Reading, online: Reading)
    requires Counted(ks, current, online) && forall x: Node :: x in ks ==> c !in ks[x]
    ensures Counted(ks - {c}, current, Reading(online.test, online.drift - {c}))
  {
    var ks', online' := ks - {c}, Reading(online.test, online.drift - {c});
    forall x: Node | x in ks' ensures NodeCounts(x, ks', current, online') {
      CountsAgree(x, ks, ks', current, online, current, online');
    }
  }

  /** A node becomes known, without children. */
  lemma CountsWithKey(ks: Kids, c: Node, current: Reading, online: Reading)
    requires Counted(ks, current, online) && c !in ks && forall x: Node :: x in ks ==> c !in ks[x]
    requires c.totalsize == c.currentsize == c.online == c.destroyed == 0 == current.Off(c) == online.Off(c)
    ensures Counted(ks[c := []], current, online)
  {
    var ks' := ks[c := []];
    forall x: Node | x in ks ensures NodeCounts(x, ks', current, online) {
      CountsAgree(x, ks, ks', current, online, current, online);
    }
  }

  /** The top level is not counted anywhere. */
  lemma CountsOfTop(ks: Kids, s: seq<Node>, current: Reading, online: Reading)
    requires Counted(ks, current, online) && null in ks
    ensures Counted(ks[null := s], current, online)
  {
    var ks' := ks[null := s];
    forall x: Node | x in ks' ensures NodeCounts(x, ks', current, online) {
      CountsAgree(x, ks, ks', current, online, current, online);
    }
  }

  /** Whether the contact or chat `n` counts in its group. */
  predicate CountsOnline(list: BuddyList, n: Node)
    reads list`connected, n`online
  {
    if n.kind == ChatNode then n.account in list.connected else n.online > 0
  }

  predicate CountsCurrent(list: BuddyList, n: Node)
    reads list`connected, n`currentsize
  {
    if n.kind == ChatNode then n.account in list.connected else n.currentsize > 0
  }

  /** The contact or chat `n` leaves the group `g`. */
  method CountChildOut(list: BuddyList, n: Node, g: Node, ghost ks: Kids)
    requires Shaped(ks) && g in ks && g.kind == GroupNode && n in ks[g]
    requires Counted(ks, CurrentOf(list), OnlineOf(list))
    modifies g`totalsize, g`currentsize, g`online
    ensures Counted(ks[g := Minus(ks[g], n)], CurrentOf(list), OnlineOf(list))
  {
    ghost var current, online := CurrentOf(list), OnlineOf(list);
    BeforeChild(list, ks, n, g);
    CountMinus(ks[g], n, current.Lit(ks));
    CountMinus(ks[g], n, online.Lit(ks));
    hide *;
    MinusLacks(ks[g], n, g);
    CountsOnlineIs(list, n);
    if CountsOnline(list, n) {
      g.online := g.online - 1;
    }
    if CountsCurrent(list, n) {
      g.currentsize := g.currentsize - 1;
    }
    g.totalsize := g.totalsize - 1;
    GroupReplaced(ks, g, Minus(ks[g], n), current, online);
  }

  lemma MinusLacks(s: seq<Node>, n: Node, g: Node)
    requires n in s && g !in s
    ensures g !in Minus(s, n) && |Minus(s, n)| == |s| - 1
  {
  }

  lemma CountsOnlineIs(list: BuddyList, n: Node)
    ensures CountsOnline(list, n) <==> if n.kind == ChatNode then n.account in list.connected else n.online > 0
    ensures CountsCurrent(list, n) <==> if n.kind == ChatNode then n.account in list.connected else n.currentsize > 0
  {
  }

  /** What is known of a group and of the contact or chat that leaves it or joins it. */
  lemma BeforeChild(list: BuddyList, ks: Kids, n: Node, g: Node)
    requires Shaped(ks) && g in ks && g.kind == GroupNode && Counted(ks, CurrentOf(list), OnlineOf(list))
    requires n in ks[g] || ((n.kind == ChatNode || n.kind == ContactNode) && (n in ks <==> n.kind == ContactNode))
    ensures var current, online := CurrentOf(list), OnlineOf(list);
            && n != g && g !in ks[g]
            && (forall x: Node :: x in ks && x != g ==> NodeCounts(x, ks, current, online) && g !in ks[x])
            && g.totalsize == |ks[g]| + g.destroyed
            && g.currentsize == Count(ks[g], current.Lit(ks)) + current.Off(g)
            && g.online == Count(ks[g], online.Lit(ks)) + online.Off(g)
            && (online.Lit(ks)(n) <==> if n.kind == ChatNode then n.account in list.connected else n.online > 0)
            && (current.Lit(ks)(n) <==> if n.kind == ChatNode then n.account in list.connected else n.currentsize > 0)
  {
    var current, online := CurrentOf(list), OnlineOf(list);
    assert n in ks[g] ==> Fits(g, n);
    assert g in ks[g] ==> Fits(g, g);
    assert NodeCounts(g, ks, current, online) && (n in ks ==> NodeCounts(n, ks, current, online));
    forall x: Node | x in ks ensures g !in ks[x] {
      assert g in ks[x] ==> Fits(x, g);
    }
  }

  /** The contact or chat `n` joins the group `g` at position `i`. */
  method CountChildIn(list: BuddyList, n: Node, g: Node, ghost ks: Kids, ghost i: nat)
    requires Shaped(ks) && g in ks && g.kind == GroupNode && i <= |ks[g]|
    requires n.kind == ChatNode || n.kind == ContactNode
    requires n in ks <==> n.kind == ContactNode
    requires Counted(ks, CurrentOf(list), OnlineOf(list))
    modifies g`totalsize, g`currentsize, g`online
    ensures Counted(ks[g := InsertAt(ks[g], i, n)], CurrentOf(list), OnlineOf(list))
  {
    ghost var current, online := CurrentOf(list), OnlineOf(list);
    BeforeChild(list, ks, n, g);
    CountInsert(ks[g], i, n, current.Lit(ks));
    CountInsert(ks[g], i, n, online.Lit(ks));
    hide *;
    InsertLacks(ks[g], i, n, g);
    CountsOnlineIs(list, n);
    if CountsOnline(list, n) {
      g.online := g.online + 1;
    }
    if CountsCurrent(list, n) {
      g.currentsize := g.currentsize + 1;
    }
    g.totalsize := g.totalsize + 1;
    GroupReplaced(ks, g, InsertAt(ks[g], i, n), current, online);
  }

  lemma InsertLacks(s: seq<Node>, i: nat, n: Node, g: Node)
    requires i <= |s| && g !in s && g != n
    ensures g !in InsertAt(s, i, n) && |InsertAt(s, i, n)| == |s| + 1
  {
  }
}
