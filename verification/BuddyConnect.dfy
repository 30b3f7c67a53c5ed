/** `purple_blist_add_account`, `purple_blist_remove_account` and
    `purple_blist_update_buddy_status`: the counters follow the accounts and presences.
    Most bodies below hide every definition; the short lemmas called `...Is` and
    `...Parts` give back the single definition that a step needs. */
module BuddyConnect {
  import opened Lists
  import opened BuddyTree
  import opened BuddyCounts
  import opened BuddyIndex
  import opened BuddyPriority
  import opened BuddyState
  import opened BuddyRemove
  import opened BuddyValid
  import opened BuddyContacts
  import opened BuddyEdit
  import opened BuddyApi

  /** The connected accounts and the online presences before and after a change; while
      the counters follow, only the nodes in `done` are seen as they are afterwards.
      By how much counters are off does not change. */
  datatype Change = Change(c0: set<Account>, c1: set<Account>, p0: set<Node>, p1: set<Node>, drift: map<Node, int>) {
    function Current(done: set<Node>): Reading {
      Reading((n: Node) => n.account in if n in done then c1 else c0, map[])
    }

    function Online(done: set<Node>): Reading {
      Reading((n: Node) =>
                if n.kind == ChatNode then n.account in if n in done then c1 else c0
                else n in if n in done then p1 else p0,
              drift)
    }
  }

  /** The counters count the nodes in `done` as they are after the change. */
  ghost predicate Counting(list: BuddyList, ch: Change, done: set<Node>)
    reads list`kids
    reads list.kids.Keys`totalsize, list.kids.Keys`currentsize, list.kids.Keys`online, list.kids.Keys`destroyed
  {
    Counted(list.kids, ch.Current(done), ch.Online(done))
  }

  /** No other node has the children of `c`. */
  ghost predicate Separate(ks: Kids, c: Node) {
    c in ks && forall x, n :: x in ks && n in ks[x] && n in ks[c] ==> x == c
  }

  /** Two readings that see all nodes of the tree but those in `s` the same. */
  ghost predicate SameBut(ks: Kids, s: seq<Node>, p: Reading, p': Reading) {
    p'.drift == p.drift && forall x, n :: x in ks && n in ks[x] && n !in s ==> p'.test(n) == p.test(n)
  }

  /** What counting the children of the node `y` gives when only buddies of `c` are seen differently. */
  lemma LitElsewhere(ks: Kids, c: Node, x: Node, y: Node, p: Reading, p': Reading)
    requires x in ks && y in ks[x]
    requires Separate(ks, c) && y != c && y !in ks[c] && SameBut(ks, ks[c], p, p')
    ensures p'.Lit(ks)(y) == p.Lit(ks)(y)
  {
    if y in ks {
      forall n | n in ks[y] ensures p.test(n) == p'.test(n) {
        assert n !in ks[c];
      }
      CountSame(ks[y], p.test, p'.test);
    }
  }

  lemma AgreeElsewhere(ks: Kids, g: Node, c: Node, x: Node, p: Reading, p': Reading)
    requires Family(ks, g, c) && Separate(ks, c) && x in ks && x != c && x != g && SameBut(ks, ks[c], p, p')
    ensures Agree(x, ks, ks, p, p')
  {
    forall n | n in ks[x] ensures n !in ks[c] && n != c {
    }
    forall n | n in ks[x] ensures p'.test(n) == p.test(n) && p'.Lit(ks)(n) == p.Lit(ks)(n) {
      LitElsewhere(ks, c, x, n, p, p');
    }
  }

  /** The count of the group `g` when only buddies of its contact `c` are seen differently. */
  lemma LitOfGroup(ks: Kids, g: Node, c: Node, p: Reading, p': Reading)
    requires Family(ks, g, c) && Separate(ks, c) && g != c && SameBut(ks, ks[c], p, p')
    ensures Count(ks[g], p'.Lit(ks)) + (if p.Sum(ks, c) > 0 then 1 else 0)
         == Count(ks[g], p.Lit(ks)) + if p'.Sum(ks, c) > 0 then 1 else 0
  {
    forall y | y in ks[g] && y != c ensures p.Lit(ks)(y) == p'.Lit(ks)(y) {
      LitElsewhere(ks, c, g, y, p, p');
    }
    CountFlip(ks[g], c, p.Lit(ks), p'.Lit(ks));
  }

  /** The counters after buddies of one contact changed: only the contact and its group have to be looked at again. */
  lemma CountsFlipped(ks: Kids, g: Node, c: Node, current: Reading, online: Reading, current': Reading,
      online': Reading)
    requires Family(ks, g, c) && Separate(ks, c) && g != c
    requires forall x: Node :: x in ks && x != c && x != g ==> NodeCounts(x, ks, current, online)
    requires SameBut(ks, ks[c], current, current') && SameBut(ks, ks[c], online, online')
    requires c.totalsize == |ks[c]| && c.currentsize == current'.Sum(ks, c) && c.online == online'.Sum(ks, c)
    requires g.totalsize == |ks[g]| + g.destroyed
    requires g.currentsize + (if current.Sum(ks, c) > 0 then 1 else 0)
          == Count(ks[g], current.Lit(ks)) + current.Off(g) + if current'.Sum(ks, c) > 0 then 1 else 0
    requires g.online + (if online.Sum(ks, c) > 0 then 1 else 0)
          == Count(ks[g], online.Lit(ks)) + online.Off(g) + if online'.Sum(ks, c) > 0 then 1 else 0
    ensures Counted(ks, current', online')
  {
    LitOfGroup(ks, g, c, current, current');
    LitOfGroup(ks, g, c, online, online');
    forall x: Node | x in ks && x != c && x != g ensures NodeCounts(x, ks, current', online') {
      AgreeElsewhere(ks, g, c, x, current, current');
      AgreeElsewhere(ks, g, c, x, online, online');
      CountsAgree(x, ks, ks, current, online, current', online');
    }
  }

  /** The same for one chat `n` of the group `g`. */
  lemma CountsOfChat(ks: Kids, g: Node, n: Node, current: Reading, online: Reading, current': Reading, online': Reading)
    requires g in ks && g.kind == GroupNode && NoDup(ks[g]) && n in ks[g] && n !in ks
    requires forall x: Node :: x in ks ==> g !in ks[x] && (n in ks[x] ==> x == g)
    requires forall x: Node :: x in ks && x != g ==> NodeCounts(x, ks, current, online)
    requires SameBut(ks, [n], current, current') && SameBut(ks, [n], online, online')
    requires g.totalsize == |ks[g]| + g.destroyed
    requires g.currentsize + (if current.test(n) then 1 else 0)
          == Count(ks[g], current.Lit(ks)) + current.Off(g) + if current'.test(n) then 1 else 0
    requires g.online + (if online.test(n) then 1 else 0)
          == Count(ks[g], online.Lit(ks)) + online.Off(g) + if online'.test(n) then 1 else 0
    ensures Counted(ks, current', online')
  {
    forall x: Node, y | x in ks && y in ks[x] && y != n
      ensures current.Lit(ks)(y) == current'.Lit(ks)(y) && online.Lit(ks)(y) == online'.Lit(ks)(y)
    {
      LitWithout(ks, g, n, x, y, current, current');
      LitWithout(ks, g, n, x, y, online, online');
    }
    CountFlip(ks[g], n, current.Lit(ks), current'.Lit(ks));
    CountFlip(ks[g], n, online.Lit(ks), online'.Lit(ks));
    forall x: Node | x in ks && x != g ensures NodeCounts(x, ks, current', online') {
      assert n !in ks[x];
      CountsAgree(x, ks, ks, current, online, current', online');
    }
  }

  lemma LitWithout(ks: Kids, g: Node, n: Node, x: Node, y: Node, p: Reading, p': Reading)
    requires x in ks && y in ks[x] && n !in ks && y != n && g.kind == GroupNode && y != g &&
      (forall x: Node :: x in ks && n in ks[x] ==> x == g)
    requires SameBut(ks, [n], p, p')
    ensures p.Lit(ks)(y) == p'.Lit(ks)(y)
  {
    if y in ks {
      assert n !in ks[y];
      CountSame(ks[y], p.test, p'.test);
    }
  }

  /** Cached priority buddies are what the ranking `r` gives. */
  ghost predicate RankedBy(r: Ranking, ks: Kids)
    reads ks.Keys`priority, ks.Keys`priorityValid
  {
    forall c: Node :: c in ks && c.kind == ContactNode && c.priorityValid && ks[c] != [] ==> c.priority == r.Best(ks[c])
  }

  /** The parts of the invariant that no change of counters concerns. */
  ghost predicate Standing(list: BuddyList)
    reads list`root, list`live, list`kids, list`gone
    reads list.live`prev, list.live`next, list.live`parent, list.live`child, list.kids.Keys`parent
  {
    list.Linked() && list.gone == {} && Shaped(list.kids) && list.Rooted()
  }

  lemma StandingParts(list: BuddyList)
    requires Standing(list)
    ensures list.Linked() && list.gone == {} && Shaped(list.kids) && list.Rooted()
  {
  }

  lemma ContactStands(list: BuddyList, c: Node)
    requires Standing(list) && c in list.kids && c.kind == ContactNode
    ensures c.parent != null && Family(list.kids, c.parent, c) && Separate(list.kids, c) && c != c.parent &&
      NoDup(list.kids[c])
    ensures c in list.live && c.parent in list.live
    ensures forall b :: b in list.kids[c] ==> b.kind == BuddyNode && b !in list.kids
    ensures c.child == if list.kids[c] == [] then null else list.kids[c][0]
  {
    hide *;
    StandingParts(list);
    FamilyOf(list, c);
    FamilyInView(list, c);
    KeepsIs(list, c);
    BuddiesOf(list, c);
    FirstChild(list, c);
    FamilyParts(list.kids, c.parent, c);
  }

  lemma FamilyParts(ks: Kids, g: Node, c: Node)
    requires Family(ks, g, c)
    ensures g != c && g in ks && g.kind == GroupNode && c in ks[g] && NoDup(ks[g])
  {
  }

  lemma KeepsIs(list: BuddyList, c: Node)
    requires c.parent != null && Keeps(ViewOf(list), c.parent, c)
    ensures Separate(list.kids, c)
  {
  }

  lemma BuddiesOf(list: BuddyList, c: Node)
    requires Shaped(list.kids) && c in list.kids && c.kind == ContactNode
    ensures forall b :: b in list.kids[c] ==> b.kind == BuddyNode && b !in list.kids
  {
    forall b | b in list.kids[c] ensures b.kind == BuddyNode && b !in list.kids {
      assert Fits(c, b);
    }
  }

  lemma FirstChild(list: BuddyList, p: Node)
    requires list.Linked() && list.gone == {} && p in list.kids
    ensures p.child == if list.kids[p] == [] then null else list.kids[p][0]
  {
    assert list.Chained(p, list.kids[p], {});
  }

  lemma NextOfChild(list: BuddyList, p: Node?, i: nat)
    requires Standing(list) && p in list.kids && i < |list.kids[p]|
    ensures list.kids[p][i].next == if i + 1 < |list.kids[p]| then list.kids[p][i + 1] else null
  {
    hide BuddyList.Linked, Shaped, BuddyList.Rooted;
    NextIs(list, p, i);
  }

  /** The counters that one buddy concerns, before and after it is seen differently. */
  lemma BeforeFlip(list: BuddyList, ch: Change, done: set<Node>, c: Node, b: Node)
    requires Standing(list) && c in list.kids && c.kind == ContactNode && b in list.kids[c] && b !in done
    requires Counting(list, ch, done)
    ensures c.parent != null && c.parent != c
    ensures var ks, g := list.kids, c.parent;
            var current, online, current', online' :=
              ch.Current(done), ch.Online(done), ch.Current(done + {b}), ch.Online(done + {b});
            && Family(ks, g, c) && Separate(ks, c)
            && (forall x: Node :: x in ks ==> NodeCounts(x, ks, current, online))
            && SameBut(ks, ks[c], current, current') && SameBut(ks, ks[c], online, online')
            && c.totalsize == |ks[c]| && c.currentsize == current.Sum(ks, c) && c.online == online.Sum(ks, c)
            && g.totalsize == |ks[g]| + g.destroyed
            && g.currentsize == Count(ks[g], current.Lit(ks)) + current.Off(g)
            && g.online == Count(ks[g], online.Lit(ks)) + online.Off(g)
            && current'.Sum(ks, c) + (if b.account in ch.c0 then 1 else 0)
                 == current.Sum(ks, c) + (if b.account in ch.c1 then 1 else 0)
            && online'.Sum(ks, c) + (if b in ch.p0 then 1 else 0)
                 == online.Sum(ks, c) + (if b in ch.p1 then 1 else 0)
  {
    hide *;
    ContactStands(list, c);
    FamilyParts(list.kids, c.parent, c);
    CountersOf(list, ch, done, c.parent, c);
    FlipOf(list.kids, c, ch, done, b);
  }

  lemma CountersOf(list: BuddyList, ch: Change, done: set<Node>, g: Node, c: Node)
    requires Counting(list, ch, done) && g in list.kids && g.kind == GroupNode && c in list.kids &&
      c.kind == ContactNode
    ensures var ks, current, online := list.kids, ch.Current(done), ch.Online(done);
            && (forall x: Node :: x in ks ==> NodeCounts(x, ks, current, online))
            && c.totalsize == |ks[c]| && c.currentsize == current.Sum(ks, c) && c.online == online.Sum(ks, c)
            && g.totalsize == |ks[g]| + g.destroyed
            && g.currentsize == Count(ks[g], current.Lit(ks)) + current.Off(g)
            && g.online == Count(ks[g], online.Lit(ks)) + online.Off(g)
  {
    hide Count, Reading.Lit, Reading.Sum, Reading.Off, Change.Current, Change.Online;
    assert NodeCounts(c, list.kids, ch.Current(done), ch.Online(done));
    assert NodeCounts(g, list.kids, ch.Current(done), ch.Online(done));
  }

  lemma FlipOf(ks: Kids, c: Node, ch: Change, done: set<Node>, b: Node)
    requires c in ks && NoDup(ks[c]) && b in ks[c] && b !in done && b.kind == BuddyNode
    ensures SameBut(ks, ks[c], ch.Current(done), ch.Current(done + {b}))
    ensures SameBut(ks, ks[c], ch.Online(done), ch.Online(done + {b}))
    ensures ch.Current(done + {b}).Sum(ks, c) + (if b.account in ch.c0 then 1 else 0)
         == ch.Current(done).Sum(ks, c) + (if b.account in ch.c1 then 1 else 0)
    ensures ch.Online(done + {b}).Sum(ks, c) + (if b in ch.p0 then 1 else 0)
         == ch.Online(done).Sum(ks, c) + (if b in ch.p1 then 1 else 0)
  {
    hide NoDup, Count;
    CountFlip(ks[c], b, ch.Current(done).test, ch.Current(done + {b}).test);
    CountFlip(ks[c], b, ch.Online(done).test, ch.Online(done + {b}).test);
  }

  lemma IsCounting(list: BuddyList, ch: Change, done: set<Node>)
    ensures Counting(list, ch, done) <==> Counted(list.kids, ch.Current(done), ch.Online(done))
  {
  }

  /** A buddy that looks the same before and after needs no update. */
  lemma SkipBuddy(list: BuddyList, ch: Change, done: set<Node>, c: Node, b: Node)
    requires Standing(list) && c in list.kids && c.kind == ContactNode && b in list.kids[c] && b !in done
    requires Counting(list, ch, done)
    requires (b.account in ch.c0 <==> b.account in ch.c1) && (b in ch.p0 <==> b in ch.p1)
    ensures Counting(list, ch, done + {b})
  {
    hide *;
    BeforeFlip(list, ch, done, c, b);
    CountsFlipped(list.kids, c.parent, c, ch.Current(done), ch.Online(done), ch.Current(done + {b}),
        ch.Online(done + {b}));
    IsCounting(list, ch, done + {b});
  }

  /** The update for one buddy of an account that is now connected. */
  method CountUp(list: BuddyList, c: Node, g: Node, ghost b: Node, ghost ch: Change, ghost done: set<Node>)
    requires Standing(list) && c in list.kids && c.kind == ContactNode && c.parent == g && b in list.kids[c] &&
      b !in done
    requires Counting(list, ch, done)
    requires b.account !in ch.c0 && b.account in ch.c1 && (b in ch.p0 <==> b in ch.p1)
    modifies c`currentsize, g`currentsize
    ensures Counting(list, ch, done + {b})
  {
    hide *;
    BeforeFlip(list, ch, done, c, b);
    c.currentsize := c.currentsize + 1;
    if c.currentsize == 1 {
      g.currentsize := g.currentsize + 1;
    }
    CountsFlipped(list.kids, g, c, ch.Current(done), ch.Online(done), ch.Current(done + {b}), ch.Online(done + {b}));
    IsCounting(list, ch, done + {b});
  }

  /** The update for one buddy of an account that is no longer connected. */
  method CountDown(list: BuddyList, c: Node, g: Node, b: Node, present: set<Node>, ghost ch: Change,
      ghost done: set<Node>)
    requires Standing(list) && c in list.kids && c.kind == ContactNode && c.parent == g && b in list.kids[c] &&
      b !in done
    requires Counting(list, ch, done) && present == ch.p0
    requires b.account in ch.c0 && b.account !in ch.c1 && b !in ch.p1
    modifies c`currentsize, g`currentsize, c`online, g`online
    ensures Counting(list, ch, done + {b})
  {
    hide *;
    BeforeFlip(list, ch, done, c, b);
    if b in present {
      c.online := c.online - 1;
      if c.online == 0 {
        g.online := g.online - 1;
      }
    }
    c.currentsize := c.currentsize - 1;
    if c.currentsize == 0 {
      g.currentsize := g.currentsize - 1;
    }
    CountsFlipped(list.kids, g, c, ch.Current(done), ch.Online(done), ch.Current(done + {b}), ch.Online(done + {b}));
    IsCounting(list, ch, done + {b});
  }

  /** The buddies of a contact, or the chat itself. */
  ghost function Leaves(ks: Kids, n: Node): set<Node> {
    if n in ks then Elements(ks[n]) else {n}
  }

  ghost function Spread(ks: Kids, cs: seq<Node>): set<Node> {
    set c, b | c in cs && b in Leaves(ks, c) :: b
  }

  ghost function Everything(ks: Kids, gs: seq<Node>): set<Node> {
    set g, b | g in gs && g in ks && b in Spread(ks, ks[g]) :: b
  }

  lemma SpreadStep(ks: Kids, s: seq<Node>, i: nat)
    requires i < |s|
    ensures Spread(ks, s[..i + 1]) == Spread(ks, s[..i]) + Leaves(ks, s[i])
  {
    hide Leaves;
    assert forall c :: c in s[..i + 1] <==> c in s[..i] || c == s[i];
  }

  lemma EverythingStep(ks: Kids, s: seq<Node>, i: nat)
    requires i < |s| && s[i] in ks
    ensures Everything(ks, s[..i + 1]) == Everything(ks, s[..i]) + Spread(ks, ks[s[i]])
  {
    hide Spread;
    assert forall c :: c in s[..i + 1] <==> c in s[..i] || c == s[i];
  }

  /** Every node has one parent, and its siblings are others. */
  ghost predicate Tidy(ks: Kids) {
    && (forall p, q, b :: p in ks && q in ks && b in ks[p] && b in ks[q] ==> p == q)
    && (forall p :: p in ks ==> NoDup(ks[p]))
  }

  lemma IsTidy(list: BuddyList)
    requires list.Linked()
    ensures Tidy(list.kids)
  {
    forall p, q, b | p in list.kids && q in list.kids && b in list.kids[p] && b in list.kids[q] ensures p == q {
      assert b.parent == p && b.parent == q;
    }
    forall p | p in list.kids ensures NoDup(list.kids[p]) {
      assert list.Chained(p, list.kids[p], list.gone);
    }
  }

  /** The leaves of a child of the group `g` are not those of its elder siblings. */
  lemma LeavesApart(ks: Kids, g: Node, i: nat)
    requires Tidy(ks) && Shaped(ks) && g in ks && g.kind == GroupNode && i < |ks[g]|
    ensures Leaves(ks, ks[g][i]) !! Spread(ks, ks[g][..i]) && Leaves(ks, ks[g][i]) <= Spread(ks, ks[g])
  {
    var s := ks[g];
    forall b | b in Leaves(ks, s[i]) ensures b in Spread(ks, s) && b !in Spread(ks, s[..i]) {
      assert s[i] in s;
      if c :| c in s[..i] && b in Leaves(ks, c) {
        LeavesOnce(ks, g, c, s[i], b);
        assert false;
      }
    }
  }

  lemma LeavesOnce(ks: Kids, g: Node, c: Node, d: Node, b: Node)
    requires Tidy(ks) && Shaped(ks) && g in ks && g.kind == GroupNode && c in ks[g] && d in ks[g]
    requires b in Leaves(ks, c) && b in Leaves(ks, d)
    ensures c == d
  {
    assert Fits(g, c) && Fits(g, d);
  }

  /** The group a leaf belongs to. */
  lemma LeafHome(ks: Kids, g: Node, h: Node, b: Node)
    requires Tidy(ks) && Shaped(ks) && g in ks && g.kind == GroupNode && h in ks && h.kind == GroupNode
    requires b in Spread(ks, ks[g]) && b in Spread(ks, ks[h])
    ensures g == h
  {
    var c :| c in ks[g] && b in Leaves(ks, c);
    var d :| d in ks[h] && b in Leaves(ks, d);
    assert Fits(g, c) && Fits(h, d);
    if c in ks {
      assert b in ks[c];
    }
  }

  lemma SpreadApart(ks: Kids, s: seq<Node>, i: nat)
    requires Tidy(ks) && Shaped(ks) && NoDup(s) && i < |s| && forall g :: g in s ==> g in ks && g.kind == GroupNode
    ensures Spread(ks, ks[s[i]]) !! Everything(ks, s[..i])
  {
    hide Spread, Tidy, Shaped;
    forall b | b in Spread(ks, ks[s[i]]) ensures b !in Everything(ks, s[..i]) {
      if b in Everything(ks, s[..i]) {
        var h :| h in s[..i] && h in ks && b in Spread(ks, ks[h]);
        assert h in s;
        LeafHome(ks, h, s[i], b);
        assert false;
      }
    }
  }

  /** Only buddies and chats of the account `a` are seen differently afterwards. */
  ghost predicate Turns(ch: Change, a: Account) {
    && (forall x :: x != a ==> (x in ch.c0 <==> x in ch.c1))
    && (forall b :: b in ch.p0 + ch.p1 && b.account != a ==> b in ch.p0 && b in ch.p1)
  }

  lemma TurnsIs(ch: Change, a: Account, b: Node)
    requires Turns(ch, a) && b.account != a
    ensures (b.account in ch.c0 <==> b.account in ch.c1) && (b in ch.p0 <==> b in ch.p1)
  {
  }

  /** A cached priority buddy of `c` is not affected by the account `a`. */
  ghost predicate Unaffected(ks: Kids, c: Node, a: Account)
    reads c`priorityValid
  {
    c in ks && c.kind == ContactNode && c.priorityValid ==> forall b :: b in ks[c] ==> b.account != a
  }

  lemma IsUnaffected(ks: Kids, c: Node, a: Account, j: nat)
    requires c in ks && (c.priorityValid ==> forall k :: 0 <= k < |ks[c]| ==> ks[c][k].account != a)
    ensures Unaffected(ks, c, a)
  {
  }

  method InvalidateBy(c: Node, ghost r: Ranking, ghost ks: Kids)
    requires RankedBy(r, ks)
    modifies c`priorityValid
    ensures RankedBy(r, ks) && !c.priorityValid
  {
    c.priorityValid := false;
  }

  lemma HeadOf(s: seq<Node>, j: nat)
    requires j < |s|
    ensures Elements(s[..j + 1]) == Elements(s[..j]) + {s[j]} && s[j] in s
    ensures s[..0] == [] && Elements(s[..0]) == {} && s[..|s|] == s
    ensures NoDup(s) ==> s[j] !in Elements(s[..j])
  {
    assert forall c :: c in s[..j + 1] <==> c in s[..j] || c == s[j];
  }

  lemma NoneYet(s: seq<Node>)
    ensures Elements(s[..0]) == {} && s[..|s|] == s
  {
  }

  /** The part of `purple_blist_add_account` for one contact. */
  method ConnectContact(list: BuddyList, c: Node, g: Node, a: Account, show: bool, ghost ch: Change,
      ghost done: set<Node>, ghost r: Ranking)
    requires Standing(list) && c in list.kids && c.kind == ContactNode && c.parent == g
    requires Counting(list, ch, done) && Elements(list.kids[c]) !! done && RankedBy(r, list.kids)
    requires Turns(ch, a) && a !in ch.c0 && a in ch.c1 && ch.p0 == ch.p1
    modifies c`currentsize, g`currentsize, c`priorityValid
    ensures Counting(list, ch, done + Elements(list.kids[c])) && RankedBy(r, list.kids) && Unaffected(list.kids, c, a)
  {
    hide *;
    ghost var t, j := list.kids[c], 0;
    ContactStands(list, c);
    NoneYet(t);
    var recompute := false;
    var bnode := c.child;
    assert done + Elements(t[..0]) == done;
    while bnode != null
      invariant j <= |t| && bnode == if j < |t| then t[j] else null
      invariant Standing(list) && RankedBy(r, list.kids) && Counting(list, ch, done + Elements(t[..j]))
      invariant recompute <==> exists k :: 0 <= k < j && t[k].account == a
      decreases |t| - j
    {
      HeadOf(t, j);
      NextOfChild(list, c, j);
      ElementOf(t, j);
      assert done + Elements(t[..j]) + {t[j]} == done + Elements(t[..j + 1]);
      if bnode.account == a {
        recompute := true;
        CountUp(list, c, g, bnode, ch, done + Elements(t[..j]));
      } else {
        TurnsIs(ch, a, bnode);
        SkipBuddy(list, ch, done + Elements(t[..j]), c, bnode);
      }
      bnode := bnode.next;
      j := j + 1;
    }
    if recompute || show {
      InvalidateBy(c, r, list.kids);
    }
    IsUnaffected(list.kids, c, a, j);
  }

  lemma ElementOf(t: seq<Node>, j: nat)
    requires j < |t|
    ensures t[j] in Elements(t)
  {
  }

  /** Every buddy and chat is counted as it is after the change. */
  ghost predicate AllSeen(ks: Kids, ch: Change, done: set<Node>) {
    forall x: Node, n :: x in ks && n in ks[x] && n !in ks && n !in done ==>
      (n.account in ch.c0 <==> n.account in ch.c1) && (n in ch.p0 <==> n in ch.p1)
  }

  lemma SeenSame(ks: Kids, x: Node, p: Reading, p': Reading)
    requires Shaped(ks) && x in ks && p.drift == p'.drift
    requires forall y: Node, n :: y in ks && n in ks[y] && n !in ks ==> p.test(n) == p'.test(n)
    ensures Agree(x, ks, ks, p, p')
  {
    forall n | n in ks[x]
      ensures if x.kind == ContactNode then p'.test(n) == p.test(n) else p'.Lit(ks)(n) == p.Lit(ks)(n)
    {
      assert Fits(x, n);
      if x.kind != ContactNode && n in ks {
        forall b | b in ks[n] ensures p.test(b) == p'.test(b) {
          assert Fits(n, b);
        }
        CountSame(ks[n], p.test, p'.test);
      }
    }
  }

  lemma Finished(list: BuddyList, ch: Change, done: set<Node>)
    requires Shaped(list.kids) && Counting(list, ch, done) && AllSeen(list.kids, ch, done)
    ensures Counted(list.kids, InConnected(ch.c1), InOnline(ch.c1, ch.p1, ch.drift))
  {
    var ks, current, online := list.kids, InConnected(ch.c1), InOnline(ch.c1, ch.p1, ch.drift);
    forall x: Node | x in ks ensures NodeCounts(x, ks, current, online) {
      SeenSame(ks, x, ch.Current(done), current);
      SeenSame(ks, x, ch.Online(done), online);
      CountsAgree(x, ks, ks, ch.Current(done), ch.Online(done), current, online);
    }
  }

  lemma Started(list: BuddyList, ch: Change)
    requires Shaped(list.kids) && Counted(list.kids, InConnected(ch.c0), InOnline(ch.c0, ch.p0, ch.drift))
    ensures Counting(list, ch, {})
  {
    var ks, current, online := list.kids, InConnected(ch.c0), InOnline(ch.c0, ch.p0, ch.drift);
    forall x: Node | x in ks ensures NodeCounts(x, ks, ch.Current({}), ch.Online({})) {
      SeenSame(ks, x, current, ch.Current({}));
      SeenSame(ks, x, online, ch.Online({}));
      CountsAgree(x, ks, ks, current, online, ch.Current({}), ch.Online({}));
    }
  }

  /** The counters that one chat concerns, before and after it is seen differently. */
  lemma BeforeChatFlip(list: BuddyList, ch: Change, done: set<Node>, g: Node, n: Node)
    requires Standing(list) && g in list.kids && g.kind == GroupNode && n in list.kids[g] && n.kind == ChatNode &&
      n !in done
    requires Counting(list, ch, done)
    ensures var ks := list.kids;
            var current, online, current', online' :=
                ch.Current(done), ch.Online(done), ch.Current(done + {n}), ch.Online(done + {n});
            && NoDup(ks[g]) && n !in ks && (forall x: Node :: x in ks ==> g !in ks[x] && (n in ks[x] ==> x == g))
            && (forall x: Node :: x in ks ==> NodeCounts(x, ks, current, online))
            && SameBut(ks, [n], current, current') && SameBut(ks, [n], online, online')
            && (current.test(n) <==> n.account in ch.c0) && (online.test(n) <==> n.account in ch.c0)
            && (current'.test(n) <==> n.account in ch.c1) && (online'.test(n) <==> n.account in ch.c1)
            && g.totalsize == |ks[g]| + g.destroyed
            && g.currentsize == Count(ks[g], current.Lit(ks)) + current.Off(g)
            && g.online == Count(ks[g], online.Lit(ks)) + online.Off(g)
  {
    ChatStands(list, g, n);
    hide Standing, Reading.Lit, Reading.Off, Count;
    assert NodeCounts(g, list.kids, ch.Current(done), ch.Online(done));
  }

  lemma ChatStands(list: BuddyList, g: Node, n: Node)
    requires Standing(list) && g in list.kids && g.kind == GroupNode && n in list.kids[g] && n.kind == ChatNode
    ensures NoDup(list.kids[g]) && n !in list.kids
    ensures forall x: Node :: x in list.kids ==> g !in list.kids[x] && (n in list.kids[x] ==> x == g)
  {
    IsTidy(list);
    hide BuddyList.Linked;
    GroupsOnTop(list.kids, g);
    assert Fits(g, n);
  }

  method ChatUp(list: BuddyList, g: Node, ghost n: Node, ghost ch: Change, ghost done: set<Node>)
    requires Standing(list) && g in list.kids && g.kind == GroupNode && n in list.kids[g] && n.kind == ChatNode &&
      n !in done
    requires Counting(list, ch, done) && n.account !in ch.c0 && n.account in ch.c1
    modifies g`online, g`currentsize
    ensures Counting(list, ch, done + {n})
  {
    hide *;
    BeforeChatFlip(list, ch, done, g, n);
    g.online := g.online + 1;
    g.currentsize := g.currentsize + 1;
    CountsOfChat(list.kids, g, n, ch.Current(done), ch.Online(done), ch.Current(done + {n}), ch.Online(done + {n}));
    IsCounting(list, ch, done + {n});
  }

  method ChatDown(list: BuddyList, g: Node, ghost n: Node, ghost ch: Change, ghost done: set<Node>)
    requires Standing(list) && g in list.kids && g.kind == GroupNode && n in list.kids[g] && n.kind == ChatNode &&
      n !in done
    requires Counting(list, ch, done) && n.account in ch.c0 && n.account !in ch.c1
    modifies g`online, g`currentsize
    ensures Counting(list, ch, done + {n})
  {
    hide *;
    BeforeChatFlip(list, ch, done, g, n);
    g.currentsize := g.currentsize - 1;
    g.online := g.online - 1;
    CountsOfChat(list.kids, g, n, ch.Current(done), ch.Online(done), ch.Current(done + {n}), ch.Online(done + {n}));
    IsCounting(list, ch, done + {n});
  }

  lemma SkipChat(list: BuddyList, ch: Change, done: set<Node>, g: Node, n: Node)
    requires Standing(list) && g in list.kids && g.kind == GroupNode && n in list.kids[g] && n.kind == ChatNode &&
      n !in done
    requires Counting(list, ch, done) && (n.account in ch.c0 <==> n.account in ch.c1)
    ensures Counting(list, ch, done + {n})
  {
    hide *;
    BeforeChatFlip(list, ch, done, g, n);
    CountsOfChat(list.kids, g, n, ch.Current(done), ch.Online(done), ch.Current(done + {n}), ch.Online(done + {n}));
    IsCounting(list, ch, done + {n});
  }

  /** What the loop over the children of a group needs to know about the next one. */
  lemma NextInGroup(list: BuddyList, g: Node, i: nat, done: set<Node>)
    requires Standing(list) && g in list.kids && g.kind == GroupNode && i < |list.kids[g]|
    requires Spread(list.kids, list.kids[g]) !! done
    ensures var s := list.kids[g];
            && s[i].next == (if i + 1 < |s| then s[i + 1] else null)
            && s[i] in s && s[i].parent == g && s[i] in list.live && s[i] != g
            && ((s[i].kind == ContactNode && s[i] in list.kids) || (s[i].kind == ChatNode && s[i] !in list.kids))
            && Leaves(list.kids, s[i]) !! done + Spread(list.kids, s[..i])
            && (done + Spread(list.kids, s[..i])) + Leaves(list.kids, s[i]) == done + Spread(list.kids, s[..i + 1])
            && (s[i] in list.kids ==> Leaves(list.kids, s[i]) == Elements(list.kids[s[i]]))
            && (s[i] !in list.kids ==> Leaves(list.kids, s[i]) == {s[i]})
  {
    hide *;
    StandingParts(list);
    IsTidy(list);
    NextOfChild(list, g, i);
    LeavesApart(list.kids, g, i);
    SpreadStep(list.kids, list.kids[g], i);
    ChildIs(list, g, i);
    LeavesIs(list.kids, list.kids[g][i]);
  }

  lemma LeavesIs(ks: Kids, n: Node)
    ensures Leaves(ks, n) == if n in ks then Elements(ks[n]) else {n}
  {
  }

  lemma ChildIs(list: BuddyList, g: Node, i: nat)
    requires list.Linked() && Shaped(list.kids) && g in list.kids && g.kind == GroupNode && i < |list.kids[g]|
    ensures var n := list.kids[g][i];
            && n in list.kids[g] && n.parent == g && n in list.live && n != g
            && ((n.kind == ContactNode && n in list.kids) || (n.kind == ChatNode && n !in list.kids))
  {
    assert Fits(g, list.kids[g][i]);
  }

  /** No cached priority buddy among the children of `g` is affected by the account `a`. */
  ghost predicate GroupUnaffected(ks: Kids, g: Node, a: Account)
    reads (set c | g in ks && c in ks[g])`priorityValid
  {
    g in ks ==> forall c :: c in ks[g] ==> Unaffected(ks, c, a)
  }

  lemma ChatIsUnaffected(ks: Kids, c: Node, a: Account)
    requires c.kind == ChatNode
    ensures Unaffected(ks, c, a)
  {
  }

  lemma IsGroupUnaffected(ks: Kids, g: Node, a: Account, i: nat)
    requires g in ks && i == |ks[g]| && forall k :: 0 <= k < i ==> Unaffected(ks, ks[g][k], a)
    ensures GroupUnaffected(ks, g, a)
  {
    hide Unaffected;
  }

  /** A later sibling is another node. */
  lemma Distinct(list: BuddyList, g: Node, i: nat)
    requires list.Linked() && g in list.kids && i < |list.kids[g]|
    ensures forall k :: 0 <= k < |list.kids[g]| && k != i ==> list.kids[g][k] != list.kids[g][i]
  {
    assert list.Chained(g, list.kids[g], list.gone);
  }

  lemma SpreadNone(ks: Kids, s: seq<Node>)
    ensures Spread(ks, s[..0]) == {} && s[..|s|] == s && Everything(ks, s[..0]) == {}
  {
  }

  /** The part of `purple_blist_add_account` for one group. */
  method ConnectGroup(list: BuddyList, g: Node, a: Account, show: set<Node>, ghost ch: Change, ghost done: set<Node>,
      ghost r: Ranking)
    requires Standing(list) && g in list.kids && g.kind == GroupNode && g in list.live
    requires Counting(list, ch, done) && Spread(list.kids, list.kids[g]) !! done && RankedBy(r, list.kids)
    requires Turns(ch, a) && a !in ch.c0 && a in ch.c1 && ch.p0 == ch.p1
    modifies g`online, g`currentsize, (set c | c in list.kids[g])`currentsize, (set c | c in list.kids[g])`priorityValid
    ensures Counting(list, ch, done + Spread(list.kids, list.kids[g])) && RankedBy(r, list.kids) &&
      GroupUnaffected(list.kids, g, a)
  {
    hide *;
    ghost var s, i := list.kids[g], 0;
    StandingParts(list);
    FirstChild(list, g);
    SpreadNone(list.kids, s);
    var cnode := g.child;
    assert done + Spread(list.kids, s[..0]) == done;
    while cnode != null
      invariant i <= |s| && cnode == if i < |s| then s[i] else null
      invariant Standing(list) && RankedBy(r, list.kids) && Counting(list, ch, done + Spread(list.kids, s[..i]))
      invariant forall k :: 0 <= k < i ==> Unaffected(list.kids, s[k], a)
      decreases |s| - i
    {
      NextInGroup(list, g, i, done);
      StandingParts(list);
      Distinct(list, g, i);
      if cnode.kind == ContactNode {
        ConnectContact(list, cnode, g, a, cnode in show, ch, done + Spread(list.kids, s[..i]), r);
      } else {
        ChatIsUnaffected(list.kids, cnode, a);
        if cnode.kind == ChatNode && cnode.account == a {
          ChatUp(list, g, cnode, ch, done + Spread(list.kids, s[..i]));
        } else {
          TurnsIs(ch, a, cnode);
          SkipChat(list, ch, done + Spread(list.kids, s[..i]), g, cnode);
        }
      }
      cnode := cnode.next;
      i := i + 1;
    }
    IsGroupUnaffected(list.kids, g, a, i);
  }

  /** What the loop over the groups needs to know about the next one. */
  lemma NextGroup(list: BuddyList, i: nat)
    requires Standing(list) && null in list.kids && i < |list.kids[null]|
    ensures var ks, s := list.kids, list.kids[null];
            && s[i].next == (if i + 1 < |s| then s[i + 1] else null)
            && s[i] in ks && s[i].kind == GroupNode && s[i] in list.live
            && Spread(ks, ks[s[i]]) !! Everything(ks, s[..i])
            && Everything(ks, s[..i]) + Spread(ks, ks[s[i]]) == Everything(ks, s[..i + 1])
            && (forall k, c :: 0 <= k < |s| && k != i && s[k] in ks && c in ks[s[k]] ==> c !in ks[s[i]])
            && (forall c :: c in ks[s[i]] ==> c in list.live)
  {
    hide *;
    StandingParts(list);
    IsTidy(list);
    NextOfChild(list, null, i);
    GroupsOnly(list);
    TidyParts(list.kids);
    Distinct2(list, i);
    SpreadApart(list.kids, list.kids[null], i);
    EverythingStep(list.kids, list.kids[null], i);
    GroupsListed(list, i);
    ParentsAreUnique(list);
  }

  lemma TidyParts(ks: Kids)
    requires Tidy(ks)
    ensures forall p, q, b :: p in ks && q in ks && b in ks[p] && b in ks[q] ==> p == q
    ensures forall p :: p in ks ==> NoDup(ks[p])
  {
  }

  lemma Distinct2(list: BuddyList, i: nat)
    requires list.Linked() && null in list.kids && i < |list.kids[null]|
    ensures forall k :: 0 <= k < |list.kids[null]| && k != i ==> list.kids[null][k] != list.kids[null][i]
  {
    assert list.Chained(null, list.kids[null], list.gone);
  }

  lemma GroupsOnly(list: BuddyList)
    requires Shaped(list.kids) && null in list.kids
    ensures forall g :: g in list.kids[null] ==> g in list.kids && g.kind == GroupNode
  {
    forall g | g in list.kids[null] ensures g in list.kids && g.kind == GroupNode {
      assert Fits(null, g);
    }
  }

  lemma GroupsListed(list: BuddyList, i: nat)
    requires list.Linked() && null in list.kids && i < |list.kids[null]|
    ensures list.kids[null][i] in list.live && list.kids[null][i] in list.kids[null]
  {
  }

  /** No cached priority buddy is affected by the account `a`. */
  ghost predicate AllUnaffected(list: BuddyList, a: Account)
    reads list`kids, list.kids.Keys`priorityValid
  {
    forall c: Node :: c in list.kids ==> Unaffected(list.kids, c, a)
  }

  lemma IsAllUnaffected(list: BuddyList, a: Account, i: nat)
    requires Standing(list) && null in list.kids && i == |list.kids[null]|
    requires forall k :: 0 <= k < i ==> GroupUnaffected(list.kids, list.kids[null][k], a)
    ensures AllUnaffected(list, a)
  {
    forall c: Node | c in list.kids ensures Unaffected(list.kids, c, a) {
      if c.kind == ContactNode {
        ContactStands(list, c);
        var g := c.parent;
        GroupOnTop(list, g);
        var k :| 0 <= k < i && list.kids[null][k] == g;
        assert GroupUnaffected(list.kids, g, a) && c in list.kids[g];
      }
    }
  }

  lemma GroupOnTop(list: BuddyList, g: Node)
    requires Standing(list) && g in list.kids && g.kind == GroupNode
    ensures null in list.kids && g in list.kids[null]
  {
    assert list.Listed(g) && Fits(g.parent, g);
  }

  lemma SeesAll(list: BuddyList, ch: Change)
    requires Standing(list) && null in list.kids
    ensures AllSeen(list.kids, ch, Everything(list.kids, list.kids[null]))
  {
    var ks := list.kids;
    forall x: Node, n | x in ks && n in ks[x] && n !in ks ensures n in Everything(ks, ks[null]) {
      if x.kind == ContactNode {
        ContactStands(list, x);
        GroupOnTop(list, x.parent);
        assert n in Leaves(ks, x) && x in ks[x.parent];
        assert n in Spread(ks, ks[x.parent]);
      } else {
        GroupOnTop(list, x);
        assert n in Leaves(ks, n) && n in Spread(ks, ks[x]);
      }
    }
  }

  /** `purple_blist_add_account`, for an account that is connected now. `show`
      are the contacts to be shown even when offline. */
  method AddAccount(list: BuddyList, a: Account, show: set<Node>, ghost ch: Change, ghost r: Ranking)
    requires Standing(list) && null in list.kids && Counting(list, ch, {}) && RankedBy(r, list.kids)
    requires Turns(ch, a) && a !in ch.c0 && a in ch.c1 && ch.p0 == ch.p1
    modifies list.live`online, list.live`currentsize, list.live`priorityValid
    ensures Counting(list, ch, Everything(list.kids, list.kids[null])) && RankedBy(r, list.kids) &&
      AllUnaffected(list, a)
  {
    hide *;
    ghost var s, i := list.kids[null], 0;
    FirstGroup(list);
    SpreadNone(list.kids, s);
    var gnode := list.root;
    while gnode != null
      invariant i <= |s| && gnode == if i < |s| then s[i] else null
      invariant Standing(list) && RankedBy(r, list.kids) && Counting(list, ch, Everything(list.kids, s[..i]))
      invariant forall k :: 0 <= k < i ==> GroupUnaffected(list.kids, s[k], a)
      decreases |s| - i
    {
      NextGroup(list, i);
      ConnectGroup(list, gnode, a, show, ch, Everything(list.kids, s[..i]), r);
      gnode := gnode.next;
      i := i + 1;
    }
    IsAllUnaffected(list, a, i);
  }

  lemma FirstGroup(list: BuddyList)
    requires Standing(list) && null in list.kids
    ensures list.root == if list.kids[null] == [] then null else list.kids[null][0]
  {
    assert list.Chained(null, list.kids[null], {});
  }

  /** The buddies of the account `a` in `s`. */
  ghost function Mine(s: set<Node>, a: Account): set<Node> {
    set b | b in s && b.kind == BuddyNode && b.account == a
  }

  lemma MineNone(a: Account)
    ensures Mine({}, a) == {}
  {
  }

  lemma MinePlus(s: set<Node>, t: set<Node>, a: Account)
    ensures Mine(s + t, a) == Mine(s, a) + Mine(t, a)
  {
  }

  lemma MineOf(s: set<Node>, b: Node, a: Account)
    ensures b in Mine(s, a) <==> b in s && b.kind == BuddyNode && b.account == a
    ensures Mine({b}, a) == if b.kind == BuddyNode && b.account == a then {b} else {}
  {
  }

  lemma MineLess(s: set<Node>, t: set<Node>, a: Account)
    requires s <= t
    ensures Mine(s, a) <= Mine(t, a)
  {
  }

  /** The part of `purple_blist_remove_account` for one contact. `offline` gathers the presences found. */
  method DisconnectContact(list: BuddyList, c: Node, g: Node, a: Account, seen: set<Node>,
                           ghost ch: Change, ghost done: set<Node>, ghost r: Ranking) returns (offline: set<Node>)
    requires Standing(list) && c in list.kids && c.kind == ContactNode && c.parent == g
    requires Counting(list, ch, done) && Elements(list.kids[c]) !! done && RankedBy(r, list.kids)
    requires Turns(ch, a) && a in ch.c0 && a !in ch.c1 && ch.p0 == list.present &&
      ch.p1 !! Mine(Elements(list.kids[c]), a)
    modifies c`currentsize, g`currentsize, c`online, g`online, c`priorityValid
    ensures Counting(list, ch, done + Elements(list.kids[c])) && RankedBy(r, list.kids) && Unaffected(list.kids, c, a)
    ensures offline == seen + Mine(Elements(list.kids[c]), a)
  {
    hide *;
    ghost var t, j := list.kids[c], 0;
    ContactStands(list, c);
    NoneYet(t);
    var recompute := false;
    var bnode := c.child;
    offline := seen;
    MineNone(a);
    assert done + Elements(t[..0]) == done;
    while bnode != null
      invariant j <= |t| && bnode == if j < |t| then t[j] else null
      invariant Standing(list) && RankedBy(r, list.kids) && Counting(list, ch, done + Elements(t[..j]))
      invariant (exists k :: 0 <= k < j && t[k].account == a) ==> recompute || !c.priorityValid
      invariant offline == seen + Mine(Elements(t[..j]), a)
      decreases |t| - j
    {
      HeadOf(t, j);
      NextOfChild(list, c, j);
      ElementOf(t, j);
      assert done + Elements(t[..j]) + {t[j]} == done + Elements(t[..j + 1]);
      MinePlus(Elements(t[..j]), {t[j]}, a);
      MineOf(Elements(t), t[j], a);
      MineOf({t[j]}, t[j], a);
      if a == bnode.account {
        CountDown(list, c, g, bnode, list.present, ch, done + Elements(t[..j]));
        offline := offline + {bnode};
        if c.priority == bnode {
          InvalidateBy(c, r, list.kids);
        } else {
          recompute := true;
        }
      } else {
        TurnsIs(ch, a, bnode);
        SkipBuddy(list, ch, done + Elements(t[..j]), c, bnode);
      }
      bnode := bnode.next;
      j := j + 1;
    }
    if recompute {
      InvalidateBy(c, r, list.kids);
    }
    IsUnaffected(list.kids, c, a, j);
  }

  lemma LeavesWithin(ks: Kids, g: Node, i: nat)
    requires g in ks && i < |ks[g]|
    ensures Leaves(ks, ks[g][i]) <= Spread(ks, ks[g])
  {
    assert ks[g][i] in ks[g];
  }

  lemma SpreadWithin(ks: Kids, i: nat)
    requires null in ks && i < |ks[null]| && ks[null][i] in ks
    ensures Spread(ks, ks[ks[null][i]]) <= Everything(ks, ks[null])
  {
    assert ks[null][i] in ks[null];
  }

  /** The part of `purple_blist_remove_account` for one group. */
  method DisconnectGroup(list: BuddyList, g: Node, a: Account, seen: set<Node>,
                         ghost ch: Change, ghost done: set<Node>, ghost r: Ranking) returns (offline: set<Node>)
    requires Standing(list) && g in list.kids && g.kind == GroupNode && g in list.live
    requires Counting(list, ch, done) && Spread(list.kids, list.kids[g]) !! done && RankedBy(r, list.kids)
    requires Turns(ch, a) && a in ch.c0 && a !in ch.c1 && ch.p0 == list.present &&
      ch.p1 !! Mine(Spread(list.kids, list.kids[g]), a)
    modifies g`online, g`currentsize
    modifies (set c | c in list.kids[g])`currentsize, (set c | c in list.kids[g])`online,
      (set c | c in list.kids[g])`priorityValid
    ensures Counting(list, ch, done + Spread(list.kids, list.kids[g])) && RankedBy(r, list.kids) &&
      GroupUnaffected(list.kids, g, a)
    ensures offline == seen + Mine(Spread(list.kids, list.kids[g]), a)
  {
    hide *;
    ghost var s, i := list.kids[g], 0;
    StandingParts(list);
    FirstChild(list, g);
    SpreadNone(list.kids, s);
    var cnode := g.child;
    offline := seen;
    MineNone(a);
    assert done + Spread(list.kids, s[..0]) == done;
    while cnode != null
      invariant i <= |s| && cnode == if i < |s| then s[i] else null
      invariant Standing(list) && RankedBy(r, list.kids) && Counting(list, ch, done + Spread(list.kids, s[..i]))
      invariant forall k :: 0 <= k < i ==> Unaffected(list.kids, s[k], a)
      invariant offline == seen + Mine(Spread(list.kids, s[..i]), a)
      decreases |s| - i
    {
      NextInGroup(list, g, i, done);
      StandingParts(list);
      Distinct(list, g, i);
      LeavesWithin(list.kids, g, i);
      MineLess(Leaves(list.kids, s[i]), Spread(list.kids, s), a);
      SpreadStep(list.kids, s, i);
      MinePlus(Spread(list.kids, s[..i]), Leaves(list.kids, s[i]), a);
      MineOf({}, cnode, a);
      if cnode.kind == ContactNode {
        offline := DisconnectContact(list, cnode, g, a, offline, ch, done + Spread(list.kids, s[..i]), r);
      } else {
        ChatIsUnaffected(list.kids, cnode, a);
        if cnode.kind == ChatNode && cnode.account == a {
          ChatDown(list, g, cnode, ch, done + Spread(list.kids, s[..i]));
        } else {
          TurnsIs(ch, a, cnode);
          SkipChat(list, ch, done + Spread(list.kids, s[..i]), g, cnode);
        }
      }
      cnode := cnode.next;
      i := i + 1;
    }
    IsGroupUnaffected(list.kids, g, a, i);
  }

  /** The loops of `purple_blist_remove_account`, for an account that is no longer connected. */
  method RemoveAccount(list: BuddyList, a: Account, ghost ch: Change, ghost r: Ranking) returns (offline: set<Node>)
    requires Standing(list) && null in list.kids && Counting(list, ch, {}) && RankedBy(r, list.kids)
    requires Turns(ch, a) && a in ch.c0 && a !in ch.c1 && ch.p0 == list.present
    requires ch.p1 !! Mine(Everything(list.kids, list.kids[null]), a)
    modifies list.live`online, list.live`currentsize, list.live`priorityValid
    ensures Counting(list, ch, Everything(list.kids, list.kids[null])) && RankedBy(r, list.kids) &&
      AllUnaffected(list, a)
    ensures offline == Mine(Everything(list.kids, list.kids[null]), a)
  {
    hide *;
    ghost var s, i := list.kids[null], 0;
    FirstGroup(list);
    SpreadNone(list.kids, s);
    MineNone(a);
    offline := {};
    var gnode := list.root;
    while gnode != null
      invariant i <= |s| && gnode == if i < |s| then s[i] else null
      invariant Standing(list) && RankedBy(r, list.kids) && Counting(list, ch, Everything(list.kids, s[..i]))
      invariant forall k :: 0 <= k < i ==> GroupUnaffected(list.kids, s[k], a)
      invariant offline == Mine(Everything(list.kids, s[..i]), a)
      decreases |s| - i
    {
      NextGroup(list, i);
      SpreadWithin(list.kids, i);
      MineLess(Spread(list.kids, list.kids[s[i]]), Everything(list.kids, s), a);
      MinePlus(Everything(list.kids, s[..i]), Spread(list.kids, list.kids[s[i]]), a);
      offline := DisconnectGroup(list, gnode, a, offline, ch, Everything(list.kids, s[..i]), r);
      gnode := gnode.next;
      i := i + 1;
    }
    IsAllUnaffected(list, a, i);
  }

  /** Only buddies of the account `a` have new ranks. */
  ghost predicate SameOff(rank: map<Node, int>, rank': map<Node, int>, a: Account) {
    forall b :: b in rank.Keys + rank'.Keys ==>
      b.account == a || (b in rank && b in rank' && rank[b] == rank'[b])
  }

  lemma SameOffItself(rank: map<Node, int>, a: Account)
    ensures SameOff(rank, rank, a)
  {
  }

  /** Buddies whose accounts did not change are ranked as before. */
  lemma BestFromSame(r: Ranking, r': Ranking, best: Node, s: seq<Node>)
    requires r.lastMatch == r'.lastMatch
    requires (r.Up(best) <==> r'.Up(best)) && forall b :: b in s ==> (r.Up(b) <==> r'.Up(b))
    requires r.Rank(best) == r'.Rank(best) && forall b :: b in s ==> r.Rank(b) == r'.Rank(b)
    ensures r.BestFrom(best, s) == r'.BestFrom(best, s)
    decreases |s|
  {
    if s != [] {
      assert s[0] in s && forall b :: b in s[1..] ==> b in s;
      BestFromSame(r, r', if r.Beats(s[0], best) then s[0] else best, s[1..]);
    }
  }

  lemma RankedAfter(list: BuddyList, r: Ranking, a: Account)
    requires RankedBy(r, list.kids) && AllUnaffected(list, a)
    requires SameOff(r.rank, list.rank, a) && r.lastMatch == list.lastMatch &&
      forall x :: x != a ==> (x in r.connected <==> x in list.connected)
    ensures Ranked(list)
  {
    var r' := RankingOf(list);
    forall c: Node | c in list.kids && c.kind == ContactNode ensures RankedAt(list, c, list.kids[c]) {
      var s := list.kids[c];
      if c.priorityValid && s != [] {
        assert Unaffected(list.kids, c, a);
        assert forall b :: b in s[1..] ==> b in s;
        BestFromSame(r, r', s[0], s[1..]);
      }
    }
  }

  lemma RankedBefore(list: BuddyList)
    requires Ranked(list)
    ensures RankedBy(RankingOf(list), list.kids)
  {
  }

  lemma BeforeChange(list: BuddyList, ch: Change)
    requires Sound(list) && ch.c0 == list.connected && ch.p0 == list.present && ch.drift == list.drift
    ensures Standing(list) && null in list.kids && Counting(list, ch, {}) && RankedBy(RankingOf(list), list.kids)
    ensures Cached(list) && Owned(ViewOf(list)) && Ordered(list, ViewOf(list), OrderOf(list))
    ensures list.drift.Keys <= list.kids.Keys
    ensures ViewOf(list) == View(list.kids, list.owner, list.live, list.gone)
  {
    hide *;
    SoundParts(list, null);
    CoherentParts(list);
    TreeParts(list);
    IsSound(list);
    IsOrdered(list);
    RankedBefore(list);
    IsStanding(list);
    CountersAre(list);
    Started(list, ch);
  }

  lemma CountersAre(list: BuddyList)
    ensures Counters(list) <==>
      && Counted(list.kids, InConnected(list.connected), InOnline(list.connected, list.present, list.drift))
      && list.drift.Keys <= list.kids.Keys
  {
  }

  lemma IsStanding(list: BuddyList)
    requires list.Linked() && list.gone == {} && Shaped(list.kids) && list.Rooted()
    ensures Standing(list) && null in list.kids
  {
  }

  lemma AfterChange(list: BuddyList, ch: Change, done: set<Node>, r: Ranking, a: Account, o: Order)
    requires Standing(list) && Counting(list, ch, done) && AllSeen(list.kids, ch, done)
    requires RankedBy(r, list.kids) && AllUnaffected(list, a)
    requires Cached(list) && Owned(ViewOf(list)) && Ordered(list, ViewOf(list), o)
    requires ch.c1 == list.connected && ch.p1 == list.present && ch.drift == list.drift &&
      list.drift.Keys <= list.kids.Keys
    requires SameOff(r.rank, list.rank, a) && r.lastMatch == list.lastMatch &&
      forall x :: x != a ==> (x in r.connected <==> x in list.connected)
    ensures Sound(list) && OrderOf(list) == o
  {
    hide *;
    StandingParts(list);
    Finished(list, ch, done);
    RankedAfter(list, r, a);
    CountersAre(list);
    TreeParts(list);
    CoherentParts(list);
    StaysOrdered(list, ViewOf(list), o);
  }

  /** An account connects: `connection.c` first changes its state, then `purple_blist_add_account` runs. */
  method Connect(list: BuddyList, a: Account, show: set<Node>)
    requires Sound(list) && a !in list.connected
    modifies list`connected, list.live`online, list.live`currentsize, list.live`priorityValid
    ensures list.connected == old(list.connected) + {a} && ViewOf(list) == old(ViewOf(list))
    ensures OrderOf(list) == old(OrderOf(list))
    ensures Sound(list)
  {
    hide *;
    ghost var o := OrderOf(list);
    ghost var ch := Change(list.connected, list.connected + {a}, list.present, list.present, list.drift);
    ghost var r := RankingOf(list);
    RankingIs(list);
    BeforeChange(list, ch);
    TurnsOn(ch, a);
    list.connected := list.connected + {a};
    AddAccount(list, a, show, ch, r);
    SeesAll(list, ch);
    ViewIs(list, null);
    SameOffItself(list.rank, a);
    AfterChange(list, ch, Everything(list.kids, list.kids[null]), r, a, o);
  }

  lemma RankingIs(list: BuddyList)
    ensures RankingOf(list) == Ranking(list.connected, list.rank, list.lastMatch)
  {
  }

  lemma TurnsOn(ch: Change, a: Account)
    requires ch.p0 == ch.p1 && ch.c1 == ch.c0 + {a}
    ensures Turns(ch, a)
  {
  }

  lemma TurnsOff(ch: Change, a: Account, s: set<Node>)
    requires ch.p1 == ch.p0 - Mine(s, a) && ch.c1 == ch.c0 - {a}
    ensures Turns(ch, a) && ch.p1 !! Mine(s, a)
  {
  }

  lemma OnFileIsEverything(list: BuddyList, b: Node)
    requires Sound(list)
    ensures b in Everything(list.kids, if null in list.kids then list.kids[null] else []) && b.kind == BuddyNode <==>
      b in list.owner
  {
    hide *;
    SoundParts(list, null);
    IsStanding(list);
    if b in list.owner {
      OnFileIsListed(list, b);
      HomeOf(list, b);
      ContactStands(list, b.parent);
      FamilyParts(list.kids, b.parent.parent, b.parent);
      GroupOnTop(list, b.parent.parent);
      InEverything(list, b.parent.parent, b.parent, b);
    } else if b in Everything(list.kids, list.kids[null]) && b.kind == BuddyNode {
      var c := HomeIn(list, b);
      OwnedBuddies(list, c);
    }
  }

  lemma InEverything(list: BuddyList, g: Node, c: Node, b: Node)
    requires null in list.kids && g in list.kids[null] && g in list.kids && c in list.kids[g] && c in list.kids &&
      b in list.kids[c]
    ensures b in Everything(list.kids, list.kids[null])
  {
    assert b in Leaves(list.kids, c);
    assert b in Spread(list.kids, list.kids[g]);
  }

  lemma HomeIn(list: BuddyList, b: Node) returns (c: Node)
    requires Standing(list) && null in list.kids && b.kind == BuddyNode && b in Everything(list.kids, list.kids[null])
    ensures c in list.kids && c.kind == ContactNode && b in list.kids[c]
  {
    var ks := list.kids;
    var g :| g in ks[null] && g in ks && b in Spread(ks, ks[g]);
    c :| c in ks[g] && b in Leaves(ks, c);
    assert Fits(null, g) && Fits(g, c);
  }

  /** An account disconnects: `connection.c` first changes its state, then
      `purple_blist_remove_account` runs, which at the end sets every presence it found to
      offline. `rank` is how the presences compare afterwards. */
  method Disconnect(list: BuddyList, a: Account, rank: map<Node, int>)
    requires Sound(list) && a in list.connected && SameOff(list.rank, rank, a)
    modifies list`connected, list`present, list`rank, list.live`online, list.live`currentsize,
      list.live`priorityValid
    ensures list.connected == old(list.connected) - {a} && ViewOf(list) == old(ViewOf(list))
    ensures list.rank == rank && OrderOf(list) == old(OrderOf(list))
    ensures forall b :: b in list.present <==> b in old(list.present) && !(b in old(list.owner) && b.account == a)
    ensures Sound(list)
  {
    hide *;
    ghost var o := OrderOf(list);
    ghost var s := Everything(list.kids, if null in list.kids then list.kids[null] else []);
    ghost var ch := Change(list.connected, list.connected - {a}, list.present, list.present - Mine(s, a), list.drift);
    ghost var r := RankingOf(list);
    RankingIs(list);
    BeforeChange(list, ch);
    TurnsOff(ch, a, s);
    forall b ensures b in Mine(s, a) <==> b in list.owner && b.account == a {
      OnFileIsEverything(list, b);
      MineOf(s, b, a);
    }
    list.connected := list.connected - {a};
    var offline := RemoveAccount(list, a, ch, r);
    list.present, list.rank := list.present - offline, rank;
    SeesAll(list, ch);
    ViewIs(list, null);
    AfterChange(list, ch, s, r, a, o);
  }

  /** Only the presence of `b` changes. */
  lemma SeesOne(list: BuddyList, ch: Change, b: Node)
    requires ch.c0 == ch.c1 && ch.p0 - {b} == ch.p1 - {b}
    ensures AllSeen(list.kids, ch, {b})
  {
    forall n | n != b ensures n in ch.p0 <==> n in ch.p1 {
      assert n in ch.p0 - {b} <==> n in ch.p1 - {b};
    }
  }

  /** The counters and the priority follow the presence of one buddy, which has changed already. */
  method FollowStatus(list: BuddyList, b: Node, c: Node, g: Node, wasOnline: bool, isOnline: bool, ghost ch: Change)
    requires Standing(list) && c in list.kids && c.kind == ContactNode && c.parent == g && b in list.kids[c]
    requires Counting(list, ch, {}) && ch.c0 == ch.c1 && (wasOnline <==> b in ch.p0) && (isOnline <==> b in ch.p1)
    modifies c`online, g`online
    ensures Counting(list, ch, {b})
  {
    hide *;
    BeforeFlip(list, ch, {}, c, b);
    assert {} + {b} == {b};
    if isOnline && !wasOnline {
      c.online := c.online + 1;
      if c.online == 1 {
        g.online := g.online + 1;
      }
    } else if !isOnline && wasOnline {
      c.online := c.online - 1;
      if c.online == 0 {
        g.online := g.online - 1;
      }
    }
    CountsFlipped(list.kids, g, c, ch.Current({}), ch.Online({}), ch.Current({b}), ch.Online({b}));
    IsCounting(list, ch, {b});
  }

  /** The ranks of all buddies but `b` are as before; the contact of `b` has to be ranked anew. */
  lemma RankedElsewhere(list: BuddyList, r: Ranking, c: Node, b: Node)
    requires RankedBy(r, list.kids) && !c.priorityValid && c in list.kids && b in list.kids[c]
    requires r.connected == list.connected && r.lastMatch == list.lastMatch && r.rank - {b} == list.rank - {b}
    requires Tidy(list.kids)
    ensures Ranked(list)
  {
    var r' := RankingOf(list);
    forall x: Node | x in list.kids && x.kind == ContactNode ensures RankedAt(list, x, list.kids[x]) {
      var s := list.kids[x];
      if x.priorityValid && s != [] {
        assert b !in s;
        assert forall y :: y in s[1..] ==> y in s;
        BestFromRanks(r, r', s[0], s[1..], b);
      }
    }
  }

  lemma BestFromRanks(r: Ranking, r': Ranking, best: Node, s: seq<Node>, b: Node)
    requires r.connected == r'.connected && r.lastMatch == r'.lastMatch && r.rank - {b} == r'.rank - {b}
    requires best != b && b !in s
    ensures r.BestFrom(best, s) == r'.BestFrom(best, s)
    decreases |s|
  {
    if s != [] {
      assert s[0] in s && forall x :: x in s[1..] ==> x in s;
      SameRank(r, r', best, b);
      SameRank(r, r', s[0], b);
      BestFromRanks(r, r', if r.Beats(s[0], best) then s[0] else best, s[1..], b);
    }
  }

  lemma SameRank(r: Ranking, r': Ranking, x: Node, b: Node)
    requires r.rank - {b} == r'.rank - {b} && x != b
    ensures r.Rank(x) == r'.Rank(x)
  {
    assert x in r.rank <==> x in r.rank - {b};
    assert x in r'.rank <==> x in r'.rank - {b};
    assert x in r.rank ==> (r.rank - {b})[x] == r.rank[x];
    assert x in r'.rank ==> (r'.rank - {b})[x] == r'.rank[x];
  }

  lemma AfterStatus(list: BuddyList, ch: Change, r: Ranking, c: Node, b: Node, o: Order)
    requires Standing(list) && Counting(list, ch, {b}) && AllSeen(list.kids, ch, {b})
    requires RankedBy(r, list.kids) && !c.priorityValid && c in list.kids && b in list.kids[c]
    requires Cached(list) && Owned(ViewOf(list)) && Ordered(list, ViewOf(list), o)
    requires ch.c1 == list.connected && ch.p1 == list.present && ch.drift == list.drift &&
      list.drift.Keys <= list.kids.Keys
    requires r.connected == list.connected && r.lastMatch == list.lastMatch && r.rank - {b} == list.rank - {b}
    ensures Sound(list) && OrderOf(list) == o
  {
    hide *;
    StandingParts(list);
    IsTidy(list);
    Finished(list, ch, {b});
    RankedElsewhere(list, r, c, b);
    CountersAre(list);
    TreeParts(list);
    CoherentParts(list);
    StaysOrdered(list, ViewOf(list), o);
  }

  lemma BuddyStands(list: BuddyList, b: Node)
    requires Sound(list) && list.Listed(b) && b.kind == BuddyNode
    ensures b.parent in list.kids && b.parent != null && b.parent.kind == ContactNode && b.parent.parent != null &&
      b in list.kids[b.parent]
    ensures b.parent in list.live && b.parent.parent in list.live
  {
    hide *;
    SoundParts(list, null);
    HomeOf(list, b);
    IsStanding(list);
    ContactStands(list, b.parent);
    ListedIs(list, b);
  }

  lemma OneRank(rank: map<Node, int>, b: Node, x: int)
    ensures rank[b := x] - {b} == rank - {b}
  {
  }

  /** The presence changes, then the counters and the priority follow. */
  method ApplyStatus(list: BuddyList, b: Node, c: Node, g: Node, wasOnline: bool, isOnline: bool, rank: int,
      ghost ch: Change, ghost r: Ranking)
    requires Standing(list) && c in list.kids && c.kind == ContactNode && c.parent == g && b in list.kids[c] &&
      RankedBy(r, list.kids)
    requires Counting(list, ch, {}) && ch.c0 == ch.c1 && (wasOnline <==> b in ch.p0) && (isOnline <==> b in ch.p1)
    modifies list`present, list`rank, c`online, g`online, c`priorityValid
    ensures Counting(list, ch, {b}) && RankedBy(r, list.kids) && !c.priorityValid
    ensures list.present == if isOnline then old(list.present) + {b} else old(list.present) - {b}
    ensures list.rank == old(list.rank)[b := rank]
  {
    hide *;
    list.present := if isOnline then list.present + {b} else list.present - {b};
    list.rank := list.rank[b := rank];
    FollowStatus(list, b, c, g, wasOnline, isOnline, ch);
    InvalidateBy(c, r, list.kids);
  }

  /** `purple_blist_update_buddy_status`, with the change of the presence that
      precedes it. While an account is connecting, its buddies may come online already. */
  method UpdateStatus(list: BuddyList, b: Node, isOnline: bool, rank: int)
    requires Sound(list) && list.Listed(b) && b.kind == BuddyNode && b.parent != null && b.parent.parent != null
    modifies list`present, list`rank, b.parent`online, b.parent.parent`online, b.parent`priorityValid
    ensures ViewOf(list) == old(ViewOf(list))
    ensures list.present == if isOnline then old(list.present) + {b} else old(list.present) - {b}
    ensures list.rank == old(list.rank)[b := rank]
    ensures OrderOf(list) == old(OrderOf(list))
    ensures Sound(list)
  {
    hide *;
    ghost var o := OrderOf(list);
    BuddyStands(list, b);
    var c := b.parent;
    var g := c.parent;
    var wasOnline := b in list.present;
    ghost var ch := Change(list.connected, list.connected, list.present,
                              if isOnline then list.present + {b} else list.present - {b}, list.drift);
    ghost var r := RankingOf(list);
    RankingIs(list);
    BeforeChange(list, ch);
    OneRank(list.rank, b, rank);
    ApplyStatus(list, b, c, g, wasOnline, isOnline, rank, ch, r);
    SeesOne(list, ch, b);
    ViewIs(list, null);
    AfterStatus(list, ch, r, c, b, o);
  }
}
