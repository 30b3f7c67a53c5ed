/** What can be asked of a buddy list: the priority buddy of a contact, and the buddies with a name.
    Most bodies below hide every definition; the short lemmas called `...Is` and
    `...Parts` give back the single definition that a step needs. */
module BuddyFind {
  import opened BuddyTree
  import opened BuddyIndex
  import opened BuddyPriority
  import opened BuddyState
  import opened BuddyRemove
  import opened BuddyValid
  import opened BuddyContacts
  import opened BuddyApi
  import opened BuddyConnect

  /** One round of the loop: `best` is the best of the first `i` buddies. */
  lemma {:induction false} BestSoFar(r: Ranking, s: seq<Node>, i: nat)
    requires 0 < i < |s|
    ensures r.Best(s[..i]) != null
    ensures r.Best(s[..i + 1]) == if r.Beats(s[i], r.Best(s[..i])) then s[i] else r.Best(s[..i])
  {
    assert s[..i + 1][1..] == s[1..i] + [s[i]];
    assert s[..i][1..] == s[1..i];
    BestFromPlus(r, s[0], s[1..i], s[i]);
  }

  lemma {:induction false} BestFromPlus(r: Ranking, best: Node, s: seq<Node>, b: Node)
    ensures r.BestFrom(best, s + [b]) ==
      if r.Beats(b, r.BestFrom(best, s)) then b else r.BestFrom(best, s)
    decreases |s|
  {
    if s == [] {
      assert s + [b] == [b] && [b][1..] == [];
      assert r.BestFrom(if r.Beats(b, best) then b else best, []) == if r.Beats(b, best) then b else best;
    } else {
      assert (s + [b])[0] == s[0] && (s + [b])[1..] == s[1..] + [b];
      BestFromPlus(r, if r.Beats(s[0], best) then s[0] else best, s[1..], b);
    }
  }

  lemma BestOfOne(r: Ranking, s: seq<Node>)
    ensures r.Best(s[..0]) == null && s[..|s|] == s
    ensures s != [] ==> r.Best(s[..1]) == s[0]
  {
    if s != [] {
      assert s[..1][1..] == [];
    }
  }

  lemma BeatsIs(r: Ranking, b: Node, best: Node)
    ensures r.Beats(b, best) <==>
      r.Up(b) && (!r.Up(best) || r.Rank(best) < r.Rank(b) || (r.Rank(best) == r.Rank(b) && r.lastMatch))
    ensures r.Up(b) <==> b.account in r.connected
  {
  }

  /** `purple_contact_compute_priority_buddy` */
  method ComputePriority(list: BuddyList, c: Node)
    requires Standing(list) && c in list.kids && c.kind == ContactNode
    modifies c`priority, c`priorityValid
    ensures c.priorityValid && c.priority == RankingOf(list).Best(list.kids[c])
  {
    hide *;
    ghost var s, i, r := list.kids[c], 0, RankingOf(list);
    ContactStands(list, c);
    RankingIs(list);
    BestOfOne(r, s);
    c.priority := null;
    var best: Node? := null;
    var bnode := c.child;
    while bnode != null
      invariant i <= |s| && bnode == if i < |s| then s[i] else null
      invariant Standing(list) && best == r.Best(s[..i]) && (best == null <==> i == 0)
      decreases |s| - i
    {
      NextOfChild(list, c, i);
      if best == null {
        best := bnode;
      } else {
        BestSoFar(r, s, i);
        BeatsIs(r, bnode, best);
        BeatsIs(r, best, bnode);
        RankAgrees(list, best);
        RankAgrees(list, bnode);
        if bnode.account in list.connected {
          var cmp := 1;
          if best.account in list.connected {
            cmp := Compare(list, best, bnode);
          }
          if cmp > 0 || (cmp == 0 && list.lastMatch) {
            best := bnode;
          }
        }
      }
      bnode := bnode.next;
      i := i + 1;
    }
    c.priority := best;
    c.priorityValid := true;
  }

  function RankIn(list: BuddyList, b: Node): int
    reads list`rank
  {
    if b in list.rank then list.rank[b] else 0
  }

  lemma RankAgrees(list: BuddyList, b: Node)
    ensures RankingOf(list).Rank(b) == RankIn(list, b)
  {
  }

  /** `purple_presence_compare`, positive when the second buddy is better */
  method Compare(list: BuddyList, first: Node, second: Node) returns (cmp: int)
    ensures cmp > 0 <==> RankIn(list, first) < RankIn(list, second)
    ensures cmp == 0 <==> RankIn(list, first) == RankIn(list, second)
  {
    cmp := RankIn(list, second) - RankIn(list, first);
  }

  /** The cached buddies of all contacts but `c`. */
  ghost predicate RankedBut(r: Ranking, ks: Kids, c: Node)
    reads (set x: Node | x in ks && x != c)`priority, (set x: Node | x in ks && x != c)`priorityValid
  {
    forall x: Node :: x in ks && x != c && x.kind == ContactNode && x.priorityValid && ks[x] != [] ==>
        x.priority == r.Best(ks[x])
  }

  lemma IsRankedBut(r: Ranking, ks: Kids, c: Node)
    requires RankedBy(r, ks)
    ensures RankedBut(r, ks, c)
  {
  }

  lemma RankedWith(list: BuddyList, r: Ranking, c: Node)
    requires r == RankingOf(list) && RankedBut(r, list.kids, c) && c in list.kids && c.priority == r.Best(list.kids[c])
    ensures Ranked(list)
  {
  }

  lemma CachedIsBest(list: BuddyList, c: Node)
    requires RankedBy(RankingOf(list), list.kids) && c in list.kids && c.kind == ContactNode && c.priorityValid
    ensures list.kids[c] != [] ==> c.priority == RankingOf(list).Best(list.kids[c])
  {
  }

  lemma SoundAgain(list: BuddyList, o: Order)
    requires Standing(list) && Counters(list) && Ranked(list) && Cached(list)
    requires Owned(ViewOf(list)) && Ordered(list, ViewOf(list), o)
    ensures Sound(list) && OrderOf(list) == o
  {
    hide *;
    StandingParts(list);
    TreeParts(list);
    CoherentParts(list);
    StaysOrdered(list, ViewOf(list), o);
  }

  lemma BeforeGet(list: BuddyList)
    requires Sound(list)
    ensures Standing(list) && Counters(list) && RankedBy(RankingOf(list), list.kids) && Cached(list)
    ensures Owned(ViewOf(list)) && Ordered(list, ViewOf(list), OrderOf(list))
  {
    hide *;
    BeforeChange(list, Change(list.connected, list.connected, list.present, list.present, list.drift));
    SoundParts(list, null);
    CoherentParts(list);
    TreeParts(list);
  }

  /** Of the buddies `s`, that at position `k` is the one to show: it is connected, and every
      other connected one has a lower rank, or the same and stands behind it, or before it
      if the last of equals is preferred. Buddies without a rank have rank zero. If none
      is connected, it is the first one. */
  ghost predicate OnTop(list: BuddyList, s: seq<Node>, k: nat)
    requires k < |s|
    reads list`connected, list`rank
  {
    if s[k].account in list.connected then
      var mine := if s[k] in list.rank then list.rank[s[k]] else 0;
      forall j :: 0 <= j < |s| && j != k && s[j].account in list.connected ==>
        var other := if s[j] in list.rank then list.rank[s[j]] else 0;
        other < mine || (other == mine && (list.lastMatch <==> j < k))
    else
      k == 0 && forall j :: 0 <= j < |s| ==> s[j].account !in list.connected
  }

  /** The choice of the loop is the one on top. */
  lemma BestIsOnTop(list: BuddyList, s: seq<Node>) returns (k: nat)
    requires s != []
    ensures k < |s| && s[k] == RankingOf(list).Best(s) && OnTop(list, s, k)
  {
    var r := RankingOf(list);
    k := r.BestIsBest(s);
    hide Ranking.Best;
    assert r.IsBest(s, k);
    forall j | 0 <= j < |s| ensures r.Rank(s[j]) == if s[j] in list.rank then list.rank[s[j]] else 0 {
    }
  }

  /** `purple_contact_get_priority_buddy`: cached or not, the answer is the buddy on top. */
  method GetPriority(list: BuddyList, c: Node) returns (b: Node?)
    requires Sound(list) && c in list.kids && c.kind == ContactNode
    modifies c`priority, c`priorityValid
    ensures ViewOf(list) == old(ViewOf(list)) && OrderOf(list) == old(OrderOf(list))
    ensures list.kids[c] != [] ==> b == RankingOf(list).Best(list.kids[c])
    ensures list.kids[c] != [] ==>
      exists k :: 0 <= k < |list.kids[c]| && list.kids[c][k] == b && OnTop(list, list.kids[c], k)
    ensures Sound(list)
  {
    hide *;
    ghost var o := OrderOf(list);
    BeforeGet(list);
    ViewIs(list, c);
    ghost var r := RankingOf(list);
    if !c.priorityValid {
      IsRankedBut(r, list.kids, c);
      ComputePriority(list, c);
      RankedWith(list, r, c);
      SoundAgain(list, o);
    } else {
      CachedIsBest(list, c);
    }
    b := c.priority;
    if list.kids[c] != [] {
      ghost var k := BestIsOnTop(list, list.kids[c]);
    }
  }

  lemma OnlyTop(list: BuddyList, s: seq<Node>, k: nat, b: Node)
    requires k < |s| && OnTop(list, s, k) && b in s && b.account in list.connected && b in list.rank
    requires forall x :: x in s && x != b && x in list.rank ==> list.rank[x] < list.rank[b]
    requires forall x :: x in s && x != b && x !in list.rank ==> 0 < list.rank[b]
    ensures s[k] == b
  {
    var j :| 0 <= j < |s| && s[j] == b;
  }

  /** A buddy whose presence gets better than those of all its siblings becomes
      the one to show, whatever was cached before. */
  method Promote(list: BuddyList, b: Node, isOnline: bool, rank: int) returns (top: Node?)
    requires Sound(list) && list.Listed(b) && b.kind == BuddyNode && b.parent != null && b.parent.parent != null
    requires b.account in list.connected
    requires forall x :: x in ViewOf(list).At(b.parent) && x != b ==>
               (if x in list.rank then list.rank[x] else 0) < rank
    modifies list`present, list`rank, b.parent`online, b.parent.parent`online, b.parent`priorityValid, b.parent`priority
    ensures top == b && ViewOf(list) == old(ViewOf(list)) && list.rank == old(list.rank)[b := rank]
    ensures Sound(list)
  {
    hide *;
    var c := b.parent;
    BuddyStands(list, b);
    ViewIs(list, c);
    UpdateStatus(list, b, isOnline, rank);
    ViewIs(list, c);
    top := GetPriority(list, c);
    ViewIs(list, c);
    ghost var k :| 0 <= k < |list.kids[c]| && list.kids[c][k] == top && OnTop(list, list.kids[c], k);
    OnlyTop(list, list.kids[c], k, b);
  }

  /** `b` is listed and has the account `a` and the name `name`. */
  ghost predicate Answers(list: BuddyList, a: Account, name: string, b: Node)
    reads list`owner, b`name
  {
    b in list.owner && b.account == a && list.normalize(a, b.name) == list.normalize(a, name)
  }

  /** The entry of `b` in the table leads to `b`. */
  ghost predicate InTable(list: BuddyList, b: Node)
    reads list`owner, list`buddies, b`name
  {
    && b in list.owner && KeyOf(list, b, list.owner[b]) in list.buddies
    && list.buddies[KeyOf(list, b, list.owner[b])] == b
  }

  /** `b` has the account and the name, and the table leads to it. */
  ghost predicate Known(list: BuddyList, a: Account, name: string, b: Node)
    reads list`owner, list`buddies, b`name
  {
    Answers(list, a, name, b) && InTable(list, b)
  }

  /** When the table is in order, it leads to every buddy. */
  lemma AllAreKnown(list: BuddyList, a: Account, name: string, b: Node)
    requires Sound(list) && OrderOf(list).buddies == 2
    ensures Known(list, a, name, b) <==> Answers(list, a, name, b)
    ensures InTable(list, b) <==> b in list.owner
  {
    FiledIsOrder(list);
    if b in list.owner {
      assert Keys(list)[b] == KeyOf(list, b, list.owner[b]);
    }
    hide Sound, OrderOf;
  }

  lemma FiledIsOrder(list: BuddyList)
    requires Sound(list)
    ensures OrderOf(list).buddies == 2 <==> Filed(list)
    ensures Leads(Keys(list), list.buddies)
  {
    hide *;
    IsSound(list);
    OrderIs(list);
    TrustIs(list);
  }

  /** The group of `x` stands before that of `y`. */
  ghost predicate Before(list: BuddyList, x: Node, y: Node)
    reads list`owner, list`kids
  {
    && null in list.kids && x in list.owner && y in list.owner
    && exists i, j :: 0 <= i < j < |list.kids[null]| && list.kids[null][i] == list.owner[x] &&
        list.kids[null][j] == list.owner[y]
  }

  /** What a lookup in the table gives is the one known buddy of the group with that name. */
  lemma LookupKnown(list: BuddyList, a: Account, name: string, g: Node)
    requires Leads(Keys(list), list.buddies)
    ensures var k := Key(a, list.normalize(a, name), g);
            && (k in list.buddies ==> Known(list, a, name, list.buddies[k]) && list.owner[list.buddies[k]] == g)
            && (forall b :: Known(list, a, name, b) && list.owner[b] == g ==>
                k in list.buddies && list.buddies[k] == b)
  {
    var k := Key(a, list.normalize(a, name), g);
    if k in list.buddies {
      assert Keys(list)[list.buddies[k]] == k;
    }
  }

  /** Every listed buddy is below one of the groups, which then has a child. */
  lemma GroupOfListed(list: BuddyList, b: Node)
    requires Sound(list) && b in list.owner
    ensures null in list.kids && list.owner[b] in list.kids[null] && list.owner[b] in list.kids &&
      list.kids[list.owner[b]] != []
  {
    hide *;
    SoundParts(list, null);
    IsStanding(list);
    OnFileIsListed(list, b);
    HomeOf(list, b);
    ContactStands(list, b.parent);
    FamilyParts(list.kids, b.parent.parent, b.parent);
    GroupOnTop(list, b.parent.parent);
    OwnedBuddies(list, b.parent);
  }

  lemma GroupsOfListed(list: BuddyList)
    requires Sound(list)
    ensures null in list.kids && Standing(list) && Leads(Keys(list), list.buddies) && Cached(list)
    ensures forall b :: b in list.owner ==>
              list.owner[b] in list.kids[null] && list.owner[b] in list.kids && list.kids[list.owner[b]] != []
  {
    hide *;
    SoundParts(list, null);
    IsStanding(list);
    CoherentParts(list);
    FiledIsOrder(list);
    forall b | b in list.owner
      ensures list.owner[b] in list.kids[null] && list.owner[b] in list.kids && list.kids[list.owner[b]] != []
    {
      GroupOfListed(list, b);
    }
  }

  lemma KnownIs(list: BuddyList, a: Account, name: string)
    ensures forall b :: Known(list, a, name, b) ==> b in list.owner
  {
  }

  lemma OneLater(list: BuddyList, gs: seq<Node>, i: nat, x: Node, y: Node)
    requires null in list.kids && list.kids[null] == gs && i < |gs|
    requires x in list.owner && y in list.owner && list.owner[x] == gs[i] && list.owner[y] in gs &&
      list.owner[y] !in gs[..i + 1]
    ensures Before(list, x, y)
  {
    var j :| 0 <= j < |gs| && gs[j] == list.owner[y];
  }

  lemma NotSoFar(gs: seq<Node>, i: nat, g: Node)
    requires i < |gs|
    ensures g in gs[..i + 1] <==> g in gs[..i] || g == gs[i]
    ensures gs[..|gs|] == gs && g !in gs[..0]
  {
    assert gs[..i + 1] == gs[..i] + [gs[i]];
  }

  lemma GroupChild(list: BuddyList, g: Node)
    requires Standing(list) && g in list.kids
    ensures g.child == if list.kids[g] == [] then null else list.kids[g][0]
  {
    StandingParts(list);
    hide *;
    FirstChild(list, g);
  }

  /** `purple_find_buddy`: the buddy in the first group that has one with the account and name. */
  method FindBuddy(list: BuddyList, a: Account, name: string) returns (found: Node?)
    requires Sound(list)
    ensures found == null <==> name == "" || forall b :: b in list.owner ==> !Known(list, a, name, b)
    ensures found != null ==>
      && Known(list, a, name, found)
      && forall b :: b in list.owner && Known(list, a, name, b) && b != found ==> Before(list, found, b)
  {
    hide *;
    if name == "" {
      return null;
    }
    GroupsOfListed(list);
    KnownIs(list, a, name);
    FirstGroup(list);
    ghost var gs, i := list.kids[null], 0;
    var group := list.root;
    while group != null
      invariant i <= |gs| && group == if i < |gs| then gs[i] else null
      invariant forall b :: b in list.owner && Known(list, a, name, b) ==> list.owner[b] !in gs[..i]
      decreases |gs| - i
    {
      NextGroup(list, i);
      GroupChild(list, group);
      LookupKnown(list, a, name, group);
      forall b | b in list.owner { NotSoFar(gs, i, list.owner[b]); }
      var k := Key(a, list.normalize(a, name), group);
      if group.child != null && k in list.buddies {
        found := list.buddies[k];
        forall b | b in list.owner && Known(list, a, name, b) && b != found ensures Before(list, found, b) {
          OneLater(list, gs, i, found, b);
        }
        return;
      }
      group := group.next;
      i := i + 1;
    }
    forall b | b in list.owner ensures !Known(list, a, name, b) {
      assert gs[..i] == gs;
    }
    return null;
  }

  /** `purple_find_buddy_in_group` */
  method FindBuddyInGroup(list: BuddyList, a: Account, name: string, g: Node) returns (found: Node?)
    requires Sound(list)
    ensures found != null ==> Known(list, a, name, found) && list.owner[found] == g
    ensures forall b :: b in list.owner && Known(list, a, name, b) && list.owner[b] == g && name != "" ==> b == found
    ensures name == "" ==> found == null
  {
    hide *;
    if name == "" {
      return null;
    }
    GroupsOfListed(list);
    KnownIs(list, a, name);
    LookupKnown(list, a, name, g);
    var k := Key(a, list.normalize(a, name), g);
    found := if k in list.buddies then list.buddies[k] else null;
  }

  /** The buddies found so far, the last group first. */
  ghost predicate Gathered(list: BuddyList, a: Account, name: string, gs: seq<Node>, i: nat, ret: seq<Node>)
    requires i <= |gs|
    reads list`owner, list`kids, list`buddies, list.owner.Keys`name, (set b | b in ret)`name
  {
    && (forall b :: b in ret ==> Known(list, a, name, b) && list.owner[b] in gs[..i])
    && (forall b :: b in list.owner && Known(list, a, name, b) && list.owner[b] in gs[..i] ==> b in ret)
    && (forall x, y :: 0 <= x < y < |ret| ==> Before(list, ret[y], ret[x]))
  }

  lemma GatheredNone(list: BuddyList, a: Account, name: string, gs: seq<Node>)
    ensures Gathered(list, a, name, gs, 0, [])
  {
  }

  lemma BeforeAt(list: BuddyList, gs: seq<Node>, i: nat, x: Node, y: Node)
    requires null in list.kids && list.kids[null] == gs && i < |gs|
    requires x in list.owner && y in list.owner && list.owner[y] == gs[i] && list.owner[x] in gs[..i]
    ensures Before(list, x, y)
  {
    var j :| 0 <= j < i && gs[j] == list.owner[x];
  }

  lemma GatherSkip(list: BuddyList, a: Account, name: string, gs: seq<Node>, i: nat, ret: seq<Node>)
    requires i < |gs| && Gathered(list, a, name, gs, i, ret)
    requires forall b :: b in list.owner && Known(list, a, name, b) ==> list.owner[b] != gs[i]
    ensures Gathered(list, a, name, gs, i + 1, ret)
  {
    forall g: Node { NotSoFar(gs, i, g); }
    KnownIs(list, a, name);
    hide Known, Before;
  }

  lemma GatherOne(list: BuddyList, a: Account, name: string, gs: seq<Node>, i: nat, ret: seq<Node>, b: Node)
    requires null in list.kids && list.kids[null] == gs && i < |gs| && Gathered(list, a, name, gs, i, ret)
    requires Known(list, a, name, b) && b in list.owner && list.owner[b] == gs[i]
    requires forall x :: Known(list, a, name, x) && x in list.owner && list.owner[x] == gs[i] ==> x == b
    ensures Gathered(list, a, name, gs, i + 1, [b] + ret)
  {
    forall g: Node { NotSoFar(gs, i, g); }
    KnownIs(list, a, name);
    forall x | x in ret ensures Before(list, x, b) {
      BeforeAt(list, gs, i, x, b);
    }
    hide Known, Before;
  }

  lemma GatheredAll(list: BuddyList, a: Account, name: string, gs: seq<Node>, ret: seq<Node>)
    requires Gathered(list, a, name, gs, |gs|, ret)
    requires forall b :: b in list.owner ==> list.owner[b] in gs
    ensures forall b :: b in ret <==> Known(list, a, name, b)
    ensures forall x, y :: 0 <= x < y < |ret| ==> Before(list, ret[y], ret[x])
  {
    assert gs[..|gs|] == gs;
    KnownIs(list, a, name);
    hide Known, Before;
  }

  /** `purple_find_buddies` for a name: one buddy from every group that has one, the last group first. */
  method FindBuddies(list: BuddyList, a: Account, name: string) returns (ret: seq<Node>)
    requires Sound(list) && name != ""
    ensures forall b :: b in ret <==> Known(list, a, name, b)
    ensures forall x, y :: 0 <= x < y < |ret| ==> Before(list, ret[y], ret[x])
  {
    hide *;
    GroupsOfListed(list);
    FirstGroup(list);
    ghost var gs, i := list.kids[null], 0;
    GatheredNone(list, a, name, gs);
    ret := [];
    var node := list.root;
    while node != null
      invariant i <= |gs| && node == if i < |gs| then gs[i] else null
      invariant Gathered(list, a, name, gs, i, ret)
      decreases |gs| - i
    {
      NextGroup(list, i);
      GroupChild(list, node);
      LookupKnown(list, a, name, node);
      KnownIs(list, a, name);
      var k := Key(a, list.normalize(a, name), node);
      if node.child != null && k in list.buddies {
        GatherOne(list, a, name, gs, i, ret, list.buddies[k]);
        ret := [list.buddies[k]] + ret;
      } else {
        GatherSkip(list, a, name, gs, i, ret);
      }
      node := node.next;
      i := i + 1;
    }
    GatheredAll(list, a, name, gs, ret);
  }

  /** The entries of `m`, in any order. */
  method Values(m: map<Key, Node>) returns (ret: seq<Node>)
    ensures forall b :: b in ret <==> exists k :: k in m && m[k] == b
  {
    ret := [];
    var rest := m;
    while rest != map[]
      invariant forall k :: k in rest ==> k in m && rest[k] == m[k]
      invariant forall k :: k in m ==> k in rest || m[k] in ret
      invariant forall b :: b in ret ==> exists k :: k in m && m[k] == b
      decreases |rest|
    {
      var k :| k in rest;
      ret := [rest[k]] + ret;
      rest := rest - {k};
    }
  }

  lemma OnAccount(list: BuddyList, a: Account, b: Node)
    requires Leads(Keys(list), list.buddies) && Cached(list)
    ensures (a in list.caches && exists k :: k in list.caches[a] && list.caches[a][k] == b) <==>
      InTable(list, b) && b.account == a
  {
    if InTable(list, b) {
      var k := KeyOf(list, b, list.owner[b]);
      assert b.account == a ==> a in list.caches && k in list.caches[a];
    }
    if a in list.caches {
      forall k | k in list.caches[a] && list.caches[a][k] == b ensures InTable(list, b) && b.account == a {
        assert list.buddies[k] == b && Keys(list)[b] == k;
      }
    }
  }

  /** `purple_find_buddies` without a name: all buddies of the account that the table leads to. */
  method FindAllBuddies(list: BuddyList, a: Account) returns (ret: seq<Node>)
    requires Sound(list)
    ensures forall b :: b in ret <==> InTable(list, b) && b.account == a
  {
    hide *;
    GroupsOfListed(list);
    ret := [];
    if a in list.caches {
      ret := Values(list.caches[a]);
    }
    forall b ensures b in ret <==> InTable(list, b) && b.account == a {
      OnAccount(list, a, b);
    }
  }
}
