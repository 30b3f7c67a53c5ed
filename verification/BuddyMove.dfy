/** The loop of `purple_blist_add_contact` that files the buddies of a contact anew.
    Most bodies below hide every definition; the short lemmas called `...Is` and
    `...Parts` give back the single definition that a step needs. */
module BuddyMove {
  import opened Lists
  import opened BuddyTree
  import opened BuddyIndex
  import opened BuddyCounts
  import opened BuddyState
  import opened BuddyRemove
  import opened BuddyAdd

  /** `purple_find_buddy_in_group` for the name of a buddy. */
  method FindInGroup(list: BuddyList, b: Node, g: Node) returns (found: Node?)
    ensures found == if b.name != "" && KeyOf(list, b, g) in list.buddies then list.buddies[KeyOf(list, b, g)] else null
  {
    if b.name == "" {
      return null;
    }
    var k := KeyOf(list, b, g);
    if k in list.buddies {
      return list.buddies[k];
    }
    return null;
  }

  /** The contact `c` was cut out of the group `g0` and is on its way to another group. */
  ghost predicate Moving(list: BuddyList, c: Node, g0: Node, g: Node)
    reads list, list.live, list.kids.Keys, c
  {
    && Coherent(list) && list.gone == {c} && g0 != g
    && c in list.kids && c.kind == ContactNode && c.parent == g0
  }

  /** `b` is a buddy of the moving contact that is still filed under the old group. */
  ghost predicate Pending(list: BuddyList, b: Node, g0: Node)
    reads list`owner, list`caches
  {
    FiledUnder(list, b, g0) && b.account in list.caches
  }

  /** The table `buddies` lets `b` into the group `g`: it finds nobody of that name there. */
  ghost predicate Admits(list: BuddyList, buddies: map<Key, Node>, b: Node, g: Node)
    reads b`name
  {
    b.name == "" || KeyOf(list, b, g) !in buddies
  }

  /** The table after one round of the loop. */
  ghost function RefiledEntry(list: BuddyList, buddies: map<Key, Node>, b: Node, g0: Node, g: Node): map<Key, Node>
    reads b`name
  {
    var rest := buddies - {KeyOf(list, b, g0)};
    if Admits(list, buddies, b, g) then rest[KeyOf(list, b, g) := b] else rest
  }

  /** The buddies that are not let in when the buddies `s` of the group `g0`
      come to the group `g` one by one. */
  ghost function Refused(list: BuddyList, buddies: map<Key, Node>, s: seq<Node>, g0: Node, g: Node): set<Node>
    reads (set b | b in s)`name
    decreases |s|
  {
    if s == [] then {}
    else
      (if Admits(list, buddies, s[0], g) then {} else {s[0]})
      + Refused(list, RefiledEntry(list, buddies, s[0], g0, g), s[1..], g0, g)
  }

  /** The table after that. */
  ghost function RefiledTable(list: BuddyList, buddies: map<Key, Node>, s: seq<Node>, g0: Node, g: Node): map<Key, Node>
    reads (set b | b in s)`name
    decreases |s|
  {
    if s == [] then buddies else RefiledTable(list, RefiledEntry(list, buddies, s[0], g0, g), s[1..], g0, g)
  }

  lemma {:induction false} RefusedAmong(list: BuddyList, buddies: map<Key, Node>, s: seq<Node>, g0: Node, g: Node)
    ensures Refused(list, buddies, s, g0, g) <= Elements(s)
    decreases |s|
  {
    if s != [] {
      RefusedAmong(list, RefiledEntry(list, buddies, s[0], g0, g), s[1..], g0, g);
      assert forall b :: b in s[1..] ==> b in s;
    }
  }

  /** When the table finds exactly the twins, and the newcomers are no twins of
      each other, the ones with a twin are refused. */
  lemma {:induction false} RefusedAreTwins(list: BuddyList, owner: map<Node, Node>, buddies: map<Key, Node>,
      s: seq<Node>, g0: Node, g: Node)
    requires g0 != g && forall i, j :: 0 <= i < j < |s| ==> KeyOf(list, s[i], g) != KeyOf(list, s[j], g)
    requires AllNamed(s) && forall b :: b in s ==> (KeyOf(list, b, g) in buddies <==> !NoTwin(list, owner, b, g))
    ensures Refused(list, buddies, s, g0, g) == Twins(list, owner, s, g)
    decreases |s|
  {
    hide NoTwin;
    if s != [] {
      var t := RefiledEntry(list, buddies, s[0], g0, g);
      forall b | b in s[1..]
        ensures b.name != "" && (KeyOf(list, b, g) in t <==> !NoTwin(list, owner, b, g))
      {
        var j :| 0 <= j < |s| - 1 && s[1..][j] == b;
        assert s[j + 1] == b && KeyOf(list, s[0], g) != KeyOf(list, s[j + 1], g);
      }
      assert forall i :: 0 <= i < |s| - 1 ==> s[1..][i] == s[i + 1];
      RefusedAreTwins(list, owner, t, s[1..], g0, g);
      assert forall b :: b in s <==> b == s[0] || b in s[1..];
    }
  }

  /** The loop before its round `k`: the table knows whom to refuse, and where that leads. */
  ghost predicate Foreseen(list: BuddyList, buddies: map<Key, Node>, s: seq<Node>, k: nat, g0: Node, g: Node,
      lost: set<Node>, final: map<Key, Node>)
    requires k <= |s|
    reads (set b | b in s)`name
  {
    && (forall b :: b in s[k..] ==> b in s)
    && Refused(list, buddies, s[k..], g0, g) == lost * Elements(s[k..])
    && RefiledTable(list, buddies, s[k..], g0, g) == final
  }

  lemma ForeseenAtFirst(list: BuddyList, buddies: map<Key, Node>, s: seq<Node>, g0: Node, g: Node)
    ensures Foreseen(list, buddies, s, 0, g0, g, Refused(list, buddies, s, g0, g),
      RefiledTable(list, buddies, s, g0, g))
  {
    assert s[0..] == s;
    RefusedAmong(list, buddies, s, g0, g);
  }

  lemma ForeseenAtLast(list: BuddyList, buddies: map<Key, Node>, s: seq<Node>, g0: Node, g: Node,
      lost: set<Node>, final: map<Key, Node>)
    requires Foreseen(list, buddies, s, |s|, g0, g, lost, final)
    ensures buddies == final
  {
  }

  lemma ForeseenNext(list: BuddyList, buddies: map<Key, Node>, s: seq<Node>, k: nat, g0: Node, g: Node,
      lost: set<Node>, final: map<Key, Node>)
    requires k < |s| && NoDup(s) && Foreseen(list, buddies, s, k, g0, g, lost, final)
    ensures Admits(list, buddies, s[k], g) <==> s[k] !in lost
    ensures Foreseen(list, RefiledEntry(list, buddies, s[k], g0, g), s, k + 1, g0, g, lost, final)
  {
    var t := RefiledEntry(list, buddies, s[k], g0, g);
    assert s[k..][0] == s[k] && s[k..][1..] == s[k + 1..];
    RefusedAmong(list, t, s[k + 1..], g0, g);
    NotLater(s, k);
    assert s[k] in Elements(s[k..]);
    assert forall b :: b in s[k..] <==> b == s[k] || b in s[k + 1..];
    hide NoDup, Admits, RefiledEntry;
    assert s[k] in Refused(list, buddies, s[k..], g0, g) <==> !Admits(list, buddies, s[k], g);
    assert s[k] in lost * Elements(s[k..]) <==> s[k] in lost;
  }

  lemma NotLater(s: seq<Node>, k: nat)
    requires k < |s| && NoDup(s)
    ensures s[k] !in s[k + 1..]
  {
  }

  lemma BeforeRefile(list: BuddyList, b: Node, c: Node, g0: Node, g: Node)
    requires Moving(list, c, g0, g) && b in list.kids[c] && Pending(list, b, g0)
    ensures Coherent(list) && Cached(list) && Homed(list, b, g0) && list.gone == {c} && g0 != g
    ensures b.account in list.caches && b.kind == BuddyNode && list.Listed(b) && b.parent == c && c.parent == g0
    ensures b in list.owner && list.owner[b] == g0 && g0 != c
    ensures c.child != null && (c.child.next == null <==> |list.kids[c]| == 1)
    ensures b in list.live && list.kids[c] != []
    ensures |list.kids[c]| == 1 <==> ViewOf(list).At(c) == [b]
  {
    hide Counters, Ranked, Cached;
    HasChild(list, c);
    assert Fits(c, b);
  }

  /** With a table that can be trusted, the buddies that are let in are those without a twin. */
  lemma TwinsInTable(list: BuddyList, b: Node, g: Node)
    requires Filed(list) && b in list.owner && list.owner[b] != g
    ensures KeyOf(list, b, g) in list.buddies <==> !NoTwin(list, list.owner, b, g)
  {
    FreeIsNoTwin(list, b, g);
    assert Keys(list)[b] == KeyOf(list, b, list.owner[b]) && KeyOf(list, b, list.owner[b]) != KeyOf(list, b, g);
  }

  /** Takes `b` off the file of the old group. */
  method UnfileCoherent(list: BuddyList, b: Node, g0: Node)
    requires Coherent(list) && Cached(list) && Homed(list, b, g0)
    modifies list`buddies, list`caches, list`owner
    ensures Coherent(list) && Cached(list) && list.caches.Keys == old(list.caches).Keys
    ensures list.owner == old(list.owner) - {b} && list.buddies == old(list.buddies) - {KeyOf(list, b, g0)}
    ensures Trust(list) >= old(Trust(list))
  {
    hide *;
    CoherentParts(list);
    Unfile(list, b, g0);
    CoherentParts(list);
  }

  /** Files `b` under the new group, where nobody was found. */
  method FileCoherent(list: BuddyList, b: Node, g: Node)
    requires Coherent(list) && Cached(list) && b.account in list.caches && b !in list.owner
    modifies list`buddies, list`caches, list`owner
    ensures Coherent(list) && list.caches.Keys == old(list.caches).Keys
    ensures list.owner == old(list.owner)[b := g] && list.buddies == old(list.buddies)[KeyOf(list, b, g) := b]
    ensures KeyOf(list, b, g) !in old(list.buddies) ==> Trust(list) >= old(Trust(list))
    ensures old(Trust(list)) >= 1 ==> Trust(list) >= 1
  {
    hide *;
    CoherentParts(list);
    File(list, b, g);
    CoherentParts(list);
  }

  /** What one round of the loop does with the buddy `b` of the moving contact:
      `free` says that the new group has nobody of its name yet. */
  ghost function RefiledOne(v: View, g0: Node, c: Node, b: Node, g: Node, free: bool): View {
    if free then View(v.kids, v.owner[b := g], v.live, v.gone) else v.MinusBuddy(g0, c, b)
  }

  lemma RefiledIs(v: View, g0: Node, c: Node, b: Node, g: Node)
    requires b in v.At(c)
    ensures var u := View(v.kids, v.owner - {b}, v.live, v.gone);
            && RefiledOne(v, g0, c, b, g, true) == View(u.kids, u.owner[b := g], u.live, u.gone)
            && RefiledOne(v, g0, c, b, g, false) == u.MinusBuddy(g0, c, b)
  {
    var u := View(v.kids, v.owner - {b}, v.live, v.gone);
    assert u.At(c) == v.At(c) && u.At(g0) == v.At(g0);
    assert u.owner[b := g] == v.owner[b := g];
    if v.At(c) == [b] {
      assert Elements(v.At(c)) == {b};
    }
  }

  lemma BeforeRemoveTwin(list: BuddyList, b: Node, c: Node, g0: Node)
    requires list.Listed(b) && b.kind == BuddyNode && b.parent == c && c.parent == g0 && list.gone == {c}
    requires b !in list.owner && KeyOf(list, b, g0) !in list.buddies
    ensures Removable(list, b) && Homed(list, b, g0)
    ensures list.buddies - {KeyOf(list, b, g0)} == list.buddies
  {
  }

  /** What the table says of `b` once it is off the file of the old group. */
  lemma AdmitsIs(list: BuddyList, buddies: map<Key, Node>, b: Node, g0: Node, g: Node)
    requires g0 != g
    ensures Admits(list, buddies, b, g) <==> b.name == "" || KeyOf(list, b, g) !in buddies - {KeyOf(list, b, g0)}
    ensures RefiledEntry(list, buddies, b, g0, g) ==
      if Admits(list, buddies, b, g) then (buddies - {KeyOf(list, b, g0)})[KeyOf(list, b, g) := b]
      else buddies - {KeyOf(list, b, g0)}
  {
  }

  /** One round of the loop. */
  method RefileOne(list: BuddyList, b: Node, c: Node, g0: Node, g: Node) returns (emptied: bool)
    requires Moving(list, c, g0, g) && c in list.kids && b in list.kids[c] && Pending(list, b, g0)
    modifies list`root, list`gone, list`kids, list`live, list`buddies, list`caches, list`owner, list`drift
    modifies list.live`prev, list.live`next, list.live`child, list.live`priorityValid
    modifies list.live`totalsize, list.live`currentsize, list.live`online, g0`destroyed
    ensures Coherent(list) && list.caches.Keys == old(list.caches).Keys && list.live <= old(list.live)
    ensures list.buddies == RefiledEntry(list, old(list.buddies), b, g0, g)
    ensures ViewOf(list) == RefiledOne(old(ViewOf(list)), g0, c, b, g, Admits(list, old(list.buddies), b, g))
    ensures emptied <==> !Admits(list, old(list.buddies), b, g) && old(ViewOf(list)).At(c) == [b]
    ensures (old(Trust(list)) >= 1 ==> Trust(list) >= 1) && (b.name != "" ==> Trust(list) >= old(Trust(list)))
    ensures Passed(old(list.drift), list.drift, Admits(list, old(list.buddies), b, g) || !Early(list, b))
    ensures !emptied ==> OffAt(list.drift, g0) == OffAt(old(list.drift), g0)
    ensures g0.destroyed == old(g0.destroyed) + if emptied then 1 else 0
  {
    hide *;
    BeforeRefile(list, b, c, g0, g);
    ViewIs(list, c);
    RefiledIs(ViewOf(list), g0, c, b, g);
    AdmitsIs(list, list.buddies, b, g0, g);
    emptied := false;
    PassedNone(list.drift);
    UnfileCoherent(list, b, g0);
    ViewIs(list, c);
    var found := FindInGroup(list, b, g);
    if found == null {
      FileCoherent(list, b, g);
      ViewIs(list, c);
    } else {
      if c.child.next == null {
        emptied := true;
      }
      RemoveTwin(list, b, c, g0);
    }
  }

  /** A buddy whose name is taken in the new group is removed. */
  method RemoveTwin(list: BuddyList, b: Node, c: Node, g0: Node)
    requires Coherent(list) && list.Listed(b) && b.kind == BuddyNode && b.parent == c &&
      c.parent == g0 && list.gone == {c}
    requires b !in list.owner && KeyOf(list, b, g0) !in list.buddies && g0 != c
    modifies list`root, list`gone, list`kids, list`live, list`buddies, list`caches, list`owner, list`drift
    modifies list.live`prev, list.live`next, list.live`child, list.live`priorityValid
    modifies list.live`totalsize, list.live`currentsize, list.live`online, g0`destroyed
    ensures Coherent(list) && list.caches.Keys == old(list.caches).Keys && list.live <= old(list.live)
    ensures ViewOf(list) == old(ViewOf(list)).MinusBuddy(g0, c, b)
    ensures list.buddies == old(list.buddies) && Trust(list) >= old(Trust(list))
    ensures Passed(old(list.drift), list.drift, !Early(list, b))
    ensures old(ViewOf(list)).At(c) != [b] ==> OffAt(list.drift, g0) == OffAt(old(list.drift), g0)
    ensures g0.destroyed == old(g0.destroyed) + if old(ViewOf(list)).At(c) == [b] then 1 else 0
  {
    hide *;
    PassedByBuddy(list.drift, g0, c, Early(list, b), ViewOf(list).At(c) == [b]);
    GroupSpared(list.drift, g0, c, Early(list, b));
    BeforeRemoveTwin(list, b, c, g0);
    RemoveBuddy(list, b);
  }

  function NotIn(lost: set<Node>): Node -> bool {
    (b: Node) => b !in lost
  }

  /** The buddies of `s` whose name is taken in the group `g`. */
  ghost function Twins(list: BuddyList, owner: map<Node, Node>, s: seq<Node>, g: Node): set<Node>
    reads owner.Keys`name, (set b | b in s)`name
  {
    set b | b in s && !NoTwin(list, owner, b, g)
  }

  /** The file after the buddies `done` were refiled or removed. */
  ghost function RefiledOwner(owner: map<Node, Node>, done: seq<Node>, lost: set<Node>, g: Node): map<Node, Node> {
    map b | b in owner && !(b in done && b in lost) :: if b in done then g else owner[b]
  }

  /** The tree after the first `k` buddies `s` of the contact `c` were looked
      at: of these only the ones that were let in are left. */
  ghost function Halfway(v: View, c: Node, g: Node, lost: set<Node>, s: seq<Node>, k: nat): View
    requires k <= |s|
  {
    View(v.kids[c := Filter(s[..k], NotIn(lost)) + s[k..]], RefiledOwner(v.owner, s[..k], lost, g),
         v.live - (Elements(s[..k]) * lost), v.gone)
  }

  lemma FilterStep(s: seq<Node>, k: nat, lost: set<Node>)
    requires k < |s|
    ensures Filter(s[..k + 1], NotIn(lost)) == Filter(s[..k], NotIn(lost)) + if s[k] in lost then [] else [s[k]]
  {
    assert s[..k + 1] == s[..k] + [s[k]];
    FilterConcat(s[..k], [s[k]], NotIn(lost));
  }

  lemma OwnerStep(owner: map<Node, Node>, s: seq<Node>, k: nat, lost: set<Node>, g: Node)
    requires k < |s| && NoDup(s) && s[k] in owner
    ensures var o := RefiledOwner(owner, s[..k], lost, g);
            RefiledOwner(owner, s[..k + 1], lost, g) == if s[k] in lost then o - {s[k]} else o[s[k] := g]
  {
    assert forall b :: b in s[..k + 1] <==> b in s[..k] || b == s[k];
    assert s[k] !in s[..k];
  }

  lemma LiveStep(live: set<Node>, s: seq<Node>, k: nat, lost: set<Node>)
    requires k < |s|
    ensures live - Elements(s[..k + 1]) * lost ==
      if s[k] in lost then (live - Elements(s[..k]) * lost) - {s[k]} else live - Elements(s[..k]) * lost
  {
    assert forall b :: b in s[..k + 1] <==> b in s[..k] || b == s[k];
  }

  /** One round, unless it empties the contact. */
  lemma HalfwayStep(v: View, g0: Node, c: Node, g: Node, lost: set<Node>, s: seq<Node>, k: nat)
    requires k < |s| && NoDup(s) && s[k] in v.owner
    requires !(s[k] in lost && Halfway(v, c, g, lost, s, k).At(c) == [s[k]])
    ensures RefiledOne(Halfway(v, c, g, lost, s, k), g0, c, s[k], g, s[k] !in lost) ==
      Halfway(v, c, g, lost, s, k + 1)
    ensures Halfway(v, c, g, lost, s, k + 1).At(c) != []
  {
    var h, b := Halfway(v, c, g, lost, s, k), s[k];
    var t := Filter(s[..k], NotIn(lost));
    KidsStep(s, k, lost);
    OwnerStep(v.owner, s, k, lost, g);
    LiveStep(v.live, s, k, lost);
    hide Minus, Filter, RefiledOwner, NoDup, Elements;
    assert h.At(c) == t + s[k..];
    assert b in s[k..] && |h.At(c)| == 1 ==> h.At(c) == [b];
    assert v.kids[c := t + s[k..]][c := Minus(t + s[k..], b)] == v.kids[c := Minus(t + s[k..], b)];
  }

  lemma KidsStep(s: seq<Node>, k: nat, lost: set<Node>)
    requires k < |s| && NoDup(s)
    ensures var t := Filter(s[..k], NotIn(lost));
            Filter(s[..k + 1], NotIn(lost)) + s[k + 1..] == if s[k] in lost then Minus(t + s[k..], s[k])
                else t + s[k..]
  {
    hide *;
    var t := Filter(s[..k], NotIn(lost));
    FilterStep(s, k, lost);
    FilterMembers(s[..k], NotIn(lost));
    NotBefore(s, k);
    MinusMiddle(t, s[k], s[k + 1..]);
    assert s[k..] == [s[k]] + s[k + 1..];
    assert t + s[k..] == t + [s[k]] + s[k + 1..];
  }

  lemma NotBefore(s: seq<Node>, k: nat)
    requires k < |s| && NoDup(s)
    ensures s[k] !in s[..k]
  {
  }

  /** The round that empties the contact is the last one, and leaves the tree without the contact. */
  lemma HalfwayEnd(v: View, g0: Node, c: Node, g: Node, lost: set<Node>, s: seq<Node>, k: nat)
    requires k < |s| && NoDup(s) && (forall b :: b in s ==> b in v.owner)
    requires c in v.kids && v.kids[c] == s && g0 in v.kids && g0 != c
    requires s[k] in lost && Halfway(v, c, g, lost, s, k).At(c) == [s[k]]
    ensures k + 1 == |s| && Filter(s, NotIn(lost)) == []
    ensures Halfway(v, c, g, lost, s, k).MinusBuddy(g0, c, s[k]) == v.MinusContact(g0, c)
  {
    var h, b := Halfway(v, c, g, lost, s, k), s[k];
    var t := Filter(s[..k], NotIn(lost));
    assert |t + s[k..]| == 1;
    assert t == [] && s[k..] == [b];
    FilterStep(s, k, lost);
    assert s[..k + 1] == s;
    FilterMembers(s[..k], NotIn(lost));
    hide Filter, NoDup, Minus;
    assert forall x :: x in s[..k] ==> NotIn(lost)(x) || x in lost;
    assert forall x :: x in s <==> x in s[..k] || x == b;
    assert Elements(h.At(c)) == {b};
    assert h.owner - {b} == v.owner - Elements(s);
    assert h.live - {b} - {c} == v.live - Elements(s) - {c};
    assert h.kids - {c} == v.kids - {c};
  }

  /** What is known of the buddies `s` of the moving contact before the loop, and stays true. */
  ghost predicate Known(accounts: set<Account>, v: View, c: Node, g0: Node, g: Node, s: seq<Node>) {
    && NoDup(s) && g0 != g && g0 in v.kids && g0 != c && c in v.kids && v.kids[c] == s && v.gone == {c}
    && (forall b :: b in s ==> b in v.owner && v.owner[b] == g0 && b.account in accounts)
  }

  lemma StillPending(owner: map<Node, Node>, s: seq<Node>, lost: set<Node>, g: Node, k: nat)
    requires k < |s| && NoDup(s) && s[k] in owner
    ensures var o := RefiledOwner(owner, s[..k], lost, g); s[k] in o && o[s[k]] == owner[s[k]]
  {
    NotBefore(s, k);
  }

  lemma NextOf(list: BuddyList, c: Node, t: seq<Node>, s: seq<Node>, k: nat)
    requires Tree(list) && c in list.kids && c.kind == ContactNode && list.gone == {c}
    requires k < |s| && list.kids[c] == t + s[k..]
    ensures s[k].next == if k + 1 < |s| then s[k + 1] else null
  {
    var u := list.kids[c];
    assert list.Chained(c, u, list.gone);
    assert Joined(u, |t|, list.gone);
    assert forall n :: n in u ==> Fits(c, n);
    if k + 1 < |s| {
      assert u[|t| + 1] == s[k + 1];
    }
  }

  lemma BeforeRound(list: BuddyList, accounts: set<Account>, v: View, c: Node, g0: Node, g: Node, s: seq<Node>,
      lost: set<Node>, k: nat)
    requires Known(accounts, v, c, g0, g, s) && k < |s|
    requires Moving(list, c, g0, g) && ViewOf(list) == Halfway(v, c, g, lost, s, k) && list.caches.Keys == accounts
    ensures c in list.kids && s[k] in list.kids[c] && Pending(list, s[k], g0)
    ensures c.kind == ContactNode && c.parent == g0
    ensures s[k].next == if k + 1 < |s| then s[k + 1] else null
    ensures Halfway(v, c, g, lost, s, k).At(c) == [s[k]] ==> k + 1 == |s|
    ensures var h := Halfway(v, c, g, lost, s, k);
            var r := RefiledOne(h, g0, c, s[k], g, s[k] !in lost);
            if s[k] in lost && h.At(c) == [s[k]] then r == v.MinusContact(g0, c) && Filter(s, NotIn(lost)) == []
            else r == Halfway(v, c, g, lost, s, k + 1) && Halfway(v, c, g, lost, s, k + 1).At(c) != []
  {
    StillPending(v.owner, s, lost, g, k);
    assert s[k] in s;
    CoherentParts(list);
    assert list.kids[c] == Filter(s[..k], NotIn(lost)) + s[k..];
    hide Coherent, Tree, Ranked, Cached, Filter, RefiledOwner;
    assert s[k] in s[k..];
    NextOf(list, c, Filter(s[..k], NotIn(lost)), s, k);
    if s[k] in lost && Halfway(v, c, g, lost, s, k).At(c) == [s[k]] {
      HalfwayEnd(v, g0, c, g, lost, s, k);
    } else {
      HalfwayStep(v, g0, c, g, lost, s, k);
    }
  }

  /** The refused ones among the first `k` buddies. */
  lemma OneMoreRefused(list: BuddyList, s: seq<Node>, lost: set<Node>, k: nat)
    requires k < |s|
    ensures NoneEarly(list, Elements(s[..k + 1]) * lost) <==>
      NoneEarly(list, Elements(s[..k]) * lost) && (s[k] !in lost || !Early(list, s[k]))
    ensures s[..|s|] == s
  {
    assert forall b :: b in s[..k + 1] <==> b in s[..k] || b == s[k];
  }

  lemma NoneRefusedYet(list: BuddyList, s: seq<Node>, lost: set<Node>)
    ensures NoneEarly(list, Elements(s[..0]) * lost) && s[..|s|] == s
  {
  }

  lemma AfterRound(list: BuddyList, v: View, c: Node, g0: Node, g: Node, s: seq<Node>, lost: set<Node>, k: nat)
    requires Coherent(list) && g0 != g && c.kind == ContactNode && c.parent == g0 && k <= |s| &&
      v.gone == {c}
    requires ViewOf(list) == Halfway(v, c, g, lost, s, k)
    ensures Moving(list, c, g0, g)
  {
    hide Coherent;
  }

  lemma BeforeRounds(list: BuddyList, accounts: set<Account>, v: View, c: Node, g0: Node, g: Node, s: seq<Node>,
      lost: set<Node>)
    requires Moving(list, c, g0, g) && v == ViewOf(list) && Known(accounts, v, c, g0, g, s)
    ensures v == Halfway(v, c, g, lost, s, 0)
    ensures c.kind == ContactNode && c.parent == g0 && g0 != g && v.gone == {c} && c in v.kids && v.kids[c] == s
    ensures c.child == if s == [] then null else s[0]
    ensures Coherent(list) && g0 != c
  {
    HasChild(list, c);
    hide Coherent, Halfway;
    HalfwayStart(v, c, g, lost, s);
  }

  lemma HalfwayStart(v: View, c: Node, g: Node, lost: set<Node>, s: seq<Node>)
    requires c in v.kids && v.kids[c] == s
    ensures v == Halfway(v, c, g, lost, s, 0)
  {
    assert s[..0] == [] && s[0..] == s;
    assert Filter<Node>([], NotIn(lost)) == [];
    assert [] + s == s && v.kids[c := s] == v.kids;
    assert RefiledOwner(v.owner, [], lost, g) == v.owner;
    assert Elements<Node>([]) * lost == {};
  }

  /** A contact `c` that changes from the group `g0` to `g`: the list and its buddies `s` before
      the loop, which of them will be refused, and the table that the loop leads to. */
  datatype Trek = Trek(accounts: set<Account>, v: View, c: Node, g0: Node, g: Node, s: seq<Node>, lost: set<Node>,
                       final: map<Key, Node>, drift: map<Node, int>, trust: nat, destroyed: int)

  ghost predicate AllNamed(s: seq<Node>)
    reads (set b | b in s)`name
  {
    forall b :: b in s ==> b.name != ""
  }

  /** Names and lookups are as trustworthy as before, except if buddies have no name. */
  ghost predicate Trusted(list: BuddyList, trust: nat, s: seq<Node>)
    reads list`buddies, list`owner, list.owner.Keys`name, (set b | b in s)`name
  {
    && (trust >= 1 ==> Trust(list) >= 1)
    && (AllNamed(s) ==> Trust(list) >= trust)
  }

  lemma TrustedIs(list: BuddyList, trust: nat, s: seq<Node>)
    ensures Trusted(list, trust, s) <==>
      && (trust >= 1 ==> Trust(list) >= 1)
      && (AllNamed(s) ==> Trust(list) >= trust)
  {
  }

  /** Where the loop stands after `k` rounds. */
  ghost predicate Underway(list: BuddyList, t: Trek, k: nat)
    reads list, list.live, list.kids.Keys, list.owner.Keys`name, t.c, t.g0`destroyed, (set b | b in t.s)`name
  {
    && k <= |t.s| && Moving(list, t.c, t.g0, t.g) && Known(t.accounts, t.v, t.c, t.g0, t.g, t.s)
    && list.caches.Keys == t.accounts && list.live <= t.v.live
    && ViewOf(list) == Halfway(t.v, t.c, t.g, t.lost, t.s, k) && (0 < k ==> ViewOf(list).At(t.c) != [])
    && Foreseen(list, list.buddies, t.s, k, t.g0, t.g, t.lost, t.final) && Trusted(list, t.trust, t.s)
    && Passed(t.drift, list.drift, NoneEarly(list, Elements(t.s[..k]) * t.lost))
    && OffAt(list.drift, t.g0) == OffAt(t.drift, t.g0) && t.g0.destroyed == t.destroyed
  }

  lemma UnderwayIs(list: BuddyList, t: Trek, k: nat)
    ensures Underway(list, t, k) <==>
      && k <= |t.s| && Moving(list, t.c, t.g0, t.g) && Known(t.accounts, t.v, t.c, t.g0, t.g, t.s)
      && list.caches.Keys == t.accounts && list.live <= t.v.live
      && ViewOf(list) == Halfway(t.v, t.c, t.g, t.lost, t.s, k) && (0 < k ==> ViewOf(list).At(t.c) != [])
      && Foreseen(list, list.buddies, t.s, k, t.g0, t.g, t.lost, t.final) && Trusted(list, t.trust, t.s)
      && Passed(t.drift, list.drift, NoneEarly(list, Elements(t.s[..k]) * t.lost))
      && OffAt(list.drift, t.g0) == OffAt(t.drift, t.g0) && t.g0.destroyed == t.destroyed
  {
  }

  /** All buddies were refused, and the contact is gone with the last one. */
  ghost predicate Vacated(list: BuddyList, t: Trek)
    reads list, list.live, list.kids.Keys, list.owner.Keys`name, t.g0`destroyed, (set b | b in t.s)`name
  {
    && Coherent(list) && list.caches.Keys == t.accounts && list.live <= t.v.live
    && ViewOf(list) == t.v.MinusContact(t.g0, t.c) && t.s != [] && Filter(t.s, NotIn(t.lost)) == []
    && list.buddies == t.final && Trusted(list, t.trust, t.s)
    && Passed(t.drift, list.drift, NoneEarly(list, Elements(t.s) * t.lost)) && t.g0.destroyed == t.destroyed + 1
  }

  lemma VacatedIs(list: BuddyList, t: Trek)
    ensures Vacated(list, t) <==>
      && Coherent(list) && list.caches.Keys == t.accounts && list.live <= t.v.live
      && ViewOf(list) == t.v.MinusContact(t.g0, t.c) && t.s != [] && Filter(t.s, NotIn(t.lost)) == []
      && list.buddies == t.final && Trusted(list, t.trust, t.s)
      && Passed(t.drift, list.drift, NoneEarly(list, Elements(t.s) * t.lost)) && t.g0.destroyed == t.destroyed + 1
  {
  }

  lemma TrustedOn(list: BuddyList, trust: nat, trust': nat, s: seq<Node>, k: nat)
    requires k < |s| && (trust >= 1 ==> trust' >= 1) && (AllNamed(s) ==> trust' >= trust)
    requires (trust' >= 1 ==> Trust(list) >= 1) && (s[k].name != "" ==> Trust(list) >= trust')
    ensures Trusted(list, trust, s)
  {
    assert s[k] in s;
  }

  /** One round of the loop, for the buddy at position `k`. */
  method RefileRound(list: BuddyList, b: Node, c: Node, g0: Node, g: Node, ghost t: Trek, ghost k: nat)
    returns (emptied: bool)
    requires Underway(list, t, k) && k < |t.s| && b == t.s[k] && c == t.c && g0 == t.g0 && g == t.g
    modifies list`root, list`gone, list`kids, list`live, list`buddies, list`caches, list`owner, list`drift
    modifies list.live`prev, list.live`next, list.live`child, list.live`priorityValid
    modifies list.live`totalsize, list.live`currentsize, list.live`online, g0`destroyed
    ensures if emptied then Vacated(list, t) else Underway(list, t, k + 1)
  {
    hide *;
    UnderwayIs(list, t, k);
    BeforeRound(list, t.accounts, t.v, c, g0, g, t.s, t.lost, k);
    KnownIsDistinct(t);
    ForeseenNext(list, list.buddies, t.s, k, g0, g, t.lost, t.final);
    OneMoreRefused(list, t.s, t.lost, k);
    TrustedIs(list, t.trust, t.s);
    ghost var was, trust, buddies := list.drift, Trust(list), list.buddies;
    assert Known(t.accounts, t.v, c, g0, g, t.s);
    emptied := RefileOne(list, b, c, g0, g);
    OneMoreRefused(list, t.s, t.lost, k);
    PassedOn(t.drift, was, list.drift, NoneEarly(list, Elements(t.s[..k]) * t.lost),
             b !in t.lost || !Early(list, b));
    TrustedOn(list, t.trust, trust, t.s, k);
    if emptied {
      ForeseenAtLast(list, list.buddies, t.s, g0, g, t.lost, t.final);
      VacatedIs(list, t);
    } else {
      AfterRound(list, t.v, c, g0, g, t.s, t.lost, k + 1);
      UnderwayIs(list, t, k + 1);
    }
  }

  lemma KnownIsDistinct(t: Trek)
    requires Known(t.accounts, t.v, t.c, t.g0, t.g, t.s)
    ensures NoDup(t.s) && t.g0 != t.g && t.v.gone == {t.c}
  {
  }

  /** The loop of `purple_blist_add_contact` over the buddies of a contact that
      changes groups. The ones that are refused are removed, the others refiled;
      when the last buddy was refused and no other is left, the contact is gone. */
  method RefileAll(list: BuddyList, c: Node, g0: Node, g: Node, ghost t: Trek) returns (emptied: bool)
    requires Underway(list, t, 0) && c == t.c && g0 == t.g0 && g == t.g && t.v == ViewOf(list)
    modifies list`root, list`gone, list`kids, list`live, list`buddies, list`caches, list`owner, list`drift
    modifies list.live`prev, list.live`next, list.live`child, list.live`priorityValid
    modifies list.live`totalsize, list.live`currentsize, list.live`online, g0`destroyed
    ensures if emptied then Vacated(list, t) else Underway(list, t, |t.s|)
  {
    hide *;
    UnderwayIs(list, t, 0);
    BeforeRounds(list, t.accounts, t.v, c, g0, g, t.s, t.lost);
    ViewIs(list, c);
    ghost var k := 0;
    var bnode := c.child;
    while bnode != null
      invariant k <= |t.s| && bnode == (if k < |t.s| then t.s[k] else null)
      invariant Underway(list, t, k) && list.live <= old(list.live)
      decreases |t.s| - k
    {
      UnderwayIs(list, t, k);
      BeforeRound(list, t.accounts, t.v, c, g0, g, t.s, t.lost, k);
      var next := bnode.next;
      assert Underway(list, t, k);
      emptied := RefileRound(list, bnode, c, g0, g, t, k);
      if emptied {
        return;
      }
      k := k + 1;
      UnderwayIs(list, t, k);
      bnode := next;
    }
    emptied := false;
  }

  /** The contact before the loop. */
  lemma SetsOut(list: BuddyList, t: Trek)
    requires Moving(list, t.c, t.g0, t.g) && Known(t.accounts, t.v, t.c, t.g0, t.g, t.s) && t.v == ViewOf(list)
    requires list.caches.Keys == t.accounts && t.lost == Refused(list, list.buddies, t.s, t.g0, t.g)
    requires t.final == RefiledTable(list, list.buddies, t.s, t.g0, t.g)
    requires t.drift == list.drift && t.trust == Trust(list) && t.destroyed == t.g0.destroyed
    ensures Underway(list, t, 0)
  {
    hide *;
    BeforeRounds(list, t.accounts, t.v, t.c, t.g0, t.g, t.s, t.lost);
    ForeseenAtFirst(list, list.buddies, t.s, t.g0, t.g);
    TrustedIs(list, t.trust, t.s);
    NoneRefusedYet(list, t.s, t.lost);
    PassedNone(list.drift);
    ViewIs(list, null);
    UnderwayIs(list, t, 0);
  }
}
