/** What the operations do to the children of every node, said of the sequences
    themselves: where something was taken out, where it went, and what stayed. */
module BuddyLaws {
  import opened Lists
  import opened BuddyTree
  import opened BuddyCounts
  import opened BuddyState
  import opened BuddyRemove
  import opened BuddyMove
  import opened BuddyValid
  import opened BuddyAdd
  import opened BuddyContacts
  import opened BuddyTop
  import opened BuddyApi
  import opened BuddyMerge
  import opened BuddyGroupMerge
  import opened BuddyRename
  import opened BuddyConnect
  import opened BuddyPurge

  /** `r` is `s` without `x`. */
  ghost predicate TakenOut(s: seq<Node>, x: Node, r: seq<Node>) {
    exists i :: 0 <= i < |s| && s[i] == x && r == s[..i] + s[i + 1..]
  }

  /** `r` is `s` with `x` right behind `prev`, or in front if that is null. */
  ghost predicate PutIn(s: seq<Node>, x: Node, prev: Node?, r: seq<Node>) {
    exists i :: 0 <= i <= |s| && r == s[..i] + [x] + s[i..] &&
      if prev == null then i == 0 else 0 < i && s[i - 1] == prev
  }

  /** `r` is `s` with `x` moved right behind `prev`, or to the front. */
  ghost predicate MovedIn(s: seq<Node>, x: Node, prev: Node?, r: seq<Node>) {
    exists i :: 0 <= i < |s| && s[i] == x && PutIn(s[..i] + s[i + 1..], x, prev, r)
  }

  /** All nodes but those in `but` have the same children. */
  ghost predicate SameElsewhere(ks: Kids, ls: Kids, but: set<Node?>) {
    forall p :: p in ks.Keys + ls.Keys && p !in but ==> p in ks && p in ls && ls[p] == ks[p]
  }

  lemma MinusIsTakenOut(s: seq<Node>, x: Node)
    requires x in s
    ensures TakenOut(s, x, Minus(s, x))
  {
    var i := IndexOf(s, x);
    assert Minus(s, x) == s[..i] + s[i + 1..];
  }

  lemma InsertIsPutIn(s: seq<Node>, x: Node, prev: Node?)
    requires prev == null || prev in s
    ensures PutIn(s, x, prev, InsertAt(s, After(s, prev), x))
  {
    var i := After(s, prev);
    assert InsertAt(s, i, x) == s[..i] + [x] + s[i..];
  }

  lemma MinusInsertIsMovedIn(s: seq<Node>, x: Node, prev: Node?)
    requires x in s && (prev == null || prev in Minus(s, x))
    ensures MovedIn(s, x, prev, InsertAt(Minus(s, x), After(Minus(s, x), prev), x))
  {
    var i := IndexOf(s, x);
    assert Minus(s, x) == s[..i] + s[i + 1..];
    InsertIsPutIn(Minus(s, x), x, prev);
  }

  lemma OneReplaced(ks: Kids, p: Node?, s: seq<Node>)
    ensures SameElsewhere(ks, ks[p := s], {p})
  {
  }

  lemma ContactGoes(v: View, g: Node, c: Node)
    requires g in v.kids && c in v.kids && c in v.kids[g] && g != c
    ensures var w := v.MinusContact(g, c);
            && c !in w.kids && TakenOut(v.kids[g], c, w.At(g)) && SameElsewhere(v.kids, w.kids, {c, g})
            && forall b :: b in w.owner <==> b in v.owner && b !in v.kids[c]
  {
    MinusIsTakenOut(v.kids[g], c);
    hide Minus, TakenOut;
  }

  /** A deleted buddy is taken out of its contact, or the contact out of the group if it was the last. */
  lemma BuddyGoes(v: View, g: Node, c: Node, b: Node)
    requires Stands(v, g, c, b) && c in v.kids[g]
    ensures var w := v.MinusBuddy(g, c, b);
            if v.kids[c] == [b] then
              c !in w.kids && TakenOut(v.kids[g], c, w.At(g)) && SameElsewhere(v.kids, w.kids, {c, g})
            else
              TakenOut(v.kids[c], b, w.At(c)) && SameElsewhere(v.kids, w.kids, {c})
  {
    hide TakenOut, SameElsewhere, NoDup, View.MinusContact;
    if v.kids[c] == [b] {
      ContactGoes(v, g, c);
    } else {
      MinusIsTakenOut(v.kids[c], b);
      OneReplaced(v.kids, c, Minus(v.kids[c], b));
      hide Minus;
    }
  }

  /** A buddy that is added stands right behind its neighbour, or in front, and is gone
      from where it was; a contact it was alone in is gone as well. */
  lemma BuddyComes(v: View, g0: Node?, c0: Node?, b: Node, g: Node, c: Node, prev: Node?)
    requires ComesFrom(v, g0, c0, b) && c in v.kids && c.kind == ContactNode && (c0 != null ==> c0 in v.At(g0))
    requires c0 == c ==> v.kids[c] != [b]
    requires prev == null || prev in Lifted(v, g0, c0, b).At(c)
    ensures var w := Lifted(v, g0, c0, b).PlusBuddy(g, c, prev, b);
            && (if c0 == c then MovedIn(v.kids[c], b, prev, w.At(c)) else PutIn(v.kids[c], b, prev, w.At(c)))
            && (c0 == null || c0 == c ==> SameElsewhere(v.kids, w.kids, {c}))
            && (c0 != null && c0 != c && v.kids[c0] != [b] ==>
                 TakenOut(v.kids[c0], b, w.At(c0)) && SameElsewhere(v.kids, w.kids, {c, c0}))
            && (c0 != null && c0 != c && v.kids[c0] == [b] ==>
                 && c0 !in w.kids && TakenOut(v.kids[g0], c0, w.At(g0))
                 && SameElsewhere(v.kids, w.kids, {c, c0, g0}))
            && b in w.owner && w.owner[b] == g
  {
    var x := Lifted(v, g0, c0, b);
    var put := InsertAt(x.At(c), After(x.At(c), prev), b);
    assert x.PlusBuddy(g, c, prev, b) == View(x.kids[c := put], x.owner[b := g], x.live + {b}, x.gone);
    hide TakenOut, PutIn, MovedIn, NoDup, View.PlusBuddy, SameElsewhere;
    if c0 == null {
      InsertIsPutIn(v.kids[c], b, prev);
      OneReplaced(v.kids, c, put);
    } else {
      BuddyGoes(v, g0, c0, b);
      if c0 == c {
        MinusInsertIsMovedIn(v.kids[c], b, prev);
        ThenReplaced(v.kids, x.kids, {c}, c, put);
        assert {c} + {c} == {c};
      } else if v.kids[c0] == [b] {
        StaysPut(v.kids, x.kids, {c0, g0}, c);
        InsertIsPutIn(v.kids[c], b, prev);
        ThenReplaced(v.kids, x.kids, {c0, g0}, c, put);
        assert {c0, g0} + {c} == {c, c0, g0};
      } else {
        StaysPut(v.kids, x.kids, {c0}, c);
        InsertIsPutIn(v.kids[c], b, prev);
        ThenReplaced(v.kids, x.kids, {c0}, c, put);
        assert {c0} + {c} == {c, c0};
      }
    }
  }

  lemma StaysPut(ks: Kids, xs: Kids, but: set<Node?>, p: Node?)
    requires SameElsewhere(ks, xs, but) && p !in but && p in ks
    ensures p in xs && xs[p] == ks[p]
  {
  }

  lemma ThenReplaced(ks: Kids, xs: Kids, but: set<Node?>, p: Node?, s: seq<Node>)
    requires SameElsewhere(ks, xs, but)
    ensures SameElsewhere(ks, xs[p := s], but + {p})
  {
  }

  lemma NoneKept(s: seq<Node>, lost: set<Node>)
    ensures Filter(s, NotIn(lost)) == Filter(s, (b: Node) => b !in lost)
    ensures Filter(s, NotIn(lost)) == [] <==> forall b :: b in s ==> b in lost
  {
    FilterMembers(s, NotIn(lost));
    FilterSame(s, NotIn(lost), (b: Node) => b !in lost);
    var keep := Filter(s, NotIn(lost));
    hide Filter;
    if keep == [] {
      forall b | b in s ensures b in lost {
        assert b !in keep;
      }
    } else {
      assert keep[0] in keep;
    }
  }

  lemma ThreeReplaced(ks: Kids, a: Node?, s: seq<Node>, b: Node?, t: seq<Node>, c: Node?, u: seq<Node>)
    requires a != b && b != c && a != c
    ensures var ls := ks[a := s][b := t][c := u];
            ls[a] == s && ls[b] == t && ls[c] == u && SameElsewhere(ks, ls, {a, b, c})
  {
  }

  /** A contact that is moved stands right behind its neighbour, or in front; it keeps its
      buddies, in order, but for those that are refused, and is gone if it had no others. */
  lemma ContactComes(v: View, g0: Node, c: Node, g: Node, prev: Node?, lost: set<Node>)
    requires g0 in v.kids && g in v.kids && c in v.kids && c in v.kids[g0] && c != g0 && c != g
    requires prev == null || prev in if g0 == g then Minus(v.kids[g], c) else v.kids[g]
    ensures var w := Transferred(v, g0, c, g, prev, lost);
            if g0 == g then
              MovedIn(v.kids[g], c, prev, w.At(g)) && SameElsewhere(v.kids, w.kids, {g})
            else if v.kids[c] != [] && forall b :: b in v.kids[c] ==> b in lost then
              c !in w.kids && TakenOut(v.kids[g0], c, w.At(g0)) && SameElsewhere(v.kids, w.kids, {c, g0})
            else
              && TakenOut(v.kids[g0], c, w.At(g0)) && PutIn(v.kids[g], c, prev, w.At(g))
              && w.At(c) == Filter(v.kids[c], (b: Node) => b !in lost) && SameElsewhere(v.kids, w.kids, {c, g0, g})
  {
    NoneKept(v.kids[c], lost);
    hide TakenOut, PutIn, MovedIn, SameElsewhere, Filter, View.MinusContact;
    if g0 == g {
      MinusInsertIsMovedIn(v.kids[g], c, prev);
      OneReplaced(v.kids, g, Placed(Minus(v.kids[g], c), prev, c));
    } else if v.kids[c] != [] && forall b :: b in v.kids[c] ==> b in lost {
      ContactGoes(v, g0, c);
    } else {
      MinusIsTakenOut(v.kids[g0], c);
      InsertIsPutIn(v.kids[g], c, prev);
      ThreeReplaced(v.kids, c, Filter(v.kids[c], NotIn(lost)), g0, Minus(v.kids[g0], c), g, Placed(v.kids[g], prev, c));
    }
    hide Minus, InsertAt, After;
  }

  lemma ChatComes(v: View, g0: Node?, n: Node, g: Node, prev: Node?)
    requires g in v.kids && (g0 != null ==> g0 in v.kids && n in v.kids[g0])
    requires prev == null || prev in if g0 == g then Minus(v.kids[g], n) else v.kids[g]
    ensures var w := WithChat(v, g0, n, g, prev);
            && (if g0 == g then MovedIn(v.kids[g], n, prev, w.At(g)) else PutIn(v.kids[g], n, prev, w.At(g)))
            && (g0 != null && g0 != g ==> TakenOut(v.kids[g0], n, w.At(g0)))
            && SameElsewhere(v.kids, w.kids, {g0, g})
  {
    var ks := if g0 == null then v.kids else v.kids[g0 := Minus(v.At(g0), n)];
    var put := Placed(ks[g], prev, n);
    assert WithChat(v, g0, n, g, prev).kids == ks[g := put];
    hide TakenOut, PutIn, MovedIn, SameElsewhere, WithChat;
    if g0 != null {
      MinusIsTakenOut(v.kids[g0], n);
      OneReplaced(v.kids, g0, Minus(v.kids[g0], n));
      ThenReplaced(v.kids, ks, {g0}, g, put);
      assert {g0} + {g} == {g0, g};
    } else {
      OneReplaced(v.kids, g, put);
      Wider(v.kids, ks[g := put], {g}, {g0, g});
    }
    if g0 == g {
      MinusInsertIsMovedIn(v.kids[g], n, prev);
    } else {
      InsertIsPutIn(v.kids[g], n, prev);
    }
    hide Minus, InsertAt, After;
  }

  lemma Wider(ks: Kids, ls: Kids, but: set<Node?>, more: set<Node?>)
    requires SameElsewhere(ks, ls, but) && but <= more
    ensures SameElsewhere(ks, ls, more)
  {
  }

  lemma GroupComes(v: View, g: Node, prev: Node?)
    requires null in v.kids && (g in v.kids <==> g in v.kids[null])
    requires prev == null || prev in Minus(v.kids[null], g)
    ensures var w := Regrouped(v, g, prev);
            && (g in v.kids ==> MovedIn(v.kids[null], g, prev, w.At(null)) && SameElsewhere(v.kids, w.kids, {null}))
            && (g !in v.kids ==>
                 && PutIn(v.kids[null], g, prev, w.At(null)) && g in w.kids && w.At(g) == []
                 && SameElsewhere(v.kids, w.kids, {null, g}))
  {
    if g in v.kids {
      MinusInsertIsMovedIn(v.kids[null], g, prev);
    } else {
      InsertIsPutIn(v.kids[null], g, prev);
    }
    hide Minus, InsertAt, After, TakenOut, PutIn, MovedIn;
  }

  /** `r` is `t` with all of `s` right behind `node`, or at the end if that is not in `t`. */
  ghost predicate PutInAll(t: seq<Node>, s: seq<Node>, node: Node, r: seq<Node>) {
    exists i :: 0 <= i <= |t| && r == t[..i] + s + t[i..] &&
      if node in t then 0 < i && t[i - 1] == node else i == |t|
  }

  lemma ArrivedIs(t: seq<Node>, s: seq<Node>, node: Node)
    ensures node in t ==> PutInAll(t, s, node, t[..IndexOf(t, node) + 1] + s + t[IndexOf(t, node) + 1..])
    ensures node !in t ==> PutInAll(t, s, node, t[..|t|] + s + t[|t|..])
  {
  }

  lemma ContactThenReplaced(ks: Kids, source: Node, g0: Node, s: seq<Node>, target: Node, t: seq<Node>)
    requires source != target && g0 != source && g0 != target
    ensures var ls := (ks - {source})[g0 := s][target := t];
            && source !in ls && ls[g0] == s && ls[target] == t && SameElsewhere(ks, ls, {source, target, g0})
  {
  }

  /** The buddies of a merged contact stand together, in order, right behind the buddy they
      were merged to, or behind all others, and the contact is gone from its group. */
  lemma ContactsMerge(v: View, source: Node, g0: Node, target: Node, g: Node, node: Node)
    requires source in v.kids && target in v.kids && g0 in v.kids && source in v.kids[g0]
    requires source != target && g0 != source && g0 != target
    requires node in v.kids[target] ==> node.kind == BuddyNode
    ensures var w := MergeOf(v, source, g0, target, g, node).Done(v);
            && PutInAll(v.kids[target], v.kids[source], node, w.At(target))
            && source !in w.kids && TakenOut(v.kids[g0], source, w.At(g0))
            && SameElsewhere(v.kids, w.kids, {source, target, g0})
  {
    var m := MergeOf(v, source, g0, target, g, node);
    MinusIsTakenOut(v.kids[g0], source);
    assert m.s[..|m.s|] == m.s;
    ContactThenReplaced(v.kids, source, g0, Minus(v.kids[g0], source), target, m.Arrived(|m.s|));
    ArrivedIs(m.t, m.s, node);
    hide Minus, TakenOut, SameElsewhere, PutInAll, OwnerMoved;
  }

  /** The children of a merged group follow those of the other one, in order; their contacts
      keep their buddies, in order, but for those that are refused. */
  lemma GroupsMerge(v: View, source: Node, dest: Node, lost: set<Node>)
    requires GroupMergeOf(v, source, dest, lost).Suits(v) && source in v.kids[null]
    ensures var w := Merged(v, GroupMergeOf(v, source, dest, lost));
            && source !in w.kids && TakenOut(v.kids[null], source, w.At(null))
            && w.At(dest) == v.kids[dest] + v.kids[source]
            && (forall c: Node :: c in v.kids && c in v.kids[source] ==>
                 c in w.kids && w.kids[c] == Filter(v.kids[c], (b: Node) => b !in lost))
            && (forall p: Node :: p in v.kids && p !in v.kids[source] && p != source && p != dest ==>
                 p in w.kids && w.kids[p] == v.kids[p])
            && w.kids.Keys == v.kids.Keys - {source}
  {
    var m := GroupMergeOf(v, source, dest, lost);
    var w := m.Stage(v, |m.s|);
    MergedIs(v, m);
    MinusIsTakenOut(v.kids[null], source);
    StageIs(v, m);
    forall c: Node | c in v.kids && c in v.kids[source]
      ensures w.kids[c] == Filter(v.kids[c], (b: Node) => b !in lost) && c != source
    {
      NoneKept(v.kids[c], lost);
    }
    hide Minus, TakenOut, GroupMerge.Suits, GroupMerge.Stage, Filter, Merged;
  }

  lemma StageIs(v: View, m: GroupMerge)
    requires m.Suits(v)
    ensures var w := m.Stage(v, |m.s|);
            && w.kids.Keys == v.kids.Keys && w.kids[m.dest] == m.t + m.s
            && (forall c: Node :: c in v.kids && c in m.s ==>
                 c != m.source && c != m.dest && w.kids[c] == Filter(v.kids[c], NotIn(m.lost)))
            && (forall p: Node :: p in v.kids && p !in m.s && p != m.source && p != m.dest ==>
                 w.kids[p] == v.kids[p])
  {
    assert m.s[..|m.s|] == m.s;
    forall c: Node | c in v.kids && c in m.s ensures c != m.source && c != m.dest {
      assert c.kind == ContactNode;
    }
    hide Filter, NoDup;
  }

  /** What stays when an account is deleted: chats of other accounts, and contacts that
      had no buddies or have one of another account. */
  ghost function StaysWithout(ks: Kids, a: Account): Node -> bool {
    (n: Node) => if n in ks then ks[n] == [] || exists b :: b in ks[n] && b.account != a else n.account != a
  }

  /** The buddies and chats of a listed contact or group, as the loops find them. */
  lemma FoundBelow(list: BuddyList, p: Node, n: Node)
    requires Sound(list) && p in list.kids && n in list.kids[p]
    ensures n !in list.kids ==> n in Everything(list.kids, list.kids[null])
    ensures n in list.kids ==> n !in Everything(list.kids, list.kids[null])
    ensures null in list.kids
  {
    hide *;
    SoundParts(list, null);
    IsStanding(list);
    IsPlain(list);
    if n in list.kids {
      if n in Everything(list.kids, list.kids[null]) {
        assert list.kids[null][..|list.kids[null]|] == list.kids[null];
        LeafOfAll(ViewOf(list), |list.kids[null]|, n);
      }
    } else {
      HasKind(list, p);
      if p.kind == ContactNode {
        OwnedBuddies(list, p);
        OnFileIsEverything(list, n);
      } else {
        GroupOnTop(list, p);
        InSpread(list.kids, p, n);
      }
    }
  }

  lemma HasKind(list: BuddyList, p: Node)
    requires Shaped(list.kids) && p in list.kids
    ensures p.kind == ContactNode || p.kind == GroupNode
  {
  }

  lemma InSpread(ks: Kids, g: Node, n: Node)
    requires null in ks && g in ks[null] && g in ks && n in ks[g] && n !in ks
    ensures n in Everything(ks, ks[null])
  {
    assert n in Leaves(ks, n);
    assert n in Spread(ks, ks[g]);
  }

  /** Which of the children of `p` stay. */
  ghost function Staying(ks: Kids, a: Account, p: Node): Node -> bool {
    if p.kind == GroupNode then StaysWithout(ks, a) else (b: Node) => b.account != a
  }

  /** `ls` is `ks` without what belongs to the account `a`: all groups are there, with
      those children that stay, and those contacts, with their buddies of other
      accounts, all in order. */
  ghost predicate WithoutAccount(ks: Kids, ls: Kids, a: Account) {
    && null in ks && null in ls && ls[null] == ks[null] && ls.Keys <= ks.Keys
    && (forall p: Node :: p in ks ==> (p in ls <==> p.kind == GroupNode || StaysWithout(ks, a)(p)))
    && (forall p: Node :: p in ls && p in ks ==> ls[p] == Filter(ks[p], Staying(ks, a, p)))
  }

  /** A contact is emptied if it has buddies and all of them belong to the account. */
  lemma EmptiedIs(list: BuddyList, a: Account, gone: set<Node>, c: Node)
    requires Sound(list) && c in list.kids && null in list.kids &&
      gone == Taken(Everything(list.kids, list.kids[null]), a)
    requires c.kind == ContactNode
    ensures Emptied(ViewOf(list), c, gone) <==> !StaysWithout(list.kids, a)(c)
  {
    forall b | b in list.kids[c] ensures b in gone <==> b.account == a {
      FoundBelow(list, c, b);
      BuddiesAreLeaves(list, c, b);
    }
    hide Everything, Sound;
  }

  lemma BuddiesAreLeaves(list: BuddyList, c: Node, b: Node)
    requires Sound(list) && c in list.kids && c.kind == ContactNode && b in list.kids[c]
    ensures b !in list.kids
  {
    SoundParts(list, null);
    hide Sound, Coherent;
    assert Fits(c, b);
  }

  lemma KeptIsStaying(list: BuddyList, a: Account, gone: set<Node>, p: Node, n: Node)
    requires Sound(list) && null in list.kids && gone == Taken(Everything(list.kids, list.kids[null]), a)
    requires p in list.kids && n in list.kids[p]
    ensures Kept(ViewOf(list), gone)(n) <==> StaysWithout(list.kids, a)(n)
  {
    FoundBelow(list, p, n);
    if n in list.kids {
      SoundParts(list, null);
      assert Fits(p, n) && HasChildren(n);
      EmptiedIs(list, a, gone, n);
    }
    hide Everything, Sound, Coherent;
  }

  lemma StayingIs(list: BuddyList, a: Account, gone: set<Node>, p: Node, n: Node)
    requires Sound(list) && null in list.kids && gone == Taken(Everything(list.kids, list.kids[null]), a)
    requires p in list.kids && n in list.kids[p]
    ensures Kept(ViewOf(list), gone)(n) <==> Staying(list.kids, a, p)(n)
  {
    KeptIsStaying(list, a, gone, p, n);
    hide Kept, Everything, Sound;
    if p.kind != GroupNode {
      ContactAbove(list, p);
      BuddiesAreLeaves(list, p, n);
    }
  }

  lemma ContactAbove(list: BuddyList, p: Node)
    requires Sound(list) && p in list.kids && p.kind != GroupNode
    ensures p.kind == ContactNode
  {
    hide *;
    SoundParts(list, null);
    HasKind(list, p);
  }

  lemma ChildrenStaying(list: BuddyList, a: Account, gone: set<Node>, p: Node)
    requires Sound(list) && null in list.kids && gone == Taken(Everything(list.kids, list.kids[null]), a)
    requires p in list.kids
    ensures var w := Without(ViewOf(list), gone);
            && (p in w.kids <==> p.kind == GroupNode || StaysWithout(list.kids, a)(p))
            && (p in w.kids ==> w.kids[p] == Filter(list.kids[p], Staying(list.kids, a, p)))
  {
    hide *;
    ViewIs(list, null);
    WithoutAt(ViewOf(list), gone, p);
    if p.kind == GroupNode {
      NotEmptied(ViewOf(list), p, gone);
    } else {
      ContactAbove(list, p);
      EmptiedIs(list, a, gone, p);
    }
    forall n | n in list.kids[p] ensures Kept(ViewOf(list), gone)(n) == Staying(list.kids, a, p)(n) {
      StayingIs(list, a, gone, p, n);
    }
    FilterSame(list.kids[p], Kept(ViewOf(list), gone), Staying(list.kids, a, p));
  }

  /** Deleting an account leaves the groups as they stand, and of everything else in them just
      what does not belong to it. */
  lemma AccountGoes(list: BuddyList, a: Account)
    requires Sound(list)
    ensures WithoutAccount(list.kids, Cleared(ViewOf(list), a).kids, a)
  {
    hide *;
    var v, ks := ViewOf(list), list.kids;
    IsPlain(list);
    ClearedIs(v, a);
    var gone := Taken(Everything(ks, ks[null]), a);
    assert ks[null][..|ks[null]|] == ks[null];
    GroupsKept(v, a, |ks[null]|);
    forall p: Node | p in ks
      ensures p in Without(v, gone).kids <==> p.kind == GroupNode || StaysWithout(ks, a)(p)
      ensures p in Without(v, gone).kids ==> Without(v, gone).kids[p] == Filter(ks[p], Staying(ks, a, p))
    {
      ChildrenStaying(list, a, gone, p);
    }
    NoMoreKeys(v, gone);
    IsWithoutAccount(ks, Cleared(v, a).kids, a);
  }

  lemma NoMoreKeys(v: View, gone: set<Node>)
    ensures Without(v, gone).kids.Keys <= v.kids.Keys
  {
  }

  lemma IsWithoutAccount(ks: Kids, ls: Kids, a: Account)
    requires null in ks && null in ls && ls[null] == ks[null] && ls.Keys <= ks.Keys
    requires forall p: Node :: p in ks ==> (p in ls <==> p.kind == GroupNode || StaysWithout(ks, a)(p))
    requires forall p: Node :: p in ks && p in ls ==> ls[p] == Filter(ks[p], Staying(ks, a, p))
    ensures WithoutAccount(ks, ls, a)
  {
    hide StaysWithout, Staying, Filter;
  }

  // ---- what the counters say ----

  ghost function Having(s: seq<Node>, p: Node -> bool): set<Node> {
    set n | n in s && p(n)
  }

  lemma HavingStep(s: seq<Node>, p: Node -> bool)
    requires s != [] && NoDup(s)
    ensures Having(s, p) == Having(s[1..], p) + (if p(s[0]) then {s[0]} else {}) && s[0] !in Having(s[1..], p)
    ensures NoDup(s[1..])
  {
    HeadApart(s);
    assert forall i :: 0 <= i < |s| - 1 ==> s[1..][i] == s[i + 1];
  }

  lemma {:induction false} CountIsSize(s: seq<Node>, p: Node -> bool)
    requires NoDup(s)
    ensures Count(s, p) == |Having(s, p)|
  {
    if s != [] {
      HavingStep(s, p);
      hide Having, NoDup;
      CountIsSize(s[1..], p);
    }
  }

  lemma HeadApart(s: seq<Node>)
    requires s != [] && NoDup(s)
    ensures s[0] !in s[1..] && forall x :: x in s <==> x == s[0] || x in s[1..]
  {
    assert forall i :: 0 <= i < |s| - 1 ==> s[1..][i] == s[i + 1];
  }

  /** Those of connected accounts */
  ghost function Connected(list: BuddyList, s: seq<Node>): set<Node>
    reads list`connected
  {
    set b | b in s && b.account in list.connected
  }

  /** Those that are online */
  ghost function Online(list: BuddyList, s: seq<Node>): set<Node>
    reads list`present
  {
    set b | b in s && b in list.present
  }

  /** With exact counters, those of a contact say how many buddies it has, how many of them
      have a connected account, and how many are online. */
  lemma ContactCounts(list: BuddyList, c: Node)
    requires Sound(list) && Exact(list.drift) && c in list.kids && c.kind == ContactNode
    ensures c.totalsize == |list.kids[c]|
    ensures c.currentsize == |Connected(list, list.kids[c])| && c.online == |Online(list, list.kids[c])|
  {
    var s := list.kids[c];
    hide *;
    CountersOfNode(list, c);
    CountersOfContact(list, c);
    CountIsSize(s, CurrentOf(list).test);
    CountIsSize(s, OnlineOf(list).test);
    forall b | b in s ensures b.kind == BuddyNode {
      BuddyKind(list, c, b);
    }
    ContactTests(list, s);
  }

  lemma CountersOfContact(list: BuddyList, c: Node)
    requires c in list.kids && c.kind == ContactNode && NodeCounts(c, list.kids, CurrentOf(list), OnlineOf(list))
    requires OffAt(list.drift, c) == 0
    ensures c.totalsize == |list.kids[c]|
    ensures c.currentsize == Count(list.kids[c], CurrentOf(list).test)
    ensures c.online == Count(list.kids[c], OnlineOf(list).test)
  {
    hide Count;
  }

  lemma ContactTests(list: BuddyList, s: seq<Node>)
    requires forall b :: b in s ==> b.kind == BuddyNode
    ensures Having(s, CurrentOf(list).test) == Connected(list, s) && Having(s, OnlineOf(list).test) == Online(list, s)
  {
  }

  lemma BuddyKind(list: BuddyList, c: Node, b: Node)
    requires Sound(list) && c in list.kids && c.kind == ContactNode && b in list.kids[c]
    ensures b.kind == BuddyNode
  {
    SoundParts(list, null);
    hide Sound, Coherent;
    assert Fits(c, b);
  }

  lemma CountersOfNode(list: BuddyList, x: Node)
    requires Sound(list) && Exact(list.drift) && x in list.kids
    ensures NodeCounts(x, list.kids, CurrentOf(list), OnlineOf(list)) && NoDup(list.kids[x])
    ensures OffAt(list.drift, x) == 0 && CurrentOf(list).drift == map[] && OnlineOf(list).drift == list.drift
  {
    SoundParts(list, null);
    TreeParts(list);
    hide Sound, Coherent;
    assert list.Chained(x, list.kids[x], list.gone);
  }

  /** A chat of a connected account, or a contact with a buddy that has one */
  ghost predicate SomeConnected(list: BuddyList, n: Node)
    reads list`kids, list`connected
  {
    if n in list.kids then exists b: Node :: b in list.kids[n] && b.account in list.connected
    else n.account in list.connected
  }

  /** A chat of a connected account, or a contact with a buddy that is online */
  ghost predicate SomeOnline(list: BuddyList, n: Node)
    reads list`kids, list`connected, list`present
  {
    if n in list.kids then exists b: Node :: b in list.kids[n] && b in list.present
    else n.account in list.connected
  }

  /** The counters of a group say how many of its children these are. */
  lemma GroupCounts(list: BuddyList, g: Node)
    requires Sound(list) && Exact(list.drift) && g in list.kids && g.kind == GroupNode
    ensures g.currentsize == |set n | n in list.kids[g] && SomeConnected(list, n)|
    ensures g.online == |set n | n in list.kids[g] && SomeOnline(list, n)|
  {
    var s, ks := list.kids[g], list.kids;
    hide *;
    CountersOfNode(list, g);
    CountersOfGroup(list, g);
    CountIsSize(s, CurrentOf(list).Lit(ks));
    CountIsSize(s, OnlineOf(list).Lit(ks));
    forall n | n in s
      ensures CurrentOf(list).Lit(ks)(n) <==> SomeConnected(list, n)
      ensures OnlineOf(list).Lit(ks)(n) <==> SomeOnline(list, n)
    {
      LitIs(list, g, n);
    }
    GroupTests(list, s);
  }

  lemma CountersOfGroup(list: BuddyList, g: Node)
    requires g in list.kids && g.kind == GroupNode && NodeCounts(g, list.kids, CurrentOf(list), OnlineOf(list))
    requires OffAt(list.drift, g) == 0
    ensures g.currentsize == Count(list.kids[g], CurrentOf(list).Lit(list.kids))
    ensures g.online == Count(list.kids[g], OnlineOf(list).Lit(list.kids))
  {
    hide Count, Reading.Lit;
  }

  lemma GroupTests(list: BuddyList, s: seq<Node>)
    requires forall n :: n in s ==> (CurrentOf(list).Lit(list.kids)(n) <==> SomeConnected(list, n))
    requires forall n :: n in s ==> (OnlineOf(list).Lit(list.kids)(n) <==> SomeOnline(list, n))
    ensures Having(s, CurrentOf(list).Lit(list.kids)) == set n | n in s && SomeConnected(list, n)
    ensures Having(s, OnlineOf(list).Lit(list.kids)) == set n | n in s && SomeOnline(list, n)
  {
    hide Reading.Lit, SomeConnected, SomeOnline;
  }

  lemma LitIs(list: BuddyList, g: Node, n: Node)
    requires Sound(list) && Exact(list.drift) && g in list.kids && g.kind == GroupNode && n in list.kids[g]
    ensures CurrentOf(list).Lit(list.kids)(n) <==> SomeConnected(list, n)
    ensures OnlineOf(list).Lit(list.kids)(n) <==> SomeOnline(list, n)
  {
    var ks := list.kids;
    SoundParts(list, null);
    hide Sound, Coherent, Count;
    assert Fits(g, n) && (n in ks <==> HasChildren(n));
    if n in ks {
      CountersOfNode(list, n);
      CountNone(ks[n], CurrentOf(list).test);
      CountNone(ks[n], OnlineOf(list).test);
      forall b: Node | b in ks[n] ensures b.kind == BuddyNode {
        BuddyKind(list, n, b);
      }
    }
  }
}
