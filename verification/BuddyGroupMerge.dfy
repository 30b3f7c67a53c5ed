/** The branch of `purple_blist_rename_group` that merges two groups. */
module BuddyGroupMerge {
  import opened Lists
  import opened BuddyTree
  import opened BuddyState
  import opened BuddyRemove
  import opened BuddyMove
  import opened BuddyContacts
  import opened BuddyEdit
  import opened BuddyApi

  /** The buddies of the contacts among `cs`. */
  ghost function Below(v: View, cs: seq<Node>): set<Node> {
    set c, b | c in cs && b in v.At(c) :: b
  }

  /** The children `s` of the group `source` are about to go behind the children `t`
      of the group `dest`, where the buddies in `lost` are not let in. */
  datatype GroupMerge = GroupMerge(source: Node, s: seq<Node>, dest: Node, t: seq<Node>, lost: set<Node>) {

    ghost function Moved(v: View, i: nat): set<Node>
      requires i <= |s|
    {
      Below(v, s[..i])
    }

    ghost function KidsAt(v: View, i: nat): Kids
      requires i <= |s|
    {
      map p | p in v.kids :: KidsOf(v, i, p)
    }

    ghost function KidsOf(v: View, i: nat, p: Node?): seq<Node>
      requires i <= |s| && p in v.kids
    {
      if p == source then s[i..]
      else if p == dest then t + s[..i]
      else if p in s[..i] then Filter(v.kids[p], NotIn(lost))
      else v.kids[p]
    }

    lemma KidsOfNext(v: View, i: nat, p: Node?)
      requires i < |s| && p in v.kids && s[i] != source && s[i] != dest && source != dest
      requires s[i] !in s[..i] && s[..i + 1] == s[..i] + [s[i]]
      ensures KidsOf(v, i + 1, p) ==
        if p == dest then t + s[..i] + [s[i]]
        else if p == source then s[i + 1..]
        else if p == s[i] then Filter(v.kids[p], NotIn(lost))
        else KidsOf(v, i, p)
    {
      assert t + s[..i + 1] == t + s[..i] + [s[i]];
    }

    ghost function OwnerAt(v: View, i: nat): map<Node, Node>
      requires i <= |s|
    {
      map b | b in v.owner && !(b in Moved(v, i) && b in lost) :: if b in Moved(v, i) then dest else v.owner[b]
    }

    /** The list after the first `i` children moved: they kept their order and
        their buddies, except those that exist already. */
    ghost function Stage(v: View, i: nat): View
      requires i <= |s|
    {
      View(KidsAt(v, i), OwnerAt(v, i), v.live - Moved(v, i) * lost, {})
    }

    ghost predicate Suits(v: View) {
      && source != dest && v.gone == {} && null in v.kids
      && source in v.kids && v.kids[source] == s && source.kind == GroupNode
      && dest in v.kids && v.kids[dest] == t && dest.kind == GroupNode
      && NoDup(s) && NoDup(t) && (forall n :: n in s ==> n !in t)
      && (forall n :: n in s ==> (n.kind == ContactNode && n in v.kids) || (n.kind == ChatNode && n !in v.kids))
      && (forall c, b :: c in v.kids && c in s && b in v.kids[c] ==> b in v.owner && v.owner[b] == source)
      && (forall p, q, b :: p in v.kids && q in v.kids && p in s && b in v.kids[p] && b in v.kids[q] ==> p == q)
    }

    /** The next child is no contact, or has no buddies, or has one that is no twin. */
    ghost predicate Survives(v: View, i: nat)
      requires i < |s|
    {
      s[i] in v.kids && v.kids[s[i]] != [] ==> exists b :: b in v.kids[s[i]] && b !in lost
    }

    ghost predicate AllSurvive(v: View) {
      forall i :: 0 <= i < |s| ==> Survives(v, i)
    }

    /** The same with more buddies known to be lost. */
    ghost function Losing(more: set<Node>): GroupMerge {
      GroupMerge(source, s, dest, t, lost + more)
    }

    /** What the next contact loses does not matter for the children that moved before. */
    lemma Extend(v: View, i: nat, more: set<Node>)
      requires Suits(v) && i < |s| && s[i] in v.kids && lost <= Moved(v, i) && more <= Elements(v.kids[s[i]])
      ensures var m := Losing(more);
              && m.Suits(v) && m.Stage(v, i) == Stage(v, i) && m.lost * Elements(v.kids[s[i]]) == more
              && m.lost <= m.Moved(v, i + 1) && m.Moved(v, i) == Moved(v, i)
              && forall k :: 0 <= k < i ==> (m.Survives(v, k) <==> Survives(v, k))
    {
      var m := Losing(more);
      forall b | b in v.kids[s[i]] ensures b !in Moved(v, i) {
        NotMoved(v, i, b);
      }
      NextChild(v, i);
      SameLost(v, i, m);
      assert m.Moved(v, i + 1) == Moved(v, i + 1);
    }

    /** Only what was lost among the buddies that moved matters. */
    lemma SameLost(v: View, i: nat, m: GroupMerge)
      requires Suits(v) && i <= |s| && m == GroupMerge(source, s, dest, t, m.lost)
      requires forall b :: b in Moved(v, i) ==> (b in lost <==> b in m.lost)
      ensures m.Stage(v, i) == Stage(v, i) && m.Moved(v, i) == Moved(v, i) && m.Suits(v)
      ensures forall k :: 0 <= k < i ==> (m.Survives(v, k) <==> Survives(v, k))
    {
      forall p: Node, b | p in s[..i] && p in v.kids && b in v.kids[p] ensures b in Moved(v, i) {
        assert b in v.At(p);
      }
      forall k | 0 <= k < i ensures m.Survives(v, k) <==> Survives(v, k) {
        assert s[k] in s[..i];
      }
      SameKids(v, i, m);
      hide Below, Filter, KidsOf, KidsAt, Suits, Survives;
      assert m.OwnerAt(v, i) == OwnerAt(v, i);
      assert v.live - Moved(v, i) * m.lost == v.live - Moved(v, i) * lost;
    }

    lemma MovedNone(v: View)
      ensures Moved(v, 0) == {}
    {
    }

    lemma MovedWithin(v: View, i: nat)
      requires i <= |s|
      ensures Moved(v, i) <= Below(v, s)
    {
    }

    lemma MovedIsBelow(v: View)
      ensures Moved(v, |s|) == Below(v, s)
    {
      assert s[..|s|] == s;
    }

    lemma SameKids(v: View, i: nat, m: GroupMerge)
      requires i <= |s| && m == GroupMerge(source, s, dest, t, m.lost)
      requires forall p: Node, b :: p in s[..i] && p in v.kids && b in v.kids[p] ==> (b in lost <==> b in m.lost)
      ensures m.KidsAt(v, i) == KidsAt(v, i)
    {
      forall p | p in v.kids ensures m.KidsOf(v, i, p) == KidsOf(v, i, p) {
        if p in s[..i] {
          FilterSame(v.kids[p], NotIn(m.lost), NotIn(lost));
        }
      }
      hide KidsOf, Filter;
    }

    lemma AllSurviveIs(v: View)
      ensures AllSurvive(v) <==> forall i :: 0 <= i < |s| ==> Survives(v, i)
    {
    }

    lemma ChatSurvives(v: View, i: nat)
      requires Suits(v) && i < |s| && s[i].kind == ChatNode
      ensures Survives(v, i)
    {
      assert s[i] in s;
    }

    lemma Start(v: View)
      requires Suits(v)
      ensures Stage(v, 0) == v
    {
      assert s[..0] == [] && s[0..] == s && t + [] == t;
      assert KidsAt(v, 0) == v.kids;
      assert OwnerAt(v, 0) == v.owner;
    }

    lemma SuffixHead(i: nat)
      requires i < |s|
      ensures s[i..] != [] && s[i..][0] == s[i] && Minus(s[i..], s[i]) == s[i + 1..]
      ensures s[i] in s && s[..i + 1] == s[..i] + [s[i]]
    {
      MinusHead(s[i..]);
    }

    lemma Fresh(i: nat)
      requires i < |s| && NoDup(s)
      ensures s[i] !in s[..i] && (forall p: Node :: p in s[..i + 1] <==> p in s[..i] || p == s[i])
    {
      assert s[..i + 1] == s[..i] + [s[i]];
    }

    /** What is known of the next child. */
    lemma NextChild(v: View, i: nat)
      requires Suits(v) && i < |s|
      ensures s[i] != source && s[i] != dest && source != dest && s[i] in s
      ensures (s[i].kind == ContactNode && s[i] in v.kids) || (s[i].kind == ChatNode && s[i] !in v.kids)
      ensures var w := Stage(v, i);
              && w.At(source) == s[i..] && w.At(dest) == t + s[..i] && source in w.kids && dest in w.kids
      ensures s[i] in v.kids ==>
        Stage(v, i).At(s[i]) == v.kids[s[i]] && s[i] in Stage(v, i).kids && v.At(s[i]) == v.kids[s[i]]
      ensures Moved(v, i + 1) == Moved(v, i) + if s[i] in v.kids then Elements(v.kids[s[i]]) else {}
    {
      Fresh(i);
      assert s[i] in s;
      BelowNext(v, i);
    }

    lemma BelowNext(v: View, i: nat)
      requires i < |s|
      ensures Moved(v, i + 1) == Moved(v, i) + if s[i] in v.kids then Elements(v.kids[s[i]]) else {}
    {
      assert s[..i + 1] == s[..i] + [s[i]];
      BelowConcat(v, s[..i], s[i]);
    }

    /** The buddies of the next contact have not been looked at yet. */
    lemma NotMoved(v: View, i: nat, b: Node)
      requires Suits(v) && i < |s| && s[i] in v.kids && b in v.kids[s[i]]
      ensures b !in Moved(v, i) && b in v.owner && v.owner[b] == source
    {
      NextChild(v, i);
      Fresh(i);
    }

    /** What happens to one contact on its way. */
    ghost function Received(v: View, i: nat): View
      requires i < |s|
    {
      Transferred(Stage(v, i), source, s[i], dest, Last(t + s[..i]), lost * Elements(v.At(s[i])))
    }

    lemma KeepsSome(v: View, i: nat)
      requires Suits(v) && i < |s| && s[i] in v.kids
      ensures var b := v.kids[s[i]]; Filter(b, NotIn(lost * Elements(b))) == Filter(b, NotIn(lost))
      ensures Survives(v, i) <==> v.kids[s[i]] == [] || Filter(v.kids[s[i]], NotIn(lost)) != []
    {
      var bs := v.kids[s[i]];
      FilterSame(bs, NotIn(lost * Elements(bs)), NotIn(lost));
      if Filter(bs, NotIn(lost)) != [] {
        var b := Filter(bs, NotIn(lost))[0];
        KeptIs(bs, lost, b);
      } else {
        forall b | b in bs ensures b in lost {
          KeptIs(bs, lost, b);
        }
      }
    }

    /** A contact vanishes on its way exactly if it does not survive. */
    lemma VanishesNext(v: View, i: nat)
      requires Suits(v) && i < |s| && s[i] in v.kids
      ensures Vanishes(Stage(v, i), source, s[i], dest, lost * Elements(v.kids[s[i]])) <==> !Survives(v, i)
    {
      NextChild(v, i);
      KeepsSome(v, i);
      hide Filter, Survives, Suits, Stage;
    }

    lemma TransferredIsView(w: View, c: Node, bs: seq<Node>, prev: Node?, some: set<Node>)
      requires w.At(c) == bs && source != dest && (bs == [] || Filter(bs, NotIn(some)) != [])
      ensures Transferred(w, source, c, dest, prev, some) ==
        View(w.kids[c := Filter(bs, NotIn(some))][source := Minus(w.At(source), c)][dest :=
            Placed(w.At(dest), prev, c)],
             RefiledOwner(w.owner, bs, some, dest), w.live - Elements(bs) * some, {})
    {
    }

    lemma KidsStep(v: View, i: nat)
      requires Suits(v) && i < |s| && s[i] in v.kids
      ensures KidsAt(v, i + 1) == KidsAt(v, i)[s[i] := Filter(v.kids[s[i]], NotIn(lost))][source := s[i + 1..]][dest :=
        t + s[..i] + [s[i]]]
    {
      NextChild(v, i);
      Fresh(i);
      SuffixHead(i);
      hide Filter, NoDup, Minus, Suits, KidsOf, Moved;
      forall p | p in v.kids
        ensures KidsOf(v, i + 1, p) == if p == dest then t + s[..i] + [s[i]] else if p == source then s[i + 1..]
          else if p == s[i] then Filter(v.kids[p], NotIn(lost)) else KidsOf(v, i, p)
      {
        KidsOfNext(v, i, p);
      }
      ThreeChanges(KidsAt(v, i), KidsAt(v, i + 1), s[i], Filter(v.kids[s[i]], NotIn(lost)), source, s[i + 1..], dest,
          t + s[..i] + [s[i]]);
    }

    lemma OwnerStep(v: View, i: nat)
      requires Suits(v) && i < |s| && s[i] in v.kids
      ensures var bs := v.kids[s[i]];
              OwnerAt(v, i + 1) == RefiledOwner(OwnerAt(v, i), bs, lost * Elements(bs), dest)
    {
      var bs := v.kids[s[i]];
      NextChild(v, i);
      forall b | b in bs ensures b !in Moved(v, i) {
        NotMoved(v, i, b);
      }
      hide Moved, Suits;
    }

    lemma LiveStep(v: View, i: nat)
      requires Suits(v) && i < |s| && s[i] in v.kids
      ensures var bs := v.kids[s[i]];
              v.live - Moved(v, i + 1) * lost == (v.live - Moved(v, i) * lost) - Elements(bs) * (lost * Elements(bs))
    {
      NextChild(v, i);
      hide Moved, Suits;
    }

    lemma StepContact(v: View, i: nat)
      requires Suits(v) && i < |s| && s[i].kind == ContactNode && NoDup(t + s[..i]) && Survives(v, i)
      ensures Received(v, i) == Stage(v, i + 1)
    {
      var bs := v.At(s[i]);
      NextChild(v, i);
      SuffixHead(i);
      KeepsSome(v, i);
      KidsStep(v, i);
      OwnerStep(v, i);
      LiveStep(v, i);
      PlacedLast(t + s[..i], s[i]);
      TransferredIsView(Stage(v, i), s[i], bs, Last(t + s[..i]), lost * Elements(bs));
      hide Transferred, Suits, Filter, Minus, KidsAt, OwnerAt, RefiledOwner, Placed, Moved, NoDup, Last;
    }

    lemma StepChat(v: View, i: nat)
      requires Suits(v) && i < |s| && s[i].kind == ChatNode && NoDup(t + s[..i])
      ensures WithChat(Stage(v, i), source, s[i], dest, Last(t + s[..i])) == Stage(v, i + 1)
    {
      NextChild(v, i);
      SuffixHead(i);
      Fresh(i);
      PlacedLast(t + s[..i], s[i]);
      assert Moved(v, i + 1) == Moved(v, i);
      ChatKids(v, i);
      assert OwnerAt(v, i + 1) == OwnerAt(v, i);
      WithChatIs(Stage(v, i), source, s[i], dest, Last(t + s[..i]));
      hide WithChat, Suits, Filter, Minus, KidsAt, Placed, Moved, NoDup, Last;
    }

    lemma ChatKids(v: View, i: nat)
      requires Suits(v) && i < |s| && s[i] !in v.kids
      ensures KidsAt(v, i + 1) == KidsAt(v, i)[source := s[i + 1..]][dest := t + s[..i] + [s[i]]]
    {
      NextChild(v, i);
      Fresh(i);
      SuffixHead(i);
      hide Filter, NoDup, Minus, Suits, KidsOf, Moved;
      forall p | p in v.kids
        ensures KidsOf(v, i + 1, p) ==
          if p == dest then t + s[..i] + [s[i]] else if p == source then s[i + 1..] else KidsOf(v, i, p)
      {
        KidsOfNext(v, i, p);
      }
    }
  }

  lemma ThreeChanges(ks: Kids, ls: Kids, a: Node, x: seq<Node>, b: Node, y: seq<Node>, c: Node, z: seq<Node>)
    requires ks.Keys == ls.Keys && a in ks && b in ks && c in ks && a != b && a != c && b != c
    requires ls[a] == x && ls[b] == y && ls[c] == z
    requires forall p :: p in ks && p != a && p != b && p != c ==> ls[p] == ks[p]
    ensures ls == ks[a := x][b := y][c := z]
  {
  }

  lemma BelowConcat(v: View, cs: seq<Node>, c: Node)
    ensures Below(v, cs + [c]) == Below(v, cs) + Elements(v.At(c))
  {
    assert forall d :: d in cs + [c] <==> d in cs || d == c;
  }
}
