/** The part of `purple_accounts_delete` that clears the buddy list of an account.
    Most bodies below hide every definition; the short lemmas called `...Is` and
    `...Parts` give back the single definition that a step needs. */
module BuddyPurge {
  import opened Lists
  import opened BuddyTree
  import opened BuddyCounts
  import opened BuddyIndex
  import opened BuddyState
  import opened BuddyRemove
  import opened BuddyValid
  import opened BuddyContacts
  import opened BuddyGroups
  import opened BuddyEdit
  import opened BuddyConnect
  import opened BuddyMerge
  import opened BuddyRename

  lemma FilterAround(a: seq<Node>, x: Node, b: seq<Node>, p: Node -> bool)
    ensures Filter(a + [x] + b, p) == Filter(a, p) + (if p(x) then [x] else []) + Filter(b, p)
  {
    assert Filter([x], p) == if p(x) then [x] else [];
    hide *;
    FilterConcat(a + [x], b, p);
    FilterConcat(a, [x], p);
  }

  /** Removing one element from what a filter keeps. */
  lemma FilterMinus(s: seq<Node>, x: Node, p: Node -> bool, q: Node -> bool)
    requires NoDup(s) && x in s && p(x) && !q(x) && forall y :: y in s && y != x ==> p(y) == q(y)
    ensures Filter(s, q) == Minus(Filter(s, p), x)
  {
    hide *;
    var i := IndexOf(s, x);
    var a, b := s[..i], s[i + 1..];
    SplitAround(s, i);
    FilterAround(a, x, b, p);
    FilterAround(a, x, b, q);
    FilterSame(a, p, q);
    FilterSame(b, p, q);
    InFilter(a, p, x);
    MinusMiddle(Filter(a, p), x, Filter(b, p));
    assert Filter(s, q) == Filter(a, p) + Filter(b, p);
  }

  lemma SplitAround(s: seq<Node>, i: nat)
    requires NoDup(s) && i < |s|
    ensures s == s[..i] + [s[i]] + s[i + 1..]
    ensures forall y :: y in s[..i] || y in s[i + 1..] ==> y in s && y != s[i]
  {
  }

  lemma InFilter(s: seq<Node>, p: Node -> bool, x: Node)
    ensures x in Filter(s, p) <==> x in s && p(x)
  {
    FilterMembers(s, p);
  }

  /** The contact `n` has lost all its buddies. */
  ghost predicate Emptied(v: View, n: Node, gone: set<Node>) {
    n.kind == ContactNode && n in v.kids && v.kids[n] != [] && forall b :: b in v.kids[n] ==> b in gone
  }

  ghost function Kept(v: View, gone: set<Node>): Node -> bool {
    (n: Node) => n !in gone && !Emptied(v, n, gone)
  }

  /** The list without the buddies and chats in `gone`, and without the contacts that lose all their buddies. */
  ghost function Without(v: View, gone: set<Node>): View {
    View(map p | p in v.kids && (p == null || !Emptied(v, p, gone)) :: Filter(v.kids[p], Kept(v, gone)),
         v.owner - gone, v.live - gone - (set c: Node | c in v.kids && Emptied(v, c, gone)), {})
  }

  /** What never changes while buddies and chats are removed. */
  ghost predicate Plain(v: View) {
    && Tidy(v.kids) && Shaped(v.kids) && v.gone == {}
    && (forall b :: b in v.owner ==> b.kind == BuddyNode)
  }

  lemma WithoutNone(v: View)
    requires Plain(v)
    ensures Without(v, {}) == v
  {
    forall c: Node | c in v.kids ensures !Emptied(v, c, {}) {
      if v.kids[c] != [] {
        assert v.kids[c][0] in v.kids[c];
      }
    }
    forall p | p in v.kids ensures Filter(v.kids[p], Kept(v, {})) == v.kids[p] {
      FilterAll(v.kids[p], Kept(v, {}));
    }
    assert Without(v, {}).kids == v.kids;
  }

  /** `b` is a buddy of the contact `c`, still there. */
  ghost predicate Leaf(v: View, c: Node?, b: Node, gone: set<Node>) {
    Plain(v) && c in v.kids && b in v.kids[c] && b !in v.kids && b !in gone
  }

  lemma EmptiedElsewhere(v: View, c: Node?, b: Node, gone: set<Node>, d: Node)
    requires Leaf(v, c, b, gone) && d != c
    ensures Emptied(v, d, gone + {b}) <==> Emptied(v, d, gone)
  {
    if d in v.kids {
      assert b !in v.kids[d];
    }
  }

  lemma KeptElsewhere(v: View, c: Node?, b: Node, gone: set<Node>, p: Node?)
    requires Leaf(v, c, b, gone) && p in v.kids && p != c &&
      (c == null || !Emptied(v, c, gone + {b}) || c !in v.kids[p])
    ensures Filter(v.kids[p], Kept(v, gone + {b})) == Filter(v.kids[p], Kept(v, gone))
  {
    forall n | n in v.kids[p] ensures Kept(v, gone + {b})(n) == Kept(v, gone)(n) {
      assert n != b;
      if n != c {
        EmptiedElsewhere(v, c, b, gone, n);
      } else {
        assert b in v.kids[n];
      }
    }
    FilterSame(v.kids[p], Kept(v, gone + {b}), Kept(v, gone));
  }

  /** What is left of the buddies of `c`. */
  lemma KeptHere(v: View, c: Node, b: Node, gone: set<Node>)
    requires Leaf(v, c, b, gone) && c.kind == ContactNode
    ensures var f := Filter(v.kids[c], Kept(v, gone));
            && Filter(v.kids[c], Kept(v, gone + {b})) == Minus(f, b) && b in f && NoDup(f)
            && (Emptied(v, c, gone + {b}) <==> f == [b]) && !Emptied(v, c, gone)
  {
    var s, f := v.kids[c], Filter(v.kids[c], Kept(v, gone));
    forall x | x in s ensures x.kind == BuddyNode && Kept(v, gone)(x) == (x !in gone) &&
        Kept(v, gone + {b})(x) == (x !in gone + {b}) {
      assert Fits(c, x);
    }
    FilterMinus(s, b, Kept(v, gone), Kept(v, gone + {b}));
    FilterMembers(s, Kept(v, gone));
    FilterIsDistinct(s, Kept(v, gone));
    if Emptied(v, c, gone + {b}) {
      forall x | x in f ensures x == b {
        InFilter(s, Kept(v, gone), x);
      }
      OnlyElement(f, b);
    } else {
      var x :| x in s && x !in gone + {b};
      InFilter(s, Kept(v, gone), x);
      assert x in f && x != b;
    }
  }

  lemma OnlyElement(f: seq<Node>, b: Node)
    requires NoDup(f) && b in f && forall x :: x in f ==> x == b
    ensures f == [b]
  {
    hide NoDup;
    if 1 < |f| {
      DistinctAt(f, 0, 1);
    }
  }

  lemma KeptGroup(v: View, g: Node, c: Node, b: Node, gone: set<Node>)
    requires Leaf(v, c, b, gone) && c.kind == ContactNode && g in v.kids && c in v.kids[g] && Emptied(v, c, gone + {b})
    requires c !in gone
    ensures Filter(v.kids[g], Kept(v, gone + {b})) == Minus(Filter(v.kids[g], Kept(v, gone)), c)
  {
    KeptHere(v, c, b, gone);
    forall n | n in v.kids[g] && n != c ensures Kept(v, gone + {b})(n) == Kept(v, gone)(n) {
      assert g != c && n != b;
      EmptiedElsewhere(v, c, b, gone, n);
    }
    FilterMinus(v.kids[g], c, Kept(v, gone), Kept(v, gone + {b}));
  }

  lemma OwnerLess(v: View, gone: set<Node>, b: Node)
    ensures (v.owner - gone) - {b} == v.owner - (gone + {b})
  {
  }

  ghost function EmptiedOf(v: View, gone: set<Node>): set<Node> {
    set c: Node | c in v.kids && Emptied(v, c, gone)
  }

  lemma EmptiedNext(v: View, c: Node, b: Node, gone: set<Node>)
    requires Leaf(v, c, b, gone) && c.kind == ContactNode
    ensures EmptiedOf(v, gone + {b}) == EmptiedOf(v, gone) + if Emptied(v, c, gone + {b}) then {c} else {}
  {
    hide Emptied, Leaf, Kept, Filter, Minus, NoDup;
    KeptHere(v, c, b, gone);
    forall d: Node | d in v.kids && d != c ensures Emptied(v, d, gone + {b}) <==> Emptied(v, d, gone) {
      EmptiedElsewhere(v, c, b, gone, d);
    }
    if Emptied(v, c, gone + {b}) {
      EmptiedIsKnown(v, c, gone + {b});
    }
  }

  lemma EmptiedIsKnown(v: View, d: Node, gone: set<Node>)
    requires Emptied(v, d, gone)
    ensures d in v.kids
  {
  }

  lemma LiveIs(v: View, gone: set<Node>)
    ensures Without(v, gone).live == v.live - gone - EmptiedOf(v, gone)
  {
    hide Emptied;
  }

  /** The nodes that are left when `b` goes as well. */
  lemma LiveLess(v: View, c: Node, b: Node, gone: set<Node>)
    requires Leaf(v, c, b, gone) && c.kind == ContactNode
    ensures Without(v, gone + {b}).live ==
      if Emptied(v, c, gone + {b}) then Without(v, gone).live - {b} - {c} else Without(v, gone).live - {b}
  {
    hide *;
    LiveIs(v, gone);
    LiveIs(v, gone + {b});
    EmptiedNext(v, c, b, gone);
  }

  lemma WithoutAt(v: View, gone: set<Node>, p: Node?)
    ensures p in Without(v, gone).kids <==> p in v.kids && (p == null || !Emptied(v, p, gone))
    ensures p in Without(v, gone).kids ==> Without(v, gone).kids[p] == Filter(v.kids[p], Kept(v, gone))
  {
  }

  lemma GroupsStay(v: View, gone: set<Node>, p: Node?)
    requires p == null || p.kind != ContactNode
    ensures p in v.kids ==> p in Without(v, gone).kids && Without(v, gone).kids[p] == Filter(v.kids[p], Kept(v, gone))
  {
  }

  lemma SameKids(ks: Kids, ls: Kids)
    requires forall p :: p in ks <==> p in ls
    requires forall p :: p in ks ==> ks[p] == ls[p]
    ensures ks == ls
  {
  }

  /** The children of `p` after `b` left `c`, and `c`, if it is empty now, its group. */
  ghost function KidsThen(ks: Kids, g: Node, c: Node, b: Node, empty: bool, p: Node?): seq<Node>
    requires p in ks && g in ks && c in ks
  {
    if p == g && empty then Minus(ks[g], c) else if p == c then Minus(ks[c], b) else ks[p]
  }

  /** What one node keeps when `b` goes as well. */
  lemma KidLess(v: View, g: Node, c: Node, b: Node, gone: set<Node>, p: Node?)
    requires Leaf(v, c, b, gone) && c.kind == ContactNode && g in v.kids && g.kind == GroupNode && c in v.kids[g] &&
      c !in gone
    ensures var ks, ls := Without(v, gone).kids, Without(v, gone + {b}).kids;
            && c in ks && g in ks
            && (p in ls <==> p in ks && !(p == c && Emptied(v, c, gone + {b})))
            && (p in ls ==> ls[p] == KidsThen(ks, g, c, b, Emptied(v, c, gone + {b}), p))
  {
    KeptHere(v, c, b, gone);
    WithoutAt(v, gone, p);
    WithoutAt(v, gone, c);
    GroupsStay(v, gone, g);
    WithoutAt(v, gone + {b}, p);
    hide Filter, Kept, Without, Minus, Tidy, Shaped;
    if p != null && p != c {
      EmptiedElsewhere(v, c, b, gone, p);
    }
    if p in v.kids && p != c {
      if p == g && Emptied(v, c, gone + {b}) {
        KeptGroup(v, g, c, b, gone);
      } else {
        if p != g {
          OnlyIn(v, g, c, p);
        }
        KeptElsewhere(v, c, b, gone, p);
      }
    }
  }

  lemma OnlyIn(v: View, g: Node, c: Node, p: Node?)
    requires Plain(v) && g in v.kids && c in v.kids[g] && p in v.kids && p != g
    ensures c !in v.kids[p]
  {
  }

  /** The tree when `b` goes as well. */
  lemma KidsLess(v: View, g: Node, c: Node, b: Node, gone: set<Node>)
    requires Leaf(v, c, b, gone) && c.kind == ContactNode && g in v.kids && g.kind == GroupNode && c in v.kids[g] &&
      c !in gone
    ensures var ks := Without(v, gone).kids;
            && c in ks && g in ks && g != c
            && Without(v, gone + {b}).kids ==
                 if Emptied(v, c, gone + {b}) then (ks - {c})[g := Minus(ks[g], c)] else ks[c := Minus(ks[c], b)]
  {
    var ks, ls := Without(v, gone).kids, Without(v, gone + {b}).kids;
    forall p ensures c in ks && g in ks && (p in ls <==> p in ks && !(p == c && Emptied(v, c, gone + {b})))
        && (p in ls ==> ls[p] == KidsThen(ks, g, c, b, Emptied(v, c, gone + {b}), p))
    {
      KidLess(v, g, c, b, gone, p);
    }
    hide Emptied, Without, Leaf, Minus;
    if Emptied(v, c, gone + {b}) {
      SameKids(ls, (ks - {c})[g := Minus(ks[g], c)]);
    } else {
      SameKids(ls, ks[c := Minus(ks[c], b)]);
    }
  }

  /** Removing a buddy is the next step on the way. */
  lemma NextBuddy(v: View, g: Node, c: Node, b: Node, gone: set<Node>)
    requires Leaf(v, c, b, gone) && c.kind == ContactNode && g in v.kids && g.kind == GroupNode && c in v.kids[g] &&
      c !in gone
    ensures Without(v, gone).MinusBuddy(g, c, b) == Without(v, gone + {b})
  {
    hide *;
    var w := Without(v, gone);
    KeptHere(v, c, b, gone);
    WithoutAt(v, gone, c);
    KidsLess(v, g, c, b, gone);
    LiveLess(v, c, b, gone);
    OwnerLess(v, gone, b);
    WithoutIs(v, gone);
    WithoutIs(v, gone + {b});
    OneBuddyLess(w, g, c, b);
  }

  lemma WithoutIs(v: View, gone: set<Node>)
    ensures Without(v, gone).owner == v.owner - gone && Without(v, gone).gone == {}
  {
  }

  lemma OneBuddyLess(w: View, g: Node, c: Node, b: Node)
    requires g in w.kids && c in w.kids && g != c
    ensures w.MinusBuddy(g, c, b) ==
      if w.kids[c] == [b] then View((w.kids - {c})[g := Minus(w.kids[g], c)], w.owner - {b}, w.live - {b} - {c}, {})
      else View(w.kids[c := Minus(w.kids[c], b)], w.owner - {b}, w.live - {b}, w.gone)
  {
    assert w.kids[c] == [b] ==> Elements(w.kids[c]) == {b};
  }

  /** What one node keeps when the chat `n` goes as well. */
  lemma KidLessChat(v: View, g: Node, n: Node, gone: set<Node>, p: Node?)
    requires Leaf(v, g, n, gone) && g.kind == GroupNode && n.kind == ChatNode
    ensures var ks, ls := Without(v, gone).kids, Without(v, gone + {n}).kids;
            g in ks && (p in ls <==> p in ks) && (p in ls ==> ls[p] == if p == g then Minus(ks[g], n) else ks[p])
  {
    WithoutAt(v, gone, p);
    GroupsStay(v, gone, g);
    WithoutAt(v, gone + {n}, p);
    if p != null && p != g {
      EmptiedElsewhere(v, g, n, gone, p);
    }
    if p in v.kids {
      if p == g {
        forall y | y in v.kids[g] && y != n ensures Kept(v, gone)(y) == Kept(v, gone + {n})(y) {
          if y != g {
            EmptiedElsewhere(v, g, n, gone, y);
          }
        }
        hide Filter, Without, Minus, Tidy, Shaped;
        NoDupIn(v, g);
        FilterMinus(v.kids[g], n, Kept(v, gone), Kept(v, gone + {n}));
      } else {
        hide Filter, Without, Minus, Tidy, Shaped;
        NotEmptied(v, g, gone + {n});
        KeptElsewhere(v, g, n, gone, p);
      }
    }
  }

  lemma NotEmptied(v: View, g: Node, gone: set<Node>)
    requires g.kind == GroupNode
    ensures !Emptied(v, g, gone)
  {
  }

  lemma NoDupIn(v: View, p: Node)
    requires Plain(v) && p in v.kids
    ensures NoDup(v.kids[p])
  {
  }

  lemma LiveLessChat(v: View, g: Node, n: Node, gone: set<Node>)
    requires Leaf(v, g, n, gone) && g.kind == GroupNode && n.kind == ChatNode
    ensures Without(v, gone + {n}).live == Without(v, gone).live - {n}
    ensures Without(v, gone + {n}).owner == Without(v, gone).owner
  {
    forall d: Node | d in v.kids ensures Emptied(v, d, gone + {n}) <==> Emptied(v, d, gone) {
      if d != g {
        EmptiedElsewhere(v, g, n, gone, d);
      }
    }
    assert n !in v.owner;
    LiveIs(v, gone);
    LiveIs(v, gone + {n});
    WithoutIs(v, gone);
    WithoutIs(v, gone + {n});
    hide Emptied, Without, Leaf;
    assert EmptiedOf(v, gone + {n}) == EmptiedOf(v, gone);
  }

  /** Removing a chat is, too. */
  lemma NextChat(v: View, g: Node, n: Node, gone: set<Node>)
    requires Leaf(v, g, n, gone) && g.kind == GroupNode && n.kind == ChatNode
    ensures var w := Without(v, gone);
            View(w.kids[g := Minus(w.At(g), n)], w.owner, w.live - {n}, {}) == Without(v, gone + {n})
  {
    var ks, ls := Without(v, gone).kids, Without(v, gone + {n}).kids;
    forall p ensures g in ks && (p in ls <==> p in ks) &&
        (p in ls ==> ls[p] == if p == g then Minus(ks[g], n) else ks[p]) {
      KidLessChat(v, g, n, gone, p);
    }
    LiveLessChat(v, g, n, gone);
    WithoutIs(v, gone + {n});
    hide Without, Minus, Leaf;
    SameKids(ls, ks[g := Minus(ks[g], n)]);
  }

  /** The buddies and chats of the account `a` in `s`. */
  ghost function Taken(s: set<Node>, a: Account): set<Node> {
    set n | n in s && n.account == a
  }

  /** The contact `n` has buddies, and all of them belong to the account `a`. */
  ghost predicate AllOf(v: View, n: Node, a: Account) {
    n.kind == ContactNode && n in v.kids && v.kids[n] != [] && forall b :: b in v.kids[n] ==> b.account == a
  }

  /** How many of `s` are contacts that have buddies of the account `a` only. */
  ghost function Losses(v: View, s: seq<Node>, a: Account): nat {
    Count(s, (n: Node) => AllOf(v, n, a))
  }

  lemma LossesNext(v: View, s: seq<Node>, i: nat, a: Account)
    requires i < |s|
    ensures Losses(v, s[..i + 1], a) == Losses(v, s[..i], a) + if AllOf(v, s[i], a) then 1 else 0
  {
    var p := (n: Node) => AllOf(v, n, a);
    assert s[..i + 1] == s[..i] + [s[i]];
    CountConcat(s[..i], [s[i]], p);
    assert Count([s[i]], p) == if p(s[i]) then 1 else 0;
  }

  /** None exactly if every contact with buddies has one of another account. */
  lemma NoLosses(v: View, s: seq<Node>, a: Account)
    ensures Losses(v, s, a) == 0 <==> forall n :: n in s ==> !AllOf(v, n, a)
  {
    CountNone(s, (n: Node) => AllOf(v, n, a));
  }

  lemma LossesEnds(v: View, s: seq<Node>, a: Account)
    ensures Losses(v, s[..0], a) == 0 && Losses(v, s[..|s|], a) == Losses(v, s, a)
  {
    assert s[..|s|] == s;
  }

  /** These are the contacts that are emptied when the buddies of `a` go. */
  lemma AllOfIsEmptied(v: View, c: Node, gone: set<Node>, a: Account)
    requires c in v.kids && Elements(v.kids[c]) !! gone
    ensures AllOf(v, c, a) <==> Emptied(v, c, gone + Taken(Elements(v.kids[c]), a))
    ensures !Emptied(v, c, gone)
  {
    forall b | b in v.kids[c] ensures b !in gone && (b in Taken(Elements(v.kids[c]), a) <==> b.account == a) {
      assert b in Elements(v.kids[c]);
    }
    if v.kids[c] != [] {
      assert v.kids[c][0] in v.kids[c];
    }
  }

  lemma TakenPlus(s: set<Node>, t: set<Node>, a: Account)
    ensures Taken(s + t, a) == Taken(s, a) + Taken(t, a) && Taken({}, a) == {}
  {
  }

  lemma TakenOne(n: Node, a: Account)
    ensures Taken({n}, a) == if n.account == a then {n} else {}
  {
  }

  /** No buddy among `s` is online while its account is not connected. */
  ghost predicate NoneIsEarly(list: BuddyList, s: set<Node>)
    reads list`connected, list`present
  {
    forall b :: b in s && b.kind == BuddyNode ==> !Early(list, b)
  }

  lemma NoneIsEarlyPlus(list: BuddyList, s: set<Node>, t: set<Node>)
    ensures NoneIsEarly(list, s + t) <==> NoneIsEarly(list, s) && NoneIsEarly(list, t)
    ensures NoneIsEarly(list, {})
  {
  }

  lemma NoneIsEarlyOne(list: BuddyList, b: Node)
    ensures NoneIsEarly(list, {b}) <==> (b.kind == BuddyNode ==> !Early(list, b))
  {
  }

  /** Where the loop over the children `s` of `p` stands: those from position `i` on are all still there. */
  lemma AtPosition(list: BuddyList, v: View, p: Node, gone: set<Node>, i: nat)
    requires Sound(list) && ViewOf(list) == Without(v, gone) && p in v.kids && i < |v.kids[p]| && !Emptied(v, p, gone)
    requires forall k :: i <= k < |v.kids[p]| ==> Kept(v, gone)(v.kids[p][k])
    ensures var s := v.kids[p];
            && s[i].next == (if i + 1 < |s| then s[i + 1] else null)
            && p in list.kids && s[i] in list.kids[p]
  {
    hide *;
    var s := v.kids[p];
    SoundParts(list, null);
    WithoutAt(v, gone, p);
    ViewIs(list, p);
    FilterFrom(s, i, Kept(v, gone));
    SuffixAt(list, p, Filter(s[..i], Kept(v, gone)), s, i);
  }

  lemma FilterFrom(s: seq<Node>, i: nat, p: Node -> bool)
    requires i <= |s| && forall k :: i <= k < |s| ==> p(s[k])
    ensures Filter(s, p) == Filter(s[..i], p) + s[i..]
  {
    assert s == s[..i] + s[i..];
    forall x | x in s[i..] ensures p(x) {
      var k :| 0 <= k < |s| - i && s[i..][k] == x;
      assert s[i + k] == x;
    }
    hide Filter;
    FilterConcat(s[..i], s[i..], p);
    FilterAll(s[i..], p);
  }

  lemma SuffixAt(list: BuddyList, p: Node, t: seq<Node>, s: seq<Node>, i: nat)
    requires list.Linked() && list.gone == {} && p in list.kids && i < |s| && list.kids[p] == t + s[i..]
    ensures s[i].next == (if i + 1 < |s| then s[i + 1] else null) && s[i] in list.kids[p]
  {
    hide BuddyList.Linked;
    NextIs(list, p, |t|);
    assert list.kids[p][|t|] == s[i];
    if i + 1 < |s| {
      assert list.kids[p][|t| + 1] == s[i + 1];
    }
  }

  /** The buddies `s` of a contact, the first `j` of which have been looked at. */
  lemma BuddyStage(list: BuddyList, v: View, g: Node, c: Node, gone: set<Node>, j: nat)
    requires Sound(list) && Plain(v) && ViewOf(list) == Without(v, gone)
    requires c in v.kids && c.kind == ContactNode && g in v.kids && g.kind == GroupNode && c in v.kids[g] && c !in gone
    requires j < |v.kids[c]| && forall k :: j <= k < |v.kids[c]| ==> v.kids[c][k] !in gone
    ensures var s := v.kids[c];
            && s[j].next == (if j + 1 < |s| then s[j + 1] else null)
            && list.Listed(s[j]) && s[j].kind == BuddyNode && s[j].parent == c && c.parent == g &&
                Leaf(v, c, s[j], gone)
            && s[j] in list.live
  {
    hide *;
    var s := v.kids[c];
    BuddiesKept(v, g, c, gone, j);
    AtPosition(list, v, c, gone, j);
    IsSound(list);
    ChildOf(list, c, s[j]);
    WithoutAt(v, gone, g);
    ViewIs(list, g);
    KeptIn(v, gone, g, c);
    SoundParts(list, null);
    GroupsStay(v, gone, g);
    ChildOfGroup(list, g, c);
  }

  lemma KeptIn(v: View, gone: set<Node>, g: Node, c: Node)
    requires g in v.kids && c in v.kids[g] && Kept(v, gone)(c)
    ensures c in Filter(v.kids[g], Kept(v, gone))
  {
    InFilter(v.kids[g], Kept(v, gone), c);
  }

  lemma BuddiesKept(v: View, g: Node, c: Node, gone: set<Node>, j: nat)
    requires Plain(v) && c in v.kids && c.kind == ContactNode && c !in gone
    requires j < |v.kids[c]| && forall k :: j <= k < |v.kids[c]| ==> v.kids[c][k] !in gone
    ensures forall k :: j <= k < |v.kids[c]| ==> Kept(v, gone)(v.kids[c][k])
    ensures !Emptied(v, c, gone) && Kept(v, gone)(c) && Leaf(v, c, v.kids[c][j], gone) && v.kids[c][j].kind == BuddyNode
  {
    forall k | 0 <= k < |v.kids[c]| ensures v.kids[c][k].kind == BuddyNode && v.kids[c][k] !in v.kids {
      assert Fits(c, v.kids[c][k]);
    }
    assert v.kids[c][j] in v.kids[c];
  }

  /** The first buddy of a contact whose buddies are all there. */
  lemma FirstBuddyOf(list: BuddyList, v: View, g: Node, c: Node, gone: set<Node>)
    requires Sound(list) && Plain(v) && ViewOf(list) == Without(v, gone)
    requires c in v.kids && c.kind == ContactNode && c !in gone &&
      forall k :: 0 <= k < |v.kids[c]| ==> v.kids[c][k] !in gone
    ensures c.child == if v.kids[c] == [] then null else v.kids[c][0]
  {
    hide *;
    if v.kids[c] != [] {
      BuddiesKept(v, g, c, gone, 0);
    } else {
      NoneEmptied(v, c, gone);
    }
    WithoutAt(v, gone, c);
    FilterFrom(v.kids[c], 0, Kept(v, gone));
    FilterNothing(Kept(v, gone));
    ViewIs(list, c);
    FirstBuddy(list, c);
  }

  lemma NoneEmptied(v: View, c: Node, gone: set<Node>)
    requires c in v.kids && v.kids[c] == []
    ensures !Emptied(v, c, gone)
  {
  }

  lemma FilterNothing(p: Node -> bool)
    ensures Filter<Node>([], p) == []
  {
  }

  /** The inner loop: the buddies of one contact. */
  method PurgeContact(list: BuddyList, c: Node, g: Node, a: Account, ghost v: View, ghost gone: set<Node>)
    requires Sound(list) && Plain(v) && ViewOf(list) == Without(v, gone)
    requires c in v.kids && c.kind == ContactNode && g in v.kids && g.kind == GroupNode && c in v.kids[g]
    requires c !in gone && Elements(v.kids[c]) !! gone
    modifies list`root, list`gone, list`kids, list`live, list`buddies, list`caches, list`owner, list`drift
    modifies list.live`prev, list.live`next, list.live`child, list.live`priorityValid
    modifies list.live`totalsize, list.live`currentsize, list.live`online, g`destroyed
    ensures list.live <= old(list.live) && list.caches.Keys == old(list.caches).Keys
    ensures ViewOf(list) == Without(v, gone + Taken(Elements(v.kids[c]), a))
    ensures Passed(old(list.drift), list.drift, NoneIsEarly(list, Taken(Elements(v.kids[c]), a)))
    ensures g.destroyed == old(g.destroyed) + if AllOf(v, c, a) then 1 else 0
    ensures Sound(list) && OrderOf(list).AtLeast(old(OrderOf(list)))
  {
    hide *;
    ghost var o := OrderOf(list);
    AtLeastIs(o, o);
    AllOfIsEmptied(v, c, gone, a);
    ghost var s, j := v.kids[c], 0;
    NoneYet(s);
    TakenPlus({}, {}, a);
    NoneIsEarlyPlus(list, {}, {});
    PassedNone(list.drift);
    StillThere(s, gone, a, c, 0);
    assert gone + {} == gone;
    FirstBuddyOf(list, v, g, c, gone);
    var bnode := c.child;
    while bnode != null
      invariant j <= |s| && bnode == if j < |s| then s[j] else null
      invariant Sound(list) && Plain(v) && list.live <= old(list.live) && list.caches.Keys == old(list.caches).Keys
      invariant ViewOf(list) == Without(v, gone + Taken(Elements(s[..j]), a))
      invariant OrderOf(list).AtLeast(o)
      invariant g.destroyed == old(g.destroyed) +
        if Emptied(v, c, gone + Taken(Elements(s[..j]), a)) then 1 else 0
      invariant Passed(old(list.drift), list.drift, NoneIsEarly(list, Taken(Elements(s[..j]), a)))
      decreases |s| - j
    {
      ghost var x := gone + Taken(Elements(s[..j]), a);
      PlainParts(v, c);
      StillThere(s, gone, a, c, j);
      BuddyStage(list, v, g, c, x, j);
      TakenOne(s[j], a);
      HeadOf(s, j);
      TakenPlus(Elements(s[..j]), {s[j]}, a);
      NextBuddy(v, g, c, s[j], x);
      ghost var mid := OrderOf(list);
      LeftOf(list, v, g, c, s[j], x);
      var next := bnode.next;
      if bnode.account == a {
        assert x + {s[j]} == gone + Taken(Elements(s[..j + 1]), a);
        TakeBuddy(list, bnode, c, g, old(list.drift), Taken(Elements(s[..j]), a));
        AtLeastTwice(OrderOf(list), mid, o);
      } else {
        assert x == gone + Taken(Elements(s[..j + 1]), a);
        assert Taken(Elements(s[..j + 1]), a) == Taken(Elements(s[..j]), a);
      }
      bnode := next;
      j := j + 1;
    }
  }

  /** The contact has `b` left only, or it is not emptied yet. */
  lemma LeftOf(list: BuddyList, v: View, g: Node, c: Node, b: Node, gone: set<Node>)
    requires Leaf(v, c, b, gone) && c.kind == ContactNode && ViewOf(list) == Without(v, gone)
    ensures !Emptied(v, c, gone) && (Emptied(v, c, gone + {b}) <==> ViewOf(list).At(c) == [b])
  {
    hide *;
    KeptHere(v, c, b, gone);
    WithoutAt(v, gone, c);
    LeafIs(v, c, b, gone);
    ViewIs(list, c);
  }

  lemma LeafIs(v: View, c: Node, b: Node, gone: set<Node>)
    requires Leaf(v, c, b, gone)
    ensures c in v.kids
  {
  }

  /** One more buddy is deleted. */
  method TakeBuddy(list: BuddyList, b: Node, c: Node, g: Node, ghost drift: map<Node, int>, ghost taken: set<Node>)
    requires Sound(list) && list.Listed(b) && b.kind == BuddyNode && b.parent == c
    requires c.kind == ContactNode && c.parent == g && g.kind == GroupNode
    requires Passed(drift, list.drift, NoneIsEarly(list, taken))
    modifies list`root, list`gone, list`kids, list`live, list`buddies, list`caches, list`owner, list`drift
    modifies list.live`prev, list.live`next, list.live`child, list.live`priorityValid
    modifies list.live`totalsize, list.live`currentsize, list.live`online, g`destroyed
    ensures Passed(drift, list.drift, NoneIsEarly(list, taken + {b}))
    ensures ViewOf(list) == old(ViewOf(list)).MinusBuddy(g, c, b)
    ensures list.caches.Keys == old(list.caches).Keys && list.live <= old(list.live)
    ensures g.destroyed ==
      old(g.destroyed) + if old(ViewOf(list)).At(c) == [b] then 1 else 0
    ensures Sound(list) && OrderOf(list).AtLeast(old(OrderOf(list)))
  {
    hide *;
    ghost var was, last := list.drift, ViewOf(list).At(c) == [b];
    assert b.parent == c && c.parent == g;
    NoneIsEarlyPlus(list, taken, {b});
    NoneIsEarlyOne(list, b);
    PassedByBuddy(was, g, c, Early(list, b), last);
    DeleteBuddy(list, b);
    PassedOn(drift, was, list.drift, NoneIsEarly(list, taken), !Early(list, b));
  }

  lemma PlainParts(v: View, c: Node)
    requires Plain(v) && c in v.kids
    ensures NoDup(v.kids[c]) && Tidy(v.kids) && Shaped(v.kids) && null in v.kids
    ensures c.kind == ContactNode ==> c !in v.kids[c]
  {
    assert c in v.kids[c] ==> Fits(c, c);
  }

  /** The buddies from position `j` on are not gone. */
  lemma StillThere(s: seq<Node>, gone: set<Node>, a: Account, c: Node, j: nat)
    requires Elements(s) !! gone && j <= |s| && c !in gone && (0 < j ==> NoDup(s) && c !in s)
    ensures var x := gone + Taken(Elements(s[..j]), a);
            c !in x && forall k :: j <= k < |s| ==> s[k] !in x
  {
    forall k | j <= k < |s| ensures s[k] !in gone && s[k] !in s[..j] {
      assert s[k] in Elements(s);
    }
  }

  /** `gone` has buddies and chats only, and none of the children of `g` from position `i` on. */
  ghost predicate Untouched(v: View, g: Node, gone: set<Node>, i: nat)
    requires g in v.kids
  {
    && (forall n :: n in gone ==> n !in v.kids)
    && (forall k :: i <= k < |v.kids[g]| ==> Leaves(v.kids, v.kids[g][k]) !! gone)
  }

  lemma ChildKept(v: View, n: Node, gone: set<Node>)
    requires (forall x :: x in gone ==> x !in v.kids) && Leaves(v.kids, n) !! gone
    ensures Kept(v, gone)(n)
  {
    if n in v.kids {
      if v.kids[n] != [] {
        assert v.kids[n][0] in Elements(v.kids[n]);
        assert v.kids[n][0] in v.kids[n];
      }
    } else {
      assert n in Leaves(v.kids, n);
    }
  }

  lemma KeptAhead(v: View, g: Node, gone: set<Node>, i: nat)
    requires g in v.kids && g.kind == GroupNode && Untouched(v, g, gone, i)
    ensures forall k :: i <= k < |v.kids[g]| ==> Kept(v, gone)(v.kids[g][k])
    ensures !Emptied(v, g, gone)
  {
    forall k | i <= k < |v.kids[g]| ensures Kept(v, gone)(v.kids[g][k]) {
      ChildKept(v, v.kids[g][k], gone);
    }
  }

  /** The children of a group, the first `i` of which have been looked at. */
  lemma ChildStage(list: BuddyList, v: View, g: Node, gone: set<Node>, i: nat)
    requires Sound(list) && Plain(v) && ViewOf(list) == Without(v, gone)
    requires g in v.kids && g.kind == GroupNode && i < |v.kids[g]| && Untouched(v, g, gone, i)
    ensures var n := v.kids[g][i];
            && n.next == (if i + 1 < |v.kids[g]| then v.kids[g][i + 1] else null)
            && list.Listed(n) && n.parent == g && n in list.live && n in v.kids[g] && n !in gone
            && ((n.kind == ContactNode && n in v.kids && Elements(v.kids[n]) !! gone)
                || (n.kind == ChatNode && Leaf(v, g, n, gone)))
            && Leaves(v.kids, n) == (if n in v.kids then Elements(v.kids[n]) else {n})
    ensures ViewOf(list).At(g) == Without(v, gone).At(g)
  {
    hide *;
    KeptAhead(v, g, gone, i);
    AtPosition(list, v, g, gone, i);
    SoundParts(list, null);
    ChildOfGroup(list, g, v.kids[g][i]);
    ChildIsThere(v, g, gone, i);
  }

  lemma ChildIsThere(v: View, g: Node, gone: set<Node>, i: nat)
    requires Plain(v) && g in v.kids && g.kind == GroupNode && i < |v.kids[g]| && Untouched(v, g, gone, i)
    ensures var n := v.kids[g][i];
            && n in v.kids[g] && n !in gone
            && ((n.kind == ContactNode && n in v.kids && Elements(v.kids[n]) !! gone)
                || (n.kind == ChatNode && Leaf(v, g, n, gone)))
            && Leaves(v.kids, n) == if n in v.kids then Elements(v.kids[n]) else {n}
  {
    var n := v.kids[g][i];
    assert Fits(g, n);
    assert n !in v.kids ==> n in Leaves(v.kids, n);
  }

  /** The children that come later are still ahead. */
  lemma StillAhead(v: View, g: Node, gone: set<Node>, a: Account, i: nat)
    requires Plain(v) && g in v.kids && g.kind == GroupNode && i <= |v.kids[g]| && Untouched(v, g, gone, 0)
    ensures Untouched(v, g, gone + Taken(Spread(v.kids, v.kids[g][..i]), a), i)
  {
    var s, x := v.kids[g], gone + Taken(Spread(v.kids, v.kids[g][..i]), a);
    forall n | n in Spread(v.kids, s[..i]) ensures n !in v.kids {
      LeafOfGroup(v, g, i, n);
    }
    forall k | i <= k < |s| ensures Leaves(v.kids, s[k]) !! x {
      LaterApart(v, g, i, k);
    }
  }

  lemma LeafOfGroup(v: View, g: Node, i: nat, n: Node)
    requires Plain(v) && g in v.kids && g.kind == GroupNode && i <= |v.kids[g]| && n in Spread(v.kids, v.kids[g][..i])
    ensures n !in v.kids
  {
    var c :| c in v.kids[g][..i] && n in Leaves(v.kids, c);
    assert c in v.kids[g] && Fits(g, c);
    if c in v.kids {
      assert Fits(c, n);
    }
  }

  lemma LaterApart(v: View, g: Node, i: nat, k: nat)
    requires Plain(v) && g in v.kids && g.kind == GroupNode && i <= k < |v.kids[g]|
    ensures Leaves(v.kids, v.kids[g][k]) !! Spread(v.kids, v.kids[g][..i])
  {
    var s := v.kids[g];
    LeavesApart(v.kids, g, k);
    hide Leaves;
    assert forall c :: c in s[..i] ==> c in s[..k] by {
      assert s[..i] == s[..k][..i];
    }
  }

  /** `purple_blist_remove_chat`, on the way. */
  method PurgeChat(list: BuddyList, n: Node, ghost v: View, ghost g: Node, ghost gone: set<Node>)
    requires Sound(list) && ViewOf(list) == Without(v, gone) && Leaf(v, g, n, gone) && g.kind == GroupNode &&
      n.kind == ChatNode
    requires list.Listed(n) && n.parent == g
    modifies list`root, list`gone, list`kids, list`live, list.live`prev, list.live`next, list.live`child
    modifies list.live`totalsize, list.live`currentsize, list.live`online
    ensures ViewOf(list) == Without(v, gone + {n}) && list.live <= old(list.live)
    ensures Sound(list) && OrderOf(list) == old(OrderOf(list))
  {
    hide *;
    NextChat(v, g, n, gone);
    ViewIs(list, g);
    RemoveChat(list, n);
    ViewIs(list, g);
    FewerLive(v, gone, n);
  }

  lemma FewerLive(v: View, gone: set<Node>, n: Node)
    ensures var w := Without(v, gone); (w.live - {n}) <= w.live
  {
  }

  /** One child of a group. */
  method PurgeChild(list: BuddyList, n: Node, g: Node, a: Account, ghost v: View, ghost gone: set<Node>, ghost i: nat)
    requires Sound(list) && Plain(v) && ViewOf(list) == Without(v, gone)
    requires g in v.kids && g.kind == GroupNode && i < |v.kids[g]| && n == v.kids[g][i] && Untouched(v, g, gone, i)
    modifies list`root, list`gone, list`kids, list`live, list`buddies, list`caches, list`owner, list`drift
    modifies list.live`prev, list.live`next, list.live`child, list.live`priorityValid
    modifies list.live`totalsize, list.live`currentsize, list.live`online, g`destroyed
    ensures list.live <= old(list.live) && list.caches.Keys == old(list.caches).Keys
    ensures ViewOf(list) == Without(v, gone + Taken(Leaves(v.kids, n), a))
    ensures Passed(old(list.drift), list.drift, NoneIsEarly(list, Taken(Leaves(v.kids, n), a)))
    ensures g.destroyed == old(g.destroyed) + if AllOf(v, n, a) then 1 else 0
    ensures Sound(list) && OrderOf(list).AtLeast(old(OrderOf(list)))
  {
    hide *;
    AtLeastIs(OrderOf(list), OrderOf(list));
    ChildStage(list, v, g, gone, i);
    if n.kind == ContactNode {
      PurgeContact(list, n, g, a, v, gone);
    } else if n.kind == ChatNode {
      LeafChat(v, g, n, gone);
      NoneOfChat(v, n, a);
      TakenOne(n, a);
      NoneIsEarlyPlus(list, {}, {});
      NoneIsEarlyOne(list, n);
      PassedNone(list.drift);
      if n.account == a {
        PurgeChat(list, n, v, g, gone);
      } else {
        assert gone + {} == gone;
      }
    }
  }

  /** The loop over the children of one group. */
  method PurgeGroup(list: BuddyList, g: Node, a: Account, ghost v: View, ghost gone: set<Node>)
    requires Sound(list) && Plain(v) && ViewOf(list) == Without(v, gone)
    requires g in v.kids && g.kind == GroupNode && Untouched(v, g, gone, 0)
    modifies list`root, list`gone, list`kids, list`live, list`buddies, list`caches, list`owner, list`drift
    modifies list.live`prev, list.live`next, list.live`child, list.live`priorityValid
    modifies list.live`totalsize, list.live`currentsize, list.live`online, g`destroyed
    ensures list.live <= old(list.live) && list.caches.Keys == old(list.caches).Keys
    ensures ViewOf(list) == Without(v, gone + Taken(Spread(v.kids, v.kids[g]), a))
    ensures Passed(old(list.drift), list.drift, NoneIsEarly(list, Taken(Spread(v.kids, v.kids[g]), a)))
    ensures g.destroyed == old(g.destroyed) + Losses(v, v.kids[g], a)
    ensures Sound(list) && OrderOf(list).AtLeast(old(OrderOf(list)))
  {
    hide *;
    ghost var s, i, o := v.kids[g], 0, OrderOf(list);
    AtLeastIs(o, o);
    LossesEnds(v, v.kids[g], a);
    SpreadNone(v.kids, s);
    TakenPlus({}, {}, a);
    NoneIsEarlyPlus(list, {}, {});
    PassedNone(list.drift);
    assert gone + {} == gone;
    FirstInGroup(list, v, g, gone);
    var cnode := g.child;
    while cnode != null
      invariant i <= |s| && cnode == if i < |s| then s[i] else null
      invariant Sound(list) && Plain(v) && list.live <= old(list.live) && list.caches.Keys == old(list.caches).Keys
      invariant ViewOf(list) == Without(v, gone + Taken(Spread(v.kids, s[..i]), a))
      invariant OrderOf(list).AtLeast(o)
      invariant g.destroyed == old(g.destroyed) + Losses(v, s[..i], a)
      invariant Passed(old(list.drift), list.drift, NoneIsEarly(list, Taken(Spread(v.kids, s[..i]), a)))
      decreases |s| - i
    {
      ghost var taken, more := Taken(Spread(v.kids, s[..i]), a), Taken(Leaves(v.kids, s[i]), a);
      StillAhead(v, g, gone, a, i);
      ChildStage(list, v, g, gone + taken, i);
      SpreadStep(v.kids, s, i);
      TakenPlus(Spread(v.kids, s[..i]), Leaves(v.kids, s[i]), a);
      NoneIsEarlyPlus(list, taken, more);
      LossesNext(v, s, i, a);
      assert gone + taken + more == gone + Taken(Spread(v.kids, s[..i + 1]), a);
      ghost var was, mid := list.drift, OrderOf(list);
      var cnodeNext := cnode.next;
      PurgeChild(list, cnode, g, a, v, gone + taken, i);
      PassedOn(old(list.drift), was, list.drift, NoneIsEarly(list, taken), NoneIsEarly(list, more));
      AtLeastTwice(OrderOf(list), mid, o);
      cnode := cnodeNext;
      i := i + 1;
    }
  }

  lemma NoneOfChat(v: View, n: Node, a: Account)
    requires n.kind == ChatNode
    ensures !AllOf(v, n, a)
  {
  }

  lemma LeafChat(v: View, g: Node, n: Node, gone: set<Node>)
    requires Leaf(v, g, n, gone)
    ensures n !in v.kids
  {
  }

  lemma FirstInGroup(list: BuddyList, v: View, g: Node, gone: set<Node>)
    requires Sound(list) && ViewOf(list) == Without(v, gone) && g in v.kids && g.kind == GroupNode &&
      Untouched(v, g, gone, 0)
    ensures g.child == if v.kids[g] == [] then null else v.kids[g][0]
  {
    hide *;
    KeptAhead(v, g, gone, 0);
    FilterFrom(v.kids[g], 0, Kept(v, gone));
    FilterNothing(Kept(v, gone));
    GroupsStay(v, gone, g);
    ViewIs(list, g);
    FirstOf(list, g);
    assert v.kids[g][..0] == [];
  }

  /** The groups, the first `i` of which have been looked at, are all still there. */
  lemma GroupStage(list: BuddyList, v: View, a: Account, i: nat)
    requires Sound(list) && Plain(v) && null in v.kids && i < |v.kids[null]|
    requires ViewOf(list) == Without(v, Taken(Everything(v.kids, v.kids[null][..i]), a))
    ensures var s := v.kids[null];
            && s[i] in v.kids && s[i].kind == GroupNode
            && Untouched(v, s[i], Taken(Everything(v.kids, s[..i]), a), 0)
            && Everything(v.kids, s[..i + 1]) == Everything(v.kids, s[..i]) + Spread(v.kids, v.kids[s[i]])
  {
    hide *;
    var s := v.kids[null];
    TopsOf(v);
    EverythingStep(v.kids, s, i);
    SpreadApart(v.kids, s, i);
    AllUntouched(v, a, i);
  }

  lemma TopsOf(v: View)
    requires Plain(v) && null in v.kids
    ensures Tidy(v.kids) && Shaped(v.kids) && NoDup(v.kids[null])
    ensures forall g :: g in v.kids[null] ==> g in v.kids && g.kind == GroupNode
  {
    forall g | g in v.kids[null] ensures g in v.kids && g.kind == GroupNode {
      assert Fits(null, g);
    }
  }

  lemma LeafOfAll(v: View, i: nat, n: Node)
    requires Plain(v) && null in v.kids && i <= |v.kids[null]| && n in Everything(v.kids, v.kids[null][..i])
    ensures n !in v.kids
  {
    var g :| g in v.kids[null][..i] && g in v.kids && n in Spread(v.kids, v.kids[g]);
    TopsOf(v);
    assert g in v.kids[null];
    assert v.kids[g][..|v.kids[g]|] == v.kids[g];
    LeafOfGroup(v, g, |v.kids[g]|, n);
  }

  lemma AllUntouched(v: View, a: Account, i: nat)
    requires Plain(v) && null in v.kids && i < |v.kids[null]| && v.kids[null][i] in v.kids
    requires Spread(v.kids, v.kids[v.kids[null][i]]) !! Everything(v.kids, v.kids[null][..i])
    ensures Untouched(v, v.kids[null][i], Taken(Everything(v.kids, v.kids[null][..i]), a), 0)
  {
    var s := v.kids[null];
    var g := s[i];
    forall n | n in Everything(v.kids, s[..i]) ensures n !in v.kids {
      LeafOfAll(v, i, n);
    }
    forall k | 0 <= k < |v.kids[g]| ensures Leaves(v.kids, v.kids[g][k]) <= Spread(v.kids, v.kids[g]) {
      LeavesWithin(v.kids, g, k);
    }
    hide Leaves, Spread, Everything;
  }

  lemma GroupsKept(v: View, a: Account, i: nat)
    requires Plain(v) && null in v.kids && i <= |v.kids[null]|
    ensures var x := Taken(Everything(v.kids, v.kids[null][..i]), a);
            null in Without(v, x).kids && Without(v, x).kids[null] == v.kids[null]
  {
    var s, x := v.kids[null], Taken(Everything(v.kids, v.kids[null][..i]), a);
    TopsOf(v);
    forall g | g in s ensures Kept(v, x)(g) {
      if g in Everything(v.kids, s[..i]) {
        LeafOfAll(v, i, g);
      }
    }
    FilterAll(s, Kept(v, x));
    WithoutAt(v, x, null);
  }

  /** The next group, read off the pointers. */
  lemma NextTop(list: BuddyList, v: View, a: Account, i: nat, j: nat)
    requires Sound(list) && Plain(v) && null in v.kids && i <= |v.kids[null]|
    requires ViewOf(list) == Without(v, Taken(Everything(v.kids, v.kids[null][..i]), a))
    ensures list.root == if v.kids[null] == [] then null else v.kids[null][0]
    ensures j < |v.kids[null]| ==> v.kids[null][j].next == if j + 1 < |v.kids[null]| then v.kids[null][j + 1] else null
  {
    hide *;
    GroupsKept(v, a, i);
    ViewIs(list, null);
    FirstOf(list, null);
    if j < |v.kids[null]| {
      NextIs(list, null, j);
    }
  }

  lemma IsPlain(list: BuddyList)
    requires Sound(list)
    ensures Plain(ViewOf(list)) && null in ViewOf(list).kids &&
      ViewOf(list) == View(list.kids, list.owner, list.live, {})
  {
    SoundParts(list, null);
    IsTidy(list);
    IsStanding(list);
    hide Tidy, Shaped, Sound, Coherent, BuddyList.Linked;
  }

  /** The list without the buddies and chats of the account `a`, and without
      the contacts that had no others. */
  ghost function Cleared(v: View, a: Account): View {
    Without(v, TakenFrom(v, a))
  }

  ghost function TakenFrom(v: View, a: Account): set<Node> {
    Taken(Everything(v.kids, v.At(null)), a)
  }

  /** The loops of `purple_accounts_delete` over the buddy list. */
  method PurgeAll(list: BuddyList, a: Account)
    requires Sound(list)
    modifies list`root, list`gone, list`kids, list`live, list`buddies, list`caches, list`owner, list`drift
    modifies list.live`prev, list.live`next, list.live`child, list.live`priorityValid
    modifies list.live`totalsize, list.live`currentsize, list.live`online
    modifies (set g | null in list.kids && g in list.kids[null])`destroyed
    ensures list.caches.Keys == old(list.caches).Keys
    ensures ViewOf(list) == Cleared(old(ViewOf(list)), a)
    ensures Passed(old(list.drift), list.drift, NoneIsEarly(list, TakenFrom(old(ViewOf(list)), a)))
    ensures forall g :: g in old(ViewOf(list)).At(null) ==>
              g.destroyed == old(g.destroyed) + Losses(old(ViewOf(list)), old(ViewOf(list)).At(g), a)
    ensures Sound(list) && OrderOf(list).AtLeast(old(OrderOf(list)))
  {
    hide *;
    ghost var o := OrderOf(list);
    AtLeastIs(o, o);
    ghost var v, i := ViewOf(list), 0;
    IsPlain(list);
    ghost var s := v.kids[null];
    SpreadNone(v.kids, s);
    TakenPlus({}, {}, a);
    NoneIsEarlyPlus(list, {}, {});
    PassedNone(list.drift);
    WithoutNone(v);
    NextTop(list, v, a, 0, 0);
    ClearedIs(v, a);
    var gnode := list.root;
    while gnode != null
      invariant i <= |s| && gnode == if i < |s| then s[i] else null
      invariant Sound(list) && list.live <= old(list.live) && list.caches.Keys == old(list.caches).Keys
      invariant ViewOf(list) == Without(v, Taken(Everything(v.kids, s[..i]), a))
      invariant OrderOf(list).AtLeast(o)
      invariant forall k :: 0 <= k < i ==> s[k].destroyed == old(s[k].destroyed) + Losses(v, v.At(s[k]), a)
      invariant forall k :: i <= k < |s| ==> s[k].destroyed == old(s[k].destroyed)
      invariant Passed(old(list.drift), list.drift, NoneIsEarly(list, Taken(Everything(v.kids, s[..i]), a)))
      decreases |s| - i
    {
      GroupStage(list, v, a, i);
      TakenPlus(Everything(v.kids, s[..i]), Spread(v.kids, v.kids[s[i]]), a);
      ghost var was, mid := list.drift, OrderOf(list);
      DistinctTop(v, i);
      NoneIsEarlyPlus(list, Taken(Everything(v.kids, s[..i]), a), Taken(Spread(v.kids, v.kids[s[i]]), a));
      PurgeGroup(list, gnode, a, v, Taken(Everything(v.kids, s[..i]), a));
      PassedOn(old(list.drift), was, list.drift, NoneIsEarly(list, Taken(Everything(v.kids, s[..i]), a)),
                NoneIsEarly(list, Taken(Spread(v.kids, v.kids[s[i]]), a)));
      AtLeastTwice(OrderOf(list), mid, o);
      NextTop(list, v, a, i + 1, i);
      gnode := gnode.next;
      i := i + 1;
    }
    AtTop(v, s);
  }

  lemma AtTop(v: View, s: seq<Node>)
    requires null in v.kids && v.kids[null] == s
    ensures v.At(null) == s && forall g :: g in v.At(null) ==> exists k :: 0 <= k < |s| && s[k] == g
  {
  }

  lemma DistinctTop(v: View, i: nat)
    requires Plain(v) && null in v.kids && i < |v.kids[null]|
    ensures var s := v.kids[null];
            && v.At(s[i]) == (if s[i] in v.kids then v.kids[s[i]] else [])
            && forall k :: 0 <= k < |s| && k != i ==> s[k] != s[i]
  {
    TopsOf(v);
  }

  lemma ClearedIs(v: View, a: Account)
    requires null in v.kids
    ensures TakenFrom(v, a) == Taken(Everything(v.kids, v.kids[null]), a)
    ensures Cleared(v, a) == Without(v, Taken(Everything(v.kids, v.kids[null]), a))
  {
  }

  lemma CacheDropped(list: BuddyList, caches: map<Account, map<Key, Node>>, a: Account)
    requires Leads(Keys(list), list.buddies)
    requires (forall b :: b in list.owner ==> b.account != a) && list.caches == caches - {a}
    requires forall x :: x in caches ==> caches[x] == OfAccount(list.buddies, x)
    requires forall k :: k in list.buddies ==> k.account in caches
    ensures Cached(list)
  {
    forall k | k in list.buddies ensures k.account != a {
      assert list.buddies[k] in list.owner && Keys(list)[list.buddies[k]] == k;
    }
    hide OfAccount;
  }

  lemma CachedIs(list: BuddyList)
    requires Cached(list)
    ensures forall x :: x in list.caches ==> list.caches[x] == OfAccount(list.buddies, x)
    ensures forall k :: k in list.buddies ==> k.account in list.caches
  {
  }

  /** No buddy of the account is on file any more. */
  lemma OwnersCleared(list: BuddyList, v: View, a: Account)
    requires ViewOf(list) == Cleared(v, a) && null in v.kids && (forall b :: b in v.owner ==> b.kind == BuddyNode)
    requires forall b :: b in v.owner ==> b in Everything(v.kids, v.kids[null])
    ensures forall b :: b in list.owner ==> b.account != a
  {
    hide Everything;
    WithoutIs(v, Taken(Everything(v.kids, v.kids[null]), a));
    hide Without;
    assert list.owner == ViewOf(list).owner;
  }

  lemma AllOnFile(list: BuddyList)
    requires Sound(list) && null in list.kids
    ensures forall b :: b in list.owner ==> b.kind == BuddyNode && b in Everything(list.kids, list.kids[null])
  {
    forall b | b in list.owner ensures b.kind == BuddyNode && b in Everything(list.kids, list.kids[null]) {
      OnFileIsEverything(list, b);
    }
  }

  /** `purple_accounts_delete`, as far as the buddy list is concerned: the
      account, which is no longer connected, loses its buddies and chats, and then its table. */
  method DeleteAccount(list: BuddyList, a: Account)
    requires Sound(list) && a !in list.connected
    modifies list`root, list`gone, list`kids, list`live, list`buddies, list`caches, list`owner, list`drift
    modifies list.live`prev, list.live`next, list.live`child, list.live`priorityValid
    modifies list.live`totalsize, list.live`currentsize, list.live`online
    modifies (set g | null in list.kids && g in list.kids[null])`destroyed
    ensures list.caches.Keys == old(list.caches).Keys - {a}
    ensures ViewOf(list) == Cleared(old(ViewOf(list)), a)
    ensures forall b :: b in list.owner ==> b.account != a
    ensures old(Exact(list.drift)) ==>
      (Exact(list.drift) <==> forall b :: b in old(list.owner) && b.account == a ==> b !in list.present)
    ensures forall g :: g in old(ViewOf(list)).At(null) ==>
              g.destroyed == old(g.destroyed) + Losses(old(ViewOf(list)), old(ViewOf(list)).At(g), a)
    ensures Sound(list) && OrderOf(list).AtLeast(old(OrderOf(list)))
  {
    hide *;
    ghost var v := ViewOf(list);
    ghost var drift := list.drift;
    IsPlain(list);
    AllOnFile(list);
    ViewIs(list, null);
    NoneIsPresent(list, a);
    PurgeAll(list, a);
    PassedIs(drift, list.drift, NoneIsEarly(list, TakenFrom(v, a)));
    OwnersCleared(list, v, a);
    DropCache(list, a);
  }

  /** The account is not connected: its early buddies are those with a presence that is online. */
  lemma NoneIsPresent(list: BuddyList, a: Account)
    requires Sound(list) && a !in list.connected && null in list.kids
    ensures NoneIsEarly(list, TakenFrom(ViewOf(list), a)) <==>
            forall b :: b in list.owner && b.account == a ==> b !in list.present
  {
    hide *;
    ViewIs(list, null);
    ClearedIs(ViewOf(list), a);
    forall b ensures b in Everything(list.kids, list.kids[null]) && b.kind == BuddyNode <==> b in list.owner {
      OnFileIsEverything(list, b);
    }
    EarlyIsPresent(list, Everything(list.kids, list.kids[null]), a);
  }

  lemma EarlyIsPresent(list: BuddyList, all: set<Node>, a: Account)
    requires a !in list.connected && forall b :: b in all && b.kind == BuddyNode <==> b in list.owner
    ensures NoneIsEarly(list, Taken(all, a)) <==> forall b :: b in list.owner && b.account == a ==> b !in list.present
  {
    if NoneIsEarly(list, Taken(all, a)) {
      forall b | b in list.owner && b.account == a ensures b !in list.present {
        assert b in Taken(all, a);
      }
    }
  }

  /** `purple_blist_buddies_cache_remove_account` */
  method DropCache(list: BuddyList, a: Account)
    requires Sound(list) && (forall b :: b in list.owner ==> b.account != a)
    modifies list`caches
    ensures list.caches == old(list.caches) - {a} && ViewOf(list) == old(ViewOf(list))
    ensures Sound(list) && OrderOf(list) == old(OrderOf(list))
  {
    hide *;
    ghost var caches, o := list.caches, OrderOf(list);
    BeforeCache(list);
    list.caches := list.caches - {a};
    CacheDropped(list, caches, a);
    ViewIs(list, null);
    CachesChanged(list, o);
  }

  /** `purple_blist_buddies_cache_add_account`, for a new account */
  method AddCache(list: BuddyList, a: Account)
    requires Sound(list) && a !in list.caches
    modifies list`caches
    ensures list.caches == old(list.caches)[a := map[]] && ViewOf(list) == old(ViewOf(list))
    ensures Sound(list) && OrderOf(list) == old(OrderOf(list))
  {
    hide *;
    ghost var caches, o := list.caches, OrderOf(list);
    BeforeCache(list);
    list.caches := list.caches[a := map[]];
    CacheAdded(list, caches, a);
    ViewIs(list, null);
    CachesChanged(list, o);
  }

  lemma BeforeCache(list: BuddyList)
    requires Sound(list)
    ensures Tree(list) && Ranked(list) && list.gone == {} && Owned(ViewOf(list))
    ensures OrderOf(list).groups >= 1 && OrderOf(list).buddies >= 1 && Leads(Keys(list), list.buddies)
    ensures forall x :: x in list.caches ==> list.caches[x] == OfAccount(list.buddies, x)
    ensures forall k :: k in list.buddies ==> k.account in list.caches
    ensures forall b :: b in list.owner ==> b.account in list.caches
    ensures ViewOf(list) == View(list.kids, list.owner, list.live, list.gone)
  {
    hide *;
    SoundParts(list, null);
    CoherentParts(list);
    CachedIs(list);
    IsSound(list);
    OrderIs(list);
    TrustIs(list);
    TabledIs(ViewOf(list), list.caches.Keys);
  }

  lemma TabledIs(v: View, accounts: set<Account>)
    ensures Tabled(v, accounts) <==> forall b :: b in v.owner ==> b.account in accounts
  {
  }

  /** Only the tables of accounts have changed. */
  lemma CachesChanged(list: BuddyList, o: Order)
    requires Tree(list) && Ranked(list) && list.gone == {} && Owned(ViewOf(list))
    requires Cached(list) && (forall b :: b in list.owner ==> b.account in list.caches)
    requires OrderOf(list) == o && o.groups >= 1 && o.buddies >= 1
    ensures Sound(list)
  {
    hide *;
    CoherentParts(list);
    ViewIs(list, null);
    IsSound(list);
    TabledIs(ViewOf(list), list.caches.Keys);
  }

  lemma CacheAdded(list: BuddyList, caches: map<Account, map<Key, Node>>, a: Account)
    requires list.caches == caches[a := map[]] && a !in caches
    requires forall x :: x in caches ==> caches[x] == OfAccount(list.buddies, x)
    requires forall k :: k in list.buddies ==> k.account in caches
    ensures Cached(list)
  {
    assert OfAccount(list.buddies, a) == map[];
    hide OfAccount;
  }
}
