/** `purple_blist_merge_contact` and `purple_blist_rename_buddy`.
    Most bodies below hide every definition; the short lemmas called `...Is` and
    `...Parts` give back the single definition that a step needs. */
module BuddyMerge {
  import opened Lists
  import opened BuddyTree
  import opened BuddyCounts
  import opened BuddyIndex
  import opened BuddyState
  import opened BuddyRemove
  import opened BuddyValid
  import opened BuddyAdd
  import opened BuddyContacts
  import opened BuddyEdit
  import opened BuddyApi

  /** The file after the buddies `s` moved to the group `g`. */
  ghost function OwnerMoved(owner: map<Node, Node>, s: seq<Node>, g: Node): map<Node, Node> {
    map b | b in owner :: if b in s then g else owner[b]
  }

  /** Two contacts about to be merged: `s` are the buddies of `source` in the
      group `g0`, `t` those of `target` in the group `g`, and the former go to position `pos`. */
  datatype Merge = Merge(source: Node, g0: Node, s: seq<Node>, target: Node, g: Node, t: seq<Node>, pos: nat) {

    /** The buddies of the target once the first `i` of the source have arrived. */
    ghost function Arrived(i: nat): seq<Node>
      requires i <= |s| && pos <= |t|
    {
      t[..pos] + s[..i] + t[pos..]
    }

    /** The list once the first `i` buddies, but not all, have arrived. */
    ghost function HalfMerged(v: View, i: nat): View
      requires i <= |s| && pos <= |t|
    {
      View(v.kids[source := s[i..]][target := Arrived(i)], OwnerMoved(v.owner, s[..i], g), v.live, {})
    }

    /** The list after the merge: the source is gone. */
    ghost function Done(v: View): View
      requires pos <= |t|
    {
      View((v.kids - {source})[g0 := Minus(v.At(g0), source)][target := Arrived(|s|)],
           OwnerMoved(v.owner, s, g), v.live - {source}, {})
    }

    /** The list after `i` buddies. */
    ghost function Stage(v: View, i: nat): View
      requires i <= |s| && pos <= |t|
    {
      if i < |s| then HalfMerged(v, i) else Done(v)
    }

    ghost predicate Suits(v: View) {
      && source != target && v.gone == {} && pos <= |t|
      && source in v.kids && v.kids[source] == s && source.kind == ContactNode
      && target in v.kids && v.kids[target] == t && target.kind == ContactNode
      && g0 in v.kids && g0.kind == GroupNode && g in v.kids && g.kind == GroupNode
      && NoDup(s) && NoDup(t) && (forall b :: b in s ==> b !in t)
      && (forall b :: b in s ==> b in v.owner && v.owner[b] == g0 && b in v.live && b.kind == BuddyNode)
    }

    /** What the next buddy is put behind. */
    ghost function Before(i: nat): (n: Node?)
      requires i <= |s| && pos <= |t|
    {
      if 0 < i then s[i - 1] else if 0 < pos then t[pos - 1] else null
    }

    lemma OwnerStep(v: View, i: nat)
      requires Suits(v) && i < |s|
      ensures OwnerMoved(v.owner, s[..i], g)[s[i] := g] == OwnerMoved(v.owner, s[..i + 1], g)
      ensures (OwnerMoved(v.owner, s[..i], g) - {s[i]})[s[i] := g] == OwnerMoved(v.owner, s[..i + 1], g)
    {
      assert s[i] in s;
      assert forall b :: b in s[..i + 1] <==> b in s[..i] || b == s[i];
    }

    lemma PlaceOf(i: nat)
      requires i < |s| && pos <= |t| && NoDup(s) && NoDup(t) && (forall b :: b in s ==> b !in t)
      ensures var a := Arrived(i);
              var prev := Before(i);
              && (prev == null || prev in a) && InsertAt(a, After(a, prev), s[i]) == Arrived(i + 1)
    {
      var u := t[..pos] + s[..i];
      DistinctParts(t, pos, s, i);
      ArrivedNext(i);
      hide *;
      BehindLast(u, t[pos..], s[i]);
    }

    lemma ArrivedNext(i: nat)
      requires i < |s| && pos <= |t|
      ensures var u := t[..pos] + s[..i];
              Arrived(i) == u + t[pos..] && Arrived(i + 1) == u + [s[i]] + t[pos..] && Before(i) == Last(u)
    {
      assert s[..i + 1] == s[..i] + [s[i]];
    }

    lemma BuddyOfSource(v: View, i: nat)
      requires Suits(v) && i < |s|
      ensures s[i..][0] == s[i] && s[i..][1..] == s[i + 1..] && Minus(s[i..], s[i]) == s[i + 1..]
      ensures s[i] in v.live && s[i] != source && s[i] != g0 && s[i] != target && target != source && g0 != source &&
        g0 != target
      ensures source in v.kids && g0 in v.kids && target in v.kids
      ensures |s[i..]| == |s| - i
    {
      assert s[i] in s;
      MinusHead(s[i..]);
    }

    lemma StepWithin(v: View, i: nat)
      requires Suits(v) && i + 1 < |s|
      ensures WithBuddy(HalfMerged(v, i), g0, source, s[i], Before(i), target, g) == HalfMerged(v, i + 1)
    {
      var w, b := HalfMerged(v, i), s[i];
      PlaceOf(i);
      OwnerStep(v, i);
      BuddyOfSource(v, i);
      hide Minus, InsertAt, OwnerMoved, Arrived, Before, NoDup, Suits, Lists.IndexOf, BuddyTree.After;
      ReplaceBoth(v.kids, source, target, s[i..], Arrived(i), s[i + 1..], Arrived(i + 1));
      var x := w.MinusBuddy(g0, source, b);
      assert x == View(w.kids[source := s[i + 1..]], w.owner - {b}, w.live - {b}, {});
      assert x.At(target) == Arrived(i);
      assert w.live - {b} + {b} == v.live;
    }

    lemma StepLast(v: View, i: nat)
      requires Suits(v) && i + 1 == |s|
      ensures WithBuddy(HalfMerged(v, i), g0, source, s[i], Before(i), target, g) == Done(v)
    {
      var w, b := HalfMerged(v, i), s[i];
      PlaceOf(i);
      OwnerStep(v, i);
      BuddyOfSource(v, i);
      assert s[..i + 1] == s && s[i..] == [b];
      LastOut(v, w, b, i);
      var m := Minus(v.At(g0), source);
      hide Minus, InsertAt, OwnerMoved, Arrived, Before, NoDup, Suits, Lists.IndexOf, BuddyTree.After;
      ReplaceRest(v.kids, source, target, [b], Arrived(i), g0, m, Arrived(i + 1));
      var x := w.MinusBuddy(g0, source, b);
      assert x.At(target) == Arrived(i);
      assert w.live - {b} - {source} + {b} == v.live - {source};
    }

    /** The last buddy that leaves the source takes it along. */
    lemma LastOut(v: View, w: View, b: Node, i: nat)
      requires i < |s| && pos <= |t| && w == HalfMerged(v, i) && s[i..] == [b] && target != source && g0 != target &&
        g0 != source && g0 in v.kids
      ensures w.MinusBuddy(g0, source, b) ==
        View((w.kids - {source})[g0 := Minus(v.At(g0), source)], w.owner - {b}, w.live - {b} - {source}, {})
    {
      hide Arrived, OwnerMoved;
      assert w.At(source) == [b];
      assert Elements([b]) == {b};
      assert w.At(g0) == v.At(g0);
      assert w.MinusBuddy(g0, source, b) == w.MinusContact(g0, source);
      assert w.owner - Elements(w.At(source)) == w.owner - {b};
    }
  }

  lemma DistinctParts(t: seq<Node>, pos: nat, s: seq<Node>, i: nat)
    requires NoDup(s) && NoDup(t) && pos <= |t| && i <= |s| && forall b :: b in s ==> b !in t
    ensures NoDup(t[..pos] + s[..i])
  {
    var u := t[..pos] + s[..i];
    forall j, k | 0 <= j < k < |u| ensures u[j] != u[k] {
      if j < pos <= k {
        assert u[j] in t && u[k] == s[k - pos] && s[k - pos] in s;
      }
    }
  }

  /** Putting `x` behind the last node of `u`. */
  lemma BehindLast(u: seq<Node>, w: seq<Node>, x: Node)
    requires NoDup(u)
    ensures Last(u) == null || Last(u) in u + w
    ensures InsertAt(u + w, After(u + w, Last(u)), x) == u + [x] + w
  {
    var a := u + w;
    if u != [] {
      assert a[|u| - 1] == Last(u);
      assert forall k :: 0 <= k < |u| - 1 ==> a[k] == u[k] != Last(u);
      IndexOfIs(a, u[|u| - 1], |u| - 1);
    }
    assert a[..|u|] == u && a[|u|..] == w;
  }

  lemma ReplaceBoth(ks: Kids, c: Node, d: Node, r: seq<Node>, a: seq<Node>, r': seq<Node>, a': seq<Node>)
    requires c != d
    ensures ks[c := r][d := a][c := r'][d := a'] == ks[c := r'][d := a']
  {
  }

  lemma ReplaceRest(ks: Kids, c: Node, d: Node, r: seq<Node>, a: seq<Node>, g: Node, m: seq<Node>, a': seq<Node>)
    requires c != d && d != g && c != g
    ensures (ks[c := r][d := a] - {c})[g := m][d := a'] == (ks - {c})[g := m][d := a']
  {
  }

  /** What is known of a merge before its loop, and stays true. */
  ghost predicate Mergeable(accounts: set<Account>, v: View, m: Merge) {
    m.Suits(v) && forall b :: b in m.s ==> b.account in accounts
  }

  /** The buddies of the source are no twins of each other. */
  ghost predicate Distinct(list: BuddyList, m: Merge)
    reads (set b | b in m.s)`name
  {
    forall i, j :: 0 <= i < j < |m.s| ==> KeyOf(list, m.s[i], m.g) != KeyOf(list, m.s[j], m.g)
  }

  /** No buddy of the source has a twin in the group it goes to. */
  ghost predicate Quiet(list: BuddyList, v: View, m: Merge)
    reads v.owner.Keys`name, (set b | b in m.s)`name
  {
    forall b :: b in m.s ==> NoTwin(list, v.owner, b, m.g)
  }

  /** The buddies that arrived are no twins of the next one. */
  lemma NoTwinLater(list: BuddyList, accounts: set<Account>, v: View, m: Merge, i: nat)
    requires Mergeable(accounts, v, m) && Distinct(list, m) && i < |m.s| && Quiet(list, v, m)
    ensures NoTwin(list, OwnerMoved(v.owner, m.s[..i], m.g), m.s[i], m.g)
  {
    var o, b := OwnerMoved(v.owner, m.s[..i], m.g), m.s[i];
    assert b in m.s;
    forall x | x in o && x != b ensures KeyOf(list, x, o[x]) != KeyOf(list, b, m.g) {
      if x in m.s[..i] {
        var j :| 0 <= j < i && m.s[j] == x;
        assert KeyOf(list, m.s[j], m.g) != KeyOf(list, m.s[i], m.g);
      }
    }
  }

  /** The table of buddies once the first `i` buddies of the source have arrived. */
  ghost function Table(list: BuddyList, buddies: map<Key, Node>, m: Merge, i: nat): map<Key, Node>
    requires i <= |m.s|
    reads (set b | b in m.s)`name
  {
    if i == 0 then buddies
    else Unnamed(list, Table(list, buddies, m, i - 1), m.s[i - 1], m.g0, m.g)[KeyOf(list, m.s[i - 1], m.g) :=
        m.s[i - 1]]
  }

  lemma TableIs(list: BuddyList, buddies: map<Key, Node>, m: Merge, i: nat)
    requires i < |m.s|
    ensures Table(list, buddies, m, 0) == buddies
    ensures Table(list, buddies, m, i + 1) ==
      Unnamed(list, Table(list, buddies, m, i), m.s[i], m.g0, m.g)[KeyOf(list, m.s[i], m.g) := m.s[i]]
  {
  }

  /** A twin in the group spoils the table. */
  lemma TwinSpoils(list: BuddyList, accounts: set<Account>, v: View, m: Merge)
    requires Mergeable(accounts, v, m) && !Quiet(list, v, m) && m.g0 != m.g
    requires list.owner == OwnerMoved(v.owner, m.s, m.g)
    ensures !Filed(list)
  {
    var b :| b in m.s && !NoTwin(list, v.owner, b, m.g);
    var t :| t in v.owner && t != b && KeyOf(list, t, v.owner[t]) == KeyOf(list, b, m.g);
    assert t !in m.s && list.owner[t] == m.g && list.owner[b] == m.g;
    assert t in list.owner && b in list.owner;
    assert Keys(list)[t] == KeyOf(list, t, m.g) && Keys(list)[b] == KeyOf(list, b, m.g);
  }

  lemma MergeableParts(accounts: set<Account>, v: View, m: Merge, i: nat)
    requires Mergeable(accounts, v, m) && i < |m.s|
    ensures m.Suits(v)
    ensures m.pos <= |m.t| && m.s[i].account in accounts && m.s[i].kind == BuddyNode
    ensures m.source != m.target && m.target.kind == ContactNode && m.source.kind == ContactNode
    ensures m.g0 != m.target && m.g0 != m.source
    ensures m.s[i] != m.source && m.s[i] != m.target
  {
    assert m.s[i] in m.s;
  }

  /** The tree half way, read off the view. */
  lemma HalfMergedIs(v: View, m: Merge, i: nat)
    requires m.Suits(v) && i < |m.s|
    ensures var w := m.HalfMerged(v, i);
            && w.At(m.source) == m.s[i..] && m.s[i] in m.s[i..] && w.At(m.target) == m.Arrived(i)
            && m.source in w.kids && m.target in w.kids && m.s[i] in w.owner && w.live == v.live && m.s[i] in w.live
            && m.source in w.kids && w.owner == OwnerMoved(v.owner, m.s[..i], m.g)
    ensures m.Before(i) == null || (m.Before(i) in m.Arrived(i) && m.Before(i) != m.s[i])
  {
    assert m.s[i] in m.s;
    m.PlaceOf(i);
    if 0 < i {
      assert m.s[i - 1] != m.s[i];
    }
  }

  lemma ChildOf(list: BuddyList, c: Node, b: Node)
    requires Sound(list) && c in list.kids && c.kind == ContactNode && b in list.kids[c]
    ensures b.parent == c && list.Listed(b) && b.kind == BuddyNode && b in list.live && c in list.live
  {
    hide Sound, Coherent, Tabled, OwnedBut;
    SoundParts(list, null);
    assert BuddyTree.Fits(c, b);
  }

  lemma BeforeMergeOne(list: BuddyList, accounts: set<Account>, v: View, m: Merge, i: nat)
    requires Sound(list) && Mergeable(accounts, v, m) && i < |m.s|
    requires ViewOf(list) == m.HalfMerged(v, i) && list.caches.Keys == accounts
    requires m.source.parent == m.g0 && m.target.parent == m.g
    ensures m.pos <= |m.t| && m.source in list.live && m.target in list.live && m.source != m.s[i] && m.target != m.s[i]
    ensures m.source.kind != GroupNode && m.target.kind != GroupNode
    ensures m.s[i].parent == m.source && m.source != m.target && m.target.kind == ContactNode && m.s[i] in list.owner
    ensures m.g0 != m.target && m.g0 != m.source
    ensures CanAdd(list, m.s[i], m.target, null, m.Before(i)) && !Stays(m.s[i], m.target, m.Before(i))
    ensures !Undermines(m.s[i], m.target, m.Before(i))
    ensures m.Before(i) != null ==> m.Before(i).kind == BuddyNode && m.Before(i).parent == m.target
    ensures Distinct(list, m) && Quiet(list, v, m) ==> NoTwin(list, list.owner, m.s[i], m.g)
    ensures WithBuddy(ViewOf(list), m.g0, m.source, m.s[i], m.Before(i), m.target, m.g) == m.Stage(v, i + 1)
  {
    hide *;
    MergeableParts(accounts, v, m, i);
    HalfMergedIs(v, m, i);
    ViewIs(list, m.source);
    ViewIs(list, m.target);
    if Distinct(list, m) && Quiet(list, v, m) {
      NoTwinLater(list, accounts, v, m, i);
    }
    ChildOf(list, m.source, m.s[i]);
    ContactHome(list, m.target);
    IsLoose(list, m.s[i]);
    if m.Before(i) != null {
      ChildOf(list, m.target, m.Before(i));
    }
    CanAddBuddy(list, m.s[i], m.target, m.Before(i));
    StageIs(v, m, i + 1);
    if i + 1 < |m.s| {
      m.StepWithin(v, i);
    } else {
      m.StepLast(v, i);
    }
  }

  lemma StageIs(v: View, m: Merge, i: nat)
    requires i <= |m.s| && m.pos <= |m.t|
    ensures m.Stage(v, i) == if i < |m.s| then m.HalfMerged(v, i) else m.Done(v)
  {
  }

  lemma CanAddBuddy(list: BuddyList, b: Node, contact: Node, node: Node?)
    requires Loose(list, b) && contact in list.kids && contact.kind == ContactNode && b.parent != contact
    requires node != null ==> node != b && list.Listed(node) && node.kind == BuddyNode
    ensures CanAdd(list, b, contact, null, node) && !Stays(b, contact, node) && !Undermines(b, contact, node)
  {
  }

  /** What the first `i` buddies did to the counters: the target misses those that are early. */
  ghost predicate Drifted(list: BuddyList, drift: map<Node, int>, m: Merge, i: nat)
    requires i <= |m.s|
    reads list`connected, list`present
  {
    && OffAt(drift, m.target) + Earlies(list, m.s[..i]) == 0
    && (NoneEarly(list, Elements(m.s[..i])) ==> Exact(drift))
  }

  lemma DriftedAtFirst(list: BuddyList, drift: map<Node, int>, m: Merge)
    requires Exact(drift)
    ensures Drifted(list, drift, m, 0)
  {
    assert m.s[..0] == [];
  }

  /** One more buddy arrived. */
  lemma DriftedNext(list: BuddyList, drift: map<Node, int>, m: Merge, i: nat, last: bool)
    requires i < |m.s| && Drifted(list, drift, m, i) && m.target != m.source && m.target != m.g0 && m.g0 != m.source
    ensures Drifted(list, DriftPlaced(drift, m.g0, m.source, m.target, Early(list, m.s[i]), last), m, i + 1)
  {
    assert m.s[..i + 1] == m.s[..i] + [m.s[i]];
    CountConcat(m.s[..i], [m.s[i]], EarlyIn(list.connected, list.present));
    NoneEarlyNext(list, m.s, i);
    if NoneEarly(list, Elements(m.s[..i + 1])) {
      ExactlyPlaced(drift, m.g0, m.source, m.target, false, last);
    }
  }

  lemma NoneEarlyHere(list: BuddyList)
    ensures NoneEarly(list, Elements([]))
  {
  }

  lemma NoneEarlyNext(list: BuddyList, s: seq<Node>, i: nat)
    requires i < |s|
    ensures NoneEarly(list, Elements(s[..i + 1])) <==> NoneEarly(list, Elements(s[..i])) && !Early(list, s[i])
  {
    assert forall b :: b in s[..i + 1] <==> b in s[..i] || b == s[i];
  }

  /** All have arrived: the counters are exact if and only if none was early. */
  lemma DriftedAtLast(list: BuddyList, drift: map<Node, int>, m: Merge)
    requires Drifted(list, drift, m, |m.s|)
    ensures Exact(drift) <==> NoneEarly(list, Elements(m.s))
  {
    assert m.s[..|m.s|] == m.s;
    EarliesIs(list, m.s);
  }

  /** Names and tables when the first `i` buddies have arrived. */
  ghost predicate StillOrdered(list: BuddyList, d: Departure, m: Merge)
    reads list`kids, list`owner, list`live, list`gone, list`buddies, list`groupsCache
    reads list.owner.Keys`name, (set g | null in list.kids && g in list.kids[null])`name
    reads d.v.owner.Keys`name, (set b | b in m.s)`name
  {
    && OrderOf(list).AtLeast(d.order.(buddies := 1))
    && (d.order.buddies == 2 && Distinct(list, m) && Quiet(list, d.v, m) ==> OrderOf(list).buddies == 2)
  }

  /** Where the loop stands when the first `i` buddies have arrived. */
  ghost predicate Merging(list: BuddyList, accounts: set<Account>, d: Departure, m: Merge, i: nat)
    reads list, list.live, list.kids.Keys, list.owner.Keys, (set g | null in list.kids && g in list.kids[null])`name
    reads d.v.owner.Keys`name, (set b | b in m.s)`name, m.source`parent, m.target`parent, m.g0`destroyed
  {
    && Mergeable(accounts, d.v, m) && m.Suits(d.v) && m.pos <= |m.t| && i <= |m.s|
    && Sound(list) && list.caches.Keys == accounts && ViewOf(list) == m.Stage(d.v, i)
    && m.source.parent == m.g0 && m.target.parent == m.g
    && list.buddies == Table(list, d.buddies, m, i) && StillOrdered(list, d, m)
    && m.g0.destroyed == d.destroyed + (if 0 < i == |m.s| then 1 else 0)
    && (Exact(d.drift) ==> Drifted(list, list.drift, m, i))
  }

  lemma MergingIs(list: BuddyList, accounts: set<Account>, d: Departure, m: Merge, i: nat)
    ensures Merging(list, accounts, d, m, i) <==>
      && Mergeable(accounts, d.v, m) && m.Suits(d.v) && m.pos <= |m.t| && i <= |m.s|
      && Sound(list) && list.caches.Keys == accounts && ViewOf(list) == m.Stage(d.v, i)
      && m.source.parent == m.g0 && m.target.parent == m.g
      && list.buddies == Table(list, d.buddies, m, i) && StillOrdered(list, d, m)
      && m.g0.destroyed == d.destroyed + (if 0 < i == |m.s| then 1 else 0)
      && (Exact(d.drift) ==> Drifted(list, list.drift, m, i))
  {
  }

  /** One more buddy arrived: what became of names and tables. */
  lemma StaysOrderly(list: BuddyList, d: Departure, m: Merge, o: Order, named: bool, free: bool)
    requires Sound(list) && OrderOf(list).groups >= o.groups
    requires o.AtLeast(d.order.(buddies := 1)) && (o.named ==> named) && (o.named && named ==> OrderOf(list).named)
    requires d.order.buddies == 2 && Distinct(list, m) && Quiet(list, d.v, m) ==> o.buddies == 2 && free
    requires o.buddies == 2 ==> (OrderOf(list).buddies == 2 <==> free)
    ensures StillOrdered(list, d, m)
  {
    IsSound(list);
    hide OrderOf, Sound, Quiet, Distinct;
  }

  lemma StillOrderedIs(list: BuddyList, d: Departure, m: Merge)
    ensures StillOrdered(list, d, m) <==>
      && OrderOf(list).AtLeast(d.order.(buddies := 1))
      && (d.order.buddies == 2 && Distinct(list, m) && Quiet(list, d.v, m) ==> OrderOf(list).buddies == 2)
  {
  }

  lemma BuddyIsNamed(list: BuddyList, b: Node)
    requires b in list.owner
    ensures OrderOf(list).named ==> b.name != ""
  {
  }

  lemma LastArrives(m: Merge, v: View, i: nat)
    requires m.Suits(v) && i < |m.s|
    ensures m.HalfMerged(v, i).At(m.source) == [m.s[i]] <==> i + 1 == |m.s|
  {
    m.BuddyOfSource(v, i);
    assert m.HalfMerged(v, i).At(m.source) == m.s[i..];
  }

  /** One round of the loop. */
  method MergeOne(list: BuddyList, b: Node, target: Node, prev: Node?,
                  ghost accounts: set<Account>, ghost d: Departure, ghost m: Merge, ghost i: nat)
    requires Merging(list, accounts, d, m, i) && i < |m.s| && m.pos <= |m.t|
    requires b == m.s[i] && target == m.target && prev == m.Before(i)
    modifies list`root, list`gone, list`kids, list`live, list`buddies, list`caches, list`owner, list`drift,
      list`groupsCache
    modifies list.live`prev, list.live`next, list.live`parent, list.live`child, list.live`priorityValid
    modifies list.live`totalsize, list.live`currentsize, list.live`online, m.g0`destroyed
    ensures Merging(list, accounts, d, m, i + 1)
  {
    hide *;
    MergingIs(list, accounts, d, m, i);
    StageIs(d.v, m, i);
    BeforeMergeOne(list, accounts, d.v, m, i);
    LastArrives(m, d.v, i);
    TableIs(list, d.buddies, m, i);
    StillOrderedIs(list, d, m);
    BuddyIsNamed(list, b);
    DepartureIs(list, b);
    ghost var e, o, named, v := DepartureOf(list, b), OrderOf(list), b.name != "", d.v;
    ghost var quiet, distinct, free := Quiet(list, v, m), Distinct(list, m), NoTwin(list, list.owner, b, m.g);
    ViewIs(list, null);
    if Exact(d.drift) {
      DriftedNext(list, list.drift, m, i, ViewOf(list).At(b.parent) == [b]);
    }
    ghost var owner := d.v.owner;
    assert forall x :: x in owner ==> allocated(x);
    assert quiet == Quiet(list, v, m) && distinct == Distinct(list, m);
    ghost var c, g, broken := AddBuddy(list, b, target, null, prev);
    SettledIs(list, b, target, m.g, prev, e);
    WithBuddyIs(e.v, m.g0, m.source, b, prev, target, m.g);
    assert quiet == Quiet(list, v, m) && distinct == Distinct(list, m) && free == NoTwin(list, e.v.owner, b, m.g);
    StaysOrderly(list, d, m, o, named, free);
    TableIs(list, d.buddies, m, i);
    StageIs(d.v, m, i + 1);
    MergingIs(list, accounts, d, m, i + 1);
  }

  /** Where a merge into or beside `node` goes. */
  ghost function MergeOf(v: View, source: Node, g0: Node, target: Node, g: Node, node: Node): (m: Merge)
    ensures m.pos <= |m.t|
  {
    var t := v.At(target);
    Merge(source, g0, v.At(source), target, g, t, if node.kind == BuddyNode &&
        node in t then IndexOf(t, node) + 1 else |t|)
  }

  /** `node` says where to merge to: into a contact, or behind a buddy. */
  ghost predicate Target(list: BuddyList, node: Node, target: Node)
    reads list`kids, node`parent
  {
    && list.Listed(node) && target in list.kids && target.kind == ContactNode
    && if node.kind == ContactNode then target == node else node.kind == BuddyNode && node.parent == target
  }

  /** No buddy of `source` has a twin in the group `g`. */
  ghost predicate NoTwins(list: BuddyList, source: Node, g: Node)
    reads list`owner, list`kids, list.owner.Keys`name
    reads (set b | source in list.kids && b in list.kids[source])`name
  {
    forall b :: source in list.kids && b in list.kids[source] ==> NoTwin(list, list.owner, b, g)
  }

  /** Within one group there are no twins. */
  lemma NoTwinAtHome(list: BuddyList, b: Node, g: Node)
    requires Filed(list) && b in list.owner && list.owner[b] == g
    ensures NoTwin(list, list.owner, b, g)
  {
    FreeIsNoTwin(list, b, g);
    assert Keys(list)[b] == KeyOf(list, b, g);
  }

  lemma AssembleMerge(list: BuddyList, source: Node, target: Node, node: Node)
    requires source != target && source in list.kids && target in list.kids && list.gone == {}
    requires source.kind == ContactNode && target.kind == ContactNode && source.parent != null && target.parent != null
    requires Keeps(ViewOf(list), source.parent, source) && Keeps(ViewOf(list), target.parent, target)
    requires NoDup(list.kids[source]) && NoDup(list.kids[target])
    requires forall b :: b in list.kids[source] ==>
               b in list.owner && list.owner[b] == source.parent && b in list.live && b.kind == BuddyNode
    ensures MergeOf(ViewOf(list), source, source.parent, target, target.parent, node).Suits(ViewOf(list))
  {
    var m := MergeOf(ViewOf(list), source, source.parent, target, target.parent, node);
    hide NoDup, Lists.IndexOf;
    assert forall b :: b in m.s ==> b !in m.t;
  }

  lemma BuddiesLive(list: BuddyList, c: Node)
    requires Sound(list) && c in list.kids && c.kind == ContactNode
    ensures forall b :: b in list.kids[c] ==> b in list.live && b.kind == BuddyNode && b.account in list.caches
  {
    forall b | b in list.kids[c] ensures b in list.live && b.kind == BuddyNode && b.account in list.caches {
      ChildOf(list, c, b);
      OwnedBuddies(list, c);
      SoundParts(list, null);
      AccountsKnown(list, b);
    }
  }

  lemma MergeSuits(list: BuddyList, source: Node, target: Node, node: Node)
    requires Sound(list) && source in list.kids && source.kind == ContactNode && source != target
    requires target in list.kids && target.kind == ContactNode
    ensures source.parent != null && target.parent != null
    ensures MergeOf(ViewOf(list), source, source.parent, target, target.parent, node).Suits(ViewOf(list))
  {
    hide *;
    SoundParts(list, null);
    FamilyInView(list, source);
    FamilyInView(list, target);
    OwnedBuddies(list, source);
    BuddiesLive(list, source);
    AssembleMerge(list, source, target, node);
  }

  lemma BeforeMerge(list: BuddyList, source: Node, target: Node, node: Node)
    requires Sound(list) && source in list.kids && source.kind == ContactNode && source != target
    requires target in list.kids && target.kind == ContactNode && source.parent != null && target.parent != null
    ensures var v := ViewOf(list);
            var m := MergeOf(v, source, source.parent, target, target.parent, node);
            && Mergeable(list.caches.Keys, v, m)
            && (Filed(list) ==>
                  && Distinct(list, m)
                  && (Quiet(list, v, m) <==> source.parent == target.parent || NoTwins(list, source, target.parent)))
  {
    hide *;
    var v := ViewOf(list);
    var m := MergeOf(v, source, source.parent, target, target.parent, node);
    MergeSuits(list, source, target, node);
    SoundParts(list, null);
    OwnedBuddies(list, source);
    BuddiesLive(list, source);
    SuitsNoDup(v, m);
    ViewIs(list, source);
    MergeOfIs(v, source, source.parent, target, target.parent, node);
    if Filed(list) {
      NamesDifferIn(list, m.s, source.parent, m.g);
      DistinctIs(list, m);
      if source.parent == target.parent {
        forall b | b in m.s ensures NoTwin(list, list.owner, b, m.g) {
          NoTwinAtHome(list, b, m.g);
        }
      }
    }
    IsQuiet(list, v, m);
    NoTwinsIs(list, source, m.g);
    IsMergeable(list.caches.Keys, v, m);
  }

  lemma DistinctIs(list: BuddyList, m: Merge)
    ensures Distinct(list, m) <==>
      forall i, j :: 0 <= i < j < |m.s| ==> KeyOf(list, m.s[i], m.g) != KeyOf(list, m.s[j], m.g)
  {
  }

  lemma IsQuiet(list: BuddyList, v: View, m: Merge)
    ensures Quiet(list, v, m) <==> forall b :: b in m.s ==> NoTwin(list, v.owner, b, m.g)
  {
  }

  lemma MergeOfIs(v: View, source: Node, g0: Node, target: Node, g: Node, node: Node)
    ensures var m := MergeOf(v, source, g0, target, g, node);
            m.source == source && m.g0 == g0 && m.target == target && m.g == g && m.s == v.At(source) &&
                m.t == v.At(target)
  {
  }

  lemma SuitsNoDup(v: View, m: Merge)
    requires m.Suits(v)
    ensures NoDup(m.s) && m.pos <= |m.t|
  {
  }

  lemma NoTwinsIs(list: BuddyList, source: Node, g: Node)
    requires source in list.kids
    ensures NoTwins(list, source, g) <==> forall b :: b in list.kids[source] ==> NoTwin(list, list.owner, b, g)
  {
  }

  lemma IsMergeable(accounts: set<Account>, v: View, m: Merge)
    requires m.Suits(v) && forall b :: b in m.s ==> b.account in accounts
    ensures Mergeable(accounts, v, m)
  {
  }

  lemma HalfMergedStart(v: View, m: Merge)
    requires m.Suits(v)
    ensures m.pos <= |m.t| && m.HalfMerged(v, 0) == v
  {
    assert m.s[0..] == m.s && m.Arrived(0) == m.t;
    assert OwnerMoved(v.owner, m.s[..0], m.g) == v.owner;
    assert v.kids[m.source := m.s] == v.kids;
  }

  /** The next buddy to be merged, read off the pointers before it moves. */
  lemma NextToMerge(list: BuddyList, v: View, m: Merge, i: nat)
    requires Sound(list) && m.Suits(v) && i < |m.s| && ViewOf(list) == m.HalfMerged(v, i)
    ensures m.s[i].next == if i + 1 < |m.s| then m.s[i + 1] else null
  {
    hide *;
    HalfMergedIs(v, m, i);
    ViewIs(list, m.source);
    SoundParts(list, null);
    SuffixNext(list, m.source, m.s, i);
  }

  lemma SuffixNext(list: BuddyList, c: Node, s: seq<Node>, i: nat)
    requires list.Linked() && list.gone == {} && c in list.kids && i < |s| && list.kids[c] == s[i..]
    ensures s[i].next == if i + 1 < |s| then s[i + 1] else null
  {
    hide BuddyList.Linked;
    NextIs(list, c, 0);
  }

  /** The loop of `purple_blist_merge_contact`. */
  method MergeAll(list: BuddyList, source: Node, target: Node, first: Node?, ghost m: Merge, ghost d: Departure)
    requires Sound(list) && Mergeable(list.caches.Keys, d.v, m) && m.Suits(d.v) && d == Leaving(list, source)
    requires m.pos <= |m.t| && source == m.source && target == m.target && first == m.Before(0) && m.s != []
    requires source.child == m.s[0] && source.parent == m.g0 && target.parent == m.g
    modifies list`root, list`gone, list`kids, list`live, list`buddies, list`caches, list`owner, list`drift,
      list`groupsCache
    modifies list.live`prev, list.live`next, list.live`parent, list.live`child, list.live`priorityValid
    modifies list.live`totalsize, list.live`currentsize, list.live`online, m.g0`destroyed
    ensures Merging(list, old(list.caches).Keys, d, m, |m.s|)
  {
    hide *;
    ghost var accounts, i := list.caches.Keys, 0;
    LeavingIs(list, source);
    IsSound(list);
    ViewIs(list, source);
    HalfMergedStart(d.v, m);
    StageIs(d.v, m, 0);
    TableIs(list, d.buddies, m, 0);
    StillOrderedIs(list, d, m);
    AtLeastIs(d.order, d.order.(buddies := 1));
    if Exact(d.drift) {
      DriftedAtFirst(list, list.drift, m);
    }
    MergingIs(list, accounts, d, m, 0);
    var prev := first;
    var next := source.child;
    while next != null
      invariant i <= |m.s| && next == (if i < |m.s| then m.s[i] else null) && prev == m.Before(i)
      invariant Merging(list, accounts, d, m, i) && list.live <= old(list.live)
      decreases |m.s| - i
    {
      MergingIs(list, accounts, d, m, i);
      StageIs(d.v, m, i);
      NextToMerge(list, d.v, m, i);
      BeforeIs(m, i);
      var cur := next;
      next := cur.next;
      assert Merging(list, accounts, d, m, i);
      MergeOne(list, cur, target, prev, accounts, d, m, i);
      prev := cur;
      i := i + 1;
      MergingIs(list, accounts, d, m, i);
      StageLives(list, d.v, m, i);
    }
  }

  lemma StageLives(list: BuddyList, v: View, m: Merge, i: nat)
    requires i <= |m.s| && m.pos <= |m.t| && ViewOf(list) == m.Stage(v, i)
    ensures list.live <= v.live
  {
  }

  lemma BeforeIs(m: Merge, i: nat)
    requires i < |m.s| && m.pos <= |m.t|
    ensures m.Before(i + 1) == m.s[i]
  {
  }

  /** The contact that `node` is or belongs to. */
  ghost function TargetOf(node: Node): (t: Node?)
    reads node`parent
  {
    if node.kind == ContactNode then node else if node.kind == BuddyNode then node.parent else null
  }

  lemma TargetIs(list: BuddyList, node: Node)
    requires Sound(list) && list.Listed(node)
    ensures node.kind == ContactNode ==> TargetOf(node) == node && node in list.kids
    ensures node.kind == BuddyNode ==> TargetOf(node) == node.parent
    ensures node.kind != ContactNode && node.kind != BuddyNode ==> TargetOf(node) == null
    ensures var t := TargetOf(node);
            t != null ==>
              && t in list.kids && t.kind == ContactNode && t.parent != null
              && (node.kind == BuddyNode ==> node in list.kids[t])
    ensures node.kind == BuddyNode ==> TargetOf(node) != null
  {
    hide Coherent, Tabled, OwnedBut;
    SoundParts(list, null);
    if node.kind == ContactNode {
      assert BuddyTree.Fits(node.parent, node);
      FamilyOf(list, node);
    } else if node.kind == BuddyNode {
      ParentKind(list, node);
    }
  }

  lemma FirstPlace(v: View, source: Node, g0: Node, target: Node, g: Node, node: Node)
    requires target in v.kids && (if node.kind == BuddyNode then node in v.kids[target] else node == target)
    requires node.kind == BuddyNode || node.kind == ContactNode
    ensures var m := MergeOf(v, source, g0, target, g, node);
            m.pos <= |m.t| && m.Before(0) == if node.kind == BuddyNode then node else Last(m.t)
  {
  }

  lemma FirstBuddy(list: BuddyList, c: Node)
    requires Sound(list) && c in list.kids && c.kind == ContactNode
    ensures c.child == if ViewOf(list).At(c) == [] then null else ViewOf(list).At(c)[0]
  {
    FirstOf(list, c);
  }

  /** `purple_blist_merge_contact`: the buddies of `source` go, in order, to the
      end of the contact `node` or behind the buddy `node`, and `source` is gone.
      The table of buddies stays right exactly when no name was taken in the group. */
  method MergeContact(list: BuddyList, source: Node, node: Node)
    requires Sound(list) && source in list.kids && source.kind == ContactNode && source.parent != null
    requires list.Listed(node)
    requires TargetOf(node) != null ==> TargetOf(node).parent != null
    modifies list`root, list`gone, list`kids, list`live, list`buddies, list`caches, list`owner, list`drift,
      list`groupsCache
    modifies list.live`prev, list.live`next, list.live`parent, list.live`child, list.live`priorityValid
    modifies list.live`totalsize, list.live`currentsize, list.live`online, source.parent`destroyed
    ensures list.caches.Keys == old(list.caches).Keys
    ensures var v, target, g0 := old(ViewOf(list)), old(TargetOf(node)), old(source.parent);
            if target == null || target == source || v.At(source) == [] then
              ViewOf(list) == v && list.buddies == old(list.buddies) && OrderOf(list) == old(OrderOf(list)) &&
              g0.destroyed == old(g0.destroyed) && list.drift == old(list.drift)
            else
              var m := MergeOf(v, source, g0, target, old(target.parent), node);
              && ViewOf(list) == m.Done(v)
              && list.buddies == Table(list, old(list.buddies), m, |m.s|)
              && g0.destroyed == old(g0.destroyed) + 1
    ensures old(Exact(list.drift)) ==>
      (Exact(list.drift) <==>
       old(TargetOf(node) == null || TargetOf(node) == source || NoneEarly(list, Elements(ViewOf(list).At(source)))))
    ensures OrderOf(list).AtLeast(old(OrderOf(list)).(buddies := 1))
    ensures old(OrderOf(list)).buddies == 2 ==>
      (OrderOf(list).buddies == 2 <==>
       old(TargetOf(node) == null || TargetOf(node) == source || source.parent == TargetOf(node).parent
           || NoTwins(list, source, TargetOf(node).parent)))
    ensures Sound(list)
  {
    hide *;
    TargetIs(list, node);
    IsSound(list);
    ghost var d := Leaving(list, source);
    LeavingIs(list, source);
    AtLeastIs(OrderOf(list), OrderOf(list).(buddies := 1));
    var target: Node;
    var prev: Node?;
    if node.kind == ContactNode {
      target := node;
      prev := LastChild(list, node);
    } else if node.kind == BuddyNode {
      target := node.parent;
      prev := node;
    } else {
      return;
    }
    if source == target {
      return;
    }
    ghost var v := ViewOf(list);
    ghost var m := MergeOf(v, source, source.parent, target, target.parent, node);
    MergeSuits(list, source, target, node);
    BeforeMerge(list, source, target, node);
    MergeOfIs(v, source, source.parent, target, target.parent, node);
    ViewIs(list, target);
    ViewIs(list, source);
    FirstPlace(v, source, source.parent, target, target.parent, node);
    FirstBuddy(list, source);
    TrustIs(list);
    IsQuiet(list, v, m);
    NoneEarlyHere(list);
    if source.child != null {
      ghost var quiet, distinct := Quiet(list, v, m), Distinct(list, m);
      MergeAll(list, source, target, prev, m, d);
      assert quiet == Quiet(list, v, m) && distinct == Distinct(list, m);
      AfterMerge(list, old(list.caches).Keys, d, m);
    }
  }

  /** What the loop comes to. */
  lemma AfterMerge(list: BuddyList, accounts: set<Account>, d: Departure, m: Merge)
    requires Merging(list, accounts, d, m, |m.s|) && m.s != []
    ensures Sound(list) && OrderOf(list).AtLeast(d.order.(buddies := 1)) && list.caches.Keys == accounts
    ensures m.pos <= |m.t| && ViewOf(list) == m.Done(d.v) && list.buddies == Table(list, d.buddies, m, |m.s|)
    ensures m.g0.destroyed == d.destroyed + 1
    ensures Exact(d.drift) ==> (Exact(list.drift) <==> NoneEarly(list, Elements(m.s)))
    ensures d.order.buddies == 2 && Distinct(list, m) && (Quiet(list, d.v, m) || m.g0 != m.g) ==>
      (OrderOf(list).buddies == 2 <==> Quiet(list, d.v, m))
  {
    hide *;
    MergingIs(list, accounts, d, m, |m.s|);
    StageIs(d.v, m, |m.s|);
    StillOrderedIs(list, d, m);
    DoneOwner(d.v, m);
    ViewIs(list, null);
    OrderIs(list);
    TrustIs(list);
    if !Quiet(list, d.v, m) && m.g0 != m.g {
      TwinSpoils(list, accounts, d.v, m);
    }
    if Exact(d.drift) {
      DriftedAtLast(list, list.drift, m);
    }
  }

  lemma DoneOwner(v: View, m: Merge)
    requires m.pos <= |m.t|
    ensures m.Done(v).owner == OwnerMoved(v.owner, m.s, m.g)
  {
  }

  lemma BeforeRename(list: BuddyList, b: Node)
    requires Sound(list) && list.Listed(b) && b.kind == BuddyNode
    ensures b.parent != null && b.parent.parent != null && b in list.owner && list.owner[b] == b.parent.parent
    ensures Coherent(list) && Cached(list) && b.account in list.caches
    ensures Homed(list, b, b.parent.parent) && list.gone == {}
    ensures Owned(ViewOf(list)) && Ordered(list, ViewOf(list), OrderOf(list)) && b !in ViewOf(list).At(null)
    ensures ViewOf(list) == View(list.kids, list.owner, list.live, {})
  {
    hide *;
    SoundParts(list, null);
    ParentKind(list, b);
    OnFile(list, b);
    AccountsKnown(list, b);
    HomedIs(list, b, b.parent.parent);
    IsSound(list);
    IsOrdered(list);
    NotOnTop(list, b);
  }

  lemma NotOnTop(list: BuddyList, b: Node)
    requires Shaped(list.kids) && b.kind == BuddyNode
    ensures b !in ViewOf(list).At(null)
  {
    assert forall n :: n in list.kids[null] ==> BuddyTree.Fits(null, n);
  }

  lemma OnFile(list: BuddyList, b: Node)
    requires Sound(list) && list.Listed(b) && b.kind == BuddyNode && b.parent != null && b.parent.kind == ContactNode
    ensures b in list.owner && list.owner[b] == b.parent.parent
  {
    OwnedBuddies(list, b.parent);
  }

  lemma HomedIs(list: BuddyList, b: Node, g: Node)
    requires b in list.owner && list.owner[b] == g
    ensures Homed(list, b, g)
  {
  }

  lemma AfterRename(list: BuddyList, b: Node, o: Order)
    requires Tree(list) && Ranked(list) && Cached(list) && list.gone == {} && b in list.owner
    requires o.named ==> forall x :: x in list.owner && x != b ==> x.name != ""
    requires Owned(ViewOf(list)) && Tabled(ViewOf(list), list.caches.Keys) && Trust(list) >= 1
    requires TableTrust(list, list.groupsCache, ViewOf(list).At(null)) == o.groups >= 1
    ensures Sound(list) && OrderOf(list).groups == o.groups && OrderOf(list).buddies == Trust(list)
    ensures o.named ==> (OrderOf(list).named <==> b.name != "")
  {
    if o.named {
      NamedIs(list, b);
    }
    hide *;
    CoherentParts(list);
    OrderIs(list);
    IsSound(list);
  }

  lemma NamedIs(list: BuddyList, b: Node)
    requires b in list.owner && forall x :: x in list.owner && x != b ==> x.name != ""
    ensures Named(list, ViewOf(list)) <==> b.name != ""
  {
  }

  lemma FreeLater(list: BuddyList, owner: map<Node, Node>, buddies: map<Key, Node>, b: Node, g: Node)
    requires OneToOne(map x | x in owner :: KeyOf(list, x, owner[x]), buddies) && b !in owner
    ensures KeyOf(list, b, g) !in buddies <==> NoTwin(list, owner[b := g], b, g)
    ensures KeyOf(list, b, g) in buddies ==> buddies[KeyOf(list, b, g)] != b
  {
    var keys := map x | x in owner :: KeyOf(list, x, owner[x]);
    var k := KeyOf(list, b, g);
    if k in buddies {
      var y := buddies[k];
      assert y in keys && keys[y] == k && y in owner[b := g];
    } else {
      forall x | x in owner ensures KeyOf(list, x, owner[x]) != k {
        assert x in keys && keys[x] == KeyOf(list, x, owner[x]) && keys[x] in buddies;
      }
    }
  }

  /** The file entry of `b` gets a new name. */
  method RenameOnFile(list: BuddyList, b: Node, name: string, g: Node)
    requires Trust(list) >= 1 && Cached(list) && Homed(list, b, g) && b in list.owner && list.owner[b] == g &&
      b.account in list.caches
    modifies list`buddies, list`caches, list`owner, b`name
    ensures b.name == name && list.owner == old(list.owner) && list.caches.Keys == old(list.caches).Keys && Cached(list)
    ensures Trust(list) >= 1 && (old(Trust(list)) == 2 ==> (Trust(list) == 2 <==> NoTwin(list, list.owner, b, g)))
    ensures list.buddies == (old(list.buddies) - {old(KeyOf(list, b, g))})[KeyOf(list, b, g) := b]
  {
    hide *;
    ghost var owner := list.owner;
    Unfile(list, b, g);
    ghost var trust := Trust(list);
    b.name := name;
    TrustIs(list);
    FiledIs(list);
    if trust == 2 {
      FreeLater(list, list.owner, list.buddies, b, g);
    }
    File(list, b, g);
    SameView(list, owner, b, g);
  }

  /** No other buddy of its group has the account and name of `b`. */
  ghost predicate Unrivalled(list: BuddyList, b: Node)
    reads list`owner, list.owner.Keys`name, b`name, b`parent, (if b.parent == null then {} else {b.parent})`parent
  {
    GroupOf(b) != null ==> NoTwin(list, list.owner, b, GroupOf(b))
  }

  lemma UnrivalledIs(list: BuddyList, b: Node, g: Node)
    requires GroupOf(b) == g
    ensures Unrivalled(list, b) <==> NoTwin(list, list.owner, b, g)
  {
  }

  /** `purple_blist_rename_buddy`. All is well afterwards exactly when no other
      buddy of the group has the account and the new name. */
  method RenameBuddy(list: BuddyList, b: Node, name: string)
    requires Sound(list) && list.Listed(b) && b.kind == BuddyNode && b.parent != null && b.parent.parent != null
    modifies list`buddies, list`caches, list`owner, b`name
    ensures b.name == name && list.caches.Keys == old(list.caches).Keys
    ensures ViewOf(list) == old(ViewOf(list))
    ensures list.buddies == (old(list.buddies) - {old(KeyOf(list, b, GroupOf(b)))})[KeyOf(list, b, GroupOf(b)) := b]
    ensures OrderOf(list).groups == old(OrderOf(list)).groups
    ensures old(OrderOf(list)).named ==> (OrderOf(list).named <==> name != "")
    ensures old(OrderOf(list)).buddies == 2 ==>
      (OrderOf(list).buddies == 2 <==> Unrivalled(list, b))
    ensures Sound(list)
  {
    hide *;
    BeforeRename(list, b);
    CoherentParts(list);
    var g := b.parent.parent;
    RenameIn(list, b, name, g, OrderOf(list));
    UnrivalledIs(list, b, g);
  }

  /** The same for a buddy known to be in the group `g`. */
  method RenameIn(list: BuddyList, b: Node, name: string, g: Node, ghost o: Order)
    requires Tree(list) && Ranked(list) && Cached(list) && list.gone == {} && Owned(ViewOf(list))
    requires b in list.owner && list.owner[b] == g && Homed(list, b, g) && b.account in list.caches
    requires b !in ViewOf(list).At(null) && Ordered(list, ViewOf(list), o)
    modifies list`buddies, list`caches, list`owner, b`name
    ensures b.name == name && list.caches.Keys == old(list.caches).Keys
    ensures ViewOf(list) == old(ViewOf(list))
    ensures list.buddies == (old(list.buddies) - {old(KeyOf(list, b, g))})[KeyOf(list, b, g) := b]
    ensures OrderOf(list).groups == o.groups && (o.named ==> (OrderOf(list).named <==> name != ""))
    ensures o.buddies == 2 ==> (OrderOf(list).buddies == 2 <==> NoTwin(list, list.owner, b, g))
    ensures Sound(list)
  {
    hide *;
    ViewIs(list, null);
    ghost var v := ViewOf(list);
    OrderedIs(list, v, o);
    if o.named {
      NamesIn(list, b);
    }
    assert TableTrust(list, list.groupsCache, v.At(null)) == o.groups;
    RenameOnFile(list, b, name, g);
    ViewIs(list, null);
    assert TableTrust(list, list.groupsCache, v.At(null)) == o.groups;
    AfterRename(list, b, o);
  }

  lemma NamesIn(list: BuddyList, b: Node)
    requires Named(list, ViewOf(list))
    ensures forall x :: x in list.owner && x != b ==> x.name != ""
  {
  }

  lemma FiledIs(list: BuddyList)
    ensures Filed(list) <==> OneToOne(map x | x in list.owner :: KeyOf(list, x, list.owner[x]), list.buddies)
  {
  }

  lemma SameView(list: BuddyList, owner: map<Node, Node>, b: Node, g: Node)
    requires b in owner && owner[b] == g && list.owner == (owner - {b})[b := g]
    ensures list.owner == owner
  {
  }
}
