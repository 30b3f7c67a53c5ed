/** The two hash tables of buddies.
    Most bodies below hide every definition; the short lemmas called `...Is` and
    `...Parts` give back the single definition that a step needs. */
module BuddyIndex {
  import opened BuddyTree

  function KeyOf(list: BuddyList, b: Node, g: Node?): (k: Key)
    reads b`name
  {
    Key(b.account, list.normalize(b.account, b.name), g)
  }

  /** The entries of one account. */
  ghost function OfAccount(buddies: map<Key, Node>, a: Account): map<Key, Node> {
    map k | k in buddies && k.account == a :: buddies[k]
  }

  lemma OfAccountMinus(buddies: map<Key, Node>, k: Key, a: Account)
    ensures OfAccount(buddies - {k}, a) == if k.account == a then OfAccount(buddies, a) - {k} else OfAccount(buddies, a)
  {
  }

  lemma OfAccountPlus(buddies: map<Key, Node>, k: Key, b: Node, a: Account)
    ensures OfAccount(buddies[k := b], a) == if k.account == a then OfAccount(buddies, a)[k := b]
      else OfAccount(buddies, a)
  {
  }

  /** Every entry of the table leads to a buddy that has this key. */
  ghost predicate Leads(keys: map<Node, Key>, buddies: map<Key, Node>) {
    forall k :: k in buddies ==> buddies[k] in keys && keys[buddies[k]] == k
  }

  /** A table with exactly one entry for every buddy, under the key of that buddy. */
  ghost predicate OneToOne(keys: map<Node, Key>, buddies: map<Key, Node>) {
    Leads(keys, buddies) && forall b :: b in keys ==> keys[b] in buddies && buddies[keys[b]] == b
  }

  lemma OneToOneMinus(keys: map<Node, Key>, buddies: map<Key, Node>, b: Node, k: Key)
    requires OneToOne(keys, buddies)
    requires if b in keys then keys[b] == k else k !in buddies
    ensures OneToOne(keys - {b}, buddies - {k})
  {
  }

  lemma LeadsMinus(keys: map<Node, Key>, buddies: map<Key, Node>, b: Node, k: Key)
    requires Leads(keys, buddies)
    requires if b in keys then keys[b] == k else k !in buddies
    ensures Leads(keys - {b}, buddies - {k})
  {
  }

  lemma LeadsPlus(keys: map<Node, Key>, buddies: map<Key, Node>, b: Node, k: Key)
    requires Leads(keys, buddies)
    requires b in keys ==> keys[b] == k
    ensures Leads(keys[b := k], buddies[k := b])
  {
  }

  /** Entering a buddy keeps a table one-to-one exactly when its key was free or its own. */
  lemma OneToOnePlus(keys: map<Node, Key>, buddies: map<Key, Node>, b: Node, k: Key)
    requires OneToOne(keys, buddies)
    requires b in keys ==> keys[b] == k
    ensures OneToOne(keys[b := k], buddies[k := b]) <==> (k in buddies ==> buddies[k] == b)
  {
    if k in buddies && buddies[k] != b {
      assert keys[b := k][buddies[k]] == k;
    }
  }

  /** The keys of the buddies on file. */
  ghost function Keys(list: BuddyList): map<Node, Key>
    reads list`owner, list.owner.Keys`name
  {
    map b | b in list.owner :: KeyOf(list, b, list.owner[b])
  }

  /** The table has exactly one entry for every buddy on file, under its account, name and group. */
  ghost predicate Filed(list: BuddyList)
    reads list`buddies, list`owner, list.owner.Keys`name
  {
    OneToOne(Keys(list), list.buddies)
  }

  /** How far the table can be trusted: 1 when every entry leads to a buddy on file that
      has this key, and 2 when every buddy on file has its entry, too. */
  ghost function Trust(list: BuddyList): (t: nat)
    reads list`buddies, list`owner, list.owner.Keys`name
    ensures t <= 2
  {
    if Filed(list) then 2 else if Leads(Keys(list), list.buddies) then 1 else 0
  }

  lemma TrustIs(list: BuddyList)
    ensures Filed(list) <==> Trust(list) == 2
    ensures Leads(Keys(list), list.buddies) <==> Trust(list) >= 1
    ensures Filed(list) <==> OneToOne(Keys(list), list.buddies)
  {
  }

  /** The per-account tables are the parts of the table. */
  ghost predicate Cached(list: BuddyList)
    reads list`buddies, list`caches
  {
    && (forall a :: a in list.caches ==> list.caches[a] == OfAccount(list.buddies, a))
    && (forall k :: k in list.buddies ==> k.account in list.caches)
  }

  /** Removes the entry `k` from both tables. */
  method RemoveKey(list: BuddyList, k: Key)
    requires Cached(list)
    modifies list`buddies, list`caches
    ensures Cached(list) && list.buddies == old(list.buddies) - {k} && list.caches.Keys == old(list.caches).Keys
  {
    forall a { OfAccountMinus(list.buddies, k, a); }
    hide OfAccount;
    list.buddies := list.buddies - {k};
    if k.account in list.caches {
      list.caches := list.caches[k.account := list.caches[k.account] - {k}];
    }
  }

  /** Enters `b` under `k` in both tables, in place of what was there. */
  method ReplaceKey(list: BuddyList, k: Key, b: Node)
    requires Cached(list) && k.account in list.caches
    modifies list`buddies, list`caches
    ensures Cached(list) && list.buddies == old(list.buddies)[k := b] && list.caches.Keys == old(list.caches).Keys
  {
    forall a { OfAccountPlus(list.buddies, k, b, a); }
    hide OfAccount;
    list.buddies := list.buddies[k := b];
    list.caches := list.caches[k.account := list.caches[k.account][k := b]];
  }

  /** `b` can be taken off the file of `g`: it is filed there, or its entry is gone already. */
  ghost predicate Homed(list: BuddyList, b: Node, g: Node)
    reads list`buddies, list`owner, b`name
  {
    if b in list.owner then list.owner[b] == g else KeyOf(list, b, g) !in list.buddies
  }

  /** Takes `b` off the file of the group `g`. */
  method Unfile(list: BuddyList, b: Node, g: Node)
    requires Cached(list)
    modifies list`buddies, list`caches, list`owner
    ensures Cached(list) && list.caches.Keys == old(list.caches).Keys
    ensures list.owner == old(list.owner) - {b} && list.buddies == old(list.buddies) - {KeyOf(list, b, g)}
    ensures old(Homed(list, b, g)) ==> Trust(list) >= old(Trust(list))
  {
    hide *;
    ghost var keys, buddies, owner := Keys(list), list.buddies, list.owner;
    HomedKey(list, b, g);
    TrustIs(list);
    RemoveKey(list, KeyOf(list, b, g));
    list.owner := list.owner - {b};
    KeysMinus(list, owner, keys, b);
    if if b in keys then keys[b] == KeyOf(list, b, g) else KeyOf(list, b, g) !in buddies {
      if OneToOne(keys, buddies) {
        OneToOneMinus(keys, buddies, b, KeyOf(list, b, g));
      }
      if Leads(keys, buddies) {
        LeadsMinus(keys, buddies, b, KeyOf(list, b, g));
      }
    }
    TrustIs(list);
  }

  lemma HomedKey(list: BuddyList, b: Node, g: Node)
    ensures Homed(list, b, g) ==> if b in Keys(list) then Keys(list)[b] == KeyOf(list, b, g)
      else KeyOf(list, b, g) !in list.buddies
    ensures Keys(list) == map x | x in list.owner :: KeyOf(list, x, list.owner[x])
  {
  }

  lemma KeysMinus(list: BuddyList, owner: map<Node, Node>, keys: map<Node, Key>, b: Node)
    requires list.owner == owner - {b} && keys == map x | x in owner :: KeyOf(list, x, owner[x])
    ensures Keys(list) == keys - {b}
  {
  }

  lemma KeysPlus(list: BuddyList, owner: map<Node, Node>, keys: map<Node, Key>, b: Node, g: Node)
    requires list.owner == owner[b := g] && keys == map x | x in owner :: KeyOf(list, x, owner[x])
    ensures Keys(list) == keys[b := KeyOf(list, b, g)]
  {
  }

  /** Files `b` under the group `g`. A table that was right stays right exactly
      when no other buddy had the same account and name in that group. */
  method File(list: BuddyList, b: Node, g: Node)
    requires Cached(list) && b.account in list.caches
    requires b in list.owner ==> list.owner[b] == g
    modifies list`buddies, list`caches, list`owner
    ensures Cached(list) && list.caches.Keys == old(list.caches).Keys
    ensures list.owner == old(list.owner)[b := g] && list.buddies == old(list.buddies)[KeyOf(list, b, g) := b]
    ensures old(Trust(list)) == 2 ==>
      (Trust(list) == 2 <==> (KeyOf(list, b, g) in old(list.buddies) ==> old(list.buddies)[KeyOf(list, b, g)] == b))
    ensures old(Trust(list)) >= 1 ==> Trust(list) >= 1
  {
    hide *;
    var k := KeyOf(list, b, g);
    ghost var keys, buddies, owner := Keys(list), list.buddies, list.owner;
    HomedKey(list, b, g);
    KeyOfOwner(list, b, g);
    TrustIs(list);
    ReplaceKey(list, k, b);
    list.owner := list.owner[b := g];
    KeysPlus(list, owner, keys, b, g);
    if OneToOne(keys, buddies) {
      OneToOnePlus(keys, buddies, b, k);
    }
    if Leads(keys, buddies) {
      LeadsPlus(keys, buddies, b, k);
    }
    TrustIs(list);
  }

  lemma KeyOfOwner(list: BuddyList, b: Node, g: Node)
    requires b in list.owner ==> list.owner[b] == g
    ensures b in Keys(list) ==> Keys(list)[b] == KeyOf(list, b, g)
    ensures KeyOf(list, b, g).account == b.account
  {
  }

  /** What the table holds for a name is the filed buddy with that name, or nothing when there is none. */
  lemma LookupIsSearch(list: BuddyList, k: Key, b: Node)
    requires Filed(list)
    ensures k in list.buddies && list.buddies[k] == b
       <==> b in list.owner && KeyOf(list, b, list.owner[b]) == k
  {
    if b in list.owner {
      assert Keys(list)[b] == KeyOf(list, b, list.owner[b]);
    } else {
      assert b !in Keys(list);
    }
  }
}
