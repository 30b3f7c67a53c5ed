/** `purple_accounts_reorder`, and the keys of the account list that use it. */
module Accounts {
  import opened Lists

  /** `s` with `x` taken out and put in at position `to`, which counts as if `x` were still there. */
  function Reordered<T(==)>(s: seq<T>, x: T, to: nat): (r: seq<T>)
    requires x in s && to <= |s|
    ensures |r| == |s|
  {
    var i := IndexOf(s, x);
    InsertAt(Minus(s, x), if to > i then to - 1 else to, x)
  }

  datatype Key = Up | Down

  /** How far the callback asks to move the account. */
  function Move(key: Key): int {
    match key
    case Up => -1
    case Down => 2
  }

  /** The index the callback asks for, for an account at the index `i` of `n`, or -1. */
  function Target(i: int, n: nat, key: Key): (to: nat)
    requires -1 <= i < n
    ensures to <= n
  {
    (Move(key) + i + n + 1) % (n + 1)
  }

  /** The list after a key was pressed on the account `x`. */
  function Pressed<T(==)>(s: seq<T>, x: T, key: Key): (r: seq<T>)
    requires x in s
    ensures |r| == |s|
  {
    Reordered(s, x, Target(IndexOf(s, x), |s|, key))
  }

  /** One position further down, or up, around the end of `n` positions. */
  function NextAround(i: nat, n: nat, key: Key): nat
    requires i < n
  {
    match key
    case Up => if i == 0 then n - 1 else i - 1
    case Down => if i == n - 1 then 0 else i + 1
  }

  /** Pressing the key `times` times. */
  function PressedTimes<T(==)>(s: seq<T>, x: T, key: Key, times: nat): (r: seq<T>)
    requires x in s
    ensures |r| == |s|
    decreases times
  {
    if times == 0 then s else
    var t := Pressed(s, x, key);
    PressedStays(s, x, key);
    PressedTimes(t, x, key, times - 1)
  }

  lemma PressedStays<T>(s: seq<T>, x: T, key: Key)
    requires x in s
    ensures x in Pressed(s, x, key)
  {
    var to := Target(IndexOf(s, x), |s|, key);
    hide Target, Minus, IndexOf;
    var at := if to > IndexOf(s, x) then to - 1 else to;
    assert InsertAt(Minus(s, x), at, x)[at] == x;
  }

  /** The index arithmetic of the callback, undone by that of the reordering. */
  lemma KeyIndex(i: nat, n: nat, key: Key)
    requires i < n
    ensures var to := Target(i, n, key);
            (if to > i then to - 1 else to) == NextAround(i, n, key)
  {
    var m := n + 1;
    if key == Up && i == 0 {
      Wrap(n, 0, m);
    } else if key == Up {
      Wrap(i - 1, 1, m);
    } else if i + 2 <= n {
      Wrap(i + 2, 1, m);
    } else {
      Wrap(0, 2, m);
    }
  }

  lemma Wrap(a: nat, k: nat, m: nat)
    requires a < m && k <= 2
    ensures (a + k * m) % m == a
  {
    if k == 1 {
      assert (a + m) / m == 1;
    } else if k == 2 {
      assert (a + 2 * m) / m == 2;
    }
  }

  /** What is taken out again is what was put in. */
  lemma MinusInsert<T>(s: seq<T>, i: nat, x: T)
    requires x !in s && i <= |s|
    ensures Minus(InsertAt(s, i, x), x) == s && x in InsertAt(s, i, x) && IndexOf(InsertAt(s, i, x), x) == i
  {
    var r := InsertAt(s, i, x);
    assert r == s[..i] + [x] + s[i..];
    MinusMiddle(s[..i], x, s[i..]);
    assert s == s[..i] + s[i..];
    assert r[..i] == s[..i];
    IndexOfIs(r, x, i);
  }

  lemma InsertBetween<T>(a: seq<T>, x: T, b: seq<T>)
    ensures InsertAt(a + b, |a|, x) == a + [x] + b
  {
    assert (a + b)[..|a|] == a && (a + b)[|a|..] == b;
  }

  lemma InsertMinus<T>(s: seq<T>, x: T)
    requires x in s
    ensures InsertAt(Minus(s, x), IndexOf(s, x), x) == s
  {
    var i, a, b := IndexOf(s, x), s[..IndexOf(s, x)], s[IndexOf(s, x) + 1..];
    assert Minus(s, x) == a + b;
    hide *;
    assert s == a + [x] + b;
    InsertBetween(a, x, b);
  }

  /** A key moves the account by one position, around the ends, and leaves the order of the others alone. */
  lemma PressedIs<T>(s: seq<T>, x: T, key: Key)
    requires NoDup(s) && x in s
    ensures var r := Pressed(s, x, key);
            && x in r && NoDup(r) && Minus(r, x) == Minus(s, x)
            && IndexOf(r, x) == NextAround(IndexOf(s, x), |s|, key)
  {
    KeyIndex(IndexOf(s, x), |s|, key);
    hide Target, NoDup, NextAround, Minus, InsertAt, IndexOf;
    MinusIsDistinct(s, x);
    MinusInsert(Minus(s, x), NextAround(IndexOf(s, x), |s|, key), x);
    InsertIsDistinct(Minus(s, x), NextAround(IndexOf(s, x), |s|, key), x);
  }

  /** A list is determined by where an account is and by the order of the others. */
  lemma SameList<T>(s: seq<T>, t: seq<T>, x: T)
    requires x in s && x in t && IndexOf(s, x) == IndexOf(t, x) && Minus(s, x) == Minus(t, x)
    ensures s == t
  {
    InsertMinus(s, x);
    InsertMinus(t, x);
  }

  function Other(key: Key): Key {
    if key == Up then Down else Up
  }

  /** The two keys undo each other. */
  lemma KeysAreInverse<T>(s: seq<T>, x: T, key: Key)
    requires NoDup(s) && x in s
    ensures x in Pressed(s, x, key) && Pressed(Pressed(s, x, key), x, Other(key)) == s
  {
    PressedIs(s, x, key);
    PressedIs(Pressed(s, x, key), x, Other(key));
    SameList(Pressed(Pressed(s, x, key), x, Other(key)), s, x);
  }

  lemma {:induction false} PressedTimesIs<T>(s: seq<T>, x: T, key: Key, times: nat)
    requires NoDup(s) && x in s && times <= |s|
    ensures var r, i, n := PressedTimes(s, x, key, times), IndexOf(s, x), |s|;
            && x in r && Minus(r, x) == Minus(s, x)
            && IndexOf(r, x) == match key
                                case Up => if times <= i then i - times else i + n - times
                                case Down => if i + times < n then i + times else i + times - n
    decreases times
  {
    hide Pressed, NoDup, Minus, IndexOf;
    if times > 0 {
      PressedIs(s, x, key);
      PressedTimesIs(Pressed(s, x, key), x, key, times - 1);
    }
  }

  /** Pressing a key as many times as there are accounts changes nothing in the end. */
  lemma FullCircle<T>(s: seq<T>, x: T, key: Key)
    requires NoDup(s) && x in s
    ensures PressedTimes(s, x, key, |s|) == s
  {
    PressedTimesIs(s, x, key, |s|);
    SameList(PressedTimes(s, x, key, |s|), s, x);
  }

  /** `x` stands somewhere before `y`. */
  ghost predicate Precedes<T>(s: seq<T>, x: T, y: T) {
    exists i, j :: 0 <= i < j < |s| && s[i] == x && s[j] == y
  }

  /** `x` is put where position `to` of `s` begins: what stood before that stands before
      it, what stood there or later stands behind it, and the others keep their order. */
  ghost predicate PutAt<T>(s: seq<T>, r: seq<T>, x: T, to: nat)
    requires to <= |s|
  {
    && NoDup(r) && |r| == |s| && (forall y :: y in r ==> y in s)
    && (forall j :: 0 <= j < to && s[j] != x ==> Precedes(r, s[j], x))
    && (forall j :: to <= j < |s| && s[j] != x ==> Precedes(r, x, s[j]))
    && (forall j, k :: 0 <= j < k < |s| && s[j] != x && s[k] != x ==> Precedes(r, s[j], s[k]))
  }

  /** Where the element at `j` of the old list stands after the element at `i` went to the
      position `at` of the others. */
  function NewIndex(i: nat, at: nat, j: nat): nat {
    var k := if j < i then j else j - 1;
    if j == i then at else if k < at then k else k + 1
  }

  lemma MovedAt<T>(s: seq<T>, m: seq<T>, r: seq<T>, i: nat, at: nat, j: nat)
    requires i < |s| && j < |s| && m == s[..i] + s[i + 1..] && at <= |m| && r == m[..at] + [s[i]] + m[at..]
    ensures |r| == |s| && NewIndex(i, at, j) < |r| && r[NewIndex(i, at, j)] == s[j]
  {
    if j != i {
      var k := if j < i then j else j - 1;
      assert m[k] == s[j];
    }
  }

  lemma ReorderedIsDistinct<T>(s: seq<T>, x: T, to: nat)
    requires NoDup(s) && x in s && to <= |s|
    ensures NoDup(Reordered(s, x, to)) && forall y :: y in Reordered(s, x, to) ==> y in s
  {
    MinusIsDistinct(s, x);
    var i := IndexOf(s, x);
    hide NoDup, Minus, IndexOf, InsertAt;
    InsertIsDistinct(Minus(s, x), if to > i then to - 1 else to, x);
  }

  /** The elements at `j` and `k` keep their order if their new indices do. */
  lemma StillPrecedes<T>(s: seq<T>, m: seq<T>, r: seq<T>, i: nat, at: nat, j: nat, k: nat)
    requires i < |s| && j < |s| && k < |s|
    requires m == s[..i] + s[i + 1..] && at <= |m| && r == m[..at] + [s[i]] + m[at..]
    requires NewIndex(i, at, j) < NewIndex(i, at, k)
    ensures Precedes(r, s[j], s[k])
  {
    hide NewIndex;
    MovedAt(s, m, r, i, at, j);
    MovedAt(s, m, r, i, at, k);
  }

  lemma MovedIs<T>(s: seq<T>, m: seq<T>, r: seq<T>, i: nat, to: nat)
    requires i < |s| && to <= |s| && m == s[..i] + s[i + 1..] && NoDup(s) && NoDup(r)
    requires (forall y :: y in r ==> y in s) && |r| == |s|
    requires var at := if to > i then to - 1 else to; at <= |m| && r == m[..at] + [s[i]] + m[at..]
    ensures PutAt(s, r, s[i], to)
  {
    var at := if to > i then to - 1 else to;
    hide Precedes;
    forall j | 0 <= j < |s| && s[j] != s[i] ensures if j < to then Precedes(r, s[j], s[i]) else Precedes(r, s[i], s[j])
    {
      if j < to {
        StillPrecedes(s, m, r, i, at, j, i);
      } else {
        StillPrecedes(s, m, r, i, at, i, j);
      }
    }
    forall j, k | 0 <= j < k < |s| && s[j] != s[i] && s[k] != s[i] ensures Precedes(r, s[j], s[k]) {
      StillPrecedes(s, m, r, i, at, j, k);
    }
  }

  /** The account goes to the position asked for, which counts as if it were still in the list. */
  lemma ReorderedIs<T>(s: seq<T>, x: T, to: nat)
    requires NoDup(s) && x in s && to <= |s|
    ensures PutAt(s, Reordered(s, x, to), x, to)
  {
    hide *;
    ReorderedSteps(s, x, to);
    ReorderedIsDistinct(s, x, to);
    MovedIs(s, Minus(s, x), Reordered(s, x, to), IndexOf(s, x), to);
  }

  /** An account that is dropped before or behind itself stays where it is. */
  lemma DroppedOnItself<T>(s: seq<T>, x: T, to: nat)
    requires x in s && (to == IndexOf(s, x) || to == IndexOf(s, x) + 1)
    ensures Reordered(s, x, to) == s
  {
    InsertMinus(s, x);
  }

  lemma ReorderedSteps<T>(s: seq<T>, x: T, to: nat)
    requires x in s && to <= |s|
    ensures var i, m := IndexOf(s, x), Minus(s, x);
            var at := if to > i then to - 1 else to;
            m == s[..i] + s[i + 1..] && at <= |m| && Reordered(s, x, to) == m[..at] + [x] + m[at..]
  {
  }

  class AccountList<T(==)> {
    var accounts: seq<T>

    /** `purple_accounts_reorder` */
    method Reorder(account: T, newIndex: int)
      modifies this
      ensures accounts == if 0 <= newIndex <= |old(accounts)| && account in old(accounts)
                          then Reordered(old(accounts), account, newIndex) else old(accounts)
      ensures 0 <= newIndex <= |old(accounts)| && account in old(accounts) && NoDup(old(accounts)) ==>
        PutAt(old(accounts), accounts, account, newIndex)
    {
      if newIndex < 0 || newIndex > |accounts| || account !in accounts {
        return;
      }
      hide *;
      if NoDup(accounts) {
        ReorderedIs(accounts, account, newIndex);
      }
      ghost var others, target := Minus(accounts, account), Reordered(accounts, account, newIndex);
      ReorderedSteps(accounts, account, newIndex);
      var index := IndexOf(accounts, account);
      var to := newIndex;
      if to > index {
        to := to - 1;
      }
      accounts := accounts[..index] + accounts[index + 1..];
      assert accounts == others;
      accounts := accounts[..to] + [account] + accounts[to..];
      assert accounts == target;
    }

    /** `account_list_key_pressed_cb`; an account that is not in the list has the index -1. */
    method KeyPressed(account: T, key: char) returns (handled: bool)
      modifies this
      ensures handled <==> key == '-' || key == '='
      ensures accounts == if handled && account in old(accounts)
                          then Pressed(old(accounts), account, if key == '-' then Up else Down) else old(accounts)
    {
      handled := true;
      var move: int;
      if key == '-' {
        move := -1;
      } else if key == '=' {
        move := 2;
      } else {
        return false;
      }
      var count := |accounts|;
      var pos: int := if account in accounts then IndexOf(accounts, account) else -1;
      assert (move + pos + count + 1) % (count + 1) == Target(pos, count, if key == '-' then Up else Down);
      hide Target, Reordered;
      pos := (move + pos + count + 1) % (count + 1);
      Reorder(account, pos);
    }
  }
}
