/** The username of an account, put together from the fields of the edit
    dialog and taken apart into them again. */
module UserSplits {
  import opened Options

  /** `PurpleAccountUserSplit` */
  datatype UserSplit = UserSplit(separator: char, reverse: bool, standard: Option<string>)

  /** What `printf` makes of a string that may be missing. */
  function Printed(s: Option<string>): string {
    match s
    case None => "(null)"
    case Some(t) => t
  }

  /** What is written for a field: an empty one counts as the default. */
  function Written(split: UserSplit, value: string): string {
    if value == "" then Printed(split.standard) else value
  }

  /** The text of a field that was found, or of one that was not. */
  function Shown(split: UserSplit, value: Option<string>): string {
    match value
    case Some(v) => v
    case None => if split.standard.Some? then split.standard.value else ""
  }

  function Join(user: string, splits: seq<UserSplit>, values: seq<string>): string
    requires |splits| == |values|
  {
    if splits == [] then user
    else var n := |splits| - 1;
         Join(user, splits[..n], values[..n]) + [splits[n].separator] + Written(splits[n], values[n])
  }

  /** `strchr`, as a position */
  function First(s: string, c: char): (i: Option<nat>)
    ensures i == None <==> c !in s
    ensures i.Some? ==> i.value < |s| && s[i.value] == c && c !in s[..i.value]
  {
    if s == "" then None
    else if s[0] == c then Some(0)
    else match First(s[1..], c)
      case None => None
      case Some(i) => Some(i + 1)
  }

  /** `strrchr`, as a position */
  function Last(s: string, c: char): (i: Option<nat>)
    ensures i == None <==> c !in s
    ensures i.Some? ==> i.value < |s| && s[i.value] == c && c !in s[i.value + 1..]
  {
    if s == "" then None
    else if s[|s| - 1] == c then Some(|s| - 1)
    else
      assert s == s[..|s| - 1] + [s[|s| - 1]];
      Last(s[..|s| - 1], c)
  }

  function Position(s: string, split: UserSplit): (i: Option<nat>)
    ensures i == None <==> split.separator !in s
    ensures i.Some? ==> i.value < |s| && s[i.value] == split.separator
  {
    if split.reverse then Last(s, split.separator) else First(s, split.separator)
  }

  /** The username that is left once the fields were cut off, the last one first, and what they show. */
  function Split(s: string, splits: seq<UserSplit>): (r: (string, seq<string>))
    ensures |r.1| == |splits|
  {
    if splits == [] then (s, [])
    else
      var n := |splits| - 1;
      var p := Position(s, splits[n]);
      var rest := Split(if p.Some? then s[..p.value] else s, splits[..n]);
      (rest.0, rest.1 + [Shown(splits[n], if p.Some? then Some(s[p.value + 1..]) else None)])
  }

  /** A field that is looked for from the back omits its separator, and what
      stands before a field that is looked for from the front does. */
  predicate Clean(user: string, splits: seq<UserSplit>, values: seq<string>, i: nat)
    requires |splits| == |values| && i < |splits|
  {
    if splits[i].reverse then splits[i].separator !in Written(splits[i], values[i])
    else splits[i].separator !in Join(user, splits[..i], values[..i])
  }

  /** The fields as they are written. */
  function AllWritten(splits: seq<UserSplit>, values: seq<string>): (r: seq<string>)
    requires |splits| == |values|
    ensures |r| == |splits|
  {
    seq(|splits|, i requires 0 <= i < |splits| => Written(splits[i], values[i]))
  }

  lemma FirstAfter(a: string, c: char, b: string)
    ensures First(a + [c] + b, c) == Some(|a|) <==> c !in a
  {
    var s := a + [c] + b;
    assert s[|a|] == c && s[..|a|] == a;
  }

  lemma LastBefore(a: string, c: char, b: string)
    ensures Last(a + [c] + b, c) == Some(|a|) <==> c !in b
  {
    var s := a + [c] + b;
    assert s[|a|] == c && s[|a| + 1..] == b;
  }

  /** The last field comes back exactly if the place where it was put on is found again. */
  lemma LastField(user: string, splits: seq<UserSplit>, values: seq<string>)
    requires |splits| == |values| && splits != []
    ensures var n := |splits| - 1;
            var s := Join(user, splits, values);
            var p := Position(s, splits[n]);
            var before := Join(user, splits[..n], values[..n]);
            && p.Some? && (Clean(user, splits, values, n) <==> p.value == |before|)
            && s[..|before|] == before && s[|before| + 1..] == Written(splits[n], values[n])
            && (p.value != |before| ==> s[p.value + 1..] != Written(splits[n], values[n]))
  {
    var n := |splits| - 1;
    var before, c := Join(user, splits[..n], values[..n]), splits[n].separator;
    var s := before + [c] + Written(splits[n], values[n]);
    assert s[|before|] == c;
    FirstAfter(before, c, Written(splits[n], values[n]));
    LastBefore(before, c, Written(splits[n], values[n]));
  }

  lemma Shorter(user: string, splits: seq<UserSplit>, values: seq<string>, i: nat)
    requires |splits| == |values| && i < |splits| - 1
    ensures var n := |splits| - 1;
            Clean(user, splits, values, i) <==> Clean(user, splits[..n], values[..n], i)
  {
    var n := |splits| - 1;
    assert splits[..n][..i] == splits[..i] && values[..n][..i] == values[..i];
  }

  /** One field of the round trip. */
  lemma LastStep(user: string, splits: seq<UserSplit>, values: seq<string>)
    requires |splits| == |values| && splits != []
    ensures var n := |splits| - 1;
            var r, fewer := Split(Join(user, splits, values), splits),
                Split(Join(user, splits[..n], values[..n]), splits[..n]);
            if Clean(user, splits, values, n) then r == (fewer.0, fewer.1 + [Written(splits[n], values[n])])
            else r.1[n] != Written(splits[n], values[n])
  {
    LastField(user, splits, values);
    hide Join, Written, Clean, Position;
  }

  lemma AllButLast(splits: seq<UserSplit>, values: seq<string>)
    requires |splits| == |values| && splits != []
    ensures var n := |splits| - 1;
            AllWritten(splits, values) == AllWritten(splits[..n], values[..n]) + [Written(splits[n], values[n])]
  {
    hide Written;
  }

  /** Splitting what was joined gives back the username and the fields, empty ones replaced by their defaults. */
  predicate ComesBack(user: string, splits: seq<UserSplit>, values: seq<string>)
    requires |splits| == |values|
  {
    Split(Join(user, splits, values), splits) == (user, AllWritten(splits, values))
  }

  lemma ComesBackStep(user: string, splits: seq<UserSplit>, values: seq<string>)
    requires |splits| == |values| && splits != []
    ensures var n := |splits| - 1;
            ComesBack(user, splits, values) <==>
                Clean(user, splits, values, n) && ComesBack(user, splits[..n], values[..n])
  {
    var n := |splits| - 1;
    LastStep(user, splits, values);
    AllButLast(splits, values);
    var r, all := Split(Join(user, splits, values), splits).1, AllWritten(splits, values);
    hide Split, Join, AllWritten, Clean, Written;
    assert r == all ==> r[n] == all[n];
    assert all[..n] == AllWritten(splits[..n], values[..n]);
    assert Clean(user, splits, values, n) ==> r[..n] == Split(Join(user, splits[..n], values[..n]), splits[..n]).1;
  }

  predicate AllClean(user: string, splits: seq<UserSplit>, values: seq<string>)
    requires |splits| == |values|
  {
    forall i :: 0 <= i < |splits| ==> Clean(user, splits, values, i)
  }

  lemma AllCleanStep(user: string, splits: seq<UserSplit>, values: seq<string>)
    requires |splits| == |values| && splits != []
    ensures var n := |splits| - 1;
            AllClean(user, splits, values) <==>
                Clean(user, splits, values, n) && AllClean(user, splits[..n], values[..n])
  {
    var n := |splits| - 1;
    forall i | 0 <= i < n ensures Clean(user, splits, values, i) <==> Clean(user, splits[..n], values[..n], i) {
      Shorter(user, splits, values, i);
    }
    hide Clean;
  }

  /** The round trip succeeds exactly if every field is clean. */
  lemma {:induction false} RoundTrip(user: string, splits: seq<UserSplit>, values: seq<string>)
    requires |splits| == |values|
    ensures ComesBack(user, splits, values) <==> AllClean(user, splits, values)
  {
    if splits != [] {
      var n := |splits| - 1;
      hide Clean, AllClean, ComesBack;
      ComesBackStep(user, splits, values);
      AllCleanStep(user, splits, values);
      RoundTrip(user, splits[..n], values[..n]);
    }
  }

  lemma OneField(user: string, split: UserSplit, value: string, s: string, i: nat)
    requires i < |s| && Position(s, split) == Some(i)
    ensures Join(user, [split], [value]) == user + [split.separator] + Written(split, value)
    ensures Split(s, [split]) == (s[..i], [Shown(split, Some(s[i + 1..]))])
  {
    hide Position, Written;
    assert [split][..0] == [] && [value][..0] == [];
    var rest := Split(s[..i], [split][..0]);
    assert rest == (s[..i], []);
    var shown := Shown([split][0], Some(s[i + 1..]));
    assert rest.1 + [shown] == [shown];
    assert Split(s, [split]) == (rest.0, rest.1 + [shown]);
  }

  /** A field with its own separator in it, looked for from the back: "b@c" as the
      server of "a" comes back as "c", and "a@b" as the username. */
  lemma SeparatorInField(user: string, split: UserSplit, left: string, right: string)
    requires split.reverse && split.separator !in right
    ensures var value := left + [split.separator] + right;
            && Split(Join(user, [split], [value]), [split]) == (user + [split.separator] + left, [right])
            && !ComesBack(user, [split], [value])
  {
    var c := split.separator;
    var value, before := left + [c] + right, user + [c] + left;
    var s := before + [c] + right;
    assert s == user + [c] + value && s[..|before|] == before && s[|before| + 1..] == right;
    LastBefore(before, c, right);
    hide Join, Split, Last;
    OneField(user, split, value, s, |before|);
    assert |value| > |right| && AllWritten([split], [value])[0] == value;
  }

  /** What `JoinUsername` puts between the separators, said of the text itself:
      `texts` is what each field, and at first the user, adds to it. */
  ghost predicate MadeOf(user: string, splits: seq<UserSplit>, values: seq<string>, name: string, texts: seq<string>)
    requires |splits| == |values|
  {
    && |texts| == |splits| + 1 && texts[0] == user && name == texts[|splits|]
    && forall i :: 0 <= i < |splits| ==>
        if values[i] != "" then texts[i + 1] == texts[i] + [splits[i].separator] + values[i]
        else if splits[i].standard.Some? then texts[i + 1] ==
            texts[i] + [splits[i].separator] + splits[i].standard.value
        else texts[i + 1] == texts[i] + [splits[i].separator] + "(null)"
  }

  /** Every field stands behind its separator, as it was typed; an empty one as its default. */
  lemma {:induction false} JoinIs(user: string, splits: seq<UserSplit>, values: seq<string>)
    returns (texts: seq<string>)
    requires |splits| == |values|
    ensures MadeOf(user, splits, values, Join(user, splits, values), texts)
  {
    if splits == [] {
      texts := [user];
    } else {
      var n := |splits| - 1;
      var before := JoinIs(user, splits[..n], values[..n]);
      texts := before + [Join(user, splits, values)];
    }
  }

  /** Leaving a field empty is typing its default. */
  lemma {:induction false} EmptyIsDefault(user: string, splits: seq<UserSplit>, values: seq<string>, i: nat)
    requires |splits| == |values| && i < |splits| && values[i] == "" && splits[i].standard.Some?
    ensures Join(user, splits, values) == Join(user, splits, values[i := splits[i].standard.value])
  {
    var n := |splits| - 1;
    var typed := values[i := splits[i].standard.value];
    if i < n {
      EmptyIsDefault(user, splits[..n], values[..n], i);
      assert typed[..n] == values[..n][i := splits[i].standard.value];
    } else {
      assert typed[..n] == values[..n];
    }
  }

  /** How a name is taken apart, said of the text itself: `texts[i]` is what is left of it
      when field `i` and those after it were cut off. A field whose separator is not
      there shows its default, if any; else the separator it was cut at is its last
      one or its first one, as the field says. */
  ghost predicate TakenApart(name: string, splits: seq<UserSplit>, user: string, fields: seq<string>,
      texts: seq<string>)
  {
    && |texts| == |splits| + 1 && |fields| == |splits| && texts[0] == user && name == texts[|splits|]
    && forall i :: 0 <= i < |splits| ==>
        if splits[i].separator !in texts[i + 1] then
          && texts[i] == texts[i + 1]
          && fields[i] == (if splits[i].standard.Some? then splits[i].standard.value else "")
        else
          && texts[i + 1] == texts[i] + [splits[i].separator] + fields[i]
          && splits[i].separator !in if splits[i].reverse then fields[i] else texts[i]
  }

  lemma {:induction false} SplitIs(name: string, splits: seq<UserSplit>) returns (texts: seq<string>)
    ensures TakenApart(name, splits, Split(name, splits).0, Split(name, splits).1, texts)
  {
    if splits == [] {
      texts := [name];
    } else {
      var n := |splits| - 1;
      var split := splits[n];
      var p := Position(name, split);
      var left := if p.Some? then name[..p.value] else name;
      var before := SplitIs(left, splits[..n]);
      texts := before + [name];
      var r, shown := Split(left, splits[..n]), Shown(split, if p.Some? then Some(name[p.value + 1..]) else None);
      assert Split(name, splits) == (r.0, r.1 + [shown]);
      LastCut(name, split);
      hide Split, Position;
      OneMoreCut(name, left, splits, r.0, r.1, before, shown);
    }
  }

  lemma OneMoreCut(name: string, left: string, splits: seq<UserSplit>, user: string, fields: seq<string>,
      texts: seq<string>, field: string)
    requires splits != [] && TakenApart(left, splits[..|splits| - 1], user, fields, texts)
    requires var split := splits[|splits| - 1];
             if split.separator !in name then
               left == name && field == (if split.standard.Some? then split.standard.value else "")
             else
               && name == left + [split.separator] + field
               && split.separator !in if split.reverse then field else left
    ensures TakenApart(name, splits, user, fields + [field], texts + [name])
  {
    var n := |splits| - 1;
    forall i | 0 <= i < n ensures splits[..n][i] == splits[i] && (texts + [name])[i + 1] == texts[i + 1] {
    }
  }

  lemma LastCut(name: string, split: UserSplit)
    ensures var p := Position(name, split);
            p.Some? ==>
              && name == name[..p.value] + [split.separator] + name[p.value + 1..]
              && split.separator !in if split.reverse then name[p.value + 1..] else name[..p.value]
  {
  }

  /** The loop of `save_account_cb`; an empty username is refused. */
  method JoinUsername(user: string, splits: seq<UserSplit>, entries: seq<string>) returns (username: Option<string>)
    requires |splits| == |entries|
    ensures username == if user == "" then None else Some(Join(user, splits, entries))
    ensures username.Some? ==> exists texts :: MadeOf(user, splits, entries, username.value, texts)
  {
    if user == "" {
      return None;
    }
    var text := user;
    for i := 0 to |splits|
      invariant text == Join(user, splits[..i], entries[..i])
    {
      assert splits[..i + 1][..i] == splits[..i] && entries[..i + 1][..i] == entries[..i];
      var value := Some(entries[i]);
      if entries[i] == "" {
        value := splits[i].standard;
      }
      text := text + [splits[i].separator] + Printed(value);
    }
    assert splits[..|splits|] == splits && entries[..|entries|] == entries;
    ghost var texts := JoinIs(user, splits, entries);
    return Some(text);
  }

  /** What the loop has done when it has come down to the field `i`: `shown` are the fields it has filled. */
  ghost predicate SplitDownTo(account: Option<string>, splits: seq<UserSplit>, i: nat, username: Option<string>,
      shown: seq<string>)
    requires i <= |splits|
  {
    if account.Some? then
      username.Some? && Split(account.value, splits) ==
        (Split(username.value, splits[..i]).0, Split(username.value, splits[..i]).1 + shown)
    else
      username == None && |shown| == |splits| - i &&
          forall k :: i <= k < |splits| ==> shown[k - i] == Shown(splits[k], None)
  }

  /** One field is cut off. */
  lemma SplitOne(account: Option<string>, splits: seq<UserSplit>, i: nat, username: Option<string>, shown: seq<string>)
    requires i < |splits| && SplitDownTo(account, splits, i + 1, username, shown)
    ensures var p := if username.Some? then Position(username.value, splits[i]) else None;
            var cut := if p.Some? then Some(username.value[..p.value]) else username;
            var value := if p.Some? then Some(username.value[p.value + 1..]) else None;
            SplitDownTo(account, splits, i, cut, [Shown(splits[i], value)] + shown)
  {
    hide Position, Shown;
    if account.Some? {
      assert splits[..i + 1][..i] == splits[..i];
      var p := Position(username.value, splits[i]);
      var r := Split(if p.Some? then username.value[..p.value] else username.value, splits[..i]);
      var value := Shown(splits[i], if p.Some? then Some(username.value[p.value + 1..]) else None);
      assert r.1 + [value] + shown == r.1 + ([value] + shown);
    }
  }

  lemma SplitEnds(account: Option<string>, splits: seq<UserSplit>, username: Option<string>, shown: seq<string>)
    ensures SplitDownTo(account, splits, |splits|, account, [])
    ensures SplitDownTo(account, splits, 0, username, shown) && account.Some? ==>
              username == Some(Split(account.value, splits).0) && shown == Split(account.value, splits).1
    ensures SplitDownTo(account, splits, 0, username, shown) && account.None? ==>
              username == None && |shown| == |splits| &&
                  forall k :: 0 <= k < |splits| ==> shown[k] == Shown(splits[k], None)
  {
    hide Shown;
    assert splits[..|splits|] == splits && splits[..0] == [];
    if account.Some? {
      assert Split(account.value, splits).1 + [] == Split(account.value, splits).1;
    }
    if username.Some? {
      assert Split(username.value, []) == (username.value, []) && [] + shown == shown;
    }
  }

  /** The loop of `update_user_splits`, for an account or a new one: the
      username is cut shorter and shorter while the fields are filled from the last to the first. */
  method SplitUsername(account: Option<string>, splits: seq<UserSplit>, entries: array<string>)
      returns (username: Option<string>)
    requires entries.Length == |splits| && forall k :: 0 <= k < entries.Length ==> entries[k] == ""
    modifies entries
    ensures account.Some? ==>
      username == Some(Split(account.value, splits).0) && entries[..] == Split(account.value, splits).1
    ensures account.Some? ==> exists texts :: TakenApart(account.value, splits, username.value, entries[..], texts)
    ensures account.None? ==> username == None && forall k :: 0 <= k < |splits| ==>
      entries[..][k] == if splits[k].standard.Some? then splits[k].standard.value else ""
  {
    hide SplitDownTo, Position, Split;
    username := account;
    SplitEnds(account, splits, account, []);
    assert entries[|splits|..] == [];
    for i := |splits| downto 0
      invariant SplitDownTo(account, splits, i, username, entries[i..])
      invariant forall k :: 0 <= k < i ==> entries[k] == ""
    {
      SplitOne(account, splits, i, username, entries[i + 1..]);
      var value: Option<string> := None;
      if username.Some? {
        var s := Position(username.value, splits[i]);
        if s.Some? {
          value := Some(username.value[s.value + 1..]);
          username := Some(username.value[..s.value]);
        }
      }
      if value == None {
        value := splits[i].standard;
      }
      ghost var later := entries[i + 1..];
      if value != None {
        entries[i] := value.value;
      }
      assert entries[i..] == [entries[i]] + later;
    }
    SplitEnds(account, splits, username, entries[..]);
    assert entries[0..] == entries[..];
    if account.Some? {
      ghost var texts := SplitIs(account.value, splits);
    }
  }
}
