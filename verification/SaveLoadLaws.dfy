/** What loading a saved buddy list gives, said of the two lists themselves, and
    what it makes of files that were written by hand or by an older version. */
module SaveLoadLaws {
  import opened Lists
  import opened Options
  import opened SaveLoad

  // ---- a list that comes back unchanged ----

  /** No setting is the empty text. */
  ghost predicate WholeSettings(settings: Settings) {
    forall k :: k in settings ==> settings[k] != StringValue("")
  }

  ghost predicate WholeBuddy(e: Env, b: Buddy) {
    b.save && b.account in e.known && b.name != "" && b.alias != Some("") && WholeSettings(b.settings)
  }

  ghost predicate WholeChild(e: Env, c: Child) {
    && c.save && c.alias != Some("") && WholeSettings(c.settings)
    && match c
       case Contact(_, buddies, _, _) => buddies != [] && forall b :: b in buddies ==> WholeBuddy(e, b)
       case Chat(account, _, components, _, _) =>
         account in e.known && forall k :: k in components ==> components[k].Some? && components[k] != Some("")
  }

  /** Every node is to be saved, every account is known, every buddy has a name and every
      contact a buddy, and no text is empty. */
  ghost predicate Whole(e: Env, g: Group) {
    g.save && WholeSettings(g.settings) && forall c :: c in g.children ==> WholeChild(e, c)
  }

  lemma SettingsStay(e: Env, settings: Settings)
    requires WholeSettings(settings)
    ensures e.PrunedSettings(settings) == settings
  {
  }

  lemma {:induction false} BuddiesStay(e: Env, bs: seq<Buddy>)
    requires forall b :: b in bs ==> WholeBuddy(e, b)
    ensures e.PrunedBuddies(bs) == bs
  {
    if bs != [] {
      assert bs[0] in bs;
      SettingsStay(e, bs[0].settings);
      BuddiesStay(e, bs[1..]);
      assert e.PrunedBuddy(bs[0]) == bs[0] && [bs[0]] + bs[1..] == bs;
    }
  }

  lemma ChildStays(e: Env, c: Child)
    requires WholeChild(e, c)
    ensures e.PrunedChild(c) == [c]
  {
    SettingsStay(e, c.settings);
    if c.Contact? {
      BuddiesStay(e, c.buddies);
    } else {
      assert e.PrunedComponents(c.components) == c.components;
    }
  }

  lemma {:induction false} ChildrenStay(e: Env, cs: seq<Child>)
    requires forall c :: c in cs ==> WholeChild(e, c)
    ensures e.PrunedChildren(cs) == cs
  {
    if cs != [] {
      ChildStays(e, cs[0]);
      ChildrenStay(e, cs[1..]);
      assert [cs[0]] + cs[1..] == cs;
    }
  }

  lemma {:induction false} GroupsStay(e: Env, gs: seq<Group>)
    requires forall g :: g in gs ==> Whole(e, g)
    ensures e.Pruned(gs) == gs
  {
    if gs != [] {
      assert gs[0] in gs;
      SettingsStay(e, gs[0].settings);
      ChildrenStay(e, gs[0].children);
      GroupsStay(e, gs[1..]);
      assert e.PrunedGroup(gs[0]) == gs[0] && [gs[0]] + gs[1..] == gs;
    }
  }

  /** A list with nothing missing and nothing empty comes back as it was. */
  lemma ComesBackWhole(e: Env, gs: seq<Group>)
    requires e.Complete() && e.DistinctNames(gs) && forall g :: g in gs ==> Whole(e, g)
    ensures e.Load(Reread(e.Save(gs))) == gs
  {
    hide *;
    e.RoundTrip(gs);
    GroupsStay(e, gs);
  }

  // ---- what survives in general ----

  /** The text that is read for the text `s`. */
  ghost predicate SameText(s: Option<string>, t: Option<string>) {
    if s == Some("") then t == None else t == s
  }

  ghost predicate SameSettings(s: Settings, t: Settings) {
    && (forall k :: k in t <==> k in s && s[k] != StringValue(""))
    && (forall k :: k in t ==> t[k] == s[k])
  }

  /** A buddy that is loaded: it has a name and a known account. */
  ghost function Loadable(e: Env): Buddy -> bool {
    (b: Buddy) => b.save && b.name != "" && b.account in e.known
  }

  /** A contact or chat that is loaded: the contact has a buddy that is, the chat a known account. */
  ghost function LoadableChild(e: Env): Child -> bool {
    (c: Child) => c.save && match c
                            case Contact(_, buddies, _, _) => Filter(buddies, Loadable(e)) != []
                            case Chat(account, _, _, _, _) => account in e.known
  }

  ghost predicate SameBuddy(b: Buddy, l: Buddy) {
    && l.account == b.account && l.name == b.name && SameText(b.alias, l.alias) && SameSettings(b.settings, l.settings)
    && l.save
  }

  ghost predicate SameBuddies(bs: seq<Buddy>, ls: seq<Buddy>) {
    |ls| == |bs| && forall i :: 0 <= i < |bs| ==> SameBuddy(bs[i], ls[i])
  }

  ghost predicate SameChild(e: Env, c: Child, l: Child) {
    && l.save && SameText(c.alias, l.alias) && SameSettings(c.settings, l.settings)
    && match c
       case Contact(_, buddies, _, _) => l.Contact? && SameBuddies(Filter(buddies, Loadable(e)), l.buddies)
       case Chat(account, _, components, _, _) =>
         && l.Chat? && l.account == account
         && (forall k :: k in l.components <==> k in components && components[k].Some?)
         && (forall k :: k in l.components ==> SameText(components[k], l.components[k]))
  }

  ghost predicate SameChildren(e: Env, cs: seq<Child>, ls: seq<Child>) {
    |ls| == |cs| && forall i :: 0 <= i < |cs| ==> SameChild(e, cs[i], ls[i])
  }

  ghost predicate SameGroup(e: Env, g: Group, l: Group) {
    && l.save && l.name == g.name && SameSettings(g.settings, l.settings)
    && SameChildren(e, Filter(g.children, LoadableChild(e)), l.children)
  }

  ghost predicate SameGroups(e: Env, gs: seq<Group>, ls: seq<Group>) {
    |ls| == |gs| && forall i :: 0 <= i < |gs| ==> SameGroup(e, gs[i], ls[i])
  }

  lemma SettingsSurvive(e: Env, settings: Settings)
    ensures SameSettings(settings, e.PrunedSettings(settings))
  {
  }

  lemma {:induction false} BuddiesSurvive(e: Env, bs: seq<Buddy>)
    ensures SameBuddies(Filter(bs, Loadable(e)), e.PrunedBuddies(bs))
  {
    if bs != [] {
      SettingsSurvive(e, bs[0].settings);
      BuddiesSurvive(e, bs[1..]);
    }
  }

  lemma ChildSurvives(e: Env, c: Child)
    ensures if LoadableChild(e)(c) then |e.PrunedChild(c)| == 1 && SameChild(e, c, e.PrunedChild(c)[0])
            else e.PrunedChild(c) == []
  {
    SettingsSurvive(e, c.settings);
    if c.Contact? {
      BuddiesSurvive(e, c.buddies);
    }
  }

  lemma {:induction false} ChildrenSurvive(e: Env, cs: seq<Child>)
    ensures SameChildren(e, Filter(cs, LoadableChild(e)), e.PrunedChildren(cs))
  {
    if cs != [] {
      ChildSurvives(e, cs[0]);
      ChildrenSurvive(e, cs[1..]);
      hide SameChild, Env.PrunedChild;
    }
  }

  lemma {:induction false} GroupsSurvive(e: Env, gs: seq<Group>)
    ensures SameGroups(e, Filter(gs, (g: Group) => g.save), e.Pruned(gs))
  {
    if gs != [] {
      SettingsSurvive(e, gs[0].settings);
      ChildrenSurvive(e, gs[0].children);
      GroupsSurvive(e, gs[1..]);
    }
  }

  /** Of every list, just the groups that are to be saved come back, with just those
      contacts and chats of theirs, and just those buddies of these, that have a known
      account and whatever else is needed, all in order. Each has its account, name,
      alias, components and settings, but for empty texts. */
  lemma Survives(e: Env, gs: seq<Group>)
    requires e.Complete() && e.DistinctNames(gs)
    ensures SameGroups(e, Filter(gs, (g: Group) => g.save), e.Load(Reread(e.Save(gs))))
  {
    hide *;
    e.RoundTrip(gs);
    GroupsSurvive(e, gs);
  }

  // ---- older files ----

  /** The attributes as older files have them: "protocol" for "proto", and no type of a text. */
  function OldAttribs(attribs: map<string, string>): map<string, string> {
    var a := if "proto" in attribs then attribs["protocol" := attribs["proto"]] - {"proto"} else attribs;
    if "type" in a && a["type"] == "string" then a - {"type"} else a
  }

  /** A file as an older version wrote it, with "person" for "contact". */
  function Old(x: Xml): Xml {
    Xml(if x.tag == "contact" then "person" else x.tag, OldAttribs(x.attribs), x.data,
        seq(|x.children|, i requires 0 <= i < |x.children| => Old(x.children[i])))
  }

  function OldAll(xs: seq<Xml>): (r: seq<Xml>)
    ensures |r| == |xs|
  {
    seq(|xs|, i requires 0 <= i < |xs| => Old(xs[i]))
  }

  lemma OldStep(xs: seq<Xml>)
    requires xs != []
    ensures OldAll(xs) != [] && OldAll(xs)[0] == Old(xs[0]) && OldAll(xs)[1..] == OldAll(xs[1..])
  {
  }

  lemma OldIs(e: Env, x: Xml)
    ensures Old(x).data == x.data && Old(x).children == OldAll(x.children)
    ensures Old(x).tag == if x.tag == "contact" then "person" else x.tag
    ensures forall n :: n in ["name", "alias", "account"] ==> e.Attrib(Old(x), n) == e.Attrib(x, n)
    ensures e.FindAccount(Old(x)) == e.FindAccount(x)
    ensures forall s :: e.ParseSetting(s, Old(x)) == e.ParseSetting(s, x)
  {
  }

  lemma {:induction false} OldSettings(e: Env, settings: Settings, xs: seq<Xml>)
    ensures e.ParseSettings(settings, OldAll(xs)) == e.ParseSettings(settings, xs)
    decreases |xs|
  {
    if xs != [] {
      OldStep(xs);
      OldIs(e, xs[0]);
      OldSettings(e, if xs[0].tag == "setting" then e.ParseSetting(settings, xs[0]) else settings, xs[1..]);
      hide Old, OldAll, Env.ParseSetting;
    } else {
      assert OldAll(xs) == [];
    }
  }

  lemma {:induction false} OldData(e: Env, xs: seq<Xml>, tag: string)
    requires tag != "contact" && tag != "person"
    ensures e.DataOf(OldAll(xs), tag) == e.DataOf(xs, tag)
  {
    if xs != [] {
      OldStep(xs);
      OldIs(e, xs[0]);
      OldData(e, xs[1..], tag);
      hide Old, OldAll;
    } else {
      assert OldAll(xs) == [];
    }
  }

  lemma {:induction false} OldBuddies(e: Env, xs: seq<Xml>)
    ensures e.ParseBuddies(OldAll(xs)) == e.ParseBuddies(xs)
  {
    if xs != [] {
      OldStep(xs);
      OldIs(e, xs[0]);
      OldBuddies(e, xs[1..]);
      OldData(e, xs[0].children, "name");
      OldData(e, xs[0].children, "alias");
      OldSettings(e, map[], xs[0].children);
      hide Old, OldAll, Env.DataOf, Env.ParseSettings, Env.FindAccount;
    } else {
      assert OldAll(xs) == [];
    }
  }

  lemma {:induction false} OldComponents(e: Env, c: map<string, Option<string>>, xs: seq<Xml>)
    ensures e.ParseComponents(c, OldAll(xs)) == e.ParseComponents(c, xs)
    decreases |xs|
  {
    if xs != [] {
      OldStep(xs);
      OldIs(e, xs[0]);
      var name := e.Attrib(xs[0], "name");
      OldComponents(e, if xs[0].tag == "component" && name.Some? then c[name.value := xs[0].data] else c, xs[1..]);
      assert "name" in ["name", "alias", "account"];
      hide Old, OldAll, Env.Attrib;
    } else {
      assert OldAll(xs) == [];
    }
  }

  lemma OldChild(e: Env, x: Xml)
    ensures e.ParseChild(Old(x)) == e.ParseChild(x)
  {
    OldIs(e, x);
    assert "alias" in ["name", "alias", "account"];
    OldBuddies(e, x.children);
    OldData(e, x.children, "alias");
    OldComponents(e, map[], x.children);
    OldSettings(e, map[], x.children);
    hide Old, OldAll, Env.Attrib, Env.FindAccount, Env.ParseBuddies, Env.DataOf, Env.ParseComponents, Env.ParseSettings;
  }

  lemma {:induction false} OldChildren(e: Env, xs: seq<Xml>)
    ensures e.ParseChildren(OldAll(xs)) == e.ParseChildren(xs)
  {
    if xs != [] {
      OldStep(xs);
      OldChild(e, xs[0]);
      OldChildren(e, xs[1..]);
      hide Old, OldAll, Env.ParseChild;
    } else {
      assert OldAll(xs) == [];
    }
  }

  lemma OldGroup(e: Env, gs: seq<Group>, x: Xml)
    ensures e.ParseGroup(gs, Old(x)) == e.ParseGroup(gs, x)
  {
    OldIs(e, x);
    assert "name" in ["name", "alias", "account"];
    var name := e.Attrib(x, "name");
    OldSettings(e, e.TakeGroup(gs, if name.Some? then name.value else "Buddies").1.settings, x.children);
    OldChildren(e, x.children);
    hide Old, OldAll, Env.Attrib, Env.TakeGroup, Env.ParseChildren, Env.ParseSettings;
  }

  lemma {:induction false} OldGroups(e: Env, gs: seq<Group>, xs: seq<Xml>)
    ensures e.ParseGroups(gs, OldAll(xs)) == e.ParseGroups(gs, xs)
    decreases |xs|
  {
    if xs != [] {
      OldStep(xs);
      OldIs(e, xs[0]);
      OldGroup(e, gs, xs[0]);
      OldGroups(e, if xs[0].tag == "group" then e.ParseGroup(gs, xs[0]) else gs, xs[1..]);
      hide Old, OldAll, Env.ParseGroup;
    } else {
      assert OldAll(xs) == [];
    }
  }

  /** The old words mean the same, in every file. */
  lemma OldFile(e: Env, x: Xml)
    ensures e.Load(Old(x)) == e.Load(x)
  {
    OldIs(e, x);
    OldGroups(e, [], x.children);
    hide Old, OldAll;
  }

  // ---- a group that comes twice ----

  ghost function OtherName(e: Env, name: string): Group -> bool {
    (g: Group) => e.collate(g.name) != e.collate(name)
  }

  lemma NamesBehind(e: Env, gs: seq<Group>)
    requires e.DistinctNames(gs) && gs != []
    ensures e.DistinctNames(gs[1..]) && forall g :: g in gs[1..] ==> e.collate(g.name) != e.collate(gs[0].name)
    ensures forall g :: g in gs <==> g == gs[0] || g in gs[1..]
  {
    forall g | g in gs[1..] ensures e.collate(g.name) != e.collate(gs[0].name) {
      var j :| 0 <= j < |gs| - 1 && gs[1..][j] == g;
      assert gs[j + 1] == g;
    }
  }

  lemma TakeStep(e: Env, gs: seq<Group>, name: string)
    requires gs != []
    ensures var more := e.TakeGroup(gs[1..], name);
            e.TakeGroup(gs, name) ==
              if e.collate(gs[0].name) == e.collate(name) then (gs[1..], gs[0]) else ([gs[0]] + more.0, more.1)
    ensures Filter(gs, OtherName(e, name)) ==
      (if e.collate(gs[0].name) != e.collate(name) then [gs[0]] else []) + Filter(gs[1..], OtherName(e, name))
  {
  }

  /** The groups with other names are left as they are. */
  lemma {:induction false} TakeIs(e: Env, gs: seq<Group>, name: string)
    requires e.DistinctNames(gs)
    ensures e.TakeGroup(gs, name).0 == Filter(gs, OtherName(e, name))
    ensures var g := e.TakeGroup(gs, name).1;
            if g in gs then e.collate(g.name) == e.collate(name) else g == Group(name, map[], [], true)
    ensures (exists g :: g in gs && e.collate(g.name) == e.collate(name)) ==> e.TakeGroup(gs, name).1 in gs
  {
    if gs != [] {
      NamesBehind(e, gs);
      TakeStep(e, gs, name);
      if e.collate(gs[0].name) == e.collate(name) {
        FilterAll(gs[1..], OtherName(e, name));
        assert [] + gs[1..] == gs[1..];
      } else {
        hide Env.DistinctNames, Env.TakeGroup, Filter;
        TakeIs(e, gs[1..], name);
      }
    }
  }

  /** The name an element gives to its group */
  function NameOf(e: Env, x: Xml): string {
    if "name" in x.attribs then x.attribs["name"] else "Buddies"
  }

  /** The group of an element comes last; one that exists already keeps its name and its
      children in front, and the others keep their order. */
  lemma GroupGoesLast(e: Env, gs: seq<Group>, x: Xml)
    requires e.DistinctNames(gs)
    ensures var r := e.ParseGroup(gs, x);
            && r != [] && r[..|r| - 1] == Filter(gs, OtherName(e, NameOf(e, x)))
            && e.collate(r[|r| - 1].name) == e.collate(NameOf(e, x))
            && (forall g :: g in gs && e.collate(g.name) == e.collate(NameOf(e, x)) ==>
                 r[|r| - 1].name == g.name && g.children <= r[|r| - 1].children)
            && ((forall g :: g in gs ==> e.collate(g.name) != e.collate(NameOf(e, x))) ==>
                 r[|r| - 1].name == NameOf(e, x) && |r| == |gs| + 1)
  {
    var name := NameOf(e, x);
    TakeIs(e, gs, name);
    OneOfName(e, gs, name);
    if forall g :: g in gs ==> e.collate(g.name) != e.collate(name) {
      FilterAll(gs, OtherName(e, name));
    }
    hide Env.TakeGroup, Env.ParseChildren, Env.ParseSettings;
  }

  lemma OneOfName(e: Env, gs: seq<Group>, name: string)
    requires e.DistinctNames(gs)
    ensures forall g, h :: g in gs && h in gs && e.collate(g.name) == e.collate(name) == e.collate(h.name) ==> g == h
  {
    forall g, h | g in gs && h in gs && e.collate(g.name) == e.collate(name) == e.collate(h.name) ensures g == h {
      var i :| 0 <= i < |gs| && gs[i] == g;
      var j :| 0 <= j < |gs| && gs[j] == h;
    }
  }

  lemma {:induction false} TakeLast(e: Env, gs: seq<Group>, g: Group, name: string)
    requires e.collate(g.name) == e.collate(name) && forall h :: h in gs ==> e.collate(h.name) != e.collate(name)
    ensures e.TakeGroup(gs + [g], name) == (gs, g)
  {
    if gs != [] {
      assert (gs + [g])[1..] == gs[1..] + [g] && gs[0] in gs;
      TakeLast(e, gs[1..], g, name);
      assert [gs[0]] + gs[1..] == gs;
    } else {
      assert gs + [g] == [g] && [g][1..] == gs;
    }
  }

  /** The group `g` with the settings and children of one more element. */
  function Extended(e: Env, g: Group, xs: seq<Xml>): Group {
    g.(settings := e.ParseSettings(g.settings, xs), children := g.children + e.ParseChildren(xs))
  }

  lemma ParseGroupIs(e: Env, gs: seq<Group>, x: Xml)
    ensures var r := e.TakeGroup(gs, NameOf(e, x)); e.ParseGroup(gs, x) == r.0 + [Extended(e, r.1, x.children)]
  {
  }

  lemma ExtendedTwice(e: Env, g: Group, xs: seq<Xml>, ys: seq<Xml>)
    ensures Extended(e, Extended(e, g, xs), ys) == Extended(e, g, xs + ys) && Extended(e, g, xs).name == g.name
  {
    e.SettingsConcat(g.settings, xs, ys);
    e.ChildrenConcat(xs, ys);
    hide Env.ParseSettings, Env.ParseChildren;
    assert g.children + (e.ParseChildren(xs) + e.ParseChildren(ys)) ==
        g.children + e.ParseChildren(xs) + e.ParseChildren(ys);
  }

  /** A group that is written in two elements is loaded as if it were written in one. */
  lemma GroupInTwo(e: Env, gs: seq<Group>, x: Xml, y: Xml)
    requires e.DistinctNames(gs) && x.attribs == y.attribs
    ensures e.ParseGroup(e.ParseGroup(gs, x), y) == e.ParseGroup(gs, x.(children := x.children + y.children))
  {
    var name, both := NameOf(e, x), x.(children := x.children + y.children);
    hide *;
    SameNameOf(e, x, y);
    SameNameOf(e, x, both);
    var others, g := e.TakeGroup(gs, name).0, e.TakeGroup(gs, name).1;
    TakenApart(e, gs, name);
    ParseGroupIs(e, gs, x);
    ParseGroupIs(e, gs, both);
    ExtendedTwice(e, g, x.children, y.children);
    ParseGroupIs(e, others + [Extended(e, g, x.children)], y);
    TakeLast(e, others, Extended(e, g, x.children), name);
  }

  lemma TakenApart(e: Env, gs: seq<Group>, name: string)
    requires e.DistinctNames(gs)
    ensures e.collate(e.TakeGroup(gs, name).1.name) == e.collate(name)
    ensures forall h :: h in e.TakeGroup(gs, name).0 ==> e.collate(h.name) != e.collate(name)
  {
    TakeIs(e, gs, name);
    FilterMembers(gs, OtherName(e, name));
    hide Env.TakeGroup, Filter;
  }

  lemma SameNameOf(e: Env, x: Xml, y: Xml)
    requires x.attribs == y.attribs
    ensures NameOf(e, x) == NameOf(e, y)
  {
  }

  // ---- the file itself ----

  /** Tables of one entry are walked in the only way there is. */
  ghost predicate WalksOnce(e: Env) {
    e.order({}) == [] && forall k: string :: e.order({k}) == [k]
  }

  lemma NoSettings(e: Env)
    requires WalksOnce(e)
    ensures e.AllSettings(map[]) == []
  {
    var none: Settings := map[];
    assert none.Keys == {};
  }

  lemma OneSetting(e: Env, name: string, value: Value)
    requires WalksOnce(e)
    ensures e.AllSettings(map[name := value]) == [e.SettingXml(name, value)]
  {
    var one: Settings := map[name := value];
    assert one.Keys == {name} && [name][1..] == [];
    assert e.SettingXmls(one, [name]) == [e.SettingXml(name, value)] + e.SettingXmls(one, []);
  }

  lemma TwoDigits(n: nat)
    requires 10 <= n < 100
    ensures Digits(n) == [('0' as int + n / 10) as char, ('0' as int + n % 10) as char]
  {
    assert Digits(n / 10) == "" + [('0' as int + n / 10) as char];
  }

  lemma BuddyWritten(e: Env, user: string, proto: string, who: string, alias: string)
    requires WalksOnce(e)
    ensures e.BuddyXml(Buddy(Account(user, proto), who, Some(alias), map["last" := IntValue(-42)], true)) ==
      Xml("buddy", map["account" := user, "proto" := proto], None,
          [Xml("name", map[], Some(who), []), Xml("alias", map[], Some(alias), []),
           Xml("setting", map["name" := "last", "type" := "int"], Some("-42"), [])])
  {
    OneSetting(e, "last", IntValue(-42));
    TwoDigits(42);
    assert Decimal(-42) == "-" + Digits(42) == "-42";
  }

  lemma ContactWritten(e: Env, alias: string, b: Buddy, settings: Settings)
    requires WalksOnce(e) && b.save
    ensures e.ChildXml(Contact(Some(alias), [b], settings, true)) ==
      Xml("contact", map["alias" := alias], None, [e.BuddyXml(b)] + e.AllSettings(settings))
  {
    hide Env.BuddyXml, Env.AllSettings;
    assert [b][1..] == [] && e.BuddyXmls([b]) == [e.BuddyXml(b)] + e.BuddyXmls([]);
  }

  lemma ChatWritten(e: Env, user: string, proto: string, key: string, value: string)
    requires WalksOnce(e)
    ensures e.ChildXml(Chat(Account(user, proto), None, map[key := Some(value)], map[], true)) ==
      Xml("chat", map["proto" := proto, "account" := user], None,
          [Xml("component", map["name" := key], Some(value), [])])
  {
    NoSettings(e);
    var components: map<string, Option<string>> := map[key := Some(value)];
    assert components.Keys == {key} && [key][1..] == [];
    assert e.ComponentXmls(components, [key]) ==
        [Xml("component", map["name" := key], Some(value), [])] + e.ComponentXmls(components, []);
    hide Env.AllSettings;
  }

  lemma GroupWritten(e: Env, name: string, settings: Settings, c: Child, d: Child)
    requires c.save && d.save && name != "Buddies"
    ensures e.GroupXml(Group(name, settings, [c, d], true)) ==
      Xml("group", map["name" := name], None, e.AllSettings(settings) + [e.ChildXml(c), e.ChildXml(d)])
  {
    hide Env.ChildXml, Env.AllSettings;
    assert [c, d][1..] == [d] && [d][1..] == [];
    assert e.ChildXmls([d]) == [e.ChildXml(d)] + e.ChildXmls([]) == [e.ChildXml(d)];
    assert e.ChildXmls([c, d]) == [e.ChildXml(c)] + e.ChildXmls([d]);
  }

  /** One group with a contact of one buddy and a chat, element by element */
  lemma FileWritten(e: Env, user: string, proto: string, who: string, alias: string)
    requires WalksOnce(e)
    ensures var b := Buddy(Account(user, proto), who, Some(alias), map["last" := IntValue(-42)], true);
            var chat := Chat(Account(user, proto), None, map["room" := Some("lobby")], map[], true);
            e.Save([Group("Friends", map["collapsed" := BoolValue(true)],
                          [Contact(Some("Bob"), [b], map["icon" := StringValue("b.png")], true), chat], true)]) ==
            Xml("blist", map[], None,
                [Xml("group", map["name" := "Friends"], None,
                     [Xml("setting", map["name" := "collapsed", "type" := "bool"], Some("1"), []),
                      Xml("contact", map["alias" := "Bob"], None,
                          [Xml("buddy", map["account" := user, "proto" := proto], None,
                               [Xml("name", map[], Some(who), []), Xml("alias", map[], Some(alias), []),
                                Xml("setting", map["name" := "last", "type" := "int"], Some("-42"), [])]),
                           Xml("setting", map["name" := "icon", "type" := "string"], Some("b.png"), [])]),
                      Xml("chat", map["proto" := proto, "account" := user], None,
                          [Xml("component", map["name" := "room"], Some("lobby"), [])])])])
  {
    var b := Buddy(Account(user, proto), who, Some(alias), map["last" := IntValue(-42)], true);
    var c := Contact(Some("Bob"), [b], map["icon" := StringValue("b.png")], true);
    var chat := Chat(Account(user, proto), None, map["room" := Some("lobby")], map[], true);
    var g := Group("Friends", map["collapsed" := BoolValue(true)], [c, chat], true);
    BuddyWritten(e, user, proto, who, alias);
    OneSetting(e, "icon", StringValue("b.png"));
    ContactWritten(e, "Bob", b, c.settings);
    ChatWritten(e, user, proto, "room", "lobby");
    OneSetting(e, "collapsed", BoolValue(true));
    assert Decimal(1) == "1";
    GroupWritten(e, "Friends", g.settings, c, chat);
    hide Env.BuddyXml, Env.ChildXml, Env.AllSettings, Env.GroupXml;
    var icon := Xml("setting", map["name" := "icon", "type" := "string"], Some("b.png"), []);
    var collapsed := Xml("setting", map["name" := "collapsed", "type" := "bool"], Some("1"), []);
    assert [e.BuddyXml(b)] + [icon] == [e.BuddyXml(b), icon];
    assert e.ChildXml(c) == Xml("contact", map["alias" := "Bob"], None, [e.BuddyXml(b), icon]);
    assert [collapsed] + [e.ChildXml(c), e.ChildXml(chat)] == [collapsed, e.ChildXml(c), e.ChildXml(chat)];
    assert e.GroupXml(g) ==
        Xml("group", map["name" := "Friends"], None, [collapsed, e.ChildXml(c), e.ChildXml(chat)]);
    assert [g][1..] == [] && e.GroupXmls([g]) == [e.GroupXml(g)] + e.GroupXmls([]);
  }
}
