/** Saving the buddy list as a tree of XML elements, and loading it again.
    Most bodies below hide every definition; the short lemmas called `...Is` and
    `...Parts` give back the single definition that a step needs. */
module SaveLoad {
  import opened Options

  datatype Account = Account(username: string, protocol: string)

  datatype Value = IntValue(number: int) | StringValue(text: string) | BoolValue(truth: bool)

  type Settings = map<string, Value>

  /** Nodes as they are in memory; `save` is false for those with the flag `PURPLE_BLIST_NODE_FLAG_NO_SAVE`. */
  datatype Buddy = Buddy(account: Account, name: string, alias: Option<string>, settings: Settings, save: bool)

  datatype Child =
    | Contact(alias: Option<string>, buddies: seq<Buddy>, settings: Settings, save: bool)
    | Chat(account: Account, alias: Option<string>, components: map<string, Option<string>>, settings: Settings,
        save: bool)

  datatype Group = Group(name: string, settings: Settings, children: seq<Child>, save: bool)

  /** `xmlnode`: the data of all its data nodes taken together */
  datatype Xml = Xml(tag: string, attribs: map<string, string>, data: Option<string>, children: seq<Xml>)

  /** What writing an element as text and parsing it gives: empty data leaves no trace. */
  function Reread(x: Xml): Xml {
    Xml(x.tag, x.attribs, NonEmpty(x.data),
        seq(|x.children|, i requires 0 <= i < |x.children| => Reread(x.children[i])))
  }

  function NonEmpty(s: Option<string>): Option<string> {
    if s == Some("") then None else s
  }

  function RereadAll(xs: seq<Xml>): (r: seq<Xml>)
    ensures |r| == |xs|
  {
    seq(|xs|, i requires 0 <= i < |xs| => Reread(xs[i]))
  }

  /** `%d` */
  function Digits(n: nat): string {
    (if n < 10 then "" else Digits(n / 10)) + [('0' as int + n % 10) as char]
  }

  function Decimal(n: int): string {
    if n < 0 then "-" + Digits(-n) else Digits(n)
  }

  function ReadDigits(s: string, n: nat): nat {
    if s != "" && '0' <= s[0] <= '9' then ReadDigits(s[1..], 10 * n + (s[0] as int - '0' as int)) else n
  }

  /** `atoi` */
  function Atoi(s: string): int {
    if s == "" then 0
    else if s[0] in " \t\n\r" then Atoi(s[1..])
    else if s[0] == '-' then -(ReadDigits(s[1..], 0) as int)
    else if s[0] == '+' then ReadDigits(s[1..], 0)
    else ReadDigits(s, 0)
  }

  lemma {:induction false} ReadDigitsIs(n: nat, rest: string)
    ensures ReadDigits(Digits(n) + rest, 0) == ReadDigits(rest, n)
    ensures Digits(n) != "" && '0' <= Digits(n)[0] <= '9'
  {
    var c := ('0' as int + n % 10) as char;
    if n < 10 {
      assert Digits(n) == [c] && (Digits(n) + rest)[1..] == rest;
    } else {
      ReadDigitsIs(n / 10, [c] + rest);
      assert Digits(n) + rest == Digits(n / 10) + ([c] + rest);
      assert ([c] + rest)[1..] == rest;
      assert Digits(n)[0] == Digits(n / 10)[0];
    }
  }

  lemma AtoiIs(n: int)
    ensures Atoi(Decimal(n)) == n
  {
    var m := if n < 0 then -n else n;
    ReadDigitsIs(m, "");
    assert Digits(m) + "" == Digits(m);
    if n < 0 {
      assert Decimal(n)[1..] == Digits(m);
    }
  }

  /** How hash tables are walked, which accounts exist, and how group names compare. */
  datatype Env = Env(order: set<string> -> seq<string>, known: set<Account>, collate: string -> string) {

    /** Hash tables are walked in some order, but completely. */
    ghost predicate Complete() {
      forall keys: set<string>, k: string :: k in order(keys) <==> k in keys
    }

    // ---- saving ----

    function SettingXml(name: string, value: Value): Xml {
      match value
      case IntValue(n) => Xml("setting", map["name" := name, "type" := "int"], Some(Decimal(n)), [])
      case StringValue(s) => Xml("setting", map["name" := name, "type" := "string"], Some(s), [])
      case BoolValue(b) => Xml("setting", map["name" := name, "type" := "bool"], Some(Decimal(if b then 1 else 0)), [])
    }

    function SettingXmls(settings: Settings, keys: seq<string>): seq<Xml> {
      if keys == [] then []
      else (if keys[0] in settings then [SettingXml(keys[0], settings[keys[0]])]
          else []) + SettingXmls(settings, keys[1..])
    }

    function AllSettings(settings: Settings): seq<Xml> {
      SettingXmls(settings, order(settings.Keys))
    }

    function AliasXml(alias: Option<string>): seq<Xml> {
      if alias.Some? then [Xml("alias", map[], alias, [])] else []
    }

    function BuddyXml(b: Buddy): Xml {
      Xml("buddy", map["account" := b.account.username, "proto" := b.account.protocol], None,
          [Xml("name", map[], Some(b.name), [])] + AliasXml(b.alias) + AllSettings(b.settings))
    }

    function BuddyXmls(bs: seq<Buddy>): seq<Xml> {
      if bs == [] then [] else (if bs[0].save then [BuddyXml(bs[0])] else []) + BuddyXmls(bs[1..])
    }

    /** `chat_component_to_xmlnode` writes nothing for a component without a value. */
    function ComponentXmls(components: map<string, Option<string>>, keys: seq<string>): seq<Xml> {
      if keys == [] then []
      else
        (if keys[0] in components && components[keys[0]].Some?
         then [Xml("component", map["name" := keys[0]], components[keys[0]], [])] else [])
        + ComponentXmls(components, keys[1..])
    }

    function ChildXml(c: Child): Xml {
      match c
      case Contact(alias, buddies, settings, _) =>
        Xml("contact", if alias.Some? then map["alias" := alias.value]
            else map[], None, BuddyXmls(buddies) + AllSettings(settings))
      case Chat(account, alias, components, settings, _) =>
        Xml("chat", map["proto" := account.protocol, "account" := account.username], None,
            AliasXml(alias) + ComponentXmls(components, order(components.Keys)) + AllSettings(settings))
    }

    function ChildXmls(cs: seq<Child>): seq<Xml> {
      if cs == [] then [] else (if cs[0].save then [ChildXml(cs[0])] else []) + ChildXmls(cs[1..])
    }

    function GroupXml(g: Group): Xml {
      Xml("group", if g.name != "Buddies" then map["name" := g.name]
          else map[], None, AllSettings(g.settings) + ChildXmls(g.children))
    }

    function GroupXmls(gs: seq<Group>): seq<Xml> {
      if gs == [] then [] else (if gs[0].save then [GroupXml(gs[0])] else []) + GroupXmls(gs[1..])
    }

    /** The element `blist` of `blist_to_xmlnode` */
    function Save(gs: seq<Group>): Xml {
      Xml("blist", map[], None, GroupXmls(gs))
    }

    // ---- loading ----

    function Attrib(x: Xml, name: string): Option<string> {
      if name in x.attribs then Some(x.attribs[name]) else None
    }

    /** `xmlnode_get_child` and `xmlnode_get_data` */
    function DataOf(xs: seq<Xml>, tag: string): Option<string> {
      if xs == [] then None else if xs[0].tag == tag then xs[0].data else DataOf(xs[1..], tag)
    }

    /** `parse_setting` */
    function ParseSetting(settings: Settings, x: Xml): Settings {
      var name, kind := Attrib(x, "name"), Attrib(x, "type");
      if x.data == None || name == None then settings
      else if kind == None || kind == Some("string") then settings[name.value := StringValue(x.data.value)]
      else if kind == Some("bool") then settings[name.value := BoolValue(Atoi(x.data.value) != 0)]
      else if kind == Some("int") then settings[name.value := IntValue(Atoi(x.data.value))]
      else settings
    }

    function ParseSettings(settings: Settings, xs: seq<Xml>): Settings
      decreases |xs|
    {
      if xs == [] then settings
      else ParseSettings(if xs[0].tag == "setting" then ParseSetting(settings, xs[0]) else settings, xs[1..])
    }

    /** `purple_accounts_find` for the attributes of an element */
    function FindAccount(x: Xml): Option<Account> {
      var name, proto, protocol := Attrib(x, "account"), Attrib(x, "proto"), Attrib(x, "protocol");
      if name == None || (proto == None && protocol == None) then None
      else var a := Account(name.value, if proto.Some? then proto.value else protocol.value);
           if a in known then Some(a) else None
    }

    /** `parse_buddy` */
    function ParseBuddy(x: Xml): seq<Buddy> {
      var account, name := FindAccount(x), DataOf(x.children, "name");
      if account == None || name == None then []
      else [Buddy(account.value, name.value, DataOf(x.children, "alias"), ParseSettings(map[], x.children), true)]
    }

    function ParseBuddies(xs: seq<Xml>): seq<Buddy> {
      if xs == [] then [] else (if xs[0].tag == "buddy" then ParseBuddy(xs[0]) else []) + ParseBuddies(xs[1..])
    }

    function ParseComponents(components: map<string, Option<string>>, xs: seq<Xml>): map<string, Option<string>>
      decreases |xs|
    {
      if xs == [] then components
      else
        var name := Attrib(xs[0], "name");
        ParseComponents(if xs[0].tag == "component" &&
            name.Some? then components[name.value := xs[0].data] else components, xs[1..])
    }

    /** `parse_contact` and `parse_chat`: a contact left without buddies is not kept. */
    function ParseChild(x: Xml): seq<Child> {
      if x.tag == "contact" || x.tag == "person" then
        var buddies := ParseBuddies(x.children);
        if buddies == [] then []
        else [Contact(NonEmpty(Attrib(x, "alias")), buddies, ParseSettings(map[], x.children), true)]
      else if x.tag == "chat" then
        var account := FindAccount(x);
        if account == None then []
        else [Chat(account.value, NonEmpty(DataOf(x.children, "alias")), ParseComponents(map[], x.children),
                   ParseSettings(map[], x.children), true)]
      else []
    }

    function ParseChildren(xs: seq<Xml>): seq<Child> {
      if xs == [] then [] else ParseChild(xs[0]) + ParseChildren(xs[1..])
    }

    /** The groups without the one called `name`, and that one, or a new one. */
    function TakeGroup(gs: seq<Group>, name: string): (seq<Group>, Group) {
      if gs == [] then ([], Group(name, map[], [], true))
      else if collate(gs[0].name) == collate(name) then (gs[1..], gs[0])
      else var r := TakeGroup(gs[1..], name); ([gs[0]] + r.0, r.1)
    }

    /** `parse_group`: a group that exists already comes last and gets the children in addition. */
    function ParseGroup(gs: seq<Group>, x: Xml): seq<Group> {
      var name := Attrib(x, "name");
      var r := TakeGroup(gs, if name.Some? then name.value else "Buddies");
      r.0 + [r.1.(settings := ParseSettings(r.1.settings, x.children), children :=
          r.1.children + ParseChildren(x.children))]
    }

    function ParseGroups(gs: seq<Group>, xs: seq<Xml>): seq<Group>
      decreases |xs|
    {
      if xs == [] then gs else ParseGroups(if xs[0].tag == "group" then ParseGroup(gs, xs[0]) else gs, xs[1..])
    }

    function Load(x: Xml): seq<Group> {
      ParseGroups([], x.children)
    }

    // ---- what survives ----

    function PrunedSettings(settings: Settings): Settings {
      map k | k in settings && settings[k] != StringValue("") :: settings[k]
    }

    function PrunedBuddy(b: Buddy): Buddy {
      Buddy(b.account, b.name, NonEmpty(b.alias), PrunedSettings(b.settings), true)
    }

    function PrunedBuddies(bs: seq<Buddy>): seq<Buddy> {
      if bs == [] then []
      else (if bs[0].save && bs[0].name != "" &&
          bs[0].account in known then [PrunedBuddy(bs[0])] else []) + PrunedBuddies(bs[1..])
    }

    function PrunedComponents(components: map<string, Option<string>>): map<string, Option<string>> {
      map k | k in components && components[k].Some? :: NonEmpty(components[k])
    }

    function PrunedChild(c: Child): seq<Child> {
      if !c.save then []
      else match c
        case Contact(alias, buddies, settings, _) =>
          if PrunedBuddies(buddies) == [] then []
          else [Contact(NonEmpty(alias), PrunedBuddies(buddies), PrunedSettings(settings), true)]
        case Chat(account, alias, components, settings, _) =>
          if account !in known then []
          else [Chat(account, NonEmpty(alias), PrunedComponents(components), PrunedSettings(settings), true)]
    }

    function PrunedChildren(cs: seq<Child>): seq<Child> {
      if cs == [] then [] else PrunedChild(cs[0]) + PrunedChildren(cs[1..])
    }

    function PrunedGroup(g: Group): Group {
      Group(g.name, PrunedSettings(g.settings), PrunedChildren(g.children), true)
    }

    /** The list without the nodes that are not saved, without the buddies and
        chats of unknown accounts, and without contacts left without buddies; empty texts count as missing. */
    function Pruned(gs: seq<Group>): seq<Group> {
      if gs == [] then [] else (if gs[0].save then [PrunedGroup(gs[0])] else []) + Pruned(gs[1..])
    }

    // ---- one part after the other ----

    lemma {:induction false} SettingsConcat(settings: Settings, a: seq<Xml>, b: seq<Xml>)
      ensures ParseSettings(settings, a + b) == ParseSettings(ParseSettings(settings, a), b)
      decreases |a|
    {
      if a == [] {
        assert a + b == b;
      } else {
        assert (a + b)[1..] == a[1..] + b;
        SettingsConcat(if a[0].tag == "setting" then ParseSetting(settings, a[0]) else settings, a[1..], b);
      }
    }

    lemma {:induction false} SettingsSkip(settings: Settings, xs: seq<Xml>)
      requires forall x :: x in xs ==> x.tag != "setting"
      ensures ParseSettings(settings, xs) == settings
      decreases |xs|
    {
      if xs != [] {
        SettingsSkip(settings, xs[1..]);
      }
    }

    lemma {:induction false} BuddiesConcat(a: seq<Xml>, b: seq<Xml>)
      ensures ParseBuddies(a + b) == ParseBuddies(a) + ParseBuddies(b)
    {
      if a == [] {
        assert a + b == b;
      } else {
        assert (a + b)[1..] == a[1..] + b;
        BuddiesConcat(a[1..], b);
      }
    }

    lemma {:induction false} BuddiesSkip(xs: seq<Xml>)
      requires forall x :: x in xs ==> x.tag != "buddy"
      ensures ParseBuddies(xs) == []
    {
      if xs != [] {
        BuddiesSkip(xs[1..]);
      }
    }

    lemma {:induction false} ComponentsConcat(c: map<string, Option<string>>, a: seq<Xml>, b: seq<Xml>)
      ensures ParseComponents(c, a + b) == ParseComponents(ParseComponents(c, a), b)
      decreases |a|
    {
      if a == [] {
        assert a + b == b;
      } else {
        assert (a + b)[1..] == a[1..] + b;
        var name := Attrib(a[0], "name");
        ComponentsConcat(if a[0].tag == "component" && name.Some? then c[name.value := a[0].data] else c, a[1..], b);
      }
    }

    lemma {:induction false} ComponentsSkip(c: map<string, Option<string>>, xs: seq<Xml>)
      requires forall x :: x in xs ==> x.tag != "component"
      ensures ParseComponents(c, xs) == c
      decreases |xs|
    {
      if xs != [] {
        ComponentsSkip(c, xs[1..]);
      }
    }

    lemma {:induction false} ChildrenConcat(a: seq<Xml>, b: seq<Xml>)
      ensures ParseChildren(a + b) == ParseChildren(a) + ParseChildren(b)
    {
      if a == [] {
        assert a + b == b;
      } else {
        assert (a + b)[1..] == a[1..] + b;
        ChildrenConcat(a[1..], b);
      }
    }

    lemma {:induction false} ChildrenSkip(xs: seq<Xml>)
      requires forall x :: x in xs ==> x.tag != "contact" && x.tag != "person" && x.tag != "chat"
      ensures ParseChildren(xs) == []
    {
      if xs != [] {
        ChildrenSkip(xs[1..]);
      }
    }

    lemma {:induction false} DataSkip(a: seq<Xml>, b: seq<Xml>, tag: string)
      requires forall x :: x in a ==> x.tag != tag
      ensures DataOf(a + b, tag) == DataOf(b, tag)
    {
      if a == [] {
        assert a + b == b;
      } else {
        assert (a + b)[1..] == a[1..] + b;
        DataSkip(a[1..], b, tag);
      }
    }

    lemma DataNone(a: seq<Xml>, tag: string)
      requires forall x :: x in a ==> x.tag != tag
      ensures DataOf(a, tag) == None
    {
      assert a + [] == a;
      DataSkip(a, [], tag);
    }

    // ---- which elements there are ----

    lemma {:induction false} SettingTags(settings: Settings, keys: seq<string>)
      ensures forall x :: x in SettingXmls(settings, keys) ==> x.tag == "setting"
    {
      if keys != [] {
        SettingTags(settings, keys[1..]);
      }
    }

    lemma {:induction false} BuddyTags(bs: seq<Buddy>)
      ensures forall x :: x in BuddyXmls(bs) ==> x.tag == "buddy"
    {
      if bs != [] {
        BuddyTags(bs[1..]);
      }
    }

    lemma {:induction false} ComponentTags(components: map<string, Option<string>>, keys: seq<string>)
      ensures forall x :: x in ComponentXmls(components, keys) ==> x.tag == "component"
    {
      if keys != [] {
        ComponentTags(components, keys[1..]);
      }
    }

    lemma {:induction false} ChildTags(cs: seq<Child>)
      ensures forall x :: x in ChildXmls(cs) ==> x.tag == "contact" || x.tag == "chat"
    {
      if cs != [] {
        ChildTags(cs[1..]);
      }
    }

    // ---- settings ----

    function Kept(settings: Settings, keys: seq<string>): Settings {
      map k | k in settings && k in keys && settings[k] != StringValue("") :: settings[k]
    }

    lemma SettingComesBack(acc: Settings, name: string, value: Value)
      ensures ParseSetting(acc, Reread(SettingXml(name, value))) == if value == StringValue("") then acc
        else acc[name := value]
      ensures Reread(SettingXml(name, value)).tag == "setting"
    {
      match value
      case IntValue(n) =>
        AtoiIs(n);
        ReadDigitsIs(if n < 0 then -n else n, "");
      case StringValue(s) =>
      case BoolValue(b) =>
        AtoiIs(if b then 1 else 0);
        ReadDigitsIs(if b then 1 else 0, "");
    }

    lemma KeptStep(acc: Settings, settings: Settings, keys: seq<string>)
      requires keys != []
      ensures var k := keys[0];
              var next := if k !in settings || settings[k] == StringValue("") then acc else acc[k := settings[k]];
              next + Kept(settings, keys[1..]) == acc + Kept(settings, keys)
    {
      assert forall k :: k in keys <==> k == keys[0] || k in keys[1..];
    }

    lemma ParseHead(acc: Settings, x: Xml, rest: seq<Xml>)
      requires x.tag == "setting"
      ensures ParseSettings(acc, [x] + rest) == ParseSettings(ParseSetting(acc, x), rest)
    {
      assert ([x] + rest)[1..] == rest;
    }

    lemma SettingXmlsIs(settings: Settings, keys: seq<string>)
      ensures keys == [] ==> SettingXmls(settings, keys) == []
      ensures keys != [] && keys[0] !in settings ==> SettingXmls(settings, keys) == SettingXmls(settings, keys[1..])
      ensures keys != [] && keys[0] in settings ==>
                SettingXmls(settings, keys) == [SettingXml(keys[0], settings[keys[0]])] + SettingXmls(settings,
                    keys[1..])
    {
    }

    lemma {:induction false} SettingsComeBack(acc: Settings, settings: Settings, keys: seq<string>)
      ensures ParseSettings(acc, RereadAll(SettingXmls(settings, keys))) == acc + Kept(settings, keys)
      decreases |keys|
    {
      SettingXmlsIs(settings, keys);
      if keys == [] {
        assert Kept(settings, keys) == map[];
      } else {
        var k, rest := keys[0], SettingXmls(settings, keys[1..]);
        KeptStep(acc, settings, keys);
        hide *;
        if k in settings {
          var x := SettingXml(k, settings[k]);
          RereadHead(x, rest);
          SettingComesBack(acc, k, settings[k]);
          ParseHead(acc, Reread(x), RereadAll(rest));
          SettingsComeBack(ParseSetting(acc, Reread(x)), settings, keys[1..]);
        } else {
          SettingsComeBack(acc, settings, keys[1..]);
        }
      }
    }

    lemma RereadHead(x: Xml, rest: seq<Xml>)
      ensures RereadAll([x] + rest) == [Reread(x)] + RereadAll(rest)
      ensures RereadAll([x] + rest)[0] == Reread(x) && RereadAll([x] + rest)[1..] == RereadAll(rest)
    {
    }

    lemma AllSettingsComeBack(settings: Settings)
      requires Complete()
      ensures ParseSettings(map[], RereadAll(AllSettings(settings))) == PrunedSettings(settings)
    {
      SettingsComeBack(map[], settings, order(settings.Keys));
      assert map[] + Kept(settings, order(settings.Keys)) == PrunedSettings(settings);
    }

    // ---- buddies ----

    lemma AliasTags(alias: Option<string>)
      ensures forall x :: x in AliasXml(alias) ==> x.tag == "alias"
      ensures DataOf(RereadAll(AliasXml(alias)), "alias") == NonEmpty(alias)
    {
    }

    /** The children of the element of a buddy, read again. */
    lemma BuddyParts(b: Buddy)
      ensures var x := Reread(BuddyXml(b));
              var rest := RereadAll(AliasXml(b.alias)) + RereadAll(AllSettings(b.settings));
              && x.tag == "buddy" && x.attribs == map["account" := b.account.username, "proto" := b.account.protocol]
              && x.children == [Xml("name", map[], NonEmpty(Some(b.name)), [])] + rest
    {
      var name := Xml("name", map[], Some(b.name), []);
      RereadIs(BuddyXml(b));
      RereadConcat([name] + AliasXml(b.alias), AllSettings(b.settings));
      RereadConcat([name], AliasXml(b.alias));
      RereadLeaf(name);
      hide AllSettings, AliasXml, RereadAll;
    }

    lemma DataOfBuddy(b: Buddy)
      ensures var xs := Reread(BuddyXml(b)).children;
              DataOf(xs, "name") == NonEmpty(Some(b.name)) && DataOf(xs, "alias") == NonEmpty(b.alias)
    {
      var name, alias, settings := Xml("name", map[], NonEmpty(Some(b.name)), []), RereadAll(AliasXml(b.alias)),
          RereadAll(AllSettings(b.settings));
      BuddyParts(b);
      AliasTags(b.alias);
      SettingTags(b.settings, order(b.settings.Keys));
      RereadTags(AllSettings(b.settings), {"setting"});
      DataNone(settings, "alias");
      assert ([name] + (alias + settings))[0] == name && ([name] + (alias + settings))[1..] == alias + settings;
      if b.alias.Some? {
        assert alias == [Xml("alias", map[], NonEmpty(b.alias), [])];
      } else {
        assert alias == [] && alias + settings == settings;
      }
    }

    lemma SettingsOfBuddy(b: Buddy)
      requires Complete()
      ensures ParseSettings(map[], Reread(BuddyXml(b)).children) == PrunedSettings(b.settings)
    {
      var name, alias, settings := Xml("name", map[], NonEmpty(Some(b.name)), []), RereadAll(AliasXml(b.alias)),
          RereadAll(AllSettings(b.settings));
      BuddyParts(b);
      AliasTags(b.alias);
      RereadTags(AliasXml(b.alias), {"alias"});
      AllSettingsComeBack(b.settings);
      hide ParseSettings, AliasXml, AllSettings, RereadAll, Reread, BuddyXml;
      SettingsConcat(map[], [name] + alias, settings);
      SettingsSkip(map[], [name] + alias);
      assert [name] + (alias + settings) == [name] + alias + settings;
    }

    lemma BuddyComesBack(b: Buddy)
      requires Complete()
      ensures ParseBuddy(Reread(BuddyXml(b))) == if b.name != "" && b.account in known then [PrunedBuddy(b)] else []
    {
      BuddyParts(b);
      DataOfBuddy(b);
      SettingsOfBuddy(b);
      hide BuddyXml, Reread, ParseSettings, PrunedSettings;
    }

    lemma {:induction false} BuddiesComeBack(bs: seq<Buddy>)
      requires Complete()
      ensures ParseBuddies(RereadAll(BuddyXmls(bs))) == PrunedBuddies(bs)
    {
      if bs != [] {
        var rest := BuddyXmls(bs[1..]);
        BuddiesComeBack(bs[1..]);
        if bs[0].save {
          BuddyComesBack(bs[0]);
          BuddyParts(bs[0]);
          RereadHead(BuddyXml(bs[0]), rest);
          hide BuddyXml, Reread, ParseBuddy, PrunedBuddy;
        } else {
          assert [] + rest == rest;
        }
      }
    }

    // ---- contacts and chats ----

    lemma ContactComesBack(c: Child)
      requires Complete() && c.Contact? && c.save
      ensures ParseChild(Reread(ChildXml(c))) == PrunedChild(c)
    {
      var buddies, settings := BuddyXmls(c.buddies), AllSettings(c.settings);
      BuddyTags(c.buddies);
      SettingTags(c.settings, order(c.settings.Keys));
      BuddiesComeBack(c.buddies);
      AllSettingsComeBack(c.settings);
      RereadIs(ChildXml(c));
      RereadConcat(buddies, settings);
      RereadTags(buddies, {"buddy"});
      RereadTags(settings, {"setting"});
      hide BuddyXmls, AllSettings, RereadAll, Reread, ParseSettings, ParseBuddies, PrunedBuddies, PrunedSettings;
      BuddiesConcat(RereadAll(buddies), RereadAll(settings));
      BuddiesSkip(RereadAll(settings));
      SettingsConcat(map[], RereadAll(buddies), RereadAll(settings));
      SettingsSkip(map[], RereadAll(buddies));
      assert PrunedBuddies(c.buddies) + [] == PrunedBuddies(c.buddies);
    }

    function KeptComponents(components: map<string, Option<string>>, keys: seq<string>): map<string, Option<string>> {
      map k | k in components && k in keys && components[k].Some? :: NonEmpty(components[k])
    }

    lemma KeptComponentsStep(acc: map<string, Option<string>>, components: map<string, Option<string>>,
        keys: seq<string>)
      requires keys != []
      ensures var k := keys[0];
              var next := if k !in components || components[k].None? then acc else acc[k := NonEmpty(components[k])];
              next + KeptComponents(components, keys[1..]) == acc + KeptComponents(components, keys)
    {
      assert forall k :: k in keys <==> k == keys[0] || k in keys[1..];
    }

    lemma {:induction false} ComponentsComeBack(acc: map<string, Option<string>>, components: map<string,
        Option<string>>, keys: seq<string>)
      ensures ParseComponents(acc, RereadAll(ComponentXmls(components, keys))) == acc + KeptComponents(components, keys)
      decreases |keys|
    {
      if keys == [] {
        assert KeptComponents(components, keys) == map[];
      } else {
        var k, rest := keys[0], ComponentXmls(components, keys[1..]);
        KeptComponentsStep(acc, components, keys);
        hide KeptComponents;
        if k in components && components[k].Some? {
          var x := Xml("component", map["name" := k], components[k], []);
          RereadHead(x, rest);
          RereadLeaf(x);
          assert ComponentXmls(components, keys) == [x] + rest;
          hide Reread, RereadAll, ComponentXmls;
          ComponentsComeBack(acc[k := NonEmpty(components[k])], components, keys[1..]);
        } else {
          assert [] + rest == rest;
          ComponentsComeBack(acc, components, keys[1..]);
        }
      }
    }

    lemma AllComponentsComeBack(components: map<string, Option<string>>)
      requires Complete()
      ensures ParseComponents(map[], RereadAll(ComponentXmls(components, order(components.Keys)))) ==
        PrunedComponents(components)
    {
      ComponentsComeBack(map[], components, order(components.Keys));
      assert map[] + KeptComponents(components, order(components.Keys)) == PrunedComponents(components);
    }

    /** The children of the element of a chat, read again. */
    lemma ChatParts(c: Child)
      requires c.Chat?
      ensures var x := Reread(ChildXml(c));
              var alias, components, settings := RereadAll(AliasXml(c.alias)),
                RereadAll(ComponentXmls(c.components, order(c.components.Keys))), RereadAll(AllSettings(c.settings));
              && x.tag == "chat" && x.attribs == map["proto" := c.account.protocol, "account" := c.account.username]
              && x.children == alias + components + settings
              && (forall y :: y in alias ==> y.tag == "alias") && (forall y :: y in components ==> y.tag == "component")
              && (forall y :: y in settings ==> y.tag == "setting")
    {
      var components := ComponentXmls(c.components, order(c.components.Keys));
      RereadIs(ChildXml(c));
      AliasTags(c.alias);
      ComponentTags(c.components, order(c.components.Keys));
      SettingTags(c.settings, order(c.settings.Keys));
      RereadTags(AliasXml(c.alias), {"alias"});
      RereadTags(components, {"component"});
      RereadTags(AllSettings(c.settings), {"setting"});
      RereadConcat(AliasXml(c.alias) + components, AllSettings(c.settings));
      RereadConcat(AliasXml(c.alias), components);
      hide AllSettings, AliasXml, ComponentXmls, RereadAll;
    }

    lemma DataOfChat(c: Child)
      requires c.Chat?
      ensures DataOf(Reread(ChildXml(c)).children, "alias") == NonEmpty(c.alias)
    {
      var alias, components, settings := RereadAll(AliasXml(c.alias)),
        RereadAll(ComponentXmls(c.components, order(c.components.Keys))), RereadAll(AllSettings(c.settings));
      ChatParts(c);
      AliasTags(c.alias);
      assert alias + components + settings == alias + (components + settings);
      DataNone(components + settings, "alias");
      if c.alias.Some? {
        RereadLeaf(Xml("alias", map[], c.alias, []));
        assert (alias + (components + settings))[0] == alias[0];
      } else {
        assert alias == [] && alias + (components + settings) == components + settings;
      }
    }

    lemma PartsOfChat(c: Child)
      requires Complete() && c.Chat?
      ensures ParseSettings(map[], Reread(ChildXml(c)).children) == PrunedSettings(c.settings)
      ensures ParseComponents(map[], Reread(ChildXml(c)).children) == PrunedComponents(c.components)
    {
      var alias, components, settings := RereadAll(AliasXml(c.alias)),
        RereadAll(ComponentXmls(c.components, order(c.components.Keys))), RereadAll(AllSettings(c.settings));
      ChatParts(c);
      AllSettingsComeBack(c.settings);
      AllComponentsComeBack(c.components);
      hide ParseSettings, ParseComponents, AliasXml, AllSettings, ComponentXmls, RereadAll, Reread, ChildXml,
          PrunedSettings, PrunedComponents;
      SettingsConcat(map[], alias + components, settings);
      SettingsSkip(map[], alias + components);
      ComponentsConcat(map[], alias + components, settings);
      ComponentsConcat(map[], alias, components);
      ComponentsSkip(map[], alias);
      ComponentsSkip(PrunedComponents(c.components), settings);
    }

    lemma ChatComesBack(c: Child)
      requires Complete() && c.Chat? && c.save
      ensures ParseChild(Reread(ChildXml(c))) == PrunedChild(c)
    {
      ChatParts(c);
      DataOfChat(c);
      PartsOfChat(c);
      hide ChildXml, Reread, ParseSettings, ParseComponents, DataOf, PrunedSettings, PrunedComponents;
    }

    lemma {:induction false} ChildrenComeBack(cs: seq<Child>)
      requires Complete()
      ensures ParseChildren(RereadAll(ChildXmls(cs))) == PrunedChildren(cs)
    {
      if cs != [] {
        var rest := ChildXmls(cs[1..]);
        ChildrenComeBack(cs[1..]);
        if cs[0].save {
          if cs[0].Contact? {
            ContactComesBack(cs[0]);
          } else {
            ChatComesBack(cs[0]);
          }
          RereadHead(ChildXml(cs[0]), rest);
          hide ChildXml, Reread, ParseChild, PrunedChild;
          assert ChildXmls(cs) == [ChildXml(cs[0])] + rest;
        } else {
          assert [] + rest == rest;
        }
      }
    }

    // ---- groups ----

    /** No group of `gs` has the name `name`. */
    ghost predicate NewName(gs: seq<Group>, name: string) {
      forall g :: g in gs ==> collate(g.name) != collate(name)
    }

    lemma {:induction false} TakeNew(gs: seq<Group>, name: string)
      requires NewName(gs, name)
      ensures TakeGroup(gs, name) == (gs, Group(name, map[], [], true))
    {
      if gs != [] {
        assert gs[0] in gs && [gs[0]] + gs[1..] == gs;
        TakeNew(gs[1..], name);
      }
    }

    lemma GroupParts(g: Group)
      requires Complete()
      ensures var xs := Reread(GroupXml(g)).children;
              ParseSettings(map[], xs) == PrunedSettings(g.settings) && ParseChildren(xs) == PrunedChildren(g.children)
      ensures Reread(GroupXml(g)).tag == "group"
      ensures Reread(GroupXml(g)).attribs == if g.name != "Buddies" then map["name" := g.name] else map[]
    {
      var settings, children := AllSettings(g.settings), ChildXmls(g.children);
      RereadIs(GroupXml(g));
      RereadConcat(settings, children);
      SettingTags(g.settings, order(g.settings.Keys));
      ChildTags(g.children);
      RereadTags(settings, {"setting"});
      RereadTags(children, {"contact", "chat"});
      AllSettingsComeBack(g.settings);
      ChildrenComeBack(g.children);
      hide AllSettings, ChildXmls, RereadAll, Reread, ParseSettings, ParseChildren, PrunedSettings, PrunedChildren;
      var a, b := RereadAll(settings), RereadAll(children);
      SettingsConcat(map[], a, b);
      SettingsSkip(PrunedSettings(g.settings), b);
      ChildrenConcat(a, b);
      ChildrenSkip(a);
      assert [] + PrunedChildren(g.children) == PrunedChildren(g.children);
    }

    lemma GroupComesBack(gs: seq<Group>, g: Group)
      requires Complete() && NewName(gs, g.name)
      ensures ParseGroup(gs, Reread(GroupXml(g))) == gs + [PrunedGroup(g)]
    {
      GroupParts(g);
      TakeNew(gs, g.name);
      hide GroupXml, Reread, ParseSettings, ParseChildren, PrunedSettings, PrunedChildren, TakeGroup, NewName;
      assert [] + PrunedChildren(g.children) == PrunedChildren(g.children);
    }

    /** The names of all groups differ. */
    ghost predicate DistinctNames(gs: seq<Group>) {
      forall i, j :: 0 <= i < j < |gs| ==> collate(gs[i].name) != collate(gs[j].name)
    }

    /** No group of `gs` has the name of one of `more`. */
    ghost predicate Apart(gs: seq<Group>, more: seq<Group>) {
      forall g, h :: g in gs && h in more ==> collate(g.name) != collate(h.name)
    }

    lemma NextName(gs: seq<Group>, more: seq<Group>)
      requires DistinctNames(more) && Apart(gs, more) && more != []
      ensures DistinctNames(more[1..]) && Apart(gs, more[1..]) && NewName(gs, more[0].name)
      ensures Apart(gs + [PrunedGroup(more[0])], more[1..])
    {
      assert more[0] in more && forall h :: h in more[1..] ==> h in more;
      GroupNames(more[0]);
      forall h | h in more[1..] ensures collate(more[0].name) != collate(h.name) {
        var i :| 0 <= i < |more| - 1 && more[1..][i] == h;
        assert more[i + 1] == h;
      }
      hide PrunedGroup;
    }

    lemma GroupXmlsIs(gs: seq<Group>)
      requires gs != []
      ensures GroupXmls(gs) == if gs[0].save then [GroupXml(gs[0])] + GroupXmls(gs[1..]) else GroupXmls(gs[1..])
      ensures Pruned(gs) == if gs[0].save then [PrunedGroup(gs[0])] + Pruned(gs[1..]) else Pruned(gs[1..])
    {
    }

    lemma ParseGroupsHead(gs: seq<Group>, x: Xml, rest: seq<Xml>)
      requires x.tag == "group"
      ensures ParseGroups(gs, [x] + rest) == ParseGroups(ParseGroup(gs, x), rest)
    {
      assert ([x] + rest)[1..] == rest;
    }

    lemma NoGroups(gs: seq<Group>)
      ensures ParseGroups(gs, RereadAll(GroupXmls([]))) == gs && Pruned([]) == []
    {
    }

    lemma {:induction false} GroupsComeBack(gs: seq<Group>, more: seq<Group>)
      requires Complete() && DistinctNames(more) && Apart(gs, more)
      ensures ParseGroups(gs, RereadAll(GroupXmls(more))) == gs + Pruned(more)
      decreases |more|
    {
      hide *;
      if more == [] {
        NoGroups(gs);
      } else {
        var g, rest := more[0], GroupXmls(more[1..]);
        NextName(gs, more);
        GroupXmlsIs(more);
        if g.save {
          RereadHead(GroupXml(g), rest);
          GroupComesBack(gs, g);
          GroupParts(g);
          ParseGroupsHead(gs, Reread(GroupXml(g)), RereadAll(rest));
          GroupsComeBack(gs + [PrunedGroup(g)], more[1..]);
        } else {
          GroupsComeBack(gs, more[1..]);
        }
      }
    }

    lemma GroupNames(g: Group)
      ensures PrunedGroup(g).name == g.name
    {
    }

    /** Loading what was saved gives the pruned list. */
    lemma RoundTrip(gs: seq<Group>)
      requires Complete() && DistinctNames(gs)
      ensures Load(Reread(Save(gs))) == Pruned(gs)
    {
      RereadIs(Save(gs));
      GroupsComeBack([], gs);
      assert [] + Pruned(gs) == Pruned(gs);
    }

    // ---- a second time ----

    lemma SettingsSettle(settings: Settings)
      ensures PrunedSettings(PrunedSettings(settings)) == PrunedSettings(settings)
    {
    }

    lemma {:induction false} BuddiesSettle(bs: seq<Buddy>)
      ensures PrunedBuddies(PrunedBuddies(bs)) == PrunedBuddies(bs)
    {
      if bs != [] {
        var rest := PrunedBuddies(bs[1..]);
        BuddiesSettle(bs[1..]);
        if bs[0].save && bs[0].name != "" && bs[0].account in known {
          var b := PrunedBuddy(bs[0]);
          SettingsSettle(bs[0].settings);
          assert ([b] + rest)[1..] == rest && PrunedBuddy(b) == b;
        } else {
          assert [] + rest == rest;
        }
      }
    }

    /** No component is the empty text. */
    predicate Solid(components: map<string, Option<string>>) {
      forall k :: k in components ==> components[k] != Some("")
    }

    lemma ComponentsSettle(components: map<string, Option<string>>)
      ensures PrunedComponents(PrunedComponents(components)) == PrunedComponents(components) <==> Solid(components)
      ensures Solid(PrunedComponents(components))
    {
      var once, twice := PrunedComponents(components), PrunedComponents(PrunedComponents(components));
      if Solid(components) {
        assert forall k :: k in once ==> once[k].Some?;
      } else {
        var k :| k in components && components[k] == Some("");
        assert k in once && k !in twice;
      }
    }

    /** A child that is saved and loaded twice is as after the first time,
        unless it is a chat with an empty component. */
    predicate Settles(c: Child) {
      c.Chat? && c.save && c.account in known ==> Solid(c.components)
    }

    lemma ChildSettles(c: Child)
      ensures PrunedChild(c) == [] || (|PrunedChild(c)| == 1 && |PrunedChild(PrunedChild(c)[0])| == 1)
      ensures PrunedChild(c) != [] ==> (PrunedChild(PrunedChild(c)[0]) == PrunedChild(c) <==> Settles(c))
      ensures PrunedChild(c) == [] ==> Settles(c)
      ensures PrunedChild(c) != [] ==> Settles(PrunedChild(c)[0])
    {
      SettingsSettle(c.settings);
      if c.Contact? {
        BuddiesSettle(c.buddies);
      } else {
        ComponentsSettle(c.components);
      }
      hide PrunedSettings, PrunedBuddies, PrunedComponents, Solid;
    }

    lemma {:induction false} ChildrenSettle(cs: seq<Child>)
      ensures PrunedChildren(PrunedChildren(cs)) == PrunedChildren(cs) <==> forall c :: c in cs ==> Settles(c)
      ensures forall c :: c in PrunedChildren(cs) ==> Settles(c)
    {
      if cs != [] {
        var rest := PrunedChildren(cs[1..]);
        ChildrenSettle(cs[1..]);
        ChildSettles(cs[0]);
        assert forall c :: c in cs <==> c == cs[0] || c in cs[1..];
        if PrunedChild(cs[0]) == [] {
          assert [] + rest == rest;
        } else {
          var d := PrunedChild(cs[0])[0];
          assert PrunedChild(cs[0]) == [d] && ([d] + rest)[1..] == rest;
          hide PrunedChild, Settles;
          var e := PrunedChild(d)[0];
          assert PrunedChild(d) == [e];
          assert PrunedChildren([d] + rest) == [e] + PrunedChildren(rest);
          SameTail(d, e, rest, PrunedChildren(rest));
        }
      }
    }

    lemma SameTail<T>(d: T, e: T, s: seq<T>, t: seq<T>)
      ensures [e] + t == [d] + s <==> e == d && t == s
    {
      assert ([e] + t)[0] == e && ([e] + t)[1..] == t && ([d] + s)[0] == d && ([d] + s)[1..] == s;
    }

    /** No chat that is saved has an empty component. */
    predicate GroupSettles(g: Group) {
      g.save ==> forall c :: c in g.children ==> Settles(c)
    }

    lemma OneGroupSettles(g: Group)
      requires g.save
      ensures PrunedGroup(PrunedGroup(g)) == PrunedGroup(g) <==> GroupSettles(g)
      ensures GroupSettles(PrunedGroup(g)) && PrunedGroup(g).save
    {
      SettingsSettle(g.settings);
      ChildrenSettle(g.children);
      hide PrunedSettings, PrunedChildren, Settles;
    }

    /** Pruning a pruned list changes nothing exactly if no chat that is saved has an empty component. */
    lemma {:induction false} PrunedTwice(gs: seq<Group>)
      ensures Pruned(Pruned(gs)) == Pruned(gs) <==> forall g :: g in gs ==> GroupSettles(g)
      ensures forall g :: g in Pruned(gs) ==> GroupSettles(g)
    {
      if gs != [] {
        var rest := Pruned(gs[1..]);
        PrunedTwice(gs[1..]);
        assert forall g :: g in gs <==> g == gs[0] || g in gs[1..];
        if gs[0].save {
          OneGroupSettles(gs[0]);
          var d := PrunedGroup(gs[0]);
          assert ([d] + rest)[1..] == rest;
          hide PrunedGroup, GroupSettles;
          assert Pruned([d] + rest) == [PrunedGroup(d)] + Pruned(rest);
          SameTail(d, PrunedGroup(d), rest, Pruned(rest));
        } else {
          assert [] + rest == rest;
        }
      }
    }

    lemma {:induction false} PrunedNames(gs: seq<Group>)
      requires DistinctNames(gs)
      ensures DistinctNames(Pruned(gs))
      ensures forall g :: g in Pruned(gs) ==> exists h :: h in gs && h.name == g.name
    {
      hide PrunedSettings, PrunedChildren;
      if gs != [] {
        var rest := Pruned(gs[1..]);
        assert forall h :: h in gs <==> h == gs[0] || h in gs[1..];
        assert forall i :: 0 <= i < |gs| - 1 ==> gs[1..][i] == gs[i + 1];
        PrunedNames(gs[1..]);
        if gs[0].save {
          var d := PrunedGroup(gs[0]);
          forall i | 0 <= i < |rest| ensures collate(d.name) != collate(rest[i].name) {
            assert rest[i] in rest;
            var h :| h in gs[1..] && h.name == rest[i].name;
          }
          assert Pruned(gs) == [d] + rest;
        } else {
          assert [] + rest == rest;
        }
      }
    }

    /** Saving and loading once more changes nothing exactly if no chat that
        was saved had an empty component, and from then on never. */
    lemma SecondRound(gs: seq<Group>)
      requires Complete() && DistinctNames(gs)
      ensures var once := Load(Reread(Save(gs)));
              var twice := Load(Reread(Save(once)));
              && (twice == once <==> forall g :: g in gs ==> GroupSettles(g))
              && Load(Reread(Save(twice))) == twice
    {
      hide *;
      RoundTrip(gs);
      PrunedNames(gs);
      RoundTrip(Pruned(gs));
      PrunedNames(Pruned(gs));
      RoundTrip(Pruned(Pruned(gs)));
      PrunedTwice(gs);
      PrunedTwice(Pruned(gs));
    }

    /** A list with one chat and nothing else */
    function OneChat(account: Account, components: map<string, Option<string>>): seq<Group> {
      [Group("A", map[], [Chat(account, None, components, map[], true)], true)]
    }

    lemma OneChatComesBack(account: Account, components: map<string, Option<string>>)
      requires Complete() && account in known
      ensures Load(Reread(Save(OneChat(account, components)))) == OneChat(account, PrunedComponents(components))
    {
      hide Load, Reread, Save, Complete, Pruned, PrunedComponents;
      RoundTrip(OneChat(account, components));
      PrunedOne(Chat(account, None, components, map[], true));
    }

    /** A chat with an empty component: the first time it comes back without a
        value, the second time it does not come back. */
    lemma EmptyComponent(account: Account)
      requires Complete() && account in known
      ensures var once := Load(Reread(Save(OneChat(account, map["room" := Some("")]))));
              && once == OneChat(account, map["room" := None])
              && Load(Reread(Save(once))) == OneChat(account, map[])
    {
      hide Load, Reread, Save, Complete, Pruned;
      var full, emptied: map<string, Option<string>> := map["room" := Some("")], map["room" := None];
      OneChatComesBack(account, full);
      OneChatComesBack(account, emptied);
      assert PrunedComponents(full) == emptied && PrunedComponents(emptied) == map[];
    }

    lemma PrunedOne(c: Child)
      requires c.Chat? && c.save && c.account in known && c.alias == None && c.settings == map[]
      ensures Pruned([Group("A", map[], [c], true)]) ==
        [Group("A", map[], [c.(components := PrunedComponents(c.components))], true)]
    {
      assert PrunedSettings(map[]) == map[];
      assert [c][1..] == [] && PrunedChildren([c]) == PrunedChild(c) + PrunedChildren([]) == PrunedChild(c);
      var g := Group("A", map[], [c], true);
      assert [g][1..] == [] && Pruned([g]) == [PrunedGroup(g)] + Pruned([]);
    }
  }

  lemma RereadLeaf(x: Xml)
    requires x.children == []
    ensures Reread(x) == Xml(x.tag, x.attribs, NonEmpty(x.data), []) && RereadAll([x]) == [Reread(x)]
  {
    assert Reread(x).children == [];
  }

  lemma RereadConcat(a: seq<Xml>, b: seq<Xml>)
    ensures RereadAll(a + b) == RereadAll(a) + RereadAll(b)
  {
  }

  lemma RereadTags(xs: seq<Xml>, tags: set<string>)
    requires forall x :: x in xs ==> x.tag in tags
    ensures forall x :: x in RereadAll(xs) ==> x.tag in tags
  {
    forall i | 0 <= i < |xs| ensures RereadAll(xs)[i].tag in tags {
      assert xs[i] in xs;
    }
  }

  lemma RereadIs(x: Xml)
    ensures Reread(x) == Xml(x.tag, x.attribs, NonEmpty(x.data), RereadAll(x.children))
  {
  }
}
