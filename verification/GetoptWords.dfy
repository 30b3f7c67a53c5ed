/** Command lines as a user writes them: options in the forms that the option
    string and the table of long options allow, with operands between, and what
    each of them means. Nothing here refers to how the scanner reads them. */
module GetoptWords {
  import opened Options
  import opened GetoptScan

  /** How an element with option characters ends, after those without arguments. */
  datatype End =
    | Nothing
    | Attached(c: char, arg: string)     // -cARG
    | Separate(c: char, arg: string)     // -c ARG
    | Omitted(c: char)                   // -c, where the argument is optional
    | Lacking(c: char)                   // -c, where it is not, at the end of the command line

  datatype Value =
    | NoValue                            // --name
    | Equals(arg: string)                // --name=ARG
    | Following(arg: string)             // --name ARG

  /** What is written at one place of the command line. For a long option, `found`
      says which one is meant by the name or abbreviation that was typed. */
  datatype Item =
    | Operand(text: string)
    | Letters(flags: string, end: End)
    | Name(typed: string, found: Option<nat>, value: Value)

  // ---- what the option string says of a character ----

  /** The character is declared at position `i` of the option string. */
  ghost predicate DeclaredAt(g: Grammar, c: char, i: nat) {
    i < |g.optstring| && g.optstring[i] == c && c !in g.optstring[..i] && c != ':'
  }

  /** "c" without a colon: no argument */
  ghost predicate Bare(g: Grammar, c: char) {
    exists i :: 0 <= i < |g.optstring| && DeclaredAt(g, c, i) &&
      (i + 1 < |g.optstring| ==> g.optstring[i + 1] != ':')
  }

  /** "c:" with exactly one colon: an argument is required */
  ghost predicate OneColon(g: Grammar, c: char) {
    exists i :: 0 <= i < |g.optstring| - 1 && DeclaredAt(g, c, i) &&
      g.optstring[i + 1] == ':' && (i + 2 < |g.optstring| ==> g.optstring[i + 2] != ':')
  }

  /** "c::" with two colons: an argument is optional */
  ghost predicate TwoColons(g: Grammar, c: char) {
    exists i :: 0 <= i < |g.optstring| - 2 && DeclaredAt(g, c, i) && g.optstring[i + 1..i + 3] == "::"
  }

  ghost predicate Undeclared(g: Grammar, c: char) {
    c == ':' || c !in g.optstring
  }

  /** The option at position `i` is meant by `typed`: the first of that name, or, if there is
      none of that name, the only one whose name starts so. */
  ghost predicate Meant(opts: seq<LongOption>, typed: string, i: nat) {
    && i < |opts|
    && if opts[i].name == typed then forall j :: 0 <= j < i ==> opts[j].name != typed
       else typed <= opts[i].name && forall j :: 0 <= j < |opts| && j != i ==> !(typed <= opts[j].name)
  }

  // ---- how it is written ----

  /** What the end adds to its element, and the element that follows. */
  function Tail(end: End): string {
    match end
    case Nothing => ""
    case Attached(c, arg) => [c] + arg
    case Separate(c, _) => [c]
    case Omitted(c) => [c]
    case Lacking(c) => [c]
  }

  function Extra(end: End): seq<string> {
    if end.Separate? then [end.arg] else []
  }

  function Words(item: Item): (words: seq<string>)
    ensures words != []
  {
    match item
    case Operand(text) => [text]
    case Letters(flags, end) => ["-" + flags + Tail(end)] + Extra(end)
    case Name(typed, _, NoValue) => ["--" + typed]
    case Name(typed, _, Equals(arg)) => ["--" + typed + "=" + arg]
    case Name(typed, _, Following(arg)) => ["--" + typed, arg]
  }

  ghost predicate ProperEnd(g: Grammar, end: End) {
    match end
    case Nothing => true
    case Attached(c, arg) => arg != "" && (OneColon(g, c) || TwoColons(g, c))
    case Separate(c, _) => OneColon(g, c)
    case Omitted(c) => TwoColons(g, c)
    case Lacking(c) => OneColon(g, c)
  }

  /** What can be written. */
  ghost predicate Proper(g: Grammar, item: Item) {
    match item
    case Operand(text) => |text| < 2 || text[0] != '-'
    case Letters(flags, end) =>
      && flags + Tail(end) != "" && flags + Tail(end) != "-"
      && (g.longopts.Some? ==> (flags + Tail(end))[0] != '-')
      && (forall c :: c in flags ==> Bare(g, c) || Undeclared(g, c)) && ProperEnd(g, end)
    case Name(typed, found, value) =>
      && g.longopts.Some? && '=' !in typed && (typed != "" || value.Equals?)
      && match found
         case Some(i) => Meant(g.longopts.value, typed, i) &&
             (value.Following? ==> g.longopts.value[i].hasArg == RequiredArgument)
         case None => !value.Following? && forall i :: !Meant(g.longopts.value, typed, i)
  }

  /** A required argument is missing. */
  ghost predicate Unfinished(g: Grammar, item: Item)
    requires Proper(g, item)
  {
    match item
    case Operand(_) => false
    case Letters(_, end) => end.Lacking?
    case Name(_, found, value) =>
      value.NoValue? && found.Some? && g.longopts.value[found.value].hasArg == RequiredArgument
  }

  // ---- what it means ----

  /** The code for a missing argument */
  function MissingCode(g: Grammar): char {
    if g.optstring != "" && g.optstring[0] == ':' then ':' else '?'
  }

  ghost function FlagEvents(g: Grammar, flags: string): seq<Event> {
    if flags == "" then []
    else [if Undeclared(g, flags[0]) then Bad('?', Some(flags[0]))
        else Short(flags[0], None)] + FlagEvents(g, flags[1..])
  }

  ghost function EndEvents(g: Grammar, end: End): seq<Event> {
    match end
    case Nothing => []
    case Attached(c, arg) => [Short(c, Some(arg))]
    case Separate(c, arg) => [Short(c, Some(arg))]
    case Omitted(c) => [Short(c, None)]
    case Lacking(c) => [Bad(MissingCode(g), Some(c))]
  }

  /** A long option with a `flag` stores its `val` and returns zero, another one returns it. */
  function NameEvent(o: LongOption, i: nat, arg: Option<string>): Event {
    Long(i, arg, if o.flag then 0 else o.val, if o.flag then Some(o.val) else None)
  }

  ghost function EventsOf(g: Grammar, item: Item): seq<Event>
    requires Proper(g, item)
  {
    match item
    case Operand(_) => []
    case Letters(flags, end) => FlagEvents(g, flags) + EndEvents(g, end)
    case Name(_, found, value) =>
      if found == None then [Bad('?', None)]
      else
        var i, o := found.value, g.longopts.value[found.value];
        match value
        case NoValue => [if o.hasArg == RequiredArgument then Bad(MissingCode(g), None) else NameEvent(o, i, None)]
        case Equals(arg) => [if o.hasArg == NoArgument then Bad('?', None) else NameEvent(o, i, Some(arg))]
        case Following(arg) => [NameEvent(o, i, Some(arg))]
  }

  // ---- whole command lines ----

  function AllWords(items: seq<Item>): seq<string> {
    if items == [] then [] else Words(items[0]) + AllWords(items[1..])
  }

  ghost function AllEvents(g: Grammar, items: seq<Item>): seq<Event>
    requires forall item :: item in items ==> Proper(g, item)
  {
    if items == [] then [] else EventsOf(g, items[0]) + AllEvents(g, items[1..])
  }

  function OptionWords(items: seq<Item>): seq<string> {
    if items == [] then [] else (if items[0].Operand? then [] else Words(items[0])) + OptionWords(items[1..])
  }

  function OperandWords(items: seq<Item>): seq<string> {
    if items == [] then [] else (if items[0].Operand? then Words(items[0]) else []) + OperandWords(items[1..])
  }

  /** The items, and after them nothing, or "--" and operands, or, where options come first, operands. */
  ghost predicate ProperLine(g: Grammar, items: seq<Item>, tail: seq<string>) {
    && (forall item :: item in items ==> Proper(g, item) && (item.Operand? ==> !g.requireOrder))
    && (forall k :: 0 <= k < |items| && Unfinished(g, items[k]) ==> k == |items| - 1 && tail == [])
    && (tail == [] || tail[0] == "--" || (g.requireOrder && (|tail[0]| < 2 || tail[0][0] != '-')))
  }

  /** What the command line means. */
  ghost function Meaning(g: Grammar, items: seq<Item>, tail: seq<string>): Scan
    requires ProperLine(g, items, tail)
  {
    if tail != [] && tail[0] == "--"
    then Scan(AllEvents(g, items), OptionWords(items) + ["--"], OperandWords(items) + tail[1..])
    else Scan(AllEvents(g, items), OptionWords(items), OperandWords(items) + tail)
  }

  // ---- the scan reads what was written ----

  lemma IndexAt(s: string, c: char, i: nat)
    requires i < |s| && s[i] == c && c !in s[..i]
    ensures Index(s, c) == i
  {
    assert forall j :: 0 <= j < i ==> s[..i][j] == s[j];
  }

  lemma KindIs(g: Grammar, c: char)
    ensures Undeclared(g, c) <==> !g.Known(c)
    ensures g.Known(c) ==> DeclaredAt(g, c, Index(g.optstring, c))
    ensures Bare(g, c) <==> g.Known(c) && g.Kind(c) == NoArgument
    ensures OneColon(g, c) <==> g.Known(c) && g.Kind(c) == RequiredArgument
    ensures TwoColons(g, c) <==> g.Known(c) && g.Kind(c) == OptionalArgument
  {
    var k := Index(g.optstring, c);
    forall i | 0 <= i < |g.optstring| && DeclaredAt(g, c, i) ensures i == k {
      IndexAt(g.optstring, c, i);
    }
    if k < |g.optstring| - 2 {
      assert g.optstring[k + 1..k + 3] == [g.optstring[k + 1], g.optstring[k + 2]];
    }
  }

  lemma MeantIs(g: Grammar, opts: seq<LongOption>, typed: string)
    ensures forall i: nat :: Meant(opts, typed, i) <==> g.Lookup(opts, typed) == Found(i)
  {
    g.LookupIs(opts, typed);
    var m := g.Lookup(opts, typed);
    forall j | 0 <= j < |opts| ensures g.Fits(opts, typed, j) <==> typed <= opts[j].name {
    }
    forall i: nat ensures Meant(opts, typed, i) <==> m == Found(i) {
      if Meant(opts, typed, i) {
        assert g.Fits(opts, typed, i);
      }
    }
  }

  /** The last option character of an element, one with an argument. */
  lemma EndReads(g: Grammar, end: End, args: seq<string>, rest: seq<string>)
    requires end != Nothing && ProperEnd(g, end) && (end.Lacking? ==> rest == [])
    requires args != [] && args[1..] == Extra(end) + rest
    ensures g.ScanCluster(Tail(end), args) ==
      g.ScanAll(rest).After(EndEvents(g, end), [args[0]] + Extra(end), [])
  {
    var text, following := Tail(end), args[1..];
    KindIs(g, end.c);
    assert text[0] == end.c && (end.Attached? ==> text[1..] == end.arg);
    var n := if g.TakesNext(text, following) then 2 else 1;
    assert g.Ends(text) && [g.ShortEvent(text, following)] == EndEvents(g, end) && (n == 2 <==> end.Separate?);
    if end.Separate? {
      assert args[..2] == [args[0]] + Extra(end) && args[2..] == args[1..][1..] == rest;
    } else {
      assert args[..1] == [args[0]] + Extra(end) && args[1..] == rest;
    }
  }

  /** An option character without an argument, or one that is not declared. */
  lemma FlagReads(g: Grammar, text: string, following: seq<string>)
    requires text != "" && (Bare(g, text[0]) || Undeclared(g, text[0]))
    ensures [g.ShortEvent(text, following)] == FlagEvents(g, [text[0]]) && !g.TakesNext(text, following)
    ensures g.Ends(text) <==> |text| == 1
  {
    KindIs(g, text[0]);
    assert [text[0]][1..] == "";
  }

  lemma {:induction false} LettersRead(g: Grammar, flags: string, end: End, args: seq<string>, rest: seq<string>)
    requires flags + Tail(end) != "" && ProperEnd(g, end) && (end.Lacking? ==> rest == [])
    requires forall c :: c in flags ==> Bare(g, c) || Undeclared(g, c)
    requires args != [] && args[1..] == Extra(end) + rest
    ensures g.ScanCluster(flags + Tail(end), args) ==
      g.ScanAll(rest).After(FlagEvents(g, flags) + EndEvents(g, end), [args[0]] + Extra(end), [])
    decreases |flags|
  {
    hide *;
    var text, r := flags + Tail(end), g.ScanAll(rest);
    NoTail(end);
    if flags == "" {
      NoFlags(g);
      assert flags + Tail(end) == Tail(end) && [] + EndEvents(g, end) == EndEvents(g, end);
      EndReads(g, end, args, rest);
    } else {
      assert text[0] == flags[0] && text[1..] == flags[1..] + Tail(end);
      FlagReads(g, text, args[1..]);
      FlagsStep(g, flags);
      ClusterIs(g, text, args);
      if |text| == 1 {
        assert flags[1..] == "" && Tail(end) == "";
        NoFlags(g);
        OneFlag(g, end, args, rest);
        AfterTwice(r, FlagEvents(g, [flags[0]]), [], EndEvents(g, end), args[..1]);
      } else {
        LettersRead(g, flags[1..], end, args, rest);
        AfterTwice(r, FlagEvents(g, [flags[0]]), FlagEvents(g, flags[1..]), EndEvents(g, end), [args[0]] + Extra(end));
      }
    }
  }

  lemma NoFlags(g: Grammar)
    ensures FlagEvents(g, "") == []
  {
  }

  lemma NoTail(end: End)
    ensures Tail(end) == "" <==> end == Nothing
  {
  }

  lemma FlagsStep(g: Grammar, flags: string)
    requires flags != ""
    ensures FlagEvents(g, flags) == FlagEvents(g, [flags[0]]) + FlagEvents(g, flags[1..])
  {
    assert [flags[0]][1..] == "" && FlagEvents(g, "") == [];
  }

  lemma ClusterIs(g: Grammar, text: string, args: seq<string>)
    requires text != "" && args != [] && !g.TakesNext(text, args[1..])
    ensures g.ScanCluster(text, args) ==
      if g.Ends(text) then g.ScanAll(args[1..]).After([g.ShortEvent(text, args[1..])], args[..1], [])
      else if |text| > 1 then g.ScanCluster(text[1..], args).After([g.ShortEvent(text, args[1..])], [], [])
      else g.ScanCluster(text, args)
  {
  }

  lemma OneFlag(g: Grammar, end: End, args: seq<string>, rest: seq<string>)
    requires end == Nothing && args != [] && args[1..] == Extra(end) + rest
    ensures args[1..] == rest && EndEvents(g, end) == [] && args[..1] == [args[0]] + Extra(end)
  {
  }

  lemma AfterTwice(r: Scan, a: seq<Event>, b: seq<Event>, c: seq<Event>, words: seq<string>)
    ensures r.After(b + c, words, []).After(a, [], []) == r.After(a + b + c, words, [])
    ensures b + c == [] ==> r.After(a, words, []) == r.After(a + b + c, words, [])
  {
    assert a + (b + c + r.events) == a + b + c + r.events;
    assert [] + (words + r.options) == words + r.options && [] + ([] + r.operands) == [] + r.operands;
    assert b + c == [] ==> a + b + c == a + (b + c) == a;
  }

  /** The event and the number of elements of a long option, from what is looked up. */
  lemma NameMeans(g: Grammar, item: Item, text: string, following: seq<string>)
    requires item.Name? && Proper(g, item)
    requires Index(text, '=') == |item.typed| && text[..|item.typed|] == item.typed
    requires |item.typed| < |text| <==> item.value.Equals?
    requires item.value.Equals? ==> text[|item.typed| + 1..] == item.value.arg
    requires item.value.Following? ==> following != [] && following[0] == item.value.arg
    requires Unfinished(g, item) ==> following == []
    requires item.value.NoValue? && following != [] ==> !Unfinished(g, item)
    ensures [g.LongEvent(g.longopts.value, text, following)] == EventsOf(g, item)
    ensures g.LongTakesNext(g.longopts.value, text, following) <==> item.value.Following?
  {
    MeantIs(g, g.longopts.value, item.typed);
    hide Meant, Grammar.Lookup, Index;
  }

  lemma LongIs(g: Grammar, args: seq<string>)
    requires args != [] && |args[0]| > 2 && args[0][..2] == "--" && g.longopts.Some?
    ensures var n := if g.LongTakesNext(g.longopts.value, args[0][2..], args[1..]) then 2 else 1;
            g.ScanAll(args) ==
              g.ScanAll(args[n..]).After([g.LongEvent(g.longopts.value, args[0][2..], args[1..])], args[..n], [])
  {
    assert args[0][0] == args[0][..2][0] == '-' && args[0][1] == args[0][..2][1] == '-';
    hide Grammar.LongEvent, Grammar.LongTakesNext;
  }

  /** What is written behind the dashes. */
  lemma NameText(item: Item)
    requires item.Name? && '=' !in item.typed && (item.typed != "" || item.value.Equals?)
    ensures var first := Words(item)[0];
            var text := first[2..];
            && |first| > 2 && first[..2] == "--" && Index(text, '=') == |item.typed|
            && text[..|item.typed|] == item.typed && (|item.typed| < |text| <==> item.value.Equals?)
            && (item.value.Equals? ==> text[|item.typed| + 1..] == item.value.arg)
            && Words(item)[1..] == if item.value.Following? then [item.value.arg] else []
  {
    var more := if item.value.Equals? then "=" + item.value.arg else "";
    assert Words(item)[0] == "--" + (item.typed + more);
    IndexAtEquals(item.typed, more);
  }

  /** A long option, with what is written behind it. */
  lemma NameReads(g: Grammar, item: Item, args: seq<string>, rest: seq<string>)
    requires item.Name? && Proper(g, item) && (Unfinished(g, item) ==> rest == []) && args == Words(item) + rest
    ensures g.ScanAll(args) == g.ScanAll(rest).After(EventsOf(g, item), Words(item), [])
  {
    var extra := Words(item)[1..];
    hide Meant, Words, EventsOf, Grammar.ScanAll, Grammar.LongEvent, Grammar.LongTakesNext, Index;
    NameText(item);
    assert args[0] == Words(item)[0] && args[1..] == extra + rest;
    NameMeans(g, item, args[0][2..], args[1..]);
    LongIs(g, args);
    var n := if item.value.Following? then 2 else 1;
    assert args[..n] == Words(item) && args[n..] == rest;
  }

  lemma IndexAtEquals(typed: string, more: string)
    requires '=' !in typed && (more == "" || more[0] == '=')
    ensures Index(typed + more, '=') == |typed|
  {
    var s := typed + more;
    assert s[..|typed|] == typed;
    if more == "" {
      assert s == typed;
    } else {
      IndexAt(s, '=', |typed|);
    }
  }

  lemma ElementIs(g: Grammar, args: seq<string>)
    requires args != [] && |args[0]| >= 2 && args[0][0] == '-' && args[0] != "--"
    requires g.longopts.Some? ==> args[0][1] != '-'
    ensures g.ScanAll(args) == g.ScanCluster(args[0][1..], args)
  {
    hide Grammar.ScanCluster;
  }

  lemma ElementText(text: string)
    requires text != "" && text != "-"
    ensures var first := "-" + text; |first| >= 2 && first[0] == '-' && first[1] == text[0] && first[1..] == text
    ensures "-" + text != "--"
  {
    assert ("-" + text)[1..] == text && "--"[1..] == "-";
  }

  lemma ElementReads(g: Grammar, item: Item, args: seq<string>, rest: seq<string>)
    requires item.Letters? && Proper(g, item) && (Unfinished(g, item) ==> rest == []) && args == Words(item) + rest
    ensures g.ScanAll(args) == g.ScanAll(rest).After(EventsOf(g, item), Words(item), [])
  {
    var text := item.flags + Tail(item.end);
    assert "-" + item.flags + Tail(item.end) == "-" + text;
    assert Words(item) == ["-" + text] + Extra(item.end);
    hide Grammar.ScanCluster, Grammar.ScanAll, Tail, ProperEnd, FlagEvents, Words, Bare, Undeclared;
    ElementText(text);
    assert args[0] == "-" + text && args[1..] == Extra(item.end) + rest;
    ElementIs(g, args);
    LettersRead(g, item.flags, item.end, args, rest);
  }

  /** One item is read. */
  lemma ItemReads(g: Grammar, item: Item, rest: seq<string>)
    requires Proper(g, item) && (Unfinished(g, item) ==> rest == []) && (item.Operand? ==> !g.requireOrder)
    ensures g.ScanAll(Words(item) + rest) ==
      g.ScanAll(rest).After(EventsOf(g, item), if item.Operand? then [] else Words(item),
                            if item.Operand? then Words(item) else [])
  {
    var args := Words(item) + rest;
    if item.Name? {
      NameReads(g, item, args, rest);
    } else if item.Letters? {
      ElementReads(g, item, args, rest);
    } else {
      assert args[0] == item.text && args[1..] == rest;
    }
  }

  lemma ProperRest(g: Grammar, items: seq<Item>, tail: seq<string>)
    requires ProperLine(g, items, tail) && items != []
    ensures ProperLine(g, items[1..], tail) && Proper(g, items[0]) && (items[0].Operand? ==> !g.requireOrder)
    ensures Unfinished(g, items[0]) ==> items[1..] == [] && tail == []
  {
    assert forall k :: 0 <= k < |items| - 1 ==> items[1..][k] == items[k + 1];
    hide Proper, Unfinished;
  }

  lemma TailReads(g: Grammar, tail: seq<string>)
    requires ProperLine(g, [], tail)
    ensures g.ScanAll(tail) == Meaning(g, [], tail)
  {
  }

  lemma AllStep(g: Grammar, items: seq<Item>)
    requires items != [] && forall item :: item in items ==> Proper(g, item)
    ensures AllEvents(g, items) == EventsOf(g, items[0]) + AllEvents(g, items[1..])
    ensures AllWords(items) == Words(items[0]) + AllWords(items[1..])
    ensures OptionWords(items) == (if items[0].Operand? then [] else Words(items[0])) + OptionWords(items[1..])
    ensures OperandWords(items) == (if items[0].Operand? then Words(items[0]) else []) + OperandWords(items[1..])
  {
  }

  lemma AfterJoined(e: seq<Event>, es: seq<Event>, w: seq<string>, ws: seq<string>, o: seq<string>, os: seq<string>,
      dashes: seq<string>, tail: seq<string>)
    ensures Scan(es, ws + dashes, os + tail).After(e, w, o) == Scan(e + es, w + ws + dashes, o + os + tail)
    ensures Scan(es, ws, os + tail).After(e, w, o) == Scan(e + es, w + ws, o + os + tail)
  {
  }

  lemma MeaningStep(g: Grammar, items: seq<Item>, tail: seq<string>)
    requires ProperLine(g, items, tail) && items != [] && ProperLine(g, items[1..], tail)
    ensures Meaning(g, items, tail) ==
      Meaning(g, items[1..], tail).After(EventsOf(g, items[0]), if items[0].Operand? then [] else Words(items[0]),
                                         if items[0].Operand? then Words(items[0]) else [])
    ensures AllWords(items) + tail == Words(items[0]) + (AllWords(items[1..]) + tail)
  {
    hide Proper, Unfinished, EventsOf, Words, AllWords, AllEvents, OptionWords, OperandWords, Scan.After;
    AllStep(g, items);
    var item, more := items[0], items[1..];
    AfterJoined(EventsOf(g, item), AllEvents(g, more), if item.Operand? then [] else Words(item), OptionWords(more),
                if item.Operand? then Words(item) else [], OperandWords(more), ["--"],
                if tail != [] && tail[0] == "--" then tail[1..] else tail);
  }

  /** The scan of a command line is what it means, for every way of writing one. */
  lemma {:induction false} LineReads(g: Grammar, items: seq<Item>, tail: seq<string>)
    requires ProperLine(g, items, tail)
    ensures g.ScanAll(AllWords(items) + tail) == Meaning(g, items, tail)
  {
    hide *;
    if items == [] {
      TailReads(g, tail);
      NoWords(tail);
    } else {
      ProperRest(g, items, tail);
      MeaningStep(g, items, tail);
      NothingLeft(items[1..], tail);
      ItemReads(g, items[0], AllWords(items[1..]) + tail);
      LineReads(g, items[1..], tail);
    }
  }

  lemma NoWords(tail: seq<string>)
    ensures AllWords([]) + tail == tail
  {
  }

  lemma NothingLeft(items: seq<Item>, tail: seq<string>)
    ensures items == [] && tail == [] ==> AllWords(items) + tail == []
  {
  }

  // ---- every command line can be so written ----

  /** The option characters of an element, with the elements that follow. */
  lemma {:induction false} ReadLetters(g: Grammar, text: string, following: seq<string>)
    returns (flags: string, end: End)
    ensures flags + Tail(end) == text && ProperEnd(g, end) && |Extra(end)| <= |following|
    ensures Extra(end) == following[..|Extra(end)|] && (end.Lacking? ==> following == [])
    ensures forall c :: c in flags ==> Bare(g, c) || Undeclared(g, c)
    decreases |text|
  {
    if text == "" {
      flags, end := "", Nothing;
    } else {
      var c, arg := text[0], text[1..];
      KindIs(g, c);
      assert [c] + arg == text;
      if Bare(g, c) || Undeclared(g, c) {
        flags, end := ReadLetters(g, arg, following);
        assert [c] + flags + Tail(end) == [c] + (flags + Tail(end));
        flags := [c] + flags;
      } else if arg != "" {
        flags, end := "", Attached(c, arg);
      } else if TwoColons(g, c) {
        flags, end := "", Omitted(c);
      } else if following != [] {
        flags, end := "", Separate(c, following[0]);
      } else {
        flags, end := "", Lacking(c);
      }
    }
  }

  lemma ReadName(g: Grammar, text: string, following: seq<string>) returns (item: Item)
    requires g.longopts.Some? && text != ""
    ensures item.Name? && Proper(g, item) && Words(item)[0] == "--" + text
    ensures |Words(item)| - 1 <= |following| && Words(item)[1..] == following[..|Words(item)| - 1]
    ensures Unfinished(g, item) ==> following == []
  {
    var opts, k := g.longopts.value, Index(text, '=');
    var typed := text[..k];
    MeantIs(g, opts, typed);
    var m := g.Lookup(opts, typed);
    hide Meant, Grammar.Lookup;
    var found := if m.Found? then Some(m.index) else None;
    if k < |text| {
      assert text == typed + "=" + text[k + 1..];
      item := Name(typed, found, Equals(text[k + 1..]));
    } else if m.Found? && opts[m.index].hasArg == RequiredArgument && following != [] {
      item := Name(typed, found, Following(following[0]));
    } else {
      item := Name(typed, found, NoValue);
    }
  }

  /** The first item of a command line that does not end here. */
  lemma ReadItem(g: Grammar, args: seq<string>) returns (item: Item, n: nat)
    requires args != [] && args[0] != "--" && (|args[0]| < 2 || args[0][0] != '-' ==> !g.requireOrder)
    ensures Proper(g, item) && 1 <= n <= |args| && Words(item) == args[..n]
    ensures (Unfinished(g, item) ==> args[n..] == []) && (item.Operand? ==> !g.requireOrder)
  {
    if |args[0]| < 2 || args[0][0] != '-' {
      item, n := Operand(args[0]), 1;
    } else if g.longopts.Some? && args[0][1] == '-' {
      item := ReadName(g, args[0][2..], args[1..]);
      assert "--" + args[0][2..] == args[0];
      n := |Words(item)|;
      assert Words(item) == [args[0]] + args[1..][..n - 1];
    } else {
      var flags, end := ReadLetters(g, args[0][1..], args[1..]);
      assert "-" + args[0][1..] == args[0] && "-" + flags + Tail(end) == "-" + (flags + Tail(end));
      item, n := Letters(flags, end), 1 + |Extra(end)|;
      assert Words(item) == [args[0]] + args[1..][..n - 1];
    }
  }

  lemma ProperMore(g: Grammar, item: Item, items: seq<Item>, tail: seq<string>)
    requires ProperLine(g, items, tail) && Proper(g, item) && (item.Operand? ==> !g.requireOrder)
    requires Unfinished(g, item) ==> AllWords(items) + tail == []
    ensures ProperLine(g, [item] + items, tail)
    ensures AllWords([item] + items) + tail == Words(item) + (AllWords(items) + tail)
  {
    assert ([item] + items)[1..] == items && forall k :: 0 < k <= |items| ==> ([item] + items)[k] == items[k - 1];
    assert Unfinished(g, item) ==> items == [] && tail == [];
    hide Proper, Unfinished, Words;
  }

  /** Every command line can be read as items, so that the meaning is that of every command line. */
  lemma {:induction false} Readable(g: Grammar, args: seq<string>) returns (items: seq<Item>, tail: seq<string>)
    ensures ProperLine(g, items, tail) && AllWords(items) + tail == args
    decreases |args|
  {
    if args == [] || args[0] == "--" || (g.requireOrder && (|args[0]| < 2 || args[0][0] != '-')) {
      items, tail := [], args;
      NoWords(tail);
    } else {
      var item, n := ReadItem(g, args);
      assert args[..n] + args[n..] == args;
      hide *;
      items, tail := Readable(g, args[n..]);
      ProperMore(g, item, items, tail);
      items := [item] + items;
    }
  }

  /** `scan` is what `args` means: there is a way to write `args` that means it. */
  ghost predicate IsRead(g: Grammar, args: seq<string>, scan: Scan) {
    exists items, tail :: ProperLine(g, items, tail) && AllWords(items) + tail == args &&
        Meaning(g, items, tail) == scan
  }

  /** Every command line means exactly what the plain scan gives, however one takes it for written. */
  lemma ScanIsRead(g: Grammar, args: seq<string>, scan: Scan)
    ensures IsRead(g, args, scan) <==> scan == g.ScanAll(args)
  {
    hide *;
    var items, tail := Readable(g, args);
    LineReads(g, items, tail);
    IsReadIs(g, args, scan);
    forall items', tail' | ProperLine(g, items', tail') && AllWords(items') + tail' == args
      ensures Meaning(g, items', tail') == g.ScanAll(args)
    {
      LineReads(g, items', tail');
    }
  }

  lemma IsReadIs(g: Grammar, args: seq<string>, scan: Scan)
    ensures IsRead(g, args, scan) <==>
      exists items, tail :: ProperLine(g, items, tail) && AllWords(items) + tail == args &&
          Meaning(g, items, tail) == scan
  {
  }

  /** The options of finch: a configuration directory is given with "-c" and the element behind it. */
  lemma ConfigDirectory(dir: string, longopts: Option<seq<LongOption>>)
    ensures Grammar("c:dhn::v", longopts, false).ScanAll(["-c", dir]) == Scan([Short('c', Some(dir))], ["-c", dir], [])
  {
    var g := Grammar("c:dhn::v", longopts, false);
    var item := Letters("", Separate('c', dir));
    assert DeclaredAt(g, 'c', 0);
    assert OneColon(g, 'c');
    assert item.flags + Tail(item.end) == "c";
    assert "-" + "" + ['c'] == "-c" && Words(item) + [] == ["-c", dir];
    ItemReads(g, item, []);
    assert FlagEvents(g, "") + EndEvents(g, item.end) == [Short('c', Some(dir))];
  }
}
