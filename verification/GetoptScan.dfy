/** What the options of a command line mean: a plain scan from left to right,
    without any permuting. The syntax is that of the Utility Syntax Guidelines
    (section 12.2 of the Base Definitions volume of IEEE Std 1003.1), with
    options after operands and with long options in addition. */
module GetoptScan {
  import opened Options

  datatype ArgumentKind = NoArgument | RequiredArgument | OptionalArgument

  /** `struct option`; with `flag`, finding the option stores `val` there instead of returning it. */
  datatype LongOption = LongOption(name: string, hasArg: ArgumentKind, flag: bool, val: int)

  /** What one call reports: an option, or a mistake with the code `?` or `:`. For
      a long option also what the call returns, and what it stores through `flag`. */
  datatype Event =
    | Short(c: char, arg: Option<string>)
    | Long(index: nat, arg: Option<string>, returned: int, stored: Option<int>)
    | Bad(code: char, optopt: Option<char>)

  datatype Match = Found(index: nat) | Ambiguous | NotFound

  /** The result of a scan: what is reported, and which elements are options
      (with their arguments) and which operands. */
  datatype Scan = Scan(events: seq<Event>, options: seq<string>, operands: seq<string>) {
    function After(events': seq<Event>, options': seq<string>, operands': seq<string>): Scan {
      Scan(events' + events, options' + options, operands' + operands)
    }
  }

  predicate IsPrefix(s: string, t: string) {
    |s| <= |t| && t[..|s|] == s
  }

  /** Whether an element is no option. */
  predicate IsOperand(s: string) {
    |s| < 2 || s[0] != '-'
  }

  /** `strchr`, as a position */
  function Index(s: string, c: char): (i: nat)
    ensures i <= |s| && c !in s[..i] && (i < |s| ==> s[i] == c)
  {
    if s == "" || s[0] == c then 0 else 1 + Index(s[1..], c)
  }

  /** What the caller allows. */
  datatype Grammar = Grammar(optstring: string, longopts: Option<seq<LongOption>>, requireOrder: bool) {

    predicate ColonAt(i: nat) {
      i < |optstring| && optstring[i] == ':'
    }

    predicate Known(c: char) {
      c in optstring && c != ':'
    }

    function Kind(c: char): ArgumentKind {
      var i := Index(optstring, c);
      if !ColonAt(i + 1) then NoArgument else if ColonAt(i + 2) then OptionalArgument else RequiredArgument
    }

    function Missing(): char {
      if ColonAt(0) then ':' else '?'
    }

    /** One option character `text[0]` with the rest of its element, and the elements that follow. */
    function ShortEvent(text: string, following: seq<string>): Event
      requires text != ""
    {
      var c, rest := text[0], text[1..];
      if !Known(c) then Bad('?', Some(c))
      else match Kind(c)
        case NoArgument => Short(c, None)
        case OptionalArgument => Short(c, if rest == "" then None else Some(rest))
        case RequiredArgument =>
          if rest != "" then Short(c, Some(rest))
          else if following == [] then Bad(Missing(), Some(c))
          else Short(c, Some(following[0]))
    }

    /** Whether the element ends with this option character. */
    predicate Ends(text: string)
      requires text != ""
    {
      |text| == 1 || (Known(text[0]) && Kind(text[0]) != NoArgument)
    }

    /** Whether the argument of this option character is the next element. */
    predicate TakesNext(text: string, following: seq<string>)
      requires text != ""
    {
      Known(text[0]) && Kind(text[0]) == RequiredArgument && |text| == 1 && following != []
    }

    /** The option characters `text` that are left of the first element of `args`, and all that comes after. */
    function ScanCluster(text: string, args: seq<string>): Scan
      requires text != "" && args != []
      decreases |args|, 1, |text|
    {
      var e := ShortEvent(text, args[1..]);
      if Ends(text) then
        var n := if TakesNext(text, args[1..]) then 2 else 1;
        ScanAll(args[n..]).After([e], args[..n], [])
      else
        ScanCluster(text[1..], args).After([e], [], [])
    }

    /** The abbreviations of `typed` from position `i` on; `found` is an earlier one. */
    function LookupFrom(opts: seq<LongOption>, typed: string, i: nat, found: Match): (m: Match)
      requires found.Found? ==> found.index < |opts|
      ensures m.Found? ==> m.index < |opts|
      decreases |opts| - i
    {
      if |opts| <= i then found
      else if opts[i].name == typed then Found(i)
      else if !IsPrefix(typed, opts[i].name) then LookupFrom(opts, typed, i + 1, found)
      else LookupFrom(opts, typed, i + 1, if found == NotFound then Found(i) else Ambiguous)
    }

    function Lookup(opts: seq<LongOption>, typed: string): (m: Match)
      ensures m.Found? ==> m.index < |opts|
    {
      LookupFrom(opts, typed, 0, NotFound)
    }

    /** The long option `o` at position `i` was given with the argument `arg`. */
    function Chosen(o: LongOption, i: nat, arg: Option<string>): Event {
      if o.flag then Long(i, arg, 0, Some(o.val)) else Long(i, arg, o.val, None)
    }

    /** A long option `text`, with its argument if there is a `=`, and the elements that follow. */
    function LongEvent(opts: seq<LongOption>, text: string, following: seq<string>): Event {
      var k := Index(text, '=');
      match Lookup(opts, text[..k])
      case Ambiguous => Bad('?', None)
      case NotFound => Bad('?', None)
      case Found(i) =>
        if k < |text| then
          if opts[i].hasArg == NoArgument then Bad('?', None) else Chosen(opts[i], i, Some(text[k + 1..]))
        else if opts[i].hasArg != RequiredArgument then Chosen(opts[i], i, None)
        else if following == [] then Bad(Missing(), None)
        else Chosen(opts[i], i, Some(following[0]))
    }

    /** Whether the argument of a long option is the next element. */
    predicate LongTakesNext(opts: seq<LongOption>, text: string, following: seq<string>) {
      var k := Index(text, '=');
      var m := Lookup(opts, text[..k]);
      k == |text| && following != [] && m.Found? && opts[m.index].hasArg == RequiredArgument
    }

    /** The scan of all of `args`. */
    function ScanAll(args: seq<string>): Scan
      decreases |args|, 2, 0
    {
      if args == [] then Scan([], [], [])
      else if IsOperand(args[0]) then
        if requireOrder then Scan([], [], args) else ScanAll(args[1..]).After([], [], [args[0]])
      else if args[0] == "--" then Scan([], [args[0]], args[1..])
      else if longopts.Some? && args[0][1] == '-' then
        var text := args[0][2..];
        var n := if LongTakesNext(longopts.value, text, args[1..]) then 2 else 1;
        ScanAll(args[n..]).After([LongEvent(longopts.value, text, args[1..])], args[..n], [])
      else ScanCluster(args[0][1..], args)
    }

    /** The name at position `i` is `typed`, or can be abbreviated so. */
    predicate Fits(opts: seq<LongOption>, typed: string, i: nat) {
      i < |opts| && IsPrefix(typed, opts[i].name)
    }

    /** The search up to position `i`, where no exact match was found, and what it found so far. */
    predicate SoFar(opts: seq<LongOption>, typed: string, i: nat, found: Match) {
      && i <= |opts| && (forall j :: 0 <= j < i ==> opts[j].name != typed)
      && match found
         case NotFound => forall j :: 0 <= j < i ==> !Fits(opts, typed, j)
         case Found(k) => k < i && Fits(opts, typed, k) && forall j :: 0 <= j < i && j != k ==> !Fits(opts, typed, j)
         case Ambiguous => exists j, k :: 0 <= j < k < i && Fits(opts, typed, j) && Fits(opts, typed, k)
    }

    lemma {:induction false} LookupFromIs(opts: seq<LongOption>, typed: string, i: nat, found: Match)
      requires SoFar(opts, typed, i, found)
      ensures var m := LookupFrom(opts, typed, i, found);
              if exists j :: 0 <= j < |opts| && opts[j].name == typed
              then m.Found? && m.index < |opts| && opts[m.index].name == typed &&
                  forall j :: 0 <= j < m.index ==> opts[j].name != typed
              else SoFar(opts, typed, |opts|, m)
      decreases |opts| - i
    {
      if i < |opts| && opts[i].name != typed {
        if IsPrefix(typed, opts[i].name) {
          assert Fits(opts, typed, i);
          LookupFromIs(opts, typed, i + 1, if found == NotFound then Found(i) else Ambiguous);
        } else {
          LookupFromIs(opts, typed, i + 1, found);
        }
      }
    }

    /** The first exact match wins; without one, a name is found exactly if
        it is the only one that can be abbreviated so, and the abbreviation
        is ambiguous exactly if there are two. */
    lemma LookupIs(opts: seq<LongOption>, typed: string)
      ensures var m := Lookup(opts, typed);
              if exists j :: 0 <= j < |opts| && opts[j].name == typed
              then m.Found? && m.index < |opts| && opts[m.index].name == typed &&
                  forall j :: 0 <= j < m.index ==> opts[j].name != typed
              else
                && (m == Ambiguous <==>
                    exists j, k :: 0 <= j < k < |opts| && Fits(opts, typed, j) && Fits(opts, typed, k))
                && (m == NotFound <==> forall j :: 0 <= j < |opts| ==> !Fits(opts, typed, j))
                && (forall k :: m == Found(k) <==> Fits(opts, typed, k) && forall j :: 0 <= j < |opts| && j != k ==>
                    !Fits(opts, typed, j))
    {
      LookupFromIs(opts, typed, 0, NotFound);
    }

    lemma {:induction false} MergeCluster(text: string, args: seq<string>)
      requires text != "" && args != []
      ensures var r := ScanCluster(text, args);
              IsMerge(r.options, r.operands, args)
      decreases |args|, 1, |text|
    {
      if Ends(text) {
        var n := if TakesNext(text, args[1..]) then 2 else 1;
        MergeAll(args[n..]);
        MergeOptions(args, n, ScanAll(args[n..]).options, ScanAll(args[n..]).operands);
      } else {
        MergeCluster(text[1..], args);
        var r := ScanCluster(text[1..], args);
        assert [] + r.options == r.options && [] + r.operands == r.operands;
      }
    }

    /** The options and the operands keep the order they had on the command line, and nothing is lost. */
    lemma {:induction false} MergeAll(args: seq<string>)
      ensures IsMerge(ScanAll(args).options, ScanAll(args).operands, args)
      decreases |args|, 2, 0
    {
      if args == [] {
      } else if IsOperand(args[0]) {
        if requireOrder {
          MergeOperands(args);
        } else {
          MergeAll(args[1..]);
          var r := ScanAll(args[1..]);
          assert ([args[0]] + r.operands)[1..] == r.operands && [] + r.options == r.options;
        }
      } else if args[0] == "--" {
        MergeOperands(args[1..]);
        assert [args[0]][1..] == [];
      } else if longopts.Some? && args[0][1] == '-' {
        var n := if LongTakesNext(longopts.value, args[0][2..], args[1..]) then 2 else 1;
        MergeAll(args[n..]);
        MergeOptions(args, n, ScanAll(args[n..]).options, ScanAll(args[n..]).operands);
      } else {
        MergeCluster(args[0][1..], args);
      }
    }
  }

  /** `a` is `s` and `t` shuffled together, both in order. */
  predicate IsMerge(s: seq<string>, t: seq<string>, a: seq<string>)
    decreases |a|
  {
    if a == [] then s == [] && t == []
    else
      || (s != [] && s[0] == a[0] && IsMerge(s[1..], t, a[1..]))
      || (t != [] && t[0] == a[0] && IsMerge(s, t[1..], a[1..]))
  }

  lemma {:induction false} MergeOperands(a: seq<string>)
    ensures IsMerge([], a, a)
  {
    if a != [] {
      MergeOperands(a[1..]);
    }
  }

  lemma MergeOptions(a: seq<string>, n: nat, s: seq<string>, t: seq<string>)
    requires 1 <= n <= 2 && n <= |a| && IsMerge(s, t, a[n..])
    ensures IsMerge(a[..n] + s, t, a) && IsMerge(a[..n] + s, [] + t, a)
  {
    assert [] + t == t;
    if n == 2 {
      assert a[1..][1..] == a[2..] && (a[..2] + s)[1..] == [a[1]] + s && ([a[1]] + s)[1..] == s;
      assert IsMerge([a[1]] + s, t, a[1..]);
    } else {
      assert (a[..1] + s)[1..] == s;
    }
  }

  lemma {:induction false} MergeKeepsAll(s: seq<string>, t: seq<string>, a: seq<string>)
    requires IsMerge(s, t, a)
    ensures multiset(s + t) == multiset(a) && |s| + |t| == |a|
    decreases |a|
  {
    if a != [] {
      assert a == [a[0]] + a[1..];
      if s != [] && s[0] == a[0] && IsMerge(s[1..], t, a[1..]) {
        MergeKeepsAll(s[1..], t, a[1..]);
        assert s == [s[0]] + s[1..];
      } else {
        MergeKeepsAll(s, t[1..], a[1..]);
        assert t == [t[0]] + t[1..];
      }
    }
  }
}
