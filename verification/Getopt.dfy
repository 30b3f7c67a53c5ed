/** `_getopt_internal`: a scanner that is called again and again, remembers
    where it was, and permutes the arguments as it goes.
    Most bodies below hide every definition; the short lemmas called `...Is` and
    `...Parts` give back the single definition that a step needs. */
module Getopt {
  import opened Options
  import opened GetoptScan
  import opened GetoptWords

  /** `s` with `t` written over it from position `at` on. */
  function Overlay(s: seq<string>, at: nat, t: seq<string>): (r: seq<string>)
    requires at + |t| <= |s|
    ensures |r| == |s|
  {
    s[..at] + t + s[at + |t|..]
  }

  lemma OverlayStep(s: seq<string>, at: nat, t: seq<string>, i: nat)
    requires i < |t| && at + |t| <= |s|
    ensures Overlay(s, at, t[..i])[at + i := t[i]] == Overlay(s, at, t[..i + 1])
    ensures t[..0] == [] && Overlay(s, at, []) == s
  {
    assert t[..i + 1] == t[..i] + [t[i]];
  }

  /** `my_bcopy`, which copies forwards: within one array only towards the front. */
  method Copy(src: array<string>, from: nat, dst: array<string>, to: nat, size: nat, ghost t: seq<string>)
    requires from + size <= src.Length && to + size <= dst.Length && (src == dst ==> to <= from)
    requires src[from..from + size] == t
    modifies dst
    ensures dst[..] == Overlay(old(dst[..]), to, t)
  {
    ghost var was := dst[..];
    assert t[..size] == t && Overlay(was, to, []) == was;
    assert forall k :: 0 <= k < size ==> src[from + k] == t[k];
    hide Overlay;
    for i := 0 to size
      invariant forall k :: i <= k < size ==> src[from + k] == t[k]
      invariant dst[..] == Overlay(was, to, t[..i])
    {
      OverlayStep(was, to, t, i);
      dst[to + i] := src[from + i];
    }
  }

  /** What was taken from the front of `original` and what remains of it make up both sides. */
  lemma BalancedPermuted(total: Scan, reported: seq<Event>, a: seq<string>, original: seq<string>, first: nat,
      last: nat, end: nat, rest: Scan)
    requires Balanced(total, reported, a, first, last, end, rest) && |a| == |original| && a[0] == original[0] &&
      a[end..] == original[end..]
    requires multiset(total.options + total.operands) == multiset(original[1..])
    requires multiset(rest.options + rest.operands) == multiset(original[end..])
    ensures multiset(a) == multiset(original)
  {
    var s, t, n := a[1..first], a[last..end], a[first..last];
    assert total.options == s + t + rest.options && total.operands == n + rest.operands;
    assert multiset(s) + multiset(t) + multiset(n) + multiset(rest.options) + multiset(rest.operands) ==
        multiset(original[1..]);
    assert multiset(rest.options) + multiset(rest.operands) == multiset(a[end..]);
    FivePieces(a, first, last, end);
    assert original == [original[0]] + original[1..];
  }

  lemma FivePieces(a: seq<string>, first: nat, last: nat, end: nat)
    requires 1 <= first <= last <= end <= |a|
    ensures multiset(a) ==
      multiset([a[0]]) + multiset(a[1..first]) + multiset(a[first..last]) + multiset(a[last..end]) + multiset(a[end..])
  {
    assert a == [a[0]] + a[1..first] + a[first..last] + a[last..end] + a[end..];
  }

  /** The options in `a` before `first` and from `last` to `end`, the operands between, and
      `rest` make up the plain scan `total`, of which `reported` was reported. */
  ghost predicate Balanced(total: Scan, reported: seq<Event>, a: seq<string>, first: nat, last: nat, end: nat,
      rest: Scan) {
    1 <= first <= last <= end <= |a| && total == rest.After(reported, a[1..first] + a[last..end], a[first..last])
  }

  lemma BalancedSwap(total: Scan, reported: seq<Event>, a: seq<string>, first: nat, last: nat, end: nat, rest: Scan)
    requires Balanced(total, reported, a, first, last, end, rest)
    ensures var b, mid := Swapped(a, first, last, end), first + (end - last);
            |b| == |a| && b[0] == a[0] && b[end..] == a[end..] && Balanced(total, reported, b, mid, end, end, rest)
  {
    var b, mid := Swapped(a, first, last, end), first + (end - last);
    assert b[1..mid] == a[1..first] + a[last..end];
    assert b[mid..end] == a[first..last] && b[end..end] == [];
    assert b[1..mid] + b[end..end] == b[1..mid];
  }

  /** Without skipped operands there is nothing to swap. */
  lemma BalancedTogether(total: Scan, reported: seq<Event>, a: seq<string>, first: nat, end: nat, rest: Scan)
    requires Balanced(total, reported, a, first, first, end, rest)
    ensures Balanced(total, reported, a, end, end, end, rest)
  {
    assert a[1..first] + a[first..end] == a[1..end] == a[1..end] + a[end..end];
    assert a[first..first] == a[end..end] == [];
  }

  /** One more operand is skipped. */
  lemma BalancedOperand(g: Grammar, total: Scan, reported: seq<Event>, a: seq<string>, first: nat, end: nat,
      args: seq<string>)
    requires Balanced(total, reported, a, first, end, end, g.ScanAll(args)) && !g.requireOrder
    requires end < |a| && args != [] && a[end] == args[0] && IsOperand(args[0])
    ensures Balanced(total, reported, a, first, end + 1, end + 1, g.ScanAll(args[1..]))
  {
    var r := g.ScanAll(args[1..]);
    assert a[first..end + 1] == a[first..end] + [args[0]];
    assert a[end..end] == a[end + 1..end + 1] == [];
    assert a[first..end] + ([args[0]] + r.operands) == a[first..end + 1] + r.operands;
    assert reported + ([] + r.events) == reported + r.events && [] + r.options == r.options;
  }

  /** The end of the options: what follows are operands. */
  lemma BalancedEnd(total: Scan, reported: seq<Event>, a: seq<string>, first: nat, end: nat, rest: Scan)
    requires Balanced(total, reported, a, first, end, end, rest) && rest == Scan([], [], a[end..])
    ensures Balanced(total, reported, a, first, |a|, |a|, Scan([], [], []))
  {
    assert a[first..|a|] == a[first..end] + a[end..];
    assert a[end..end] == a[|a|..|a|] == [];
  }

  lemma BalancedDashes(g: Grammar, total: Scan, reported: seq<Event>, a: seq<string>, first: nat, last: nat, end: nat,
      args: seq<string>)
    requires Balanced(total, reported, a, first, last, end, g.ScanAll(args)) && end < |a| && args == a[end..] &&
      args[0] == "--"
    ensures Balanced(total, reported, a, first, last, end + 1, Scan([], [], a[end + 1..]))
  {
    assert a[last..end + 1] == a[last..end] + ["--"];
    assert g.ScanAll(args) == Scan([], ["--"], a[end + 1..]);
    assert a[1..first] + a[last..end + 1] == a[1..first] + a[last..end] + ["--"];
  }

  lemma BalancedDone(total: Scan, reported: seq<Event>, a: seq<string>, first: nat)
    requires Balanced(total, reported, a, first, |a|, |a|, Scan([], [], []))
    ensures reported == total.events && a == [a[0]] + total.options + total.operands && first == 1 + |total.options|
  {
    assert a[|a|..|a|] == [];
    assert total.options == a[1..first] && total.operands == a[first..];
    assert a == [a[0]] + a[1..first] + a[first..];
  }

  /** The event `e` is reported, and with it `n` elements are done. */
  lemma BalancedStep(total: Scan, reported: seq<Event>, a: seq<string>, first: nat, last: nat, end: nat, rest: Scan,
      e: Event, n: nat)
    requires end + n <= |a|
    requires Balanced(total, reported, a, first, last, end, rest.After([e], a[end..end + n], []))
    ensures Balanced(total, reported + [e], a, first, last, end + n, rest)
  {
    assert a[last..end + n] == a[last..end] + a[end..end + n];
    assert reported + ([e] + rest.events) == reported + [e] + rest.events;
    assert a[1..first] + a[last..end] + (a[end..end + n] + rest.options) ==
        a[1..first] + a[last..end + n] + rest.options;
    assert [] + rest.operands == rest.operands;
  }

  class Scanner {
    const grammar: Grammar
    const argv: array<string>
    var optind: nat
    var nextchar: string       // what is left of the element being scanned
    var firstNonopt: nat
    var lastNonopt: nat
    ghost const original: seq<string>
    ghost var reported: seq<Event>
    ghost var ended: bool

    /** What is left to be reported. */
    ghost function Remaining(): Scan
      reads this
      requires optind <= |original| && (nextchar != "" ==> optind < |original|)
    {
      if nextchar == "" then grammar.ScanAll(original[optind..]) else grammar.ScanCluster(nextchar, original[optind..])
    }

    /** The plain scan of the original arguments. */
    ghost function Total(): Scan
      requires original != []
    {
      grammar.ScanAll(original[1..])
    }

    /** The indices are in order, and what was not scanned was not touched. */
    ghost predicate InOrder()
      reads this, argv
    {
      && 1 <= firstNonopt <= lastNonopt <= optind <= argv.Length == |original|
      && argv[0] == original[0] && argv[optind..] == original[optind..]
    }

    /** The element being scanned is a cluster of option characters. */
    ghost predicate InCluster()
      reads this, argv
    {
      nextchar != "" ==>
        && optind < argv.Length && !IsOperand(argv[optind])
        && (grammar.longopts.Some? ==> argv[optind][1] != '-')
    }

    /** What was reported and what remains make up the plain scan; the options
        scanned so far stand before and after the operands that were skipped. */
    ghost predicate Scanning()
      reads this, argv
    {
      && InOrder() && InCluster() && (grammar.requireOrder ==> firstNonopt == lastNonopt == 1)
      && Balanced(Total(), reported, argv[..], firstNonopt, lastNonopt, optind, Remaining())
    }

    /** At the end: everything was reported, the options with their arguments
        come first, then the operands, and `optind` is the index of the first operand. */
    ghost predicate Finished()
      reads this, argv
    {
      && original != [] && reported == Total().events
      && argv[..] == [original[0]] + Total().options + Total().operands
      && optind == 1 + |Total().options|
    }

    ghost predicate Valid()
      reads this, argv
    {
      if ended then Finished()
      else if optind == 0 then original != [] && argv[..] == original && reported == []
      else Scanning()
    }

    constructor (grammar: Grammar, argv: array<string>)
      requires 0 < argv.Length
      ensures Valid() && !ended && this.argv == argv && this.grammar == grammar
      ensures original == argv[..] && reported == []
    {
      this.grammar, this.argv := grammar, argv;
      optind, nextchar, firstNonopt, lastNonopt := 0, "", 0, 0;
      original, reported, ended := argv[..], [], false;
    }

    /** Exchanges the operands that were skipped with the options that were scanned since. */
    method Exchange()
      requires 1 <= firstNonopt <= lastNonopt <= optind <= argv.Length
      modifies argv, this`firstNonopt, this`lastNonopt
      ensures firstNonopt == old(firstNonopt) + (optind - old(lastNonopt)) && lastNonopt == optind
      ensures argv[..] == Swapped(old(argv[..]), old(firstNonopt), old(lastNonopt), optind)
    {
      SwapBlocks(argv, firstNonopt, lastNonopt, optind);
      firstNonopt := firstNonopt + (optind - lastNonopt);
      lastNonopt := optind;
    }

    /** The operands that were skipped stand together, right before what was not scanned. */
    ghost predicate Gathered()
      reads this, argv
    {
      && 1 <= firstNonopt <= optind <= argv.Length == |original| && nextchar == "" && !ended
      && argv[0] == original[0] && argv[optind..] == original[optind..]
      && Balanced(Total(), reported, argv[..], firstNonopt, optind, optind, grammar.ScanAll(original[optind..]))
    }

    /** The options scanned since the last operands change places with these,
        so that all operands skipped so far stand together. */
    method Gather()
      requires Scanning() && nextchar == "" && !ended
      modifies argv, this`firstNonopt, this`lastNonopt
      ensures Gathered()
    {
      hide Balanced, Swapped;
      BalancedSwap(Total(), reported, argv[..], firstNonopt, lastNonopt, optind, Remaining());
      if firstNonopt == lastNonopt {
        BalancedTogether(Total(), reported, argv[..], firstNonopt, optind, Remaining());
      }
      if firstNonopt != lastNonopt && lastNonopt != optind {
        Exchange();
      } else if lastNonopt != optind {
        firstNonopt := optind;
      }
    }

    /** The operands that come next are skipped. */
    method SkipOperands()
      requires Scanning() && nextchar == "" && !ended && !grammar.requireOrder
      modifies argv, this`firstNonopt, this`lastNonopt, this`optind
      ensures Gathered() && lastNonopt == optind
      ensures optind == argv.Length || !IsOperand(argv[optind])
    {
      Gather();
      hide Balanced, Grammar.ScanAll, IsOperand;
      SkipLoop();
      lastNonopt := optind;
    }

    method SkipLoop()
      requires Gathered() && !grammar.requireOrder
      modifies this`optind
      ensures Gathered() && (optind == argv.Length || !IsOperand(argv[optind]))
    {
      hide Balanced, Grammar.ScanAll, IsOperand;
      while optind < argv.Length && IsOperand(argv[optind])
        invariant Gathered()
      {
        NextOperand();
        optind := optind + 1;
      }
    }

    lemma NextOperand()
      requires Gathered() && !grammar.requireOrder
      requires optind < argv.Length && IsOperand(argv[optind])
      ensures original[optind..][1..] == original[optind + 1..] && argv[optind + 1..] == original[optind + 1..]
      ensures Balanced(Total(), reported, argv[..], firstNonopt, optind + 1, optind + 1,
        grammar.ScanAll(original[optind + 1..]))
    {
      var args := original[optind..];
      assert args[1..] == original[optind + 1..] && argv[optind..][1..] == argv[optind + 1..] &&
          args[0] == argv[optind..][0];
      hide Balanced;
      BalancedOperand(grammar, Total(), reported, argv[..], firstNonopt, optind, args);
    }

    lemma AtDashes()
      requires InOrder() && optind < argv.Length && argv[optind] == "--"
      requires Balanced(Total(), reported, argv[..], firstNonopt, lastNonopt, optind,
        grammar.ScanAll(original[optind..]))
      ensures Balanced(Total(), reported, argv[..], firstNonopt, lastNonopt, optind + 1,
        Scan([], [], argv[optind + 1..]))
      ensures argv[..][optind + 1..] == argv[optind + 1..]
    {
      assert argv[..][optind..] == argv[optind..];
      BalancedDashes(grammar, Total(), reported, argv[..], firstNonopt, lastNonopt, optind, original[optind..]);
    }

    /** The element `--`: it counts as an option, and everything behind it as operands. */
    method EndOptions()
      requires InOrder() && nextchar == "" && !ended && optind < argv.Length && argv[optind] == "--"
      requires firstNonopt == lastNonopt || lastNonopt == optind
      requires Balanced(Total(), reported, argv[..], firstNonopt, lastNonopt, optind,
        grammar.ScanAll(original[optind..]))
      modifies argv, this`firstNonopt, this`lastNonopt, this`optind
      ensures 1 <= firstNonopt <= lastNonopt == optind == argv.Length == |original| && argv[0] == original[0]
      ensures Balanced(Total(), reported, argv[..], firstNonopt, argv.Length, argv.Length, Scan([], [], []))
    {
      hide Balanced, Swapped, Grammar.ScanAll;
      AtDashes();
      optind := optind + 1;
      ghost var rest := Scan([], [], argv[optind..]);
      BalancedSwap(Total(), reported, argv[..], firstNonopt, lastNonopt, optind, rest);
      if firstNonopt == lastNonopt {
        BalancedTogether(Total(), reported, argv[..], firstNonopt, optind, rest);
      }
      if firstNonopt != lastNonopt && lastNonopt != optind {
        Exchange();
      } else if firstNonopt == lastNonopt {
        firstNonopt := optind;
      }
      BalancedEnd(Total(), reported, argv[..], firstNonopt, optind, rest);
      lastNonopt := argv.Length;
      optind := argv.Length;
    }

    /** Nothing is left to be scanned. */
    method Finish()
      requires 1 <= firstNonopt <= lastNonopt <= optind == argv.Length == |original| && argv[0] == original[0]
      requires firstNonopt == lastNonopt || lastNonopt == optind
      requires Balanced(Total(), reported, argv[..], firstNonopt, lastNonopt, optind, Scan([], [], []))
      modifies this`optind, this`ended
      ensures ended && Finished()
    {
      if firstNonopt == lastNonopt {
        BalancedTogether(Total(), reported, argv[..], firstNonopt, optind, Scan([], [], []));
        BalancedDone(Total(), reported, argv[..], optind);
      } else {
        BalancedDone(Total(), reported, argv[..], firstNonopt);
      }
      hide Balanced;
      if firstNonopt != lastNonopt {
        optind := firstNonopt;
      }
      ended := true;
    }

    /** Without permuting, the first operand is the end. */
    method StopAtOperand()
      requires InOrder() && !ended && firstNonopt == lastNonopt && optind < argv.Length && IsOperand(argv[optind]) &&
        grammar.requireOrder
      requires Balanced(Total(), reported, argv[..], firstNonopt, lastNonopt, optind,
        grammar.ScanAll(original[optind..]))
      modifies this`ended
      ensures ended && Finished()
    {
      assert original[optind..][0] == argv[optind..][0];
      assert grammar.ScanAll(original[optind..]) == Scan([], [], argv[..][optind..]);
      hide Balanced, Grammar.ScanAll;
      BalancedTogether(Total(), reported, argv[..], firstNonopt, optind, Scan([], [], argv[..][optind..]));
      BalancedEnd(Total(), reported, argv[..], optind, optind, Scan([], [], argv[..][optind..]));
      BalancedDone(Total(), reported, argv[..], optind);
      ended := true;
    }

    lemma AtEnd()
      requires optind == |original|
      ensures grammar.ScanAll(original[optind..]) == Scan([], [], [])
    {
    }

    /** An option character: what it means, and what it uses up. */
    method ShortOption(ghost event: Event, ghost n: nat, ghost next: string) returns (e: Event)
      requires ShortStep(event, n, next)
      modifies this`nextchar, this`optind
      ensures e == event && nextchar == next && optind == old(optind) + n
    {
      var c := nextchar[0];
      nextchar := nextchar[1..];
      var temp := Index(grammar.optstring, c);
      if nextchar == "" {
        optind := optind + 1;
      }
      if temp == |grammar.optstring| || c == ':' {
        return Bad('?', Some(c));
      }
      e := Short(c, None);
      if grammar.ColonAt(temp + 1) {
        if grammar.ColonAt(temp + 2) {
          if nextchar != "" {
            e := Short(c, Some(nextchar));
            optind := optind + 1;
          }
        } else if nextchar != "" {
          e := Short(c, Some(nextchar));
          optind := optind + 1;
        } else if optind == argv.Length {
          e := Bad(if grammar.ColonAt(0) then ':' else '?', Some(c));
        } else {
          e := Short(c, Some(argv[optind]));
          optind := optind + 1;
        }
        nextchar := "";
      }
    }

    /** A long option, all in one element but perhaps for the argument. */
    method LongOption(opts: seq<LongOption>) returns (e: Event)
      requires optind < argv.Length
      modifies this`nextchar, this`optind
      ensures var text, following := old(nextchar), old(argv[optind + 1..]);
              && e == grammar.LongEvent(opts, text, following) && nextchar == ""
              && optind == old(optind) + if grammar.LongTakesNext(opts, text, following) then 2 else 1
    {
      ghost var following := argv[optind + 1..];
      var s := Index(nextchar, '=');
      var m := FindLong(grammar, opts, nextchar[..s]);
      var text := nextchar;
      optind := optind + 1;
      nextchar := "";
      match m
      case Ambiguous => e := Bad('?', None);
      case NotFound => e := Bad('?', None);
      case Found(k) =>
        var kind := opts[k].hasArg;
        if s < |text| {
          e := if kind != NoArgument then grammar.Chosen(opts[k], k, Some(text[s + 1..])) else Bad('?', None);
        } else if kind == RequiredArgument {
          if optind < argv.Length {
            e := grammar.Chosen(opts[k], k, Some(argv[optind]));
            optind := optind + 1;
          } else {
            e := Bad(if grammar.ColonAt(0) then ':' else '?', None);
          }
        } else {
          e := grammar.Chosen(opts[k], k, None);
        }
    }

    /** The next element is an option: what remains, seen from its start. */
    ghost predicate AtOption()
      reads this, argv
    {
      && InOrder() && !ended && optind < argv.Length && !IsOperand(argv[optind]) && argv[optind] != "--"
      && (grammar.requireOrder ==> firstNonopt == lastNonopt == 1)
    }

    predicate IsLong()
      requires optind < argv.Length && !IsOperand(argv[optind])
      reads this, argv
    {
      grammar.longopts.Some? && argv[optind][1] == '-'
    }

    lemma OptionStarts()
      requires AtOption()
      ensures var text := argv[optind][if IsLong() then 2 else 1..];
              && text != "" && original[optind] == argv[optind] && argv[optind + 1..] == original[optind + 1..]
              && var following := original[optind + 1..];
              && (!IsLong() ==> grammar.ScanAll(original[optind..]) == grammar.ScanCluster(text, original[optind..]))
              && (IsLong() ==>
                   var n := if grammar.LongTakesNext(grammar.longopts.value, text, following) then 2 else 1;
                   n <= |original| - optind && grammar.ScanAll(original[optind..]) ==
                     grammar.ScanAll(original[optind + n..]).After(
                       [grammar.LongEvent(grammar.longopts.value, text, following)], argv[..][optind..optind + n], []))
    {
      var args := original[optind..];
      assert args[0] == argv[optind..][0] && args[1..] == original[optind + 1..];
      assert argv[optind..][1..] == argv[optind + 1..];
      if IsLong() {
        var text := argv[optind][2..];
        var n := if grammar.LongTakesNext(grammar.longopts.value, text, args[1..]) then 2 else 1;
        assert args[n..] == original[optind + n..] && args[..n] == argv[..][optind..optind + n];
      } else {
        assert argv[optind] != "--";
      }
    }

    /** What the next option character will do: report `e`, use up `n` elements and leave `next`. */
    ghost predicate ShortStep(e: Event, n: nat, next: string)
      reads this, argv
    {
      && nextchar != "" && optind < argv.Length
      && var following := argv[optind + 1..];
      && e == grammar.ShortEvent(nextchar, following)
      && n == (if !grammar.Ends(nextchar) then 0 else if grammar.TakesNext(nextchar, following) then 2 else 1)
      && next == if grammar.Ends(nextchar) then "" else nextchar[1..]
    }

    lemma ClusterStep() returns (e: Event, n: nat, next: string, rest: Scan)
      requires Scanning() && nextchar != ""
      ensures ShortStep(e, n, next) && (next != "" ==> n == 0)
      ensures optind + n <= |original| && argv[optind + n..] == original[optind + n..]
      ensures next != "" ==> optind + n < |original|
      ensures rest == if next == "" then grammar.ScanAll(original[optind + n..])
        else grammar.ScanCluster(next, original[optind + n..])
      ensures Balanced(Total(), reported, argv[..], firstNonopt, lastNonopt, optind,
        rest.After([e], argv[..][optind..optind + n], []))
    {
      var args := original[optind..];
      assert args[1..] == original[optind + 1..] && argv[optind..][1..] == argv[optind + 1..] &&
          argv[optind..][0] == args[0];
      e := grammar.ShortEvent(nextchar, args[1..]);
      n := if !grammar.Ends(nextchar) then 0 else if grammar.TakesNext(nextchar, args[1..]) then 2 else 1;
      next := if grammar.Ends(nextchar) then "" else nextchar[1..];
      rest := if grammar.Ends(nextchar) then grammar.ScanAll(args[n..]) else grammar.ScanCluster(nextchar[1..], args);
      assert args[n..] == original[optind + n..] && args[..n] == argv[..][optind..optind + n];
      SuffixLater(n);
    }

    lemma SuffixLater(n: nat)
      requires optind + n <= argv.Length == |original| && argv[optind..] == original[optind..]
      ensures argv[optind + n..] == original[optind + n..]
    {
      assert argv[optind..][n..] == argv[optind + n..] && original[optind..][n..] == original[optind + n..];
    }

    lemma ScanningParts()
      requires Scanning()
      ensures 1 <= firstNonopt <= lastNonopt <= optind <= argv.Length == |original| && argv[0] == original[0]
      ensures grammar.requireOrder ==> firstNonopt == lastNonopt == 1
      ensures nextchar != "" ==>
        optind < argv.Length && !IsOperand(argv[optind]) && (grammar.longopts.Some? ==> argv[optind][1] != '-')
    {
    }

    lemma StillScanning(rest: Scan)
      requires 1 <= firstNonopt <= lastNonopt <= optind <= argv.Length == |original| && argv[0] == original[0]
      requires argv[optind..] == original[optind..] && (grammar.requireOrder ==> firstNonopt == lastNonopt == 1)
      requires nextchar != "" ==>
        optind < argv.Length && !IsOperand(argv[optind]) && (grammar.longopts.Some? ==> argv[optind][1] != '-')
      requires rest == if nextchar == "" then grammar.ScanAll(original[optind..])
        else grammar.ScanCluster(nextchar, original[optind..])
      requires Balanced(Total(), reported, argv[..], firstNonopt, lastNonopt, optind, rest)
      ensures Scanning()
    {
      hide Balanced, Grammar.ScanAll, Grammar.ScanCluster;
    }

    /** One option character is scanned and reported. */
    method ReportShort() returns (e: Event)
      requires Scanning() && nextchar != "" && !ended
      modifies this`nextchar, this`optind, this`reported
      ensures Scanning() && reported == old(reported) + [e]
    {
      hide *;
      ScanningParts();
      ghost var event, n, next, rest := ClusterStep();
      BalancedStep(Total(), reported, argv[..], firstNonopt, lastNonopt, optind, rest, event, n);
      e := ShortOption(event, n, next);
      reported := reported + [e];
      StillScanning(rest);
    }

    /** One long option is scanned and reported. */
    method ReportLong() returns (e: Event)
      requires AtOption() && IsLong() && nextchar == argv[optind][2..]
      requires Balanced(Total(), reported, argv[..], firstNonopt, lastNonopt, optind,
        grammar.ScanAll(original[optind..]))
      modifies this`nextchar, this`optind, this`reported
      ensures Scanning() && reported == old(reported) + [e]
    {
      hide Balanced, Grammar.LongEvent, Grammar.LongTakesNext, Grammar.ScanAll;
      OptionStarts();
      ghost var opts, following := grammar.longopts.value, original[optind + 1..];
      ghost var n := if grammar.LongTakesNext(opts, nextchar, following) then 2 else 1;
      SuffixLater(n);
      ghost var rest, event := grammar.ScanAll(original[optind + n..]), grammar.LongEvent(opts, nextchar, following);
      BalancedStep(Total(), reported, argv[..], firstNonopt, lastNonopt, optind, rest, event, n);
      e := LongOption(grammar.longopts.value);
      reported := reported + [e];
    }

    /** Between any two calls the arguments are a permutation of the original ones. */
    lemma Permuted()
      requires Valid()
      ensures multiset(argv[..]) == multiset(original)
    {
      if ended || optind != 0 {
        grammar.MergeAll(original[1..]);
        MergeKeepsAll(Total().options, Total().operands, original[1..]);
        assert original == [original[0]] + original[1..];
        if ended {
          assert argv[..] == [original[0]] + (Total().options + Total().operands);
        } else {
          PermutedSoFar();
        }
      }
    }

    lemma PermutedSoFar()
      requires Scanning() && multiset(Total().options + Total().operands) == multiset(original[1..])
      ensures multiset(argv[..]) == multiset(original)
    {
      var rest, r := original[optind..], Remaining();
      if nextchar == "" {
        grammar.MergeAll(rest);
      } else {
        grammar.MergeCluster(nextchar, rest);
      }
      MergeKeepsAll(r.options, r.operands, rest);
      hide IsMerge, Grammar.ScanAll, Grammar.ScanCluster;
      BalancedPermuted(Total(), reported, argv[..], original, firstNonopt, lastNonopt, optind, r);
    }

    /** The first call. */
    method Begin()
      requires Valid() && !ended && optind == 0
      modifies this`optind, this`firstNonopt, this`lastNonopt, this`nextchar
      ensures Scanning() && nextchar == ""
    {
      firstNonopt, lastNonopt, optind := 1, 1, 1;
      nextchar := "";
      assert argv[1..] == original[1..];
      assert argv[1..1] == [] && [] + Total().events == Total().events && [] + Total().options == Total().options &&
          [] + Total().operands == Total().operands;
    }

    /** Nothing is left of the last element: skip operands up to the next option, or stop. */
    method Advance() returns (more: bool)
      requires Scanning() && nextchar == "" && !ended
      modifies this`optind, this`firstNonopt, this`lastNonopt, this`nextchar, this`ended, argv
      ensures !more ==> ended && Finished()
      ensures more ==>
        && AtOption() && nextchar == argv[optind][if IsLong() then 2 else 1..]
        && Balanced(Total(), reported, argv[..], firstNonopt, lastNonopt, optind, grammar.ScanAll(original[optind..]))
        && (!IsLong() ==> Scanning() && nextchar != "")
    {
      hide Balanced, Grammar.ScanAll;
      if !grammar.requireOrder {
        SkipOperands();
      }
      if optind != argv.Length && argv[optind] == "--" {
        EndOptions();
        Finish();
        return false;
      }
      if optind == argv.Length {
        AtEnd();
        Finish();
        return false;
      }
      if IsOperand(argv[optind]) {
        StopAtOperand();
        return false;
      }
      OptionStarts();
      nextchar := argv[optind][if IsLong() then 2 else 1..];
      return true;
    }

    /** `_getopt_internal`: the next option or mistake, or nothing at the end. */
    method Next() returns (e: Option<Event>)
      requires Valid() && !ended
      modifies this, argv
      ensures Valid()
      ensures e.Some? ==> !ended && reported == old(reported) + [e.value]
      ensures e.None? ==> ended && reported == old(reported)
    {
      if optind == 0 {
        Begin();
      }
      if nextchar == "" {
        var more := Advance();
        if !more {
          return None;
        }
        if IsLong() {
          var event := ReportLong();
          return Some(event);
        }
      }
      var event := ReportShort();
      return Some(event);
    }
  }

  /** The search for a long option: the first exact match, or the only abbreviation. */
  method FindLong(grammar: Grammar, opts: seq<LongOption>, typed: string) returns (m: Match)
    ensures m == grammar.Lookup(opts, typed)
  {
    var found: Option<nat>, ambig := None, false;
    var i := 0;
    while i < |opts|
      invariant i <= |opts| && (ambig ==> found.Some?) && (found.Some? ==> found.value < i)
      invariant grammar.Lookup(opts, typed) ==
        grammar.LookupFrom(opts, typed, i, if ambig then Ambiguous else if found == None then NotFound
            else Found(found.value))
    {
      if IsPrefix(typed, opts[i].name) {
        if |typed| == |opts[i].name| {
          assert opts[i].name == typed;
          return Found(i);
        } else if found == None {
          found := Some(i);
        } else {
          ambig := true;
        }
      }
      i := i + 1;
    }
    return if ambig then Ambiguous else if found == None then NotFound else Found(found.value);
  }

  ghost function Swapped(s: seq<string>, first: nat, last: nat, end: nat): seq<string>
    requires first <= last <= end <= |s|
  {
    s[..first] + s[last..end] + s[first..last] + s[end..]
  }

  lemma SwappedIs(s: seq<string>, first: nat, last: nat, end: nat)
    requires first <= last <= end <= |s|
    ensures Overlay(Overlay(s, first, s[last..end]), first + (end - last), s[first..last]) ==
      Swapped(s, first, last, end)
  {
    var t := Overlay(s, first, s[last..end]);
    assert t[..first + (end - last)] == s[..first] + s[last..end];
    assert t[end..] == s[end..];
  }

  method SwapBlocks(argv: array<string>, first: nat, last: nat, end: nat)
    requires first <= last <= end <= argv.Length
    modifies argv
    ensures argv[..] == Swapped(old(argv[..]), first, last, end)
  {
    var temp := Saved(argv, first, last);
    Shift(argv, first, last, end, temp);
  }

  /** A copy of a part of an array. */
  method Saved(argv: array<string>, first: nat, last: nat) returns (temp: array<string>)
    requires first <= last <= argv.Length
    ensures fresh(temp) && temp[..] == argv[first..last] && temp.Length == last - first
  {
    temp := new string[last - first];
    ghost var blank := temp[..];
    Copy(argv, first, temp, 0, last - first, argv[first..last]);
    assert Overlay(blank, 0, argv[first..last]) == argv[first..last];
  }

  method Shift(argv: array<string>, first: nat, last: nat, end: nat, temp: array<string>)
    requires first <= last <= end <= argv.Length && temp != argv && temp[..] == argv[first..last] &&
      temp.Length == last - first
    modifies argv
    ensures argv[..] == Swapped(old(argv[..]), first, last, end)
  {
    ghost var was, a, b := argv[..], argv[last..end], argv[first..last];
    SwappedIs(was, first, last, end);
    assert was[last..end] == a && was[first..last] == b;
    hide *;
    Copy(argv, last, argv, first, end - last, a);
    Copy(temp, 0, argv, first + (end - last), last - first, b);
  }

  /** A whole run reports exactly what the plain scan of the original arguments
      reports, which is what these mean as a written command line. It leaves the
      program name, the options with their arguments, and the operands, all in
      their original order, and the index of the first operand. */
  method Run(grammar: Grammar, argv: array<string>) returns (events: seq<Event>, optind: nat)
    requires 0 < argv.Length
    modifies argv
    ensures var total := grammar.ScanAll(old(argv[1..]));
            && events == total.events
            && argv[..] == [old(argv[0])] + total.options + total.operands
            && optind == 1 + |total.options|
    ensures 1 <= optind <= argv.Length && argv[0] == old(argv[0])
    ensures IsRead(grammar, old(argv[1..]), Scan(events, argv[1..optind], argv[optind..]))
  {
    var scanner := new Scanner(grammar, argv);
    ghost var total := scanner.Total();
    assert scanner.original[1..] == argv[1..];
    events := [];
    var more := true;
    while more
      invariant scanner.Valid() && fresh(scanner) && scanner.argv == argv && scanner.grammar == grammar
      invariant scanner.reported == events && scanner.Total() == total && (more <==> !scanner.ended)
      decreases |total.events| - |events|, more
    {
      RunStep(scanner);
      var e := scanner.Next();
      match e
      case Some(event) =>
        events := events + [event];
        RunStep(scanner);
      case None =>
        more := false;
    }
    ScanIsRead(grammar, old(argv[1..]), total);
    optind := scanner.optind;
    FromFirstOperand(argv[..], old(argv[0]), total.options, total.operands);
    return;
  }

  lemma FromFirstOperand(a: seq<string>, program: string, options: seq<string>, operands: seq<string>)
    requires a == [program] + options + operands
    ensures var n := 1 + |options|;
            n <= |a| && a[0] == program && a[1..n] == options && a[n..] == operands
  {
  }

  /** No more is reported than there is. */
  lemma RunStep(scanner: Scanner)
    requires scanner.Valid() && !scanner.ended
    ensures |scanner.reported| <= |scanner.Total().events|
  {
  }
}
