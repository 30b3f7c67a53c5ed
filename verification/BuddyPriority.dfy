/** The cached "top" buddy of a contact. */
module BuddyPriority {
  import opened Lists
  import opened BuddyTree

  /** The environment as far as priorities depend on it. */
  datatype Ranking = Ranking(connected: set<Account>, rank: map<Node, int>, lastMatch: bool) {

    predicate Up(b: Node) {
      b.account in connected
    }

    function Rank(b: Node): int {
      if b in rank then rank[b] else 0
    }

    /** Whether the loop drops `best` in favour of the later buddy `b`. */
    predicate Beats(b: Node, best: Node) {
      Up(b) && (!Up(best) || Rank(best) < Rank(b) || (Rank(best) == Rank(b) && lastMatch))
    }

    function BestFrom(best: Node, s: seq<Node>): Node {
      if s == [] then best else BestFrom(if Beats(s[0], best) then s[0] else best, s[1..])
    }

    function Best(s: seq<Node>): Node? {
      if s == [] then null else BestFrom(s[0], s[1..])
    }

    /** The buddy at position `i` is connected, none ranks higher, and it is
        the first (or, by preference, the last) among those of equal rank; or
        it is the first of all and none is connected. */
    ghost predicate IsBest(s: seq<Node>, i: nat)
      requires i < |s|
    {
      if Up(s[i]) then
        forall j :: 0 <= j < |s| && j != i && Up(s[j]) ==>
          Rank(s[j]) < Rank(s[i]) || (Rank(s[j]) == Rank(s[i]) && (lastMatch <==> j < i))
      else
        i == 0 && forall j :: 0 <= j < |s| ==> !Up(s[j])
    }

    lemma BestIsUnique(s: seq<Node>, i: nat, j: nat)
      requires i < |s| && j < |s| && IsBest(s, i) && IsBest(s, j)
      ensures i == j
    {
    }

    /** The loop, started in the middle of a list whose best so far is at `i`. */
    lemma {:induction false} BestFromIsBest(s: seq<Node>, n: nat, i: nat) returns (k: nat)
      requires 0 < n <= |s| && i < n && IsBest(s[..n], i)
      ensures k < |s| && IsBest(s, k) && BestFrom(s[i], s[n..]) == s[k]
      decreases |s| - n
    {
      if n == |s| {
        assert s[..n] == s;
        k := i;
      } else {
        var next := if Beats(s[n], s[i]) then n else i;
        assert forall j :: 0 <= j < n ==> s[..n][j] == s[j] == s[..n + 1][j];
        assert s[..n + 1][n] == s[n];
        k := BestFromIsBest(s, n + 1, next);
        assert s[n..][0] == s[n] && s[n..][1..] == s[n + 1..];
      }
    }

    /** What the computation returns, without the computation. */
    lemma BestIsBest(s: seq<Node>) returns (k: nat)
      requires s != []
      ensures k < |s| && Best(s) == s[k] && IsBest(s, k)
      ensures forall j :: 0 <= j < |s| && IsBest(s, j) ==> j == k
    {
      assert IsBest(s[..1], 0);
      k := BestFromIsBest(s, 1, 0);
      forall j | 0 <= j < |s| && IsBest(s, j) ensures j == k {
        BestIsUnique(s, j, k);
      }
    }

    /** Removing any other buddy leaves the best one the best. */
    lemma BestMinus(s: seq<Node>, b: Node)
      requires b in s && Minus(s, b) != [] && Best(s) != b
      ensures Best(Minus(s, b)) == Best(s)
    {
      var i, t := IndexOf(s, b), Minus(s, b);
      var k := BestIsBest(s);
      var k' := if k < i then k else k - 1;
      StillBest(s, t, i, k, k');
      var m := BestIsBest(t);
    }

    lemma StillBest(s: seq<Node>, t: seq<Node>, i: nat, k: nat, k': nat)
      requires i < |s| && k < |s| && k != i && IsBest(s, k)
      requires t == s[..i] + s[i + 1..] && k' == (if k < i then k else k - 1) < |t|
      ensures IsBest(t, k')
    {
      forall j | 0 <= j < |t| ensures t[j] == s[if j < i then j else j + 1] {
      }
    }
  }
}
