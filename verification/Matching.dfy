/** Maximum bipartite matching by augmenting depth-first search, as the matchers library uses it to
    pair elements (left nodes) with matchers (right nodes).

    The maximality proof carries a "dead pair" (deadL, deadR) through the loop of Compute: every
    neighbour of a dead left node is a dead right node, and every dead right node is matched with a
    dead left node. Failed searches extend the pair and successful ones cannot touch it. At the end
    deadR together with the left nodes outside deadL is a vertex cover as large as the matching. */
module BipartiteMatching {

  /** The adjacency matrix; edges holds the cells that are set. */
  datatype MatchMatrix = MatchMatrix(lhsSize: nat, rhsSize: nat, edges: set<(nat, nat)>) {
    predicate HasEdge(l: nat, r: nat) {
      l < lhsSize && r < rhsSize && (l, r) in edges
    }
  }

  /** The marker for an unmatched node. */
  const UNUSED: int := -1

  type Pairs = seq<(nat, nat)>

  /** A matching: edges of the graph, no two of which share a node. */
  ghost predicate IsMatching(g: MatchMatrix, pairs: Pairs) {
    && (forall i :: 0 <= i < |pairs| ==> g.HasEdge(pairs[i].0, pairs[i].1))
    && (forall i, j :: 0 <= i < j < |pairs| ==> pairs[i].0 != pairs[j].0 && pairs[i].1 != pairs[j].1)
  }

  /** left and right are the two views of one matching, except that right[skip] may be stale. */
  ghost predicate MutualExcept(g: MatchMatrix, left: seq<int>, right: seq<int>, skip: int) {
    && |left| == g.lhsSize && |right| == g.rhsSize
    && (forall l :: 0 <= l < |left| && left[l] != UNUSED ==>
          0 <= left[l] < |right| && g.HasEdge(l, left[l]) && right[left[l]] == l)
    && (forall r :: 0 <= r < |right| && right[r] != UNUSED ==>
          0 <= right[r] < |left| && (r == skip || left[right[r]] == r))
  }

  ghost predicate Mutual(g: MatchMatrix, left: seq<int>, right: seq<int>) {
    MutualExcept(g, left, right, UNUSED)
  }

  ghost predicate NeighboursSeen(g: MatchMatrix, l: int, seen: seq<bool>) {
    forall r :: 0 <= r < |seen| && 0 <= l && g.HasEdge(l, r) ==> seen[r]
  }

  /** Every right node that after marks and before does not is matched, and its mate is exhausted. */
  ghost predicate Exhausted(g: MatchMatrix, right: seq<int>, before: seq<bool>, after: seq<bool>)
    requires |before| == |after| == |right|
  {
    forall r :: 0 <= r < |right| && after[r] && !before[r] ==>
      right[r] != UNUSED && NeighboursSeen(g, right[r], after)
  }

  ghost predicate DeadPair(g: MatchMatrix, right: seq<int>, deadL: set<int>, deadR: set<int>) {
    && (forall l, r :: l in deadL && 0 <= l && 0 <= r && g.HasEdge(l, r) ==> r in deadR)
    && (forall r :: r in deadR ==> 0 <= r < |right| && right[r] != UNUSED && right[r] in deadL)
  }

  ghost function Unseen(seen: seq<bool>): set<int> {
    set r | 0 <= r < |seen| && !seen[r]
  }

  /** Marks only accumulate. */
  ghost predicate Grows(before: seq<bool>, after: seq<bool>) {
    |before| == |after| && forall r :: 0 <= r < |before| && before[r] ==> after[r]
  }

  /** A failed search from l has marked all that l reaches, and all of that is matched. */
  ghost predicate DeadEnd(g: MatchMatrix, l: int, right: seq<int>, before: seq<bool>, after: seq<bool>) {
    && |before| == |after| == |right|
    && NeighboursSeen(g, l, after)
    && Exhausted(g, right, before, after)
  }

  /** A successful search rematches l through unmarked right nodes only, keeps every other left node
      matched or unmatched, and touches nothing dead. */
  ghost predicate Augmented(g: MatchMatrix, l: int, deadL: set<int>, deadR: set<int>, marked: seq<bool>,
                            left0: seq<int>, right0: seq<int>, left1: seq<int>, right1: seq<int>)
  {
    && |left0| == |left1| == g.lhsSize && |right0| == |right1| == |marked| == g.rhsSize && 0 <= l < g.lhsSize
    && l !in deadL
    && (forall r :: r in deadR && 0 <= r < |right0| ==> right1[r] == right0[r])
    && MutualExcept(g, left1, right1, left0[l])
    && left1[l] != UNUSED && !marked[left1[l]]
    && (forall r :: 0 <= r < |right0| && marked[r] ==> right1[r] == right0[r])
    && (forall x :: 0 <= x < |left0| && x != l && left1[x] != left0[x] ==>
          left0[x] != UNUSED && left1[x] != UNUSED && 0 <= left0[x] < |marked| && !marked[left0[x]])
  }

  /** The sink is reached directly: r was free. */
  lemma AugmentDirect(g: MatchMatrix, l: int, r: int, deadL: set<int>, deadR: set<int>, marked: seq<bool>,
                      left: seq<int>, right: seq<int>)
    requires Mutual(g, left, right) && DeadPair(g, right, deadL, deadR)
    requires |marked| == g.rhsSize && 0 <= l < g.lhsSize && 0 <= r < g.rhsSize
    requires g.HasEdge(l, r) && !marked[r] && right[r] == UNUSED
    requires left[l] != UNUSED ==> marked[left[l]]
    ensures Augmented(g, l, deadL, deadR, marked, left, right, left[l := r], right[r := l])
  {
    assert l in deadL ==> r in deadR;
  }

  /** The sink is reached through the mate of r, which a recursive search has rematched. */
  lemma AugmentThrough(g: MatchMatrix, l: int, r: int, deadL: set<int>, deadR: set<int>,
                       marked: seq<bool>, markedLater: seq<bool>,
                       left0: seq<int>, right0: seq<int>, left1: seq<int>, right1: seq<int>)
    requires Mutual(g, left0, right0) && DeadPair(g, right0, deadL, deadR)
    requires |marked| == g.rhsSize && 0 <= l < g.lhsSize && 0 <= r < g.rhsSize
    requires g.HasEdge(l, r) && !marked[r] && right0[r] != UNUSED
    requires left0[l] != UNUSED ==> marked[left0[l]]
    requires Grows(marked, markedLater) && markedLater[r]
    requires Augmented(g, right0[r], deadL, deadR, markedLater, left0, right0, left1, right1)
    ensures Augmented(g, l, deadL, deadR, marked, left0, right0, left1[l := r], right1[r := l])
  {
    var mate := right0[r];
    var left2, right2 := left1[l := r], right1[r := l];
    assert left0[mate] == r && l != mate;
    assert left1[l] == left0[l];
    assert r !in deadR && l !in deadL;
    forall x | 0 <= x < |left2| && left2[x] != UNUSED
      ensures 0 <= left2[x] < |right2| && g.HasEdge(x, left2[x]) && right2[left2[x]] == x
    {
      if x != l {
        assert right1[left1[x]] == x;
        assert right1[r] == mate && left1[mate] != r;
      }
    }
    forall q | 0 <= q < |right2| && right2[q] != UNUSED
      ensures 0 <= right2[q] < |left2| && (q == left0[l] || left2[right2[q]] == q)
    {
      if q != r && q != left0[l] {
        assert left1[right1[q]] == q;
      }
    }
  }

  /** One dead branch more: the loop of a failing search goes on. */
  lemma ExhaustedStep(g: MatchMatrix, r: int, right: seq<int>, before: seq<bool>, mid: seq<bool>, after: seq<bool>)
    requires |right| == |before| == |mid| == |after| && 0 <= r < |mid|
    requires Grows(mid, after) && after[r]
    requires Exhausted(g, right, before, mid)
    requires right[r] != UNUSED && DeadEnd(g, right[r], right, mid[r := true], after)
    ensures Exhausted(g, right, before, after)
  {
  }

  ghost function UpTo(n: nat): (s: set<int>)
    ensures |s| == n && forall k :: k in s <==> 0 <= k < n
  {
    if n == 0 then {} else UpTo(n - 1) + {n - 1}
  }

  ghost predicate MeetsLeft(pairs: Pairs, l: int) { exists i :: 0 <= i < |pairs| && pairs[i].0 == l }

  ghost predicate MeetsRight(pairs: Pairs, r: int) { exists i :: 0 <= i < |pairs| && pairs[i].1 == r }

  class MaxBipartiteMatchState {
    const graph: MatchMatrix
    const left: array<int>
    const right: array<int>

    ghost predicate Valid()
      reads left, right
    {
      left != right && Mutual(graph, left[..], right[..])
    }

    constructor (g: MatchMatrix)
      ensures graph == g && fresh(left) && fresh(right) && Valid()
      ensures forall l :: 0 <= l < left.Length ==> left[l] == UNUSED
    {
      graph := g;
      left := new int[g.lhsSize](_ => UNUSED);
      right := new int[g.rhsSize](_ => UNUSED);
    }

    /** One depth-first search from l. The mate that l may already have must have been marked. */
    method TryAugment(l: nat, seen: array<bool>, ghost deadL: set<int>, ghost deadR: set<int>) returns (ok: bool)
      requires Valid() && l < graph.lhsSize && seen.Length == graph.rhsSize
      requires left[l] != UNUSED ==> seen[left[l]]
      requires DeadPair(graph, right[..], deadL, deadR)
      modifies left, right, seen
      decreases Unseen(seen[..])
      ensures Grows(old(seen[..]), seen[..])
      ensures !ok ==> left[..] == old(left[..]) && right[..] == old(right[..])
      ensures !ok ==> DeadEnd(graph, l, right[..], old(seen[..]), seen[..])
      ensures ok ==>
        Augmented(graph, l, deadL, deadR, old(seen[..]), old(left[..]), old(right[..]), left[..], right[..])
    {
      ghost var left0, right0, seen0 := left[..], right[..], seen[..];
      var r := 0;
      while r < graph.rhsSize
        invariant 0 <= r <= graph.rhsSize
        invariant left[..] == left0 && right[..] == right0
        invariant Grows(seen0, seen[..])
        invariant forall k :: 0 <= k < r && graph.HasEdge(l, k) ==> seen[k]
        invariant Exhausted(graph, right0, seen0, seen[..])
      {
        if !seen[r] && graph.HasEdge(l, r) {
          ghost var mid := seen[..];
          seen[r] := true;
          assert seen[..] == mid[r := true];
          assert Unseen(seen[..]) < Unseen(seen0) by {
            assert r in Unseen(seen0) && r !in Unseen(seen[..]);
          }
          var reached := right[r] == UNUSED;
          if !reached {
            reached := TryAugment(right[r], seen, deadL, deadR);
          }
          if reached {
            if right0[r] == UNUSED {
              AugmentDirect(graph, l, r, deadL, deadR, seen0, left0, right0);
            } else {
              AugmentThrough(graph, l, r, deadL, deadR, seen0, mid[r := true], left0, right0, left[..], right[..]);
            }
            ghost var left1, right1 := left[..], right[..];
            left[l] := r;
            right[r] := l;
            assert left[..] == left1[l := r] && right[..] == right1[r := l];
            return true;
          }
          ExhaustedStep(graph, r, right0, seen0, mid, seen[..]);
        }
        r := r + 1;
      }
      return false;
    }

    /** Visits every left node once and lists the edges found. */
    method Compute() returns (pairs: Pairs)
      requires Valid() && forall l :: 0 <= l < left.Length ==> left[l] == UNUSED
      modifies left, right
      ensures Valid()
      ensures IsMatching(graph, pairs)
      ensures forall other :: IsMatching(graph, other) ==> |other| <= |pairs|
    {
      ghost var deadL: set<int>, deadR: set<int> := {}, {};
      for ilhs := 0 to graph.lhsSize
        invariant Valid() && DeadPair(graph, right[..], deadL, deadR)
        invariant forall l :: ilhs <= l < left.Length ==> left[l] == UNUSED
        invariant forall l :: 0 <= l < ilhs && left[l] == UNUSED ==> l in deadL
        invariant forall l :: l in deadL ==> 0 <= l < graph.lhsSize
      {
        assert left[ilhs] == UNUSED; // the source checks this at run time
        var seen := new bool[graph.rhsSize](_ => false);
        ghost var unmarked := seen[..];
        var ok := TryAugment(ilhs, seen, deadL, deadR);
        if !ok {
          deadL, deadR := Spread(graph, ilhs, left[..], right[..], unmarked, seen[..], deadL, deadR);
        }
      }
      ghost var free := UpTo(graph.lhsSize) - deadL;
      pairs := ReadPairs();
      CoverAttained(graph, left[..], right[..], pairs, deadL, deadR);
      forall other | IsMatching(graph, other) ensures |other| <= |pairs| {
        CoverBound(graph, other, free, deadR);
      }
    }

    /** The second loop of Compute: the matched left nodes in order. */
    method ReadPairs() returns (pairs: Pairs)
      requires Valid()
      ensures IsMatching(graph, pairs)
      ensures forall i :: 0 <= i < |pairs| ==> pairs[i].1 == left[pairs[i].0]
      ensures forall l :: 0 <= l < left.Length && left[l] != UNUSED ==> (l, left[l]) in pairs
    {
      pairs := [];
      for ilhs := 0 to left.Length
        invariant forall i :: 0 <= i < |pairs| ==>
          0 <= pairs[i].0 < ilhs && left[pairs[i].0] != UNUSED && pairs[i].1 == left[pairs[i].0]
        invariant forall i, j :: 0 <= i < j < |pairs| ==> pairs[i].0 < pairs[j].0
        invariant forall l :: 0 <= l < ilhs && left[l] != UNUSED ==> (l, left[l]) in pairs
      {
        if left[ilhs] != UNUSED {
          pairs := pairs + [(ilhs, left[ilhs])];
        }
      }
      forall i, j | 0 <= i < j < |pairs| ensures pairs[i].1 != pairs[j].1 {
        assert right[pairs[i].1] == pairs[i].0 && right[pairs[j].1] == pairs[j].0;
      }
    }
  }

  /** The dead pair after a failed search from the unmatched node l. */
  lemma Spread(g: MatchMatrix, l: nat, left: seq<int>, right: seq<int>, before: seq<bool>, after: seq<bool>,
               deadL: set<int>, deadR: set<int>) returns (deadL': set<int>, deadR': set<int>)
    requires Mutual(g, left, right) && DeadPair(g, right, deadL, deadR)
    requires |before| == |right| && forall r :: 0 <= r < |before| ==> !before[r]
    requires DeadEnd(g, l, right, before, after) && l < g.lhsSize
    requires forall x :: x in deadL ==> 0 <= x < g.lhsSize
    ensures DeadPair(g, right, deadL', deadR') && deadL <= deadL' && l in deadL'
    ensures forall x :: x in deadL' ==> 0 <= x < g.lhsSize
  {
    var marked := set r | 0 <= r < |after| && after[r];
    deadR' := deadR + marked;
    deadL' := deadL + {l} + set r | r in marked :: right[r];
  }

  /** Koenig, one half: a matching is no larger than a set of nodes that covers its edges. */
  lemma {:induction false} CoverBound(g: MatchMatrix, pairs: Pairs, lefts: set<int>, rights: set<int>)
    requires IsMatching(g, pairs)
    requires forall i :: 0 <= i < |pairs| ==> pairs[i].0 in lefts || pairs[i].1 in rights
    ensures |pairs| <= |lefts| + |rights|
    decreases |pairs|
  {
    if pairs != [] {
      var last, rest := pairs[|pairs| - 1], pairs[..|pairs| - 1];
      if last.0 in lefts {
        CoverBound(g, rest, lefts - {last.0}, rights);
      } else {
        CoverBound(g, rest, lefts, rights - {last.1});
      }
    }
  }

  /** Koenig, the other half: nodes met by distinct edges of a matching are no more than its edges. */
  lemma {:induction false} DisjointlyMet(g: MatchMatrix, pairs: Pairs, lefts: set<int>, rights: set<int>)
    requires IsMatching(g, pairs)
    requires forall l :: l in lefts ==> MeetsLeft(pairs, l)
    requires forall r :: r in rights ==> MeetsRight(pairs, r)
    requires forall i :: 0 <= i < |pairs| ==> !(pairs[i].0 in lefts && pairs[i].1 in rights)
    ensures |lefts| + |rights| <= |pairs|
    decreases |pairs|
  {
    if pairs == [] {
      forall x ensures x !in lefts && x !in rights {
        assert !MeetsLeft(pairs, x) && !MeetsRight(pairs, x);
      }
    } else {
      var last, rest := pairs[|pairs| - 1], pairs[..|pairs| - 1];
      DisjointlyMet(g, rest, lefts - {last.0}, rights - {last.1});
    }
  }

  lemma CoverAttained(g: MatchMatrix, left: seq<int>, right: seq<int>, pairs: Pairs, deadL: set<int>, deadR: set<int>)
    requires Mutual(g, left, right) && DeadPair(g, right, deadL, deadR) && IsMatching(g, pairs)
    requires forall l :: 0 <= l < |left| && left[l] == UNUSED ==> l in deadL
    requires forall i :: 0 <= i < |pairs| ==> pairs[i].1 == left[pairs[i].0]
    requires forall l :: 0 <= l < |left| && left[l] != UNUSED ==> (l, left[l]) in pairs
    ensures |UpTo(g.lhsSize) - deadL| + |deadR| <= |pairs|
    ensures forall l: nat, r: nat :: g.HasEdge(l, r) ==> l !in deadL || r in deadR
  {
    var free := UpTo(g.lhsSize) - deadL;
    forall l | l in free ensures MeetsLeft(pairs, l) {
      assert (l, left[l]) in pairs;
    }
    forall r | r in deadR ensures MeetsRight(pairs, r) {
      assert (right[r], left[right[r]]) in pairs;
    }
    forall i | 0 <= i < |pairs| ensures !(pairs[i].0 in free && pairs[i].1 in deadR) {
      assert right[pairs[i].1] == pairs[i].0;
    }
    DisjointlyMet(g, pairs, free, deadR);
  }

  /** The edges of a matching of maximum cardinality. */
  method FindMaxBipartiteMatching(g: MatchMatrix) returns (pairs: Pairs)
    ensures IsMatching(g, pairs)
    ensures forall other :: IsMatching(g, other) ==> |other| <= |pairs|
  {
    var state := new MaxBipartiteMatchState(g);
    pairs := state.Compute();
  }

  ghost predicate CoversEveryMatcher(g: MatchMatrix, pairs: Pairs) {
    forall r :: 0 <= r < g.rhsSize ==> MeetsRight(pairs, r)
  }

  /** A matching has at most one edge per matcher, and as many only if it covers them all. */
  lemma FullSizeCovers(g: MatchMatrix, pairs: Pairs)
    requires IsMatching(g, pairs)
    ensures |pairs| <= g.rhsSize
    ensures |pairs| == g.rhsSize <==> CoversEveryMatcher(g, pairs)
  {
    var all := UpTo(g.rhsSize);
    CoverBound(g, pairs, {}, all);
    if CoversEveryMatcher(g, pairs) {
      DisjointlyMet(g, pairs, {}, all);
    } else {
      var r :| 0 <= r < g.rhsSize && !MeetsRight(pairs, r);
      CoverBound(g, pairs, {}, all - {r});
    }
  }

  /** True exactly when the elements can satisfy all matchers at once. */
  method FindPairing(g: MatchMatrix) returns (result: bool)
    ensures result <==> exists pairs :: IsMatching(g, pairs) && CoversEveryMatcher(g, pairs)
  {
    var matches := FindMaxBipartiteMatching(g);
    result := |matches| == g.rhsSize;
    FullSizeCovers(g, matches);
    forall pairs | IsMatching(g, pairs) && CoversEveryMatcher(g, pairs) ensures result {
      FullSizeCovers(g, pairs);
    }
  }
}
