/**
 * The graph-building pass of `BlockchainPlotter.__generate_plot`, as pure
 * functions over the pass state: the hash -> branch-name claim map
 * (`already_visited`), the four parallel node lists and the two edge lists.
 * The imperative loops in module Plotter are proved equal to `BuildPass`.
 */
module GraphPass {
  import opened Wrappers
  import opened Blocks
  import opened PlotHelpers
  import opened BranchLabels

  /** The node trace's parallel lists: x coordinate, branch name, block id, block hash. */
  datatype NodeTrace = NodeTrace(x: seq<int>, y: seq<string>, text: seq<int>, ids: seq<Hash>)

  /** The edge trace's lists; every edge adds `[x0, x1, None]` and `[y0, y1, None]`. */
  datatype EdgeTrace = EdgeTrace(x: seq<Option<int>>, y: seq<Option<string>>)

  datatype PassState = PassState(visited: map<Hash, string>, nodes: NodeTrace, edges: EdgeTrace)

  /** The state before the first branch: nothing claimed, nothing drawn. */
  const EmptyPass: PassState := PassState(map[], NodeTrace([], [], [], []), EdgeTrace([], []))

  /**
   * The branch name an edge starts from: the claim on the current block's
   * predecessor hash if there is one, else the branch being walked.
   */
  function OriginLabel(visited: map<Hash, string>, predecessorHash: Option<Hash>, branchName: string): string
  {
    if predecessorHash.Some? && predecessorHash.value in visited then visited[predecessorHash.value] else branchName
  }

  /**
   * One iteration of the inner loop for a block whose hash is not yet claimed:
   * claim it, draw its node, and, when there is a previous block, draw the edge
   * and, for genesis, the previous block's node as well. The origin label is
   * looked up after the claim, as `__generate_plot` does
   * (labchain/plot.py:88-93).
   */
  function Step(st: PassState, block: Block, prev: Option<Block>, branchName: string): PassState
  {
    var visited := st.visited[block.hash := branchName];
    var origin := OriginLabel(visited, block.predecessorHash, branchName);
    var x1 := TimestampToX(block.timestamp);
    var drawn := NodeTrace(st.nodes.x + [x1], st.nodes.y + [branchName],
                           st.nodes.text + [block.id], st.nodes.ids + [block.hash]);
    match prev
    case None => PassState(visited, drawn, st.edges)
    case Some(p) =>
      var x0 := TimestampToX(p.timestamp);
      var edges := EdgeTrace(st.edges.x + [Some(x0), Some(x1), None],
                             st.edges.y + [Some(origin), Some(branchName), None]);
      var nodes := if p.id == GenesisId
                   then NodeTrace(drawn.x + [x0], drawn.y + [origin], drawn.text + [p.id], drawn.ids + [p.hash])
                   else drawn;
      PassState(visited, nodes, edges)
  }

  /** The inner loop over one branch's pairs; it stops at the first block already claimed. */
  function RunPairs(st: PassState, pairs: seq<BlockPair>, branchName: string): PassState
    decreases |pairs|
  {
    if |pairs| == 0 then st
    else if pairs[0].0.hash in st.visited then st
    else RunPairs(Step(st, pairs[0].0, pairs[0].1, branchName), pairs[1..], branchName)
  }

  /** The outer loop: branch `k` of the walking order is drawn under `BranchName(k)`. */
  function RunBranches(st: PassState, branches: seq<seq<Block>>, k: nat): PassState
    decreases |branches|
  {
    if |branches| == 0 then st
    else RunBranches(RunPairs(st, Pairwise(branches[0]), BranchName(k)), branches[1..], k + 1)
  }

  /** One whole pass over the branches, local branch first, from an empty claim map. */
  function BuildPass(branches: seq<seq<Block>>): PassState
  {
    RunBranches(EmptyPass, branches, 0)
  }

  // ---------------------------------------------------------------------------
  // Shape of the traces

  /**
   * The node lists have equal length and every node x is a clamped timestamp;
   * the edge lists have equal length, made of whole `[a, b, None]` triples.
   */
  ghost predicate WellFormed(st: PassState)
  {
    && |st.nodes.x| == |st.nodes.y| == |st.nodes.text| == |st.nodes.ids|
    && (forall i :: 0 <= i < |st.nodes.x| ==> st.nodes.x[i] >= MinTimestamp)
    && |st.edges.x| == |st.edges.y|
    && |st.edges.x| % 3 == 0
    && (forall i :: 0 <= i < |st.edges.x| ==> (st.edges.x[i].None? <==> i % 3 == 2))
    && (forall i :: 0 <= i < |st.edges.y| ==> (st.edges.y[i].None? <==> i % 3 == 2))
  }

  lemma StepWellFormed(st: PassState, block: Block, prev: Option<Block>, branchName: string)
    requires WellFormed(st)
    ensures WellFormed(Step(st, block, prev, branchName))
  {
    var r := Step(st, block, prev, branchName);
    var n := |st.edges.x|;
    if prev.Some? {
      forall i | 0 <= i < |r.edges.x| ensures (r.edges.x[i].None? <==> i % 3 == 2) {
        if i >= n {
          assert (i - n) % 3 == i % 3 by { assert n % 3 == 0; }
        }
      }
      forall i | 0 <= i < |r.edges.y| ensures (r.edges.y[i].None? <==> i % 3 == 2) {
        if i >= n {
          assert (i - n) % 3 == i % 3 by { assert n % 3 == 0; }
        }
      }
    }
  }

  lemma {:induction false} RunPairsWellFormed(st: PassState, pairs: seq<BlockPair>, branchName: string)
    requires WellFormed(st)
    ensures WellFormed(RunPairs(st, pairs, branchName))
    decreases |pairs|
  {
    if |pairs| > 0 && pairs[0].0.hash !in st.visited {
      StepWellFormed(st, pairs[0].0, pairs[0].1, branchName);
      RunPairsWellFormed(Step(st, pairs[0].0, pairs[0].1, branchName), pairs[1..], branchName);
    }
  }

  lemma {:induction false} RunBranchesWellFormed(st: PassState, branches: seq<seq<Block>>, k: nat)
    requires WellFormed(st)
    ensures WellFormed(RunBranches(st, branches, k))
    decreases |branches|
  {
    if |branches| > 0 {
      RunPairsWellFormed(st, Pairwise(branches[0]), BranchName(k));
      RunBranchesWellFormed(RunPairs(st, Pairwise(branches[0]), BranchName(k)), branches[1..], k + 1);
    }
  }

  /**
   * After a whole pass the four node lists have the same length, every node x
   * is at least one day, and the edge lists hold whole `[x0, x1, None]` triples.
   */
  lemma BuildPassWellFormed(branches: seq<seq<Block>>)
    ensures WellFormed(BuildPass(branches))
  {
    RunBranchesWellFormed(EmptyPass, branches, 0);
  }

  // ---------------------------------------------------------------------------
  // Growth: the claim map only gains fresh keys, the traces are only appended to

  /** `m2` keeps every claim of `m1` with the same branch name. */
  ghost predicate Extends(m1: map<Hash, string>, m2: map<Hash, string>)
  {
    && m1.Keys <= m2.Keys
    && forall h :: h in m1 ==> m2[h] == m1[h]
  }

  /** `st2` is `st1` with claims added and entries appended, nothing overwritten. */
  ghost predicate Grows(st1: PassState, st2: PassState)
  {
    && Extends(st1.visited, st2.visited)
    && st1.nodes.x <= st2.nodes.x && st1.nodes.y <= st2.nodes.y
    && st1.nodes.text <= st2.nodes.text && st1.nodes.ids <= st2.nodes.ids
    && st1.edges.x <= st2.edges.x && st1.edges.y <= st2.edges.y
  }

  lemma GrowsTransitive(st1: PassState, st2: PassState, st3: PassState)
    requires Grows(st1, st2) && Grows(st2, st3)
    ensures Grows(st1, st3)
  {
  }

  lemma StepGrows(st: PassState, block: Block, prev: Option<Block>, branchName: string)
    requires block.hash !in st.visited
    ensures Grows(st, Step(st, block, prev, branchName))
    ensures |Step(st, block, prev, branchName).nodes.x| > |st.nodes.x|
  {
  }

  /** The inner loop never overwrites a claim and only appends to the traces. */
  lemma {:induction false} RunPairsGrows(st: PassState, pairs: seq<BlockPair>, branchName: string)
    ensures Grows(st, RunPairs(st, pairs, branchName))
    decreases |pairs|
  {
    if |pairs| > 0 && pairs[0].0.hash !in st.visited {
      var st1 := Step(st, pairs[0].0, pairs[0].1, branchName);
      StepGrows(st, pairs[0].0, pairs[0].1, branchName);
      RunPairsGrows(st1, pairs[1..], branchName);
      GrowsTransitive(st, st1, RunPairs(st1, pairs[1..], branchName));
    }
  }

  /** A whole pass never overwrites a claim and only appends to the traces. */
  lemma {:induction false} RunBranchesGrows(st: PassState, branches: seq<seq<Block>>, k: nat)
    ensures Grows(st, RunBranches(st, branches, k))
    decreases |branches|
  {
    if |branches| > 0 {
      var st1 := RunPairs(st, Pairwise(branches[0]), BranchName(k));
      RunPairsGrows(st, Pairwise(branches[0]), BranchName(k));
      RunBranchesGrows(st1, branches[1..], k + 1);
      GrowsTransitive(st, st1, RunBranches(st1, branches[1..], k + 1));
    }
  }

  /**
   * The local branch's newest block is never already claimed, so a pass whose
   * local branch is non-empty draws at least one node and has an x range.
   */
  lemma BuildPassNonEmpty(branches: seq<seq<Block>>)
    requires |branches| > 0 && |branches[0]| > 0
    ensures |BuildPass(branches).nodes.x| > 0
    ensures GreatestRange(BuildPass(branches).nodes.x).Some?
  {
    var pairs := Pairwise(branches[0]);
    PairwiseCovers(branches[0]);
    var st1 := Step(EmptyPass, pairs[0].0, pairs[0].1, MyBranchName);
    StepGrows(EmptyPass, pairs[0].0, pairs[0].1, MyBranchName);
    RunPairsGrows(st1, pairs[1..], MyBranchName);
    RunBranchesGrows(RunPairs(EmptyPass, pairs, MyBranchName), branches[1..], 1);
  }

  // ---------------------------------------------------------------------------
  // Claims: which blocks are drawn as the current block, and where a branch stops

  /** No hash occurs twice. */
  ghost predicate Distinct(hs: seq<Hash>)
  {
    forall i, j :: 0 <= i < j < |hs| ==> hs[i] != hs[j]
  }

  /**
   * The hashes the inner loop claims, in order: the current blocks of the pairs
   * up to, and not including, the first one whose hash is already claimed.
   */
  ghost function PairsClaims(claimed: set<Hash>, pairs: seq<BlockPair>): (c: seq<Hash>)
    ensures |c| <= |pairs|
    ensures forall i :: 0 <= i < |c| ==> c[i] == pairs[i].0.hash
    decreases |pairs|
  {
    if |pairs| == 0 || pairs[0].0.hash in claimed then []
    else [pairs[0].0.hash] + PairsClaims(claimed + {pairs[0].0.hash}, pairs[1..])
  }

  /**
   * Dedup within one branch: the inner loop claims the current blocks of the
   * first `|c|` pairs, each for the branch being walked, each hash fresh and
   * none twice, and the claim map gains exactly those keys.
   */
  lemma {:induction false} RunPairsClaims(st: PassState, pairs: seq<BlockPair>, branchName: string)
    ensures var c := PairsClaims(st.visited.Keys, pairs);
            var r := RunPairs(st, pairs, branchName);
            && Distinct(c)
            && (forall i :: 0 <= i < |c| ==> c[i] !in st.visited)
            && (forall h :: h in r.visited <==> h in st.visited || h in c)
            && (forall i :: 0 <= i < |c| ==> r.visited[c[i]] == branchName)
    decreases |pairs|
  {
    if |pairs| > 0 && pairs[0].0.hash !in st.visited {
      var h := pairs[0].0.hash;
      var st1 := Step(st, pairs[0].0, pairs[0].1, branchName);
      assert st1.visited.Keys == st.visited.Keys + {h};
      var c1 := PairsClaims(st1.visited.Keys, pairs[1..]);
      var c := [h] + c1;
      assert PairsClaims(st.visited.Keys, pairs) == c;
      RunPairsClaims(st1, pairs[1..], branchName);
      RunPairsGrows(st1, pairs[1..], branchName);
    }
  }

  /**
   * Early stop: the pair just after the claimed run, if any, is one whose
   * current block is already claimed, and no pair after it is processed.
   */
  lemma {:induction false} RunPairsStops(st: PassState, pairs: seq<BlockPair>, branchName: string)
    ensures var n := |PairsClaims(st.visited.Keys, pairs)|;
            var r := RunPairs(st, pairs, branchName);
            && n <= |pairs|
            && (n < |pairs| ==> pairs[n].0.hash in r.visited)
            && r == RunPairs(st, pairs[..n], branchName)
    decreases |pairs|
  {
    var n := |PairsClaims(st.visited.Keys, pairs)|;
    if |pairs| == 0 || pairs[0].0.hash in st.visited {
      assert pairs[..n] == [];
    } else {
      var st1 := Step(st, pairs[0].0, pairs[0].1, branchName);
      assert st1.visited.Keys == st.visited.Keys + {pairs[0].0.hash};
      var n1 := |PairsClaims(st1.visited.Keys, pairs[1..])|;
      assert n == n1 + 1;
      RunPairsStops(st1, pairs[1..], branchName);
      var p := pairs[..n];
      assert p[0] == pairs[0] && p[1..] == pairs[1..][..n1];
    }
  }

  /** The claims of a whole pass, branch after branch. */
  ghost function PassClaims(st: PassState, branches: seq<seq<Block>>, k: nat): seq<Hash>
    decreases |branches|
  {
    if |branches| == 0 then []
    else
      var pairs := Pairwise(branches[0]);
      PairsClaims(st.visited.Keys, pairs) + PassClaims(RunPairs(st, pairs, BranchName(k)), branches[1..], k + 1)
  }

  lemma {:induction false} RunBranchesClaims(st: PassState, branches: seq<seq<Block>>, k: nat)
    ensures var c := PassClaims(st, branches, k);
            var r := RunBranches(st, branches, k);
            && Distinct(c)
            && (forall i :: 0 <= i < |c| ==> c[i] !in st.visited)
            && (forall h :: h in r.visited <==> h in st.visited || h in c)
    decreases |branches|
  {
    if |branches| > 0 {
      var pairs := Pairwise(branches[0]);
      var st1 := RunPairs(st, pairs, BranchName(k));
      RunPairsClaims(st, pairs, BranchName(k));
      RunBranchesClaims(st1, branches[1..], k + 1);
      ClaimsCompose(st.visited, st1.visited, RunBranches(st1, branches[1..], k + 1).visited,
                    PairsClaims(st.visited.Keys, pairs), PassClaims(st1, branches[1..], k + 1));
    }
  }

  /**
   * Claims of two consecutive runs compose: fresh, duplicate-free claims made
   * against `v0` and then against `v1` are together fresh and duplicate-free
   * against `v0`.
   */
  lemma ClaimsCompose(v0: map<Hash, string>, v1: map<Hash, string>, v2: map<Hash, string>, c0: seq<Hash>, c1: seq<Hash>)
    requires Distinct(c0) && (forall i :: 0 <= i < |c0| ==> c0[i] !in v0)
    requires forall h :: h in v1 <==> h in v0 || h in c0
    requires Distinct(c1) && (forall i :: 0 <= i < |c1| ==> c1[i] !in v1)
    requires forall h :: h in v2 <==> h in v1 || h in c1
    ensures Distinct(c0 + c1) && (forall i :: 0 <= i < |c0 + c1| ==> (c0 + c1)[i] !in v0)
    ensures forall h :: h in v2 <==> h in v0 || h in c0 + c1
  {
    forall i, j | 0 <= i < j < |c0 + c1| ensures (c0 + c1)[i] != (c0 + c1)[j] {
      if j >= |c0| {
        assert (c0 + c1)[j] == c1[j - |c0|];
        if i >= |c0| { assert (c0 + c1)[i] == c1[i - |c0|]; } else { assert c0[i] in v1; }
      }
    }
    forall i | 0 <= i < |c0 + c1| ensures (c0 + c1)[i] !in v0 {
      if i >= |c0| { assert (c0 + c1)[i] == c1[i - |c0|]; }
    }
  }

  // ---------------------------------------------------------------------------
  // What a branch draws

  /** The previous block's hash when it is genesis, which is drawn as a node of its own. */
  ghost function GenesisIds(prev: Option<Block>): seq<Hash>
  {
    if prev.Some? && prev.value.id == GenesisId then [prev.value.hash] else []
  }

  /** The node ids drawn for processed pairs: each current block, followed by genesis when genesis is its previous block. */
  ghost function DrawnIds(pairs: seq<BlockPair>): seq<Hash>
    decreases |pairs|
  {
    if |pairs| == 0 then [] else [pairs[0].0.hash] + GenesisIds(pairs[0].1) + DrawnIds(pairs[1..])
  }

  /** The number of processed pairs that have a previous block, i.e. the edges drawn. */
  ghost function EdgeCount(pairs: seq<BlockPair>): nat
    decreases |pairs|
  {
    if |pairs| == 0 then 0 else (if pairs[0].1.Some? then 1 else 0) + EdgeCount(pairs[1..])
  }

  /**
   * What the inner loop draws: for each processed pair, one node for the
   * current block and one more for a genesis predecessor, in pair order, and
   * one edge (three entries per edge list) for each pair with a previous block.
   */
  lemma {:induction false} RunPairsDraws(st: PassState, pairs: seq<BlockPair>, branchName: string)
    ensures var processed := pairs[..|PairsClaims(st.visited.Keys, pairs)|];
            var r := RunPairs(st, pairs, branchName);
            && r.nodes.ids == st.nodes.ids + DrawnIds(processed)
            && |r.nodes.x| == |st.nodes.x| + |DrawnIds(processed)|
            && |r.edges.x| == |st.edges.x| + 3 * EdgeCount(processed)
    decreases |pairs|
  {
    var n := |PairsClaims(st.visited.Keys, pairs)|;
    if |pairs| == 0 || pairs[0].0.hash in st.visited {
      assert pairs[..n] == [];
    } else {
      var st1 := Step(st, pairs[0].0, pairs[0].1, branchName);
      assert st1.visited.Keys == st.visited.Keys + {pairs[0].0.hash};
      var n1 := |PairsClaims(st1.visited.Keys, pairs[1..])|;
      assert n == n1 + 1;
      StepDraws(st, pairs[0].0, pairs[0].1, branchName);
      RunPairsDraws(st1, pairs[1..], branchName);
      var p := pairs[..n];
      assert p[0] == pairs[0] && p[1..] == pairs[1..][..n1];
      assert DrawnIds(p) == [pairs[0].0.hash] + GenesisIds(pairs[0].1) + DrawnIds(pairs[1..][..n1]);
      assert EdgeCount(p) == (if pairs[0].1.Some? then 1 else 0) + EdgeCount(pairs[1..][..n1]);
    }
  }

  /**
   * One step draws the current block's node in the walked branch's row, the
   * genesis node in the origin row when genesis is the previous block, and one
   * edge when there is a previous block.
   */
  lemma StepDraws(st: PassState, block: Block, prev: Option<Block>, branchName: string)
    ensures var r := Step(st, block, prev, branchName);
            var origin := OriginLabel(r.visited, block.predecessorHash, branchName);
            && r.nodes.ids == st.nodes.ids + [block.hash] + GenesisIds(prev)
            && r.nodes.y == st.nodes.y + [branchName] + (if GenesisIds(prev) == [] then [] else [origin])
            && |r.nodes.x| == |st.nodes.x| + 1 + |GenesisIds(prev)|
            && |r.edges.x| == |st.edges.x| + (if prev.Some? then 3 else 0)
  {
  }

  /**
   * The edge a step draws, in terms of the claims made before it: it runs from
   * the previous block's clamped time to the current block's, and its origin
   * row is the branch that claimed the current block's predecessor hash, or the
   * walked branch when that hash is unclaimed or is the current block's own.
   */
  lemma StepEdge(st: PassState, block: Block, prev: Block, branchName: string)
    ensures var r := Step(st, block, Some(prev), branchName);
            var origin := if block.predecessorHash.Some? && block.predecessorHash.value in st.visited
                              && block.predecessorHash.value != block.hash
                          then st.visited[block.predecessorHash.value] else branchName;
            && r.edges.x == st.edges.x + [Some(TimestampToX(prev.timestamp)), Some(TimestampToX(block.timestamp)), None]
            && r.edges.y == st.edges.y + [Some(origin), Some(branchName), None]
  {
  }

  /** Drawing distributes over consecutive runs of processed pairs. */
  lemma {:induction false} DrawnIdsAppend(a: seq<BlockPair>, b: seq<BlockPair>)
    ensures DrawnIds(a + b) == DrawnIds(a) + DrawnIds(b)
    decreases |a|
  {
    if |a| == 0 {
      assert a + b == b;
    } else {
      assert (a + b)[0] == a[0] && (a + b)[1..] == a[1..] + b;
      DrawnIdsAppend(a[1..], b);
    }
  }

  /**
   * The pairs a whole pass processes, branch after branch: in each branch, the
   * pairs before the first one whose current block is already claimed.
   */
  ghost function PassProcessed(st: PassState, branches: seq<seq<Block>>, k: nat): seq<BlockPair>
    decreases |branches|
  {
    if |branches| == 0 then []
    else
      var pairs := Pairwise(branches[0]);
      pairs[..|PairsClaims(st.visited.Keys, pairs)|]
        + PassProcessed(RunPairs(st, pairs, BranchName(k)), branches[1..], k + 1)
  }

  /**
   * What the outer loop draws: the nodes of every processed pair, branch after
   * branch; and the current blocks of those pairs are exactly the claims.
   */
  lemma {:induction false} RunBranchesDraws(st: PassState, branches: seq<seq<Block>>, k: nat)
    ensures var ps := PassProcessed(st, branches, k);
            var c := PassClaims(st, branches, k);
            && RunBranches(st, branches, k).nodes.ids == st.nodes.ids + DrawnIds(ps)
            && |ps| == |c|
            && (forall i :: 0 <= i < |c| ==> ps[i].0.hash == c[i])
    decreases |branches|
  {
    if |branches| > 0 {
      var pairs := Pairwise(branches[0]);
      var c0 := PairsClaims(st.visited.Keys, pairs);
      var p0 := pairs[..|c0|];
      var st1 := RunPairs(st, pairs, BranchName(k));
      var rest := PassProcessed(st1, branches[1..], k + 1);
      var c1 := PassClaims(st1, branches[1..], k + 1);
      assert PassProcessed(st, branches, k) == p0 + rest;
      assert PassClaims(st, branches, k) == c0 + c1;
      assert RunBranches(st, branches, k) == RunBranches(st1, branches[1..], k + 1);
      RunPairsDraws(st, pairs, BranchName(k));
      RunBranchesDraws(st1, branches[1..], k + 1);
      DrawnIdsAppend(p0, rest);
      forall i | 0 <= i < |c0 + c1| ensures (p0 + rest)[i].0.hash == (c0 + c1)[i] {
        if i >= |c0| {
          assert (p0 + rest)[i] == rest[i - |c0|] && (c0 + c1)[i] == c1[i - |c0|];
        }
      }
    }
  }

  /**
   * Dedup across a whole pass: the nodes are drawn pair by pair from the
   * processed pairs (each current block, then genesis when it is the previous
   * block); the current blocks of those pairs never repeat a hash, however many
   * branches reach it; and the claim map holds exactly those hashes.
   */
  lemma CurrentBlocksDrawnOnce(branches: seq<seq<Block>>)
    ensures var ps := PassProcessed(EmptyPass, branches, 0);
            var c := PassClaims(EmptyPass, branches, 0);
            && BuildPass(branches).nodes.ids == DrawnIds(ps)
            && |ps| == |c|
            && (forall i :: 0 <= i < |c| ==> ps[i].0.hash == c[i])
            && Distinct(c)
            && (forall h :: h in BuildPass(branches).visited <==> h in c)
  {
    RunBranchesDraws(EmptyPass, branches, 0);
    RunBranchesClaims(EmptyPass, branches, 0);
  }

  // ---------------------------------------------------------------------------
  // Worked shapes: one linear chain, and a second branch forking off it

  /** The hashes of a walk, in walk order. */
  ghost function Hashes(s: seq<Block>): (hs: seq<Hash>)
    ensures |hs| == |s|
    ensures forall i :: 0 <= i < |s| ==> hs[i] == s[i].hash
    decreases |s|
  {
    if |s| == 0 then [] else [s[0].hash] + Hashes(s[1..])
  }

  /** A newest-first walk of distinct blocks that reaches genesis at its end and nowhere before. */
  ghost predicate LinearChain(s: seq<Block>)
  {
    && |s| >= 2
    && (forall i, j :: 0 <= i < j < |s| ==> s[i].hash != s[j].hash)
    && s[|s| - 1].id == GenesisId
    && (forall i :: 0 <= i < |s| - 1 ==> s[i].id != GenesisId)
  }

  /** Pairs whose current blocks are fresh and distinct are all processed. */
  lemma {:induction false} FreshPairsAllClaimed(claimed: set<Hash>, pairs: seq<BlockPair>)
    requires forall i :: 0 <= i < |pairs| ==> pairs[i].0.hash !in claimed
    requires forall i, j :: 0 <= i < j < |pairs| ==> pairs[i].0.hash != pairs[j].0.hash
    ensures |PairsClaims(claimed, pairs)| == |pairs|
    decreases |pairs|
  {
    if |pairs| > 0 {
      FreshPairsAllClaimed(claimed + {pairs[0].0.hash}, pairs[1..]);
    }
  }

  /** Along a linear chain the drawn ids are the chain's hashes: genesis is drawn once, at the end. */
  lemma {:induction false} LinearDrawnIds(s: seq<Block>, pairs: seq<BlockPair>)
    requires |pairs| >= 1 && |s| == |pairs| + 1
    requires forall i :: 0 <= i < |pairs| ==> pairs[i] == (s[i], Some(s[i + 1]))
    requires s[|s| - 1].id == GenesisId
    requires forall i :: 1 <= i < |s| - 1 ==> s[i].id != GenesisId
    ensures DrawnIds(pairs) == Hashes(s)
    ensures EdgeCount(pairs) == |pairs|
    decreases |pairs|
  {
    if |pairs| > 1 {
      LinearDrawnIds(s[1..], pairs[1..]);
      assert s[1].id != GenesisId;
    } else {
      assert Hashes(s) == [s[0].hash, s[1].hash];
    }
  }

  /** The pass over one branch is that branch's inner loop, run under "My Branch". */
  lemma OneBranchPass(s: seq<Block>)
    ensures BuildPass([s]) == RunPairs(EmptyPass, Pairwise(s), MyBranchName)
  {
    var s1 := RunPairs(EmptyPass, Pairwise(s), BranchName(0));
    assert [s][0] == s && [s][1..] == [];
    assert RunBranches(EmptyPass, [s], 0) == RunBranches(s1, [], 1);
    assert BranchName(0) == MyBranchName;
  }

  /** The pass over two branches is the second branch's inner loop run on the first one's result. */
  lemma TwoBranchPass(s: seq<Block>, t: seq<Block>)
    ensures BuildPass([s, t]) == RunPairs(BuildPass([s]), Pairwise(t), BranchName(1))
  {
    OneBranchPass(s);
    var s1 := RunPairs(EmptyPass, Pairwise(s), BranchName(0));
    assert [s, t][0] == s && [s, t][1..] == [t];
    assert RunBranches(EmptyPass, [s, t], 0) == RunBranches(s1, [t], 1);
    assert [t][0] == t && [t][1..] == [];
    assert RunBranches(s1, [t], 1) == RunBranches(RunPairs(s1, Pairwise(t), BranchName(1)), [], 2);
  }

  /** Along a linear chain every pair is processed: the claims are every block but genesis. */
  lemma LinearClaims(s: seq<Block>)
    requires LinearChain(s)
    ensures PairsClaims({}, Pairwise(s)) == Hashes(s)[..|s| - 1]
  {
    var pairs := Pairwise(s);
    FreshPairsAllClaimed({}, pairs);
    var c := PairsClaims({}, pairs);
    assert |c| == |s| - 1;
    forall i | 0 <= i < |c| ensures c[i] == Hashes(s)[..|s| - 1][i] {
    }
  }

  /** What a linear chain draws: its blocks newest first, genesis last, and one edge per pair. */
  lemma LinearDraws(s: seq<Block>)
    requires LinearChain(s)
    ensures var r := RunPairs(EmptyPass, Pairwise(s), MyBranchName);
            && r.nodes.ids == Hashes(s)
            && |r.nodes.x| == |s|
            && |r.edges.x| == 3 * (|s| - 1)
  {
    var pairs := Pairwise(s);
    assert EmptyPass.visited.Keys == {};
    LinearClaims(s);
    assert pairs[..|s| - 1] == pairs;
    RunPairsDraws(EmptyPass, pairs, MyBranchName);
    LinearDrawnIds(s, pairs);
  }

  /** What a linear chain claims: every block but genesis, each for "My Branch". */
  lemma LinearClaimMap(s: seq<Block>)
    requires LinearChain(s)
    ensures var r := RunPairs(EmptyPass, Pairwise(s), MyBranchName);
            && (forall h :: h in r.visited <==> h in Hashes(s)[..|s| - 1])
            && s[|s| - 1].hash !in r.visited
            && (forall i :: 0 <= i < |s| - 1 ==> r.visited[s[i].hash] == MyBranchName)
  {
    var pairs := Pairwise(s);
    var r := RunPairs(EmptyPass, pairs, MyBranchName);
    assert EmptyPass.visited.Keys == {};
    LinearClaims(s);
    RunPairsClaims(EmptyPass, pairs, MyBranchName);
    ClaimsOfLinearChain(r.visited, PairsClaims({}, pairs), s, MyBranchName);
  }

  /** A claim map holding exactly the chain's blocks but genesis, all under one name. */
  lemma ClaimsOfLinearChain(visited: map<Hash, string>, c: seq<Hash>, s: seq<Block>, branchName: string)
    requires LinearChain(s)
    requires c == Hashes(s)[..|s| - 1]
    requires forall h :: h in visited <==> h in c
    requires forall i :: 0 <= i < |c| ==> visited[c[i]] == branchName
    ensures forall h :: h in visited <==> h in Hashes(s)[..|s| - 1]
    ensures s[|s| - 1].hash !in visited
    ensures forall i :: 0 <= i < |s| - 1 ==> visited[s[i].hash] == branchName
  {
    forall i | 0 <= i < |c| ensures c[i] != s[|s| - 1].hash {
      assert c[i] == s[i].hash;
    }
    forall i | 0 <= i < |s| - 1 ensures visited[s[i].hash] == branchName {
      assert c[i] == s[i].hash;
    }
  }

  /**
   * A single branch of N >= 2 blocks ending at genesis draws exactly N nodes,
   * newest first and genesis last, and N - 1 edges; it claims every block but
   * genesis, each for "My Branch".
   */
  lemma LinearPass(s: seq<Block>)
    requires LinearChain(s)
    ensures var r := BuildPass([s]);
            && r.nodes.ids == Hashes(s)
            && |r.nodes.x| == |s|
            && |r.edges.x| == 3 * (|s| - 1)
            && (forall h :: h in r.visited <==> h in Hashes(s)[..|s| - 1])
            && s[|s| - 1].hash !in r.visited
            && (forall i :: 0 <= i < |s| - 1 ==> r.visited[s[i].hash] == MyBranchName)
  {
    OneBranchPass(s);
    LinearDraws(s);
    LinearClaimMap(s);
  }

  /**
   * A second branch `t` whose newest block is new and whose older blocks are
   * the local branch `s` from a block before genesis on: the pass draws one
   * more node, for t's newest block, and one more edge, which starts from
   * "My Branch", the owner of the shared block, and ends at "Branch #1".
   */
  lemma ForkAboveGenesis(s: seq<Block>, t: seq<Block>, j: nat)
    requires LinearChain(s)
    requires j < |s| - 1
    requires |t| == 1 + |s| - j && t[1..] == s[j..]
    requires t[0].hash !in Hashes(s)
    requires t[0].predecessorHash == Some(s[j].hash)
    ensures var r := BuildPass([s, t]);
            && r.nodes.ids == Hashes(s) + [t[0].hash]
            && |r.edges.x| == 3 * |s|
            && |r.edges.y| == 3 * |s|
            && r.edges.y[3 * (|s| - 1)..] == [Some(MyBranchName), Some(BranchName(1)), None]
  {
    var s1 := BuildPass([s]);
    LinearPass(s);
    ForkAboveGenesisStep(s, t, j);
    ClaimedPredecessorStep(s1, t[0], s[j], BranchName(1));
    BuildPassWellFormed([s]);
  }

  /** The fork's inner loop draws `t[0]` and stops at the already claimed `s[j]`. */
  lemma ForkAboveGenesisStep(s: seq<Block>, t: seq<Block>, j: nat)
    requires LinearChain(s)
    requires j < |s| - 1
    requires |t| == 1 + |s| - j && t[1..] == s[j..]
    requires t[0].hash !in Hashes(s)
    requires t[0].predecessorHash == Some(s[j].hash)
    ensures var s1 := BuildPass([s]);
            && s[j].hash in s1.visited && t[0].hash !in s1.visited && s[j].hash != t[0].hash
            && s[j].id != GenesisId
            && s1.visited[s[j].hash] == MyBranchName
            && BuildPass([s, t]) == Step(s1, t[0], Some(s[j]), BranchName(1))
  {
    var s1 := BuildPass([s]);
    LinearPass(s);
    TwoBranchPass(s, t);
    var pt := Pairwise(t);
    assert t[1] == s[j] && t[2] == s[j + 1];
    assert pt[0] == (t[0], Some(s[j])) && pt[1].0 == s[j];
    assert s[j].hash in s1.visited by { assert Hashes(s)[..|s| - 1][j] == s[j].hash; }
    assert s[j].hash != t[0].hash by { assert Hashes(s)[j] == s[j].hash; }
    var st2 := Step(s1, t[0], Some(s[j]), BranchName(1));
    assert RunPairs(s1, pt, BranchName(1)) == RunPairs(st2, pt[1..], BranchName(1));
    assert pt[1..][0].0.hash in st2.visited;
  }



  /**
   * A second branch `t` that forks directly off genesis: genesis is drawn a
   * second time, in the "Branch #1" row, because the extra genesis node is
   * never claimed; and the fork edge starts from "Branch #1", not from the
   * local branch.
   */
  lemma ForkAtGenesis(s: seq<Block>, t: seq<Block>)
    requires LinearChain(s)
    requires |t| == 2 && t[1] == s[|s| - 1]
    requires t[0].hash !in Hashes(s)
    requires t[0].predecessorHash == Some(s[|s| - 1].hash)
    ensures var r := BuildPass([s, t]);
            && r.nodes.ids == Hashes(s) + [t[0].hash, s[|s| - 1].hash]
            && |r.nodes.y| == |s| + 2
            && r.nodes.y[|s|..] == [BranchName(1), BranchName(1)]
            && |r.edges.x| == 3 * |s|
            && |r.edges.y| == 3 * |s|
            && r.edges.y[3 * (|s| - 1)..] == [Some(BranchName(1)), Some(BranchName(1)), None]
  {
    var s1 := BuildPass([s]);
    LinearPass(s);
    TwoBranchPass(s, t);
    BuildPassWellFormed([s]);
    var pt := Pairwise(t);
    var g := s[|s| - 1];
    assert pt == [(t[0], Some(g))];
    assert RunPairs(s1, pt, BranchName(1)) == Step(s1, t[0], Some(g), BranchName(1)) by {
      assert t[0].hash !in s1.visited;
      assert pt[1..] == [];
    }
    assert g.hash != t[0].hash by { assert Hashes(s)[|s| - 1] == g.hash; }
    UnclaimedGenesisStep(s1, t[0], g, BranchName(1));
  }

  /**
   * A step whose previous block is an unclaimed genesis: the edge and the extra
   * genesis node both carry the branch being walked.
   */
  lemma UnclaimedGenesisStep(st: PassState, block: Block, genesis: Block, branchName: string)
    requires block.hash != genesis.hash && genesis.hash !in st.visited
    requires block.predecessorHash == Some(genesis.hash) && genesis.id == GenesisId
    ensures var r := Step(st, block, Some(genesis), branchName);
            && r.nodes.ids == st.nodes.ids + [block.hash, genesis.hash]
            && r.nodes.y == st.nodes.y + [branchName, branchName]
            && r.edges.x == st.edges.x + [Some(TimestampToX(genesis.timestamp)), Some(TimestampToX(block.timestamp)), None]
            && r.edges.y == st.edges.y + [Some(branchName), Some(branchName), None]
  {
  }

  /**
   * A step whose predecessor is already claimed: only the current block is
   * drawn, and the edge starts in the row of the predecessor's owner.
   */
  lemma ClaimedPredecessorStep(st: PassState, block: Block, prev: Block, branchName: string)
    requires block.hash !in st.visited && prev.hash in st.visited && prev.hash != block.hash
    requires block.predecessorHash == Some(prev.hash) && prev.id != GenesisId
    ensures var r := Step(st, block, Some(prev), branchName);
            && prev.hash in r.visited
            && r.nodes.ids == st.nodes.ids + [block.hash]
            && r.edges.x == st.edges.x + [Some(TimestampToX(prev.timestamp)), Some(TimestampToX(block.timestamp)), None]
            && r.edges.y == st.edges.y + [Some(st.visited[prev.hash]), Some(branchName), None]
  {
  }
}
