/**
 * `BlockchainPlotter`: the nested branch/pair loops of `__generate_plot`, the
 * timeline `data_series` it appends to, and the `plot_blockchain` guard.
 */
module Plotter {
  import opened Wrappers
  import opened Blocks
  import opened PlotHelpers
  import opened BranchLabels
  import opened GraphPass

  /** One entry of `data_series`: the edge and node traces of one pass and its wall-clock name. */
  datatype Frame = Frame(edges: EdgeTrace, nodes: NodeTrace, name: string)

  /**
   * The branch loop of `__generate_plot`: walks each branch in consecutive
   * pairs, claims each fresh block for the branch's name, stops a branch at its
   * first claimed block, and appends nodes and edges to the traces. The claim
   * map is local to one call.
   */
  method BuildGraph(branches: seq<seq<Block>>) returns (nodes: NodeTrace, edges: EdgeTrace)
    ensures nodes == BuildPass(branches).nodes
    ensures edges == BuildPass(branches).edges
  {
    var alreadyVisited: map<Hash, string> := map[];
    var nodeX: seq<int>, nodeY: seq<string>, nodeText: seq<int>, nodeIds: seq<Hash> := [], [], [], [];
    var edgeX: seq<Option<int>>, edgeY: seq<Option<string>> := [], [];
    var branchNumber := 0;
    while branchNumber < |branches|
      invariant 0 <= branchNumber <= |branches|
      invariant RunBranches(PassState(alreadyVisited, NodeTrace(nodeX, nodeY, nodeText, nodeIds), EdgeTrace(edgeX, edgeY)),
                            branches[branchNumber..], branchNumber)
                == BuildPass(branches)
    {
      var branchName := BranchName(branchNumber);
      var pairs := Pairwise(branches[branchNumber]);
      ghost var start := PassState(alreadyVisited, NodeTrace(nodeX, nodeY, nodeText, nodeIds), EdgeTrace(edgeX, edgeY));
      var i := 0;
      while i < |pairs|
        invariant 0 <= i <= |pairs|
        invariant RunPairs(PassState(alreadyVisited, NodeTrace(nodeX, nodeY, nodeText, nodeIds), EdgeTrace(edgeX, edgeY)),
                           pairs[i..], branchName)
                  == RunPairs(start, pairs, branchName)
      {
        var block, previousBlock := pairs[i].0, pairs[i].1;
        var currentBlockHash := block.hash;
        if currentBlockHash in alreadyVisited {
          break;
        }
        alreadyVisited := alreadyVisited[currentBlockHash := branchName];
        var previousBlockBranchName := branchName;
        if block.predecessorHash.Some? && block.predecessorHash.value in alreadyVisited {
          previousBlockBranchName := alreadyVisited[block.predecessorHash.value];
        }
        var x1, y1 := TimestampToX(block.timestamp), branchName;
        nodeX, nodeY, nodeText, nodeIds := nodeX + [x1], nodeY + [y1], nodeText + [block.id], nodeIds + [block.hash];
        if previousBlock.Some? {
          var x0, y0 := TimestampToX(previousBlock.value.timestamp), previousBlockBranchName;
          edgeX := edgeX + [Some(x0), Some(x1), None];
          edgeY := edgeY + [Some(y0), Some(y1), None];
          if previousBlock.value.id == GenesisId {
            nodeX, nodeY := nodeX + [x0], nodeY + [y0];
            nodeText, nodeIds := nodeText + [previousBlock.value.id], nodeIds + [previousBlock.value.hash];
          }
        }
        assert pairs[i..][1..] == pairs[i + 1..];
        i := i + 1;
      }
      assert branches[branchNumber..][0] == branches[branchNumber];
      assert branches[branchNumber..][1..] == branches[branchNumber + 1..];
      branchNumber := branchNumber + 1;
    }
    nodes := NodeTrace(nodeX, nodeY, nodeText, nodeIds);
    edges := EdgeTrace(edgeX, edgeY);
  }

  class BlockchainPlotter {
    /** The timeline: one frame per drawn pass, oldest first; only ever appended to. */
    var dataSeries: seq<Frame>

    constructor ()
      ensures dataSeries == []
    {
      dataSeries := [];
    }

    /**
     * Draws a pass only when the ledger holds more than the genesis block;
     * otherwise the timeline is left as it is.
     */
    method PlotBlockchain(chainLength: nat, heads: seq<Hash>, myHead: Hash,
                          getBlockRange: Hash -> seq<Block>, now: string)
      modifies this
      ensures chainLength <= 1 ==> dataSeries == old(dataSeries)
      ensures chainLength > 1 ==>
        var p := BuildPass(AllBranches(heads, myHead, getBlockRange));
        dataSeries == old(dataSeries) + [Frame(p.edges, p.nodes, now)]
    {
      if chainLength > 1 {
        var greatestRange := GeneratePlot(heads, myHead, getBlockRange, now);
      }
    }

    /**
     * One pass: the local head's branch, then every other head's branch, drawn
     * into one frame named `now` that is appended to the timeline; returns the
     * x range over the frame's nodes (`None` where `min` would fail on no nodes).
     */
    method GeneratePlot(heads: seq<Hash>, myHead: Hash, getBlockRange: Hash -> seq<Block>, now: string)
      returns (greatestRange: Option<(int, int)>)
      modifies this
      ensures var p := BuildPass(AllBranches(heads, myHead, getBlockRange));
              dataSeries == old(dataSeries) + [Frame(p.edges, p.nodes, now)]
      ensures greatestRange == GreatestRange(dataSeries[|dataSeries| - 1].nodes.x)
      ensures |getBlockRange(myHead)| > 0 ==> greatestRange.Some?
    {
      var allBranches := AllBranches(heads, myHead, getBlockRange);
      var nodeTrace, edgeTrace := BuildGraph(allBranches);
      dataSeries := dataSeries + [Frame(edgeTrace, nodeTrace, now)];
      greatestRange := GreatestRange(nodeTrace.x);
      if |allBranches[0]| > 0 {
        BuildPassNonEmpty(allBranches);
      }
    }
  }
}
