# LabChain blockchain plotter — graph-building core in Dafny

This project models the graph-building pass of LabChain's `BlockchainPlotter`
(`labchain/plot.py`). The pass turns a forking blockchain into one animation
frame. It walks the local node's branch first, then the branch of every other
head. Each branch is a newest-first list of blocks, consumed in overlapping
pairs (block, previous block).

- Each block hash is claimed for the first branch that reaches it
  (`already_visited`).
- A branch stops at its first block that is already claimed.
- Each claimed block becomes one node, in the row of its branch's name.
- Each pair with a previous block becomes one edge. The edge starts in the row
  of whichever branch claimed the block's predecessor hash.
- A genesis predecessor (id 1) is drawn as an extra node.

The frame is appended to the plotter's timeline `data_series`. The pass also
returns the x-axis range of the frame's nodes.

Modules, one per component:

- `Wrappers` (`wrappers.dfy`): `Option`, standing for Python's `None`.
- `Blocks` (`blocks.dfy`): the `Block` record the plotter reads.
- `PlotHelpers` (`helpers.dfy`): the static helpers `__pairwise` and
  `__timestamp_to_datetime`, and the `[min(x), max(x)]` range.
- `BranchLabels` (`labels.dfy`): the branch order (`all_branches`), the other
  heads and the names "My Branch" / "Branch #k".
- `GraphPass` (`graph.dfy`): the pass as pure functions over a state. The state
  holds the claim map, the node lists x/y/text/ids and the edge lists x/y.
  `OriginLabel` is the origin-row lookup (labchain/plot.py:93-96), `Step` one
  iteration of the pair loop for an unclaimed block (labchain/plot.py:88-117),
  `RunPairs` the pair loop with its `break` (labchain/plot.py:87-117),
  `RunBranches` the branch loop with its names (labchain/plot.py:80-119) and
  `BuildPass` the whole pass from an empty claim map (labchain/plot.py:79-119).
  The file also holds the lemmas about the pass.
- `Plotter` (`plotter.dfy`): `BuildGraph`, the nested branch and pair loops as
  an imperative method proved equal to `GraphPass.BuildPass`. Also the class
  `BlockchainPlotter`, whose field `dataSeries` is the timeline.

Behaviour of `labchain/plot.py` worth noting, all of it modelled as written:

- The extra genesis node is never claimed (labchain/plot.py:112-117). A second
  branch that forks directly off genesis therefore draws genesis again, in its
  own row, and its fork edge starts in its own row as well
  (`GraphPass.ForkAtGenesis`). No block is drawn twice as the current block of
  a pair (`GraphPass.CurrentBlocksDrawnOnce`).
- The edge's origin row is looked up by `block.predecessor_hash`, after the
  current block has been claimed (labchain/plot.py:92-96; `GraphPass.StepEdge`).
- Nothing recovers from missing ancestors: a branch is whatever
  `get_block_range` returns.
- `min()` on an empty node list raises `ValueError` after the frame has already
  been appended (labchain/plot.py:122-123). The model appends the frame and
  returns `None` for the range.

## Model

| member | source | states |
|---|---|---|
| `PlotHelpers.Zip` | labchain/plot.py:252 | `zip` pairs equal positions, stopping at the shorter list |
| `PlotHelpers.Pairwise` | labchain/plot.py:247-252 | one block gives exactly `[(s[0], None)]`; n ≠ 1 blocks give max(n−1, 0) pairs, pair i being `(s[i], s[i+1])` |
| `PlotHelpers.PairwiseCovers` | labchain/plot.py:85-87 | every block of a non-empty walk except the last is the current block of its pair; for walks of two or more blocks, the last block appears as the predecessor of the final pair |
| `PlotHelpers.TimestampToX` | labchain/plot.py:241-245 | the clamp never fails; the result is ≥ 86400 and ≥ the input; inputs ≥ 86400 are unchanged, smaller ones become exactly 86400 |
| `PlotHelpers.TimestampToXMonotonic` | labchain/plot.py:241-245 | the clamp keeps the time order of blocks |
| `PlotHelpers.SeqMin` | labchain/plot.py:123 | `min` returns an element of the list that is ≤ every element |
| `PlotHelpers.SeqMax` | labchain/plot.py:123 | `max` returns an element of the list that is ≥ every element |
| `PlotHelpers.GreatestRange` | labchain/plot.py:123 | a range exists iff there is a node; then lower ≤ upper, both bounds are node x values, and every node x lies within them |
| `BranchLabels.Decimal` | labchain/plot.py:84 | the branch number's text is a non-empty run of decimal digits |
| `BranchLabels.ParseDecimalOfDecimal` | labchain/plot.py:84 | reading the decimal text of a number gives the number back |
| `BranchLabels.BranchName` | labchain/plot.py:79-84 | position 0 is named "My Branch"; every later position is named "Branch #" followed by its number |
| `BranchLabels.BranchIndexOfBranchName` | labchain/plot.py:79-84 | the position can be read back from every branch name |
| `BranchLabels.BranchNameInjective` | labchain/plot.py:79-84 | two positions share a name iff they are equal, so no claim can confuse two branches |
| `BranchLabels.OtherHeads` | labchain/plot.py:51-52 | the other heads never include the local head; they are exactly the heads that differ from it; they equal the head list when the local head is absent from it |
| `BranchLabels.OtherHeadsAppend` | labchain/plot.py:51-52 | filtering out the local head distributes over concatenation of head lists |
| `BranchLabels.OtherHeadsKeepsOrder` | labchain/plot.py:51-52 | the other heads keep the order of the head set: the heads before the local head, then the heads after it |
| `BranchLabels.AllBranches` | labchain/plot.py:47-53 | the local head's branch comes first, followed by one branch per other head |
| `BranchLabels.BranchLabelling` | labchain/plot.py:50-53 | branch 0 is the local head's range, named "My Branch"; branch k ≥ 1 is the range of a head other than the local one, named "Branch #k", which is never "My Branch" |
| `GraphPass.StepWellFormed` | labchain/plot.py:101-117 | one pair keeps the four node lists the same length and the edge lists in whole `[a, b, None]` triples |
| `GraphPass.RunPairsWellFormed` | labchain/plot.py:87-117 | a branch's inner loop keeps the node lists the same length and the edge lists in whole triples |
| `GraphPass.RunBranchesWellFormed` | labchain/plot.py:80-119 | the branch loop keeps the node lists the same length and the edge lists in whole triples |
| `GraphPass.BuildPassWellFormed` | labchain/plot.py:79-119 | after a pass, x/y/text/ids have equal length, every node x is ≥ 86400, and each edge occupies `[x0, x1, None]` / `[y0, y1, None]` |
| `GraphPass.GrowsTransitive` | labchain/plot.py:88-117 | "only gains claims and only appends" composes across steps |
| `GraphPass.StepGrows` | labchain/plot.py:88-104 | claiming a fresh block keeps every earlier claim and appends at least its own node |
| `GraphPass.RunPairsGrows` | labchain/plot.py:87-117 | the inner loop never overwrites a claim's branch name and only appends to the node and edge lists |
| `GraphPass.RunBranchesGrows` | labchain/plot.py:80-119 | the whole branch loop never overwrites a claim and only appends |
| `GraphPass.BuildPassNonEmpty` | labchain/plot.py:87-104 | the local branch's newest block is never already claimed, so a non-empty local branch gives at least one node and an x range |
| `GraphPass.PairsClaims` | labchain/plot.py:88-92 | the hashes claimed by a branch are the current blocks of its first pairs, never more than there are pairs |
| `GraphPass.RunPairsClaims` | labchain/plot.py:88-92 | within a branch, each claimed hash was unclaimed before and is claimed once; the claim map gains exactly those keys; each claim names the walked branch |
| `GraphPass.RunPairsStops` | labchain/plot.py:87-92 | the pair after the claimed run, if any, has an already-claimed block, and no later pair of the branch changes anything |
| `GraphPass.RunBranchesClaims` | labchain/plot.py:80-119 | across the branches, claims never repeat and never re-claim an earlier key; the map gains exactly them |
| `GraphPass.ClaimsCompose` | labchain/plot.py:80-90 | fresh, duplicate-free claims of one branch followed by those of the next stay fresh and duplicate-free, and the claim map holds exactly the earlier keys and both runs' claims |
| `GraphPass.CurrentBlocksDrawnOnce` | labchain/plot.py:80-117 | over a whole pass, the node ids are drawn pair by pair from the processed pairs (current block, then a genesis predecessor); the current blocks of those pairs are exactly the claims, never repeat, and are exactly the keys of the claim map |
| `GraphPass.RunBranchesDraws` | labchain/plot.py:80-117 | the outer loop appends the node ids of every processed pair, branch after branch, and the current blocks of the processed pairs are the claims, in order |
| `GraphPass.DrawnIdsAppend` | labchain/plot.py:87-117 | the nodes drawn for two consecutive runs of pairs are those of the first run followed by those of the second |
| `GraphPass.StepDraws` | labchain/plot.py:98-117 | a pair draws its block in the walked branch's row; a genesis predecessor is drawn in the origin row; an edge is drawn only when there is a previous block |
| `GraphPass.StepEdge` | labchain/plot.py:93-110 | the edge runs from the previous block's time to the current block's time. Its origin row is the branch that had claimed `predecessor_hash`. When that hash is unclaimed, or is the block's own hash, the origin is the walked branch |
| `GraphPass.RunPairsDraws` | labchain/plot.py:98-117 | a branch draws, in pair order, each processed current block followed by any genesis predecessor, and three entries per edge list for each processed pair with a predecessor |
| `GraphPass.Hashes` | labchain/plot.py:104 | the ids of a walk, position by position |
| `GraphPass.FreshPairsAllClaimed` | labchain/plot.py:88-92 | a branch whose blocks are all distinct and unclaimed is processed to its end |
| `GraphPass.LinearClaims` | labchain/plot.py:88-92 | a linear chain claims every block except genesis, in walk order |
| `GraphPass.LinearDrawnIds` | labchain/plot.py:101-117 | along a linear chain the drawn ids are the chain's hashes, with genesis drawn once at the end, and every pair draws an edge |
| `GraphPass.LinearDraws` | labchain/plot.py:87-117 | one linear chain of N blocks draws its N hashes newest first and N−1 edges |
| `GraphPass.LinearClaimMap` | labchain/plot.py:88-92 | one linear chain claims every block except genesis for "My Branch" |
| `GraphPass.LinearPass` | labchain/plot.py:79-119 | a pass over one branch of N ≥ 2 distinct blocks ending at genesis has exactly N nodes (newest first, genesis last) and N−1 edges; genesis is never claimed |
| `GraphPass.OneBranchPass` | labchain/plot.py:80-87 | a pass over one branch is its inner loop under "My Branch" |
| `GraphPass.TwoBranchPass` | labchain/plot.py:80-119 | a pass over two branches runs the second one's inner loop, under "Branch #1", on the first one's result |
| `GraphPass.ForkAboveGenesis` | labchain/plot.py:88-110 | a second branch forking above genesis adds one node and one edge; that edge starts in the "My Branch" row, the owner of the shared block, and ends in the "Branch #1" row |
| `GraphPass.ClaimedPredecessorStep` | labchain/plot.py:88-110 | a block whose non-genesis predecessor is already claimed adds only its own node; its edge starts in the row of the predecessor's owner and the predecessor stays claimed |
| `GraphPass.ForkAtGenesis` | labchain/plot.py:93-117 | a second branch forking directly off genesis draws genesis a second time, in the "Branch #1" row, and its edge starts in that row too |
| `GraphPass.UnclaimedGenesisStep` | labchain/plot.py:93-117 | a pair whose predecessor is an unclaimed genesis draws both nodes and the edge in the walked branch's row |
| `Plotter.BuildGraph` | labchain/plot.py:79-119 | the nested branch and pair loops, with their `break`, produce exactly the node and edge lists of the pass specification |
| `Plotter.BlockchainPlotter.constructor` | labchain/plot.py:16-17 | a new plotter starts with an empty timeline |
| `Plotter.BlockchainPlotter.PlotBlockchain` | labchain/plot.py:36-40 | with at most one block in the chain the timeline is unchanged; otherwise exactly one frame of the pass is appended |
| `Plotter.BlockchainPlotter.GeneratePlot` | labchain/plot.py:46-123 | appends exactly one frame `{edges, nodes, name}`, leaving earlier frames unchanged. The range returned is the range of that frame's node x values. The range exists whenever the local branch is non-empty |

Repeating a pass on an unchanged ledger appends a frame with identical nodes and
edges, named by the value passed as `now`. This follows from `GeneratePlot`'s postcondition, which
fixes the frame's traces as a function of the heads and the block ranges alone.

## Left out

- Directory creation and clearing, `time.sleep` and the CSS copy in `__init__`
  (labchain/plot.py:18-34): filesystem I/O. Only `data_series = []` is modelled.
- Plotly traces, figure, layout, slider and buttons, and `plotly.offline.plot`
  (labchain/plot.py:56-77, 124-200): rendering through an external library. Only
  the traces' x/y/text/ids and edge x/y lists are kept, as sequences.
- Jinja rendering, the `index.html` write, `generate_block_detail_page` and
  `_get_jinja_environment` (labchain/plot.py:201-234): templating and file I/O.
- `__get_formatted_datetime` (labchain/plot.py:236-238): wall-clock time. The
  frame name is the parameter `now`.
- `datetime.fromtimestamp` (labchain/plot.py:245): depends on the platform and
  time zone. A node's x is the clamped integer timestamp. Timestamps are
  integers; fractional timestamps are not modelled.
- The ledger object: `get_block_range`, `_current_branch_heads`,
  `_node_branch_head`, `_blockchain` and `get_computed_hash`. Block ranges are a
  function parameter `Hash -> seq<Block>`, the heads a sequence, the local head
  a hash and the chain size a number. A block's computed hash is a field of
  `Block`.
- `if previous_block:` is read as "a previous block is present": the model
  assumes every block object is truthy. The `Block` class is not part of this
  model.
- `__block_label` (labchain/plot.py:42-44): unused formatting.
- scripts/node_start.py: command-line parsing, logging set-up and node
  construction. It contains no plotting logic.
- `GraphPass.CurrentBlocksDrawnOnce`: promises no repeats only for the node ids
  drawn as current blocks. It does not promise this for the genesis ids drawn
  after them, because the extra genesis node may repeat (`GraphPass.ForkAtGenesis`).
