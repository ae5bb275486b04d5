/**
 * The control-flow graph the analyses consume. One basic block holds one
 * statement; `Successors` and `Predecessors` are both read off the same edge
 * list, so the two directions always agree. Building the graph is the Misti
 * library's business and is not part of this model.
 */
module Graph {
  import opened Ast

  type BlockIdx = nat

  datatype BasicBlock = BasicBlock(idx: BlockIdx, stmt: Stmt)

  datatype Edge = Edge(src: BlockIdx, dst: BlockIdx)

  /** `cfg.nodes` in creation order, plus the directed edges between them. */
  datatype Cfg = Cfg(nodes: seq<BasicBlock>, edges: seq<Edge>)

  function NodeIdxs(cfg: Cfg): set<BlockIdx>
  {
    set b | b in cfg.nodes :: b.idx
  }

  /** Block indices are unique and every edge joins two blocks of the graph. */
  predicate Valid(cfg: Cfg)
  {
    && (forall i, j :: 0 <= i < j < |cfg.nodes| ==> cfg.nodes[i].idx != cfg.nodes[j].idx)
    && (forall e :: e in cfg.edges ==> e.src in NodeIdxs(cfg) && e.dst in NodeIdxs(cfg))
  }

  function Targets(edges: seq<Edge>, idx: BlockIdx): (r: seq<BlockIdx>)
    ensures forall j :: j in r <==> Edge(idx, j) in edges
  {
    if edges == [] then []
    else (if edges[0].src == idx then [edges[0].dst] else []) + Targets(edges[1..], idx)
  }

  function Sources(edges: seq<Edge>, idx: BlockIdx): (r: seq<BlockIdx>)
    ensures forall j :: j in r <==> Edge(j, idx) in edges
  {
    if edges == [] then []
    else (if edges[0].dst == idx then [edges[0].src] else []) + Sources(edges[1..], idx)
  }

  /** `cfg.getSuccessors(idx)`. */
  function Successors(cfg: Cfg, idx: BlockIdx): (r: seq<BlockIdx>)
    ensures forall j :: j in r <==> Edge(idx, j) in cfg.edges
    ensures Valid(cfg) ==> forall j :: j in r ==> j in NodeIdxs(cfg)
  {
    Targets(cfg.edges, idx)
  }

  /** `cfg.getPredecessors(idx)`. */
  function Predecessors(cfg: Cfg, idx: BlockIdx): (r: seq<BlockIdx>)
    ensures forall j :: j in r <==> Edge(j, idx) in cfg.edges
    ensures Valid(cfg) ==> forall j :: j in r ==> j in NodeIdxs(cfg)
  {
    Sources(cfg.edges, idx)
  }

  /** The blocks are numbered 1, 2, ... in the order of `cfg.nodes`. */
  predicate NumberedFromOne(cfg: Cfg)
  {
    forall i :: 0 <= i < |cfg.nodes| ==> cfg.nodes[i].idx == i + 1
  }

  /** A graph numbered from one has exactly the indices 1 to its size, each once. */
  lemma NumberedIdxs(cfg: Cfg, k: BlockIdx)
    requires NumberedFromOne(cfg)
    ensures k in NodeIdxs(cfg) <==> 1 <= k <= |cfg.nodes|
    ensures forall i, j :: 0 <= i < j < |cfg.nodes| ==> cfg.nodes[i].idx != cfg.nodes[j].idx
  {
    if k in NodeIdxs(cfg) {
      var b :| b in cfg.nodes && b.idx == k;
      var i :| 0 <= i < |cfg.nodes| && cfg.nodes[i] == b;
    }
    if 1 <= k <= |cfg.nodes| {
      assert cfg.nodes[k - 1] in cfg.nodes;
    }
  }

  /** The block indices in `cfg.nodes` order. */
  function IdxSeq(nodes: seq<BasicBlock>): (r: seq<BlockIdx>)
    ensures |r| == |nodes| && forall i :: 0 <= i < |r| ==> r[i] == nodes[i].idx
  {
    if nodes == [] then [] else [nodes[0].idx] + IdxSeq(nodes[1..])
  }
}
