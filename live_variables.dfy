/**
 * Live variables: a backward gen/kill analysis over one CFG.
 *
 * Each block gets `gen` (the identifiers its statement reads) and `kill` (the
 * names it defines); a round-robin solver then visits the blocks in reverse
 * order, setting `out[B]` to the union of `in[S]` over B's successors and
 * `in[B]` to `gen[B] + (out[B] - kill[B])`, until a whole pass changes nothing.
 *
 * The solver is proved to terminate (every set only grows inside the finite
 * universe of all `gen` names) and to stop at the least solution of the
 * transfer equations, which also makes its result unique.
 */
module LiveVariables {
  import opened Ast
  import opened Graph
  import opened SetUtil

  type VariableSet = set<string>

  datatype LiveVariableInfo = LiveVariableInfo(gen: VariableSet, kill: VariableSet, inSet: VariableSet, outSet: VariableSet)

  type InfoMap = map<BlockIdx, LiveVariableInfo>

  // ---------------------------------------------------------------------------
  // Local facts of one block
  // ---------------------------------------------------------------------------

  /** `collectUsedVariables`: the identifiers of the expression(s) the statement evaluates. */
  function CollectUsedVariables(s: Stmt): (gen: VariableSet)
    ensures gen == IdentifiersOfAll(ReadExpressions(s))
  {
    match s
    case Let(_, _, _, init) => if init.Some? then Identifiers(init.value) else {}
    case Assign(_, _, _, e) => Identifiers(e)
    case AugmentedAssign(_, _, _, _, e) => Identifiers(e)
    case Return(_, _, value) => if value.Some? then Identifiers(value.value) else {}
    case ExpressionStmt(_, _, e) => Identifiers(e)
    case Condition(c) => Identifiers(c.condition)
    case While(_, _, c, _) => Identifiers(c)
    case Until(_, _, c, _) => Identifiers(c)
    case Repeat(_, _, n, _) => Identifiers(n)
    case Foreach(_, _, _, _, m, _) => Identifiers(m)
    case _ => {}
  }

  /** `collectDefinedVariablesFromExpression`: only a bare identifier target is a definition. */
  function CollectDefinedVariablesFromExpression(path: Expr): VariableSet
  {
    if path.Id? then {path.name} else {}
  }

  /** `collectDefinedVariables`. */
  function CollectDefinedVariables(s: Stmt): VariableSet
  {
    match s
    case Let(_, _, name, _) => {name}
    case Assign(_, _, path, _) => CollectDefinedVariablesFromExpression(path)
    case AugmentedAssign(_, _, _, path, _) => CollectDefinedVariablesFromExpression(path)
    case Foreach(_, _, key, value, _, _) => {key, value}
    case _ => {}
  }

  /**
   * The expressions a statement reads: all its own expressions except the
   * target path of an assignment.
   */
  function ReadExpressions(s: Stmt): seq<Expr>
  {
    if s.Assign? || s.AugmentedAssign? then [s.expression] else OwnExpressions(s)
  }

  /** `gen` holds exactly the `id` nodes of the expressions the statement reads. */
  lemma {:induction false} UsedVariablesAreReadIds(s: Stmt, x: string)
    ensures x in CollectUsedVariables(s) <==> Id(x) in SubexpressionsOfAll(ReadExpressions(s))
  {
    var readExprs := ReadExpressions(s);
    if |readExprs| == 1 {
      assert readExprs[1..] == [];
      IdentifiersAreIdNodes(readExprs[0], x);
    }
  }

  /**
   * `kill` by statement kind: the name a `let` binds, the key and value names
   * a `foreach` binds, the target of an assignment when it is a bare
   * identifier, and nothing otherwise; so never more than two names.
   */
  lemma DefinedVariablesByKind(s: Stmt)
    ensures s.Let? ==> CollectDefinedVariables(s) == {s.name}
    ensures s.Foreach? ==> CollectDefinedVariables(s) == {s.keyName, s.valueName}
    ensures (s.Assign? || s.AugmentedAssign?) && s.path.Id? ==> CollectDefinedVariables(s) == {s.path.name}
    ensures (s.Assign? || s.AugmentedAssign?) && !s.path.Id? ==> CollectDefinedVariables(s) == {}
    ensures !(s.Let? || s.Assign? || s.AugmentedAssign? || s.Foreach?) ==> CollectDefinedVariables(s) == {}
    ensures |CollectDefinedVariables(s)| <= 2
  {
    if s.Foreach? {
      assert |{s.keyName, s.valueName}| <= 2 by {
        if s.keyName == s.valueName {
          assert {s.keyName, s.valueName} == {s.keyName};
        }
      }
    }
  }

  // ---------------------------------------------------------------------------
  // The transfer equations and the lattice
  // ---------------------------------------------------------------------------

  /** The union of `in` over the blocks `idxs`, accumulated left to right. */
  function InUnion(m: InfoMap, idxs: seq<BlockIdx>): VariableSet
    requires forall k :: k in idxs ==> k in m
  {
    if idxs == [] then {} else InUnion(m, idxs[..|idxs| - 1]) + m[idxs[|idxs| - 1]].inSet
  }

  lemma {:induction false} InUnionMembers(m: InfoMap, idxs: seq<BlockIdx>, v: string)
    requires forall k :: k in idxs ==> k in m
    ensures v in InUnion(m, idxs) <==> exists k :: k in idxs && v in m[k].inSet
  {
    if idxs != [] {
      var front := idxs[..|idxs| - 1];
      InUnionMembers(m, front, v);
      assert forall k :: k in idxs <==> k in front || k == idxs[|idxs| - 1];
    }
  }

  lemma {:induction false} InUnionMono(m1: InfoMap, m2: InfoMap, idxs: seq<BlockIdx>)
    requires forall k :: k in idxs ==> k in m1 && k in m2 && m1[k].inSet <= m2[k].inSet
    ensures InUnion(m1, idxs) <= InUnion(m2, idxs)
  {
    if idxs != [] {
      InUnionMono(m1, m2, idxs[..|idxs| - 1]);
    }
  }

  lemma {:induction false} InUnionWithin(m: InfoMap, idxs: seq<BlockIdx>, u: VariableSet)
    requires forall k :: k in idxs ==> k in m && m[k].inSet <= u
    ensures InUnion(m, idxs) <= u
  {
    if idxs != [] {
      InUnionWithin(m, idxs[..|idxs| - 1], u);
    }
  }

  /** Every block has its entry, with the block's own `gen` and `kill`. */
  predicate Initialized(cfg: Cfg, m: InfoMap)
  {
    && m.Keys == NodeIdxs(cfg)
    && forall b :: b in cfg.nodes ==>
         m[b.idx].gen == CollectUsedVariables(b.stmt) && m[b.idx].kill == CollectDefinedVariables(b.stmt)
  }

  /** `out[B]` is the union of `in[S]` over the successors S of B. */
  predicate OutEquation(cfg: Cfg, m: InfoMap, b: BasicBlock)
    requires Valid(cfg) && m.Keys == NodeIdxs(cfg) && b in cfg.nodes
  {
    m[b.idx].outSet == InUnion(m, Successors(cfg, b.idx))
  }

  /** `in[B] = gen[B] + (out[B] - kill[B])`. */
  predicate InEquation(info: LiveVariableInfo)
  {
    info.inSet == info.gen + (info.outSet - info.kill)
  }

  /** A fact map that satisfies both transfer equations at every block. */
  predicate IsSolution(cfg: Cfg, m: InfoMap)
    requires Valid(cfg)
  {
    && Initialized(cfg, m)
    && forall b :: b in cfg.nodes ==> OutEquation(cfg, m, b) && InEquation(m[b.idx])
  }

  /** Every stored set is contained in what the equations give on the current map. */
  predicate Sound(cfg: Cfg, m: InfoMap)
    requires Valid(cfg)
  {
    && Initialized(cfg, m)
    && forall b :: b in cfg.nodes ==>
         && m[b.idx].outSet <= InUnion(m, Successors(cfg, b.idx))
         && m[b.idx].inSet <= m[b.idx].gen + (m[b.idx].outSet - m[b.idx].kill)
  }

  /** Pointwise inclusion of the `in` and `out` sets. */
  predicate Below(m: InfoMap, x: InfoMap)
  {
    && m.Keys <= x.Keys
    && forall k :: k in m ==> m[k].inSet <= x[k].inSet && m[k].outSet <= x[k].outSet
  }

  ghost predicate BelowEverySolution(cfg: Cfg, m: InfoMap)
    requires Valid(cfg)
  {
    forall x :: IsSolution(cfg, x) ==> Below(m, x)
  }

  ghost predicate IsLeastSolution(cfg: Cfg, m: InfoMap)
    requires Valid(cfg)
  {
    IsSolution(cfg, m) && BelowEverySolution(cfg, m)
  }

  /** Every name any block reads: the finite universe the solver works in. */
  function AllGen(nodes: seq<BasicBlock>): (u: VariableSet)
    ensures forall b :: b in nodes ==> CollectUsedVariables(b.stmt) <= u
  {
    if nodes == [] then {} else CollectUsedVariables(nodes[0].stmt) + AllGen(nodes[1..])
  }

  /** The universe holds nothing else: a name is in the universe exactly when some block reads it. */
  lemma {:induction false} AllGenExact(nodes: seq<BasicBlock>, v: string)
    ensures v in AllGen(nodes) <==> exists b :: b in nodes && v in CollectUsedVariables(b.stmt)
  {
    if nodes != [] {
      AllGenExact(nodes[1..], v);
      if v in AllGen(nodes) && v !in CollectUsedVariables(nodes[0].stmt) {
        var b :| b in nodes[1..] && v in CollectUsedVariables(b.stmt);
        assert b in nodes;
      }
      if exists b :: b in nodes && v in CollectUsedVariables(b.stmt) {
        var b :| b in nodes && v in CollectUsedVariables(b.stmt);
        if b != nodes[0] {
          var i :| 0 <= i < |nodes| && nodes[i] == b;
          assert nodes[1..][i - 1] == b;
        }
      }
    }
  }

  predicate Bounded(cfg: Cfg, m: InfoMap)
  {
    forall k :: k in m ==> m[k].inSet <= AllGen(cfg.nodes) && m[k].outSet <= AllGen(cfg.nodes)
  }

  function Cost(u: VariableSet, info: LiveVariableInfo): nat
  {
    Deficit(u, info.inSet) + Deficit(u, info.outSet)
  }

  /** The cost of one entry, as a function the generic sum can apply. */
  function CostIn(u: VariableSet): LiveVariableInfo -> nat
  {
    info => Cost(u, info)
  }

  /** The termination measure: how far all sets still are from the universe. */
  function Potential(cfg: Cfg, m: InfoMap): nat
    requires NodeIdxs(cfg) <= m.Keys
  {
    SumOver(CostIn(AllGen(cfg.nodes)), m, IdxSeq(cfg.nodes))
  }

  // ---------------------------------------------------------------------------
  // One update and one pass of the solver
  // ---------------------------------------------------------------------------

  /** Block `b`'s entry recomputed from the current map: `out` first, then `in`. */
  function Recompute(cfg: Cfg, m: InfoMap, b: BasicBlock): (info: LiveVariableInfo)
    requires Valid(cfg) && m.Keys == NodeIdxs(cfg) && b in cfg.nodes
  {
    var outB := InUnion(m, Successors(cfg, b.idx));
    m[b.idx].(inSet := m[b.idx].gen + (outB - m[b.idx].kill), outSet := outB)
  }

  lemma BlockIdxIsNode(cfg: Cfg, b: BasicBlock)
    requires b in cfg.nodes
    ensures b.idx in NodeIdxs(cfg) && b.idx in IdxSeq(cfg.nodes)
  {
    var i :| 0 <= i < |cfg.nodes| && cfg.nodes[i] == b;
    assert IdxSeq(cfg.nodes)[i] == b.idx;
  }

  /** Recomputing a block of a sound map only grows its sets and keeps the map sound. */
  lemma UpdateSound(cfg: Cfg, m: InfoMap, b: BasicBlock)
    requires Valid(cfg) && Sound(cfg, m) && b in cfg.nodes
    ensures Below(m, m[b.idx := Recompute(cfg, m, b)])
    ensures Sound(cfg, m[b.idx := Recompute(cfg, m, b)])
  {
    var next := m[b.idx := Recompute(cfg, m, b)];
    assert Below(m, next);
    forall c | c in cfg.nodes
      ensures next[c.idx].outSet <= InUnion(next, Successors(cfg, c.idx))
      ensures next[c.idx].inSet <= next[c.idx].gen + (next[c.idx].outSet - next[c.idx].kill)
    {
      InUnionMono(m, next, Successors(cfg, c.idx));
    }
  }

  /** Recomputing a block keeps every set within the names some block reads. */
  lemma UpdateBounded(cfg: Cfg, m: InfoMap, b: BasicBlock)
    requires Valid(cfg) && Initialized(cfg, m) && Bounded(cfg, m) && b in cfg.nodes
    ensures Bounded(cfg, m[b.idx := Recompute(cfg, m, b)])
  {
    var u := AllGen(cfg.nodes);
    InUnionWithin(m, Successors(cfg, b.idx), u);
    assert m[b.idx].gen <= u;
    assert Recompute(cfg, m, b).inSet <= u;
  }

  /** Recomputing a block of a map below every solution stays below every solution. */
  lemma UpdateBelowSolutions(cfg: Cfg, m: InfoMap, b: BasicBlock)
    requires Valid(cfg) && Initialized(cfg, m) && BelowEverySolution(cfg, m) && b in cfg.nodes
    ensures BelowEverySolution(cfg, m[b.idx := Recompute(cfg, m, b)])
  {
    var next := m[b.idx := Recompute(cfg, m, b)];
    forall x | IsSolution(cfg, x) ensures Below(next, x) {
      assert Below(m, x);
      InUnionMono(m, x, Successors(cfg, b.idx));
      assert OutEquation(cfg, x, b) && InEquation(x[b.idx]);
    }
  }

  /** Growing an entry's sets inside the universe lowers its cost, strictly when the entry changes. */
  lemma CostShrinks(u: VariableSet, before: LiveVariableInfo, after: LiveVariableInfo)
    requires before.gen == after.gen && before.kill == after.kill
    requires before.inSet <= after.inSet <= u && before.outSet <= after.outSet <= u
    ensures Cost(u, after) <= Cost(u, before)
    ensures after != before ==> Cost(u, after) < Cost(u, before)
  {
    DeficitShrinks(u, before.inSet, after.inSet);
    DeficitShrinks(u, before.outSet, after.outSet);
  }

  /** Replacing one block's entry by a grown one never raises the potential. */
  lemma PotentialShrinks(cfg: Cfg, m: InfoMap, k: BlockIdx, info: LiveVariableInfo)
    requires Valid(cfg) && m.Keys == NodeIdxs(cfg) && k in m
    requires m[k].gen == info.gen && m[k].kill == info.kill
    requires m[k].inSet <= info.inSet <= AllGen(cfg.nodes)
    requires m[k].outSet <= info.outSet <= AllGen(cfg.nodes)
    ensures Potential(cfg, m[k := info]) <= Potential(cfg, m)
    ensures info != m[k] ==> Potential(cfg, m[k := info]) < Potential(cfg, m)
  {
    var u := AllGen(cfg.nodes);
    var idxs := IdxSeq(cfg.nodes);
    assert k in idxs by {
      var b :| b in cfg.nodes && b.idx == k;
      var i :| 0 <= i < |cfg.nodes| && cfg.nodes[i] == b;
      assert idxs[i] == k;
    }
    SumOverUpdate(CostIn(u), m, idxs, k, info);
    CostShrinks(u, m[k], info);
  }

  /** Recomputing a block never raises the potential, and lowers it when the entry changed. */
  lemma UpdatePotential(cfg: Cfg, m: InfoMap, b: BasicBlock)
    requires Valid(cfg) && Initialized(cfg, m) && b in cfg.nodes
    requires Below(m, m[b.idx := Recompute(cfg, m, b)])
    requires Bounded(cfg, m[b.idx := Recompute(cfg, m, b)])
    ensures Potential(cfg, m[b.idx := Recompute(cfg, m, b)]) <= Potential(cfg, m)
    ensures Recompute(cfg, m, b) != m[b.idx] ==>
              Potential(cfg, m[b.idx := Recompute(cfg, m, b)]) < Potential(cfg, m)
  {
    var info := Recompute(cfg, m, b);
    var next := m[b.idx := info];
    assert next[b.idx] == info;
    PotentialShrinks(cfg, m, b.idx, info);
  }

  /** All four facts about one recomputation, as the pass uses them. */
  lemma UpdateBlock(cfg: Cfg, m: InfoMap, b: BasicBlock)
    requires Valid(cfg) && Sound(cfg, m) && Bounded(cfg, m) && BelowEverySolution(cfg, m)
    requires b in cfg.nodes
    ensures Sound(cfg, m[b.idx := Recompute(cfg, m, b)])
    ensures Bounded(cfg, m[b.idx := Recompute(cfg, m, b)])
    ensures BelowEverySolution(cfg, m[b.idx := Recompute(cfg, m, b)])
    ensures Below(m, m[b.idx := Recompute(cfg, m, b)])
    ensures Potential(cfg, m[b.idx := Recompute(cfg, m, b)]) <= Potential(cfg, m)
    ensures Recompute(cfg, m, b) != m[b.idx] ==>
              Potential(cfg, m[b.idx := Recompute(cfg, m, b)]) < Potential(cfg, m)
  {
    UpdateSound(cfg, m, b);
    UpdateBounded(cfg, m, b);
    UpdateBelowSolutions(cfg, m, b);
    UpdatePotential(cfg, m, b);
  }

  /** The `forEach` over `cfg.getSuccessors(idx)` that accumulates `out[B]`. */
  method CollectSuccessorIns(cfg: Cfg, m: InfoMap, idx: BlockIdx) returns (outB: VariableSet)
    requires Valid(cfg) && m.Keys == NodeIdxs(cfg)
    ensures outB == InUnion(m, Successors(cfg, idx))
    ensures forall v :: v in outB <==> exists s :: s in Successors(cfg, idx) && v in m[s].inSet
  {
    var successors := Successors(cfg, idx);
    outB := {};
    var j := 0;
    while j < |successors|
      invariant 0 <= j <= |successors|
      invariant outB == InUnion(m, successors[..j])
    {
      assert successors[..j + 1][..j] == successors[..j];
      outB := outB + m[successors[j]].inSet;
      j := j + 1;
    }
    assert successors[..j] == successors;
    forall v ensures v in outB <==> exists s :: s in successors && v in m[s].inSet {
      InUnionMembers(m, successors, v);
    }
  }

  /** Recomputation leaves an entry alone exactly when the block satisfies both equations. */
  lemma FixedIffEquations(cfg: Cfg, m: InfoMap, b: BasicBlock)
    requires Valid(cfg) && m.Keys == NodeIdxs(cfg) && b in cfg.nodes
    ensures Recompute(cfg, m, b) == m[b.idx] <==> OutEquation(cfg, m, b) && InEquation(m[b.idx])
  {
  }

  /** The blocks `nodes[k..]` are left alone by recomputation. */
  predicate FixedFrom(cfg: Cfg, m: InfoMap, k: nat)
    requires Valid(cfg) && m.Keys == NodeIdxs(cfg)
  {
    forall j :: k <= j < |cfg.nodes| ==> Recompute(cfg, m, cfg.nodes[j]) == m[cfg.nodes[j].idx]
  }

  lemma FixedIsSolution(cfg: Cfg, m: InfoMap)
    requires Valid(cfg) && Initialized(cfg, m) && FixedFrom(cfg, m, 0)
    ensures IsSolution(cfg, m)
  {
    forall b | b in cfg.nodes ensures OutEquation(cfg, m, b) && InEquation(m[b.idx]) {
      var i :| 0 <= i < |cfg.nodes| && cfg.nodes[i] == b;
      FixedIffEquations(cfg, m, b);
    }
  }

  /**
   * The body of the `forEach` over the blocks: compute `out[B]` from the
   * successors, then `in[B]`, and replace each set that differs from the stored one.
   */
  method UpdateEntry(cfg: Cfg, m: InfoMap, bb: BasicBlock) returns (info: LiveVariableInfo, changed: bool)
    requires Valid(cfg) && m.Keys == NodeIdxs(cfg) && bb in cfg.nodes
    ensures info == Recompute(cfg, m, bb)
    ensures changed <==> info != m[bb.idx]
    ensures changed <==> !(OutEquation(cfg, m, bb) && InEquation(m[bb.idx]))
  {
    info := m[bb.idx];
    changed := false;
    var outB := CollectSuccessorIns(cfg, m, bb.idx);
    var inB := info.gen + (outB - info.kill);
    if !SetsAreEqual(inB, info.inSet) {
      info := info.(inSet := inB);
      changed := true;
    }
    if !SetsAreEqual(outB, info.outSet) {
      info := info.(outSet := outB);
      changed := true;
    }
    FixedIffEquations(cfg, m, bb);
  }

  /**
   * One iteration of `while (!stable)`: visit the blocks in reverse order and
   * recompute `out` then `in`, recording whether anything changed.
   */
  method LivePass(cfg: Cfg, m: InfoMap) returns (next: InfoMap, stable: bool)
    requires Valid(cfg) && Sound(cfg, m) && Bounded(cfg, m) && BelowEverySolution(cfg, m)
    ensures Sound(cfg, next) && Bounded(cfg, next) && BelowEverySolution(cfg, next)
    ensures Below(m, next)
    ensures stable <==> next == m
    ensures stable ==> IsSolution(cfg, next)
    ensures IsSolution(cfg, m) ==> stable
    ensures !stable ==> Potential(cfg, next) < Potential(cfg, m)
  {
    next := m;
    stable := true;
    var k := |cfg.nodes|;
    while k > 0
      invariant 0 <= k <= |cfg.nodes|
      invariant PassInvariant(cfg, m, next, k, stable)
    {
      k := k - 1;
      var bb := cfg.nodes[k];
      var info, changed := UpdateEntry(cfg, next, bb);
      PassStep(cfg, m, next, k, stable, info, changed);
      next := next[bb.idx := info];
      stable := stable && !changed;
    }
    if stable {
      FixedIsSolution(cfg, next);
    }
  }

  lemma UpdateSameValue(m: InfoMap, k: BlockIdx, info: LiveVariableInfo)
    requires k in m && m[k] == info
    ensures m[k := info] == m
  {
  }

  /** What holds after the pass has visited `nodes[k..]`. */
  ghost predicate PassInvariant(cfg: Cfg, m: InfoMap, next: InfoMap, k: nat, stable: bool)
    requires Valid(cfg) && Sound(cfg, m)
  {
    && Sound(cfg, next) && Bounded(cfg, next) && BelowEverySolution(cfg, next)
    && Below(m, next)
    && Potential(cfg, next) <= Potential(cfg, m)
    && (stable ==> next == m && FixedFrom(cfg, m, k))
    && (!stable ==> Potential(cfg, next) < Potential(cfg, m))
    && (IsSolution(cfg, m) ==> stable)
  }

  /** Visiting block `nodes[k]` keeps the pass invariant. */
  lemma PassStep(cfg: Cfg, m: InfoMap, next: InfoMap, k: nat, stable: bool, info: LiveVariableInfo, changed: bool)
    requires Valid(cfg) && Sound(cfg, m) && k < |cfg.nodes|
    requires PassInvariant(cfg, m, next, k + 1, stable)
    requires info == Recompute(cfg, next, cfg.nodes[k])
    requires changed <==> info != next[cfg.nodes[k].idx]
    ensures PassInvariant(cfg, m, next[cfg.nodes[k].idx := info], k, stable && !changed)
  {
    var bb := cfg.nodes[k];
    var after := next[bb.idx := info];
    UpdateBlock(cfg, next, bb);
    assert Sound(cfg, after) && Bounded(cfg, after) && BelowEverySolution(cfg, after);
    assert Below(m, after);
    assert Potential(cfg, after) <= Potential(cfg, m);
    assert !(stable && !changed) ==> Potential(cfg, after) < Potential(cfg, m);
    if stable && !changed {
      BlockIdxIsNode(cfg, bb);
      UpdateSameValue(next, bb.idx, info);
      assert after == m;
      assert FixedFrom(cfg, m, k);
    }
    if IsSolution(cfg, m) {
      FixedIffEquations(cfg, m, bb);
      assert stable && !changed;
    }
  }

  // ---------------------------------------------------------------------------
  // The analysis
  // ---------------------------------------------------------------------------

  function InitialInfo(s: Stmt): LiveVariableInfo
  {
    LiveVariableInfo(CollectUsedVariables(s), CollectDefinedVariables(s), {}, {})
  }

  /** Step 1: one entry per block, with the block's own `gen`/`kill` and empty `in`/`out`. */
  method InitialMap(cfg: Cfg) returns (m: InfoMap)
    requires Valid(cfg)
    ensures Initialized(cfg, m)
    ensures forall k :: k in m ==> m[k].inSet == {} && m[k].outSet == {}
  {
    m := map[];
    var i := 0;
    while i < |cfg.nodes|
      invariant 0 <= i <= |cfg.nodes|
      invariant FilledUpTo(cfg, m, i)
    {
      var bb := cfg.nodes[i];
      FilledStep(cfg, m, i);
      m := m[bb.idx := InitialInfo(bb.stmt)];
      i := i + 1;
    }
    FilledIsInitialized(cfg, m);
  }

  /** The entries of the first `i` blocks are in place, and no others. */
  predicate FilledUpTo(cfg: Cfg, m: InfoMap, i: nat)
    requires i <= |cfg.nodes|
  {
    && m.Keys == (set j | 0 <= j < i :: cfg.nodes[j].idx)
    && forall j :: 0 <= j < i ==> m[cfg.nodes[j].idx] == InitialInfo(cfg.nodes[j].stmt)
  }

  /** Adding block `i`'s entry fills one more block. */
  lemma FilledStep(cfg: Cfg, m: InfoMap, i: nat)
    requires Valid(cfg) && i < |cfg.nodes| && FilledUpTo(cfg, m, i)
    ensures FilledUpTo(cfg, m[cfg.nodes[i].idx := InitialInfo(cfg.nodes[i].stmt)], i + 1)
  {
  }

  /** Once every block is filled, the map is the start map the solver needs. */
  lemma FilledIsInitialized(cfg: Cfg, m: InfoMap)
    requires Valid(cfg) && FilledUpTo(cfg, m, |cfg.nodes|)
    ensures Initialized(cfg, m)
    ensures forall k :: k in m ==> m[k].inSet == {} && m[k].outSet == {}
  {
    assert m.Keys == NodeIdxs(cfg) by {
      forall b | b in cfg.nodes ensures b.idx in m.Keys {
        var j :| 0 <= j < |cfg.nodes| && cfg.nodes[j] == b;
      }
    }
    forall b | b in cfg.nodes
      ensures m[b.idx].gen == CollectUsedVariables(b.stmt) && m[b.idx].kill == CollectDefinedVariables(b.stmt)
    {
      var j :| 0 <= j < |cfg.nodes| && cfg.nodes[j] == b;
    }
  }

  /** The initial map is where the fixed-point iteration may start: sound, bounded and below every solution. */
  lemma InitialMapIsBelow(cfg: Cfg, m: InfoMap)
    requires Valid(cfg) && Initialized(cfg, m)
    requires forall k :: k in m ==> m[k].inSet == {} && m[k].outSet == {}
    ensures Sound(cfg, m) && Bounded(cfg, m) && BelowEverySolution(cfg, m)
  {
  }

  /** The all-empty start map solves the equations exactly when no block reads a name. */
  lemma EmptyStartSolvesIffNoGen(cfg: Cfg, m: InfoMap)
    requires Valid(cfg) && Initialized(cfg, m)
    requires forall k :: k in m ==> m[k].inSet == {} && m[k].outSet == {}
    ensures IsSolution(cfg, m) <==> forall b :: b in cfg.nodes ==> CollectUsedVariables(b.stmt) == {}
  {
    forall b | b in cfg.nodes ensures OutEquation(cfg, m, b) {
      forall v | v in InUnion(m, Successors(cfg, b.idx)) ensures false {
        InUnionMembers(m, Successors(cfg, b.idx), v);
      }
    }
  }

  /**
   * `performLiveVariableAnalysis`: one entry per block with its `gen`/`kill`
   * and empty `in`/`out`, then passes until one changes nothing. The result is
   * the least solution of the transfer equations and stays within the names
   * some block reads. The loop runs at least one pass, and stops after the
   * first exactly when no block reads a name.
   */
  method PerformLiveVariableAnalysis(cfg: Cfg) returns (result: InfoMap, ghost passes: nat)
    requires Valid(cfg)
    ensures IsLeastSolution(cfg, result)
    ensures Bounded(cfg, result)
    ensures passes >= 1
    ensures passes == 1 <==> forall b :: b in cfg.nodes ==> CollectUsedVariables(b.stmt) == {}
  {
    var m := InitialMap(cfg);
    InitialMapIsBelow(cfg, m);
    EmptyStartSolvesIffNoGen(cfg, m);
    ghost var start := m;

    var stable := false;
    passes := 0;
    while !stable
      invariant Sound(cfg, m) && Bounded(cfg, m) && BelowEverySolution(cfg, m)
      invariant stable ==> IsSolution(cfg, m)
      invariant passes == 0 ==> m == start && !stable
      invariant stable ==> passes >= 1
      invariant passes == 1 && stable ==> IsSolution(cfg, start)
      invariant passes >= 1 && IsSolution(cfg, start) ==> passes == 1 && stable
      decreases Potential(cfg, m), if stable then 0 else 1
    {
      m, stable := LivePass(cfg, m);
      passes := passes + 1;
    }
    result := m;
  }

  /** The least solution is unique, so the analysis is deterministic. */
  lemma LeastSolutionUnique(cfg: Cfg, a: InfoMap, b: InfoMap)
    requires Valid(cfg) && IsLeastSolution(cfg, a) && IsLeastSolution(cfg, b)
    ensures a == b
  {
    assert Below(a, b) && Below(b, a);
    forall k | k in a ensures a[k] == b[k] {
      SameEntry(cfg, a, b, k);
    }
  }

  /** Two initialised maps below each other agree at every block. */
  lemma SameEntry(cfg: Cfg, a: InfoMap, b: InfoMap, k: BlockIdx)
    requires Initialized(cfg, a) && Initialized(cfg, b) && Below(a, b) && Below(b, a) && k in a
    ensures a[k] == b[k]
  {
    var node :| node in cfg.nodes && node.idx == k;
    assert a[k].gen == b[k].gen && a[k].kill == b[k].kill;
    assert a[k].inSet == b[k].inSet && a[k].outSet == b[k].outSet;
  }


  /** A block without successors has nothing live at its exit. */
  lemma ExitBlockOutEmpty(cfg: Cfg, m: InfoMap, b: BasicBlock)
    requires Valid(cfg) && IsSolution(cfg, m) && b in cfg.nodes
    requires Successors(cfg, b.idx) == []
    ensures m[b.idx].outSet == {}
  {
    assert OutEquation(cfg, m, b);
  }

  // ---------------------------------------------------------------------------
  // The sample contract of the analysis' test
  // ---------------------------------------------------------------------------

  /**
   * `let a: Int = 0; while (a < 10) { let b: Int = a + 1; a = b; } return a;`
   * as five blocks, one per statement.
   */
  function SampleNodes(): seq<BasicBlock>
  {
    var letB := Let(3, "let b: Int = a + 1;", "b", Some(OpBinary("+", Id("a"), Number(1))));
    var assignA := Assign(4, "a = b;", Id("a"), Id("b"));
    [BasicBlock(1, Let(1, "let a: Int = 0;", "a", Some(Number(0)))),
     BasicBlock(2, While(2, "while (a < 10)", OpBinary("<", Id("a"), Number(10)), [letB, assignA])),
     BasicBlock(3, letB),
     BasicBlock(4, assignA),
     BasicBlock(5, Return(5, "return a;", Some(Id("a"))))]
  }

  /** Into the loop, through its body and back, and out of it to the `return`. */
  function SampleEdges(): seq<Edge>
  {
    [Edge(1, 2), Edge(2, 3), Edge(2, 5), Edge(3, 4), Edge(4, 2)]
  }

  /** A graph with the sample's blocks and edges. */
  predicate IsSample(cfg: Cfg)
  {
    cfg.nodes == SampleNodes() && cfg.edges == SampleEdges()
  }

  /** The gen, kill, in and out sets the test expects, block by block. */
  function SampleResult(): InfoMap
  {
    map[1 := LiveVariableInfo({}, {"a"}, {}, {"a"}),
        2 := LiveVariableInfo({"a"}, {}, {"a"}, {"a"}),
        3 := LiveVariableInfo({"a"}, {"b"}, {"a"}, {"b"}),
        4 := LiveVariableInfo({"b"}, {"a"}, {"b"}, {"a"}),
        5 := LiveVariableInfo({"a"}, {}, {"a"}, {})]
  }

  /** The union over a list of blocks depends only on which blocks it names. */
  lemma InUnionOfSet(m: InfoMap, idxs: seq<BlockIdx>, blocks: set<BlockIdx>, u: VariableSet)
    requires forall k :: k in idxs ==> k in m
    requires forall k :: k in idxs <==> k in blocks
    requires forall v :: v in u <==> exists k :: k in blocks && v in m[k].inSet
    ensures InUnion(m, idxs) == u
  {
    forall v ensures v in InUnion(m, idxs) <==> v in u {
      InUnionMembers(m, idxs, v);
    }
  }

  /** The sample's blocks in order: indices 1 to 5, with the table's `gen` and `kill`. */
  ghost predicate SampleBlocks(cfg: Cfg)
  {
    && |cfg.nodes| == 5
    && NumberedFromOne(cfg)
    && forall i :: 0 <= i < 5 ==>
         && CollectUsedVariables(cfg.nodes[i].stmt) == SampleResult()[i + 1].gen
         && CollectDefinedVariables(cfg.nodes[i].stmt) == SampleResult()[i + 1].kill
  }

  lemma SampleHasBlocks(cfg: Cfg)
    requires IsSample(cfg)
    ensures SampleBlocks(cfg)
  {
    SampleNumbered(cfg);
    forall i | 0 <= i < 5
      ensures && CollectUsedVariables(cfg.nodes[i].stmt) == SampleResult()[i + 1].gen
              && CollectDefinedVariables(cfg.nodes[i].stmt) == SampleResult()[i + 1].kill
    {
      SampleBlockAt(cfg, i);
    }
  }

  lemma SampleBlockAt(cfg: Cfg, i: nat)
    requires IsSample(cfg) && i < 5
    ensures CollectUsedVariables(cfg.nodes[i].stmt) == SampleResult()[i + 1].gen
    ensures CollectDefinedVariables(cfg.nodes[i].stmt) == SampleResult()[i + 1].kill
  {
    var s := cfg.nodes[i].stmt;
    if i == 0 {
      assert s == Let(1, "let a: Int = 0;", "a", Some(Number(0)));
    } else if i == 1 {
      assert s.While? && s.condition == OpBinary("<", Id("a"), Number(10));
    } else if i == 2 {
      assert s == Let(3, "let b: Int = a + 1;", "b", Some(OpBinary("+", Id("a"), Number(1))));
    } else if i == 3 {
      assert s == Assign(4, "a = b;", Id("a"), Id("b"));
    } else {
      assert s == Return(5, "return a;", Some(Id("a")));
    }
  }

  lemma SampleNodeIdxs(cfg: Cfg)
    requires |cfg.nodes| == 5 && NumberedFromOne(cfg)
    ensures NodeIdxs(cfg) == {1, 2, 3, 4, 5}
    ensures forall i, j :: 0 <= i < j < |cfg.nodes| ==> cfg.nodes[i].idx != cfg.nodes[j].idx
  {
    forall k ensures k in NodeIdxs(cfg) <==> k in {1, 2, 3, 4, 5} {
      NumberedIdxs(cfg, k);
    }
    NumberedIdxs(cfg, 0);
  }

  /** The sample's blocks are numbered 1 to 5 in order. */
  lemma SampleNumbered(cfg: Cfg)
    requires cfg.nodes == SampleNodes()
    ensures |cfg.nodes| == 5 && NumberedFromOne(cfg)
  {
  }

  /** Every edge of the sample joins two of its blocks. */
  lemma SampleEdgesWithin()
    ensures forall e :: e in SampleEdges() ==> 1 <= e.src <= 5 && 1 <= e.dst <= 5
  {
  }

  lemma SampleValid(cfg: Cfg)
    requires IsSample(cfg)
    ensures Valid(cfg)
  {
    SampleNumbered(cfg);
    SampleEdgesWithin();
    NumberedIdxs(cfg, 0);
    forall e | e in cfg.edges ensures e.src in NodeIdxs(cfg) && e.dst in NodeIdxs(cfg) {
      NumberedIdxs(cfg, e.src);
      NumberedIdxs(cfg, e.dst);
    }
  }

  /** The successor lists of the sample's blocks, up to order. */
  ghost predicate SampleSuccessors(cfg: Cfg)
  {
    && (forall j :: j in Successors(cfg, 1) <==> j == 2)
    && (forall j :: j in Successors(cfg, 2) <==> j == 3 || j == 5)
    && (forall j :: j in Successors(cfg, 3) <==> j == 4)
    && (forall j :: j in Successors(cfg, 4) <==> j == 2)
    && Successors(cfg, 5) == []
  }

  lemma SampleHasSuccessors(cfg: Cfg)
    requires IsSample(cfg)
    ensures SampleSuccessors(cfg)
  {
    SampleSuccessorsOf1(cfg);
    SampleSuccessorsOf2(cfg);
    SampleSuccessorsOf3(cfg);
    SampleSuccessorsOf4(cfg);
    SampleSuccessorsOf5(cfg);
  }

  /** Which edges of the sample leave each block. */
  lemma SampleEdgesFrom(j: BlockIdx)
    ensures Edge(1, j) in SampleEdges() <==> j == 2
    ensures Edge(2, j) in SampleEdges() <==> j == 3 || j == 5
    ensures Edge(3, j) in SampleEdges() <==> j == 4
    ensures Edge(4, j) in SampleEdges() <==> j == 2
  {
  }

  lemma SampleSuccessorsOf1(cfg: Cfg)
    requires cfg.edges == SampleEdges()
    ensures forall j :: j in Successors(cfg, 1) <==> j == 2
  {
    forall j ensures j in Successors(cfg, 1) <==> j == 2 {
      SampleEdgesFrom(j);
    }
  }

  lemma SampleSuccessorsOf2(cfg: Cfg)
    requires cfg.edges == SampleEdges()
    ensures forall j :: j in Successors(cfg, 2) <==> j == 3 || j == 5
  {
    forall j ensures j in Successors(cfg, 2) <==> j == 3 || j == 5 {
      SampleEdgesFrom(j);
    }
  }

  lemma SampleSuccessorsOf3(cfg: Cfg)
    requires cfg.edges == SampleEdges()
    ensures forall j :: j in Successors(cfg, 3) <==> j == 4
  {
    forall j ensures j in Successors(cfg, 3) <==> j == 4 {
      SampleEdgesFrom(j);
    }
  }

  lemma SampleSuccessorsOf4(cfg: Cfg)
    requires cfg.edges == SampleEdges()
    ensures forall j :: j in Successors(cfg, 4) <==> j == 2
  {
    forall j ensures j in Successors(cfg, 4) <==> j == 2 {
      SampleEdgesFrom(j);
    }
  }

  lemma SampleSuccessorsOf5(cfg: Cfg) requires cfg.edges == SampleEdges() ensures Successors(cfg, 5) == [] {}

  /** On a map over the sample's blocks, the `out` equations read as unions of named blocks. */
  lemma SampleUnions(cfg: Cfg, m: InfoMap)
    requires SampleSuccessors(cfg) && m.Keys == {1, 2, 3, 4, 5}
    ensures InUnion(m, Successors(cfg, 1)) == m[2].inSet
    ensures InUnion(m, Successors(cfg, 2)) == m[3].inSet + m[5].inSet
    ensures InUnion(m, Successors(cfg, 3)) == m[4].inSet
    ensures InUnion(m, Successors(cfg, 4)) == m[2].inSet
    ensures InUnion(m, Successors(cfg, 5)) == {}
  {
    InUnionOfSet(m, Successors(cfg, 1), {2}, m[2].inSet);
    InUnionOfSet(m, Successors(cfg, 2), {3, 5}, m[3].inSet + m[5].inSet);
    InUnionOfSet(m, Successors(cfg, 3), {4}, m[4].inSet);
    InUnionOfSet(m, Successors(cfg, 4), {2}, m[2].inSet);
  }

  lemma SampleResultIsSolution(cfg: Cfg)
    requires Valid(cfg) && SampleBlocks(cfg) && SampleSuccessors(cfg)
    ensures IsSolution(cfg, SampleResult())
  {
    var r := SampleResult();
    SampleNodeIdxs(cfg);
    forall b | b in cfg.nodes
      ensures r[b.idx].gen == CollectUsedVariables(b.stmt) && r[b.idx].kill == CollectDefinedVariables(b.stmt)
      ensures OutEquation(cfg, r, b) && InEquation(r[b.idx])
    {
      var i :| 0 <= i < 5 && cfg.nodes[i] == b;
      SampleResultAt(cfg, i);
    }
    assert Initialized(cfg, r);
  }

  lemma SampleResultAt(cfg: Cfg, i: nat)
    requires Valid(cfg) && SampleBlocks(cfg) && SampleSuccessors(cfg) && i < 5
    ensures NodeIdxs(cfg) == SampleResult().Keys && cfg.nodes[i].idx == i + 1
    ensures SampleResult()[i + 1].gen == CollectUsedVariables(cfg.nodes[i].stmt)
    ensures SampleResult()[i + 1].kill == CollectDefinedVariables(cfg.nodes[i].stmt)
    ensures OutEquation(cfg, SampleResult(), cfg.nodes[i]) && InEquation(SampleResult()[i + 1])
  {
    var r := SampleResult();
    SampleNodeIdxs(cfg);
    SampleUnions(cfg, r);
    SampleOutSets();
    assert cfg.nodes[i].idx == i + 1;
    if i == 0 {
      assert r[1].outSet == InUnion(r, Successors(cfg, 1));
    } else if i == 1 {
      assert r[2].outSet == InUnion(r, Successors(cfg, 2));
    } else if i == 2 {
      assert r[3].outSet == InUnion(r, Successors(cfg, 3));
    } else if i == 3 {
      assert r[4].outSet == InUnion(r, Successors(cfg, 4));
    } else {
      assert r[5].outSet == InUnion(r, Successors(cfg, 5));
    }
  }

  /** Each `out` set of the table is the union of its successors' `in` sets, and each block's `in` equation holds. */
  lemma SampleOutSets()
    ensures SampleResult()[1].outSet == SampleResult()[2].inSet
    ensures SampleResult()[2].outSet == SampleResult()[3].inSet + SampleResult()[5].inSet
    ensures SampleResult()[3].outSet == SampleResult()[4].inSet
    ensures SampleResult()[4].outSet == SampleResult()[2].inSet
    ensures SampleResult()[5].outSet == {}
    ensures forall k :: k in SampleResult() ==> InEquation(SampleResult()[k])
  {
  }

  /** Every solution's `in` sets hold at least what its blocks read. */
  lemma SampleInBelowSolutions(cfg: Cfg, x: InfoMap)
    requires Valid(cfg) && SampleBlocks(cfg) && IsSolution(cfg, x)
    ensures x.Keys == {1, 2, 3, 4, 5}
    ensures "a" in x[2].inSet && "a" in x[3].inSet && "b" in x[4].inSet && "a" in x[5].inSet
  {
    var ns := cfg.nodes;
    SampleNodeIdxs(cfg);
    assert ns[1] in ns && ns[2] in ns && ns[3] in ns && ns[4] in ns;
    assert "a" in x[2].gen && "a" in x[3].gen && "b" in x[4].gen && "a" in x[5].gen;
    assert InEquation(x[2]) && InEquation(x[3]) && InEquation(x[4]) && InEquation(x[5]);
  }

  /** The table is below any map whose sets hold the reads and follow the sample's edges. */
  lemma SampleResultBelow(x: InfoMap)
    requires x.Keys == {1, 2, 3, 4, 5}
    requires "a" in x[2].inSet && "a" in x[3].inSet && "b" in x[4].inSet && "a" in x[5].inSet
    requires x[1].outSet == x[2].inSet && x[2].outSet == x[3].inSet + x[5].inSet
    requires x[3].outSet == x[4].inSet && x[4].outSet == x[2].inSet
    ensures Below(SampleResult(), x)
  {
  }

  /** Every solution holds at least the expected sets. */
  lemma SampleResultBelowSolutions(cfg: Cfg, x: InfoMap)
    requires Valid(cfg) && SampleBlocks(cfg) && SampleSuccessors(cfg) && IsSolution(cfg, x)
    ensures Below(SampleResult(), x)
  {
    var ns := cfg.nodes;
    SampleNodeIdxs(cfg);
    SampleInBelowSolutions(cfg, x);
    SampleUnions(cfg, x);
    assert ns[0] in ns && ns[1] in ns && ns[2] in ns && ns[3] in ns;
    assert OutEquation(cfg, x, ns[0]) && OutEquation(cfg, x, ns[1]) && OutEquation(cfg, x, ns[2]);
    assert OutEquation(cfg, x, ns[3]);
    SampleResultBelow(x);
  }

  /**
   * The test's table is what the analysis computes on the sample: it is the
   * least solution, and any least solution equals it.
   */
  lemma SampleAnalysisResult(cfg: Cfg, result: InfoMap)
    requires IsSample(cfg)
    ensures Valid(cfg) && IsLeastSolution(cfg, SampleResult())
    ensures Valid(cfg) && IsLeastSolution(cfg, result) ==> result == SampleResult()
  {
    SampleValid(cfg);
    SampleHasBlocks(cfg);
    SampleHasSuccessors(cfg);
    SampleResultIsSolution(cfg);
    forall x: InfoMap | IsSolution(cfg, x) ensures Below(SampleResult(), x) {
      SampleResultBelowSolutions(cfg, x);
    }
    if IsLeastSolution(cfg, result) {
      LeastSolutionUnique(cfg, result, SampleResult());
    }
  }
}
