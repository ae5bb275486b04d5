/**
 * Downward-exposed definitions: a forward gen/kill analysis over one CFG.
 *
 * A fact is a pair (variable name, id of the defining statement). Each block
 * gets `lastdef` (the definitions its statement makes) and `defkill` (the bare
 * names it overwrites); a round-robin solver then visits the blocks in order,
 * setting `in[B]` to the union of `out[P]` over B's predecessors and `out[B]`
 * to `lastdef[B]` plus the facts of `in[B]` whose NAME is not in `defkill[B]`,
 * until a whole pass changes nothing.
 *
 * The name an assignment defines is read off its source text (see
 * `Text.AssignedName`), with a leading `self.` stripped.
 */
module DownwardExposedUses {
  import opened Ast
  import opened Text
  import opened Graph
  import opened SetUtil

  /** `[name, stmt.id]`: the second component is the AST id of the defining statement. */
  datatype VariableRecord = VariableRecord(name: string, site: NodeId)

  type VariableSet = set<VariableRecord>

  datatype DefInfo = DefInfo(lastdef: VariableSet, defkill: set<string>, inSet: VariableSet, outSet: VariableSet)

  type InfoMap = map<BlockIdx, DefInfo>

  // ---------------------------------------------------------------------------
  // Local facts of one block
  // ---------------------------------------------------------------------------

  /** `tryExtractAssignedVarNameFromAssingment`: the assignment's target read off its text after `self.`. */
  function TryExtractAssignedVarName(s: Stmt): string
  {
    AssignedName("self.", s)
  }

  /** `collectKilledVariables`: only an assignment kills, and it kills the extracted name. */
  function CollectKilledVariables(s: Stmt): (defkill: set<string>)
  {
    if s.Assign? || s.AugmentedAssign? then {TryExtractAssignedVarName(s)} else {}
  }

  /** `collectLastDefVariables`: one pair per name the statement binds, tagged with its id. */
  function CollectLastDefVariables(s: Stmt): (lastdef: VariableSet)
  {
    match s
    case Let(id, _, name, _) => {VariableRecord(name, id)}
    case Assign(id, _, _, _) => {VariableRecord(TryExtractAssignedVarName(s), id)}
    case AugmentedAssign(id, _, _, _, _) => {VariableRecord(TryExtractAssignedVarName(s), id)}
    case Foreach(id, _, key, value, _, _) => {VariableRecord(key, id), VariableRecord(value, id)}
    case _ => {}
  }

  /** The local sets by statement kind: every definition a block makes carries its own statement id. */
  lemma LocalSets(s: Stmt)
    ensures forall r :: r in CollectLastDefVariables(s) ==> r.site == s.id
    ensures s.Let? ==> CollectLastDefVariables(s) == {VariableRecord(s.name, s.id)} && CollectKilledVariables(s) == {}
    ensures s.Foreach? ==> CollectLastDefVariables(s) == {VariableRecord(s.keyName, s.id), VariableRecord(s.valueName, s.id)}
                           && CollectKilledVariables(s) == {}
    ensures s.Assign? || s.AugmentedAssign? ==>
              && CollectLastDefVariables(s) == {VariableRecord(TryExtractAssignedVarName(s), s.id)}
              && CollectKilledVariables(s) == {TryExtractAssignedVarName(s)}
    ensures !(s.Let? || s.Assign? || s.AugmentedAssign? || s.Foreach?) ==>
              CollectLastDefVariables(s) == {} && CollectKilledVariables(s) == {}
  {
  }

  /** An assignment defines exactly the name it kills. */
  lemma AssignmentKillsWhatItDefines(s: Stmt)
    requires s.Assign? || s.AugmentedAssign?
    ensures CollectKilledVariables(s) == set r | r in CollectLastDefVariables(s) :: r.name
  {
    var r := VariableRecord(TryExtractAssignedVarName(s), s.id);
    assert CollectLastDefVariables(s) == {r};
    assert (set q | q in {r} :: q.name) == {r.name};
  }

  // ---------------------------------------------------------------------------
  // The transfer equations and the lattice
  // ---------------------------------------------------------------------------

  /** The records of `inB` whose name is not killed: a kill matches the name only, whatever the site. */
  function Survivors(inB: VariableSet, defkill: set<string>): (r: VariableSet)
    ensures forall v :: v in r <==> v in inB && v.name !in defkill
  {
    set v | v in inB && v.name !in defkill
  }

  /** Killing by name removes every definition of a killed name, whatever statement made it. */
  lemma SurvivorsByName(inB: VariableSet, defkill: set<string>, x: string, site: NodeId)
    requires VariableRecord(x, site) in inB
    ensures VariableRecord(x, site) in Survivors(inB, defkill) <==> x !in defkill
  {
  }

  /** The union of `out` over the blocks `idxs`, accumulated left to right. */
  function OutUnion(m: InfoMap, idxs: seq<BlockIdx>): VariableSet
    requires forall k :: k in idxs ==> k in m
  {
    if idxs == [] then {} else OutUnion(m, idxs[..|idxs| - 1]) + m[idxs[|idxs| - 1]].outSet
  }

  lemma {:induction false} OutUnionMembers(m: InfoMap, idxs: seq<BlockIdx>, v: VariableRecord)
    requires forall k :: k in idxs ==> k in m
    ensures v in OutUnion(m, idxs) <==> exists k :: k in idxs && v in m[k].outSet
  {
    if idxs != [] {
      var front := idxs[..|idxs| - 1];
      OutUnionMembers(m, front, v);
      assert forall k :: k in idxs <==> k in front || k == idxs[|idxs| - 1];
    }
  }

  lemma {:induction false} OutUnionMono(m1: InfoMap, m2: InfoMap, idxs: seq<BlockIdx>)
    requires forall k :: k in idxs ==> k in m1 && k in m2 && m1[k].outSet <= m2[k].outSet
    ensures OutUnion(m1, idxs) <= OutUnion(m2, idxs)
  {
    if idxs != [] {
      OutUnionMono(m1, m2, idxs[..|idxs| - 1]);
    }
  }

  lemma {:induction false} OutUnionWithin(m: InfoMap, idxs: seq<BlockIdx>, u: VariableSet)
    requires forall k :: k in idxs ==> k in m && m[k].outSet <= u
    ensures OutUnion(m, idxs) <= u
  {
    if idxs != [] {
      OutUnionWithin(m, idxs[..|idxs| - 1], u);
    }
  }

  /** Every block has its entry, with the block's own `lastdef` and `defkill`. */
  predicate Initialized(cfg: Cfg, m: InfoMap)
  {
    && m.Keys == NodeIdxs(cfg)
    && forall b :: b in cfg.nodes ==>
         m[b.idx].lastdef == CollectLastDefVariables(b.stmt) && m[b.idx].defkill == CollectKilledVariables(b.stmt)
  }

  /** `in[B]` is the union of `out[P]` over the predecessors P of B. */
  predicate InEquation(cfg: Cfg, m: InfoMap, b: BasicBlock)
    requires Valid(cfg) && m.Keys == NodeIdxs(cfg) && b in cfg.nodes
  {
    m[b.idx].inSet == OutUnion(m, Predecessors(cfg, b.idx))
  }

  /** `out[B] = lastdef[B] + {r in in[B] | r.name not in defkill[B]}`. */
  predicate OutEquation(info: DefInfo)
  {
    info.outSet == info.lastdef + Survivors(info.inSet, info.defkill)
  }

  /** A fact map that satisfies both transfer equations at every block. */
  predicate IsSolution(cfg: Cfg, m: InfoMap)
    requires Valid(cfg)
  {
    && Initialized(cfg, m)
    && forall b :: b in cfg.nodes ==> InEquation(cfg, m, b) && OutEquation(m[b.idx])
  }

  /** Every stored set is contained in what the equations give on the current map. */
  predicate Sound(cfg: Cfg, m: InfoMap)
    requires Valid(cfg)
  {
    && Initialized(cfg, m)
    && forall b :: b in cfg.nodes ==>
         && m[b.idx].inSet <= OutUnion(m, Predecessors(cfg, b.idx))
         && m[b.idx].outSet <= m[b.idx].lastdef + Survivors(m[b.idx].inSet, m[b.idx].defkill)
  }

  /** Pointwise inclusion of the `in` and `out` sets. */
  predicate Below(m: InfoMap, x: InfoMap)
  {
    && m.Keys <= x.Keys
    && forall k :: k in m ==> m[k].inSet <= x[k].inSet && m[k].outSet <= x[k].outSet
  }

  ghost predicate BelowEverySolution(cfg: Cfg, m: InfoMap)
    requires Valid(cfg)
  {
    forall x :: IsSolution(cfg, x) ==> Below(m, x)
  }

  ghost predicate IsLeastSolution(cfg: Cfg, m: InfoMap)
    requires Valid(cfg)
  {
    IsSolution(cfg, m) && BelowEverySolution(cfg, m)
  }

  /** Every definition any block makes: the finite universe the solver works in. */
  function AllLastDefs(nodes: seq<BasicBlock>): (u: VariableSet)
    ensures forall b :: b in nodes ==> CollectLastDefVariables(b.stmt) <= u
  {
    if nodes == [] then {} else CollectLastDefVariables(nodes[0].stmt) + AllLastDefs(nodes[1..])
  }

  /** The universe holds nothing else: a record is in the universe exactly when some block makes it. */
  lemma {:induction false} AllLastDefsExact(nodes: seq<BasicBlock>, v: VariableRecord)
    ensures v in AllLastDefs(nodes) <==> exists b :: b in nodes && v in CollectLastDefVariables(b.stmt)
  {
    if nodes != [] {
      AllLastDefsExact(nodes[1..], v);
      if v in AllLastDefs(nodes) && v !in CollectLastDefVariables(nodes[0].stmt) {
        var b :| b in nodes[1..] && v in CollectLastDefVariables(b.stmt);
        assert b in nodes;
      }
      if exists b :: b in nodes && v in CollectLastDefVariables(b.stmt) {
        var b :| b in nodes && v in CollectLastDefVariables(b.stmt);
        if b != nodes[0] {
          var i :| 0 <= i < |nodes| && nodes[i] == b;
          assert nodes[1..][i - 1] == b;
        }
      }
    }
  }

  predicate Bounded(cfg: Cfg, m: InfoMap)
  {
    forall k :: k in m ==> m[k].inSet <= AllLastDefs(cfg.nodes) && m[k].outSet <= AllLastDefs(cfg.nodes)
  }

  function Cost(u: VariableSet, info: DefInfo): nat
  {
    Deficit(u, info.inSet) + Deficit(u, info.outSet)
  }

  /** The cost of one entry, as a function the generic sum can apply. */
  function CostIn(u: VariableSet): DefInfo -> nat
  {
    info => Cost(u, info)
  }

  /** The termination measure: how far all sets still are from the universe. */
  function Potential(cfg: Cfg, m: InfoMap): nat
    requires NodeIdxs(cfg) <= m.Keys
  {
    SumOver(CostIn(AllLastDefs(cfg.nodes)), m, IdxSeq(cfg.nodes))
  }

  // ---------------------------------------------------------------------------
  // One update and one pass of the solver
  // ---------------------------------------------------------------------------

  /** Block `b`'s entry recomputed from the current map: `in` first, then `out`. */
  function Recompute(cfg: Cfg, m: InfoMap, b: BasicBlock): DefInfo
    requires Valid(cfg) && m.Keys == NodeIdxs(cfg) && b in cfg.nodes
  {
    var inB := OutUnion(m, Predecessors(cfg, b.idx));
    m[b.idx].(inSet := inB, outSet := m[b.idx].lastdef + Survivors(inB, m[b.idx].defkill))
  }

  /** Recomputation leaves an entry alone exactly when the block satisfies both equations. */
  lemma FixedIffEquations(cfg: Cfg, m: InfoMap, b: BasicBlock)
    requires Valid(cfg) && m.Keys == NodeIdxs(cfg) && b in cfg.nodes
    ensures Recompute(cfg, m, b) == m[b.idx] <==> InEquation(cfg, m, b) && OutEquation(m[b.idx])
  {
  }

  /** Recomputing a block of a sound map only grows its sets and keeps the map sound. */
  lemma UpdateSound(cfg: Cfg, m: InfoMap, b: BasicBlock)
    requires Valid(cfg) && Sound(cfg, m) && b in cfg.nodes
    ensures Below(m, m[b.idx := Recompute(cfg, m, b)])
    ensures Sound(cfg, m[b.idx := Recompute(cfg, m, b)])
  {
    var next := m[b.idx := Recompute(cfg, m, b)];
    assert Below(m, next);
    forall c | c in cfg.nodes
      ensures next[c.idx].inSet <= OutUnion(next, Predecessors(cfg, c.idx))
      ensures next[c.idx].outSet <= next[c.idx].lastdef + Survivors(next[c.idx].inSet, next[c.idx].defkill)
    {
      OutUnionMono(m, next, Predecessors(cfg, c.idx));
    }
  }

  /** Recomputing a block keeps every set within the definitions some block makes. */
  lemma UpdateBounded(cfg: Cfg, m: InfoMap, b: BasicBlock)
    requires Valid(cfg) && Initialized(cfg, m) && Bounded(cfg, m) && b in cfg.nodes
    ensures Bounded(cfg, m[b.idx := Recompute(cfg, m, b)])
  {
    var u := AllLastDefs(cfg.nodes);
    OutUnionWithin(m, Predecessors(cfg, b.idx), u);
    assert m[b.idx].lastdef <= u;
    assert Recompute(cfg, m, b).outSet <= u;
  }

  /** Recomputing a block of a map below every solution stays below every solution. */
  lemma UpdateBelowSolutions(cfg: Cfg, m: InfoMap, b: BasicBlock)
    requires Valid(cfg) && Initialized(cfg, m) && BelowEverySolution(cfg, m) && b in cfg.nodes
    ensures BelowEverySolution(cfg, m[b.idx := Recompute(cfg, m, b)])
  {
    var next := m[b.idx := Recompute(cfg, m, b)];
    forall x | IsSolution(cfg, x) ensures Below(next, x) {
      assert Below(m, x);
      OutUnionMono(m, x, Predecessors(cfg, b.idx));
      assert InEquation(cfg, x, b) && OutEquation(x[b.idx]);
    }
  }

  /** Growing an entry's sets inside the universe lowers its cost, strictly when the entry changes. */
  lemma CostShrinks(u: VariableSet, before: DefInfo, after: DefInfo)
    requires before.lastdef == after.lastdef && before.defkill == after.defkill
    requires before.inSet <= after.inSet <= u && before.outSet <= after.outSet <= u
    ensures Cost(u, after) <= Cost(u, before)
    ensures after != before ==> Cost(u, after) < Cost(u, before)
  {
    DeficitShrinks(u, before.inSet, after.inSet);
    DeficitShrinks(u, before.outSet, after.outSet);
  }

  /** Replacing one block's entry by a grown one never raises the potential. */
  lemma PotentialShrinks(cfg: Cfg, m: InfoMap, k: BlockIdx, info: DefInfo)
    requires Valid(cfg) && m.Keys == NodeIdxs(cfg) && k in m
    requires m[k].lastdef == info.lastdef && m[k].defkill == info.defkill
    requires m[k].inSet <= info.inSet <= AllLastDefs(cfg.nodes)
    requires m[k].outSet <= info.outSet <= AllLastDefs(cfg.nodes)
    ensures Potential(cfg, m[k := info]) <= Potential(cfg, m)
    ensures info != m[k] ==> Potential(cfg, m[k := info]) < Potential(cfg, m)
  {
    var u := AllLastDefs(cfg.nodes);
    var idxs := IdxSeq(cfg.nodes);
    assert k in idxs by {
      var b :| b in cfg.nodes && b.idx == k;
      var i :| 0 <= i < |cfg.nodes| && cfg.nodes[i] == b;
      assert idxs[i] == k;
    }
    SumOverUpdate(CostIn(u), m, idxs, k, info);
    CostShrinks(u, m[k], info);
  }

  /** Recomputing a block never raises the potential, and lowers it when the entry changed. */
  lemma UpdatePotential(cfg: Cfg, m: InfoMap, b: BasicBlock)
    requires Valid(cfg) && Initialized(cfg, m) && b in cfg.nodes
    requires Below(m, m[b.idx := Recompute(cfg, m, b)])
    requires Bounded(cfg, m[b.idx := Recompute(cfg, m, b)])
    ensures Potential(cfg, m[b.idx := Recompute(cfg, m, b)]) <= Potential(cfg, m)
    ensures Recompute(cfg, m, b) != m[b.idx] ==>
              Potential(cfg, m[b.idx := Recompute(cfg, m, b)]) < Potential(cfg, m)
  {
    var info := Recompute(cfg, m, b);
    var next := m[b.idx := info];
    assert next[b.idx] == info;
    PotentialShrinks(cfg, m, b.idx, info);
  }

  /** All the facts about one recomputation, as the pass uses them. */
  lemma UpdateBlock(cfg: Cfg, m: InfoMap, b: BasicBlock)
    requires Valid(cfg) && Sound(cfg, m) && Bounded(cfg, m) && BelowEverySolution(cfg, m)
    requires b in cfg.nodes
    ensures Sound(cfg, m[b.idx := Recompute(cfg, m, b)])
    ensures Bounded(cfg, m[b.idx := Recompute(cfg, m, b)])
    ensures BelowEverySolution(cfg, m[b.idx := Recompute(cfg, m, b)])
    ensures Below(m, m[b.idx := Recompute(cfg, m, b)])
    ensures Potential(cfg, m[b.idx := Recompute(cfg, m, b)]) <= Potential(cfg, m)
    ensures Recompute(cfg, m, b) != m[b.idx] ==>
              Potential(cfg, m[b.idx := Recompute(cfg, m, b)]) < Potential(cfg, m)
  {
    UpdateSound(cfg, m, b);
    UpdateBounded(cfg, m, b);
    UpdateBelowSolutions(cfg, m, b);
    UpdatePotential(cfg, m, b);
  }

  /** The `forEach` over `cfg.getPredecessors(idx)` that accumulates `in[B]`. */
  method CollectPredecessorOuts(cfg: Cfg, m: InfoMap, idx: BlockIdx) returns (inB: VariableSet)
    requires Valid(cfg) && m.Keys == NodeIdxs(cfg)
    ensures inB == OutUnion(m, Predecessors(cfg, idx))
    ensures forall v :: v in inB <==> exists p :: p in Predecessors(cfg, idx) && v in m[p].outSet
  {
    var predecessors := Predecessors(cfg, idx);
    inB := {};
    var j := 0;
    while j < |predecessors|
      invariant 0 <= j <= |predecessors|
      invariant inB == OutUnion(m, predecessors[..j])
    {
      assert predecessors[..j + 1][..j] == predecessors[..j];
      inB := inB + m[predecessors[j]].outSet;
      j := j + 1;
    }
    assert predecessors[..j] == predecessors;
    forall v ensures v in inB <==> exists p :: p in predecessors && v in m[p].outSet {
      OutUnionMembers(m, predecessors, v);
    }
  }

  /**
   * The body of the `forEach` over the blocks: compute `in[B]` from the
   * predecessors, then `out[B]`, and replace each set that differs from the stored one.
   */
  method UpdateEntry(cfg: Cfg, m: InfoMap, bb: BasicBlock) returns (info: DefInfo, changed: bool)
    requires Valid(cfg) && m.Keys == NodeIdxs(cfg) && bb in cfg.nodes
    ensures info == Recompute(cfg, m, bb)
    ensures changed <==> info != m[bb.idx]
    ensures changed <==> !(InEquation(cfg, m, bb) && OutEquation(m[bb.idx]))
  {
    info := m[bb.idx];
    changed := false;
    var inB := CollectPredecessorOuts(cfg, m, bb.idx);
    var outB := info.lastdef + Survivors(inB, info.defkill);
    if !SetsAreEqual(inB, info.inSet) {
      info := info.(inSet := inB);
      changed := true;
    }
    if !SetsAreEqual(outB, info.outSet) {
      info := info.(outSet := outB);
      changed := true;
    }
    FixedIffEquations(cfg, m, bb);
  }

  /** The blocks `nodes[..k]` are left alone by recomputation. */
  predicate FixedBefore(cfg: Cfg, m: InfoMap, k: nat)
    requires Valid(cfg) && m.Keys == NodeIdxs(cfg)
  {
    forall j :: 0 <= j < k && j < |cfg.nodes| ==> Recompute(cfg, m, cfg.nodes[j]) == m[cfg.nodes[j].idx]
  }

  lemma FixedIsSolution(cfg: Cfg, m: InfoMap)
    requires Valid(cfg) && Initialized(cfg, m) && FixedBefore(cfg, m, |cfg.nodes|)
    ensures IsSolution(cfg, m)
  {
    forall b | b in cfg.nodes ensures InEquation(cfg, m, b) && OutEquation(m[b.idx]) {
      var i :| 0 <= i < |cfg.nodes| && cfg.nodes[i] == b;
      FixedIffEquations(cfg, m, b);
    }
  }

  lemma UpdateSameValue(m: InfoMap, k: BlockIdx, info: DefInfo)
    requires k in m && m[k] == info
    ensures m[k := info] == m
  {
  }

  /** A block whose recomputation changes nothing leaves the map as it was, and one more block is fixed. */
  lemma StableVisit(cfg: Cfg, m: InfoMap, k: nat, info: DefInfo)
    requires Valid(cfg) && m.Keys == NodeIdxs(cfg) && k < |cfg.nodes| && FixedBefore(cfg, m, k)
    requires info == Recompute(cfg, m, cfg.nodes[k]) && info == m[cfg.nodes[k].idx]
    ensures m[cfg.nodes[k].idx := info] == m
    ensures FixedBefore(cfg, m, k + 1)
  {
    UpdateSameValue(m, cfg.nodes[k].idx, info);
  }

  /** What holds after the pass has visited `nodes[..k]`. */
  ghost predicate PassInvariant(cfg: Cfg, m: InfoMap, next: InfoMap, k: nat, stable: bool)
    requires Valid(cfg) && Sound(cfg, m)
  {
    && Sound(cfg, next) && Bounded(cfg, next) && BelowEverySolution(cfg, next)
    && Below(m, next)
    && Potential(cfg, next) <= Potential(cfg, m)
    && (stable ==> next == m && FixedBefore(cfg, m, k))
    && (!stable ==> Potential(cfg, next) < Potential(cfg, m))
    && (IsSolution(cfg, m) ==> stable)
  }

  /** Visiting block `nodes[k]` keeps the pass invariant. */
  lemma PassStep(cfg: Cfg, m: InfoMap, next: InfoMap, k: nat, stable: bool, info: DefInfo, changed: bool)
    requires Valid(cfg) && Sound(cfg, m) && k < |cfg.nodes|
    requires PassInvariant(cfg, m, next, k, stable)
    requires info == Recompute(cfg, next, cfg.nodes[k])
    requires changed <==> info != next[cfg.nodes[k].idx]
    ensures PassInvariant(cfg, m, next[cfg.nodes[k].idx := info], k + 1, stable && !changed)
  {
    var bb := cfg.nodes[k];
    var after := next[bb.idx := info];
    UpdateBlock(cfg, next, bb);
    assert Sound(cfg, after) && Bounded(cfg, after) && BelowEverySolution(cfg, after);
    assert Below(m, after);
    assert Potential(cfg, after) <= Potential(cfg, m);
    assert !(stable && !changed) ==> Potential(cfg, after) < Potential(cfg, m);
    if stable && !changed {
      StableVisit(cfg, m, k, info);
    }
    if IsSolution(cfg, m) {
      FixedIffEquations(cfg, m, bb);
      assert stable && !changed;
    }
  }

  /**
   * One iteration of `while (!stable)`: visit the blocks in order and
   * recompute `in` then `out`, recording whether anything changed.
   */
  method DefsPass(cfg: Cfg, m: InfoMap) returns (next: InfoMap, stable: bool)
    requires Valid(cfg) && Sound(cfg, m) && Bounded(cfg, m) && BelowEverySolution(cfg, m)
    ensures Sound(cfg, next) && Bounded(cfg, next) && BelowEverySolution(cfg, next)
    ensures Below(m, next)
    ensures stable <==> next == m
    ensures stable ==> IsSolution(cfg, next)
    ensures IsSolution(cfg, m) ==> stable
    ensures !stable ==> Potential(cfg, next) < Potential(cfg, m)
  {
    next := m;
    stable := true;
    var k := 0;
    while k < |cfg.nodes|
      invariant 0 <= k <= |cfg.nodes|
      invariant PassInvariant(cfg, m, next, k, stable)
    {
      var bb := cfg.nodes[k];
      var info, changed := UpdateEntry(cfg, next, bb);
      PassStep(cfg, m, next, k, stable, info, changed);
      next := next[bb.idx := info];
      stable := stable && !changed;
      k := k + 1;
    }
    if stable {
      FixedIsSolution(cfg, next);
    }
  }

  // ---------------------------------------------------------------------------
  // The analysis
  // ---------------------------------------------------------------------------

  function InitialInfo(s: Stmt): DefInfo
  {
    DefInfo(CollectLastDefVariables(s), CollectKilledVariables(s), {}, {})
  }

  /** Step 1: one entry per block, with the block's own `lastdef`/`defkill` and empty `in`/`out`. */
  method InitialMap(cfg: Cfg) returns (m: InfoMap)
    requires Valid(cfg)
    ensures Initialized(cfg, m)
    ensures forall k :: k in m ==> m[k].inSet == {} && m[k].outSet == {}
  {
    m := map[];
    var i := 0;
    while i < |cfg.nodes|
      invariant 0 <= i <= |cfg.nodes|
      invariant FilledUpTo(cfg, m, i)
    {
      var bb := cfg.nodes[i];
      FilledStep(cfg, m, i);
      m := m[bb.idx := InitialInfo(bb.stmt)];
      i := i + 1;
    }
    FilledIsInitialized(cfg, m);
  }

  /** The entries of the first `i` blocks are in place, and no others. */
  predicate FilledUpTo(cfg: Cfg, m: InfoMap, i: nat)
    requires i <= |cfg.nodes|
  {
    && m.Keys == (set j | 0 <= j < i :: cfg.nodes[j].idx)
    && forall j :: 0 <= j < i ==> m[cfg.nodes[j].idx] == InitialInfo(cfg.nodes[j].stmt)
  }

  /** Adding block `i`'s entry fills one more block. */
  lemma FilledStep(cfg: Cfg, m: InfoMap, i: nat)
    requires Valid(cfg) && i < |cfg.nodes| && FilledUpTo(cfg, m, i)
    ensures FilledUpTo(cfg, m[cfg.nodes[i].idx := InitialInfo(cfg.nodes[i].stmt)], i + 1)
  {
  }

  /** Once every block is filled, the map is the start map the solver needs. */
  lemma FilledIsInitialized(cfg: Cfg, m: InfoMap)
    requires Valid(cfg) && FilledUpTo(cfg, m, |cfg.nodes|)
    ensures Initialized(cfg, m)
    ensures forall k :: k in m ==> m[k].inSet == {} && m[k].outSet == {}
  {
    assert m.Keys == NodeIdxs(cfg) by {
      forall b | b in cfg.nodes ensures b.idx in m.Keys {
        var j :| 0 <= j < |cfg.nodes| && cfg.nodes[j] == b;
      }
    }
    forall b | b in cfg.nodes
      ensures m[b.idx].lastdef == CollectLastDefVariables(b.stmt) && m[b.idx].defkill == CollectKilledVariables(b.stmt)
    {
      var j :| 0 <= j < |cfg.nodes| && cfg.nodes[j] == b;
    }
  }

  /** The initial map is where the fixed-point iteration may start: sound, bounded and below every solution. */
  lemma InitialMapIsBelow(cfg: Cfg, m: InfoMap)
    requires Valid(cfg) && Initialized(cfg, m)
    requires forall k :: k in m ==> m[k].inSet == {} && m[k].outSet == {}
    ensures Sound(cfg, m) && Bounded(cfg, m) && BelowEverySolution(cfg, m)
  {
  }

  /** The all-empty start map solves the equations exactly when no block defines a name. */
  lemma EmptyStartSolvesIffNoLastDefs(cfg: Cfg, m: InfoMap)
    requires Valid(cfg) && Initialized(cfg, m)
    requires forall k :: k in m ==> m[k].inSet == {} && m[k].outSet == {}
    ensures IsSolution(cfg, m) <==> forall b :: b in cfg.nodes ==> CollectLastDefVariables(b.stmt) == {}
  {
    forall b | b in cfg.nodes ensures InEquation(cfg, m, b) {
      forall v | v in OutUnion(m, Predecessors(cfg, b.idx)) ensures false {
        OutUnionMembers(m, Predecessors(cfg, b.idx), v);
      }
    }
  }

  /**
   * `performDownwardExposedUsesAnalysis`: one entry per block with its
   * `lastdef`/`defkill` and empty `in`/`out`, then passes until one changes
   * nothing. The result is the least solution of the transfer equations and
   * holds only definitions some block makes. The loop runs at least one
   * pass, and stops after the first exactly when no block defines a name.
   */
  method PerformDownwardExposedUsesAnalysis(cfg: Cfg) returns (result: InfoMap, ghost passes: nat)
    requires Valid(cfg)
    ensures IsLeastSolution(cfg, result)
    ensures Bounded(cfg, result)
    ensures passes >= 1
    ensures passes == 1 <==> forall b :: b in cfg.nodes ==> CollectLastDefVariables(b.stmt) == {}
  {
    var m := InitialMap(cfg);
    InitialMapIsBelow(cfg, m);
    EmptyStartSolvesIffNoLastDefs(cfg, m);
    ghost var start := m;

    var stable := false;
    passes := 0;
    while !stable
      invariant Sound(cfg, m) && Bounded(cfg, m) && BelowEverySolution(cfg, m)
      invariant stable ==> IsSolution(cfg, m)
      invariant passes == 0 ==> m == start && !stable
      invariant stable ==> passes >= 1
      invariant passes == 1 && stable ==> IsSolution(cfg, start)
      invariant passes >= 1 && IsSolution(cfg, start) ==> passes == 1 && stable
      decreases Potential(cfg, m), if stable then 0 else 1
    {
      m, stable := DefsPass(cfg, m);
      passes := passes + 1;
    }
    result := m;
  }

  /** The least solution is unique, so the analysis is deterministic. */
  lemma LeastSolutionUnique(cfg: Cfg, a: InfoMap, b: InfoMap)
    requires Valid(cfg) && IsLeastSolution(cfg, a) && IsLeastSolution(cfg, b)
    ensures a == b
  {
    assert Below(a, b) && Below(b, a);
    forall k | k in a ensures a[k] == b[k] {
      SameEntry(cfg, a, b, k);
    }
  }

  /** Two initialised maps below each other agree at every block. */
  lemma SameEntry(cfg: Cfg, a: InfoMap, b: InfoMap, k: BlockIdx)
    requires Initialized(cfg, a) && Initialized(cfg, b) && Below(a, b) && Below(b, a) && k in a
    ensures a[k] == b[k]
  {
    var node :| node in cfg.nodes && node.idx == k;
    assert a[k].lastdef == b[k].lastdef && a[k].defkill == b[k].defkill;
    assert a[k].inSet == b[k].inSet && a[k].outSet == b[k].outSet;
  }


  /** A block without predecessors has no definitions reaching its entry. */
  lemma EntryBlockInEmpty(cfg: Cfg, m: InfoMap, b: BasicBlock)
    requires Valid(cfg) && IsSolution(cfg, m) && b in cfg.nodes
    requires Predecessors(cfg, b.idx) == []
    ensures m[b.idx].inSet == {}
  {
    assert InEquation(cfg, m, b);
  }

  /**
   * At a solution, a definition leaves a block exactly when the block makes
   * it, or it reaches the block and the block does not overwrite its name.
   */
  lemma ReachesExit(cfg: Cfg, m: InfoMap, b: BasicBlock, r: VariableRecord)
    requires Valid(cfg) && IsSolution(cfg, m) && b in cfg.nodes
    ensures r in m[b.idx].outSet <==>
              r in CollectLastDefVariables(b.stmt)
              || (r in m[b.idx].inSet && r.name !in CollectKilledVariables(b.stmt))
  {
    assert OutEquation(m[b.idx]);
  }

  // ---------------------------------------------------------------------------
  // Name extraction on concrete statements
  // ---------------------------------------------------------------------------

  /** An assignment `lhs ws = rest` whose target does not start with `s` defines and kills `lhs`. */
  lemma PlainAssignmentDefines(s: Stmt, lhs: string, ws: string, rest: string)
    requires s.Assign? && s.contents == lhs + ws + "=" + rest
    requires lhs != [] && lhs[0] != 's' && '=' !in lhs && !IsWhitespace(lhs[|lhs| - 1])
    requires AllWhitespace(ws)
    ensures TryExtractAssignedVarName(s) == lhs
    ensures CollectLastDefVariables(s) == {VariableRecord(lhs, s.id)} && CollectKilledVariables(s) == {lhs}
  {
    assert s.contents[0] == lhs[0] != "self."[0];
    AssignedNameOfPlainWithoutReceiver("self.", s, lhs, ws, rest);
  }

  /** A plain assignment is cut at its first `=`: `a = b;` defines `a`. */
  lemma ExtractedNameOfAssign(s: Stmt)
    requires s == Assign(1667, "a = b;", Id("a"), Id("b"))
    ensures TryExtractAssignedVarName(s) == "a"
    ensures CollectLastDefVariables(s) == {VariableRecord("a", 1667)} && CollectKilledVariables(s) == {"a"}
  {
    PlainAssignmentDefines(s, "a", " ", " b;");
  }

  /** The same with a longer right-hand side: `a = 14 + 15;` also defines `a`. */
  lemma ExtractedNameOfAssignSum(s: Stmt)
    requires s == Assign(1673, "a = 14 + 15;", Id("a"), OpBinary("+", Number(14), Number(15)))
    ensures TryExtractAssignedVarName(s) == "a"
    ensures CollectLastDefVariables(s) == {VariableRecord("a", 1673)} && CollectKilledVariables(s) == {"a"}
  {
    PlainAssignmentDefines(s, "a", " ", " 14 + 15;");
  }

  /** A leading `self.` is dropped: `self.count = 0;` defines `count`. */
  lemma ExtractedNameOfFieldAssign(s: Stmt)
    requires s == Assign(2, "self.count = 0;", FieldAccess(Id("self"), "count"), Number(0))
    ensures TryExtractAssignedVarName(s) == "count"
  {
    assert s.contents == "self." + ("count" + " " + "=" + " 0;");
    AssignedNameOfPlain("self.", s, "count", " ", " 0;");
  }

  /** An augmented assignment is cut at the compound operator: `total += x;` defines `total`. */
  lemma ExtractedNameOfAugmentedAssign(s: Stmt)
    requires s == AugmentedAssign(3, "total += x;", "+", Id("total"), Id("x"))
    ensures TryExtractAssignedVarName(s) == "total"
  {
    assert s.contents == "total" + " " + ['+', '='] + " x;";
    assert s.contents[0] != "self."[0];
    AssignedNameOfCompoundWithoutReceiver("self.", s, "total", " ", '+', " x;");
  }

  /**
   * The compound-operator class holds `+ , - . / * %` only. An augmented
   * assignment written with any other operator, such as `flags |= 1;`, has
   * no match, so its whole text becomes the name, and that name is what the
   * statement kills.
   */
  lemma ExtractedNameWithoutCompoundOperator(s: Stmt, pre: string, post: string)
    requires s.AugmentedAssign? && s.contents == pre + "=" + post && !StartsWith(s.contents, "self.")
    requires '=' !in pre && '=' !in post
    requires pre != [] && !IsCompoundOpChar(pre[|pre| - 1])
    requires !IsWhitespace(s.contents[|s.contents| - 1])
    ensures TryExtractAssignedVarName(s) == s.contents
    ensures CollectKilledVariables(s) == {s.contents}
  {
    NoCompoundOpAroundSingleEquals(pre, post);
    CompoundTargetWithoutOperator(s.contents);
  }

  /** Statements other than assignments define no name by text. */
  lemma ExtractedNameOfNonAssignment(s: Stmt)
    requires !s.Assign? && !s.AugmentedAssign?
    ensures TryExtractAssignedVarName(s) == "" && CollectKilledVariables(s) == {}
  {
  }

  // ---------------------------------------------------------------------------
  // The sample contract of the analysis' test
  // ---------------------------------------------------------------------------

  /**
   * `let a: Int = 0; while (a < 10) { let b: Int = a + 1; a = b; } a = 14 + 15; return a;`
   * as six blocks, one per statement. The defining statements carry the ids
   * of the test's table; the `while` and the `return` define nothing, so
   * their ids do not show in it.
   */
  function SampleNodes(): seq<BasicBlock>
  {
    var letB := Let(1664, "let b: Int = a + 1;", "b", Some(OpBinary("+", Id("a"), Number(1))));
    var assignA := Assign(1667, "a = b;", Id("a"), Id("b"));
    [BasicBlock(1, Let(1655, "let a: Int = 0;", "a", Some(Number(0)))),
     BasicBlock(2, While(1658, "while (a < 10)", OpBinary("<", Id("a"), Number(10)), [letB, assignA])),
     BasicBlock(3, letB),
     BasicBlock(4, assignA),
     BasicBlock(5, Assign(1673, "a = 14 + 15;", Id("a"), OpBinary("+", Number(14), Number(15)))),
     BasicBlock(6, Return(1676, "return a;", Some(Id("a"))))]
  }

  /** Into the loop, through its body and back, and out of it to the last two statements. */
  function SampleEdges(): seq<Edge>
  {
    [Edge(1, 2), Edge(2, 3), Edge(3, 4), Edge(4, 2), Edge(2, 5), Edge(5, 6)]
  }

  /** A graph with the sample's blocks and edges. */
  predicate IsSample(cfg: Cfg)
  {
    cfg.nodes == SampleNodes() && cfg.edges == SampleEdges()
  }

  /** The lastdef, defkill, in and out sets the test expects, block by block. */
  function SampleResult(): InfoMap
  {
    var a1655, b1664, a1667, a1673 := VariableRecord("a", 1655), VariableRecord("b", 1664),
                                      VariableRecord("a", 1667), VariableRecord("a", 1673);
    map[1 := DefInfo({a1655}, {}, {}, {a1655}),
        2 := DefInfo({}, {}, {a1655, a1667, b1664}, {a1655, a1667, b1664}),
        3 := DefInfo({b1664}, {}, {a1655, a1667, b1664}, {b1664, a1655, a1667}),
        4 := DefInfo({a1667}, {"a"}, {b1664, a1655, a1667}, {a1667, b1664}),
        5 := DefInfo({a1673}, {"a"}, {a1655, a1667, b1664}, {a1673, b1664}),
        6 := DefInfo({}, {}, {a1673, b1664}, {a1673, b1664})]
  }

  /** The union over a list of blocks depends only on which blocks it names. */
  lemma OutUnionOfSet(m: InfoMap, idxs: seq<BlockIdx>, blocks: set<BlockIdx>, u: VariableSet)
    requires forall k :: k in idxs ==> k in m
    requires forall k :: k in idxs <==> k in blocks
    requires forall v :: v in u <==> exists k :: k in blocks && v in m[k].outSet
    ensures OutUnion(m, idxs) == u
  {
    forall v ensures v in OutUnion(m, idxs) <==> v in u {
      OutUnionMembers(m, idxs, v);
    }
  }

  /** The sample's blocks in order: indices 1 to 6, with the table's `lastdef` and `defkill`. */
  ghost predicate SampleBlocks(cfg: Cfg)
  {
    && |cfg.nodes| == 6
    && NumberedFromOne(cfg)
    && forall i :: 0 <= i < 6 ==>
         && CollectLastDefVariables(cfg.nodes[i].stmt) == SampleResult()[i + 1].lastdef
         && CollectKilledVariables(cfg.nodes[i].stmt) == SampleResult()[i + 1].defkill
  }

  lemma SampleHasBlocks(cfg: Cfg)
    requires IsSample(cfg)
    ensures SampleBlocks(cfg)
  {
    forall i | 0 <= i < 6
      ensures && cfg.nodes[i].idx == i + 1
              && CollectLastDefVariables(cfg.nodes[i].stmt) == SampleResult()[i + 1].lastdef
              && CollectKilledVariables(cfg.nodes[i].stmt) == SampleResult()[i + 1].defkill
    {
      SampleBlockAt(cfg, i);
    }
  }

  lemma SampleBlockAt(cfg: Cfg, i: nat)
    requires IsSample(cfg) && i < 6
    ensures cfg.nodes[i].idx == i + 1
    ensures CollectLastDefVariables(cfg.nodes[i].stmt) == SampleResult()[i + 1].lastdef
    ensures CollectKilledVariables(cfg.nodes[i].stmt) == SampleResult()[i + 1].defkill
  {
    if i == 3 {
      ExtractedNameOfAssign(cfg.nodes[i].stmt);
    } else if i == 4 {
      ExtractedNameOfAssignSum(cfg.nodes[i].stmt);
    }
  }

  lemma SampleNodeIdxs(cfg: Cfg)
    requires |cfg.nodes| == 6 && NumberedFromOne(cfg)
    ensures NodeIdxs(cfg) == {1, 2, 3, 4, 5, 6}
    ensures forall i, j :: 0 <= i < j < |cfg.nodes| ==> cfg.nodes[i].idx != cfg.nodes[j].idx
  {
    forall k ensures k in NodeIdxs(cfg) <==> k in {1, 2, 3, 4, 5, 6} {
      NumberedIdxs(cfg, k);
    }
    NumberedIdxs(cfg, 0);
  }

  /** The sample's blocks are numbered 1 to 6 in order. */
  lemma SampleNumbered(cfg: Cfg)
    requires cfg.nodes == SampleNodes()
    ensures |cfg.nodes| == 6 && NumberedFromOne(cfg)
  {
  }

  /** Every edge of the sample joins two of its blocks. */
  lemma SampleEdgesWithin()
    ensures forall e :: e in SampleEdges() ==> 1 <= e.src <= 6 && 1 <= e.dst <= 6
  {
  }

  lemma SampleValid(cfg: Cfg)
    requires IsSample(cfg)
    ensures Valid(cfg)
  {
    SampleNumbered(cfg);
    SampleEdgesWithin();
    NumberedIdxs(cfg, 0);
    forall e | e in cfg.edges ensures e.src in NodeIdxs(cfg) && e.dst in NodeIdxs(cfg) {
      NumberedIdxs(cfg, e.src);
      NumberedIdxs(cfg, e.dst);
    }
  }

  /** The predecessor lists of the sample's blocks, up to order. */
  ghost predicate SamplePredecessors(cfg: Cfg)
  {
    && Predecessors(cfg, 1) == []
    && (forall j :: j in Predecessors(cfg, 2) <==> j == 1 || j == 4)
    && (forall j :: j in Predecessors(cfg, 3) <==> j == 2)
    && (forall j :: j in Predecessors(cfg, 4) <==> j == 3)
    && (forall j :: j in Predecessors(cfg, 5) <==> j == 2)
    && (forall j :: j in Predecessors(cfg, 6) <==> j == 5)
  }

  lemma SampleHasPredecessors(cfg: Cfg)
    requires IsSample(cfg)
    ensures SamplePredecessors(cfg)
  {
    SamplePredecessorsOf1(cfg);
    SamplePredecessorsOf2(cfg);
    SamplePredecessorsOf3(cfg);
    SamplePredecessorsOf4(cfg);
    SamplePredecessorsOf5(cfg);
    SamplePredecessorsOf6(cfg);
  }

  lemma SamplePredecessorsOf1(cfg: Cfg) requires cfg.edges == SampleEdges() ensures Predecessors(cfg, 1) == [] {}

  /** Which edges of the sample enter each block. */
  lemma SampleEdgesInto(j: BlockIdx)
    ensures Edge(j, 2) in SampleEdges() <==> j == 1 || j == 4
    ensures Edge(j, 3) in SampleEdges() <==> j == 2
    ensures Edge(j, 4) in SampleEdges() <==> j == 3
    ensures Edge(j, 5) in SampleEdges() <==> j == 2
    ensures Edge(j, 6) in SampleEdges() <==> j == 5
  {
  }

  lemma SamplePredecessorsOf2(cfg: Cfg)
    requires cfg.edges == SampleEdges()
    ensures forall j :: j in Predecessors(cfg, 2) <==> j == 1 || j == 4
  {
    forall j ensures j in Predecessors(cfg, 2) <==> j == 1 || j == 4 {
      SampleEdgesInto(j);
    }
  }

  lemma SamplePredecessorsOf3(cfg: Cfg)
    requires cfg.edges == SampleEdges()
    ensures forall j :: j in Predecessors(cfg, 3) <==> j == 2
  {
    forall j ensures j in Predecessors(cfg, 3) <==> j == 2 {
      SampleEdgesInto(j);
    }
  }

  lemma SamplePredecessorsOf4(cfg: Cfg)
    requires cfg.edges == SampleEdges()
    ensures forall j :: j in Predecessors(cfg, 4) <==> j == 3
  {
    forall j ensures j in Predecessors(cfg, 4) <==> j == 3 {
      SampleEdgesInto(j);
    }
  }

  lemma SamplePredecessorsOf5(cfg: Cfg)
    requires cfg.edges == SampleEdges()
    ensures forall j :: j in Predecessors(cfg, 5) <==> j == 2
  {
    forall j ensures j in Predecessors(cfg, 5) <==> j == 2 {
      SampleEdgesInto(j);
    }
  }

  lemma SamplePredecessorsOf6(cfg: Cfg)
    requires cfg.edges == SampleEdges()
    ensures forall j :: j in Predecessors(cfg, 6) <==> j == 5
  {
    forall j ensures j in Predecessors(cfg, 6) <==> j == 5 {
      SampleEdgesInto(j);
    }
  }

  /** On a map over the sample's blocks, the `in` equations read as unions of named blocks. */
  lemma SampleUnions(cfg: Cfg, m: InfoMap)
    requires SamplePredecessors(cfg) && m.Keys == {1, 2, 3, 4, 5, 6}
    ensures OutUnion(m, Predecessors(cfg, 1)) == {}
    ensures OutUnion(m, Predecessors(cfg, 2)) == m[1].outSet + m[4].outSet
    ensures OutUnion(m, Predecessors(cfg, 3)) == m[2].outSet
    ensures OutUnion(m, Predecessors(cfg, 4)) == m[3].outSet
    ensures OutUnion(m, Predecessors(cfg, 5)) == m[2].outSet
    ensures OutUnion(m, Predecessors(cfg, 6)) == m[5].outSet
  {
    OutUnionOfSet(m, Predecessors(cfg, 2), {1, 4}, m[1].outSet + m[4].outSet);
    OutUnionOfSet(m, Predecessors(cfg, 3), {2}, m[2].outSet);
    OutUnionOfSet(m, Predecessors(cfg, 4), {3}, m[3].outSet);
    OutUnionOfSet(m, Predecessors(cfg, 5), {2}, m[2].outSet);
    OutUnionOfSet(m, Predecessors(cfg, 6), {5}, m[5].outSet);
  }

  /** The table satisfies both equations at every block. */
  lemma SampleOutEquations()
    ensures forall k :: k in SampleResult() ==> OutEquation(SampleResult()[k])
  {
    var r := SampleResult();
    var b1664 := VariableRecord("b", 1664);
    assert Survivors(r[4].inSet, {"a"}) == {b1664};
    assert Survivors(r[5].inSet, {"a"}) == {b1664};
  }

  lemma SampleResultIsSolution(cfg: Cfg)
    requires Valid(cfg) && SampleBlocks(cfg) && SamplePredecessors(cfg)
    ensures IsSolution(cfg, SampleResult())
  {
    var r := SampleResult();
    SampleNodeIdxs(cfg);
    forall b | b in cfg.nodes
      ensures r[b.idx].lastdef == CollectLastDefVariables(b.stmt) && r[b.idx].defkill == CollectKilledVariables(b.stmt)
      ensures InEquation(cfg, r, b) && OutEquation(r[b.idx])
    {
      var i :| 0 <= i < 6 && cfg.nodes[i] == b;
      SampleResultAt(cfg, i);
    }
    assert Initialized(cfg, r);
  }

  lemma SampleResultAt(cfg: Cfg, i: nat)
    requires Valid(cfg) && SampleBlocks(cfg) && SamplePredecessors(cfg) && i < 6
    ensures NodeIdxs(cfg) == SampleResult().Keys && cfg.nodes[i].idx == i + 1
    ensures SampleResult()[i + 1].lastdef == CollectLastDefVariables(cfg.nodes[i].stmt)
    ensures SampleResult()[i + 1].defkill == CollectKilledVariables(cfg.nodes[i].stmt)
    ensures InEquation(cfg, SampleResult(), cfg.nodes[i]) && OutEquation(SampleResult()[i + 1])
  {
    var r := SampleResult();
    SampleNodeIdxs(cfg);
    SampleUnions(cfg, r);
    SampleOutEquations();
    SampleInSets();
    assert cfg.nodes[i].idx == i + 1;
    if i == 0 {
      assert r[1].inSet == OutUnion(r, Predecessors(cfg, 1));
    } else if i == 1 {
      assert r[2].inSet == OutUnion(r, Predecessors(cfg, 2));
    } else if i == 2 {
      assert r[3].inSet == OutUnion(r, Predecessors(cfg, 3));
    } else if i == 3 {
      assert r[4].inSet == OutUnion(r, Predecessors(cfg, 4));
    } else if i == 4 {
      assert r[5].inSet == OutUnion(r, Predecessors(cfg, 5));
    } else {
      assert r[6].inSet == OutUnion(r, Predecessors(cfg, 6));
    }
  }

  /** Each `in` set of the table is the union of its predecessors' `out` sets. */
  lemma SampleInSets()
    ensures SampleResult()[1].inSet == {}
    ensures SampleResult()[2].inSet == SampleResult()[1].outSet + SampleResult()[4].outSet
    ensures SampleResult()[3].inSet == SampleResult()[2].outSet
    ensures SampleResult()[4].inSet == SampleResult()[3].outSet
    ensures SampleResult()[5].inSet == SampleResult()[2].outSet
    ensures SampleResult()[6].inSet == SampleResult()[5].outSet
  {
  }

  /** The table is below any map that follows the sample's equations. */
  lemma SampleResultBelow(x: InfoMap)
    requires x.Keys == {1, 2, 3, 4, 5, 6}
    requires x[1].lastdef == {VariableRecord("a", 1655)} && x[3].lastdef == {VariableRecord("b", 1664)}
    requires x[4].lastdef == {VariableRecord("a", 1667)} && x[5].lastdef == {VariableRecord("a", 1673)}
    requires x[2].lastdef == {} && x[6].lastdef == {}
    requires x[1].defkill == {} && x[2].defkill == {} && x[3].defkill == {} && x[6].defkill == {}
    requires x[4].defkill == {"a"} && x[5].defkill == {"a"}
    requires x[2].inSet == x[1].outSet + x[4].outSet && x[3].inSet == x[2].outSet
    requires x[4].inSet == x[3].outSet && x[5].inSet == x[2].outSet && x[6].inSet == x[5].outSet
    requires OutEquation(x[1]) && OutEquation(x[2]) && OutEquation(x[3])
    requires OutEquation(x[4]) && OutEquation(x[5]) && OutEquation(x[6])
    ensures Below(SampleResult(), x)
  {
    var a1655, b1664, a1667 := VariableRecord("a", 1655), VariableRecord("b", 1664), VariableRecord("a", 1667);
    assert a1655 in x[2].inSet && a1667 in x[2].inSet;
    assert b1664 in x[4].inSet;
    assert b1664 in x[4].outSet;
    assert b1664 in x[2].inSet;
    assert x[2].inSet <= x[2].outSet;
    assert b1664 in x[5].inSet;
    assert b1664 in x[5].outSet;
    assert x[6].inSet <= x[6].outSet;
  }

  /** The `lastdef` and `defkill` entries of the table. */
  lemma SampleLocalSets()
    ensures SampleResult()[1].lastdef == {VariableRecord("a", 1655)} && SampleResult()[3].lastdef == {VariableRecord("b", 1664)}
    ensures SampleResult()[4].lastdef == {VariableRecord("a", 1667)} && SampleResult()[5].lastdef == {VariableRecord("a", 1673)}
    ensures SampleResult()[2].lastdef == {} && SampleResult()[6].lastdef == {}
    ensures SampleResult()[1].defkill == {} && SampleResult()[2].defkill == {}
    ensures SampleResult()[3].defkill == {} && SampleResult()[6].defkill == {}
    ensures SampleResult()[4].defkill == {"a"} && SampleResult()[5].defkill == {"a"}
  {
  }

  /** Every solution holds at least the expected sets. */
  lemma SampleResultBelowSolutions(cfg: Cfg, x: InfoMap)
    requires Valid(cfg) && SampleBlocks(cfg) && SamplePredecessors(cfg) && IsSolution(cfg, x)
    ensures Below(SampleResult(), x)
  {
    SampleSolutionAt(cfg, x, 0);
    SampleSolutionAt(cfg, x, 1);
    SampleSolutionAt(cfg, x, 2);
    SampleSolutionAt(cfg, x, 3);
    SampleSolutionAt(cfg, x, 4);
    SampleSolutionAt(cfg, x, 5);
    SampleNodeIdxs(cfg);
    SampleUnions(cfg, x);
    SampleLocalSets();
    SampleResultBelow(x);
  }

  /** What a solution's equations say at the block in position `i`. */
  lemma SampleSolutionAt(cfg: Cfg, x: InfoMap, i: nat)
    requires Valid(cfg) && SampleBlocks(cfg) && IsSolution(cfg, x) && i < 6
    ensures x.Keys == NodeIdxs(cfg) && i + 1 in x
    ensures x[i + 1].lastdef == SampleResult()[i + 1].lastdef && x[i + 1].defkill == SampleResult()[i + 1].defkill
    ensures x[i + 1].inSet == OutUnion(x, Predecessors(cfg, i + 1))
    ensures OutEquation(x[i + 1])
  {
    var b := cfg.nodes[i];
    assert b in cfg.nodes && b.idx == i + 1;
    assert InEquation(cfg, x, b) && OutEquation(x[b.idx]);
  }

  /**
   * The test's table is what the analysis computes on the sample: it is the
   * least solution, and any least solution equals it. In particular the
   * definition of `b` at 1664 reaches the `return` past both redefinitions of `a`.
   */
  lemma SampleAnalysisResult(cfg: Cfg, result: InfoMap)
    requires IsSample(cfg)
    ensures Valid(cfg) && IsLeastSolution(cfg, SampleResult())
    ensures Valid(cfg) && IsLeastSolution(cfg, result) ==> result == SampleResult()
    ensures VariableRecord("b", 1664) in SampleResult()[6].inSet
  {
    SampleValid(cfg);
    SampleHasBlocks(cfg);
    SampleHasPredecessors(cfg);
    SampleResultIsSolution(cfg);
    forall x: InfoMap | IsSolution(cfg, x) ensures Below(SampleResult(), x) {
      SampleResultBelowSolutions(cfg, x);
    }
    if IsLeastSolution(cfg, result) {
      LeastSolutionUnique(cfg, result, SampleResult());
    }
  }
}
